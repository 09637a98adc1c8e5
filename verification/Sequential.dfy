/** The sequential master: every task once, in order, and then the merge. */
module Sequential {
  import opened GroupBy
  import opened FileNames
  import opened Files
  import opened MapTask
  import opened ReduceTask
  import opened MergeTask
  import opened Phases
  import opened Job

  /** What the map tasks emit whose input file can be read. */
  ghost function Emitted(inFiles: seq<string>, inputs: map<string, string>, mapF: Mapper, k: nat): Emits
    requires k <= |inFiles|
  {
    map m: nat | m < k && inFiles[m] in inputs :: mapF(inFiles[m], inputs[inFiles[m]])
  }

  lemma MapRunContent(files: FileMap, job: string, n: nat, hash: Hash, t: nat, kvs: seq<KeyValue>, r: nat)
    requires r < n
    ensures FileIs(PerformAll(files, MapWrites(MapFiles(job, t, n), hash, kvs)), ReduceName(job, t, r),
                   Partition(kvs, hash, n, r))
  {
    var names := MapFiles(job, t, n);
    MapFilesDistinct(job, t, n);
    FileAfter(files, names[r], MapWrites(names, hash, kvs));
    MapWritesContent(names, hash, kvs, r, Content(files, names[r]));
  }

  lemma MapRunOthers(files: FileMap, names: seq<string>, hash: Hash, kvs: seq<KeyValue>, name: string)
    requires names != [] && name !in names
    ensures SameFile(files, PerformAll(files, MapWrites(names, hash, kvs)), name)
  {
    Untouched(files, name, MapWrites(names, hash, kvs));
  }

  ghost predicate TaskMapped(files: FileMap, after: FileMap, job: string, n: nat, hash: Hash, t: nat,
                             kvs: seq<KeyValue>)
    requires n > 0
  {
    && (forall r: nat :: r < n ==> FileIs(after, ReduceName(job, t, r), Partition(kvs, hash, n, r)))
    && (forall name :: name !in MapFiles(job, t, n) ==> SameFile(files, after, name))
  }

  lemma MapRun(files: FileMap, job: string, n: nat, hash: Hash, t: nat, kvs: seq<KeyValue>)
    requires n > 0
    ensures TaskMapped(files, PerformAll(files, MapWrites(MapFiles(job, t, n), hash, kvs)), job, n, hash, t, kvs)
  {
    var after := PerformAll(files, MapWrites(MapFiles(job, t, n), hash, kvs));
    forall r: nat | r < n ensures FileIs(after, ReduceName(job, t, r), Partition(kvs, hash, n, r)) {
      MapRunContent(files, job, n, hash, t, kvs, r);
    }
    forall name | name !in MapFiles(job, t, n) ensures SameFile(files, after, name) {
      MapRunOthers(files, MapFiles(job, t, n), hash, kvs, name);
    }
  }

  lemma NotAmongMapFiles(job: string, t: nat, n: nat, m: nat, r: nat)
    requires m != t
    ensures ReduceName(job, m, r) !in MapFiles(job, t, n)
  {
    var names := MapFiles(job, t, n);
    forall q | 0 <= q < n ensures names[q] != ReduceName(job, m, r) {
      if names[q] == ReduceName(job, m, r) { ReduceNamesDistinct(job, t, q, m, r); }
    }
  }

  lemma NotMapFile(name: string, job: string, n: nat, emits: Emits, t: nat, kvs: seq<KeyValue>)
    requires !IsMapName(name, job, n, emits[t := kvs])
    ensures !IsMapName(name, job, n, emits) && name !in MapFiles(job, t, n)
  {
    var now := emits[t := kvs];
    forall m: nat, r: nat | m in emits && r < n ensures name != ReduceName(job, m, r) {
      assert m in now;
    }
    forall r | 0 <= r < n ensures name != MapFiles(job, t, n)[r] {
      assert t in now;
    }
  }

  lemma OneMoreMap(before: FileMap, files: FileMap, after: FileMap, job: string, n: nat, hash: Hash,
                   emits: Emits, t: nat, kvs: seq<KeyValue>)
    requires n > 0 && t !in emits && MapDone(before, files, job, n, hash, emits)
    requires TaskMapped(files, after, job, n, hash, t, kvs)
    ensures MapDone(before, after, job, n, hash, emits[t := kvs])
  {
    var now := emits[t := kvs];
    forall m: nat, r: nat | m in now && r < n
      ensures FileIs(after, ReduceName(job, m, r), Partition(now[m], hash, n, r))
    {
      if m != t {
        NotAmongMapFiles(job, t, n, m, r);
        assert FileIs(files, ReduceName(job, m, r), Partition(emits[m], hash, n, r));
        assert SameFile(files, after, ReduceName(job, m, r));
      }
    }
    forall name | !IsMapName(name, job, n, now) ensures SameFile(before, after, name) {
      NotMapFile(name, job, n, emits, t, kvs);
      assert SameFile(before, files, name) && SameFile(files, after, name);
    }
  }

  lemma NoMapsYet(files: FileMap, job: string, n: nat, hash: Hash, inFiles: seq<string>,
                  inputs: map<string, string>, mapF: Mapper)
    requires n > 0
    ensures MapDone(files, files, job, n, hash, Emitted(inFiles, inputs, mapF, 0))
  {
  }

  lemma OneMoreInput(inFiles: seq<string>, inputs: map<string, string>, mapF: Mapper, i: nat)
    requires i < |inFiles|
    ensures i !in Emitted(inFiles, inputs, mapF, i)
    ensures Emitted(inFiles, inputs, mapF, i + 1) ==
            if inFiles[i] in inputs then Emitted(inFiles, inputs, mapF, i)[i := mapF(inFiles[i], inputs[inFiles[i]])]
            else Emitted(inFiles, inputs, mapF, i)
  {
  }

  lemma MapStep(before: FileMap, files: FileMap, job: string, n: nat, hash: Hash, inFiles: seq<string>,
                inputs: map<string, string>, mapF: Mapper, i: nat)
    requires n > 0 && i < |inFiles|
    requires MapDone(before, files, job, n, hash, Emitted(inFiles, inputs, mapF, i))
    ensures MapDone(before, MapResult(files, job, i, inFiles[i], n, inputs, mapF, hash), job, n, hash,
                    Emitted(inFiles, inputs, mapF, i + 1))
  {
    var emits := Emitted(inFiles, inputs, mapF, i);
    OneMoreInput(inFiles, inputs, mapF, i);
    if inFiles[i] in inputs {
      var kvs := mapF(inFiles[i], inputs[inFiles[i]]);
      var after := PerformAll(files, MapWrites(MapFiles(job, i, n), hash, kvs));
      MapRun(files, job, n, hash, i, kvs);
      OneMoreMap(before, files, after, job, n, hash, emits, i, kvs);
    }
  }

  method RunMaps(disk: Disk, job: string, inFiles: seq<string>, n: nat, inputs: map<string, string>,
                 mapF: Mapper, hash: Hash)
    requires n > 0
    modifies disk
    ensures MapDone(old(disk.files), disk.files, job, n, hash, Emitted(inFiles, inputs, mapF, |inFiles|))
  {
    ghost var before := disk.files;
    NoMapsYet(before, job, n, hash, inFiles, inputs, mapF);
    for i := 0 to |inFiles|
      invariant MapDone(before, disk.files, job, n, hash, Emitted(inFiles, inputs, mapF, i))
    {
      MapStep(before, disk.files, job, n, hash, inFiles, inputs, mapF, i);
      DoMap(disk, job, i, inFiles[i], n, inputs, mapF, hash);
    }
  }

  /** Reduce tasks do not write what reduce tasks read. */
  lemma {:induction false} GatherUnchanged(before: FileMap, files: FileMap, job: string, nMap: nat, n: nat, r: nat)
    requires forall name :: !IsResultName(name, job, n) ==> SameFile(before, files, name)
    ensures Gather(files, job, nMap, r) == Gather(before, job, nMap, r)
    ensures HasInputs(files, job, nMap, r) <==> HasInputs(before, job, nMap, r)
  {
    forall m: nat | m < nMap ensures SameFile(before, files, ReduceName(job, m, r)) {
      IntermediateIsNoResult(job, m, r, n);
    }
    if nMap > 0 {
      GatherUnchanged(before, files, job, nMap - 1, n, r);
      assert SameFile(before, files, ReduceName(job, nMap - 1, r));
    }
  }

  lemma IntermediateIsNoResult(job: string, m: nat, r: nat, n: nat)
    ensures !IsResultName(ReduceName(job, m, r), job, n)
  {
    forall q: nat | q < n ensures ReduceName(job, m, r) != MergeName(job, q) {
      KindsDistinct(job, m, r, q);
    }
  }

  ghost predicate TaskReduced(files: FileMap, after: FileMap, name: string, out: seq<KeyValue>) {
    && FileIs(after, name, out)
    && forall other :: other != name ==> SameFile(files, after, other)
  }

  lemma ReduceRun(files: FileMap, name: string, out: seq<KeyValue>)
    ensures TaskReduced(files, PerformAll(files, FileWrites(name, out)), name, out)
  {
    var ws := FileWrites(name, out);
    FileAfter(files, name, ws);
    FileWritesContent(Content(files, name), name, out);
    assert ws[0].name == name;
    forall other | other != name ensures SameFile(files, PerformAll(files, ws), other) {
      Untouched(files, other, ws);
    }
  }

  lemma NotResult(name: string, job: string, r: nat)
    requires !IsResultName(name, job, r + 1)
    ensures name != MergeName(job, r) && !IsResultName(name, job, r)
  {
  }

  lemma EarlierResult(job: string, q: nat, r: nat)
    requires q < r
    ensures MergeName(job, q) != MergeName(job, r)
  {
    if MergeName(job, q) == MergeName(job, r) { MergeNamesDistinct(job, q, r); }
  }

  lemma OneMoreReduce(before: FileMap, files: FileMap, after: FileMap, job: string, nMap: nat, r: nat, reduceF: Reducer)
    requires ReduceDone(before, files, job, nMap, r, reduceF)
    requires TaskReduced(files, after, MergeName(job, r), GroupOf(Gather(before, job, nMap, r), reduceF))
    ensures ReduceDone(before, after, job, nMap, r + 1, reduceF)
  {
    forall q: nat | q < r ensures FileIs(after, MergeName(job, q), GroupOf(Gather(before, job, nMap, q), reduceF)) {
      assert FileIs(files, MergeName(job, q), GroupOf(Gather(before, job, nMap, q), reduceF));
      EarlierResult(job, q, r);
      assert SameFile(files, after, MergeName(job, q));
    }
    forall other | !IsResultName(other, job, r + 1) ensures SameFile(before, after, other) {
      NotResult(other, job, r);
      assert SameFile(before, files, other) && SameFile(files, after, other);
    }
  }

  /** One more reduce task succeeds exactly when its inputs were there before the phase. */
  lemma ReduceStep(before: FileMap, files: FileMap, job: string, nMap: nat, r: nat, reduceF: Reducer)
    requires ReduceDone(before, files, job, nMap, r, reduceF)
    ensures HasInputs(files, job, nMap, r) <==> HasInputs(before, job, nMap, r)
    ensures ReduceDone(before, PerformAll(files, ReduceWrites(files, job, r, nMap, reduceF)), job, nMap, r + 1, reduceF)
  {
    GatherUnchanged(before, files, job, nMap, r, r);
    var name, out := MergeName(job, r), GroupOf(Gather(before, job, nMap, r), reduceF);
    ReduceRun(files, name, out);
    OneMoreReduce(before, files, PerformAll(files, FileWrites(name, out)), job, nMap, r, reduceF);
  }

  ghost predicate AllHaveInputs(files: FileMap, job: string, nMap: nat, n: nat) {
    forall r: nat :: r < n ==> HasInputs(files, job, nMap, r)
  }

  /** Reduce task r was the first to miss a file; those before it have left their results. */
  ghost predicate StoppedAt(before: FileMap, after: FileMap, job: string, nMap: nat, r: nat, reduceF: Reducer) {
    && AllHaveInputs(before, job, nMap, r) && !HasInputs(before, job, nMap, r)
    && ReduceDone(before, after, job, nMap, r, reduceF)
  }

  lemma OneMoreInputs(files: FileMap, job: string, nMap: nat, r: nat, n: nat)
    requires AllHaveInputs(files, job, nMap, r) && r < n
    ensures AllHaveInputs(files, job, nMap, r + 1) <==> HasInputs(files, job, nMap, r)
    ensures AllHaveInputs(files, job, nMap, n) ==> HasInputs(files, job, nMap, r)
  {
  }

  lemma NoReducesYet(files: FileMap, job: string, nMap: nat, reduceF: Reducer)
    ensures ReduceDone(files, files, job, nMap, 0, reduceF)
  {
  }

  /** The answer is false where the original stops the process. */
  method RunReduces(disk: Disk, job: string, nMap: nat, n: nat, reduceF: Reducer) returns (ok: bool)
    modifies disk
    ensures ok <==> AllHaveInputs(old(disk.files), job, nMap, n)
    ensures ok ==> ReduceDone(old(disk.files), disk.files, job, nMap, n, reduceF)
    ensures !ok ==> exists r: nat :: r < n && StoppedAt(old(disk.files), disk.files, job, nMap, r, reduceF)
  {
    ghost var before := disk.files;
    NoReducesYet(before, job, nMap, reduceF);
    for i := 0 to n
      invariant AllHaveInputs(before, job, nMap, i)
      invariant ReduceDone(before, disk.files, job, nMap, i, reduceF)
    {
      ReduceStep(before, disk.files, job, nMap, i, reduceF);
      OneMoreInputs(before, job, nMap, i, n);
      ok := DoReduce(disk, job, i, nMap, reduceF);
      if !ok {
        assert StoppedAt(before, disk.files, job, nMap, i, reduceF);
        return;
      }
    }
    ok := true;
  }

  /** Every intermediate file that the reduce tasks will open is written by this job or was there before. */
  ghost predicate Runnable(before: FileMap, job: string, inFiles: seq<string>, n: nat, inputs: map<string, string>) {
    forall m: nat, r: nat :: m < |inFiles| && r < n && inFiles[m] !in inputs ==> ReduceName(job, m, r) in before
  }

  lemma PresentAfterMaps(before: FileMap, files: FileMap, job: string, n: nat, hash: Hash, emits: Emits, m: nat, r: nat)
    requires r < n && MapDone(before, files, job, n, hash, emits)
    ensures ReduceName(job, m, r) in files <==> m in emits || ReduceName(job, m, r) in before
  {
    if m in emits {
      assert FileIs(files, ReduceName(job, m, r), Partition(emits[m], hash, n, r));
    } else {
      NotMapped(job, n, emits, m, r);
      assert SameFile(before, files, ReduceName(job, m, r));
    }
  }

  lemma RunnableExactly(before: FileMap, files: FileMap, job: string, inFiles: seq<string>, n: nat,
                        inputs: map<string, string>, mapF: Mapper, hash: Hash)
    requires n > 0 && MapDone(before, files, job, n, hash, Emitted(inFiles, inputs, mapF, |inFiles|))
    ensures AllHaveInputs(files, job, |inFiles|, n) <==> Runnable(before, job, inFiles, n, inputs)
  {
    var emits := Emitted(inFiles, inputs, mapF, |inFiles|);
    if Runnable(before, job, inFiles, n, inputs) {
      forall m: nat, r: nat | m < |inFiles| && r < n ensures ReduceName(job, m, r) in files {
        PresentAfterMaps(before, files, job, n, hash, emits, m, r);
      }
    }
    if AllHaveInputs(files, job, |inFiles|, n) {
      forall m: nat, r: nat | m < |inFiles| && r < n && inFiles[m] !in inputs ensures ReduceName(job, m, r) in before {
        assert HasInputs(files, job, |inFiles|, r);
        PresentAfterMaps(before, files, job, n, hash, emits, m, r);
      }
    }
  }

  /** The job has stopped in its reduce phase. */
  ghost predicate JobStopped(before: FileMap, after: FileMap, job: string, nMap: nat, n: nat, hash: Hash,
                             emits: Emits, reduceF: Reducer)
    requires n > 0
  {
    exists f1, r: nat ::
      r < n && MapDone(before, f1, job, n, hash, emits) && StoppedAt(f1, after, job, nMap, r, reduceF)
  }

  /** With readable inputs nothing is left over from earlier jobs. */
  lemma AllReadable(before: FileMap, job: string, inFiles: seq<string>, n: nat, hash: Hash, inputs: map<string, string>,
                    mapF: Mapper)
    requires n > 0 && forall m :: 0 <= m < |inFiles| ==> inFiles[m] in inputs
    ensures var emits := Emitted(inFiles, inputs, mapF, |inFiles|);
            Completes(before, job, |inFiles|, n, hash, emits, emits) && Runnable(before, job, inFiles, n, inputs)
  {
  }

  /** The job runs to its end exactly when no reduce task misses a file; otherwise it stops at the first one
      that does. Whenever every map task has its pairs, emitted now or left by an earlier job, the output file
      is the plain group-by of them all. */
  method Run(disk: Disk, job: string, inFiles: seq<string>, n: nat, inputs: map<string, string>,
             mapF: Mapper, hash: Hash, reduceF: Reducer)
    returns (ok: bool)
    requires n > 0
    modifies disk
    ensures ok <==> Runnable(old(disk.files), job, inFiles, n, inputs)
    ensures var emits := Emitted(inFiles, inputs, mapF, |inFiles|);
            && (ok ==> JobDone(old(disk.files), disk.files, job, |inFiles|, n, hash, emits, reduceF))
            && (!ok ==> JobStopped(old(disk.files), disk.files, job, |inFiles|, n, hash, emits, reduceF))
            && forall pairs :: ok && Completes(old(disk.files), job, |inFiles|, n, hash, emits, pairs) ==>
                 FileIs(disk.files, OutputName(job), GroupOf(Pairs(pairs, |inFiles|), reduceF))
  {
    ghost var f0 := disk.files;
    ghost var emits := Emitted(inFiles, inputs, mapF, |inFiles|);
    RunMaps(disk, job, inFiles, n, inputs, mapF, hash);
    ghost var f1 := disk.files;
    RunnableExactly(f0, f1, job, inFiles, n, inputs, mapF, hash);
    ok := RunReduces(disk, job, |inFiles|, n, reduceF);
    if !ok {
      return;
    }
    ghost var f2 := disk.files;
    ResultsThere(f1, f2, job, |inFiles|, n, reduceF);
    ok := Merge(disk, job, n);
    forall pairs | Completes(f0, job, |inFiles|, n, hash, emits, pairs)
      ensures FileIs(disk.files, OutputName(job), GroupOf(Pairs(pairs, |inFiles|), reduceF))
    {
      JobOutput(f0, disk.files, job, |inFiles|, n, hash, emits, pairs, reduceF);
    }
  }
}
