/** A whole job: map phase, reduce phase, merge. */
module Job {
  import opened GroupBy
  import opened FileNames
  import opened Files
  import opened ReduceTask
  import opened MergeTask
  import opened Phases

  ghost predicate AllMapped(emits: Emits, nMap: nat) {
    forall m: nat :: m in emits <==> m < nMap
  }

  ghost function EmitList(emits: Emits, nMap: nat): (parts: seq<seq<KeyValue>>)
    requires forall m: nat :: m < nMap ==> m in emits
    ensures |parts| == nMap && forall m: nat :: m < nMap ==> parts[m] == emits[m]
  {
    seq(nMap, m requires 0 <= m < nMap => emits[m])
  }

  /** All emitted pairs, in map-task order and then in emission order. */
  ghost function Pairs(emits: Emits, nMap: nat): seq<KeyValue>
    requires forall m: nat :: m < nMap ==> m in emits
  {
    Flatten(EmitList(emits, nMap))
  }

  ghost function Inputs(files: FileMap, job: string, nMap: nat, r: nat): (parts: seq<seq<KeyValue>>)
    ensures |parts| == nMap && forall m: nat :: m < nMap ==> parts[m] == Content(files, ReduceName(job, m, r))
  {
    seq(nMap, m requires 0 <= m < nMap => Content(files, ReduceName(job, m, r)))
  }

  lemma {:induction false} GatherIsFlatten(files: FileMap, job: string, nMap: nat, r: nat)
    ensures Gather(files, job, nMap, r) == Flatten(Inputs(files, job, nMap, r))
  {
    if nMap > 0 {
      GatherIsFlatten(files, job, nMap - 1, r);
      assert Inputs(files, job, nMap, r)[..nMap - 1] == Inputs(files, job, nMap - 1, r);
    }
  }

  /** A reduce task gathers its partition of all pairs. */
  lemma GathersPartition(files: FileMap, job: string, n: nat, hash: Hash, pairs: Emits, nMap: nat, r: nat)
    requires r < n && PartitionsHeld(files, job, n, hash, pairs)
    requires forall m: nat :: m < nMap ==> m in pairs
    ensures Gather(files, job, nMap, r) == Partition(Pairs(pairs, nMap), hash, n, r)
  {
    var p, parts, inputs := InBucket(hash, n, r), EmitList(pairs, nMap), Inputs(files, job, nMap, r);
    forall m: nat | m < nMap ensures inputs[m] == Keep(parts[m], p) {
      assert FileIs(files, ReduceName(job, m, r), Partition(pairs[m], hash, n, r));
    }
    assert inputs == KeepEach(parts, p);
    KeepFlatten(parts, p);
    GatherIsFlatten(files, job, nMap, r);
  }

  ghost function Results(files: FileMap, job: string, n: nat): (parts: seq<seq<KeyValue>>)
    ensures |parts| == n && forall r :: 0 <= r < n ==> parts[r] == Content(files, MergeName(job, r))
  {
    seq(n, r requires 0 <= r < n => Content(files, MergeName(job, r)))
  }

  lemma {:induction false} CollectIsFlatten(files: FileMap, job: string, n: nat)
    ensures Collect(files, job, n) == Flatten(Results(files, job, n))
  {
    if n > 0 {
      CollectIsFlatten(files, job, n - 1);
      assert Results(files, job, n)[..n - 1] == Results(files, job, n - 1);
    }
  }

  /** What merge makes of the reduced files is the plain group-by of all pairs, for every hash and every
      number of partitions, and no key comes from two reduced files. */
  lemma MergedIsGroupBy(f1: FileMap, f2: FileMap, job: string, nMap: nat, n: nat, hash: Hash,
                        pairs: Emits, reduceF: Reducer)
    requires n > 0 && AllMapped(pairs, nMap)
    requires PartitionsHeld(f1, job, n, hash, pairs) && ReduceDone(f1, f2, job, nMap, n, reduceF)
    ensures GroupOf(Collect(f2, job, n), LastValue()) == GroupOf(Pairs(pairs, nMap), reduceF)
    ensures forall k :: |ValuesOf(k, Collect(f2, job, n))| <= 1
  {
    var kvs, parts := Pairs(pairs, nMap), Results(f2, job, n);
    forall r: nat | r < n ensures IsGroupBy(parts[r], Partition(kvs, hash, n, r), reduceF) {
      assert FileIs(f2, MergeName(job, r), GroupOf(Gather(f1, job, nMap, r), reduceF));
      GathersPartition(f1, job, n, hash, pairs, nMap, r);
      GroupOfIsGroupBy(Partition(kvs, hash, n, r), reduceF);
    }
    var out := GroupOf(Collect(f2, job, n), LastValue());
    CollectIsFlatten(f2, job, n);
    GroupOfIsGroupBy(Collect(f2, job, n), LastValue());
    PartitionedGroupBy(out, parts, kvs, hash, n, reduceF);
    IsGroupByOnly(out, kvs, reduceF);
  }

  lemma ResultsThere(f1: FileMap, f2: FileMap, job: string, nMap: nat, n: nat, reduceF: Reducer)
    requires ReduceDone(f1, f2, job, nMap, n, reduceF)
    ensures HasResults(f2, job, n)
  {
    forall r: nat | r < n ensures MergeName(job, r) in f2 {
      assert FileIs(f2, MergeName(job, r), GroupOf(Gather(f1, job, nMap, r), reduceF));
    }
  }

  // ---- a finished job ----

  /** The disk after `Merge`. */
  ghost function AfterMerge(files: FileMap, job: string, n: nat): FileMap {
    PerformAll(files, FileWrites(OutputName(job), GroupOf(Collect(files, job, n), LastValue())))
  }

  /** The whole disk after a job of nMap map tasks, from a disk that held `before`. Those of `emits` emitted;
      the others could not read their input and wrote nothing. */
  ghost predicate JobDone(before: FileMap, after: FileMap, job: string, nMap: nat, n: nat, hash: Hash,
                          emits: Emits, reduceF: Reducer)
    requires n > 0
  {
    exists f1, f2 ::
      && MapDone(before, f1, job, n, hash, emits)
      && ReduceDone(f1, f2, job, nMap, n, reduceF)
      && after == AfterMerge(f2, job, n)
  }

  /** `pairs` gives every map task its pairs: what it emitted, or, if it did not, what an earlier job left
      partitioned in its intermediate files. */
  ghost predicate Completes(before: FileMap, job: string, nMap: nat, n: nat, hash: Hash, emits: Emits, pairs: Emits)
    requires n > 0
  {
    && AllMapped(pairs, nMap)
    && (forall m :: m in emits ==> m in pairs && pairs[m] == emits[m])
    && (forall m, r: nat :: m in pairs && m !in emits && r < n ==>
          FileIs(before, ReduceName(job, m, r), Partition(pairs[m], hash, n, r)))
  }

  lemma NotMapped(job: string, n: nat, emits: Emits, m: nat, r: nat)
    requires m !in emits
    ensures !IsMapName(ReduceName(job, m, r), job, n, emits)
  {
    forall m': nat, r': nat | m' in emits && r' < n ensures ReduceName(job, m, r) != ReduceName(job, m', r') {
      if ReduceName(job, m, r) == ReduceName(job, m', r') { ReduceNamesDistinct(job, m, r, m', r'); }
    }
  }

  lemma HeldAfterMaps(before: FileMap, f1: FileMap, job: string, nMap: nat, n: nat, hash: Hash,
                      emits: Emits, pairs: Emits)
    requires n > 0 && MapDone(before, f1, job, n, hash, emits)
    requires Completes(before, job, nMap, n, hash, emits, pairs)
    ensures PartitionsHeld(f1, job, n, hash, pairs)
  {
    forall m, r: nat | m in pairs && r < n
      ensures FileIs(f1, ReduceName(job, m, r), Partition(pairs[m], hash, n, r))
    {
      if m !in emits {
        assert FileIs(before, ReduceName(job, m, r), Partition(pairs[m], hash, n, r));
        NotMapped(job, n, emits, m, r);
        assert SameFile(before, f1, ReduceName(job, m, r));
      }
    }
  }

  lemma MergeWrites(files: FileMap, job: string, n: nat)
    ensures FileIs(AfterMerge(files, job, n), OutputName(job), GroupOf(Collect(files, job, n), LastValue()))
  {
    var name, out := OutputName(job), GroupOf(Collect(files, job, n), LastValue());
    FileAfter(files, name, FileWrites(name, out));
    FileWritesContent(Content(files, name), name, out);
    assert FileWrites(name, out)[0].name == name;
  }

  /** What merge writes at the end of a finished job is the group-by of all pairs. */
  lemma JobOutput(before: FileMap, after: FileMap, job: string, nMap: nat, n: nat, hash: Hash,
                  emits: Emits, pairs: Emits, reduceF: Reducer)
    requires n > 0 && Completes(before, job, nMap, n, hash, emits, pairs)
    requires JobDone(before, after, job, nMap, n, hash, emits, reduceF)
    ensures FileIs(after, OutputName(job), GroupOf(Pairs(pairs, nMap), reduceF))
  {
    var f1, f2 :| MapDone(before, f1, job, n, hash, emits) && ReduceDone(f1, f2, job, nMap, n, reduceF)
                  && after == AfterMerge(f2, job, n);
    HeldAfterMaps(before, f1, job, nMap, n, hash, emits, pairs);
    MergedIsGroupBy(f1, f2, job, nMap, n, hash, pairs, reduceF);
    MergeWrites(f2, job, n);
  }

  lemma SameEverywhere(a: FileMap, b: FileMap)
    requires forall name :: (name in a <==> name in b) && (name in a ==> a[name] == b[name])
    ensures a == b
  {
  }

  lemma MapDoneUnique(before: FileMap, a: FileMap, b: FileMap, job: string, n: nat, hash: Hash, emits: Emits)
    requires n > 0 && MapDone(before, a, job, n, hash, emits) && MapDone(before, b, job, n, hash, emits)
    ensures a == b
  {
    forall name ensures (name in a <==> name in b) && (name in a ==> a[name] == b[name]) {
      if IsMapName(name, job, n, emits) {
        var m, r: nat :| m in emits && r < n && name == ReduceName(job, m, r);
        assert FileIs(a, name, Partition(emits[m], hash, n, r)) && FileIs(b, name, Partition(emits[m], hash, n, r));
      } else {
        assert SameFile(before, a, name) && SameFile(before, b, name);
      }
    }
    SameEverywhere(a, b);
  }

  lemma ReduceDoneUnique(before: FileMap, a: FileMap, b: FileMap, job: string, nMap: nat, n: nat, reduceF: Reducer)
    requires ReduceDone(before, a, job, nMap, n, reduceF) && ReduceDone(before, b, job, nMap, n, reduceF)
    ensures a == b
  {
    forall name ensures (name in a <==> name in b) && (name in a ==> a[name] == b[name]) {
      if IsResultName(name, job, n) {
        var r: nat :| r < n && name == MergeName(job, r);
        var out := GroupOf(Gather(before, job, nMap, r), reduceF);
        assert FileIs(a, name, out) && FileIs(b, name, out);
      } else {
        assert SameFile(before, a, name) && SameFile(before, b, name);
      }
    }
    SameEverywhere(a, b);
  }

  /** Two finished jobs whose map tasks emitted the same pairs leave the same disk, file for file. */
  lemma JobDoneUnique(before: FileMap, a: FileMap, b: FileMap, job: string, nMap: nat, n: nat, hash: Hash,
                      emits: Emits, reduceF: Reducer)
    requires n > 0 && JobDone(before, a, job, nMap, n, hash, emits, reduceF)
    requires JobDone(before, b, job, nMap, n, hash, emits, reduceF)
    ensures a == b
  {
    var f1, f2 :| MapDone(before, f1, job, n, hash, emits) && ReduceDone(f1, f2, job, nMap, n, reduceF)
                  && a == AfterMerge(f2, job, n);
    var g1, g2 :| MapDone(before, g1, job, n, hash, emits) && ReduceDone(g1, g2, job, nMap, n, reduceF)
                  && b == AfterMerge(g2, job, n);
    MapDoneUnique(before, f1, g1, job, n, hash, emits);
    ReduceDoneUnique(f1, f2, g2, job, nMap, n, reduceF);
  }

  /** Two finished jobs with the same pairs have the same output, whatever the number of reduce tasks and the
      hash of each, and whatever was on their disks. */
  lemma OutputIndependent(before: FileMap, a: FileMap, n: nat, hash: Hash, emits: Emits,
                          before': FileMap, b: FileMap, n': nat, hash': Hash, emits': Emits,
                          job: string, nMap: nat, pairs: Emits, reduceF: Reducer)
    requires n > 0 && n' > 0
    requires Completes(before, job, nMap, n, hash, emits, pairs)
    requires Completes(before', job, nMap, n', hash', emits', pairs)
    requires JobDone(before, a, job, nMap, n, hash, emits, reduceF)
    requires JobDone(before', b, job, nMap, n', hash', emits', reduceF)
    ensures OutputName(job) in a && OutputName(job) in b && a[OutputName(job)] == b[OutputName(job)]
  {
    JobOutput(before, a, job, nMap, n, hash, emits, pairs, reduceF);
    JobOutput(before', b, job, nMap, n', hash', emits', pairs, reduceF);
  }
}
