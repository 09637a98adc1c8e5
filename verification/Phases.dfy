/** What the tasks of a phase leave on the shared disk, however their writes interleave and however often a
    task ran before its last, complete run. */
module Phases {
  import opened GroupBy
  import opened FileNames
  import opened Files
  import opened MapTask
  import opened ReduceTask

  datatype TaskWrite = TaskWrite(task: nat, write: Write)

  function Writes(log: seq<TaskWrite>): (ws: seq<Write>)
    ensures |ws| == |log| && forall i :: 0 <= i < |log| ==> ws[i] == log[i].write
  {
    seq(|log|, i requires 0 <= i < |log| => log[i].write)
  }

  /** The writes of task t, in order. */
  function Mine(t: nat, log: seq<TaskWrite>): seq<Write> {
    if log == [] then []
    else
      var last := log[|log| - 1];
      Mine(t, log[..|log| - 1]) + if last.task == t then [last.write] else []
  }

  predicate EndsWith(a: seq<Write>, b: seq<Write>) {
    |b| <= |a| && a[|a| - |b|..] == b
  }

  ghost predicate OnlyBy(t: nat, name: string, log: seq<TaskWrite>) {
    forall i :: 0 <= i < |log| && log[i].write.name == name ==> log[i].task == t
  }

  /** A file that only task t writes is as if task t had run alone. */
  lemma {:induction false} ReplayMine(c: seq<KeyValue>, name: string, t: nat, log: seq<TaskWrite>)
    requires OnlyBy(t, name, log)
    ensures Replay(c, name, Writes(log)) == Replay(c, name, Mine(t, log))
  {
    if log != [] {
      var n := |log| - 1;
      assert forall i :: 0 <= i < n ==> log[..n][i] == log[i];
      ReplayMine(c, name, t, log[..n]);
      var w := log[n].write;
      assert Writes(log) == Writes(log[..n]) + [w];
      ReplayOneMore(c, name, Writes(log[..n]), w);
      if log[n].task == t {
        ReplayOneMore(c, name, Mine(t, log[..n]), w);
      } else {
        ReplayUntouched(Replay(c, name, Writes(log[..n])), name, [w]);
        assert Mine(t, log) == Mine(t, log[..n]);
      }
    }
  }

  lemma {:induction false} MineInLog(t: nat, log: seq<TaskWrite>, w: Write)
    requires w in Mine(t, log)
    ensures w in Writes(log)
  {
    var n := |log| - 1;
    assert Writes(log)[..n] == Writes(log[..n]);
    if w in Mine(t, log[..n]) {
      MineInLog(t, log[..n], w);
      assert w in Writes(log)[..n];
    } else {
      assert w == Writes(log)[n];
    }
  }

  /** ... and its last complete run alone decides what it holds. */
  lemma LastRunDecides(files: FileMap, name: string, t: nat, log: seq<TaskWrite>, full: seq<Write>,
                       content: seq<KeyValue>)
    requires OnlyBy(t, name, log) && EndsWith(Mine(t, log), full) && Touches(full, name)
    requires forall c :: Replay(c, name, full) == content
    ensures FileIs(PerformAll(files, Writes(log)), name, content)
  {
    var mine := Mine(t, log);
    var k := |mine| - |full|;
    FileAfter(files, name, Writes(log));
    ReplayMine(Content(files, name), name, t, log);
    assert mine == mine[..k] + full;
    ReplayConcat(Content(files, name), name, mine[..k], full);
    var i :| 0 <= i < |full| && full[i].name == name;
    assert full[i] == mine[k + i];
    MineInLog(t, log, mine[k + i]);
    assert Touches(Writes(log), name);
  }

  ghost predicate FileIs(files: FileMap, name: string, content: seq<KeyValue>) {
    name in files && files[name] == content
  }

  ghost predicate SameFile(before: FileMap, after: FileMap, name: string) {
    (name in after <==> name in before) && (name in before ==> after[name] == before[name])
  }

  lemma Untouched(files: FileMap, name: string, ws: seq<Write>)
    requires !Touches(ws, name)
    ensures SameFile(files, PerformAll(files, ws), name)
  {
    FileAfter(files, name, ws);
    ReplayUntouched(Content(files, name), name, ws);
  }

  // ---- the map phase ----

  type Emits = map<nat, seq<KeyValue>>

  ghost predicate IsMapName(name: string, job: string, n: nat, emits: Emits) {
    exists m, r: nat :: m in emits && r < n && name == ReduceName(job, m, r)
  }

  /** The intermediate files of each task m of emits hold the partitions of emits[m]. */
  ghost predicate PartitionsHeld(files: FileMap, job: string, n: nat, hash: Hash, emits: Emits)
    requires n > 0
  {
    forall m, r: nat :: m in emits && r < n ==>
      FileIs(files, ReduceName(job, m, r), Partition(emits[m], hash, n, r))
  }

  /** Each task m of emits has left the partitions of emits[m], and no other file has changed. */
  ghost predicate MapDone(before: FileMap, after: FileMap, job: string, n: nat, hash: Hash, emits: Emits)
    requires n > 0
  {
    && PartitionsHeld(after, job, n, hash, emits)
    && (forall name :: !IsMapName(name, job, n, emits) ==> SameFile(before, after, name))
  }

  /** Tasks write their own intermediate files only. */
  ghost predicate MapLog(log: seq<TaskWrite>, job: string, n: nat, emits: Emits) {
    forall i :: 0 <= i < |log| ==>
      log[i].task in emits && log[i].write.name in MapFiles(job, log[i].task, n)
  }

  lemma MapFileOwner(log: seq<TaskWrite>, job: string, n: nat, emits: Emits, m: nat, r: nat)
    requires MapLog(log, job, n, emits)
    ensures OnlyBy(m, ReduceName(job, m, r), log)
  {
    forall i | 0 <= i < |log| && log[i].write.name == ReduceName(job, m, r) ensures log[i].task == m {
      var names := MapFiles(job, log[i].task, n);
      var q :| 0 <= q < |names| && names[q] == log[i].write.name;
      ReduceNamesDistinct(job, log[i].task, q, m, r);
    }
  }

  lemma MapFileContent(files: FileMap, log: seq<TaskWrite>, job: string, n: nat, hash: Hash, emits: Emits,
                       m: nat, r: nat)
    requires r < n && m in emits && MapLog(log, job, n, emits)
    requires EndsWith(Mine(m, log), MapWrites(MapFiles(job, m, n), hash, emits[m]))
    ensures FileIs(PerformAll(files, Writes(log)), ReduceName(job, m, r), Partition(emits[m], hash, n, r))
  {
    var names := MapFiles(job, m, n);
    var full := MapWrites(names, hash, emits[m]);
    MapFilesDistinct(job, m, n);
    MapFileOwner(log, job, n, emits, m, r);
    forall c ensures Replay(c, names[r], full) == Partition(emits[m], hash, n, r) {
      MapWritesContent(names, hash, emits[m], r, c);
    }
    MapWritesContent(names, hash, emits[m], r, []);
    LastRunDecides(files, names[r], m, log, full, Partition(emits[m], hash, n, r));
  }

  lemma MapOthers(files: FileMap, log: seq<TaskWrite>, job: string, n: nat, emits: Emits, name: string)
    requires MapLog(log, job, n, emits) && !IsMapName(name, job, n, emits)
    ensures SameFile(files, PerformAll(files, Writes(log)), name)
  {
    forall i | 0 <= i < |log| ensures log[i].write.name != name {
      var names := MapFiles(job, log[i].task, n);
      var q :| 0 <= q < |names| && names[q] == log[i].write.name;
      assert names[q] == ReduceName(job, log[i].task, q);
    }
    Untouched(files, name, Writes(log));
  }

  /** The map phase, over every interleaving of the tasks' writes and all earlier partial runs. */
  lemma MapPhase(files: FileMap, log: seq<TaskWrite>, job: string, n: nat, hash: Hash, emits: Emits)
    requires n > 0 && MapLog(log, job, n, emits)
    requires forall m :: m in emits ==> EndsWith(Mine(m, log), MapWrites(MapFiles(job, m, n), hash, emits[m]))
    ensures MapDone(files, PerformAll(files, Writes(log)), job, n, hash, emits)
  {
    var after := PerformAll(files, Writes(log));
    forall m, r: nat | m in emits && r < n
      ensures FileIs(after, ReduceName(job, m, r), Partition(emits[m], hash, n, r))
    {
      MapFileContent(files, log, job, n, hash, emits, m, r);
    }
    forall name | !IsMapName(name, job, n, emits) ensures SameFile(files, after, name) {
      MapOthers(files, log, job, n, emits, name);
    }
  }

  // ---- the reduce phase ----

  ghost predicate IsResultName(name: string, job: string, n: nat) {
    exists r: nat :: r < n && name == MergeName(job, r)
  }

  /** Each reduce task has left the group-by of what it gathered, and no other file has changed. */
  ghost predicate ReduceDone(before: FileMap, after: FileMap, job: string, nMap: nat, n: nat, reduceF: Reducer) {
    && (forall r: nat :: r < n ==>
          FileIs(after, MergeName(job, r), GroupOf(Gather(before, job, nMap, r), reduceF)))
    && (forall name :: !IsResultName(name, job, n) ==> SameFile(before, after, name))
  }

  ghost predicate ReduceLog(log: seq<TaskWrite>, job: string, n: nat) {
    forall i :: 0 <= i < |log| ==> log[i].task < n && log[i].write.name == MergeName(job, log[i].task)
  }

  lemma ResultFileContent(files: FileMap, log: seq<TaskWrite>, job: string, nMap: nat, n: nat, reduceF: Reducer, r: nat)
    requires r < n && ReduceLog(log, job, n)
    requires EndsWith(Mine(r, log), ReduceWrites(files, job, r, nMap, reduceF))
    ensures FileIs(PerformAll(files, Writes(log)), MergeName(job, r), GroupOf(Gather(files, job, nMap, r), reduceF))
  {
    var name, out := MergeName(job, r), GroupOf(Gather(files, job, nMap, r), reduceF);
    forall i | 0 <= i < |log| && log[i].write.name == name ensures log[i].task == r {
      MergeNamesDistinct(job, log[i].task, r);
    }
    forall c ensures Replay(c, name, FileWrites(name, out)) == out { FileWritesContent(c, name, out); }
    LastRunDecides(files, name, r, log, FileWrites(name, out), out);
  }

  /** The reduce phase, over every interleaving of the tasks' writes and all earlier partial runs. */
  lemma ReducePhase(files: FileMap, log: seq<TaskWrite>, job: string, nMap: nat, n: nat, reduceF: Reducer)
    requires ReduceLog(log, job, n)
    requires forall r: nat :: r < n ==> EndsWith(Mine(r, log), ReduceWrites(files, job, r, nMap, reduceF))
    ensures ReduceDone(files, PerformAll(files, Writes(log)), job, nMap, n, reduceF)
  {
    var after := PerformAll(files, Writes(log));
    forall r: nat | r < n
      ensures FileIs(after, MergeName(job, r), GroupOf(Gather(files, job, nMap, r), reduceF))
    {
      ResultFileContent(files, log, job, nMap, n, reduceF, r);
    }
    forall name | !IsResultName(name, job, n) ensures SameFile(files, after, name) {
      Untouched(files, name, Writes(log));
    }
  }
}
