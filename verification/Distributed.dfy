/** The distributed master: the scheduler's calls, the task runs they cause on the workers, and the disk. */
module Distributed {
  import opened GroupBy
  import opened FileNames
  import opened Files
  import opened MapTask
  import opened ReduceTask
  import opened MergeTask
  import opened Phases
  import opened Job
  import Scheduler
  import Sequential

  /** One execution of a task: a complete run makes all of `writes`, a run that dies makes the first `done`.
      For a map task `emitted` is what the map function returned. */
  datatype TaskRun = TaskRun(task: nat, emitted: seq<KeyValue>, writes: seq<Write>, done: nat)

  /** A phase: the scheduler's states and steps, the task run behind each answered call, and the writes of all
      runs in the order in which they reached the disk. */
  datatype Phase = Phase(workers: multiset<string>, states: seq<Scheduler.Sched>, steps: seq<Scheduler.Step>,
                         runs: seq<TaskRun>, log: seq<TaskWrite>)

  /** All writes of task t, run after run. */
  function Chain(t: nat, runs: seq<TaskRun>): seq<Write>
    requires forall i :: 0 <= i < |runs| ==> runs[i].done <= |runs[i].writes|
  {
    if runs == [] then []
    else
      var last := runs[|runs| - 1];
      Chain(t, runs[..|runs| - 1]) + if last.task == t then last.writes[..last.done] else []
  }

  ghost predicate RunsMatch(runs: seq<TaskRun>, attempts: seq<Scheduler.Attempt>) {
    && |runs| == |attempts|
    && (forall i :: 0 <= i < |runs| ==> runs[i].done <= |runs[i].writes|)
    && (forall i :: 0 <= i < |runs| ==> runs[i].task == attempts[i].task)
    && (forall i :: 0 <= i < |runs| && attempts[i].ok ==> runs[i].done == |runs[i].writes|)
  }

  /** The phase has returned. Behind each answered call is a run of its task, complete if the call succeeded,
      possibly partial and possibly complete if it failed. Runs of one task follow each other; writes of
      different tasks interleave in any way. */
  ghost predicate Ran(p: Phase, ntasks: nat) {
    && Scheduler.IsRun(ntasks, p.workers, p.states, p.steps)
    && Scheduler.Finished(p.states[|p.steps|])
    && RunsMatch(p.runs, p.states[|p.steps|].attempts)
    && forall t: nat :: Mine(t, p.log) == Chain(t, p.runs)
  }

  /** The index of the last call for task t. */
  function LastCall(t: nat, attempts: seq<Scheduler.Attempt>): (i: nat)
    requires Scheduler.LastOk(t, attempts)
    ensures i < |attempts| && attempts[i].task == t && attempts[i].ok
  {
    var n := |attempts| - 1;
    if attempts[n].task == t then n else LastCall(t, attempts[..n])
  }

  /** If the last call for a task succeeded, the task's writes end with one complete run. */
  lemma {:induction false} ChainEndsComplete(t: nat, runs: seq<TaskRun>, attempts: seq<Scheduler.Attempt>)
    requires RunsMatch(runs, attempts) && Scheduler.LastOk(t, attempts)
    ensures EndsWith(Chain(t, runs), runs[LastCall(t, attempts)].writes)
  {
    var n := |runs| - 1;
    if runs[n].task != t {
      assert Chain(t, runs) == Chain(t, runs[..n]);
      ChainEndsComplete(t, runs[..n], attempts[..n]);
    }
  }

  lemma {:induction false} ChainFromRuns(t: nat, runs: seq<TaskRun>, w: Write)
    requires forall i :: 0 <= i < |runs| ==> runs[i].done <= |runs[i].writes|
    requires w in Chain(t, runs)
    ensures exists i :: 0 <= i < |runs| && runs[i].task == t && w in runs[i].writes
  {
    var n := |runs| - 1;
    if w in Chain(t, runs[..n]) {
      ChainFromRuns(t, runs[..n], w);
      var i :| 0 <= i < n && runs[..n][i].task == t && w in runs[..n][i].writes;
      assert runs[i].task == t && w in runs[i].writes;
    } else {
      assert runs[n].task == t && w in runs[n].writes;
    }
  }

  lemma {:induction false} LoggedIsMine(log: seq<TaskWrite>, i: nat)
    requires i < |log|
    ensures log[i].write in Mine(log[i].task, log)
  {
    var n := |log| - 1;
    if i < n { LoggedIsMine(log[..n], i); }
  }

  /** Every write on the disk was made by some run of its task. */
  lemma LoggedByRun(p: Phase, ntasks: nat, i: nat) returns (k: nat)
    requires Ran(p, ntasks) && i < |p.log|
    ensures k < |p.runs| && p.runs[k].task == p.log[i].task && p.log[i].write in p.runs[k].writes
    ensures p.log[i].task < ntasks
  {
    LoggedIsMine(p.log, i);
    ChainFromRuns(p.log[i].task, p.runs, p.log[i].write);
    k :| 0 <= k < |p.runs| && p.runs[k].task == p.log[i].task && p.log[i].write in p.runs[k].writes;
    Scheduler.ReturnsWhenDone(ntasks, p.workers, p.states, p.steps, |p.steps|, 0);
  }

  /** When the phase has returned, each task's writes end with the complete run of its one successful call. */
  lemma EndsComplete(p: Phase, ntasks: nat, t: nat)
    requires Ran(p, ntasks) && t < ntasks
    ensures Scheduler.LastOk(t, p.states[|p.steps|].attempts)
    ensures var k := LastCall(t, p.states[|p.steps|].attempts);
            p.runs[k].task == t && EndsWith(Mine(t, p.log), p.runs[k].writes)
  {
    Scheduler.ReturnsWhenDone(ntasks, p.workers, p.states, p.steps, |p.steps|, t);
    ChainEndsComplete(t, p.runs, p.states[|p.steps|].attempts);
  }

  // ---- the map phase ----

  /** What a map task may emit; a map function that ranges over a Go map may emit in any order. */
  type Emission = (nat, seq<KeyValue>) -> bool

  /** A map task whose input cannot be read does nothing, and its call succeeds. */
  ghost predicate MapRuns(runs: seq<TaskRun>, job: string, n: nat, hash: Hash, readable: set<nat>, may: Emission)
    requires n > 0
  {
    forall i :: 0 <= i < |runs| ==>
      if runs[i].task in readable then
        && may(runs[i].task, runs[i].emitted)
        && runs[i].writes == MapWrites(MapFiles(job, runs[i].task, n), hash, runs[i].emitted)
      else runs[i].writes == []
  }

  /** The emissions of the successful runs. */
  ghost function LastEmits(p: Phase, nMap: nat, readable: set<nat>): (emits: Emits)
    requires Ran(p, nMap)
    ensures forall m: nat :: m in emits <==> m < nMap && m in readable
  {
    map m: nat | m < nMap && m in readable :: LastEmit(p, nMap, m)
  }

  ghost function LastEmit(p: Phase, nMap: nat, m: nat): seq<KeyValue>
    requires Ran(p, nMap) && m < nMap
  {
    EndsComplete(p, nMap, m);
    p.runs[LastCall(m, p.states[|p.steps|].attempts)].emitted
  }

  lemma MapPhaseRan(files: FileMap, p: Phase, job: string, nMap: nat, n: nat, hash: Hash, readable: set<nat>,
                    may: Emission)
    requires n > 0 && Ran(p, nMap) && MapRuns(p.runs, job, n, hash, readable, may)
    ensures var emits := LastEmits(p, nMap, readable);
            && (forall m: nat :: m in emits ==> may(m, emits[m]))
            && MapDone(files, PerformAll(files, Writes(p.log)), job, n, hash, emits)
  {
    var emits := LastEmits(p, nMap, readable);
    forall i | 0 <= i < |p.log|
      ensures p.log[i].task in emits && p.log[i].write.name in MapFiles(job, p.log[i].task, n)
    {
      var k := LoggedByRun(p, nMap, i);
    }
    forall m: nat | m in emits
      ensures may(m, emits[m]) && EndsWith(Mine(m, p.log), MapWrites(MapFiles(job, m, n), hash, emits[m]))
    {
      EndsComplete(p, nMap, m);
    }
    MapPhase(files, p.log, job, n, hash, emits);
  }

  // ---- the reduce phase ----

  /** A reduce task reads the intermediate files, which no task of its phase writes. If one is missing the
      worker stops before it writes anything, and the call fails. */
  ghost predicate ReduceRuns(runs: seq<TaskRun>, attempts: seq<Scheduler.Attempt>, files: FileMap, job: string,
                             nMap: nat, reduceF: Reducer)
  {
    && |runs| == |attempts|
    && forall i :: 0 <= i < |runs| ==>
         if HasInputs(files, job, nMap, runs[i].task) then
           runs[i].writes == ReduceWrites(files, job, runs[i].task, nMap, reduceF)
         else runs[i].writes == [] && !attempts[i].ok
  }

  /** A reduce phase returns only if no task misses a file. */
  lemma ReducePhaseRan(files: FileMap, p: Phase, job: string, nMap: nat, n: nat, reduceF: Reducer)
    requires Ran(p, n) && ReduceRuns(p.runs, p.states[|p.steps|].attempts, files, job, nMap, reduceF)
    ensures Sequential.AllHaveInputs(files, job, nMap, n)
    ensures ReduceDone(files, PerformAll(files, Writes(p.log)), job, nMap, n, reduceF)
  {
    forall i | 0 <= i < |p.log| ensures p.log[i].task < n && p.log[i].write.name == MergeName(job, p.log[i].task) {
      var k := LoggedByRun(p, n, i);
    }
    forall r: nat | r < n
      ensures HasInputs(files, job, nMap, r)
      ensures EndsWith(Mine(r, p.log), ReduceWrites(files, job, r, nMap, reduceF))
    {
      EndsComplete(p, n, r);
    }
    ReducePhase(files, p.log, job, nMap, n, reduceF);
  }

  // ---- the job ----

  /** A distributed job from disk `before`: both phases return. Reduce task t is sent with the name of input
      file t, so there must be no more reduce tasks than input files. */
  ghost predicate JobRan(before: FileMap, maps: Phase, reduces: Phase, job: string, nMap: nat, n: nat,
                         hash: Hash, readable: set<nat>, may: Emission, reduceF: Reducer)
    requires n > 0
  {
    && n <= nMap
    && Ran(maps, nMap) && MapRuns(maps.runs, job, n, hash, readable, may)
    && Ran(reduces, n)
    && ReduceRuns(reduces.runs, reduces.states[|reduces.steps|].attempts, PerformAll(before, Writes(maps.log)),
                  job, nMap, reduceF)
  }

  ghost function BeforeMerge(before: FileMap, maps: Phase, reduces: Phase): FileMap {
    PerformAll(PerformAll(before, Writes(maps.log)), Writes(reduces.log))
  }

  /** The disk after the whole job. */
  ghost function AfterJob(before: FileMap, maps: Phase, reduces: Phase, job: string, n: nat): FileMap {
    AfterMerge(BeforeMerge(before, maps, reduces), job, n)
  }

  /** Whatever failed, died half-way or was repeated: no reduce task misses a file, merge finds its files, and
      the disk is that of a finished job with one emission for each map task that can read its input. */
  lemma DistributedDone(before: FileMap, maps: Phase, reduces: Phase, job: string, nMap: nat, n: nat,
                        hash: Hash, readable: set<nat>, may: Emission, reduceF: Reducer)
    requires n > 0 && JobRan(before, maps, reduces, job, nMap, n, hash, readable, may, reduceF)
    ensures var emits, f1 := LastEmits(maps, nMap, readable), PerformAll(before, Writes(maps.log));
            && (forall m: nat :: m in emits ==> may(m, emits[m]))
            && MapDone(before, f1, job, n, hash, emits) && Sequential.AllHaveInputs(f1, job, nMap, n)
            && HasResults(BeforeMerge(before, maps, reduces), job, n)
            && JobDone(before, AfterJob(before, maps, reduces, job, n), job, nMap, n, hash, emits, reduceF)
  {
    var f1, f2 := PerformAll(before, Writes(maps.log)), BeforeMerge(before, maps, reduces);
    MapPhaseRan(before, maps, job, nMap, n, hash, readable, may);
    ReducePhaseRan(f1, reduces, job, nMap, n, reduceF);
    ResultsThere(f1, f2, job, nMap, n, reduceF);
  }

  /** Whenever every map task has its pairs, the output is the group-by of them all. */
  lemma DistributedOutput(before: FileMap, maps: Phase, reduces: Phase, job: string, nMap: nat, n: nat,
                          hash: Hash, readable: set<nat>, may: Emission, reduceF: Reducer, pairs: Emits)
    requires n > 0 && JobRan(before, maps, reduces, job, nMap, n, hash, readable, may, reduceF)
    requires Completes(before, job, nMap, n, hash, LastEmits(maps, nMap, readable), pairs)
    ensures forall m: nat :: m < nMap && m in readable ==> may(m, pairs[m])
    ensures FileIs(AfterJob(before, maps, reduces, job, n), OutputName(job), GroupOf(Pairs(pairs, nMap), reduceF))
  {
    var emits := LastEmits(maps, nMap, readable);
    DistributedDone(before, maps, reduces, job, nMap, n, hash, readable, may, reduceF);
    JobOutput(before, AfterJob(before, maps, reduces, job, n), job, nMap, n, hash, emits, pairs, reduceF);
  }

  function Tasks(n: nat): (s: set<nat>)
    ensures forall m: nat :: m in s <==> m < n
  {
    if n == 0 then {} else Tasks(n - 1) + {n - 1}
  }

  /** With readable inputs the output is the group-by of one emission for each map task. */
  lemma EveryTaskEmits(before: FileMap, maps: Phase, reduces: Phase, job: string, nMap: nat, n: nat,
                       hash: Hash, may: Emission, reduceF: Reducer)
    returns (emits: Emits)
    requires n > 0 && JobRan(before, maps, reduces, job, nMap, n, hash, Tasks(nMap), may, reduceF)
    ensures AllMapped(emits, nMap) && forall m: nat :: m < nMap ==> may(m, emits[m])
    ensures FileIs(AfterJob(before, maps, reduces, job, n), OutputName(job), GroupOf(Pairs(emits, nMap), reduceF))
  {
    emits := LastEmits(maps, nMap, Tasks(nMap));
    DistributedOutput(before, maps, reduces, job, nMap, n, hash, Tasks(nMap), may, reduceF, emits);
  }

  /** The map tasks whose input can be read. */
  ghost function Readable(inFiles: seq<string>, inputs: map<string, string>): set<nat> {
    set m: nat | m < |inFiles| && inFiles[m] in inputs
  }

  /** The emission of a deterministic map function. */
  ghost function Deterministic(inFiles: seq<string>, inputs: map<string, string>, mapF: Mapper): Emission {
    (m: nat, kvs: seq<KeyValue>) =>
      m < |inFiles| && inFiles[m] in inputs && kvs == mapF(inFiles[m], inputs[inFiles[m]])
  }

  lemma OneEmission(emits: Emits, inFiles: seq<string>, inputs: map<string, string>, mapF: Mapper)
    requires forall m: nat :: m in emits <==> m < |inFiles| && m in Readable(inFiles, inputs)
    requires forall m: nat :: m in emits ==> Deterministic(inFiles, inputs, mapF)(m, emits[m])
    ensures emits == Sequential.Emitted(inFiles, inputs, mapF, |inFiles|)
  {
    var emitted := Sequential.Emitted(inFiles, inputs, mapF, |inFiles|);
    assert forall m: nat :: m in emits <==> m in emitted;
  }

  /** Retries are harmless: with a deterministic map function a distributed job returns only where the
      sequential one runs to its end, and it leaves the very disk that the sequential one leaves. */
  lemma DistributedIsSequential(before: FileMap, maps: Phase, reduces: Phase, job: string, n: nat, hash: Hash,
                                inFiles: seq<string>, inputs: map<string, string>, mapF: Mapper, reduceF: Reducer)
    requires n > 0
    requires JobRan(before, maps, reduces, job, |inFiles|, n, hash, Readable(inFiles, inputs),
                    Deterministic(inFiles, inputs, mapF), reduceF)
    ensures Sequential.Runnable(before, job, inFiles, n, inputs)
    ensures forall sequential ::
              JobDone(before, sequential, job, |inFiles|, n, hash,
                      Sequential.Emitted(inFiles, inputs, mapF, |inFiles|), reduceF)
              <==> sequential == AfterJob(before, maps, reduces, job, n)
  {
    var after, nMap := AfterJob(before, maps, reduces, job, n), |inFiles|;
    var readable, may := Readable(inFiles, inputs), Deterministic(inFiles, inputs, mapF);
    DistributedDone(before, maps, reduces, job, nMap, n, hash, readable, may, reduceF);
    var emits := LastEmits(maps, nMap, readable);
    OneEmission(emits, inFiles, inputs, mapF);
    Sequential.RunnableExactly(before, PerformAll(before, Writes(maps.log)), job, inFiles, n, inputs, mapF, hash);
    forall sequential | JobDone(before, sequential, job, nMap, n, hash, emits, reduceF) ensures sequential == after {
      JobDoneUnique(before, sequential, after, job, nMap, n, hash, emits, reduceF);
    }
  }
}
