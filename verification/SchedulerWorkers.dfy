/** Which worker gets which task, over whole runs of a phase. */
module SchedulerWorkers {
  import opened Scheduler

  // ---- where a call goes ----

  /** The worker that the step takes from the channel. */
  function Received(step: Step): string
    requires step.Dispatch? || step.Retry?
  {
    step.worker
  }

  /** The task of the executor that the step starts. */
  function StartedTask(s: Sched, step: Step): nat
    requires Enabled(s, step) && (step.Dispatch? || step.Retry?)
  {
    if step.Dispatch? then s.next else s.execs[step.exec].task
  }

  lemma StepExecs(s: Sched, step: Step)
    requires Enabled(s, step)
    ensures var s' := Apply(s, step);
            && (forall e :: 0 <= e < |s.execs| ==>
                  e < |s'.execs| && s'.execs[e].worker == s.execs[e].worker && s'.execs[e].task == s.execs[e].task)
            && (|s'.execs| > |s.execs| <==> step.Dispatch? || step.Retry?)
            && (step.Dispatch? || step.Retry? ==>
                  |s'.execs| == |s.execs| + 1 &&
                  s'.execs[|s.execs|] == Exec(Received(step), StartedTask(s, step), Calling))
  {
  }

  /** Every executor calls the worker that the receive which started it took from the channel. */
  lemma {:induction false} StartedBy(ntasks: nat, workers: multiset<string>, run: seq<Sched>, steps: seq<Step>,
                                     k: nat, e: nat)
    returns (j: nat)
    requires IsRun(ntasks, workers, run, steps) && k <= |steps| && e < |run[k].execs|
    ensures j < k && |run[j].execs| == e && (steps[j].Dispatch? || steps[j].Retry?) && Enabled(run[j], steps[j])
    ensures Received(steps[j]) in run[j].offered && run[k].execs[e].worker == Received(steps[j])
    ensures run[k].execs[e].task == StartedTask(run[j], steps[j])
  {
    assert Enabled(run[k - 1], steps[k - 1]) && run[k] == Apply(run[k - 1], steps[k - 1]);
    StepExecs(run[k - 1], steps[k - 1]);
    if e < |run[k - 1].execs| {
      j := StartedBy(ntasks, workers, run, steps, k - 1, e);
    } else {
      j := k - 1;
    }
  }

  /** Every answered call was made by an executor, for its task and to its worker. */
  lemma {:induction false} AnsweredBy(ntasks: nat, workers: multiset<string>, run: seq<Sched>, steps: seq<Step>,
                                      k: nat, i: nat)
    returns (j: nat)
    requires IsRun(ntasks, workers, run, steps) && k <= |steps| && i < |run[k].attempts|
    ensures j < k && |run[j].attempts| == i && steps[j].Answer? && steps[j].exec < |run[j].execs|
    ensures var x := run[j].execs[steps[j].exec];
            x.status == Calling && run[k].attempts[i] == Attempt(x.worker, x.task, steps[j].ok)
  {
    assert Enabled(run[k - 1], steps[k - 1]) && run[k] == Apply(run[k - 1], steps[k - 1]);
    if i < |run[k - 1].attempts| {
      j := AnsweredBy(ntasks, workers, run, steps, k - 1, i);
    } else {
      j := k - 1;
    }
  }

  /** If one executor of a task is live, it is the only one. */
  lemma OnlyLive(s: Sched, e: nat, f: nat)
    requires Inv(s) && e < |s.execs| && f < |s.execs| && e != f
    requires s.execs[e].task == s.execs[f].task && s.execs[e].status != Done
    ensures s.execs[f].status == Done
  {
    var t := s.execs[e].task;
    assert TaskInv(t, s.next, s.execs, s.attempts);
    TwoTerms(s.execs, Live(t), e, f);
  }

  lemma {:induction false} TwoTerms<T>(s: seq<T>, f: T -> nat, i: nat, j: nat)
    requires i < |s| && j < |s| && i != j
    ensures Sum(s, f) >= f(s[i]) + f(s[j])
  {
    var n := |s| - 1;
    if i < n && j < n {
      TwoTerms(s[..n], f, i, j);
    } else {
      OneTerm(s[..n], f, if i == n then j else i);
    }
  }

  lemma {:induction false} OneTerm<T>(s: seq<T>, f: T -> nat, i: nat)
    requires i < |s|
    ensures Sum(s, f) >= f(s[i])
  {
    var n := |s| - 1;
    if i < n { OneTerm(s[..n], f, i); }
  }

  /** A retry hands the task on: the worker just received is held by the task's only live executor, and the
      worker whose call failed is on offer once more. */
  lemma RetryHandsOn(ntasks: nat, workers: multiset<string>, run: seq<Sched>, steps: seq<Step>, k: nat)
    requires IsRun(ntasks, workers, run, steps) && k < |steps| && steps[k].Retry?
    ensures var s, s', e, w := run[k], run[k + 1], steps[k].exec, steps[k].worker;
            && e < |s.execs| && |s'.execs| == |s.execs| + 1
            && s'.execs[|s.execs|] == Exec(w, s.execs[e].task, Calling)
            && (forall f :: 0 <= f < |s.execs| && s.execs[f].task == s.execs[e].task ==> s'.execs[f].status == Done)
            && s'.offered == s.offered - multiset{w} + multiset{s.execs[e].worker}
  {
    assert Enabled(run[k], steps[k]) && run[k + 1] == Apply(run[k], steps[k]);
    RunKeeps(ntasks, workers, run, steps, k + 1);
    var s, s' := run[k], run[k + 1];
    StepExecs(s, steps[k]);
    forall f | 0 <= f < |s.execs| && s.execs[f].task == s.execs[steps[k].exec].task ensures s'.execs[f].status == Done {
      OnlyLive(s', |s.execs|, f);
    }
  }

  // ---- workers that fail ----

  function Loss(t: nat): Attempt -> nat {
    (a: Attempt) => if a.task == t && !a.ok then 1 else 0
  }

  /** The number of failed calls for task t. */
  function Fails(t: nat, attempts: seq<Attempt>): nat { Sum(attempts, Loss(t)) }

  /** Calls fail only on workers of `bad`, and no retry takes one of them. */
  ghost predicate FailsOnly(bad: set<string>, run: seq<Sched>, steps: seq<Step>)
    requires |run| == |steps| + 1
  {
    forall k {:trigger steps[k]} :: 0 <= k < |steps| ==>
      && (steps[k].Answer? && !steps[k].ok && steps[k].exec < |run[k].execs| ==>
            run[k].execs[steps[k].exec].worker in bad)
      && (steps[k].Retry? ==> steps[k].worker !in bad)
  }

  /** Task t has failed at most once, and if it has, its present call is to a good worker. */
  ghost predicate FailInv(t: nat, bad: set<string>, s: Sched) {
    && Fails(t, s.attempts) <= 1
    && (Fails(t, s.attempts) == 1 ==>
          forall e :: 0 <= e < |s.execs| && s.execs[e].task == t && s.execs[e].status == Calling ==>
            s.execs[e].worker !in bad)
  }

  lemma {:induction false} NoFails(t: nat, attempts: seq<Attempt>)
    requires forall i :: 0 <= i < |attempts| ==> attempts[i].task != t
    ensures Fails(t, attempts) == 0
  {
    SumPositive(attempts, Loss(t));
  }

  lemma FailStep(s: Sched, step: Step, t: nat, bad: set<string>)
    requires Inv(s) && Enabled(s, step) && FailInv(t, bad, s)
    requires step.Answer? && !step.ok ==> s.execs[step.exec].worker in bad
    requires step.Retry? ==> step.worker !in bad
    ensures FailInv(t, bad, Apply(s, step))
  {
    match step
    case Register(_) =>
    case Dispatch(w) =>
      if t == s.next { NoFails(t, s.attempts); }
    case Answer(e, ok) =>
      var x := s.execs[e];
      SumAppend(s.attempts, Attempt(x.worker, x.task, ok), Loss(t));
      forall f | 0 <= f < |s.execs| && f != e && s.execs[f].task == x.task ensures s.execs[f].status == Done {
        OnlyLive(s, e, f);
      }
    case Retry(e, w) =>
  }

  /** If calls fail only on bad workers and retries avoid those, no task fails twice. */
  lemma {:induction false} FailsAtMostOnce(ntasks: nat, workers: multiset<string>, run: seq<Sched>, steps: seq<Step>,
                                           bad: set<string>, k: nat, t: nat)
    requires IsRun(ntasks, workers, run, steps) && FailsOnly(bad, run, steps) && k <= |steps|
    ensures FailInv(t, bad, run[k])
  {
    if k > 0 {
      FailsAtMostOnce(ntasks, workers, run, steps, bad, k - 1, t);
      RunKeeps(ntasks, workers, run, steps, k - 1);
      assert Enabled(run[k - 1], steps[k - 1]) && run[k] == Apply(run[k - 1], steps[k - 1]);
      FailStep(run[k - 1], steps[k - 1], t, bad);
    }
  }

  function AnyLoss(): Attempt -> nat {
    (a: Attempt) => if !a.ok then 1 else 0
  }

  function FailsBelow(n: nat, attempts: seq<Attempt>): nat {
    if n == 0 then 0 else FailsBelow(n - 1, attempts) + Fails(n - 1, attempts)
  }

  lemma {:induction false} FailsBelowStart(n: nat)
    ensures FailsBelow(n, []) == 0
  {
    if n > 0 { FailsBelowStart(n - 1); }
  }

  lemma {:induction false} FailsBelowOneMore(n: nat, attempts: seq<Attempt>, a: Attempt)
    ensures FailsBelow(n, attempts + [a]) == FailsBelow(n, attempts) + if !a.ok && a.task < n then 1 else 0
  {
    if n > 0 {
      FailsBelowOneMore(n - 1, attempts, a);
      SumAppend(attempts, a, Loss(n - 1));
    }
  }

  lemma {:induction false} AllFails(n: nat, attempts: seq<Attempt>)
    requires forall i :: 0 <= i < |attempts| ==> attempts[i].task < n
    ensures Sum(attempts, AnyLoss()) == FailsBelow(n, attempts)
  {
    if attempts == [] {
      FailsBelowStart(n);
    } else {
      var m := |attempts| - 1;
      AllFails(n, attempts[..m]);
      FailsBelowOneMore(n, attempts[..m], attempts[m]);
      assert attempts[..m] + [attempts[m]] == attempts;
    }
  }

  lemma {:induction false} FailsBelowBound(n: nat, attempts: seq<Attempt>)
    requires forall t: nat :: t < n ==> Fails(t, attempts) <= 1
    ensures FailsBelow(n, attempts) <= n
  {
    if n > 0 { FailsBelowBound(n - 1, attempts); }
  }

  lemma {:induction false} WinsAndLosses(attempts: seq<Attempt>)
    ensures Sum(attempts, AnyWin()) + Sum(attempts, AnyLoss()) == |attempts|
  {
    if attempts != [] { WinsAndLosses(attempts[..|attempts| - 1]); }
  }

  /** Then the phase takes at most four steps for each task. */
  lemma BadWorkersBound(ntasks: nat, workers: multiset<string>, run: seq<Sched>, steps: seq<Step>, bad: set<string>)
    requires IsRun(ntasks, workers, run, steps) && FailsOnly(bad, run, steps)
    ensures Failures(steps) <= ntasks && Work(steps) <= 4 * ntasks
  {
    var n := |steps|;
    var attempts := run[n].attempts;
    RunKeeps(ntasks, workers, run, steps, n);
    WorkCounts(ntasks, workers, run, steps, n);
    assert steps[..n] == steps;
    WinsAndLosses(attempts);
    AllFails(ntasks, attempts);
    forall t: nat | t < ntasks ensures Fails(t, attempts) <= 1 {
      FailsAtMostOnce(ntasks, workers, run, steps, bad, n, t);
    }
    FailsBelowBound(ntasks, attempts);
    WorkBound(ntasks, workers, run, steps);
  }
}
