/** One phase of the distributed scheduler: the dispatch loop, the concurrent `execute` closures, the
    WaitGroup and the channel of idle workers, as a machine that takes one step at a time. */
module Scheduler {

  /** Where an `execute` is: waiting for its call, waiting for a worker to retry with, or past both. */
  datatype Status = Calling | Failed | Done

  datatype Exec = Exec(worker: string, task: nat, status: Status)

  /** An answered call. */
  datatype Attempt = Attempt(worker: string, task: nat, ok: bool)

  /** `next` is the loop variable of the dispatch loop, `offered` the workers being sent on the channel,
      `registered` all workers that ever registered and `attempts` the calls answered so far. */
  datatype Sched = Sched(ntasks: nat, next: nat, wg: int, offered: multiset<string>, execs: seq<Exec>,
                         registered: multiset<string>, attempts: seq<Attempt>)

  datatype Step =
    | Register(worker: string)
    | Dispatch(worker: string)
    | Answer(exec: nat, ok: bool)
    | Retry(exec: nat, worker: string)

  function Init(ntasks: nat, workers: multiset<string>): Sched {
    Sched(ntasks, 0, ntasks, workers, [], workers, [])
  }

  predicate Enabled(s: Sched, step: Step) {
    match step
    case Register(_) => true
    case Dispatch(w) => s.next < s.ntasks && w in s.offered
    case Answer(e, _) => e < |s.execs| && s.execs[e].status == Calling
    case Retry(e, w) => e < |s.execs| && s.execs[e].status == Failed && w in s.offered
  }

  function Apply(s: Sched, step: Step): Sched
    requires Enabled(s, step)
  {
    match step
    case Register(w) =>
      s.(offered := s.offered + multiset{w}, registered := s.registered + multiset{w})
    case Dispatch(w) =>
      s.(next := s.next + 1, offered := s.offered - multiset{w},
         execs := s.execs + [Exec(w, s.next, Calling)])
    case Answer(e, true) =>
      var x := s.execs[e];
      s.(wg := s.wg - 1, offered := s.offered + multiset{x.worker},
         execs := s.execs[e := x.(status := Done)],
         attempts := s.attempts + [Attempt(x.worker, x.task, true)])
    case Answer(e, false) =>
      var x := s.execs[e];
      s.(execs := s.execs[e := x.(status := Failed)],
         attempts := s.attempts + [Attempt(x.worker, x.task, false)])
    case Retry(e, w) =>
      var x := s.execs[e];
      s.(offered := s.offered - multiset{w} + multiset{x.worker},
         execs := s.execs[e := x.(status := Done)] + [Exec(w, x.task, Calling)])
  }

  /** The dispatch loop is over and the WaitGroup lets `schedule` return. */
  predicate Finished(s: Sched) {
    s.next == s.ntasks && s.wg == 0
  }

  ghost predicate IsRun(ntasks: nat, workers: multiset<string>, run: seq<Sched>, steps: seq<Step>) {
    && |run| == |steps| + 1
    && run[0] == Init(ntasks, workers)
    && forall k {:trigger steps[k]} :: 0 <= k < |steps| ==>
         Enabled(run[k], steps[k]) && run[k + 1] == Apply(run[k], steps[k])
  }

  // ---- counting ----

  function Sum<T>(s: seq<T>, f: T -> nat): nat {
    if s == [] then 0 else Sum(s[..|s| - 1], f) + f(s[|s| - 1])
  }

  lemma SumAppend<T>(s: seq<T>, x: T, f: T -> nat)
    ensures Sum(s + [x], f) == Sum(s, f) + f(x)
  {
    assert (s + [x])[..|s|] == s;
  }

  lemma {:induction false} SumUpdate<T>(s: seq<T>, i: nat, x: T, f: T -> nat)
    requires i < |s|
    ensures Sum(s[i := x], f) + f(s[i]) == Sum(s, f) + f(x)
  {
    var n := |s| - 1;
    if i == n {
      assert s[i := x][..n] == s[..n];
    } else {
      assert s[i := x][..n] == s[..n][i := x];
      SumUpdate(s[..n], i, x, f);
    }
  }

  /** A positive sum has a positive term, and a positive term makes a positive sum. */
  lemma {:induction false} SumPositive<T>(s: seq<T>, f: T -> nat)
    ensures Sum(s, f) > 0 <==> exists i :: 0 <= i < |s| && f(s[i]) > 0
  {
    if s != [] {
      var n := |s| - 1;
      SumPositive(s[..n], f);
      if i :| 0 <= i < |s[..n]| && f(s[..n][i]) > 0 { assert f(s[i]) > 0; }
      if i :| 0 <= i < |s| && f(s[i]) > 0 { assert i < n ==> f(s[..n][i]) > 0; }
    }
  }

  function Live(t: nat): Exec -> nat {
    (x: Exec) => if x.task == t && x.status != Done then 1 else 0
  }

  function AnyLive(): Exec -> nat {
    (x: Exec) => if x.status != Done then 1 else 0
  }

  function InCall(): Exec -> nat {
    (x: Exec) => if x.status == Calling then 1 else 0
  }

  function Win(t: nat): Attempt -> nat {
    (a: Attempt) => if a.task == t && a.ok then 1 else 0
  }

  function AnyWin(): Attempt -> nat {
    (a: Attempt) => if a.ok then 1 else 0
  }

  /** The number of executors of task t that have not finished. */
  function LiveExecs(t: nat, execs: seq<Exec>): nat { Sum(execs, Live(t)) }

  /** The number of successful calls for task t. */
  function Wins(t: nat, attempts: seq<Attempt>): nat { Sum(attempts, Win(t)) }

  /** The number of tasks below n without a successful call. */
  function Pending(n: nat, attempts: seq<Attempt>): nat {
    if n == 0 then 0 else Pending(n - 1, attempts) + if Wins(n - 1, attempts) == 0 then 1 else 0
  }

  /** Whether the last answered call for task t succeeded. */
  predicate LastOk(t: nat, attempts: seq<Attempt>) {
    attempts != [] &&
    (var a := attempts[|attempts| - 1];
     if a.task == t then a.ok else LastOk(t, attempts[..|attempts| - 1]))
  }

  /** One if x is in status p and holds worker w. */
  function Holds(w: string, p: Status -> bool): Exec -> nat {
    (x: Exec) => if x.worker == w && p(x.status) then 1 else 0
  }

  function NotDone(): Status -> bool { (p: Status) => p != Done }

  function IsFailed(): Status -> bool { (p: Status) => p == Failed }

  function IsCalling(): Status -> bool { (p: Status) => p == Calling }

  /** How often worker w is held by an executor in status p. */
  function HeldTimes(w: string, execs: seq<Exec>, p: Status -> bool): nat { Sum(execs, Holds(w, p)) }

  /** The workers held by the executors in status p. */
  function Held(execs: seq<Exec>, p: Status -> bool): multiset<string> {
    if execs == [] then multiset{}
    else
      var x := execs[|execs| - 1];
      Held(execs[..|execs| - 1], p) + if p(x.status) then multiset{x.worker} else multiset{}
  }

  lemma {:induction false} HeldCounts(w: string, execs: seq<Exec>, p: Status -> bool)
    ensures Held(execs, p)[w] == HeldTimes(w, execs, p)
  {
    if execs != [] { HeldCounts(w, execs[..|execs| - 1], p); }
  }

  lemma {:induction false} HeldSplits(w: string, execs: seq<Exec>)
    ensures HeldTimes(w, execs, NotDone()) == HeldTimes(w, execs, IsFailed()) + HeldTimes(w, execs, IsCalling())
  {
    if execs != [] {
      HeldSplits(w, execs[..|execs| - 1]);
      var x := execs[|execs| - 1];
      assert x.status.Calling? || x.status.Failed? || x.status.Done?;
      assert Holds(w, NotDone())(x) == Holds(w, IsFailed())(x) + Holds(w, IsCalling())(x);
    }
  }

  // ---- what every step keeps ----

  /** A dispatched task has one executor or one success, never both, and after its success no more calls. */
  ghost predicate TaskInv(t: nat, next: nat, execs: seq<Exec>, attempts: seq<Attempt>) {
    && LiveExecs(t, execs) + Wins(t, attempts) == (if t < next then 1 else 0)
    && (Wins(t, attempts) > 0 ==> LastOk(t, attempts))
  }

  /** A worker is as often registered as it is on offer or held. */
  ghost predicate WorkerInv(w: string, s: Sched) {
    s.registered[w] == s.offered[w] + HeldTimes(w, s.execs, NotDone())
  }

  ghost predicate Inv(s: Sched) {
    && s.next <= s.ntasks
    && (forall t: nat :: TaskInv(t, s.next, s.execs, s.attempts))
    && s.wg == Pending(s.ntasks, s.attempts)
    && (forall w :: WorkerInv(w, s))
    && (forall i :: 0 <= i < |s.attempts| ==> s.attempts[i].task < s.next)
    && |s.execs| == |s.attempts| + Sum(s.execs, InCall())
    && Sum(s.execs, AnyLive()) + Sum(s.attempts, AnyWin()) == s.next
  }

  lemma {:induction false} PendingStart(n: nat)
    ensures Pending(n, []) == n
  {
    if n > 0 { PendingStart(n - 1); }
  }

  lemma {:induction false} PendingLoss(n: nat, attempts: seq<Attempt>, a: Attempt)
    requires !a.ok
    ensures Pending(n, attempts + [a]) == Pending(n, attempts)
  {
    if n > 0 {
      PendingLoss(n - 1, attempts, a);
      SumAppend(attempts, a, Win(n - 1));
    }
  }

  lemma {:induction false} PendingWin(n: nat, attempts: seq<Attempt>, a: Attempt)
    requires a.ok && Wins(a.task, attempts) == 0
    ensures Pending(n, attempts + [a]) == Pending(n, attempts) - if a.task < n then 1 else 0
  {
    if n > 0 {
      PendingWin(n - 1, attempts, a);
      SumAppend(attempts, a, Win(n - 1));
    }
  }

  /** The tasks below n without a success are counted: none is left exactly when all have one. */
  lemma {:induction false} PendingZero(n: nat, attempts: seq<Attempt>)
    ensures Pending(n, attempts) == 0 <==> forall t :: 0 <= t < n ==> Wins(t, attempts) > 0
  {
    if n > 0 {
      PendingZero(n - 1, attempts);
      assert Pending(n, attempts) == 0 ==> Wins(n - 1, attempts) > 0;
    }
  }

  lemma InitInv(ntasks: nat, workers: multiset<string>)
    ensures Inv(Init(ntasks, workers))
  {
    PendingStart(ntasks);
  }

  lemma LastOkAppend(t: nat, attempts: seq<Attempt>, a: Attempt)
    ensures LastOk(t, attempts + [a]) <==> if a.task == t then a.ok else LastOk(t, attempts)
  {
    assert (attempts + [a])[..|attempts|] == attempts;
  }

  lemma LiveExec(execs: seq<Exec>, e: nat)
    requires e < |execs| && execs[e].status != Done
    ensures LiveExecs(execs[e].task, execs) > 0
  {
    var f := Live(execs[e].task);
    assert f(execs[e]) > 0;
    SumPositive(execs, f);
  }

  lemma DispatchKeeps(s: Sched, w: string)
    requires Inv(s) && Enabled(s, Dispatch(w))
    ensures Inv(Apply(s, Dispatch(w)))
  {
    var x := Exec(w, s.next, Calling);
    var s' := Apply(s, Dispatch(w));
    forall t: nat ensures TaskInv(t, s'.next, s'.execs, s'.attempts) {
      assert TaskInv(t, s.next, s.execs, s.attempts);
      SumAppend(s.execs, x, Live(t));
    }
    forall v ensures WorkerInv(v, s') {
      assert WorkerInv(v, s);
      SumAppend(s.execs, x, Holds(v, NotDone()));
    }
    SumAppend(s.execs, x, InCall());
    SumAppend(s.execs, x, AnyLive());
  }

  lemma AnswerLive(execs: seq<Exec>, e: nat, ok: bool, t: nat)
    requires e < |execs| && execs[e].status == Calling
    ensures LiveExecs(t, execs[e := execs[e].(status := if ok then Done else Failed)]) ==
            LiveExecs(t, execs) - if ok && execs[e].task == t then 1 else 0
  {
    var y := execs[e].(status := if ok then Done else Failed);
    SumUpdate(execs, e, y, Live(t));
    assert Live(t)(y) == if !ok && y.task == t then 1 else 0;
    assert Live(t)(execs[e]) == if y.task == t then 1 else 0;
  }

  lemma AnswerWins(attempts: seq<Attempt>, a: Attempt, t: nat)
    ensures Wins(t, attempts + [a]) == Wins(t, attempts) + if a.ok && a.task == t then 1 else 0
  {
    SumAppend(attempts, a, Win(t));
  }

  lemma AnswerTasks(s: Sched, e: nat, ok: bool, t: nat)
    requires e < |s.execs| && s.execs[e].status == Calling
    requires TaskInv(t, s.next, s.execs, s.attempts)
    ensures var x := s.execs[e];
            TaskInv(t, s.next, s.execs[e := x.(status := if ok then Done else Failed)],
                    s.attempts + [Attempt(x.worker, x.task, ok)])
  {
    var a := Attempt(s.execs[e].worker, s.execs[e].task, ok);
    AnswerLive(s.execs, e, ok, t);
    AnswerWins(s.attempts, a, t);
    LastOkAppend(t, s.attempts, a);
    LiveExec(s.execs, e);
  }

  lemma AnswerWorkers(s: Sched, e: nat, ok: bool, w: string)
    requires e < |s.execs| && s.execs[e].status == Calling && WorkerInv(w, s)
    ensures WorkerInv(w, Apply(s, Answer(e, ok)))
  {
    SumUpdate(s.execs, e, s.execs[e].(status := if ok then Done else Failed), Holds(w, NotDone()));
  }

  lemma AnswerKeeps(s: Sched, e: nat, ok: bool)
    requires Inv(s) && Enabled(s, Answer(e, ok))
    ensures Inv(Apply(s, Answer(e, ok)))
  {
    var x := s.execs[e];
    var y := x.(status := if ok then Done else Failed);
    var s' := Apply(s, Answer(e, ok));
    assert s'.execs == s.execs[e := y] && s'.attempts == s.attempts + [Attempt(x.worker, x.task, ok)];
    forall t: nat ensures TaskInv(t, s'.next, s'.execs, s'.attempts) {
      assert TaskInv(t, s.next, s.execs, s.attempts);
      AnswerTasks(s, e, ok, t);
    }
    forall w ensures WorkerInv(w, s') {
      assert WorkerInv(w, s);
      AnswerWorkers(s, e, ok, w);
    }
    assert s'.wg == Pending(s.ntasks, s'.attempts) && x.task < s.next by {
      assert TaskInv(x.task, s.next, s.execs, s.attempts);
      LiveExec(s.execs, e);
      var a := Attempt(x.worker, x.task, ok);
      if ok { PendingWin(s.ntasks, s.attempts, a); } else { PendingLoss(s.ntasks, s.attempts, a); }
    }
    SumUpdate(s.execs, e, y, InCall());
    SumUpdate(s.execs, e, y, AnyLive());
    SumAppend(s.attempts, Attempt(x.worker, x.task, ok), AnyWin());
  }

  lemma RetryTasks(s: Sched, e: nat, w: string, t: nat)
    requires Enabled(s, Retry(e, w)) && TaskInv(t, s.next, s.execs, s.attempts)
    ensures TaskInv(t, s.next, Apply(s, Retry(e, w)).execs, s.attempts)
  {
    var y := s.execs[e].(status := Done);
    SumUpdate(s.execs, e, y, Live(t));
    SumAppend(s.execs[e := y], Exec(w, y.task, Calling), Live(t));
  }

  lemma RetryWorkers(s: Sched, e: nat, w: string, v: string)
    requires Enabled(s, Retry(e, w)) && WorkerInv(v, s)
    ensures WorkerInv(v, Apply(s, Retry(e, w)))
  {
    var y := s.execs[e].(status := Done);
    SumUpdate(s.execs, e, y, Holds(v, NotDone()));
    SumAppend(s.execs[e := y], Exec(w, y.task, Calling), Holds(v, NotDone()));
  }

  lemma RetryKeeps(s: Sched, e: nat, w: string)
    requires Inv(s) && Enabled(s, Retry(e, w))
    ensures Inv(Apply(s, Retry(e, w)))
  {
    var y, z := s.execs[e].(status := Done), Exec(w, s.execs[e].task, Calling);
    var mid := s.execs[e := y];
    var s' := Apply(s, Retry(e, w));
    forall t: nat ensures TaskInv(t, s'.next, s'.execs, s'.attempts) {
      assert TaskInv(t, s.next, s.execs, s.attempts);
      RetryTasks(s, e, w, t);
    }
    forall v ensures WorkerInv(v, s') {
      assert WorkerInv(v, s);
      RetryWorkers(s, e, w, v);
    }
    SumUpdate(s.execs, e, y, InCall());
    SumAppend(mid, z, InCall());
    SumUpdate(s.execs, e, y, AnyLive());
    SumAppend(mid, z, AnyLive());
  }

  lemma StepKeeps(s: Sched, step: Step)
    requires Inv(s) && Enabled(s, step)
    ensures Inv(Apply(s, step))
  {
    match step
    case Register(w) =>
      forall v ensures WorkerInv(v, Apply(s, step)) { assert WorkerInv(v, s); }
    case Dispatch(w) => DispatchKeeps(s, w);
    case Answer(e, ok) => AnswerKeeps(s, e, ok);
    case Retry(e, w) => RetryKeeps(s, e, w);
  }

  lemma {:induction false} RunKeeps(ntasks: nat, workers: multiset<string>, run: seq<Sched>, steps: seq<Step>, k: nat)
    requires IsRun(ntasks, workers, run, steps) && k <= |steps|
    ensures Inv(run[k]) && run[k].ntasks == ntasks
  {
    if k == 0 {
      InitInv(ntasks, workers);
    } else {
      RunKeeps(ntasks, workers, run, steps, k - 1);
      assert run[k] == Apply(run[k - 1], steps[k - 1]);
      StepKeeps(run[k - 1], steps[k - 1]);
    }
  }

  // ---- the theorems ----

  /** The tasks below n that no call has succeeded for. */
  ghost function Unfinished(n: nat, attempts: seq<Attempt>): set<nat> {
    set t: nat | t < n && Wins(t, attempts) == 0
  }

  lemma UnfinishedOneMore(n: nat, attempts: seq<Attempt>)
    ensures Unfinished(n + 1, attempts) == Unfinished(n, attempts) + if Wins(n, attempts) == 0 then {n} else {}
  {
  }

  lemma {:induction false} PendingCounts(n: nat, attempts: seq<Attempt>)
    ensures Pending(n, attempts) == |Unfinished(n, attempts)|
  {
    if n > 0 {
      PendingCounts(n - 1, attempts);
      UnfinishedOneMore(n - 1, attempts);
      assert n - 1 !in Unfinished(n - 1, attempts);
    }
  }

  /** In every reachable state the WaitGroup counts the tasks without a successful call, a dispatched task
      without one has exactly one live executor, and a task with one has none. */
  lemma Accounting(ntasks: nat, workers: multiset<string>, run: seq<Sched>, steps: seq<Step>, k: nat)
    requires IsRun(ntasks, workers, run, steps) && k <= |steps|
    ensures run[k].wg == |Unfinished(ntasks, run[k].attempts)|
    ensures forall t: nat :: t < run[k].next ==>
              LiveExecs(t, run[k].execs) == if Wins(t, run[k].attempts) == 0 then 1 else 0
    ensures forall t: nat :: Wins(t, run[k].attempts) <= 1
  {
    RunKeeps(ntasks, workers, run, steps, k);
    PendingCounts(ntasks, run[k].attempts);
    forall t: nat
      ensures t < run[k].next ==> LiveExecs(t, run[k].execs) == if Wins(t, run[k].attempts) == 0 then 1 else 0
      ensures Wins(t, run[k].attempts) <= 1
    {
      assert TaskInv(t, run[k].next, run[k].execs, run[k].attempts);
    }
  }

  lemma {:induction false} NoneHeld(w: string, execs: seq<Exec>, p: Status -> bool)
    requires forall i :: 0 <= i < |execs| ==> !p(execs[i].status)
    ensures HeldTimes(w, execs, p) == 0
  {
    SumPositive(execs, Holds(w, p));
  }

  /** `schedule` returns only after each task has had exactly one successful call, which is the task's last
      call; then no executor is left and every registered worker is idle. */
  lemma FinishedMeansDone(s: Sched, t: nat)
    requires Inv(s) && Finished(s)
    ensures t < s.ntasks ==> Wins(t, s.attempts) == 1 && LastOk(t, s.attempts)
    ensures t >= s.ntasks ==> Wins(t, s.attempts) == 0
    ensures s.offered == s.registered
  {
    PendingZero(s.ntasks, s.attempts);
    assert TaskInv(t, s.next, s.execs, s.attempts);
    forall i | 0 <= i < |s.execs| ensures s.execs[i].status == Done {
      var u := s.execs[i].task;
      assert TaskInv(u, s.next, s.execs, s.attempts);
      assert u < s.ntasks ==> Wins(u, s.attempts) > 0;
      if s.execs[i].status != Done { LiveExec(s.execs, i); }
    }
    forall w ensures s.offered[w] == s.registered[w] {
      assert WorkerInv(w, s);
      NoneHeld(w, s.execs, NotDone());
    }
  }

  lemma ReturnsWhenDone(ntasks: nat, workers: multiset<string>, run: seq<Sched>, steps: seq<Step>, k: nat, t: nat)
    requires IsRun(ntasks, workers, run, steps) && k <= |steps| && Finished(run[k])
    ensures t < ntasks ==> Wins(t, run[k].attempts) == 1 && LastOk(t, run[k].attempts)
    ensures t >= ntasks ==> Wins(t, run[k].attempts) == 0
    ensures forall i :: 0 <= i < |run[k].attempts| ==> run[k].attempts[i].task < ntasks
    ensures run[k].offered == run[k].registered
  {
    RunKeeps(ntasks, workers, run, steps, k);
    FinishedMeansDone(run[k], t);
  }

  /** Registered workers are conserved: each is on offer or held by one executor. */
  lemma WorkersConserved(ntasks: nat, workers: multiset<string>, run: seq<Sched>, steps: seq<Step>, k: nat)
    requires IsRun(ntasks, workers, run, steps) && k <= |steps|
    ensures run[k].registered == run[k].offered + Held(run[k].execs, NotDone())
  {
    RunKeeps(ntasks, workers, run, steps, k);
    forall w ensures run[k].registered[w] == (run[k].offered + Held(run[k].execs, NotDone()))[w] {
      assert WorkerInv(w, run[k]);
      HeldCounts(w, run[k].execs, NotDone());
    }
  }

  /** The master can do nothing until another worker registers. */
  ghost predicate Stuck(s: Sched) {
    forall step :: Enabled(s, step) ==> step.Register?
  }

  /** Some task is still open, and unless the dispatch loop has yet to reach it, some executor has it. */
  lemma OpenTask(s: Sched)
    requires Inv(s) && !Finished(s) && s.next == s.ntasks
    ensures exists i :: 0 <= i < |s.execs| && s.execs[i].status != Done
  {
    PendingZero(s.ntasks, s.attempts);
    var t: nat :| t < s.ntasks && Wins(t, s.attempts) == 0;
    assert TaskInv(t, s.next, s.execs, s.attempts);
    SumPositive(s.execs, Live(t));
  }

  lemma StuckMeansNoneMove(s: Sched)
    requires Inv(s) && !Finished(s)
    ensures Stuck(s) <==> s.offered == multiset{} && NoCalls(s.execs)
  {
    if forall i :: 0 <= i < |s.execs| ==> s.execs[i].status != Calling {
      if s.offered != multiset{} {
        var w :| w in s.offered;
        if s.next < s.ntasks {
          assert Enabled(s, Dispatch(w));
        } else {
          OpenTask(s);
          var i :| 0 <= i < |s.execs| && s.execs[i].status != Done;
          assert Enabled(s, Retry(i, w));
        }
      }
    } else {
      var i :| 0 <= i < |s.execs| && s.execs[i].status == Calling;
      assert Enabled(s, Answer(i, true));
    }
  }

  ghost predicate NoCalls(execs: seq<Exec>) {
    forall i :: 0 <= i < |execs| ==> execs[i].status != Calling
  }

  /** A worker is on offer, held by a failed executor or held by one that is calling it. */
  lemma WorkerPlaces(s: Sched, w: string)
    requires Inv(s)
    ensures s.registered[w] == s.offered[w] + Held(s.execs, IsFailed())[w] + HeldTimes(w, s.execs, IsCalling())
  {
    assert WorkerInv(w, s);
    HeldSplits(w, s.execs);
    HeldCounts(w, s.execs, IsFailed());
  }

  lemma NoCallsLeft(s: Sched)
    requires Inv(s) && NoCalls(s.execs)
    ensures s.registered == Held(s.execs, IsFailed()) <==> s.offered == multiset{}
  {
    var failed := Held(s.execs, IsFailed());
    forall w ensures s.registered[w] == s.offered[w] + failed[w] {
      WorkerPlaces(s, w);
      NoneHeld(w, s.execs, IsCalling());
    }
    assert s.registered == s.offered + failed;
    assert s.registered - failed == s.offered;
  }

  lemma SomeCall(s: Sched)
    requires Inv(s) && !NoCalls(s.execs)
    ensures s.registered != Held(s.execs, IsFailed())
  {
    var i :| 0 <= i < |s.execs| && s.execs[i].status == Calling;
    var w := s.execs[i].worker;
    var f := Holds(w, IsCalling());
    assert f(s.execs[i]) > 0;
    SumPositive(s.execs, f);
    WorkerPlaces(s, w);
  }

  lemma StuckWorkers(s: Sched)
    requires Inv(s)
    ensures s.registered == Held(s.execs, IsFailed()) <==> s.offered == multiset{} && NoCalls(s.execs)
  {
    if NoCalls(s.execs) { NoCallsLeft(s); } else { SomeCall(s); }
  }

  /** An unfinished phase is stuck exactly when every registered worker is held by an executor whose call
      failed. */
  lemma StuckExactly(ntasks: nat, workers: multiset<string>, run: seq<Sched>, steps: seq<Step>, k: nat)
    requires IsRun(ntasks, workers, run, steps) && k <= |steps| && !Finished(run[k])
    ensures Stuck(run[k]) <==> run[k].registered == Held(run[k].execs, IsFailed())
  {
    RunKeeps(ntasks, workers, run, steps, k);
    StuckMeansNoneMove(run[k]);
    StuckWorkers(run[k]);
  }

  /** One worker and one failed call are enough: the executor waits for a worker while it holds the only one. */
  lemma OneFailureSticks(w: string)
    ensures var run := [Init(1, multiset{w}), Apply(Init(1, multiset{w}), Dispatch(w)),
                        Apply(Apply(Init(1, multiset{w}), Dispatch(w)), Answer(0, false))];
            && IsRun(1, multiset{w}, run, [Dispatch(w), Answer(0, false)])
            && !Finished(run[2]) && Stuck(run[2])
  {
  }

  function WorkOf(): Step -> nat {
    (step: Step) => if step.Register? then 0 else 1
  }

  function FailureOf(): Step -> nat {
    (step: Step) => if step.Answer? && !step.ok then 1 else 0
  }

  /** The number of receives and answers. */
  function Work(steps: seq<Step>): nat { Sum(steps, WorkOf()) }

  /** The number of failed calls. */
  function Failures(steps: seq<Step>): nat { Sum(steps, FailureOf()) }

  ghost predicate Counted(s: Sched, work: nat, failures: nat) {
    && |s.execs| + |s.attempts| == work
    && |s.attempts| == Sum(s.attempts, AnyWin()) + failures
  }

  lemma StepCounts(s: Sched, step: Step, work: nat, failures: nat)
    requires Enabled(s, step) && Counted(s, work, failures)
    ensures Counted(Apply(s, step), work + WorkOf()(step), failures + FailureOf()(step))
  {
    if step.Answer? {
      SumAppend(s.attempts, Attempt(s.execs[step.exec].worker, s.execs[step.exec].task, step.ok), AnyWin());
    }
  }

  lemma {:induction false} WorkCounts(ntasks: nat, workers: multiset<string>, run: seq<Sched>, steps: seq<Step>, k: nat)
    requires IsRun(ntasks, workers, run, steps) && k <= |steps|
    ensures Counted(run[k], Work(steps[..k]), Failures(steps[..k]))
  {
    if k > 0 {
      WorkCounts(ntasks, workers, run, steps, k - 1);
      assert run[k] == Apply(run[k - 1], steps[k - 1]);
      StepCounts(run[k - 1], steps[k - 1], Work(steps[..k - 1]), Failures(steps[..k - 1]));
      assert steps[..k] == steps[..k - 1] + [steps[k - 1]];
      SumAppend(steps[..k - 1], steps[k - 1], WorkOf());
      SumAppend(steps[..k - 1], steps[k - 1], FailureOf());
    }
  }

  lemma {:induction false} CallsAreLive(execs: seq<Exec>)
    ensures Sum(execs, InCall()) <= Sum(execs, AnyLive())
  {
    if execs != [] { CallsAreLive(execs[..|execs| - 1]); }
  }

  /** A phase with F failed calls takes at most 2 * (ntasks + F) receive and answer steps. */
  lemma WorkBound(ntasks: nat, workers: multiset<string>, run: seq<Sched>, steps: seq<Step>)
    requires IsRun(ntasks, workers, run, steps)
    ensures Work(steps) <= 2 * (ntasks + Failures(steps))
  {
    RunKeeps(ntasks, workers, run, steps, |steps|);
    WorkCounts(ntasks, workers, run, steps, |steps|);
    assert steps[..|steps|] == steps;
    CallsAreLive(run[|steps|].execs);
  }
}
