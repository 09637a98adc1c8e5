/** Runs in which an append, its handler and the handling of its reply form one indivisible round, unless
    the request or the reply is lost. Elections and client commands stay as asynchronous as they are.
    Every such run is a timely run, and it never indexes a slice out of range. */
module RaftRounds {
  import opened RaftTypes
  import opened RaftServer
  import opened RaftCluster
  import opened RaftHistory
  import opened RaftInvariant
  import opened RaftProgress
  import opened RaftHonest
  import opened RaftIndices
  import opened RaftSafety

  datatype Fate = RequestLost | ReplyLost | Completed

  datatype RoundStep = Plain(step: Step) | Round(i: nat, j: nat, fate: Fate)

  ghost predicate RoundEnabled(c: Cluster, b: RoundStep) {
    match b
    case Plain(step) => Enabled(c, step) && !step.SendAppend? && !step.DeliverAppend? && !step.HandleAppend?
    case Round(i, j, fate) =>
      && Enabled(c, SendAppend(i, j))
      && (fate.Completed? ==> Enabled(Delivered(c, i, j), HandleAppend(|c.appends|)))
  }

  lemma SendEnables(c: Cluster, i: nat, j: nat)
    requires Enabled(c, SendAppend(i, j))
    ensures Enabled(Apply(c, SendAppend(i, j)), DeliverAppend(|c.appends|))
  {
  }

  /** The cluster after leader i has sent to j and j has answered. */
  ghost function Delivered(c: Cluster, i: nat, j: nat): Cluster
    requires Enabled(c, SendAppend(i, j))
  {
    SendEnables(c, i, j);
    Apply(Apply(c, SendAppend(i, j)), DeliverAppend(|c.appends|))
  }

  ghost function RoundApply(c: Cluster, b: RoundStep): Cluster
    requires RoundEnabled(c, b)
  {
    match b
    case Plain(step) => Apply(c, step)
    case Round(i, j, RequestLost) => Apply(c, SendAppend(i, j))
    case Round(i, j, ReplyLost) => Delivered(c, i, j)
    case Round(i, j, Completed) => Apply(Delivered(c, i, j), HandleAppend(|c.appends|))
  }

  ghost predicate IsRoundRun(n: nat, run: seq<Cluster>, rounds: seq<RoundStep>) {
    && |run| == |rounds| + 1
    && run[0] == Init(n)
    && (forall k {:trigger rounds[k]} :: 0 <= k < |rounds| ==>
          RoundEnabled(run[k], rounds[k]) && run[k + 1] == RoundApply(run[k], rounds[k]))
  }

  /** A timely run whose leaders handle refusals only while they are fresh. */
  ghost predicate IsOrderlyRun(n: nat, run: seq<Cluster>, steps: seq<Step>) {
    IsTimelyRun(n, run, steps) && IsFreshRun(n, run, steps)
  }

  lemma ExtendRun(n: nat, run: seq<Cluster>, steps: seq<Step>, step: Step)
    requires IsOrderlyRun(n, run, steps) && Enabled(run[|steps|], step)
    requires Timely(run[|steps|], step) && FreshRefusal(run[|steps|], step)
    ensures IsOrderlyRun(n, run + [Apply(run[|steps|], step)], steps + [step])
  {
    var run', steps' := run + [Apply(run[|steps|], step)], steps + [step];
    forall k | 0 <= k < |steps'|
      ensures Enabled(run'[k], steps'[k]) && run'[k + 1] == Apply(run'[k], steps'[k])
      ensures Timely(run'[k], steps'[k]) && FreshRefusal(run'[k], steps'[k])
    {
      if k < |steps| { assert steps'[k] == steps[k]; }
    }
  }

  /** The request of a round is delivered before its leader's log can change. */
  lemma RoundRequestTimely(c: Cluster, h: History, i: nat, j: nat)
    requires Inv(c, h) && Enabled(c, SendAppend(i, j))
    ensures TimelyRequest(c.servers[j], BuildAppendArgs(c.servers[i], j))
  {
    var s, f := c.servers[i], c.servers[j];
    assert ServerOk(h, s, i) && ServerOk(h, f, j);
    if Last(f.log).term == s.term {
      assert f.log[0] == SENTINEL;
      assert EntryOk(h, f.log, |f.log| - 1);
    }
  }

  lemma DeliveredLeader(c: Cluster, i: nat, j: nat)
    requires Enabled(c, SendAppend(i, j))
    ensures var d := Delivered(c, i, j);
            && |d.servers| == |c.servers| && d.servers[i] == c.servers[i]
            && |d.appends| == |c.appends| + 1
            && var a := d.appends[|c.appends|];
            && a.src == i && a.dst == j && a.args == BuildAppendArgs(c.servers[i], j)
            && a.phase == Answered(AppendEntries(c.servers[j], a.args).1)
            && Reach(a.args) == |c.servers[i].log|
            && (forall k :: 0 <= k < |c.servers| && k != j ==> d.servers[k] == c.servers[k])
            && d.servers[j] == AppendEntries(c.servers[j], a.args).0
            && WellFormed(d)
  {
  }

  lemma RoundReplyTimely(c: Cluster, i: nat, j: nat)
    requires Enabled(c, SendAppend(i, j)) && Enabled(Delivered(c, i, j), HandleAppend(|c.appends|))
    ensures Timely(Delivered(c, i, j), HandleAppend(|c.appends|))
    ensures FreshRefusal(Delivered(c, i, j), HandleAppend(|c.appends|))
  {
    DeliveredLeader(c, i, j);
  }

  lemma DeliveryTimely(n: nat, run: seq<Cluster>, steps: seq<Step>, i: nat, j: nat)
    requires IsRun(n, run, steps) && Enabled(run[|steps|], SendAppend(i, j))
    ensures var c := run[|steps|];
            var c1, step := Apply(c, SendAppend(i, j)), DeliverAppend(|c.appends|);
            Enabled(c1, step) && Timely(c1, step)
  {
    var c := run[|steps|];
    RunInv(n, run, steps, |steps|);
    RoundRequestTimely(c, HistoryAt(run, steps, |steps|), i, j);
    SendEnables(c, i, j);
  }

  /** Sending and delivering adds two timely steps. */
  lemma AddDelivered(n: nat, run: seq<Cluster>, steps: seq<Step>, i: nat, j: nat)
    requires IsOrderlyRun(n, run, steps) && Enabled(run[|steps|], SendAppend(i, j))
    ensures var c := run[|steps|];
            IsOrderlyRun(n, run + [Apply(c, SendAppend(i, j)), Delivered(c, i, j)],
                        steps + [SendAppend(i, j), DeliverAppend(|c.appends|)])
  {
    var c := run[|steps|];
    var c1 := Apply(c, SendAppend(i, j));
    DeliveryTimely(n, run, steps, i, j);
    ExtendRun(n, run, steps, SendAppend(i, j));
    ExtendRun(n, run + [c1], steps + [SendAppend(i, j)], DeliverAppend(|c.appends|));
    assert run + [c1] + [Delivered(c, i, j)] == run + [c1, Delivered(c, i, j)];
    assert steps + [SendAppend(i, j)] + [DeliverAppend(|c.appends|)]
        == steps + [SendAppend(i, j), DeliverAppend(|c.appends|)];
  }

  /** A completed round adds three timely steps. */
  lemma AddCompleted(n: nat, run: seq<Cluster>, steps: seq<Step>, i: nat, j: nat)
    requires IsOrderlyRun(n, run, steps) && RoundEnabled(run[|steps|], Round(i, j, Completed))
    ensures var c := run[|steps|];
            var k := |c.appends|;
            var c3 := RoundApply(c, Round(i, j, Completed));
            IsOrderlyRun(n, run + [Apply(c, SendAppend(i, j)), Delivered(c, i, j), c3],
                        steps + [SendAppend(i, j), DeliverAppend(k), HandleAppend(k)])
  {
    var c := run[|steps|];
    var k := |c.appends|;
    AddDelivered(n, run, steps, i, j);
    RoundReplyTimely(c, i, j);
    var run2 := run + [Apply(c, SendAppend(i, j)), Delivered(c, i, j)];
    var steps2 := steps + [SendAppend(i, j), DeliverAppend(k)];
    ExtendRun(n, run2, steps2, HandleAppend(k));
    var c3 := RoundApply(c, Round(i, j, Completed));
    assert run2 + [c3] == run + [Apply(c, SendAppend(i, j)), Delivered(c, i, j), c3];
    assert steps2 + [HandleAppend(k)] == steps + [SendAppend(i, j), DeliverAppend(k), HandleAppend(k)];
  }

  /** The steps that a round is made of, and the clusters they pass through. */
  ghost function Fine(c: Cluster, b: RoundStep): (r: (seq<Cluster>, seq<Step>))
    requires RoundEnabled(c, b)
    ensures |r.0| == |r.1| > 0 && r.0[|r.0| - 1] == RoundApply(c, b)
  {
    match b
    case Plain(step) => ([Apply(c, step)], [step])
    case Round(i, j, RequestLost) => ([Apply(c, SendAppend(i, j))], [SendAppend(i, j)])
    case Round(i, j, ReplyLost) =>
      ([Apply(c, SendAppend(i, j)), Delivered(c, i, j)], [SendAppend(i, j), DeliverAppend(|c.appends|)])
    case Round(i, j, Completed) =>
      ([Apply(c, SendAppend(i, j)), Delivered(c, i, j), RoundApply(c, b)],
       [SendAppend(i, j), DeliverAppend(|c.appends|), HandleAppend(|c.appends|)])
  }

  /** One more step of a run with rounds adds one, two or three steps to the timely run. */
  lemma RefineRound(n: nat, run: seq<Cluster>, steps: seq<Step>, b: RoundStep)
    requires IsOrderlyRun(n, run, steps) && RoundEnabled(run[|steps|], b)
    ensures var f := Fine(run[|steps|], b);
            IsOrderlyRun(n, run + f.0, steps + f.1)
  {
    match b
    case Plain(step) => ExtendRun(n, run, steps, step);
    case Round(i, j, RequestLost) => ExtendRun(n, run, steps, SendAppend(i, j));
    case Round(i, j, ReplyLost) => AddDelivered(n, run, steps, i, j);
    case Round(i, j, Completed) => AddCompleted(n, run, steps, i, j);
  }

  /** Moment k of the run with rounds is moment at[k] of the timely run. */
  ghost predicate Embeds(run: seq<Cluster>, fine: seq<Cluster>, steps: seq<Step>, at: seq<nat>) {
    && |at| == |run| && |fine| == |steps| + 1
    && (forall k :: 0 <= k < |at| ==> at[k] <= |steps| && fine[at[k]] == run[k])
    && (forall k, m :: 0 <= k < m < |at| ==> at[k] < at[m])
  }

  /** The last two steps of a completed round k in the timely run. */
  ghost predicate CompletedAt(run: seq<Cluster>, rounds: seq<RoundStep>, fine: seq<Cluster>, steps: seq<Step>,
                              at: seq<nat>, k: nat)
    requires k < |rounds| < |run| == |at| && |fine| == |steps| + 1
  {
    rounds[k].Round? && rounds[k].fate.Completed? && RoundEnabled(run[k], rounds[k]) ==>
      && at[k] + 3 == at[k + 1] <= |steps| && steps[at[k] + 2] == HandleAppend(|run[k].appends|)
      && fine[at[k] + 2] == Delivered(run[k], rounds[k].i, rounds[k].j)
  }

  lemma RunPrefix(n: nat, run: seq<Cluster>, rounds: seq<RoundStep>)
    requires IsRoundRun(n, run, rounds) && |rounds| > 0
    ensures IsRoundRun(n, run[..|rounds|], rounds[..|rounds| - 1])
    ensures RoundEnabled(run[|rounds| - 1], rounds[|rounds| - 1])
    ensures run == run[..|rounds|] + [RoundApply(run[|rounds| - 1], rounds[|rounds| - 1])]
  {
    var m := |rounds| - 1;
    forall k | 0 <= k < m
      ensures RoundEnabled(run[k], rounds[..m][k]) && run[k + 1] == RoundApply(run[k], rounds[..m][k])
    {
      assert rounds[..m][k] == rounds[k];
    }
    assert RoundEnabled(run[m], rounds[m]) && run[m + 1] == RoundApply(run[m], rounds[m]);
    assert run == run[..m + 1] + [run[m + 1]];
  }

  lemma EmbedsExtend(run: seq<Cluster>, c: Cluster, fine: seq<Cluster>, steps: seq<Step>, at: seq<nat>,
                     more: seq<Cluster>, moreSteps: seq<Step>)
    requires Embeds(run, fine, steps, at) && |more| == |moreSteps| > 0 && more[|more| - 1] == c
    ensures Embeds(run + [c], fine + more, steps + moreSteps, at + [|steps| + |moreSteps|])
  {
  }

  lemma CompletedExtend(run: seq<Cluster>, rounds: seq<RoundStep>, fine: seq<Cluster>, steps: seq<Step>, at: seq<nat>,
                        c: Cluster, b: RoundStep, more: seq<Cluster>, moreSteps: seq<Step>, k: nat)
    requires k < |rounds| < |run| == |at| && |fine| == |steps| + 1 && |more| == |moreSteps|
    requires forall m :: 0 <= m < |at| ==> at[m] <= |steps|
    requires CompletedAt(run, rounds, fine, steps, at, k)
    ensures CompletedAt(run + [c], rounds + [b], fine + more, steps + moreSteps, at + [|steps| + |moreSteps|], k)
  {
    assert (run + [c])[k] == run[k] && (rounds + [b])[k] == rounds[k];
  }

  lemma CompletedLast(run: seq<Cluster>, rounds: seq<RoundStep>, fine: seq<Cluster>, steps: seq<Step>, at: seq<nat>,
                      b: RoundStep)
    requires |at| == |run| == |rounds| + 1 && |fine| == |steps| + 1 && at[|rounds|] == |steps|
    requires RoundEnabled(run[|rounds|], b)
    ensures var c := run[|rounds|];
            var f := Fine(c, b);
            CompletedAt(run + [RoundApply(c, b)], rounds + [b], fine + f.0, steps + f.1,
                        at + [|steps| + |f.1|], |rounds|)
  {
  }

  ghost predicate AllCompleted(run: seq<Cluster>, rounds: seq<RoundStep>, fine: seq<Cluster>, steps: seq<Step>,
                               at: seq<nat>)
    requires |rounds| < |run| == |at| && |fine| == |steps| + 1
  {
    forall k: nat {:trigger rounds[k]} :: k < |rounds| ==> CompletedAt(run, rounds, fine, steps, at, k)
  }

  lemma AllCompletedExtend(run: seq<Cluster>, rounds: seq<RoundStep>, fine: seq<Cluster>, steps: seq<Step>,
                           at: seq<nat>, b: RoundStep)
    requires Embeds(run, fine, steps, at) && |run| == |rounds| + 1 && at[|rounds|] == |steps|
    requires AllCompleted(run, rounds, fine, steps, at) && RoundEnabled(run[|rounds|], b)
    ensures var f := Fine(run[|rounds|], b);
            AllCompleted(run + [RoundApply(run[|rounds|], b)], rounds + [b], fine + f.0, steps + f.1,
                         at + [|steps| + |f.1|])
  {
    var c, f := RoundApply(run[|rounds|], b), Fine(run[|rounds|], b);
    var run', rounds', fine', steps', at' := run + [c], rounds + [b], fine + f.0, steps + f.1, at + [|steps| + |f.1|];
    forall k: nat | k < |rounds'| ensures CompletedAt(run', rounds', fine', steps', at', k) {
      if k < |rounds| {
        assert CompletedAt(run, rounds, fine, steps, at, k) by { assert rounds[k] == rounds[k]; }
        CompletedExtend(run, rounds, fine, steps, at, c, b, f.0, f.1, k);
      } else {
        CompletedLast(run, rounds, fine, steps, at, b);
      }
    }
  }

  /** The timely run `fine` makes the same moves as the run with rounds, and shows it at the moments `at`. */
  ghost predicate Refines(n: nat, run: seq<Cluster>, rounds: seq<RoundStep>, fine: seq<Cluster>, steps: seq<Step>,
                          at: seq<nat>)
  {
    && |run| == |rounds| + 1
    && IsOrderlyRun(n, fine, steps) && Embeds(run, fine, steps, at) && at[|rounds|] == |steps|
    && AllCompleted(run, rounds, fine, steps, at)
  }

  lemma OneMoreRound(n: nat, run: seq<Cluster>, rounds: seq<RoundStep>, fine: seq<Cluster>, steps: seq<Step>,
                     at: seq<nat>, b: RoundStep)
    requires Refines(n, run, rounds, fine, steps, at) && RoundEnabled(run[|rounds|], b)
    ensures var f := Fine(run[|rounds|], b);
            Refines(n, run + [RoundApply(run[|rounds|], b)], rounds + [b], fine + f.0, steps + f.1,
                    at + [|steps| + |f.1|])
  {
    var f := Fine(run[|rounds|], b);
    assert fine[|steps|] == run[|rounds|];
    RefineRound(n, fine, steps, b);
    EmbedsExtend(run, RoundApply(run[|rounds|], b), fine, steps, at, f.0, f.1);
    AllCompletedExtend(run, rounds, fine, steps, at, b);
  }

  lemma AddRound(n: nat, run: seq<Cluster>, rounds: seq<RoundStep>, fine: seq<Cluster>, steps: seq<Step>, at: seq<nat>,
                 b: RoundStep)
    returns (fine': seq<Cluster>, steps': seq<Step>, at': seq<nat>)
    requires Refines(n, run, rounds, fine, steps, at) && RoundEnabled(run[|rounds|], b)
    ensures Refines(n, run + [RoundApply(run[|rounds|], b)], rounds + [b], fine', steps', at')
  {
    OneMoreRound(n, run, rounds, fine, steps, at, b);
    var f := Fine(run[|rounds|], b);
    fine', steps', at' := fine + f.0, steps + f.1, at + [|steps| + |f.1|];
  }

  lemma NoRounds(n: nat, run: seq<Cluster>)
    requires IsRoundRun(n, run, [])
    ensures Refines(n, run, [], run, [], [0])
  {
  }

  /** Every run with rounds is a timely run, seen at some of its moments. */
  lemma {:induction false} RoundsAreTimely(n: nat, run: seq<Cluster>, rounds: seq<RoundStep>)
    returns (fine: seq<Cluster>, steps: seq<Step>, at: seq<nat>)
    requires IsRoundRun(n, run, rounds)
    ensures Refines(n, run, rounds, fine, steps, at)
    decreases |rounds|
  {
    if |rounds| == 0 {
      NoRounds(n, run);
      fine, steps, at := run, [], [0];
    } else {
      var m := |rounds| - 1;
      var run0, rounds0, b := run[..m + 1], rounds[..m], rounds[m];
      RunPrefix(n, run, rounds);
      fine, steps, at := RoundsAreTimely(n, run0, rounds0);
      fine, steps, at := AddRound(n, run0, rounds0, fine, steps, at, b);
      assert run == run0 + [RoundApply(run0[m], b)] && rounds == rounds0 + [b];
    }
  }

  /** State Machine Safety under the round assumption. */
  lemma StateMachineSafetyInRounds(n: nat, run: seq<Cluster>, rounds: seq<RoundStep>, k: nat, m: nat, i: nat, j: nat)
    requires IsRoundRun(n, run, rounds) && k <= |rounds| && m <= |rounds|
    requires i < |run[k].servers| && j < |run[m].servers|
    ensures run[k].servers[i].applied <= run[m].servers[j].applied ||
            run[m].servers[j].applied <= run[k].servers[i].applied
  {
    var fine, steps, at := RoundsAreTimely(n, run, rounds);
    TimelyRunsAreHonest(n, fine, steps);
    StateMachineSafety(n, fine, steps, at[k], at[m], i, j);
  }

  /** Committed entries are never cut under the round assumption, and the indices sent on applyCh are exactly
      1, 2, ..., lastApplied. */
  lemma CommittedNeverCutInRounds(n: nat, run: seq<Cluster>, rounds: seq<RoundStep>, k: nat, m: nat, i: nat)
    requires IsRoundRun(n, run, rounds) && k <= m <= |rounds|
    requires i < |run[k].servers| && i < |run[m].servers|
    ensures var s, s' := run[k].servers[i], run[m].servers[i];
            && s.commitIndex <= s'.commitIndex && s.lastApplied == s.commitIndex < |s.log|
            && s.commitIndex < |s'.log| && s'.log[..s.commitIndex + 1] == s.log[..s.commitIndex + 1]
            && s.applied <= s'.applied && |s.applied| == s.lastApplied
            && forall x :: 0 <= x < |s.applied| ==> s.applied[x] == ApplyMsg(x + 1, s.log[x + 1].command)
  {
    var fine, steps, at := RoundsAreTimely(n, run, rounds);
    TimelyRunsAreHonest(n, fine, steps);
    CommittedNeverCut(n, fine, steps, at[k], at[m], i);
    AppliedExactly(n, fine, steps, at[k], i);
  }

  /** The step of the timely run that handles the reply of a completed round. */
  lemma CompletedStep(n: nat, run: seq<Cluster>, rounds: seq<RoundStep>, fine: seq<Cluster>, steps: seq<Step>,
                      at: seq<nat>, k: nat)
    requires IsRoundRun(n, run, rounds) && Refines(n, run, rounds, fine, steps, at)
    requires k < |rounds| && rounds[k].Round? && rounds[k].fate.Completed?
    ensures at[k] + 2 < |steps| && steps[at[k] + 2] == HandleAppend(|run[k].appends|)
    ensures |run[k].appends| < |fine[at[k] + 2].appends|
    ensures var i := rounds[k].i;
            && fine[at[k] + 2].appends[|run[k].appends|].src == i
            && i < |run[k].servers| && i < |run[k + 1].servers| && i < |fine[at[k] + 2].servers|
            && fine[at[k] + 2].servers[i] == run[k].servers[i] && fine[at[k] + 3] == run[k + 1]
  {
    assert RoundEnabled(run[k], rounds[k]) && CompletedAt(run, rounds, fine, steps, at, k);
    DeliveredLeader(run[k], rounds[k].i, rounds[k].j);
  }

  /** Leader Completeness under the round assumption. */
  lemma LeaderCompletenessInRounds(n: nat, run: seq<Cluster>, rounds: seq<RoundStep>, k: nat, m: nat, j: nat)
    requires IsRoundRun(n, run, rounds) && k < |rounds| && m <= |rounds| && j < |run[m].servers|
    requires rounds[k].Round? && rounds[k].fate.Completed?
    requires var i := rounds[k].i;
             && run[k + 1].servers[i].commitIndex != run[k].servers[i].commitIndex
             && run[m].servers[j].role == Leader && run[m].servers[j].term > run[k].servers[i].term
    ensures var s := run[k + 1].servers[rounds[k].i];
            s.commitIndex < |s.log| && s.log[..s.commitIndex + 1] <= run[m].servers[j].log
  {
    var fine, steps, at := RoundsAreTimely(n, run, rounds);
    CompletedStep(n, run, rounds, fine, steps, at, k);
    assert at[m] <= |steps| && fine[at[m]] == run[m];
    TimelyRunsAreHonest(n, fine, steps);
    LeaderCompleteness(n, fine, steps, at[k] + 2, at[m], j);
  }

  // ---- no index out of range ----

  lemma IndicesInRounds(n: nat, run: seq<Cluster>, rounds: seq<RoundStep>, k: nat) returns (h: History)
    requires IsRoundRun(n, run, rounds) && k <= |rounds|
    ensures Inv(run[k], h) && IndexInv(run[k]) && LeadersCanBuild(run[k])
  {
    var fine, steps, at := RoundsAreTimely(n, run, rounds);
    RunInv(n, fine, steps, at[k]);
    RunIndices(n, fine, steps, at[k]);
    FreshRunsCanBuild(n, fine, steps, at[k]);
    h := HistoryAt(fine, steps, at[k]);
  }

  /** The reply of a round can always be handled. */
  lemma RoundCompletes(c: Cluster, h: History, i: nat, j: nat)
    requires Inv(c, h) && IndexInv(c) && Enabled(c, SendAppend(i, j))
    ensures Enabled(Delivered(c, i, j), HandleAppend(|c.appends|))
  {
    var c1 := Apply(c, SendAppend(i, j));
    SendEnables(c, i, j);
    StepInv(c, h, SendAppend(i, j));
    StepIndices(c, h, SendAppend(i, j));
    StepInv(c1, h, DeliverAppend(|c.appends|));
    StepIndices(c1, h, DeliverAppend(|c.appends|));
    DeliveredLeader(c, i, j);
    LeaderHandles(Delivered(c, i, j), h, |c.appends|);
  }

  /** Under the round assumption every leader can always carry out a round with every other peer: building
      the message and handling the reply never index a slice out of range. */
  lemma RoundsNeverPanic(n: nat, run: seq<Cluster>, rounds: seq<RoundStep>, k: nat, i: nat, j: nat, fate: Fate)
    requires IsRoundRun(n, run, rounds) && k <= |rounds|
    requires i < |run[k].servers| && j < |run[k].servers| && i != j && run[k].servers[i].role == Leader
    ensures RoundEnabled(run[k], Round(i, j, fate))
  {
    var h := IndicesInRounds(n, run, rounds, k);
    assert IndicesInLog(run[k].servers[i]);
    RoundCompletes(run[k], h, i, j);
  }
}
