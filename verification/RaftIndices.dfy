/** The two places where a peer may index a slice out of range: a leader that builds a message with a NextIndex
    outside of its log, and a peer that reads the log at the median of MatchIndex. Both are characterised
    exactly, in every run. */
module RaftIndices {
  import opened RaftTypes
  import opened RaftServer
  import opened RaftCluster
  import opened RaftHistory
  import opened RaftInvariant
  import opened Quorum

  ghost predicate LeaderIndices(s: Server) {
    s.role == Leader ==> IndicesBelow(s)
  }

  predicate Sized(s: Server) {
    |s.nextIndex| == s.peers && |s.matchIndex| == s.peers
  }

  /** An append that a peer of the same term refuses was sent with an index beyond the sentinel. */
  ghost predicate RefusalOk(a: AppendCall) {
    a.phase.Answered? && !a.phase.reply.success && a.phase.reply.term <= a.args.term ==> a.args.prevIndex >= 1
  }

  ghost predicate IndexInv(c: Cluster) {
    && WellFormed(c)
    && (forall i: nat :: i < |c.servers| ==> LeaderIndices(c.servers[i]))
    && (forall a :: 0 <= a < |c.appends| ==> Sized(c.servers[c.appends[a].src]) && RefusalOk(c.appends[a]))
  }

  // ---- what every step keeps ----

  ghost predicate ServerKept(s: Server, s': Server) {
    LeaderIndices(s') && (Sized(s) ==> Sized(s')) && (s'.role == Leader ==> Sized(s'))
  }

  lemma PlainServer(c: Cluster, step: Step, i: nat)
    requires Enabled(c, step) && i < |c.servers| && LeaderIndices(c.servers[i])
    requires !step.DeliverAppend? && !step.HandleAppend?
    ensures i < |Apply(c, step).servers| && ServerKept(c.servers[i], Apply(c, step).servers[i])
  {
  }

  /** A leader that receives another leader's append steps down or refuses, so its log does not change. */
  lemma DeliverServer(c: Cluster, h: History, k: nat)
    requires Inv(c, h) && k < |c.appends| && LeaderIndices(c.servers[c.appends[k].dst])
    ensures var s := c.servers[c.appends[k].dst];
            ServerKept(s, AppendEntries(s, c.appends[k].args).0)
  {
    var a := c.appends[k];
    assert AppendOk(h, a) && ServerOk(h, c.servers[a.dst], a.dst);
    AppendEntriesShape(c.servers[a.dst], a.args);
  }

  lemma DeliverRefusal(c: Cluster, h: History, k: nat)
    requires Inv(c, h) && k < |c.appends|
    ensures var a := c.appends[k];
            RefusalOk(a.(phase := Answered(AppendEntries(c.servers[a.dst], a.args).1)))
  {
    var a := c.appends[k];
    assert AppendOk(h, a) && ServerOk(h, c.servers[a.dst], a.dst);
    assert ReignOk(h, a.args.term, h.reigns[a.args.term], c.servers);
    AppendEntriesShape(c.servers[a.dst], a.args);
  }

  lemma HandleServer(s: Server, id: nat, r: AppendReply)
    requires CanHandleAppendReply(s, id, r) && LeaderIndices(s) && Sized(s)
    ensures ServerKept(s, OnAppendReply(s, id, r))
  {
  }

  lemma StepServers(c: Cluster, h: History, step: Step, i: nat)
    requires Inv(c, h) && IndexInv(c) && Enabled(c, step) && i < |c.servers|
    ensures i < |Apply(c, step).servers| && ServerKept(c.servers[i], Apply(c, step).servers[i])
  {
    assert LeaderIndices(c.servers[i]);
    match step
    case DeliverAppend(k) =>
      DeliverServer(c, h, k);
    case HandleAppend(k) =>
      HandleServer(c.servers[c.appends[k].src], c.appends[k].dst, c.appends[k].phase.reply);
    case _ => PlainServer(c, step, i);
  }

  lemma StepAnswers(c: Cluster, h: History, step: Step, a: nat)
    requires Inv(c, h) && IndexInv(c) && Enabled(c, step) && a < |Apply(c, step).appends|
    ensures RefusalOk(Apply(c, step).appends[a])
    ensures a < |c.appends| ==> Apply(c, step).appends[a].src == c.appends[a].src
    ensures a >= |c.appends| ==> step.SendAppend? && Apply(c, step).appends[a].src == step.i
  {
    if step.DeliverAppend? { DeliverRefusal(c, h, step.k); }
    if a < |c.appends| { assert RefusalOk(c.appends[a]); }
  }

  lemma StepIndices(c: Cluster, h: History, step: Step)
    requires Inv(c, h) && IndexInv(c) && Enabled(c, step)
    ensures IndexInv(Apply(c, step))
  {
    StepInv(c, h, step);
    var c' := Apply(c, step);
    forall i: nat | i < |c.servers| ensures i < |c'.servers| && ServerKept(c.servers[i], c'.servers[i]) {
      StepServers(c, h, step, i);
    }
    StepSize(c, step);
    forall a | 0 <= a < |c'.appends| ensures Sized(c'.servers[c'.appends[a].src]) && RefusalOk(c'.appends[a]) {
      StepAnswers(c, h, step, a);
    }
  }

  lemma StepSize(c: Cluster, step: Step)
    requires Enabled(c, step)
    ensures |Apply(c, step).servers| == |c.servers|
  {
  }

  lemma {:induction false} RunIndices(n: nat, run: seq<Cluster>, steps: seq<Step>, k: nat)
    requires IsRun(n, run, steps) && k <= |steps|
    ensures IndexInv(run[k]) && |run[k].servers| == n
  {
    if k > 0 {
      RunIndices(n, run, steps, k - 1);
      RunInv(n, run, steps, k - 1);
      assert Enabled(run[k - 1], steps[k - 1]) && run[k] == Apply(run[k - 1], steps[k - 1]);
      StepIndices(run[k - 1], HistoryAt(run, steps, k - 1), steps[k - 1]);
      StepSize(run[k - 1], steps[k - 1]);
    }
  }

  // ---- building a message ----

  /** In every run, a leader can build a message exactly when NextIndex has not fallen below 1; it never
      points past the end of the log. */
  lemma BuildPanicsExactly(n: nat, run: seq<Cluster>, steps: seq<Step>, k: nat, i: nat, j: nat)
    requires IsRun(n, run, steps) && k <= |steps| && i < n && j < n && i != j
    requires i < |run[k].servers| && run[k].servers[i].role == Leader
    ensures var s := run[k].servers[i];
            && |s.nextIndex| == n && s.nextIndex[j] <= |s.log|
            && (Enabled(run[k], SendAppend(i, j)) <==> s.nextIndex[j] >= 1)
  {
    RunIndices(n, run, steps, k);
    assert LeaderIndices(run[k].servers[i]);
  }

  /** The step handles a refusal from peer j by leader i, whose NextIndex for j is 1. */
  ghost predicate OneRefusalTooMany(c: Cluster, step: Step, i: nat, j: nat)
    requires Enabled(c, step) && i < |c.servers|
  {
    && step.HandleAppend?
    && var call, s := c.appends[step.k], c.servers[i];
    && call.src == i && call.dst == j && !call.phase.reply.success && call.phase.reply.term <= s.term
    && j < |s.nextIndex| && s.nextIndex[j] == 1
  }

  lemma FallsExactly(c: Cluster, step: Step, i: nat, j: nat)
    requires IndexInv(c) && Enabled(c, step) && i < |c.servers| && j < |c.servers|
    requires c.servers[i].role == Leader && c.servers[i].nextIndex[j] >= 1
    ensures i < |Apply(c, step).servers|
    ensures var s' := Apply(c, step).servers[i];
            s'.role == Leader && j < |s'.nextIndex| && s'.nextIndex[j] < 1 <==> OneRefusalTooMany(c, step, i, j)
  {
    assert LeaderIndices(c.servers[i]);
  }

  /** In every run, a step takes a leader's NextIndex below 1 exactly when it handles a refusal while
      NextIndex is 1. */
  lemma NextIndexFallsExactly(n: nat, run: seq<Cluster>, steps: seq<Step>, k: nat, i: nat, j: nat)
    requires IsRun(n, run, steps) && k < |steps| && i < n && j < n
    requires i < |run[k].servers| && run[k].servers[i].role == Leader
    requires j < |run[k].servers[i].nextIndex| && run[k].servers[i].nextIndex[j] >= 1
    ensures i < |run[k + 1].servers|
    ensures var s' := run[k + 1].servers[i];
            s'.role == Leader && j < |s'.nextIndex| && s'.nextIndex[j] < 1
            <==> OneRefusalTooMany(run[k], steps[k], i, j)
  {
    RunIndices(n, run, steps, k);
    FallsExactly(run[k], steps[k], i, j);
  }

  /** A leader handles a refusal only while it still leads the term it sent in and NextIndex is still the one
      it sent. */
  ghost predicate FreshRefusal(c: Cluster, step: Step)
    requires Enabled(c, step)
  {
    step.HandleAppend? ==>
      var call := c.appends[step.k];
      var s, r := c.servers[call.src], call.phase.reply;
      s.role == Leader && !r.success && r.term <= s.term ==>
        s.term == call.args.term && call.dst < |s.nextIndex| && s.nextIndex[call.dst] == call.args.prevIndex + 1
  }

  ghost predicate LeadersCanBuild(c: Cluster) {
    forall i: nat :: i < |c.servers| && c.servers[i].role == Leader ==> IndicesInLog(c.servers[i])
  }

  lemma FreshStep(c: Cluster, step: Step, i: nat, j: nat)
    requires IndexInv(c) && Enabled(c, step) && FreshRefusal(c, step) && LeadersCanBuild(c)
    requires i < |c.servers| && j < |c.servers| && i < |Apply(c, step).servers|
    requires Apply(c, step).servers[i].role == Leader && j < |Apply(c, step).servers[i].nextIndex|
    ensures Apply(c, step).servers[i].nextIndex[j] >= 1
  {
    if c.servers[i].role == Leader {
      assert IndicesInLog(c.servers[i]);
      FallsExactly(c, step, i, j);
      if step.HandleAppend? { assert RefusalOk(c.appends[step.k]); }
    } else {
      Crowned(c, step, i);
    }
  }

  lemma Crowned(c: Cluster, step: Step, i: nat)
    requires Enabled(c, step) && i < |c.servers| && c.servers[i].role != Leader
    requires i < |Apply(c, step).servers| && Apply(c, step).servers[i].role == Leader
    ensures forall j :: 0 <= j < |Apply(c, step).servers[i].nextIndex| ==> Apply(c, step).servers[i].nextIndex[j] >= 1
  {
  }

  lemma FreshKeeps(c: Cluster, h: History, step: Step)
    requires Inv(c, h) && IndexInv(c) && Enabled(c, step) && FreshRefusal(c, step) && LeadersCanBuild(c)
    ensures LeadersCanBuild(Apply(c, step))
  {
    var c' := Apply(c, step);
    StepIndices(c, h, step);
    StepSize(c, step);
    forall i: nat | i < |c'.servers| && c'.servers[i].role == Leader ensures IndicesInLog(c'.servers[i]) {
      assert LeaderIndices(c'.servers[i]);
      forall j | 0 <= j < c'.servers[i].peers ensures c'.servers[i].nextIndex[j] >= 1 { FreshStep(c, step, i, j); }
    }
  }

  ghost predicate IsFreshRun(n: nat, run: seq<Cluster>, steps: seq<Step>) {
    IsRun(n, run, steps) && forall k {:trigger steps[k]} :: 0 <= k < |steps| ==> FreshRefusal(run[k], steps[k])
  }

  lemma NoLeaderYet(n: nat)
    ensures LeadersCanBuild(Init(n))
  {
  }

  lemma FreshStepInRun(n: nat, run: seq<Cluster>, steps: seq<Step>, k: nat)
    requires IsRun(n, run, steps) && k < |steps| && FreshRefusal(run[k], steps[k]) && LeadersCanBuild(run[k])
    ensures LeadersCanBuild(run[k + 1])
  {
    RunIndices(n, run, steps, k);
    RunInv(n, run, steps, k);
    FreshKeeps(run[k], HistoryAt(run, steps, k), steps[k]);
  }

  /** In every run whose leaders handle refusals only while they are fresh, every leader can build a message for
      every other peer at every moment. */
  lemma {:induction false} FreshRunsCanBuild(n: nat, run: seq<Cluster>, steps: seq<Step>, k: nat)
    requires IsFreshRun(n, run, steps) && k <= |steps|
    ensures LeadersCanBuild(run[k])
  {
    if k == 0 {
      NoLeaderYet(n);
    } else {
      FreshRunsCanBuild(n, run, steps, k - 1);
      assert FreshRefusal(run[k - 1], steps[k - 1]);
      FreshStepInRun(n, run, steps, k - 1);
    }
  }

  // ---- handling a reply ----

  /** The peers other than s and `id` whose MatchIndex lies beyond the log and beyond the commit index. */
  ghost function Beyond(s: Server, id: nat): (r: set<nat>)
    requires Sized(s)
  {
    set g: nat | g < s.peers && g != id && g != s.me && s.matchIndex[g] >= |s.log| && s.matchIndex[g] > s.commitIndex
  }

  lemma MedianBeyond(s: Server, id: nat)
    requires Sized(s) && s.me < s.peers && id < s.peers
    ensures var N := Median(NewMatchIndex(s, id));
            N >= |s.log| && N > s.commitIndex <==> Majority(Beyond(s, id), s.peers)
  {
    var m := NewMatchIndex(s, id);
    var v := if s.commitIndex >= |s.log| then s.commitIndex + 1 else |s.log|;
    MedianIsGreatestMajorityIndex(m, v);
    assert Reached(m, v) == Beyond(s, id);
  }

  /** In every run, handling an answer panics exactly when it is a success that is not from a later term and a
      majority of MatchIndex, without the two entries about to be set, lies beyond the log and the commit index. */
  lemma ReplyPanicsExactly(n: nat, run: seq<Cluster>, steps: seq<Step>, k: nat, a: nat)
    requires IsRun(n, run, steps) && k <= |steps| && a < |run[k].appends| && run[k].appends[a].phase.Answered?
    ensures var call := run[k].appends[a];
            && call.src < |run[k].servers| && Sized(run[k].servers[call.src])
            && var s, r := run[k].servers[call.src], call.phase.reply;
               (!Enabled(run[k], HandleAppend(a)) <==>
                  r.success && r.term <= s.term && Majority(Beyond(s, call.dst), n))
  {
    RunIndices(n, run, steps, k);
    var call := run[k].appends[a];
    MedianBeyond(run[k].servers[call.src], call.dst);
  }

  lemma BeyondFew(s: Server, id: nat)
    requires Sized(s) && s.me < s.peers && id < s.peers && id != s.me && s.peers < 5
    ensures !Majority(Beyond(s, id), s.peers)
  {
    var others := Peers(s.peers) - {id, s.me};
    assert Beyond(s, id) <= others;
    SubsetSize(Beyond(s, id), others);
    assert Peers(s.peers) == others + {id, s.me};
  }

  /** A leader can handle every answer, and with fewer than five peers everyone can. */
  lemma AnswersHandled(n: nat, run: seq<Cluster>, steps: seq<Step>, k: nat, a: nat)
    requires IsRun(n, run, steps) && k <= |steps| && a < |run[k].appends| && run[k].appends[a].phase.Answered?
    requires run[k].appends[a].src < |run[k].servers|
    requires n < 5 || run[k].servers[run[k].appends[a].src].role == Leader
    ensures Enabled(run[k], HandleAppend(a))
  {
    RunIndices(n, run, steps, k);
    RunInv(n, run, steps, k);
    LeaderHandles(run[k], HistoryAt(run, steps, k), a);
  }

  lemma LeaderHandles(c: Cluster, h: History, a: nat)
    requires Inv(c, h) && IndexInv(c) && a < |c.appends| && c.appends[a].phase.Answered?
    requires |c.servers| < 5 || c.servers[c.appends[a].src].role == Leader
    ensures Enabled(c, HandleAppend(a))
  {
    var call := c.appends[a];
    var s := c.servers[call.src];
    assert AppendOk(h, call);
    MedianBeyond(s, call.dst);
    if s.role == Leader {
      assert LeaderIndices(s);
      MedianInLog(s, call.dst);
    } else {
      BeyondFew(s, call.dst);
    }
  }
}
