/** Which runs are honest: what honesty says of the state, step by step, and that timely calls are enough. */
module RaftHonest {
  import opened RaftTypes
  import opened RaftServer
  import opened RaftCluster
  import opened RaftHistory
  import opened RaftInvariant
  import opened RaftProgress
  import opened RaftCommit

  // ---- honest steps, by what they do to the state ----

  /** No entry of MatchIndex claims more than its peer has stored of this leader's log. */
  ghost predicate Credits(p: Progress, s: Server) {
    s.role == Leader ==>
      forall g: nat :: g < |s.matchIndex| && s.matchIndex[g] > 0 ==> s.matchIndex[g] < Ack(p, s.term, g)
  }

  /** Nothing that a peer has stored is taken back, every leader's MatchIndex is true, and whoever commits on a
      reply is a leader. */
  ghost predicate Truthful(c: Cluster, p: Progress, step: Step)
    requires Enabled(c, step)
  {
    var c', p' := Apply(c, step), Advance(c, p, step);
    && (forall t, f :: Ack(p', t, f) >= Ack(p, t, f))
    && (forall i: nat :: i < |c'.servers| ==> Credits(p', c'.servers[i]))
    && (step.HandleAppend? ==>
          var i := c.appends[step.k].src;
          i < |c'.servers| &&
          (c'.servers[i].commitIndex == c.servers[i].commitIndex || c.servers[i].role == Leader))
  }

  lemma AllCredits(c: Cluster, h: History, p: Progress)
    requires HonestInv(c, h, p) && Inv(c, h)
    ensures forall i: nat :: i < |c.servers| ==> Credits(p, c.servers[i])
  {
    forall i: nat | i < |c.servers| ensures Credits(p, c.servers[i]) {
      assert WroteOk(h, p, c.servers[i], i);
    }
  }

  lemma DeliverStored(c: Cluster, p: Progress, k: nat)
    requires Enabled(c, DeliverAppend(k)) && |p.wrote| == |c.servers|
    ensures (forall t, f :: Ack(Advance(c, p, DeliverAppend(k)), t, f) >= Ack(p, t, f)) <==>
            Honest(c, p, DeliverAppend(k))
  {
    var a, p' := c.appends[k], Advance(c, p, DeliverAppend(k));
    if Accepts(c.servers[a.dst], a.args) {
      assert forall t, f :: Ack(p', t, f) == if t == a.args.term && f == a.dst then |a.sent| else Ack(p, t, f);
    }
  }

  lemma DeliverTruthful(c: Cluster, h: History, p: Progress, k: nat)
    requires Inv(c, h) && HonestInv(c, h, p) && Enabled(c, DeliverAppend(k))
    ensures Honest(c, p, DeliverAppend(k)) <==> Truthful(c, p, DeliverAppend(k))
  {
    DeliverStored(c, p, k);
    if Honest(c, p, DeliverAppend(k)) {
      StepHonest(c, h, p, DeliverAppend(k));
      StepInv(c, h, DeliverAppend(k));
      AllCredits(Apply(c, DeliverAppend(k)), h, Advance(c, p, DeliverAppend(k)));
    }
  }

  lemma ReplyCredits(p: Progress, s: Server, id: nat, r: AppendReply)
    requires CanHandleAppendReply(s, id, r) && s.me != id && Credits(p, OnAppendReply(s, id, r))
    requires OnAppendReply(s, id, r).commitIndex == s.commitIndex || s.role == Leader
    ensures HonestReply(p, s, id, r)
  {
    if r.term <= s.term && r.success && s.role == Leader {
      OnSuccess(s, id, r);
      assert OnAppendReply(s, id, r).matchIndex[id] == |s.log| - 1;
    }
  }

  /** What handling a reply does to the sender and to the progress. */
  lemma HandleShape(c: Cluster, p: Progress, k: nat)
    requires Enabled(c, HandleAppend(k))
    ensures var a, c' := c.appends[k], Apply(c, HandleAppend(k));
            && a.src < |c'.servers| && c'.servers[a.src] == OnAppendReply(c.servers[a.src], a.dst, a.phase.reply)
    ensures forall t, f :: Ack(Advance(c, p, HandleAppend(k)), t, f) == Ack(p, t, f)
  {
    var p' := Advance(c, p, HandleAppend(k));
    assert p'.acked == p.acked;
  }

  lemma HandleInOffice(p: Progress, s: Server, id: nat, r: AppendReply)
    requires CanHandleAppendReply(s, id, r) && HonestReply(p, s, id, r)
    ensures OnAppendReply(s, id, r).commitIndex == s.commitIndex || s.role == Leader
  {
  }

  lemma HonestHandleIsTruthful(c: Cluster, h: History, p: Progress, k: nat)
    requires Inv(c, h) && HonestInv(c, h, p) && Enabled(c, HandleAppend(k)) && Honest(c, p, HandleAppend(k))
    ensures Truthful(c, p, HandleAppend(k))
  {
    var a := c.appends[k];
    StepHonest(c, h, p, HandleAppend(k));
    StepInv(c, h, HandleAppend(k));
    AllCredits(Apply(c, HandleAppend(k)), h, Advance(c, p, HandleAppend(k)));
    HandleShape(c, p, k);
    HandleInOffice(p, c.servers[a.src], a.dst, a.phase.reply);
  }

  lemma CreditsSame(p: Progress, p': Progress, s: Server)
    requires Credits(p', s) && forall t, f :: Ack(p', t, f) == Ack(p, t, f)
    ensures Credits(p, s)
  {
  }

  lemma TruthfulHandleIsHonest(c: Cluster, h: History, p: Progress, k: nat)
    requires Inv(c, h) && Enabled(c, HandleAppend(k)) && Truthful(c, p, HandleAppend(k))
    ensures Honest(c, p, HandleAppend(k))
  {
    var a := c.appends[k];
    assert AppendOk(h, a);
    HandleShape(c, p, k);
    CreditsSame(p, Advance(c, p, HandleAppend(k)), Apply(c, HandleAppend(k)).servers[a.src]);
    ReplyCredits(p, c.servers[a.src], a.dst, a.phase.reply);
  }

  /** In a run that was honest so far, a delivery or a handled reply is honest exactly when it takes back nothing
      that is stored, leaves every leader's MatchIndex true and lets nobody commit out of office. */
  lemma HonestExactly(n: nat, run: seq<Cluster>, steps: seq<Step>, step: Step)
    requires IsHonestRun(n, run, steps) && Enabled(run[|steps|], step) && (step.DeliverAppend? || step.HandleAppend?)
    ensures var c, p := run[|steps|], ProgressAt(n, run, steps, |steps|);
            Honest(c, p, step) <==> Truthful(c, p, step)
  {
    RunInv(n, run, steps, |steps|);
    RunHonest(n, run, steps, |steps|);
    var c, h, p := run[|steps|], HistoryAt(run, steps, |steps|), ProgressAt(n, run, steps, |steps|);
    if step.DeliverAppend? {
      DeliverTruthful(c, h, p, step.k);
    } else if Honest(c, p, step) {
      HonestHandleIsTruthful(c, h, p, step.k);
    } else if Truthful(c, p, step) {
      TruthfulHandleIsHonest(c, h, p, step.k);
    }
  }

  // ---- timely calls are honest ----

  lemma StoredByPeer(h: History, p: Progress, s: Server, f: nat, call: AppendCall, servers: seq<Server>)
    requires WroteOk(h, p, s, f) && AppendOk(h, call) && Accepts(s, call.args) && s.term >= 1
    requires ReignOk(h, call.args.term, h.reigns[call.args.term], servers) && Last(s.log).term <= p.wrote[f]
    ensures TimelyRequest(s, call.args) <==> |call.sent| >= Ack(p, call.args.term, f)
  {
    var t := call.args.term;
    assert Reach(call.args) == |call.sent|;
    if p.wrote[f] == t && |s.log| > |h.reigns[t].atElection| {
      assert Last(s.log) == h.reigns[t].log[|s.log| - 1];
    }
  }

  lemma StoredExactly(c: Cluster, h: History, p: Progress, k: nat)
    requires Inv(c, h) && HonestInv(c, h, p) && k < |c.appends|
    requires Accepts(c.servers[c.appends[k].dst], c.appends[k].args)
    ensures var call := c.appends[k];
            TimelyRequest(c.servers[call.dst], call.args) <==> |call.sent| >= Ack(p, call.args.term, call.dst)
  {
    var call := c.appends[k];
    assert AppendOk(h, call) && WroteOk(h, p, c.servers[call.dst], call.dst);
    assert ServerOk(h, c.servers[call.dst], call.dst);
    LastTermWritten(h, p, c.servers[call.dst], call.dst, c.servers);
    StoredByPeer(h, p, c.servers[call.dst], call.dst, call, c.servers);
  }

  /** The last leader that wrote a log is not behind the log's last entry. */
  lemma LastTermWritten(h: History, p: Progress, s: Server, f: nat, servers: seq<Server>)
    requires WroteOk(h, p, s, f) && forall t :: t in h.reigns ==> ReignOk(h, t, h.reigns[t], servers)
    ensures Last(s.log).term <= p.wrote[f]
  {
    if p.wrote[f] > 0 {
      assert ReignOk(h, p.wrote[f], h.reigns[p.wrote[f]], servers);
      assert s.log[|s.log| - 1] == h.reigns[p.wrote[f]].log[|s.log| - 1];
    }
  }

  lemma TimelyReplyHonest(c: Cluster, h: History, p: Progress, k: nat)
    requires Inv(c, h) && HonestInv(c, h, p) && Enabled(c, HandleAppend(k)) && Timely(c, HandleAppend(k))
    ensures Honest(c, p, HandleAppend(k))
  {
    var a := c.appends[k];
    assert AppendOk(h, a) && AnswerOk(p, a);
    assert Reach(a.args) == |a.sent|;
  }

  lemma TimelyIsHonest(c: Cluster, h: History, p: Progress, step: Step)
    requires Inv(c, h) && HonestInv(c, h, p) && Enabled(c, step) && Timely(c, step)
    ensures Honest(c, p, step)
  {
    match step
    case DeliverAppend(k) =>
      if Accepts(c.servers[c.appends[k].dst], c.appends[k].args) { StoredExactly(c, h, p, k); }
    case HandleAppend(k) => TimelyReplyHonest(c, h, p, k);
    case _ =>
  }

  lemma {:induction false} TimelyRunInv(n: nat, run: seq<Cluster>, steps: seq<Step>, k: nat)
    requires IsTimelyRun(n, run, steps) && k <= |steps|
    ensures HonestInv(run[k], HistoryAt(run, steps, k), ProgressAt(n, run, steps, k))
  {
    if k == 0 {
      InitHonest(n);
    } else {
      TimelyRunInv(n, run, steps, k - 1);
      RunInv(n, run, steps, k - 1);
      var c, h, p := run[k - 1], HistoryAt(run, steps, k - 1), ProgressAt(n, run, steps, k - 1);
      TimelyIsHonest(c, h, p, steps[k - 1]);
      StepHonest(c, h, p, steps[k - 1]);
    }
  }

  /** Every timely run is honest. */
  lemma TimelyRunsAreHonest(n: nat, run: seq<Cluster>, steps: seq<Step>)
    requires IsTimelyRun(n, run, steps)
    ensures IsHonestRun(n, run, steps)
  {
    forall k: nat | k < |steps| ensures HonestAt(n, run, steps, k) {
      TimelyRunInv(n, run, steps, k);
      RunInv(n, run, steps, k);
      TimelyIsHonest(run[k], HistoryAt(run, steps, k), ProgressAt(n, run, steps, k), steps[k]);
    }
  }

  /** In a run that was honest so far, an accepted append is timely exactly when it is honest. */
  lemma TimelyRequestExactly(n: nat, run: seq<Cluster>, steps: seq<Step>, k: nat)
    requires IsHonestRun(n, run, steps) && Enabled(run[|steps|], DeliverAppend(k))
    ensures Timely(run[|steps|], DeliverAppend(k)) <==>
            Honest(run[|steps|], ProgressAt(n, run, steps, |steps|), DeliverAppend(k))
  {
    RunInv(n, run, steps, |steps|);
    RunHonest(n, run, steps, |steps|);
    var c := run[|steps|];
    if Accepts(c.servers[c.appends[k].dst], c.appends[k].args) {
      StoredExactly(c, HistoryAt(run, steps, |steps|), ProgressAt(n, run, steps, |steps|), k);
    }
  }
}
