/** Replication and commitment: which prefix of each leader's log each peer has stored, and what was committed.
    In honest runs the two places where the handlers depart from Figure 2 of the Raft paper (the tail overwrite
    and the match index taken at reply time) do no harm; timely calls are one way to get there. */
module RaftProgress {
  import opened RaftTypes
  import opened RaftServer
  import opened RaftCluster
  import opened RaftHistory
  import opened Quorum

  /** The end of the log that an append request describes. */
  function Reach(a: AppendArgs): nat {
    a.prevIndex + 1 + |a.entries|
  }

  /** An accepted append does not end before a log that already holds entries of the same leader. */
  predicate TimelyRequest(s: Server, a: AppendArgs) {
    Accepts(s, a) && Last(s.log).term == a.term ==> |s.log| <= Reach(a)
  }

  /** A success is handled while its sender still leads the term it sent in, with the log it sent. */
  predicate TimelyReply(s: Server, a: AppendArgs, r: AppendReply) {
    r.term <= s.term && r.success ==>
      s.role == Leader && s.term == a.term && |s.log| == Reach(a)
  }

  ghost predicate Timely(c: Cluster, step: Step)
    requires Enabled(c, step)
  {
    match step
    case DeliverAppend(k) => TimelyRequest(c.servers[c.appends[k].dst], c.appends[k].args)
    case HandleAppend(k) =>
      TimelyReply(c.servers[c.appends[k].src], c.appends[k].args, c.appends[k].phase.reply)
    case _ => true
  }

  ghost predicate IsTimelyRun(n: nat, run: seq<Cluster>, steps: seq<Step>) {
    IsRun(n, run, steps) && forall k {:trigger steps[k]} :: 0 <= k < |steps| ==> Timely(run[k], steps[k])
  }

  /** An index of the log of the leader of a term. */
  datatype Mark = Mark(term: int, index: nat)

  /** `acked[Slot(t, f)]` is how much of the log of leader t peer f has stored, `wrote[f]` the last term whose
      leader wrote the log of f (0 for none), and `commits` the indices committed by the leader of a term. */
  datatype Progress = Progress(acked: map<Slot, nat>, wrote: seq<int>, commits: set<Mark>)

  ghost function Ack(p: Progress, t: int, f: nat): nat {
    if Slot(t, f) in p.acked then p.acked[Slot(t, f)] else 0
  }

  ghost function Write(p: Progress, t: int, f: nat, len: nat): Progress {
    if f < |p.wrote| then p.(acked := p.acked[Slot(t, f) := len], wrote := p.wrote[f := t]) else p
  }

  ghost function Advance(c: Cluster, p: Progress, step: Step): Progress
    requires Enabled(c, step)
  {
    match step
    case HandleVote(e, _) =>
      var i := c.elections[e].cand;
      var s := c.servers[i];
      if Apply(c, step).servers[i].role == Leader && s.role != Leader then Write(p, s.term, i, |s.log|) else p
    case ClientStart(i, _) =>
      var s := c.servers[i];
      if s.role == Leader then Write(p, s.term, i, |s.log| + 1) else p
    case DeliverAppend(k) =>
      var a := c.appends[k];
      if Accepts(c.servers[a.dst], a.args) then Write(p, a.args.term, a.dst, |a.sent|) else p
    case HandleAppend(k) =>
      var i := c.appends[k].src;
      var s, s' := c.servers[i], Apply(c, step).servers[i];
      if s'.commitIndex != s.commitIndex then p.(commits := p.commits + {Mark(s.term, s'.commitIndex)}) else p
    case _ => p
  }

  ghost function ProgressAt(n: nat, run: seq<Cluster>, steps: seq<Step>, k: nat): Progress
    requires AllEnabled(run, steps) && k <= |steps|
  {
    if k == 0 then Progress(map[], seq(n, _ => 0), {})
    else Advance(run[k - 1], ProgressAt(n, run, steps, k - 1), steps[k - 1])
  }

  /** The quantities that commit safety rests on. An accepted append takes back nothing that the follower has
      stored of its leader's log. A success that a leader handles credits the follower with no entry that it
      has not stored. Out of office a success commits nothing. */
  ghost predicate Honest(c: Cluster, p: Progress, step: Step)
    requires Enabled(c, step)
  {
    match step
    case DeliverAppend(k) =>
      var a := c.appends[k];
      Accepts(c.servers[a.dst], a.args) ==> |a.sent| >= Ack(p, a.args.term, a.dst)
    case HandleAppend(k) =>
      var a := c.appends[k];
      HonestReply(p, c.servers[a.src], a.dst, a.phase.reply)
    case _ => true
  }

  ghost predicate HonestReply(p: Progress, s: Server, id: nat, r: AppendReply)
    requires CanHandleAppendReply(s, id, r)
  {
    r.term <= s.term && r.success ==>
      if s.role == Leader then |s.log| > 1 ==> |s.log| <= Ack(p, s.term, id)
      else OnAppendReply(s, id, r).commitIndex == s.commitIndex
  }

  ghost predicate HonestAt(n: nat, run: seq<Cluster>, steps: seq<Step>, k: nat)
    requires AllEnabled(run, steps) && k < |steps|
  {
    Honest(run[k], ProgressAt(n, run, steps, k), steps[k])
  }

  ghost predicate IsHonestRun(n: nat, run: seq<Cluster>, steps: seq<Step>) {
    && IsRun(n, run, steps)
    && forall k: nat {:trigger HonestAt(n, run, steps, k)} :: k < |steps| ==> HonestAt(n, run, steps, k)
  }

  ghost predicate WroteOk(h: History, p: Progress, s: Server, f: nat) {
    && f < |p.wrote|
    && 0 <= p.wrote[f] <= s.term
    && (p.wrote[f] == 0 ==> s.log == [SENTINEL])
    && (p.wrote[f] > 0 ==>
          && p.wrote[f] in h.reigns
          && h.reigns[p.wrote[f]].atElection <= s.log <= h.reigns[p.wrote[f]].log
          && Ack(p, p.wrote[f], f) == |s.log|)
    && (forall t :: Slot(t, f) in p.acked ==> t <= p.wrote[f])
    && (s.role == Leader ==>
          && p.wrote[f] == s.term
          && |s.matchIndex| == s.peers
          && forall g: nat :: g < s.peers && s.matchIndex[g] > 0 ==> s.matchIndex[g] < Ack(p, s.term, g))
  }

  ghost predicate AckOk(h: History, p: Progress, x: Slot, n: nat)
    requires x in p.acked
  {
    x.term > 0 && x.term in h.reigns && x.peer < n && 0 < p.acked[x] <= |h.reigns[x.term].log|
  }

  ghost predicate AnswerOk(p: Progress, a: AppendCall) {
    a.phase.Answered? && a.phase.reply.success ==> Ack(p, a.args.term, a.dst) >= |a.sent|
  }

  /** The peers that have stored, or may still store, index k of the log of leader t. */
  ghost function Able(servers: seq<Server>, p: Progress, t: int, k: nat): (r: set<nat>)
    ensures r <= Peers(|servers|)
  {
    set f: nat | f < |servers| && (Ack(p, t, f) > k || servers[f].term <= t)
  }

  /** The peers that have stored index k of the log of leader t. */
  ghost function Stored(n: nat, p: Progress, t: int, k: nat): (r: set<nat>)
    ensures r <= Peers(n)
  {
    set f: nat | f < n && Ack(p, t, f) > k
  }

  /** Index k is an entry of leader t's own term. */
  ghost predicate OwnEntry(h: History, t: int, k: nat) {
    t in h.reigns && k < |h.reigns[t].log| && h.reigns[t].log[k].term == t
  }

  /** Leader t has committed, or may still commit, index k. */
  ghost predicate Settled(c: Cluster, h: History, p: Progress, t: int, k: nat) {
    OwnEntry(h, t, k) && Majority(Able(c.servers, p, t, k), |c.servers|)
  }

  /** The log of leader t up to and including index k. */
  ghost function UpTo(h: History, t: int, k: nat): seq<Entry>
    requires t in h.reigns && k < |h.reigns[t].log|
  {
    h.reigns[t].log[..k + 1]
  }

  /** Whatever leader t may commit is in the log of every later leader when it is elected. */
  ghost predicate LeadersComplete(c: Cluster, h: History, p: Progress) {
    forall t, u, k: nat :: u in h.reigns && t < u && Settled(c, h, p, t, k) ==>
      UpTo(h, t, k) <= h.reigns[u].atElection
  }

  /** Whatever leader t may commit and a voter has stored is in the log it votes with in a later term. */
  ghost predicate VotesComplete(c: Cluster, h: History, p: Progress) {
    forall x, t, k: nat :: x in h.votes && t < x.term && k < Ack(p, t, x.peer) && Settled(c, h, p, t, k) ==>
      UpTo(h, t, k) <= h.votes[x].log
  }

  ghost predicate CommitOk(h: History, p: Progress, t: int, k: nat, n: nat) {
    OwnEntry(h, t, k) && Majority(Stored(n, p, t, k), n)
  }

  /** The log up to `index` is part of what the leader of a term no later than w has committed. */
  ghost predicate Backed(h: History, p: Progress, l: Log, index: nat, w: int) {
    && index < |l|
    && (index > 0 ==>
          exists x :: x in p.commits && BackedBy(h, l, index, w, x))
  }

  ghost predicate BackedBy(h: History, l: Log, index: nat, w: int, x: Mark)
    requires index < |l|
  {
    && x.term <= w && index <= x.index && x.term in h.reigns
    && x.index < |h.reigns[x.term].log|
    && l[..index + 1] == h.reigns[x.term].log[..index + 1]
  }

  ghost predicate AppliedOk(h: History, p: Progress, s: Server, f: nat) {
    && f < |p.wrote|
    && Backed(h, p, s.log, s.commitIndex, p.wrote[f])
    && s.lastApplied == s.commitIndex
    && s.applied == Messages(s.log, 0, s.commitIndex)
  }

  ghost predicate WritesOk(c: Cluster, h: History, p: Progress) {
    && |p.wrote| == |c.servers|
    && (forall f: nat :: f < |c.servers| ==> WroteOk(h, p, c.servers[f], f))
    && (forall x :: x in p.acked ==> AckOk(h, p, x, |c.servers|))
    && (forall k :: 0 <= k < |c.appends| ==> AnswerOk(p, c.appends[k]))
  }

  ghost predicate CommitsOk(c: Cluster, h: History, p: Progress) {
    && (forall x :: x in p.commits ==> CommitOk(h, p, x.term, x.index, |c.servers|))
    && (forall f: nat :: f < |c.servers| ==> AppliedOk(h, p, c.servers[f], f))
    && (forall k :: 0 <= k < |c.appends| ==>
          Backed(h, p, c.appends[k].sent, c.appends[k].args.leaderCommit, c.appends[k].args.term))
  }

  ghost predicate HonestInv(c: Cluster, h: History, p: Progress) {
    && WritesOk(c, h, p)
    && LeadersComplete(c, h, p)
    && VotesComplete(c, h, p)
    && CommitsOk(c, h, p)
  }
}
