/** What a run leaves behind: who led each term, with which votes and which log, and every vote granted.
    The history is a function of the run; no step reads it. */
module RaftHistory {
  import opened RaftTypes
  import opened RaftServer
  import opened RaftCluster
  import opened Quorum

  /** The leadership of one term. `log` is the leader's log in that term, as far as it got. */
  datatype Reign = Reign(leader: nat, voters: set<nat>, atElection: Log, log: Log)

  /** A vote of one peer in one term, with the voter's log when it first voted. */
  datatype Vote = Vote(cand: nat, log: Log)

  /** A peer in a term. */
  datatype Slot = Slot(term: int, peer: nat)

  datatype History = History(reigns: map<int, Reign>, votes: map<Slot, Vote>)

  /** The peers whose granted vote an election has counted. */
  ghost function Granters(e: Election): (r: set<nat>)
    ensures r <= Peers(|e.calls|)
  {
    set j: nat | j < |e.calls| && e.calls[j] == Handled(true)
  }

  ghost function AddVote(h: History, term: nat, voter: nat, vote: Vote): History {
    if Slot(term, voter) in h.votes then h else h.(votes := h.votes[Slot(term, voter) := vote])
  }

  /** The history after a step from cluster c. */
  ghost function Record(c: Cluster, h: History, step: Step): History
    requires Enabled(c, step)
  {
    match step
    case Timeout(i) =>
      AddVote(h, c.servers[i].term + 1, i, Vote(i, c.servers[i].log))
    case DeliverVote(e, j) =>
      var a := c.elections[e].args;
      if RequestVote(c.servers[j], a).1.granted then
        AddVote(h, a.term, j, Vote(a.candidate, c.servers[j].log))
      else h
    case HandleVote(e, j) =>
      var c' := Apply(c, step);
      var i := c.elections[e].cand;
      if c'.servers[i].role == Leader && c.servers[i].role != Leader then
        var s := c.servers[i];
        h.(reigns := h.reigns[s.term := Reign(i, Granters(c'.elections[e]) + {i}, s.log, s.log)])
      else h
    case ClientStart(i, _) =>
      var s := c.servers[i];
      if s.role == Leader && s.term in h.reigns then
        h.(reigns := h.reigns[s.term := h.reigns[s.term].(log := Apply(c, step).servers[i].log)])
      else h
    case _ => h
  }

  ghost function HistoryAt(run: seq<Cluster>, steps: seq<Step>, k: nat): History
    requires AllEnabled(run, steps) && k <= |steps|
  {
    if k == 0 then History(map[], map[])
    else Record(run[k - 1], HistoryAt(run, steps, k - 1), steps[k - 1])
  }

  /** Later histories keep every vote and every leadership and only lengthen the leaders' logs. */
  ghost predicate Extends(h: History, h': History) {
    && (forall t :: t in h.reigns ==>
          && t in h'.reigns
          && h'.reigns[t].leader == h.reigns[t].leader
          && h'.reigns[t].voters == h.reigns[t].voters
          && h'.reigns[t].atElection == h.reigns[t].atElection
          && h.reigns[t].log <= h'.reigns[t].log)
    && (forall x :: x in h.votes ==> x in h'.votes && h'.votes[x] == h.votes[x])
  }

  /** Entry k of a log came from the leader of its term, together with everything before it. */
  ghost predicate EntryOk(h: History, l: Log, k: nat)
    requires k < |l|
  {
    var t := l[k].term;
    t in h.reigns && k < |h.reigns[t].log| && l[..k + 1] == h.reigns[t].log[..k + 1]
  }

  ghost predicate LogOk(h: History, l: Log) {
    l[0] == SENTINEL && forall k :: 1 <= k < |l| ==> EntryOk(h, l, k)
  }

  predicate TermsAtMost(l: seq<Entry>, t: int) {
    forall k :: 0 <= k < |l| ==> l[k].term <= t
  }

  predicate TermsAscend(l: seq<Entry>) {
    forall a, b :: 0 <= a < b < |l| ==> l[a].term <= l[b].term
  }

  ghost predicate ServerOk(h: History, s: Server, i: nat) {
    && s.term >= 1
    && LogOk(h, s.log)
    && TermsAtMost(s.log, s.term)
    && (s.role == Leader ==>
          s.term in h.reigns && h.reigns[s.term].leader == i && h.reigns[s.term].log == s.log)
    && (forall u :: Slot(u, i) in h.votes ==> u <= s.term)
    && (s.voteFor != -1 <==> Slot(s.term, i) in h.votes)
    && (s.voteFor != -1 ==> h.votes[Slot(s.term, i)].cand == s.voteFor)
    && (s.role == Candidate ==> s.voteFor == i)
    && (s.voteFor != -1 && s.term !in h.reigns ==> h.votes[Slot(s.term, i)].log == s.log)
  }

  ghost predicate ReignOk(h: History, t: int, r: Reign, servers: seq<Server>) {
    && r.leader < |servers|
    && servers[r.leader].term >= t
    && (servers[r.leader].term == t ==> servers[r.leader].role == Leader)
    && Majority(r.voters, |servers|)
    && (forall v :: v in r.voters ==> Slot(t, v) in h.votes && h.votes[Slot(t, v)].cand == r.leader)
    && LogOk(h, r.log)
    && r.atElection <= r.log
    && TermsAtMost(r.atElection, t - 1)
    && TermsAtMost(r.log, t)
    && TermsAscend(r.log)
    && (forall k :: |r.atElection| <= k < |r.log| ==> r.log[k].term == t)
  }

  ghost predicate VoteOk(h: History, x: Slot, n: nat)
    requires x in h.votes
  {
    x.peer < n && LogOk(h, h.votes[x].log)
  }

  /** Peer j granted its vote in this election, to a candidate no less up-to-date than itself. */
  ghost predicate Granted(h: History, e: Election, j: nat) {
    && Slot(e.args.term, j) in h.votes
    && h.votes[Slot(e.args.term, j)].cand == e.cand
    && (e.args.term !in h.reigns ==>
          UpToDate(e.args.lastTerm, e.args.lastIndex, h.votes[Slot(e.args.term, j)].log))
  }

  predicate SaysYes(call: VoteCall) {
    call == Handled(true) || (call.Replied? && call.reply.granted)
  }

  ghost predicate ElectionOk(h: History, e: Election, cand: Server) {
    && e.args.candidate == e.cand < |e.calls|
    && e.args.term <= cand.term
    && e.calls[e.cand] == Handled(false)
    && e.count == 1 + |Granters(e)|
    && (forall j: nat :: j < |e.calls| && SaysYes(e.calls[j]) ==> Granted(h, e, j))
    && (cand.role == Candidate && cand.term == e.args.term && e.args.term !in h.reigns ==>
          e.args.lastIndex == |cand.log| - 1 && e.args.lastTerm == Last(cand.log).term)
  }

  ghost predicate AppendOk(h: History, a: AppendCall) {
    && a.src != a.dst
    && a.args.term in h.reigns
    && var r := h.reigns[a.args.term];
    && r.leader == a.src
    && r.atElection <= a.sent <= r.log
    && a.args.prevIndex < |a.sent|
    && a.args.prevTerm == a.sent[a.args.prevIndex].term
    && a.args.entries == a.sent[a.args.prevIndex + 1..]
  }

  ghost predicate ServersOk(c: Cluster, h: History) {
    forall i: nat :: i < |c.servers| ==> ServerOk(h, c.servers[i], i)
  }

  ghost predicate ReignsOk(c: Cluster, h: History) {
    forall t :: t in h.reigns ==> ReignOk(h, t, h.reigns[t], c.servers)
  }

  ghost predicate VotesOk(c: Cluster, h: History) {
    forall x :: x in h.votes ==> VoteOk(h, x, |c.servers|)
  }

  ghost predicate ElectionsOk(c: Cluster, h: History)
    requires WellFormed(c)
  {
    forall e :: 0 <= e < |c.elections| ==> ElectionOk(h, c.elections[e], c.servers[c.elections[e].cand])
  }

  ghost predicate AppendsOk(c: Cluster, h: History) {
    forall k :: 0 <= k < |c.appends| ==> AppendOk(h, c.appends[k])
  }

  /** The invariant of every run, whatever the network does. */
  ghost predicate Inv(c: Cluster, h: History) {
    && WellFormed(c)
    && ServersOk(c, h)
    && ReignsOk(c, h)
    && VotesOk(c, h)
    && ElectionsOk(c, h)
    && AppendsOk(c, h)
  }
}
