/** What each locked region of a Raft peer does to its state, as functions from state to state. */
module RaftServer {
  import opened Options
  import opened RaftTypes
  import opened Quorum

  /** A peer started with an empty persister. */
  function InitServer(me: nat, peers: nat): Server {
    Server(me, peers, Follower, 1, -1, [SENTINEL], 0, 0, [], [], [], None)
  }

  function Persist(s: Server): Server {
    s.(disk := Some(Image(s.term, s.voteFor, s.log)))
  }

  /** What Make builds: defaults first, and then the image, if there is one, read over the term, the vote
      and the log. */
  function Boot(me: nat, peers: nat, disk: Option<Image>): Server {
    var booted := InitServer(me, peers).(disk := disk);
    match disk
    case None => booted
    case Some(i) => booted.(term := i.term, voteFor := i.voteFor, log := i.log)
  }

  /** Crash and start again from the persister. */
  function Restart(s: Server): Server {
    Boot(s.me, s.peers, s.disk)
  }

  function BeFollower(s: Server, term: nat): Server {
    s.(term := term, role := Follower, voteFor := -1)
  }

  function BeCandidate(s: Server): Server {
    s.(term := s.term + 1, role := Candidate, voteFor := s.me)
  }

  function BeLeader(s: Server): Server {
    s.(role := Leader,
       nextIndex := seq(s.peers, _ => |s.log|),
       matchIndex := seq(s.peers, _ => 0))
  }

  /** Messages for the log entries after index `from` up to index `to`. */
  function Messages(log: Log, from: nat, to: nat): (r: seq<ApplyMsg>)
    requires from <= to < |log|
  {
    seq(to - from, k requires 0 <= k < to - from => ApplyMsg(from + 1 + k, log[from + 1 + k].command))
  }

  function UpdateLastApplied(s: Server): Server
    requires s.commitIndex < |s.log|
  {
    if s.lastApplied < s.commitIndex then
      s.(lastApplied := s.commitIndex,
         applied := s.applied + Messages(s.log, s.lastApplied, s.commitIndex))
    else s
  }

  function BuildVoteArgs(s: Server): VoteArgs {
    VoteArgs(s.term, s.me, |s.log| - 1, Last(s.log).term)
  }

  /** Section 5.4.1: a log with this last term and last index is at least as up-to-date as `log`. */
  predicate UpToDate(lastTerm: int, lastIndex: nat, log: Log) {
    lastTerm > Last(log).term || (lastTerm == Last(log).term && lastIndex >= |log| - 1)
  }

  function CatchUp(s: Server, term: nat): Server {
    if s.term < term then BeFollower(s, term) else s
  }

  function RequestVote(s: Server, a: VoteArgs): (Server, VoteReply) {
    var s1 := CatchUp(s, a.term);
    if a.term < s1.term then (s1, VoteReply(s1.term, false))
    else if s1.voteFor != -1 && s1.voteFor != a.candidate then (s1, VoteReply(s1.term, false))
    else if !UpToDate(a.lastTerm, a.lastIndex, s1.log) then (s1, VoteReply(s1.term, false))
    else (Persist(s1.(voteFor := a.candidate)), VoteReply(s1.term, true))
  }

  /** The candidate's handling of one vote reply; `count` is the counter of the election that asked. */
  function OnVoteReply(s: Server, argTerm: nat, count: nat, r: VoteReply): (Server, nat) {
    if r.term > s.term then (BeFollower(s, r.term), count)
    else if s.role != Candidate || s.term != argTerm then (s, count)
    else
      var count' := if r.granted then count + 1 else count;
      (if count' > s.peers / 2 then BeLeader(s) else s, count')
  }

  function Start(s: Server, command: Command): Server {
    if s.role == Leader then Persist(s.(log := s.log + [Entry(s.term, command)])) else s
  }

  /** Building the arguments indexes the log at nextIndex - 1 and panics outside of it. */
  predicate CanBuildAppend(s: Server, id: nat) {
    id < |s.nextIndex| && 1 <= s.nextIndex[id] <= |s.log|
  }

  function BuildAppendArgs(s: Server, id: nat): AppendArgs
    requires CanBuildAppend(s, id)
  {
    var next := s.nextIndex[id];
    AppendArgs(s.term, s.me, next - 1, s.log[next - 1].term, s.log[next..], s.commitIndex)
  }

  function Min(x: nat, y: nat): nat {
    if x < y then x else y
  }

  /** The append request passes the term check and the consistency check at prevIndex. */
  predicate Accepts(s: Server, a: AppendArgs) {
    s.term <= a.term && a.prevIndex < |s.log| && s.log[a.prevIndex].term == a.prevTerm
  }

  function AppendEntries(s: Server, a: AppendArgs): (Server, AppendReply) {
    var s1 := CatchUp(s, a.term);
    if a.term < s1.term then (s1, AppendReply(s1.term, false))
    else if a.prevIndex >= |s1.log| then (s1, AppendReply(s1.term, false))
    else if s1.log[a.prevIndex].term != a.prevTerm then (s1, AppendReply(s1.term, false))
    else
      var s2 := s1.(log := s1.log[..a.prevIndex + 1] + a.entries);
      var s3 :=
        if a.leaderCommit > s2.commitIndex then
          UpdateLastApplied(s2.(commitIndex := Min(a.leaderCommit, |s2.log| - 1)))
        else s2;
      (Persist(s3), AppendReply(s1.term, true))
  }

  /** MatchIndex after a successful reply from peer `id`. */
  function NewMatchIndex(s: Server, id: nat): seq<nat>
    requires id < |s.matchIndex| && s.me < |s.matchIndex|
  {
    s.matchIndex[id := |s.log| - 1][s.me := |s.log| - 1]
  }

  /** The reply can be handled without an index out of range. */
  predicate CanHandleAppendReply(s: Server, id: nat, r: AppendReply) {
    r.term > s.term ||
    (&& id < |s.matchIndex| && s.me < |s.matchIndex| && id < |s.nextIndex|
     && (r.success ==>
           var m := NewMatchIndex(s, id);
           Median(m) > s.commitIndex ==> Median(m) < |s.log|))
  }

  function OnAppendReply(s: Server, id: nat, r: AppendReply): Server
    requires CanHandleAppendReply(s, id, r)
  {
    if r.term > s.term then BeFollower(s, r.term)
    else if r.success then
      var m := NewMatchIndex(s, id);
      var s1 := s.(matchIndex := m, nextIndex := s.nextIndex[id := |s.log|]);
      if Median(m) > s.commitIndex && s.log[Median(m)].term == s.term then
        UpdateLastApplied(s1.(commitIndex := Median(m)))
      else s1
    else s.(nextIndex := s.nextIndex[id := s.nextIndex[id] - 1])
  }

  /** NextIndex and MatchIndex have an entry for each peer, and none points past the end of the log. */
  predicate IndicesBelow(s: Server) {
    && s.me < s.peers && |s.nextIndex| == s.peers && |s.matchIndex| == s.peers
    && (forall j :: 0 <= j < s.peers ==> s.nextIndex[j] <= |s.log| && s.matchIndex[j] < |s.log|)
  }

  /** The leader's indices are within its log, so that every message can be built. */
  predicate IndicesInLog(s: Server) {
    IndicesBelow(s) && forall j :: 0 <= j < s.peers ==> 1 <= s.nextIndex[j]
  }

  lemma MedianInLog(s: Server, id: nat)
    requires IndicesBelow(s) && id < s.peers
    ensures Median(NewMatchIndex(s, id)) < |s.log|
  {
    var m := NewMatchIndex(s, id);
    MedianIsGreatestMajorityIndex(m, |s.log|);
    assert Reached(m, |s.log|) == {};
  }
}
