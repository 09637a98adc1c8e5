/** The order of logs that decides votes, and when a vote is granted. */
module RaftVoting {
  import opened RaftTypes
  import opened RaftServer

  /** Log a is at least as up-to-date as log b. */
  predicate AtLeast(a: Log, b: Log) {
    UpToDate(Last(a).term, |a| - 1, b)
  }

  /** Any two logs can be compared. */
  lemma AtLeastTotal(a: Log, b: Log)
    ensures AtLeast(a, b) || AtLeast(b, a)
  {
  }

  lemma AtLeastTransitive(a: Log, b: Log, c: Log)
    requires AtLeast(a, b) && AtLeast(b, c)
    ensures AtLeast(a, c)
  {
  }

  /** A log with a later last term is ahead, whatever the lengths; of two logs with the same last term the longer
      one is. */
  lemma AheadExactly(a: Log, b: Log)
    ensures Last(a).term > Last(b).term ==> AtLeast(a, b) && !AtLeast(b, a)
    ensures Last(a).term == Last(b).term ==> (AtLeast(a, b) <==> |a| >= |b|)
  {
  }

  /** The peer may still vote for the candidate in the term of the request. */
  predicate FreeToVote(s: Server, a: VoteArgs) {
    s.term < a.term || (s.term == a.term && (s.voteFor == -1 || s.voteFor == a.candidate))
  }

  /** A vote is granted exactly to a candidate that the peer may still vote for and whose log is not behind; then
      it is recorded and persisted. A refusal changes nothing but the term. */
  lemma GrantedExactly(s: Server, a: VoteArgs)
    ensures RequestVote(s, a).1.granted <==>
            && FreeToVote(s, a)
            && (a.lastTerm > Last(s.log).term || (a.lastTerm == Last(s.log).term && a.lastIndex >= |s.log| - 1))
    ensures var (s', r) := RequestVote(s, a);
            && (r.granted ==> s'.voteFor == a.candidate && s'.term == a.term)
            && (r.granted ==> s'.disk.Some? && s'.disk.value == Image(a.term, a.candidate, s.log))
            && (!r.granted ==> s'.disk == s.disk && (s.term >= a.term ==> s' == s))
            && s'.log == s.log && s'.commitIndex == s.commitIndex && s'.applied == s.applied
  {
  }

  /** A request of peer s in a term t. */
  function RequestOf(s: Server, t: nat): VoteArgs {
    BuildVoteArgs(s.(term := t))
  }

  /** Of any two peers at least one would get the other's vote in a fresh term. */
  lemma OneOfTwoGrants(s: Server, s': Server, t: nat)
    requires s.term < t && s'.term < t
    ensures RequestVote(s', RequestOf(s, t)).1.granted || RequestVote(s, RequestOf(s', t)).1.granted
  {
    AtLeastTotal(s.log, s'.log);
  }

  /** Some peer would get the vote of every other peer in a fresh term. */
  lemma {:induction false} BestPeer(servers: seq<Server>) returns (i: nat)
    requires servers != []
    ensures i < |servers| && forall j :: 0 <= j < |servers| ==> AtLeast(servers[i].log, servers[j].log)
  {
    var m := |servers| - 1;
    if m == 0 {
      i := 0;
      AtLeastTotal(servers[0].log, servers[0].log);
    } else {
      i := BestPeer(servers[..m]);
      assert forall j :: 0 <= j < m ==> servers[..m][j] == servers[j];
      if !AtLeast(servers[i].log, servers[m].log) {
        AtLeastTotal(servers[i].log, servers[m].log);
        forall j | 0 <= j < m ensures AtLeast(servers[m].log, servers[j].log) {
          AtLeastTransitive(servers[m].log, servers[i].log, servers[j].log);
        }
        i := m;
        AtLeastTotal(servers[m].log, servers[m].log);
      }
    }
  }
}
