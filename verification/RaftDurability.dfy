/** One peer over any sequence of events, with crashes and restarts from its persister in between. */
module RaftDurability {
  import opened RaftTypes
  import opened RaftServer

  datatype Event =
    | TimesOut
    | GetsVoteRequest(va: VoteArgs)
    | GetsVoteReply(argTerm: nat, count: nat, vr: VoteReply)
    | GetsCommand(command: Command)
    | GetsAppendRequest(aa: AppendArgs)
    | GetsAppendReply(id: nat, ar: AppendReply)
    | Crashes

  ghost predicate Possible(s: Server, e: Event) {
    e.GetsAppendReply? ==> CanHandleAppendReply(s, e.id, e.ar)
  }

  ghost function After(s: Server, e: Event): Server
    requires Possible(s, e)
  {
    match e
    case TimesOut => BeCandidate(s)
    case GetsVoteRequest(a) => RequestVote(s, a).0
    case GetsVoteReply(argTerm, count, r) => OnVoteReply(s, argTerm, count, r).0
    case GetsCommand(command) => Start(s, command)
    case GetsAppendRequest(a) => AppendEntries(s, a).0
    case GetsAppendReply(id, r) => OnAppendReply(s, id, r)
    case Crashes => Restart(s)
  }

  /** Every event of the life of a peer, from its first start with an empty persister. */
  ghost predicate IsLife(me: nat, peers: nat, life: seq<Server>, events: seq<Event>) {
    && |life| == |events| + 1
    && life[0] == InitServer(me, peers)
    && forall k {:trigger events[k]} :: 0 <= k < |events| ==>
         Possible(life[k], events[k]) && life[k + 1] == After(life[k], events[k])
  }

  /** Event k of the life grants a vote through RequestVote. */
  ghost predicate GrantsAt(life: seq<Server>, events: seq<Event>, k: nat)
    requires |life| == |events| + 1
  {
    k < |events| && events[k].GetsVoteRequest? && RequestVote(life[k], events[k].va).1.granted
  }

  function PersistedTerm(s: Server): nat {
    match s.disk
    case None => 0
    case Some(i) => i.term
  }

  /** Between events the persister holds the log, and an image of the present term holds the present vote. */
  ghost predicate DiskOk(s: Server) {
    match s.disk
    case None => s.log == [SENTINEL] && s.term >= 1 && (s.term == 1 ==> s.voteFor == -1)
    case Some(i) => i.log == s.log && 1 <= i.term <= s.term && (i.term == s.term ==> s.voteFor == i.voteFor)
  }

  /** The persister remembers a vote for `cand` in `term`, or has moved on to a later term. */
  ghost predicate Remembers(s: Server, term: nat, cand: nat) {
    && s.disk.Some?
    && term <= s.disk.value.term
    && (term == s.disk.value.term ==> s.disk.value.voteFor == cand)
  }

  lemma StepDisk(s: Server, e: Event)
    requires Possible(s, e) && DiskOk(s)
    ensures DiskOk(After(s, e)) && PersistedTerm(s) <= PersistedTerm(After(s, e))
    ensures forall term, cand :: Remembers(s, term, cand) ==> Remembers(After(s, e), term, cand)
  {
  }

  lemma GrantRemembered(s: Server, a: VoteArgs)
    requires DiskOk(s) && RequestVote(s, a).1.granted
    ensures Remembers(RequestVote(s, a).0, a.term, a.candidate)
    ensures forall cand :: Remembers(s, a.term, cand) ==> cand == a.candidate
  {
  }

  lemma {:induction false} LifeDisk(me: nat, peers: nat, life: seq<Server>, events: seq<Event>, k: nat)
    requires IsLife(me, peers, life, events) && k <= |events|
    ensures DiskOk(life[k])
  {
    if k > 0 {
      LifeDisk(me, peers, life, events, k - 1);
      StepDisk(life[k - 1], events[k - 1]);
    }
  }

  lemma {:induction false} LifeRemembers(me: nat, peers: nat, life: seq<Server>, events: seq<Event>,
                                         k: nat, m: nat, term: nat, cand: nat)
    requires IsLife(me, peers, life, events) && k <= m <= |events| && Remembers(life[k], term, cand)
    ensures Remembers(life[m], term, cand)
    decreases m
  {
    if k < m {
      LifeRemembers(me, peers, life, events, k, m - 1, term, cand);
      LifeDisk(me, peers, life, events, m - 1);
      StepDisk(life[m - 1], events[m - 1]);
    }
  }

  /** A restart at any moment brings back exactly the log the peer had in memory. */
  lemma RestartKeepsLog(me: nat, peers: nat, life: seq<Server>, events: seq<Event>, k: nat)
    requires IsLife(me, peers, life, events) && k <= |events|
    ensures Restart(life[k]).log == life[k].log
  {
    LifeDisk(me, peers, life, events, k);
  }

  /** The persisted term never decreases, and the term in memory is never behind it. */
  lemma {:induction false} PersistedTermGrows(me: nat, peers: nat, life: seq<Server>, events: seq<Event>,
                                              k: nat, m: nat)
    requires IsLife(me, peers, life, events) && k <= m <= |events|
    ensures PersistedTerm(life[k]) <= PersistedTerm(life[m]) <= life[m].term
    decreases m
  {
    LifeDisk(me, peers, life, events, m);
    if k < m {
      PersistedTermGrows(me, peers, life, events, k, m - 1);
      LifeDisk(me, peers, life, events, m - 1);
      StepDisk(life[m - 1], events[m - 1]);
    }
  }

  /** RequestVote never grants two different candidates in one term, however often the peer crashes. */
  lemma OneGrantPerTerm(me: nat, peers: nat, life: seq<Server>, events: seq<Event>, k: nat, m: nat)
    requires IsLife(me, peers, life, events) && GrantsAt(life, events, k) && GrantsAt(life, events, m)
    requires events[k].va.term == events[m].va.term
    ensures events[k].va.candidate == events[m].va.candidate
  {
    if k > m {
      OneGrantPerTerm(me, peers, life, events, m, k);
    } else if k < m {
      var a := events[k].va;
      LifeDisk(me, peers, life, events, k);
      GrantRemembered(life[k], a);
      LifeRemembers(me, peers, life, events, k + 1, m, a.term, a.candidate);
      LifeDisk(me, peers, life, events, m);
      GrantRemembered(life[m], events[m].va);
    }
  }

  // ---- what a restart forgets ----

  /** The messages sent since the last start carry the indices 1, 2, ..., lastApplied, each once. */
  ghost predicate AppliedInOrder(s: Server) {
    |s.applied| == s.lastApplied && forall x :: 0 <= x < |s.applied| ==> s.applied[x].index == x + 1
  }

  lemma StepApplied(s: Server, e: Event)
    requires Possible(s, e) && AppliedInOrder(s)
    ensures AppliedInOrder(After(s, e))
  {
  }

  lemma {:induction false} LifeApplied(me: nat, peers: nat, life: seq<Server>, events: seq<Event>, k: nat)
    requires IsLife(me, peers, life, events) && k <= |events|
    ensures AppliedInOrder(life[k])
  {
    if k > 0 {
      LifeApplied(me, peers, life, events, k - 1);
      StepApplied(life[k - 1], events[k - 1]);
    }
  }

  /** After a crash the peer is a follower that has committed, applied and indexed nothing, whatever its log
      holds; so every entry is sent on applyCh again, from index 1 on. */
  lemma RestartForgets(me: nat, peers: nat, life: seq<Server>, events: seq<Event>, k: nat)
    requires IsLife(me, peers, life, events) && k < |events| && events[k].Crashes?
    ensures var s, s' := life[k], life[k + 1];
            && s'.role == Follower && s'.commitIndex == 0 && s'.lastApplied == 0 && s'.applied == []
            && s'.nextIndex == [] && s'.matchIndex == [] && s'.disk == s.disk && s'.log == s.log
            && s'.term <= s.term && (s.disk.None? ==> s'.term == 1 && s'.voteFor == -1)
            && (s.disk.Some? ==> s'.term == s.disk.value.term && s'.voteFor == s.disk.value.voteFor)
  {
    LifeDisk(me, peers, life, events, k);
    assert life[k + 1] == Restart(life[k]);
  }

  // ---- the votes that are not persisted ----

  /** After a crash the peer would grant its present term to a candidate it has not voted for. */
  ghost predicate ForgetsVote(s: Server) {
    exists a: VoteArgs :: a.term == s.term && a.candidate != s.voteFor && RequestVote(Restart(s), a).1.granted
  }

  lemma ForgetsExactly(s: Server)
    requires DiskOk(s) && s.voteFor != -1
    ensures ForgetsVote(s) <==> PersistedTerm(s) < s.term
  {
    if PersistedTerm(s) < s.term {
      var cand: nat := if s.voteFor == 0 then 1 else 0;
      var a := VoteArgs(s.term, cand, 0, Last(Restart(s).log).term + 1);
      assert RequestVote(Restart(s), a).1.granted;
    }
  }

  /** A candidate or leader has voted for itself. */
  lemma {:induction false} LifeMe(me: nat, peers: nat, life: seq<Server>, events: seq<Event>, k: nat)
    requires IsLife(me, peers, life, events) && k <= |events|
    ensures life[k].me == me && (life[k].role != Follower ==> life[k].voteFor == me)
  {
    if k > 0 {
      LifeMe(me, peers, life, events, k - 1);
      assert life[k] == After(life[k - 1], events[k - 1]);
    }
  }

  /** Whatever a peer has voted in its present term, for itself as candidate or leader or for another, a crash
      makes it forget that vote exactly when its term has not been persisted. */
  lemma VoteForgottenExactly(me: nat, peers: nat, life: seq<Server>, events: seq<Event>, k: nat)
    requires IsLife(me, peers, life, events) && k <= |events| && (life[k].voteFor != -1 || life[k].role != Follower)
    ensures ForgetsVote(life[k]) <==> PersistedTerm(life[k]) < life[k].term
  {
    LifeDisk(me, peers, life, events, k);
    LifeMe(me, peers, life, events, k);
    ForgetsExactly(life[k]);
  }

  /** Event k of the life votes for `cand` in `term`, by a grant or for itself on a timeout. */
  ghost predicate VotesAt(me: nat, life: seq<Server>, events: seq<Event>, k: nat, term: nat, cand: nat)
    requires |life| == |events| + 1
  {
    || (GrantsAt(life, events, k) && term == events[k].va.term && cand == events[k].va.candidate)
    || (k < |events| && events[k].TimesOut? && term == life[k].term + 1 && cand == me)
  }

  /** Event k is a crash that loses a vote: the peer has voted in a term later than the persisted one. */
  ghost predicate LosesVoteAt(me: nat, life: seq<Server>, events: seq<Event>, k: nat)
    requires |life| == |events| + 1
  {
    && k < |events| && events[k].Crashes?
    && exists j: nat, term: nat, cand: nat :: j < k && VotesAt(me, life, events, j, term, cand)
                                              && term > PersistedTerm(life[k])
  }

  /** The peer has voted for `cand` in `term`, in memory and, if the term has been persisted, on the disk; or
      it has moved on to a later term. */
  ghost predicate Voted(s: Server, term: nat, cand: nat) {
    && term <= s.term && (term == s.term ==> s.voteFor == cand)
    && (term <= PersistedTerm(s) && s.disk.Some? ==> Remembers(s, term, cand))
  }

  lemma VoteCast(s: Server, e: Event, term: nat, cand: nat)
    requires DiskOk(s)
    requires || (e.GetsVoteRequest? && RequestVote(s, e.va).1.granted && term == e.va.term && cand == e.va.candidate)
             || (e.TimesOut? && term == s.term + 1 && cand == s.me)
    ensures Voted(After(s, e), term, cand) && term > 0
  {
  }

  lemma StepVoted(s: Server, e: Event, term: nat, cand: nat)
    requires Possible(s, e) && DiskOk(s) && Voted(s, term, cand) && term > 0
    requires e.Crashes? ==> term <= PersistedTerm(s)
    ensures Voted(After(s, e), term, cand)
  {
  }

  /** A peer that has voted for `cand` in `term` votes for nobody else in it. */
  lemma VotedOnce(s: Server, e: Event, term: nat, cand: nat, other: nat)
    requires DiskOk(s) && Voted(s, term, cand)
    requires || (e.GetsVoteRequest? && RequestVote(s, e.va).1.granted && term == e.va.term && other == e.va.candidate)
             || (e.TimesOut? && term == s.term + 1 && other == s.me)
    ensures other == cand
  {
  }

  lemma NotLost(me: nat, life: seq<Server>, events: seq<Event>, k: nat, j: nat, term: nat, cand: nat)
    requires |life| == |events| + 1 && k < |events| && events[k].Crashes? && !LosesVoteAt(me, life, events, k)
    requires j < k && VotesAt(me, life, events, j, term, cand)
    ensures term <= PersistedTerm(life[k])
  {
  }

  lemma {:induction false} LifeVoted(me: nat, peers: nat, life: seq<Server>, events: seq<Event>,
                                     j: nat, m: nat, term: nat, cand: nat)
    requires IsLife(me, peers, life, events) && j < m <= |events| && VotesAt(me, life, events, j, term, cand)
    requires forall k: nat :: k < m ==> !LosesVoteAt(me, life, events, k)
    ensures Voted(life[m], term, cand) && term > 0
    decreases m
  {
    LifeDisk(me, peers, life, events, m - 1);
    if m == j + 1 {
      LifeMe(me, peers, life, events, j);
      VoteCast(life[j], events[j], term, cand);
    } else {
      LifeVoted(me, peers, life, events, j, m - 1, term, cand);
      if events[m - 1].Crashes? { NotLost(me, life, events, m - 1, j, term, cand); }
      StepVoted(life[m - 1], events[m - 1], term, cand);
    }
  }

  /** In every life in which no crash loses a vote, the peer votes for one candidate in a term, its own votes
      for itself included. */
  lemma OneVotePerTerm(me: nat, peers: nat, life: seq<Server>, events: seq<Event>, j: nat, m: nat,
                       term: nat, cand: nat, other: nat)
    requires IsLife(me, peers, life, events) && forall k: nat :: !LosesVoteAt(me, life, events, k)
    requires VotesAt(me, life, events, j, term, cand) && VotesAt(me, life, events, m, term, other)
    ensures cand == other
  {
    if j > m {
      OneVotePerTerm(me, peers, life, events, m, j, term, other, cand);
    } else if j < m {
      LifeVoted(me, peers, life, events, j, m, term, cand);
      LifeDisk(me, peers, life, events, m);
      LifeMe(me, peers, life, events, m);
      VotedOnce(life[m], events[m], term, cand, other);
    }
  }

  lemma GrantPersisted(me: nat, peers: nat, life: seq<Server>, events: seq<Event>, j: nat, k: nat, term: nat, cand: nat)
    requires IsLife(me, peers, life, events) && j < k <= |events| && VotesAt(me, life, events, j, term, cand)
    ensures life[k].disk.None? ==> term > 1
  {
    LifeDisk(me, peers, life, events, j);
    if GrantsAt(life, events, j) && term == events[j].va.term && cand == events[j].va.candidate {
      GrantRemembered(life[j], events[j].va);
      LifeRemembers(me, peers, life, events, j + 1, k, term, cand);
    }
  }

  /** A crash that loses a vote is never harmless: the restarted peer grants the same term to another candidate
      as soon as one asks. */
  lemma LostVoteIsRecast(me: nat, peers: nat, life: seq<Server>, events: seq<Event>, k: nat)
    requires IsLife(me, peers, life, events) && LosesVoteAt(me, life, events, k)
    ensures exists j: nat, a: VoteArgs, cand: nat ::
              j < k && VotesAt(me, life, events, j, a.term, cand) && a.candidate != cand
              && RequestVote(life[k + 1], a).1.granted
  {
    var j: nat, term: nat, cand: nat :| j < k && VotesAt(me, life, events, j, term, cand)
                                        && term > PersistedTerm(life[k]);
    GrantPersisted(me, peers, life, events, j, k, term, cand);
    LifeDisk(me, peers, life, events, k);
    assert life[k + 1] == Restart(life[k]);
    var other: nat := if cand == 0 then 1 else 0;
    var a := VoteArgs(term, other, 0, Last(life[k + 1].log).term + 1);
    assert RequestVote(life[k + 1], a).1.granted;
    assert VotesAt(me, life, events, j, a.term, cand);
  }

  /** A peer's vote for itself is not persisted: after a timeout and a crash it can grant the same term to
      another candidate. Election safety therefore does not survive crashes. */
  lemma SelfVoteForgotten() returns (life: seq<Server>, events: seq<Event>)
    ensures IsLife(0, 3, life, events) && |events| == 3
    ensures life[1].role == Candidate && life[1].term == 2 && life[1].voteFor == 0
    ensures GrantsAt(life, events, 2) && events[2].va.term == 2 && events[2].va.candidate == 1
  {
    var s0 := InitServer(0, 3);
    var s1 := BeCandidate(s0);
    var s2 := Restart(s1);
    var a := VoteArgs(2, 1, 0, -1);
    life, events := [s0, s1, s2, RequestVote(s2, a).0], [TimesOut, Crashes, GetsVoteRequest(a)];
  }
}
