/** Honest runs keep the invariant of RaftProgress. */
module RaftCommit {
  import opened RaftTypes
  import opened RaftServer
  import opened RaftCluster
  import opened RaftHistory
  import opened RaftInvariant
  import opened RaftProgress
  import opened Quorum

  /** From one state to the next: terms grow, stored prefixes grow, and only at peers whose term allows it. */
  ghost predicate Grows(c: Cluster, p: Progress, c': Cluster, p': Progress) {
    && |c'.servers| == |c.servers|
    && (forall f: nat :: f < |c.servers| ==> c.servers[f].term <= c'.servers[f].term)
    && (forall t, f :: Ack(p', t, f) >= Ack(p, t, f))
    && (forall t, f: nat :: f < |c.servers| && Ack(p', t, f) > Ack(p, t, f) ==> c.servers[f].term <= t)
  }

  /** Nothing becomes settled that was not settled before, except new entries. */
  lemma SettledBefore(c: Cluster, h: History, p: Progress, c': Cluster, h': History, p': Progress, t: int, k: nat)
    requires Grows(c, p, c', p') && Extends(h, h')
    requires Settled(c', h', p', t, k) && t in h.reigns && k < |h.reigns[t].log|
    ensures Settled(c, h, p, t, k) && UpTo(h', t, k) == UpTo(h, t, k)
  {
    var a, b := Able(c'.servers, p', t, k), Able(c.servers, p, t, k);
    assert a <= b;
    MajorityMono(a, b, |c.servers|);
    assert h'.reigns[t].log[k] == h.reigns[t].log[k];
  }

  /** A peer that has stored a settled prefix still has it. */
  lemma SettledHeld(c: Cluster, h: History, p: Progress, f: nat, t: int, k: nat)
    requires WritesOk(c, h, p) && LeadersComplete(c, h, p) && f < |c.servers|
    requires Settled(c, h, p, t, k) && k < Ack(p, t, f)
    ensures UpTo(h, t, k) <= c.servers[f].log
  {
    assert WroteOk(h, p, c.servers[f], f);
    assert Slot(t, f) in p.acked && AckOk(h, p, Slot(t, f), |c.servers|);
  }

  lemma CommittedIsSettled(c: Cluster, h: History, p: Progress, t: int, k: nat)
    requires CommitOk(h, p, t, k, |c.servers|)
    ensures Settled(c, h, p, t, k)
  {
    MajorityMono(Stored(|c.servers|, p, t, k), Able(c.servers, p, t, k), |c.servers|);
  }

  lemma BackedExtends(h: History, p: Progress, h': History, p': Progress, l: Log, index: nat, w: int, w': int)
    requires Backed(h, p, l, index, w) && Extends(h, h') && p.commits <= p'.commits && w <= w'
    ensures Backed(h', p', l, index, w')
  {
    if index > 0 {
      var x :| x in p.commits && BackedBy(h, l, index, w, x);
      assert BackedBy(h', l, index, w', x);
    }
  }

  lemma CommitOkExtends(h: History, p: Progress, h': History, p': Progress, t: int, k: nat, n: nat)
    requires CommitOk(h, p, t, k, n) && Extends(h, h')
    requires forall t, f :: Ack(p', t, f) >= Ack(p, t, f)
    ensures CommitOk(h', p', t, k, n)
  {
    MajorityMono(Stored(n, p, t, k), Stored(n, p', t, k), n);
  }

  /** The voting rule carries a prefix from the voter's log to the candidate's. */
  lemma UpToDateCarries(c: Cluster, h: History, p: Progress, l: Log, voter: Log, t: int, k: nat)
    requires ReignsOk(c, h) && LeadersComplete(c, h, p) && LogOk(h, l) && LogOk(h, voter)
    requires Settled(c, h, p, t, k) && t > 0 && UpTo(h, t, k) <= voter
    requires UpToDate(Last(l).term, |l| - 1, voter)
    ensures UpTo(h, t, k) <= l
  {
    LogAscends(c, h, voter);
    assert voter[k] == UpTo(h, t, k)[k] && voter[k].term == t;
    var w := Last(l).term;
    assert w >= Last(voter).term >= t > 0;
    assert l[0] == SENTINEL && voter[0] == SENTINEL;
    assert EntryOk(h, l, |l| - 1) && EntryOk(h, voter, |voter| - 1);
    var r := h.reigns[w];
    assert l == l[..|l|] == r.log[..|l|];
    if w == Last(voter).term {
      assert voter == voter[..|voter|] == r.log[..|voter|];
    } else {
      assert ReignOk(h, w, r, c.servers);
      assert r.log[|l| - 1].term == w;
      assert |r.atElection| <= |l| - 1;
      assert UpTo(h, t, k) <= r.atElection;
    }
  }

  // ---- what a step that touches only peer i has to show ----

  /** Progress changes only at peer i, and only upwards. */
  ghost predicate WritesAt(p: Progress, p': Progress, i: nat) {
    && |p'.wrote| == |p.wrote|
    && (forall j :: 0 <= j < |p.wrote| && j != i ==> p'.wrote[j] == p.wrote[j])
    && (forall x :: x in p'.acked && x.peer != i ==> x in p.acked && p'.acked[x] == p.acked[x])
    && (forall t, f :: Ack(p', t, f) >= Ack(p, t, f))
    && p.commits <= p'.commits
  }

  ghost predicate OthersSame(c: Cluster, c': Cluster, i: nat) {
    && |c'.servers| == |c.servers| && i < |c.servers|
    && forall j :: 0 <= j < |c.servers| && j != i ==> c'.servers[j] == c.servers[j]
  }

  /** Peer i, no later than term t, stores `len` entries of leader t, no fewer than before. */
  lemma WriteGrows(c: Cluster, p: Progress, c': Cluster, p': Progress, i: nat, t: int, len: nat)
    requires |p.wrote| == |c.servers| && OthersSame(c, c', i) && c.servers[i].term <= c'.servers[i].term
    requires p' == Write(p, t, i, len) && len >= Ack(p, t, i) && c.servers[i].term <= t
    ensures WritesAt(p, p', i) && Grows(c, p, c', p')
    ensures p'.wrote == p.wrote[i := t] && p'.commits == p.commits
    ensures forall u, f :: Ack(p', u, f) == if u == t && f == i then len else Ack(p, u, f)
  {
    forall u, f ensures Ack(p', u, f) == if u == t && f == i then len else Ack(p, u, f) {
    }
  }

  lemma WroteOkFrame(h: History, p: Progress, h': History, p': Progress, s: Server, f: nat, i: nat)
    requires WroteOk(h, p, s, f) && Extends(h, h') && WritesAt(p, p', i) && f != i
    ensures WroteOk(h', p', s, f)
  {
    var w := p.wrote[f];
    assert Ack(p', w, f) >= Ack(p, w, f);
    forall t | Slot(t, f) in p'.acked ensures t <= w {
      assert Slot(t, f).peer != i;
    }
    if w > 0 && Slot(w, f) in p'.acked {
      assert Slot(w, f).peer != i;
    }
    if s.role == Leader {
      forall g: nat | g < s.peers && s.matchIndex[g] > 0 ensures s.matchIndex[g] < Ack(p', s.term, g) {
        assert Ack(p', s.term, g) >= Ack(p, s.term, g);
      }
    }
  }

  lemma WritesKept(c: Cluster, h: History, p: Progress, c': Cluster, h': History, p': Progress, i: nat)
    requires WritesOk(c, h, p) && Extends(h, h') && WritesAt(p, p', i) && OthersSame(c, c', i)
    requires WroteOk(h', p', c'.servers[i], i)
    requires forall x :: x in p'.acked && x.peer == i ==> AckOk(h', p', x, |c.servers|)
    requires forall k :: 0 <= k < |c'.appends| ==> AnswerOk(p', c'.appends[k])
    ensures WritesOk(c', h', p')
  {
    forall f: nat | f < |c.servers| ensures WroteOk(h', p', c'.servers[f], f) {
      if f != i {
        assert WroteOk(h, p, c.servers[f], f);
        WroteOkFrame(h, p, h', p', c.servers[f], f, i);
      }
    }
    forall x | x in p'.acked ensures AckOk(h', p', x, |c.servers|) {
      if x.peer != i { assert AckOk(h, p, x, |c.servers|); }
    }
  }

  lemma CommitsKept(c: Cluster, h: History, p: Progress, c': Cluster, h': History, p': Progress, i: nat)
    requires CommitsOk(c, h, p) && Extends(h, h') && WritesAt(p, p', i) && OthersSame(c, c', i)
    requires |p.wrote| == |c.servers|
    requires forall x :: x in p'.commits && x !in p.commits ==> CommitOk(h', p', x.term, x.index, |c.servers|)
    requires AppliedOk(h', p', c'.servers[i], i)
    requires forall k :: |c.appends| <= k < |c'.appends| ==>
               Backed(h', p', c'.appends[k].sent, c'.appends[k].args.leaderCommit, c'.appends[k].args.term)
    requires |c.appends| <= |c'.appends|
    requires forall k :: 0 <= k < |c.appends| ==>
               c'.appends[k].sent == c.appends[k].sent && c'.appends[k].args == c.appends[k].args
    ensures CommitsOk(c', h', p')
  {
    forall x | x in p'.commits ensures CommitOk(h', p', x.term, x.index, |c'.servers|) {
      if x in p.commits { CommitOkExtends(h, p, h', p', x.term, x.index, |c.servers|); }
    }
    forall f: nat | f < |c'.servers| ensures AppliedOk(h', p', c'.servers[f], f) {
      if f != i {
        assert AppliedOk(h, p, c.servers[f], f);
        BackedExtends(h, p, h', p', c.servers[f].log, c.servers[f].commitIndex, p.wrote[f], p'.wrote[f]);
      }
    }
    forall k | 0 <= k < |c'.appends|
      ensures Backed(h', p', c'.appends[k].sent, c'.appends[k].args.leaderCommit, c'.appends[k].args.term)
    {
      if k < |c.appends| {
        var a := c.appends[k];
        BackedExtends(h, p, h', p', a.sent, a.args.leaderCommit, a.args.term, a.args.term);
      }
    }
  }

  /** No entry of a leader's own term appears. */
  ghost predicate NoNewEntry(h: History, h': History) {
    forall t, k: nat :: OwnEntry(h', t, k) ==> OwnEntry(h, t, k)
  }

  lemma LeadersKept(c: Cluster, h: History, p: Progress, c': Cluster, h': History, p': Progress)
    requires LeadersComplete(c, h, p) && Extends(h, h') && Grows(c, p, c', p') && NoNewEntry(h, h')
    requires forall u, t, k: nat :: u in h'.reigns && u !in h.reigns && t < u && Settled(c, h, p, t, k) ==>
               UpTo(h, t, k) <= h'.reigns[u].atElection
    ensures LeadersComplete(c', h', p')
  {
    forall t, u, k: nat | u in h'.reigns && t < u && Settled(c', h', p', t, k)
      ensures UpTo(h', t, k) <= h'.reigns[u].atElection
    {
      assert OwnEntry(h, t, k);
      SettledBefore(c, h, p, c', h', p', t, k);
    }
  }

  lemma VotesKept(c: Cluster, h: History, p: Progress, c': Cluster, h': History, p': Progress)
    requires VotesComplete(c, h, p) && Extends(h, h') && Grows(c, p, c', p') && NoNewEntry(h, h')
    requires ServersOk(c, h) && VotesOk(c, h)
    requires forall x, t, k: nat ::
               x in h'.votes && x !in h.votes && t < x.term && k < Ack(p', t, x.peer) && Settled(c, h, p, t, k) ==>
               UpTo(h, t, k) <= h'.votes[x].log
    ensures VotesComplete(c', h', p')
  {
    forall x, t, k: nat | x in h'.votes && t < x.term && k < Ack(p', t, x.peer) && Settled(c', h', p', t, k)
      ensures UpTo(h', t, k) <= h'.votes[x].log
    {
      assert OwnEntry(h, t, k);
      SettledBefore(c, h, p, c', h', p', t, k);
      if x in h.votes {
        assert VoteOk(h, x, |c.servers|);
        assert ServerOk(h, c.servers[x.peer], x.peer);
        assert Slot(x.term, x.peer) in h.votes;
        assert Ack(p', t, x.peer) == Ack(p, t, x.peer);
      }
    }
  }

  // ---- steps that write no log ----

  /** Peer i may change its term, role and vote, or cast a vote with its present log; nothing is written. */
  ghost predicate Quiet(c: Cluster, h: History, c': Cluster, h': History, i: nat) {
    && OthersSame(c, c', i)
    && h'.reigns == h.reigns && Extends(h, h')
    && (forall x :: x in h'.votes && x !in h.votes ==> x.peer == i && h'.votes[x].log == c.servers[i].log)
    && var s, s' := c.servers[i], c'.servers[i];
    && s'.log == s.log && s'.commitIndex == s.commitIndex
    && s'.lastApplied == s.lastApplied && s'.applied == s.applied
    && s'.term >= s.term
    && (s'.role == Leader ==> s.role == Leader && s'.term == s.term && s'.matchIndex == s.matchIndex
                              && s'.peers == s.peers)
    && |c'.appends| == |c.appends|
    && forall k :: 0 <= k < |c.appends| ==>
         && c'.appends[k].sent == c.appends[k].sent && c'.appends[k].args == c.appends[k].args
         && c'.appends[k].dst == c.appends[k].dst
         && (c'.appends[k].phase == c.appends[k].phase || c'.appends[k].phase.Finished? ||
             (c'.appends[k].phase.Answered? && !c'.appends[k].phase.reply.success))
  }

  lemma QuietKept(c: Cluster, h: History, p: Progress, c': Cluster, h': History, i: nat)
    requires Inv(c, h) && HonestInv(c, h, p) && Quiet(c, h, c', h', i)
    ensures HonestInv(c', h', p)
  {
    QuietWrites(c, h, p, c', h', i);
    QuietCommits(c, h, p, c', h', i);
    LeadersKept(c, h, p, c', h', p);
    QuietVotes(c, h, p, c', h', i);
  }

  lemma QuietWrites(c: Cluster, h: History, p: Progress, c': Cluster, h': History, i: nat)
    requires HonestInv(c, h, p) && Quiet(c, h, c', h', i)
    ensures WritesOk(c', h', p)
  {
    assert WroteOk(h, p, c.servers[i], i);
    forall x | x in p.acked && x.peer == i ensures AckOk(h', p, x, |c.servers|) {
      assert AckOk(h, p, x, |c.servers|);
    }
    forall k | 0 <= k < |c'.appends| ensures AnswerOk(p, c'.appends[k]) {
      assert AnswerOk(p, c.appends[k]);
    }
    WritesKept(c, h, p, c', h', p, i);
  }

  lemma QuietCommits(c: Cluster, h: History, p: Progress, c': Cluster, h': History, i: nat)
    requires HonestInv(c, h, p) && Quiet(c, h, c', h', i)
    ensures CommitsOk(c', h', p)
  {
    assert AppliedOk(h, p, c.servers[i], i);
    BackedExtends(h, p, h', p, c.servers[i].log, c.servers[i].commitIndex, p.wrote[i], p.wrote[i]);
    CommitsKept(c, h, p, c', h', p, i);
  }

  lemma QuietVotes(c: Cluster, h: History, p: Progress, c': Cluster, h': History, i: nat)
    requires Inv(c, h) && HonestInv(c, h, p) && Quiet(c, h, c', h', i)
    ensures VotesComplete(c', h', p)
  {
    forall x, t, k: nat |
      x in h'.votes && x !in h.votes && t < x.term && k < Ack(p, t, x.peer) && Settled(c, h, p, t, k)
      ensures UpTo(h, t, k) <= h'.votes[x].log
    {
      SettledHeld(c, h, p, i, t, k);
    }
    VotesKept(c, h, p, c', h', p);
  }

  /** Only the calls in flight change, and new ones carry what their sender has committed. */
  lemma OnlyCalls(c: Cluster, c': Cluster, h: History, p: Progress)
    requires HonestInv(c, h, p) && c'.servers == c.servers && c.appends <= c'.appends
    requires forall k :: |c.appends| <= k < |c'.appends| ==>
               && c'.appends[k].phase.Requested?
               && Backed(h, p, c'.appends[k].sent, c'.appends[k].args.leaderCommit, c'.appends[k].args.term)
    ensures HonestInv(c', h, p)
  {
    assert forall t, k: nat :: Settled(c', h, p, t, k) <==> Settled(c, h, p, t, k);
    forall k | 0 <= k < |c'.appends| ensures AnswerOk(p, c'.appends[k]) {
      if k < |c.appends| { assert AnswerOk(p, c.appends[k]); }
    }
    forall k | 0 <= k < |c.appends|
      ensures Backed(h, p, c'.appends[k].sent, c'.appends[k].args.leaderCommit, c'.appends[k].args.term)
    {
      assert c'.appends[k] == c.appends[k];
    }
  }

  lemma SendAppendHonest(c: Cluster, h: History, p: Progress, i: nat, j: nat)
    requires HonestInv(c, h, p) && Enabled(c, SendAppend(i, j))
    ensures HonestInv(Apply(c, SendAppend(i, j)), h, p)
  {
    assert WroteOk(h, p, c.servers[i], i) && AppliedOk(h, p, c.servers[i], i);
    OnlyCalls(c, Apply(c, SendAppend(i, j)), h, p);
  }

  // ---- a new leader ----

  /** Voters of a term have moved on to it, so what they had stored of an earlier leader they stored before. */
  lemma VoterStored(c: Cluster, h: History, p: Progress, voters: set<nat>, u: int, t: int, k: nat) returns (v: nat)
    requires ServersOk(c, h) && Settled(c, h, p, t, k) && t < u && Majority(voters, |c.servers|)
    requires forall v :: v in voters ==> Slot(u, v) in h.votes
    ensures v in voters && v < |c.servers| && k < Ack(p, t, v)
  {
    v := MajoritiesMeet(voters, Able(c.servers, p, t, k), |c.servers|);
    assert ServerOk(h, c.servers[v], v);
  }

  /** A candidate that wins holds everything an earlier leader may commit. */
  lemma WinnerComplete(c: Cluster, h: History, p: Progress, el: Election, t: int, k: nat)
    requires Inv(c, h) && HonestInv(c, h, p) && el.cand < |c.servers| && |el.calls| == |c.servers|
    requires var s := c.servers[el.cand];
             && ElectionOk(h, el, s)
             && s.role == Candidate && s.term == el.args.term && el.count > |c.servers| / 2
    requires t < el.args.term && Settled(c, h, p, t, k)
    ensures UpTo(h, t, k) <= c.servers[el.cand].log
  {
    var s := c.servers[el.cand];
    var u := el.args.term;
    assert ServerOk(h, s, el.cand);
    WinnerIsFirst(c, h, el);
    var v := VoterStored(c, h, p, Granters(el) + {el.cand}, u, t, k);
    VoteHolds(c, h, p, u, v, t, k);
    if v != el.cand {
      VoterCarries(c, h, p, el, v, t, k);
    }
  }

  lemma VoteHolds(c: Cluster, h: History, p: Progress, u: int, v: nat, t: int, k: nat)
    requires VotesComplete(c, h, p) && Slot(u, v) in h.votes && t < u && k < Ack(p, t, v) && Settled(c, h, p, t, k)
    ensures UpTo(h, t, k) <= h.votes[Slot(u, v)].log
  {
  }

  /** A voter that stores an entry votes only for candidates that hold it. */
  lemma VoterCarries(c: Cluster, h: History, p: Progress, el: Election, v: nat, t: int, k: nat)
    requires Inv(c, h) && HonestInv(c, h, p) && el.cand < |c.servers| && v in Granters(el)
    requires ElectionOk(h, el, c.servers[el.cand]) && el.args.term !in h.reigns
    requires c.servers[el.cand].role == Candidate && c.servers[el.cand].term == el.args.term
    requires Settled(c, h, p, t, k) && k < Ack(p, t, v)
    requires Slot(el.args.term, v) in h.votes && UpTo(h, t, k) <= h.votes[Slot(el.args.term, v)].log
    ensures UpTo(h, t, k) <= c.servers[el.cand].log
  {
    var s, vote := c.servers[el.cand], h.votes[Slot(el.args.term, v)];
    assert ServerOk(h, s, el.cand) && VoteOk(h, Slot(el.args.term, v), |c.servers|);
    assert SaysYes(el.calls[v]) && Granted(h, el, v);
    assert Slot(t, v) in p.acked && AckOk(h, p, Slot(t, v), |c.servers|);
    UpToDateCarries(c, h, p, s.log, vote.log, t, k);
  }

  /** Candidate el.cand wins election el: the states, histories and progress before and after. */
  ghost predicate Crowning(c: Cluster, h: History, p: Progress, el: Election,
                           c': Cluster, h': History, p': Progress)
  {
    && Inv(c, h) && HonestInv(c, h, p) && el.cand < |c.servers| && |el.calls| == |c.servers|
    && var s := c.servers[el.cand];
    && ElectionOk(h, el, s)
    && s.role == Candidate && s.term == el.args.term && el.count > |c.servers| / 2
    && c' == SetServer(c, el.cand, BeLeader(s))
    && h' == Crown(h, el.cand, Granters(el) + {el.cand}, s)
    && p' == Write(p, s.term, el.cand, |s.log|)
  }

  lemma CrownShape(c: Cluster, h: History, p: Progress, el: Election, c': Cluster, h': History, p': Progress)
    requires Crowning(c, h, p, el, c', h', p')
    ensures Extends(h, h') && WritesAt(p, p', el.cand) && Grows(c, p, c', p')
    ensures p'.wrote == p.wrote[el.cand := c.servers[el.cand].term]
    ensures Ack(p', c.servers[el.cand].term, el.cand) == |c.servers[el.cand].log|
  {
    var i := el.cand;
    var s := c.servers[i];
    WinnerIsFirst(c, h, el);
    assert Slot(s.term, i) !in p.acked;
    WriteGrows(c, p, c', p', i, s.term, |s.log|);
  }

  lemma CrownEntries(h: History, i: nat, voters: set<nat>, s: Server)
    requires LogOk(h, s.log) && s.term !in h.reigns && s.term >= 0
    ensures NoNewEntry(h, Crown(h, i, voters, s))
  {
    forall k | 1 <= k < |s.log| ensures EntryOk(h, s.log, k) && s.log[k].term != s.term {
      assert EntryOk(h, s.log, k);
    }
  }

  lemma CrownAnswers(c: Cluster, h: History, p: Progress, el: Election, c': Cluster, h': History, p': Progress)
    requires Crowning(c, h, p, el, c', h', p')
    ensures forall k :: 0 <= k < |c'.appends| ==> AnswerOk(p', c'.appends[k])
  {
    CrownShape(c, h, p, el, c', h', p');
    forall k | 0 <= k < |c'.appends| ensures AnswerOk(p', c'.appends[k]) {
      assert AnswerOk(p, c.appends[k]);
    }
  }

  lemma CrownAcks(c: Cluster, h: History, p: Progress, el: Election, c': Cluster, h': History, p': Progress)
    requires Crowning(c, h, p, el, c', h', p')
    ensures forall x :: x in p'.acked && x.peer == el.cand ==> AckOk(h', p', x, |c.servers|)
  {
    CrownShape(c, h, p, el, c', h', p');
    assert ServerOk(h, c.servers[el.cand], el.cand);
    forall x | x in p'.acked && x.peer == el.cand ensures AckOk(h', p', x, |c.servers|) {
      if x in p.acked { assert AckOk(h, p, x, |c.servers|); }
    }
  }

  lemma CrownWrote(c: Cluster, h: History, p: Progress, el: Election, c': Cluster, h': History, p': Progress)
    requires Crowning(c, h, p, el, c', h', p')
    ensures el.cand < |c'.servers| && WroteOk(h', p', c'.servers[el.cand], el.cand)
  {
    var s := c.servers[el.cand];
    CrownShape(c, h, p, el, c', h', p');
    assert WroteOk(h, p, s, el.cand) && ServerOk(h, s, el.cand);
    CrownedWrote(h, p, h', p', s, el.cand);
  }

  lemma CrownedWrote(h: History, p: Progress, h': History, p': Progress, s: Server, i: nat)
    requires WroteOk(h, p, s, i) && s.term > 0 && p' == Write(p, s.term, i, |s.log|)
    requires s.term in h'.reigns && h'.reigns[s.term].atElection == h'.reigns[s.term].log == s.log
    ensures WroteOk(h', p', BeLeader(s), i)
  {
  }

  lemma CrownWrites(c: Cluster, h: History, p: Progress, el: Election, c': Cluster, h': History, p': Progress)
    requires Crowning(c, h, p, el, c', h', p')
    ensures WritesOk(c', h', p')
  {
    var i := el.cand;
    CrownShape(c, h, p, el, c', h', p');
    CrownWrote(c, h, p, el, c', h', p');
    CrownAcks(c, h, p, el, c', h', p');
    CrownAnswers(c, h, p, el, c', h', p');
    WritesKept(c, h, p, c', h', p', i);
  }

  lemma CrownHonest(c: Cluster, h: History, p: Progress, el: Election, c': Cluster, h': History, p': Progress)
    requires Crowning(c, h, p, el, c', h', p')
    ensures HonestInv(c', h', p')
  {
    var i := el.cand;
    var s := c.servers[i];
    CrownShape(c, h, p, el, c', h', p');
    assert ServerOk(h, s, i);
    WinnerIsFirst(c, h, el);
    CrownEntries(h, i, Granters(el) + {i}, s);
    CrownWrites(c, h, p, el, c', h', p');
    assert WroteOk(h, p, s, i) && AppliedOk(h, p, s, i);
    BackedExtends(h, p, h', p', s.log, s.commitIndex, p.wrote[i], s.term);
    CommitsKept(c, h, p, c', h', p', i);
    forall u, t, k: nat | u in h'.reigns && u !in h.reigns && t < u && Settled(c, h, p, t, k)
      ensures UpTo(h, t, k) <= h'.reigns[u].atElection
    {
      WinnerComplete(c, h, p, el, t, k);
    }
    LeadersKept(c, h, p, c', h', p');
    VotesKept(c, h, p, c', h', p');
  }

  // ---- client commands ----

  /** A new entry of a deposed leader cannot be committed: a later leader's voters will never store it. */
  lemma NewEntryUnsettled(c: Cluster, h: History, p: Progress, t: int, k: nat, u: int)
    requires ServersOk(c, h) && u in h.reigns && ReignOk(h, u, h.reigns[u], c.servers) && t < u
    requires forall f: nat :: f < |c.servers| && c.servers[f].term > t ==> Ack(p, t, f) <= k
    ensures !Settled(c, h, p, t, k)
  {
    if Settled(c, h, p, t, k) {
      var _ := VoterStored(c, h, p, h.reigns[u].voters, u, t, k);
    }
  }

  /** Leader i takes a command: the states, histories and progress before and after. */
  ghost predicate Starting(c: Cluster, h: History, p: Progress, i: nat, command: Command,
                           c': Cluster, h': History, p': Progress)
  {
    && Inv(c, h) && HonestInv(c, h, p) && i < |c.servers| && c.servers[i].role == Leader
    && var s := c.servers[i];
    && s.term in h.reigns && h.reigns[s.term].log == s.log
    && c' == SetServer(c, i, Start(s, command))
    && h' == h.(reigns := h.reigns[s.term := h.reigns[s.term].(log := Start(s, command).log)])
    && p' == Write(p, s.term, i, |s.log| + 1)
  }

  lemma LongerLogExtends(h: History, t: int, l: Log)
    requires t in h.reigns && h.reigns[t].log <= l
    ensures Extends(h, h.(reigns := h.reigns[t := h.reigns[t].(log := l)]))
  {
  }

  lemma StartShape(c: Cluster, h: History, p: Progress, i: nat, command: Command,
                   c': Cluster, h': History, p': Progress)
    requires Starting(c, h, p, i, command, c', h', p')
    ensures Extends(h, h') && WritesAt(p, p', i) && Grows(c, p, c', p') && p'.wrote == p.wrote
    ensures Ack(p', c.servers[i].term, i) == |c.servers[i].log| + 1
  {
    var s := c.servers[i];
    assert WroteOk(h, p, s, i);
    LongerLogExtends(h, s.term, Start(s, command).log);
    WriteGrows(c, p, c', p', i, s.term, |s.log| + 1);
    assert p'.wrote == p.wrote;
  }

  lemma StartEntries(c: Cluster, h: History, p: Progress, i: nat, command: Command,
                     c': Cluster, h': History, p': Progress, t: int, k: nat)
    requires Starting(c, h, p, i, command, c', h', p') && OwnEntry(h', t, k) && !OwnEntry(h, t, k)
    ensures t == c.servers[i].term && k == |c.servers[i].log| && t in h.reigns && |h.reigns[t].log| == k
  {
  }

  lemma StartWrote(h: History, p: Progress, h': History, p': Progress, s: Server, i: nat, command: Command)
    requires WroteOk(h, p, s, i) && s.role == Leader && s.term in h.reigns && s.term in h'.reigns
    requires WritesAt(p, p', i) && p' == Write(p, s.term, i, |s.log| + 1)
    requires s.term > 0
    requires h'.reigns[s.term] == h.reigns[s.term].(log := Start(s, command).log)
    ensures WroteOk(h', p', Start(s, command), i)
  {
    forall g: nat | g < s.peers && s.matchIndex[g] > 0 ensures s.matchIndex[g] < Ack(p', s.term, g) {
      assert Ack(p', s.term, g) >= Ack(p, s.term, g);
    }
  }

  lemma StartWrites(c: Cluster, h: History, p: Progress, i: nat, command: Command,
                    c': Cluster, h': History, p': Progress)
    requires Starting(c, h, p, i, command, c', h', p')
    ensures WritesOk(c', h', p')
  {
    StartShape(c, h, p, i, command, c', h', p');
    StartWroteAt(c, h, p, i, command, c', h', p');
    StartAcks(c, h, p, i, command, c', h', p');
    StartAnswers(c, h, p, i, command, c', h', p');
    WritesKept(c, h, p, c', h', p', i);
  }

  lemma StartWroteAt(c: Cluster, h: History, p: Progress, i: nat, command: Command,
                     c': Cluster, h': History, p': Progress)
    requires Starting(c, h, p, i, command, c', h', p')
    ensures i < |c'.servers| && WroteOk(h', p', c'.servers[i], i)
  {
    var s := c.servers[i];
    StartShape(c, h, p, i, command, c', h', p');
    assert ServerOk(h, s, i) && WroteOk(h, p, s, i);
    StartWrote(h, p, h', p', s, i, command);
  }

  lemma StartAcks(c: Cluster, h: History, p: Progress, i: nat, command: Command,
                  c': Cluster, h': History, p': Progress)
    requires Starting(c, h, p, i, command, c', h', p')
    ensures forall x :: x in p'.acked && x.peer == i ==> AckOk(h', p', x, |c.servers|)
  {
    StartShape(c, h, p, i, command, c', h', p');
    assert ServerOk(h, c.servers[i], i);
    forall x | x in p'.acked && x.peer == i ensures AckOk(h', p', x, |c.servers|) {
      if x in p.acked { assert AckOk(h, p, x, |c.servers|); }
    }
  }

  lemma StartAnswers(c: Cluster, h: History, p: Progress, i: nat, command: Command,
                     c': Cluster, h': History, p': Progress)
    requires Starting(c, h, p, i, command, c', h', p')
    ensures forall k :: 0 <= k < |c'.appends| ==> AnswerOk(p', c'.appends[k])
  {
    StartShape(c, h, p, i, command, c', h', p');
    forall k | 0 <= k < |c'.appends| ensures AnswerOk(p', c'.appends[k]) {
      assert AnswerOk(p, c.appends[k]);
    }
  }

  lemma StartUnstored(c: Cluster, h: History, p: Progress, i: nat, command: Command,
                      c': Cluster, h': History, p': Progress, t: int, k: nat, f: nat)
    requires Starting(c, h, p, i, command, c', h', p')
    requires f < |c'.servers| && c'.servers[f].term > t && OwnEntry(h', t, k) && !OwnEntry(h, t, k)
    ensures Ack(p', t, f) <= k
  {
    StartShape(c, h, p, i, command, c', h', p');
    StartEntries(c, h, p, i, command, c', h', p', t, k);
    if Slot(t, f) in p.acked { assert AckOk(h, p, Slot(t, f), |c.servers|); }
  }

  lemma StartLeaders(c: Cluster, h: History, p: Progress, i: nat, command: Command,
                     c': Cluster, h': History, p': Progress)
    requires Starting(c, h, p, i, command, c', h', p') && Inv(c', h')
    ensures LeadersComplete(c', h', p')
  {
    StartShape(c, h, p, i, command, c', h', p');
    forall t, u, k: nat | u in h'.reigns && t < u && Settled(c', h', p', t, k)
      ensures UpTo(h', t, k) <= h'.reigns[u].atElection
    {
      if OwnEntry(h, t, k) {
        SettledBefore(c, h, p, c', h', p', t, k);
      } else {
        forall f: nat | f < |c'.servers| && c'.servers[f].term > t ensures Ack(p', t, f) <= k {
          StartUnstored(c, h, p, i, command, c', h', p', t, k, f);
        }
        NewEntryUnsettled(c', h', p', t, k, u);
      }
    }
  }

  lemma StartVotes(c: Cluster, h: History, p: Progress, i: nat, command: Command,
                   c': Cluster, h': History, p': Progress)
    requires Starting(c, h, p, i, command, c', h', p')
    ensures VotesComplete(c', h', p')
  {
    StartShape(c, h, p, i, command, c', h', p');
    forall x, t, k: nat | x in h'.votes && t < x.term && k < Ack(p', t, x.peer) && Settled(c', h', p', t, k)
      ensures UpTo(h', t, k) <= h'.votes[x].log
    {
      assert VoteOk(h, x, |c.servers|) && ServerOk(h, c.servers[x.peer], x.peer) && Slot(x.term, x.peer) in h.votes;
      if !OwnEntry(h, t, k) {
        StartUnstored(c, h, p, i, command, c', h', p', t, k, x.peer);
      } else {
        SettledBefore(c, h, p, c', h', p', t, k);
        assert Ack(p', t, x.peer) == Ack(p, t, x.peer);
      }
    }
  }

  lemma ClientStartHonest(c: Cluster, h: History, p: Progress, i: nat, command: Command)
    requires Inv(c, h) && HonestInv(c, h, p) && Enabled(c, ClientStart(i, command))
    ensures HonestInv(Apply(c, ClientStart(i, command)), Record(c, h, ClientStart(i, command)),
                      Advance(c, p, ClientStart(i, command)))
  {
    var c', h', p' := Apply(c, ClientStart(i, command)), Record(c, h, ClientStart(i, command)),
                      Advance(c, p, ClientStart(i, command));
    var s := c.servers[i];
    if s.role != Leader {
      assert c'.servers == c.servers;
      assert c' == c;
      return;
    }
    ClientStartInv(c, h, i, command);
    assert ServerOk(h, s, i);
    StartWrites(c, h, p, i, command, c', h', p');
    StartCommits(c, h, p, i, command, c', h', p');
    StartLeaders(c, h, p, i, command, c', h', p');
    StartVotes(c, h, p, i, command, c', h', p');
  }

  lemma StartCommits(c: Cluster, h: History, p: Progress, i: nat, command: Command,
                     c': Cluster, h': History, p': Progress)
    requires Starting(c, h, p, i, command, c', h', p')
    ensures CommitsOk(c', h', p')
  {
    StartShape(c, h, p, i, command, c', h', p');
    assert AppliedOk(h, p, c.servers[i], i);
    StartApplied(h, p, h', p', c.servers[i], i, command);
    CommitsKept(c, h, p, c', h', p', i);
  }

  lemma StartApplied(h: History, p: Progress, h': History, p': Progress, s: Server, i: nat, command: Command)
    requires AppliedOk(h, p, s, i) && Extends(h, h') && WritesAt(p, p', i)
    requires s.role == Leader && p.wrote[i] == p'.wrote[i]
    ensures AppliedOk(h', p', Start(s, command), i)
  {
    BackedExtends(h, p, h', p', s.log, s.commitIndex, p.wrote[i], p.wrote[i]);
    var l := Start(s, command).log;
    assert l[..s.commitIndex + 1] == s.log[..s.commitIndex + 1];
    if s.commitIndex > 0 {
      var x :| x in p'.commits && BackedBy(h', s.log, s.commitIndex, p'.wrote[i], x);
      assert BackedBy(h', l, s.commitIndex, p'.wrote[i], x);
    }
    assert Messages(l, 0, s.commitIndex) == Messages(s.log, 0, s.commitIndex);
  }

  // ---- an accepted append ----

  /** Call k is accepted and takes nothing back: the states and progress before and after. */
  ghost predicate Accepting(c: Cluster, h: History, p: Progress, k: nat, c': Cluster, p': Progress) {
    && Inv(c, h) && HonestInv(c, h, p) && k < |c.appends|
    && var a := c.appends[k];
    && var s := c.servers[a.dst];
    && Accepts(s, a.args) && |a.sent| >= Ack(p, a.args.term, a.dst)
    && c' == SetPhase(SetServer(c, a.dst, AppendEntries(s, a.args).0), k, Answered(AppendEntries(s, a.args).1))
    && p' == Write(p, a.args.term, a.dst, |a.sent|)
  }

  /** A follower that already follows this leader only gains entries. */
  lemma AcceptLonger(c: Cluster, h: History, p: Progress, k: nat, c': Cluster, p': Progress)
    requires Accepting(c, h, p, k, c', p')
    requires p.wrote[c.appends[k].dst] == c.appends[k].args.term
    ensures c.servers[c.appends[k].dst].log <= c.appends[k].sent
  {
    var a := c.appends[k];
    var s := c.servers[a.dst];
    assert ServerOk(h, s, a.dst) && WroteOk(h, p, s, a.dst) && AppendOk(h, a);
    assert |s.log| <= |a.sent|;
  }

  lemma AcceptShape(c: Cluster, h: History, p: Progress, k: nat, c': Cluster, p': Progress)
    requires Accepting(c, h, p, k, c', p')
    ensures var f := c.appends[k].dst;
            && WritesAt(p, p', f) && Grows(c, p, c', p') && OthersSame(c, c', f)
            && p'.wrote == p.wrote[f := c.appends[k].args.term] && p'.commits == p.commits
            && Ack(p', c.appends[k].args.term, f) == |c.appends[k].sent|
  {
    var a := c.appends[k];
    var s := c.servers[a.dst];
    assert WroteOk(h, p, s, a.dst);
    AppendEntriesShape(s, a.args);
    if Slot(a.args.term, a.dst) in p.acked {
      AcceptLonger(c, h, p, k, c', p');
    }
    WriteGrows(c, p, c', p', a.dst, a.args.term, |a.sent|);
  }

  lemma AcceptAnswers(c: Cluster, h: History, p: Progress, k: nat, c': Cluster, p': Progress)
    requires Accepting(c, h, p, k, c', p')
    ensures forall m :: 0 <= m < |c'.appends| ==> AnswerOk(p', c'.appends[m])
  {
    AcceptShape(c, h, p, k, c', p');
    forall m | 0 <= m < |c'.appends| ensures AnswerOk(p', c'.appends[m]) {
      assert AnswerOk(p, c.appends[m]);
    }
  }

  lemma AcceptWrote(c: Cluster, h: History, p: Progress, k: nat, c': Cluster, p': Progress)
    requires Accepting(c, h, p, k, c', p')
    ensures var f := c.appends[k].dst; f < |c'.servers| && WroteOk(h, p', c'.servers[f], f)
  {
    var a := c.appends[k];
    var s := c.servers[a.dst];
    assert ServerOk(h, s, a.dst) && WroteOk(h, p, s, a.dst) && AppendOk(h, a);
    AcceptShape(c, h, p, k, c', p');
    AcceptedIsSent(c, h, k);
    AppendEntriesShape(s, a.args);
  }

  lemma AcceptAcks(c: Cluster, h: History, p: Progress, k: nat, c': Cluster, p': Progress)
    requires Accepting(c, h, p, k, c', p')
    ensures forall x :: x in p'.acked && x.peer == c.appends[k].dst ==> AckOk(h, p', x, |c.servers|)
  {
    var a := c.appends[k];
    assert AppendOk(h, a) && ServerOk(h, c.servers[a.dst], a.dst);
    forall x | x in p'.acked && x.peer == a.dst ensures AckOk(h, p', x, |c.servers|) {
      if x in p.acked { assert AckOk(h, p, x, |c.servers|); }
    }
  }

  lemma AcceptWrites(c: Cluster, h: History, p: Progress, k: nat, c': Cluster, p': Progress)
    requires Accepting(c, h, p, k, c', p')
    ensures WritesOk(c', h, p')
  {
    var a := c.appends[k];
    AcceptShape(c, h, p, k, c', p');
    AcceptWrote(c, h, p, k, c', p');
    AcceptAcks(c, h, p, k, c', p');
    AcceptAnswers(c, h, p, k, c', p');
    WritesKept(c, h, p, c', h, p', a.dst);
  }

  lemma BackedByLonger(h: History, l: Log, l': Log, index: nat, w: int, w': int, x: Mark)
    requires index < |l| && BackedBy(h, l, index, w, x) && w <= w' && l <= l'
    ensures BackedBy(h, l', index, w', x)
  {
    assert l'[..index + 1] == l[..index + 1];
  }

  lemma BackedByPrefix(h: History, l: Log, index: nat, w: int, x: Mark)
    requires x.term in h.reigns && x.index < |h.reigns[x.term].log| && index <= x.index && x.term <= w
    requires UpTo(h, x.term, x.index) <= l
    ensures index < |l| && BackedBy(h, l, index, w, x)
  {
    var u := UpTo(h, x.term, x.index);
    assert h.reigns[x.term].log[..index + 1] == u[..index + 1] == l[..index + 1];
  }

  /** What an earlier leader committed is in every log that a later leader sends. */
  lemma EarlierCommitKept(c: Cluster, h: History, p: Progress, k: nat, x: Mark)
    requires AppendsOk(c, h) && LeadersComplete(c, h, p) && CommitsOk(c, h, p)
    requires k < |c.appends| && x in p.commits && x.term < c.appends[k].args.term
    ensures x.term in h.reigns && x.index < |h.reigns[x.term].log|
    ensures UpTo(h, x.term, x.index) <= c.appends[k].sent
  {
    var a := c.appends[k];
    assert AppendOk(h, a);
    assert CommitOk(h, p, x.term, x.index, |c.servers|);
    CommittedIsSettled(c, h, p, x.term, x.index);
    assert UpTo(h, x.term, x.index) <= h.reigns[a.args.term].atElection;
  }

  /** What the follower had committed is in the log it receives. */
  lemma AcceptKeepsCommitted(c: Cluster, h: History, p: Progress, k: nat, c': Cluster, p': Progress)
    requires Accepting(c, h, p, k, c', p')
    ensures var a := c.appends[k];
            var s := c.servers[a.dst];
            && Backed(h, p, a.sent, s.commitIndex, a.args.term)
            && s.commitIndex < |s.log| && a.sent[..s.commitIndex + 1] == s.log[..s.commitIndex + 1]
  {
    var a := c.appends[k];
    var s := c.servers[a.dst];
    assert AppliedOk(h, p, s, a.dst);
    if s.commitIndex > 0 {
      var x :| x in p.commits && BackedBy(h, s.log, s.commitIndex, p.wrote[a.dst], x);
      assert WroteOk(h, p, s, a.dst);
      if x.term < a.args.term {
        EarlierCommitKept(c, h, p, k, x);
        BackedByPrefix(h, a.sent, s.commitIndex, a.args.term, x);
      } else {
        AcceptLonger(c, h, p, k, c', p');
        BackedByLonger(h, s.log, a.sent, s.commitIndex, p.wrote[a.dst], a.args.term, x);
      }
    } else {
      SentStart(c, h, k);
    }
  }

  lemma SentStart(c: Cluster, h: History, k: nat)
    requires Inv(c, h) && k < |c.appends|
    ensures c.servers[c.appends[k].dst].log[0] == SENTINEL == c.appends[k].sent[0]
  {
    var a := c.appends[k];
    assert ServerOk(h, c.servers[a.dst], a.dst) && AppendOk(h, a);
    assert ReignOk(h, a.args.term, h.reigns[a.args.term], c.servers);
  }

  lemma MessagesJoin(before: Log, l: Log, from: nat, to: nat)
    requires from <= to < |l| && from < |before| && l[..from + 1] == before[..from + 1]
    ensures Messages(l, 0, to) == Messages(before, 0, from) + Messages(l, from, to)
  {
    var a, b := Messages(l, 0, to), Messages(before, 0, from) + Messages(l, from, to);
    forall i | 0 <= i < to ensures a[i] == b[i] {
      if i < from {
        assert l[i + 1] == l[..from + 1][i + 1] == before[i + 1];
      }
    }
  }

  lemma AppendEntriesCommits(s: Server, a: AppendArgs)
    requires Accepts(s, a) && s.lastApplied == s.commitIndex
    requires s.commitIndex < |AppendEntries(s, a).0.log| && a.leaderCommit < |AppendEntries(s, a).0.log|
    ensures var s' := AppendEntries(s, a).0;
            && s'.commitIndex == (if a.leaderCommit > s.commitIndex then a.leaderCommit else s.commitIndex)
            && s'.lastApplied == s'.commitIndex
            && s'.applied == s.applied + Messages(s'.log, s.commitIndex, s'.commitIndex)
  {
  }

  /** A follower that takes over the log `sent`, which holds its own commits and the leader's. */
  lemma AcceptedApplied(h: History, p: Progress, p': Progress, s: Server, f: nat, a: AppendArgs, sent: Log)
    requires AppliedOk(h, p, s, f) && Accepts(s, a) && AppendEntries(s, a).0.log == sent
    requires Backed(h, p, sent, a.leaderCommit, a.term) && Backed(h, p, sent, s.commitIndex, a.term)
    requires sent[..s.commitIndex + 1] == s.log[..s.commitIndex + 1]
    requires f < |p'.wrote| && p'.wrote[f] == a.term && p'.commits == p.commits
    ensures AppliedOk(h, p', AppendEntries(s, a).0, f)
    ensures s.commitIndex <= AppendEntries(s, a).0.commitIndex
  {
    var s' := AppendEntries(s, a).0;
    AppendEntriesCommits(s, a);
    MessagesJoin(s.log, sent, s.commitIndex, s'.commitIndex);
    assert Backed(h, p', sent, s'.commitIndex, a.term);
  }

  lemma AcceptApplied(c: Cluster, h: History, p: Progress, k: nat, c': Cluster, p': Progress)
    requires Accepting(c, h, p, k, c', p')
    ensures AppliedOk(h, p', c'.servers[c.appends[k].dst], c.appends[k].dst)
    ensures c.servers[c.appends[k].dst].commitIndex <= c'.servers[c.appends[k].dst].commitIndex
  {
    var a := c.appends[k];
    var s := c.servers[a.dst];
    assert AppliedOk(h, p, s, a.dst);
    assert Backed(h, p, a.sent, a.args.leaderCommit, a.args.term);
    AcceptShape(c, h, p, k, c', p');
    AcceptKeepsCommitted(c, h, p, k, c', p');
    AcceptedIsSent(c, h, k);
    AcceptedApplied(h, p, p', s, a.dst, a.args, a.sent);
    assert c'.servers[a.dst] == AppendEntries(s, a.args).0;
  }

  lemma AcceptCommits(c: Cluster, h: History, p: Progress, k: nat, c': Cluster, p': Progress)
    requires Accepting(c, h, p, k, c', p')
    ensures CommitsOk(c', h, p')
  {
    AcceptShape(c, h, p, k, c', p');
    AcceptApplied(c, h, p, k, c', p');
    CommitsKept(c, h, p, c', h, p', c.appends[k].dst);
  }

  lemma AcceptElections(c: Cluster, h: History, p: Progress, k: nat, c': Cluster, p': Progress)
    requires Accepting(c, h, p, k, c', p')
    ensures LeadersComplete(c', h, p') && VotesComplete(c', h, p')
  {
    AcceptShape(c, h, p, k, c', p');
    LeadersKept(c, h, p, c', h, p');
    VotesKept(c, h, p, c', h, p');
  }

  lemma AcceptHonest(c: Cluster, h: History, p: Progress, k: nat, c': Cluster, p': Progress)
    requires Accepting(c, h, p, k, c', p')
    ensures HonestInv(c', h, p')
  {
    AcceptWrites(c, h, p, k, c', p');
    AcceptCommits(c, h, p, k, c', p');
    AcceptElections(c, h, p, k, c', p');
  }

  // ---- a successful append reply ----

  /** What handling a success changes at leader i. */
  ghost predicate SuccessEffect(c: Cluster, p: Progress, c': Cluster, p': Progress, i: nat, id: nat) {
    && OthersSame(c, c', i)
    && var s, s' := c.servers[i], c'.servers[i];
    && id < |s.matchIndex| && s.me < |s.matchIndex|
    && s'.log == s.log && s'.term == s.term && s'.role == s.role && s'.peers == s.peers
    && s'.matchIndex == NewMatchIndex(s, id)
    && p'.acked == p.acked && p'.wrote == p.wrote && p.commits <= p'.commits
    && (s'.commitIndex == s.commitIndex ==>
          p' == p && s'.applied == s.applied && s'.lastApplied == s.lastApplied)
    && (s'.commitIndex != s.commitIndex ==>
          && s'.commitIndex == Median(s'.matchIndex) > s.commitIndex
          && s'.commitIndex < |s.log| && s.log[s'.commitIndex].term == s.term
          && p'.commits == p.commits + {Mark(s.term, s'.commitIndex)}
          && s' == UpdateLastApplied(s'.(lastApplied := s.lastApplied, applied := s.applied)))
    && |c'.appends| == |c.appends|
    && forall k :: 0 <= k < |c.appends| ==>
         && c'.appends[k].sent == c.appends[k].sent && c'.appends[k].args == c.appends[k].args
         && (c'.appends[k] == c.appends[k] || c'.appends[k].phase.Finished?)
  }

  lemma OnSuccess(s: Server, id: nat, r: AppendReply)
    requires CanHandleAppendReply(s, id, r) && r.term <= s.term && r.success
    ensures var s' := OnAppendReply(s, id, r);
            && s'.log == s.log && s'.term == s.term && s'.role == s.role && s'.peers == s.peers
            && s'.matchIndex == NewMatchIndex(s, id)
            && (s'.commitIndex == s.commitIndex ==> s'.applied == s.applied && s'.lastApplied == s.lastApplied)
            && (s'.commitIndex != s.commitIndex ==>
                  && s'.commitIndex == Median(s'.matchIndex) > s.commitIndex
                  && s'.commitIndex < |s.log| && s.log[s'.commitIndex].term == s.term
                  && s' == UpdateLastApplied(s'.(lastApplied := s.lastApplied, applied := s.applied)))
  {
  }

  lemma SuccessShape(c: Cluster, p: Progress, k: nat)
    requires Enabled(c, HandleAppend(k)) && c.appends[k].phase.reply.success
    requires c.appends[k].phase.reply.term <= c.servers[c.appends[k].src].term
    ensures SuccessEffect(c, p, Apply(c, HandleAppend(k)), Advance(c, p, HandleAppend(k)),
                          c.appends[k].src, c.appends[k].dst)
  {
    var a := c.appends[k];
    OnSuccess(c.servers[a.src], a.dst, a.phase.reply);
  }

  /** The leader handles a success that credits no more than is stored: the states and progress before and after. */
  ghost predicate Succeeding(c: Cluster, h: History, p: Progress, k: nat, c': Cluster, p': Progress) {
    && Inv(c, h) && HonestInv(c, h, p) && k < |c.appends|
    && var a := c.appends[k];
    && a.phase.Answered? && a.phase.reply.success && a.phase.reply.term <= c.servers[a.src].term
    && var s := c.servers[a.src];
    && s.role == Leader && (|s.log| > 1 ==> |s.log| <= Ack(p, s.term, a.dst))
    && SuccessEffect(c, p, c', p', a.src, a.dst)
  }

  lemma NewMatchOk(p: Progress, s: Server, id: nat)
    requires id < |s.matchIndex| && s.me < |s.matchIndex|
    requires forall g: nat :: g < |s.matchIndex| && s.matchIndex[g] > 0 ==> s.matchIndex[g] < Ack(p, s.term, g)
    requires |s.log| > 1 ==> Ack(p, s.term, id) >= |s.log| && Ack(p, s.term, s.me) >= |s.log|
    ensures var m := NewMatchIndex(s, id);
            |m| == |s.matchIndex| && forall g: nat :: g < |m| && m[g] > 0 ==> m[g] < Ack(p, s.term, g)
  {
  }

  /** MatchIndex never runs ahead of what a peer has stored. */
  lemma SuccessMatches(c: Cluster, h: History, p: Progress, k: nat, c': Cluster, p': Progress)
    requires Succeeding(c, h, p, k, c', p')
    ensures var a := c.appends[k];
            var s := c.servers[a.src];
            var m := NewMatchIndex(s, a.dst);
            && s.role == Leader && |m| == s.peers == |c.servers|
            && (forall g: nat :: g < |m| && m[g] > 0 ==> m[g] < Ack(p, s.term, g))
  {
    var a := c.appends[k];
    var s := c.servers[a.src];
    assert WroteOk(h, p, s, a.src) && ServerOk(h, s, a.src);
    NewMatchOk(p, s, a.dst);
  }

  lemma MajorityStored(p: Progress, m: seq<nat>, t: int, N: nat)
    requires |m| > 0 && 0 < N <= Median(m)
    requires forall g: nat :: g < |m| && m[g] > 0 ==> m[g] < Ack(p, t, g)
    ensures Majority(Stored(|m|, p, t, N), |m|)
  {
    MedianIsGreatestMajorityIndex(m, N);
    assert Reached(m, N) <= Stored(|m|, p, t, N);
    MajorityMono(Reached(m, N), Stored(|m|, p, t, N), |m|);
  }

  lemma StoredSame(p: Progress, p': Progress, n: nat, t: int, N: nat)
    requires p'.acked == p.acked
    ensures Stored(n, p', t, N) == Stored(n, p, t, N)
  {
    assert forall f :: Ack(p', t, f) == Ack(p, t, f);
  }

  /** The commit rule picks an index that a majority has stored. */
  lemma SuccessCommits(c: Cluster, h: History, p: Progress, k: nat, c': Cluster, p': Progress)
    requires Succeeding(c, h, p, k, c', p')
    requires c'.servers[c.appends[k].src].commitIndex != c.servers[c.appends[k].src].commitIndex
    ensures var i := c.appends[k].src;
            CommitOk(h, p', c.servers[i].term, c'.servers[i].commitIndex, |c.servers|)
  {
    var i := c.appends[k].src;
    var s, s' := c.servers[i], c'.servers[i];
    assert ServerOk(h, s, i);
    SuccessMatches(c, h, p, k, c', p');
    MajorityStored(p, s'.matchIndex, s.term, s'.commitIndex);
    StoredSame(p, p', |c.servers|, s.term, s'.commitIndex);
  }

  lemma SuccessApplied(c: Cluster, h: History, p: Progress, k: nat, c': Cluster, p': Progress)
    requires Succeeding(c, h, p, k, c', p')
    ensures AppliedOk(h, p', c'.servers[c.appends[k].src], c.appends[k].src)
    ensures c.servers[c.appends[k].src].commitIndex <= c'.servers[c.appends[k].src].commitIndex
  {
    var i := c.appends[k].src;
    var s, s' := c.servers[i], c'.servers[i];
    assert ServerOk(h, s, i) && AppliedOk(h, p, s, i) && WroteOk(h, p, s, i);
    SuccessMatches(c, h, p, k, c', p');
    if s'.commitIndex != s.commitIndex {
      var x := Mark(s.term, s'.commitIndex);
      assert x in p'.commits && BackedBy(h, s'.log, s'.commitIndex, p'.wrote[i], x);
      MessagesJoin(s.log, s.log, s.commitIndex, s'.commitIndex);
    }
  }

  lemma SuccessProgress(c: Cluster, p: Progress, c': Cluster, p': Progress, i: nat)
    requires OthersSame(c, c', i) && c'.servers[i].term == c.servers[i].term
    requires p'.acked == p.acked && p'.wrote == p.wrote && p.commits <= p'.commits
    ensures WritesAt(p, p', i) && Grows(c, p, c', p')
    ensures forall t, f :: Ack(p', t, f) == Ack(p, t, f)
  {
    assert forall t, f :: Ack(p', t, f) == Ack(p, t, f);
  }

  lemma SuccessWrote(h: History, p: Progress, p': Progress, s: Server, s': Server, i: nat)
    requires WroteOk(h, p, s, i) && s.role == Leader
    requires s'.log == s.log && s'.term == s.term && s'.role == s.role && s'.peers == s.peers
    requires p'.acked == p.acked && p'.wrote == p.wrote && |s'.matchIndex| == s.peers
    requires forall g: nat :: g < |s'.matchIndex| && s'.matchIndex[g] > 0 ==> s'.matchIndex[g] < Ack(p, s.term, g)
    ensures WroteOk(h, p', s', i)
  {
    assert forall t, f :: Ack(p', t, f) == Ack(p, t, f);
  }

  lemma SuccessWrites(c: Cluster, h: History, p: Progress, c': Cluster, p': Progress, i: nat, id: nat)
    requires WritesOk(c, h, p) && SuccessEffect(c, p, c', p', i, id)
    requires c.servers[i].role == Leader && |c'.servers[i].matchIndex| == c.servers[i].peers
    requires forall g: nat :: g < |c'.servers[i].matchIndex| && c'.servers[i].matchIndex[g] > 0 ==>
               c'.servers[i].matchIndex[g] < Ack(p, c.servers[i].term, g)
    ensures WritesOk(c', h, p')
  {
    assert WroteOk(h, p, c.servers[i], i);
    SuccessWrote(h, p, p', c.servers[i], c'.servers[i], i);
    SuccessProgress(c, p, c', p', i);
    forall m | 0 <= m < |c'.appends| ensures AnswerOk(p', c'.appends[m]) {
      assert AnswerOk(p, c.appends[m]);
    }
    forall x | x in p'.acked && x.peer == i ensures AckOk(h, p', x, |c.servers|) {
      assert AckOk(h, p, x, |c.servers|);
    }
    WritesKept(c, h, p, c', h, p', i);
  }

  lemma SuccessCommitsOk(c: Cluster, h: History, p: Progress, c': Cluster, p': Progress, i: nat, id: nat)
    requires CommitsOk(c, h, p) && |p.wrote| == |c.servers| && SuccessEffect(c, p, c', p', i, id)
    requires AppliedOk(h, p', c'.servers[i], i)
    requires c'.servers[i].commitIndex != c.servers[i].commitIndex ==>
               CommitOk(h, p', c.servers[i].term, c'.servers[i].commitIndex, |c.servers|)
    ensures CommitsOk(c', h, p')
  {
    SuccessProgress(c, p, c', p', i);
    CommitsKept(c, h, p, c', h, p', i);
  }

  lemma SuccessHonest(c: Cluster, h: History, p: Progress, k: nat, c': Cluster, p': Progress)
    requires Succeeding(c, h, p, k, c', p')
    ensures HonestInv(c', h, p')
  {
    var i, id := c.appends[k].src, c.appends[k].dst;
    SuccessMatches(c, h, p, k, c', p');
    SuccessWrites(c, h, p, c', p', i, id);
    SuccessApplied(c, h, p, k, c', p');
    if c'.servers[i].commitIndex != c.servers[i].commitIndex { SuccessCommits(c, h, p, k, c', p'); }
    SuccessCommitsOk(c, h, p, c', p', i, id);
    SuccessProgress(c, p, c', p', i);
    LeadersKept(c, h, p, c', h, p');
    VotesKept(c, h, p, c', h, p');
  }

  // ---- every honest step, every honest run ----

  lemma {:induction false} InitHonest(n: nat)
    ensures HonestInv(Init(n), History(map[], map[]), Progress(map[], seq(n, _ => 0), {}))
  {
  }

  lemma TimeoutHonest(c: Cluster, h: History, p: Progress, i: nat)
    requires Inv(c, h) && HonestInv(c, h, p) && Enabled(c, Timeout(i))
    ensures HonestInv(Apply(c, Timeout(i)), Record(c, h, Timeout(i)), p)
  {
    AddVoteExtends(h, c.servers[i].term + 1, i, Vote(i, c.servers[i].log));
    QuietKept(c, h, p, Apply(c, Timeout(i)), Record(c, h, Timeout(i)), i);
  }

  lemma DeliverVoteQuiet(c: Cluster, h: History, e: nat, j: nat)
    requires Enabled(c, DeliverVote(e, j))
    ensures Quiet(c, h, Apply(c, DeliverVote(e, j)), Record(c, h, DeliverVote(e, j)), j)
  {
    var a := c.elections[e].args;
    AddVoteExtends(h, a.term, j, Vote(a.candidate, c.servers[j].log));
  }

  lemma HandleVoteQuiet(c: Cluster, h: History, e: nat, j: nat)
    requires Enabled(c, HandleVote(e, j))
    requires var i := c.elections[e].cand;
             Apply(c, HandleVote(e, j)).servers[i].role == Leader ==> c.servers[i].role == Leader
    ensures Quiet(c, h, Apply(c, HandleVote(e, j)), Record(c, h, HandleVote(e, j)), c.elections[e].cand)
  {
  }

  /** Winning is counting the reply and then becoming leader. */
  lemma HandleVoteCrowns(c: Cluster, h: History, p: Progress, e: nat, j: nat)
    requires Inv(c, h) && HonestInv(c, h, p) && Enabled(c, HandleVote(e, j))
    requires var i := c.elections[e].cand;
             Apply(c, HandleVote(e, j)).servers[i].role == Leader && c.servers[i].role != Leader
    ensures var c' := Apply(c, HandleVote(e, j));
            Crowning(c, h, p, c'.elections[e], c.(servers := c'.servers),
                     Record(c, h, HandleVote(e, j)), Advance(c, p, HandleVote(e, j)))
  {
    var el := c.elections[e];
    var s := c.servers[el.cand];
    assert ServerOk(h, s, el.cand) && ElectionOk(h, el, s);
    var count := OnVoteReply(s, el.args.term, el.count, el.calls[j].reply).1;
    CountOk(h, el, s, j, count > el.count);
    assert Apply(c, HandleVote(e, j)).elections[e] == Counted(el, j, count > el.count);
  }

  lemma HandleVoteHonest(c: Cluster, h: History, p: Progress, e: nat, j: nat)
    requires Inv(c, h) && HonestInv(c, h, p) && Enabled(c, HandleVote(e, j))
    ensures HonestInv(Apply(c, HandleVote(e, j)), Record(c, h, HandleVote(e, j)), Advance(c, p, HandleVote(e, j)))
  {
    var c' := Apply(c, HandleVote(e, j));
    var h', p' := Record(c, h, HandleVote(e, j)), Advance(c, p, HandleVote(e, j));
    var i := c.elections[e].cand;
    if c'.servers[i].role == Leader && c.servers[i].role != Leader {
      HandleVoteCrowns(c, h, p, e, j);
      CrownHonest(c, h, p, c'.elections[e], c.(servers := c'.servers), h', p');
      OnlyCalls(c.(servers := c'.servers), c', h', p');
    } else {
      HandleVoteQuiet(c, h, e, j);
      QuietKept(c, h, p, c', h', i);
    }
  }

  lemma DeliverAppendHonest(c: Cluster, h: History, p: Progress, k: nat)
    requires Inv(c, h) && HonestInv(c, h, p) && Enabled(c, DeliverAppend(k)) && Honest(c, p, DeliverAppend(k))
    ensures HonestInv(Apply(c, DeliverAppend(k)), h, Advance(c, p, DeliverAppend(k)))
  {
    var c', p' := Apply(c, DeliverAppend(k)), Advance(c, p, DeliverAppend(k));
    var a := c.appends[k];
    AppendEntriesShape(c.servers[a.dst], a.args);
    if Accepts(c.servers[a.dst], a.args) {
      AcceptHonest(c, h, p, k, c', p');
    } else {
      QuietKept(c, h, p, c', h, a.dst);
    }
  }

  /** A reply that is no success, or a success out of office, writes nothing and commits nothing. */
  lemma QuietReply(c: Cluster, h: History, p: Progress, k: nat)
    requires Enabled(c, HandleAppend(k)) && Honest(c, p, HandleAppend(k))
    requires var a := c.appends[k];
             var s := c.servers[a.src];
             !(a.phase.reply.term <= s.term && a.phase.reply.success && s.role == Leader)
    ensures Quiet(c, h, Apply(c, HandleAppend(k)), h, c.appends[k].src) && Advance(c, p, HandleAppend(k)) == p
  {
    var a := c.appends[k];
    if a.phase.reply.term <= c.servers[a.src].term && a.phase.reply.success {
      OnSuccess(c.servers[a.src], a.dst, a.phase.reply);
    }
  }

  lemma HandleAppendHonest(c: Cluster, h: History, p: Progress, k: nat)
    requires Inv(c, h) && HonestInv(c, h, p) && Enabled(c, HandleAppend(k)) && Honest(c, p, HandleAppend(k))
    ensures HonestInv(Apply(c, HandleAppend(k)), h, Advance(c, p, HandleAppend(k)))
  {
    var c', p' := Apply(c, HandleAppend(k)), Advance(c, p, HandleAppend(k));
    var a := c.appends[k];
    if a.phase.reply.term <= c.servers[a.src].term && a.phase.reply.success && c.servers[a.src].role == Leader {
      SuccessShape(c, p, k);
      SuccessHonest(c, h, p, k, c', p');
    } else {
      QuietReply(c, h, p, k);
      QuietKept(c, h, p, c', h, a.src);
    }
  }

  lemma StepHonest(c: Cluster, h: History, p: Progress, step: Step)
    requires Inv(c, h) && HonestInv(c, h, p) && Enabled(c, step) && Honest(c, p, step)
    ensures HonestInv(Apply(c, step), Record(c, h, step), Advance(c, p, step))
  {
    match step
    case Timeout(i) => TimeoutHonest(c, h, p, i);
    case StartElection(i) => OnlyCalls(c, Apply(c, step), h, p);
    case DeliverVote(e, j) =>
      DeliverVoteQuiet(c, h, e, j);
      QuietKept(c, h, p, Apply(c, step), Record(c, h, step), j);
    case HandleVote(e, j) => HandleVoteHonest(c, h, p, e, j);
    case ClientStart(i, command) => ClientStartHonest(c, h, p, i, command);
    case SendAppend(i, j) => SendAppendHonest(c, h, p, i, j);
    case DeliverAppend(k) => DeliverAppendHonest(c, h, p, k);
    case HandleAppend(k) => HandleAppendHonest(c, h, p, k);
  }

  lemma {:induction false} RunHonest(n: nat, run: seq<Cluster>, steps: seq<Step>, k: nat)
    requires IsHonestRun(n, run, steps) && k <= |steps|
    ensures HonestInv(run[k], HistoryAt(run, steps, k), ProgressAt(n, run, steps, k))
  {
    if k == 0 {
      InitHonest(n);
    } else {
      RunHonest(n, run, steps, k - 1);
      RunInv(n, run, steps, k - 1);
      assert HonestAt(n, run, steps, k - 1);
      StepHonest(run[k - 1], HistoryAt(run, steps, k - 1), ProgressAt(n, run, steps, k - 1), steps[k - 1]);
    }
  }

  lemma StepCommits(c: Cluster, p: Progress, step: Step)
    requires Enabled(c, step)
    ensures p.commits <= Advance(c, p, step).commits
  {
  }

  lemma {:induction false} CommitsGrow(n: nat, run: seq<Cluster>, steps: seq<Step>, k: nat, m: nat)
    requires IsRun(n, run, steps) && k <= m <= |steps|
    ensures ProgressAt(n, run, steps, k).commits <= ProgressAt(n, run, steps, m).commits
    decreases m
  {
    if k < m {
      CommitsGrow(n, run, steps, k, m - 1);
      StepCommits(run[m - 1], ProgressAt(n, run, steps, m - 1), steps[m - 1]);
    }
  }
}
