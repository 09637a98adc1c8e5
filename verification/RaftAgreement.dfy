/** From the end of every honest run of two or more peers, any command can be committed and applied everywhere. */
module RaftAgreement {
  import opened RaftTypes
  import opened RaftServer
  import opened RaftCluster
  import opened RaftHistory
  import opened RaftInvariant
  import opened RaftProgress
  import opened RaftCommit
  import opened RaftHonest
  import opened RaftRounds
  import opened RaftSafety
  import opened RaftAvailability
  import opened Quorum
  import B = RaftBacktrack

  // ---- a round, as an exchange between two peers ----

  lemma AllLogsMatch(c: Cluster, h: History, i: nat, j: nat)
    requires Inv(c, h) && i < |c.servers| && j < |c.servers|
    ensures B.LogsMatch(c.servers[i].log, c.servers[j].log)
  {
    var l, m := c.servers[i].log, c.servers[j].log;
    assert ServerOk(h, c.servers[i], i) && ServerOk(h, c.servers[j], j);
    forall k | 0 <= k < |l| && k < |m| && l[k].term == m[k].term ensures l[..k + 1] == m[..k + 1] {
      LogsMatch(h, l, m, k);
    }
  }

  /** Leader i can carry out a round with j, and the round is an exchange between the two. */
  lemma RoundIsExchange(c: Cluster, i: nat, j: nat)
    requires WellFormed(c) && i < |c.servers| && j < |c.servers| && i != j
    requires B.CanExchange(c.servers[i], c.servers[j], j)
    ensures RoundEnabled(c, Round(i, j, Completed))
    ensures var c' := RoundApply(c, Round(i, j, Completed));
            var (l', f', ok) := B.Exchange(c.servers[i], c.servers[j], j);
            && |c'.servers| == |c.servers| && c'.servers[i] == l' && c'.servers[j] == f'
            && forall g: nat :: g < |c.servers| && g != i && g != j ==> c'.servers[g] == c.servers[g]
  {
    MedianInLog(c.servers[i], j);
    DeliveredLeader(c, i, j);
  }

  lemma RoundSent(c: Cluster, h: History, p: Progress, i: nat, j: nat)
    requires Inv(c, h) && HonestInv(c, h, p) && Enabled(c, SendAppend(i, j))
    ensures var c1 := Apply(c, SendAppend(i, j));
            && Inv(c1, h) && HonestInv(c1, h, p)
            && Enabled(c1, DeliverAppend(|c.appends|)) && Timely(c1, DeliverAppend(|c.appends|))
  {
    SendEnables(c, i, j);
    StepInv(c, h, SendAppend(i, j));
    StepHonest(c, h, p, SendAppend(i, j));
    RoundRequestTimely(c, h, i, j);
  }

  lemma RoundDelivered(c: Cluster, h: History, p: Progress, k: nat)
    requires Inv(c, h) && HonestInv(c, h, p) && Enabled(c, DeliverAppend(k)) && Timely(c, DeliverAppend(k))
    ensures Inv(Apply(c, DeliverAppend(k)), h) && IsHonest(Apply(c, DeliverAppend(k)), h)
  {
    TimelyIsHonest(c, h, p, DeliverAppend(k));
    StepInv(c, h, DeliverAppend(k));
    StepHonest(c, h, p, DeliverAppend(k));
  }

  lemma RoundToDelivered(c: Cluster, h: History, i: nat, j: nat)
    requires Inv(c, h) && IsHonest(c, h) && Enabled(c, SendAppend(i, j))
    ensures Inv(Delivered(c, i, j), h) && IsHonest(Delivered(c, i, j), h)
  {
    var p :| HonestInv(c, h, p);
    RoundSent(c, h, p, i, j);
    RoundDelivered(Apply(c, SendAppend(i, j)), h, p, |c.appends|);
  }

  lemma RoundToEnd(c: Cluster, h: History, k: nat)
    requires Inv(c, h) && IsHonest(c, h) && Enabled(c, HandleAppend(k)) && Timely(c, HandleAppend(k))
    ensures Inv(Apply(c, HandleAppend(k)), h) && IsHonest(Apply(c, HandleAppend(k)), h)
  {
    var p :| HonestInv(c, h, p);
    RoundHandled(c, h, p, k);
  }

  lemma RoundHonest(c: Cluster, h: History, i: nat, j: nat)
    requires Inv(c, h) && IsHonest(c, h) && RoundEnabled(c, Round(i, j, Completed))
    ensures var c' := RoundApply(c, Round(i, j, Completed));
            Inv(c', h) && IsHonest(c', h)
  {
    var d, k := Delivered(c, i, j), |c.appends|;
    RoundToDelivered(c, h, i, j);
    RoundReplyTimely(c, i, j);
    RoundToEnd(d, h, k);
    RoundEnd(c, i, j);
  }

  lemma RoundEnd(c: Cluster, i: nat, j: nat)
    requires RoundEnabled(c, Round(i, j, Completed))
    ensures RoundApply(c, Round(i, j, Completed)) == Apply(Delivered(c, i, j), HandleAppend(|c.appends|))
  {
  }

  lemma RoundHandled(c: Cluster, h: History, p: Progress, k: nat)
    requires Inv(c, h) && HonestInv(c, h, p) && Enabled(c, HandleAppend(k)) && Timely(c, HandleAppend(k))
    ensures Inv(Apply(c, HandleAppend(k)), h) && IsHonest(Apply(c, HandleAppend(k)), h)
  {
    TimelyIsHonest(c, h, p, HandleAppend(k));
    StepInv(c, h, HandleAppend(k));
    StepHonest(c, h, p, HandleAppend(k));
  }

  // ---- bringing followers up to date ----

  /** Peer i leads term t with log l, everyone is in that term, and every message can be built. */
  ghost predicate Reign(c: Cluster, i: nat, t: nat, l: Log) {
    && i < |c.servers| && c.servers[i].role == Leader && c.servers[i].log == l && IndicesInLog(c.servers[i])
    && (forall g: nat :: g < |c.servers| ==> c.servers[g].term == t)
  }

  /** Peer g has the leader's log, and the leader knows. */
  ghost predicate Synced(c: Cluster, i: nat, g: nat) {
    && i < |c.servers| && g < |c.servers| && c.servers[g].log == c.servers[i].log
    && var s := c.servers[i];
    && g < |s.matchIndex| && g < |s.nextIndex| && s.matchIndex[g] == |s.log| - 1 && s.nextIndex[g] == |s.log|
  }

  lemma ReplyRest(l: Server, id: nat, r: AppendReply)
    requires IndicesBelow(l) && id < l.peers && r.term <= l.term && CanHandleAppendReply(l, id, r)
    ensures var l' := OnAppendReply(l, id, r);
            && IndicesBelow(l') && l'.me == l.me && l'.peers == l.peers && l'.term == l.term
            && forall g: nat :: g < l.peers && g != id ==>
                 l'.nextIndex[g] == l.nextIndex[g] && (g != l.me ==> l'.matchIndex[g] == l.matchIndex[g])
  {
  }

  /** What an exchange leaves alone. */
  lemma ExchangeRest(l: Server, f: Server, id: nat)
    requires B.CanExchange(l, f, id) && f.term == l.term
    ensures var (l', f', ok) := B.Exchange(l, f, id);
            && IndicesBelow(l') && l'.me == l.me && l'.peers == l.peers && l'.term == l.term && f'.term == l.term
            && forall g: nat :: g < l.peers && g != id ==>
                 l'.nextIndex[g] == l.nextIndex[g] && (g != l.me ==> l'.matchIndex[g] == l.matchIndex[g])
  {
    var a := BuildAppendArgs(l, id);
    AppendEntriesShape(f, a);
    MedianInLog(l, id);
    ReplyRest(l, id, AppendEntries(f, a).1);
  }

  lemma ExchangeIndices(l: Server, f: Server, id: nat)
    requires B.CanExchange(l, f, id) && f.term == l.term
    ensures IndicesInLog(B.Exchange(l, f, id).0)
  {
    B.ExchangeStep(l, f, id);
    ExchangeRest(l, f, id);
  }

  /** The other peers, and what leader i knows of them, are as before. */
  ghost predicate RestAsBefore(c: Cluster, c': Cluster, i: nat, j: nat) {
    && i < |c.servers| && |c'.servers| == |c.servers|
    && (forall g: nat :: g < |c.servers| && g != i && g != j ==> c'.servers[g] == c.servers[g])
    && var s, s' := c.servers[i], c'.servers[i];
    && |s.matchIndex| == |s'.matchIndex| && |s.nextIndex| == |s'.nextIndex| && s'.log == s.log
    && (forall g: nat :: g < |s.matchIndex| && g != i && g != j ==> s'.matchIndex[g] == s.matchIndex[g])
    && (forall g: nat :: g < |s.nextIndex| && g != i && g != j ==> s'.nextIndex[g] == s.nextIndex[g])
  }

  lemma RoundFacts(c: Cluster, h: History, i: nat, j: nat, t: nat, l: Log)
    requires Inv(c, h) && Reign(c, i, t, l) && j < |c.servers| && i != j
    ensures B.CanExchange(c.servers[i], c.servers[j], j) && RoundEnabled(c, Round(i, j, Completed))
    ensures var c' := RoundApply(c, Round(i, j, Completed));
            var (l', f', ok) := B.Exchange(c.servers[i], c.servers[j], j);
            && Reign(c', i, t, l) && RestAsBefore(c, c', i, j) && c'.servers[i] == l' && c'.servers[j] == f'
            && (ok ==> Synced(c', i, j))
            && (!ok ==> j < |l'.nextIndex| && l'.nextIndex[j] < c.servers[i].nextIndex[j])
  {
    AllLogsMatch(c, h, i, j);
    RoundIsExchange(c, i, j);
    B.ExchangeStep(c.servers[i], c.servers[j], j);
    ExchangeRest(c.servers[i], c.servers[j], j);
    ExchangeIndices(c.servers[i], c.servers[j], j);
  }

  /** One round between leader i and peer j. */
  lemma OneRound(c0: Cluster, c: Cluster, h: History, i: nat, j: nat, t: nat, l: Log) returns (c': Cluster, ok: bool)
    requires CanReach(c0, c) && Inv(c, h) && IsHonest(c, h) && Reign(c, i, t, l) && j < |c.servers| && i != j
    ensures CanReach(c0, c') && Inv(c', h) && IsHonest(c', h) && Reign(c', i, t, l) && RestAsBefore(c, c', i, j)
    ensures B.CanExchange(c.servers[i], c.servers[j], j)
    ensures (c'.servers[i], c'.servers[j], ok) == B.Exchange(c.servers[i], c.servers[j], j)
    ensures ok ==> Synced(c', i, j)
    ensures !ok ==> j < |c'.servers[i].nextIndex| && c'.servers[i].nextIndex[j] < c.servers[i].nextIndex[j]
  {
    RoundFacts(c, h, i, j, t, l);
    RoundHonest(c, h, i, j);
    ReachMore(c0, c, Round(i, j, Completed));
    c', ok := RoundApply(c, Round(i, j, Completed)), B.Exchange(c.servers[i], c.servers[j], j).2;
  }

  /** Rounds with peer j until it has the leader's log. */
  lemma {:induction false} Sync(c0: Cluster, c: Cluster, h: History, i: nat, j: nat, t: nat, l: Log)
    returns (c': Cluster)
    requires CanReach(c0, c) && Inv(c, h) && IsHonest(c, h) && Reign(c, i, t, l) && j < |c.servers| && i != j
    ensures CanReach(c0, c') && Inv(c', h) && IsHonest(c', h) && Reign(c', i, t, l) && RestAsBefore(c, c', i, j)
    ensures Synced(c', i, j)
    decreases c.servers[i].nextIndex[j]
  {
    var ok;
    c', ok := OneRound(c0, c, h, i, j, t, l);
    if !ok { c' := Sync(c0, c', h, i, j, t, l); }
  }

  ghost predicate SyncedBelow(c: Cluster, i: nat, j: nat) {
    forall g: nat :: g < j && g != i ==> Synced(c, i, g)
  }

  lemma {:induction false} SyncAll(c0: Cluster, c: Cluster, h: History, i: nat, j: nat, t: nat, l: Log)
    returns (c': Cluster)
    requires CanReach(c0, c) && Inv(c, h) && IsHonest(c, h) && Reign(c, i, t, l) && j <= |c.servers|
    ensures CanReach(c0, c') && Inv(c', h) && IsHonest(c', h) && Reign(c', i, t, l) && |c'.servers| == |c.servers|
    ensures SyncedBelow(c', i, j)
  {
    c' := c;
    if j > 0 {
      c' := SyncAll(c0, c, h, i, j - 1, t, l);
      c' := SyncNext(c0, c', h, i, j - 1, t, l);
    }
  }

  lemma SyncNext(c0: Cluster, c: Cluster, h: History, i: nat, j: nat, t: nat, l: Log) returns (c': Cluster)
    requires CanReach(c0, c) && Inv(c, h) && IsHonest(c, h) && Reign(c, i, t, l) && j < |c.servers|
    requires SyncedBelow(c, i, j)
    ensures CanReach(c0, c') && Inv(c', h) && IsHonest(c', h) && Reign(c', i, t, l) && |c'.servers| == |c.servers|
    ensures SyncedBelow(c', i, j + 1)
  {
    c' := c;
    if j != i {
      c' := Sync(c0, c, h, i, j, t, l);
      SyncedStays(c, c', i, j);
    }
  }

  lemma SyncedStays(c: Cluster, c': Cluster, i: nat, j: nat)
    requires SyncedBelow(c, i, j) && RestAsBefore(c, c', i, j) && Synced(c', i, j)
    ensures SyncedBelow(c', i, j + 1)
  {
    forall g: nat | g < j + 1 && g != i ensures Synced(c', i, g) {
      if g < j { assert Synced(c, i, g); }
    }
  }

  // ---- committing and spreading the commit ----

  /** An exchange between two peers that agree already passes on what the leader has committed. */
  lemma AgreedExchange(l: Server, f: Server, id: nat)
    requires B.CanExchange(l, f, id) && f.log == l.log && l.nextIndex[id] == |l.log|
    requires l.commitIndex < |l.log| && f.commitIndex < |l.log|
    ensures var (l', f', ok) := B.Exchange(l, f, id);
            && ok && f'.commitIndex == (if l.commitIndex > f.commitIndex then l.commitIndex else f.commitIndex)
            && l'.commitIndex >= l.commitIndex
  {
    MedianInLog(l, id);
  }

  lemma AllMatched(l: Server, id: nat)
    requires id < l.peers && l.me < l.peers && KnowsAll(l)
    ensures Median(NewMatchIndex(l, id)) == |l.log| - 1
  {
    var m := NewMatchIndex(l, id);
    assert forall g: nat :: g < |m| ==> m[g] == |l.log| - 1;
    MedianIsGreatestMajorityIndex(m, |l.log| - 1);
    MedianIsGreatestMajorityIndex(m, |l.log|);
    assert Reached(m, |l.log| - 1) == Peers(|m|);
    assert Reached(m, |l.log|) == {};
  }

  /** If all have the leader's log and its last entry is of its term, the next exchange commits everything. */
  lemma CommittingExchange(l: Server, f: Server, id: nat)
    requires B.CanExchange(l, f, id) && f.log == l.log && l.nextIndex[id] == |l.log| && l.commitIndex < |l.log|
    requires Last(l.log).term == l.term && KnowsAll(l)
    ensures B.Exchange(l, f, id).0.commitIndex == |l.log| - 1
  {
    MedianInLog(l, id);
    AllMatched(l, id);
  }

  /** Everything up to the end of its log is committed at peer g. */
  ghost predicate AllCommitted(c: Cluster, g: nat) {
    g < |c.servers| && c.servers[g].commitIndex == |c.servers[g].log| - 1
  }

  lemma HonestCommit(c: Cluster, h: History, g: nat)
    requires IsHonest(c, h) && g < |c.servers|
    ensures var s := c.servers[g];
            s.commitIndex < |s.log| && s.applied == Messages(s.log, 0, s.commitIndex)
  {
    var p :| HonestInv(c, h, p);
    assert AppliedOk(h, p, c.servers[g], g);
  }

  /** A round after everyone is synced: the leader commits its whole log. */
  lemma CommitRound(c0: Cluster, c: Cluster, h: History, i: nat, j: nat, t: nat, l: Log) returns (c': Cluster)
    requires CanReach(c0, c) && Inv(c, h) && IsHonest(c, h) && Reign(c, i, t, l) && j < |c.servers| && i != j
    requires SyncedBelow(c, i, |c.servers|) && Last(l).term == t
    ensures CanReach(c0, c') && Inv(c', h) && IsHonest(c', h) && Reign(c', i, t, l) && |c'.servers| == |c.servers|
    ensures SyncedBelow(c', i, |c.servers|) && AllCommitted(c', i)
  {
    var ok;
    c', ok := OneRound(c0, c, h, i, j, t, l);
    CommitEffect(c, h, i, j);
    StillSynced(c, c', i, j);
  }

  lemma CommitEffect(c: Cluster, h: History, i: nat, j: nat)
    requires WellFormed(c) && IsHonest(c, h) && i < |c.servers| && j < |c.servers| && i != j
    requires B.CanExchange(c.servers[i], c.servers[j], j) && SyncedBelow(c, i, |c.servers|)
    requires Last(c.servers[i].log).term == c.servers[i].term
    ensures var (l', f', ok) := B.Exchange(c.servers[i], c.servers[j], j);
            ok && l'.commitIndex == |c.servers[i].log| - 1
  {
    assert Synced(c, i, j);
    HonestCommit(c, h, i);
    HonestCommit(c, h, j);
    AgreedExchange(c.servers[i], c.servers[j], j);
    LeaderKnows(c, i);
    CommittingExchange(c.servers[i], c.servers[j], j);
  }

  /** The leader knows that everyone else has its whole log. */
  ghost predicate KnowsAll(s: Server) {
    |s.matchIndex| == s.peers && forall g: nat :: g < s.peers && g != s.me ==> s.matchIndex[g] == |s.log| - 1
  }

  lemma LeaderKnows(c: Cluster, i: nat)
    requires WellFormed(c) && i < |c.servers| && SyncedBelow(c, i, |c.servers|)
    requires |c.servers[i].matchIndex| == c.servers[i].peers
    ensures KnowsAll(c.servers[i])
  {
    var s := c.servers[i];
    assert s.me == i && s.peers == |c.servers|;
    forall g: nat | g < s.peers && g != s.me ensures s.matchIndex[g] == |s.log| - 1 {
      assert Synced(c, i, g);
    }
  }

  lemma StillSynced(c: Cluster, c': Cluster, i: nat, j: nat)
    requires SyncedBelow(c, i, |c.servers|) && RestAsBefore(c, c', i, j) && Synced(c', i, j)
    ensures SyncedBelow(c', i, |c.servers|)
  {
    forall g: nat | g < |c.servers| && g != i ensures Synced(c', i, g) {
      if g != j { assert Synced(c, i, g); }
    }
  }

  ghost predicate CommittedBelow(c: Cluster, i: nat, j: nat) {
    AllCommitted(c, i) && forall g: nat :: g < j ==> AllCommitted(c, g)
  }

  lemma SpreadOne(c0: Cluster, c: Cluster, h: History, i: nat, j: nat, t: nat, l: Log) returns (c': Cluster)
    requires CanReach(c0, c) && Inv(c, h) && IsHonest(c, h) && Reign(c, i, t, l) && j < |c.servers|
    requires SyncedBelow(c, i, |c.servers|) && CommittedBelow(c, i, j)
    ensures CanReach(c0, c') && Inv(c', h) && IsHonest(c', h) && Reign(c', i, t, l) && |c'.servers| == |c.servers|
    ensures SyncedBelow(c', i, |c.servers|) && CommittedBelow(c', i, j + 1)
  {
    if j == i {
      c' := c;
      CommittedSelf(c, i);
    } else {
      assert Synced(c, i, j);
      c' := SpreadTo(c0, c, h, i, j, t, l);
      SpreadKeeps(c, c', i, j);
    }
  }

  lemma CommittedSelf(c: Cluster, i: nat)
    requires CommittedBelow(c, i, i)
    ensures CommittedBelow(c, i, i + 1)
  {
  }

  lemma SpreadKeeps(c: Cluster, c': Cluster, i: nat, j: nat)
    requires SyncedBelow(c, i, |c.servers|) && CommittedBelow(c, i, j) && RestAsBefore(c, c', i, j)
    requires Synced(c', i, j) && AllCommitted(c', i) && AllCommitted(c', j)
    ensures SyncedBelow(c', i, |c.servers|) && CommittedBelow(c', i, j + 1)
  {
    StillSynced(c, c', i, j);
    CommittedStays(c, c', i, j);
  }

  lemma SpreadTo(c0: Cluster, c: Cluster, h: History, i: nat, j: nat, t: nat, l: Log) returns (c': Cluster)
    requires CanReach(c0, c) && Inv(c, h) && IsHonest(c, h) && Reign(c, i, t, l) && j < |c.servers| && i != j
    requires Synced(c, i, j) && AllCommitted(c, i)
    ensures CanReach(c0, c') && Inv(c', h) && IsHonest(c', h) && Reign(c', i, t, l) && RestAsBefore(c, c', i, j)
    ensures Synced(c', i, j) && AllCommitted(c', i) && AllCommitted(c', j)
  {
    var ok;
    c', ok := OneRound(c0, c, h, i, j, t, l);
    SpreadEffect(c, h, i, j);
    HonestCommit(c', h, i);
  }

  lemma SpreadEffect(c: Cluster, h: History, i: nat, j: nat)
    requires IsHonest(c, h) && i < |c.servers| && j < |c.servers| && i != j && AllCommitted(c, i) && Synced(c, i, j)
    requires B.CanExchange(c.servers[i], c.servers[j], j)
    ensures var (l', f', ok) := B.Exchange(c.servers[i], c.servers[j], j);
            ok && f'.commitIndex == |c.servers[i].log| - 1 && l'.commitIndex >= |c.servers[i].log| - 1
  {
    HonestCommit(c, h, i);
    HonestCommit(c, h, j);
    AgreedExchange(c.servers[i], c.servers[j], j);
  }

  lemma CommittedStays(c: Cluster, c': Cluster, i: nat, j: nat)
    requires CommittedBelow(c, i, j) && RestAsBefore(c, c', i, j) && AllCommitted(c', i) && AllCommitted(c', j)
    ensures CommittedBelow(c', i, j + 1)
  {
    forall g: nat | g < j + 1 ensures AllCommitted(c', g) {
      if g != i && g != j { assert AllCommitted(c, g); }
    }
  }

  lemma {:induction false} SpreadAll(c0: Cluster, c: Cluster, h: History, i: nat, j: nat, t: nat, l: Log)
    returns (c': Cluster)
    requires CanReach(c0, c) && Inv(c, h) && IsHonest(c, h) && Reign(c, i, t, l) && j <= |c.servers|
    requires SyncedBelow(c, i, |c.servers|) && AllCommitted(c, i)
    ensures CanReach(c0, c') && Inv(c', h) && IsHonest(c', h) && Reign(c', i, t, l) && |c'.servers| == |c.servers|
    ensures SyncedBelow(c', i, |c.servers|) && CommittedBelow(c', i, j)
  {
    c' := c;
    if j > 0 {
      c' := SpreadAll(c0, c, h, i, j - 1, t, l);
      c' := SpreadOne(c0, c', h, i, j - 1, t, l);
    }
  }

  // ---- the theorem ----

  /** Every peer has applied the log l and nothing else. */
  ghost predicate AllApplied(c: Cluster, l: Log) {
    forall g: nat :: g < |c.servers| ==>
      c.servers[g].log == l && c.servers[g].applied == Messages(l, 0, |l| - 1)
  }

  lemma TakeCommand(c0: Cluster, c: Cluster, h: History, i: nat, command: Command)
    returns (c': Cluster, h': History, t: nat, l: Log)
    requires CanReach(c0, c) && Inv(c, h) && IsHonest(c, h) && NewReign(c, i)
    ensures CanReach(c0, c') && Inv(c', h') && IsHonest(c', h') && |c'.servers| == |c.servers|
    ensures Reign(c', i, t, l) && |l| >= 2 && Last(l) == Entry(t, command)
  {
    t := c.servers[i].term;
    l := c.servers[i].log + [Entry(t, command)];
    CommandReign(c, i, command, t, l);
    h' := PlainMove(c0, c, h, ClientStart(i, command));
    c' := Apply(c, ClientStart(i, command));
  }

  lemma CommandReign(c: Cluster, i: nat, command: Command, t: nat, l: Log)
    requires WellFormed(c) && NewReign(c, i) && t == c.servers[i].term && l == c.servers[i].log + [Entry(t, command)]
    ensures Enabled(c, ClientStart(i, command)) && |Apply(c, ClientStart(i, command)).servers| == |c.servers|
    ensures Reign(Apply(c, ClientStart(i, command)), i, t, l) && |l| >= 2 && Last(l) == Entry(t, command)
  {
  }

  lemma Agreed(c: Cluster, h: History, i: nat, t: nat, l: Log)
    requires IsHonest(c, h) && Reign(c, i, t, l) && SyncedBelow(c, i, |c.servers|)
    requires CommittedBelow(c, i, |c.servers|)
    ensures AllApplied(c, l)
  {
    forall g: nat | g < |c.servers| ensures c.servers[g].log == l && c.servers[g].applied == Messages(l, 0, |l| - 1) {
      HonestCommit(c, h, g);
      assert AllCommitted(c, g);
      if g != i { assert Synced(c, i, g); }
    }
  }

  lemma ReplicateAll(c0: Cluster, c: Cluster, h: History, i: nat, t: nat, l: Log) returns (c': Cluster)
    requires CanReach(c0, c) && Inv(c, h) && IsHonest(c, h) && Reign(c, i, t, l) && |c.servers| >= 2
    requires Last(l).term == t
    ensures CanReach(c0, c') && |c'.servers| == |c.servers| && AllApplied(c', l)
  {
    c' := SyncAll(c0, c, h, i, |c.servers|, t, l);
    c' := CommitRound(c0, c', h, i, if i == 0 then 1 else 0, t, l);
    c' := SpreadAll(c0, c', h, i, |c.servers|, t, l);
    Agreed(c', h, i, t, l);
  }

  lemma AgreeFrom(c0: Cluster, h0: History, command: Command) returns (c: Cluster, l: Log)
    requires Inv(c0, h0) && IsHonest(c0, h0) && |c0.servers| >= 2
    ensures CanReach(c0, c) && |c.servers| == |c0.servers| && AllApplied(c, l)
    ensures |l| >= 2 && Last(l).command == command
  {
    var h, i, t;
    c, h, i, t, l := NewLeaderTakes(c0, h0, command);
    c := ReplicateAll(c0, c, h, i, t, l);
  }

  /** A new leader takes the command. */
  lemma NewLeaderTakes(c0: Cluster, h0: History, command: Command)
    returns (c: Cluster, h: History, i: nat, t: nat, l: Log)
    requires Inv(c0, h0) && IsHonest(c0, h0) && |c0.servers| >= 2
    ensures CanReach(c0, c) && Inv(c, h) && IsHonest(c, h) && |c.servers| == |c0.servers| && Reign(c, i, t, l)
    ensures |l| >= 2 && Last(l) == Entry(t, command)
  {
    var c1, h1;
    c1, h1, i := ElectFrom(c0, h0);
    c, h, t, l := TakeCommand(c0, c1, h1, i, command);
  }

  lemma ElectFrom(c0: Cluster, h0: History) returns (c: Cluster, h: History, i: nat)
    requires Inv(c0, h0) && IsHonest(c0, h0) && |c0.servers| >= 2
    ensures CanReach(c0, c) && Inv(c, h) && IsHonest(c, h) && |c.servers| == |c0.servers| && NewReign(c, i)
  {
    ReachSelf(c0);
    c, h, i := ElectSomeone(c0, c0, h0);
  }

  /** Every honest run of two or more peers can be continued so that any given command is the last entry of
      everyone's log and everyone has applied that whole log, the command last. */
  lemma AgreementCanBeReached(n: nat, run: seq<Cluster>, steps: seq<Step>, command: Command)
    returns (c: Cluster, l: Log)
    requires IsHonestRun(n, run, steps) && n >= 2
    ensures CanReach(run[|steps|], c) && |c.servers| == n && AllApplied(c, l)
    ensures |l| >= 2 && Last(l).command == command
    ensures forall g: nat :: g < n ==>
              |c.servers[g].applied| == |l| - 1 && c.servers[g].applied[|l| - 2] == ApplyMsg(|l| - 1, command)
  {
    RunInv(n, run, steps, |steps|);
    RunSize(n, run, steps, |steps|);
    RunHonest(n, run, steps, |steps|);
    c, l := AgreeFrom(run[|steps|], HistoryAt(run, steps, |steps|), command);
  }
}
