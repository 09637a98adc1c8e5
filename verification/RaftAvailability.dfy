/** What can always be done: from the end of every run of two or more peers some peer can be elected, and from the
    end of every honest one any command can be committed and applied everywhere. */
module RaftAvailability {
  import opened RaftTypes
  import opened RaftServer
  import opened RaftVoting
  import opened RaftCluster
  import opened RaftHistory
  import opened RaftInvariant
  import opened RaftProgress
  import opened RaftCommit
  import opened RaftRounds
  import opened RaftSafety

  // ---- continuing from a state ----

  /** From c the cluster can go on to c' by rounds and by steps that touch no append. */
  ghost predicate Continues(run: seq<Cluster>, rounds: seq<RoundStep>, c: Cluster, c': Cluster) {
    && |run| == |rounds| + 1 && run[0] == c && run[|rounds|] == c'
    && forall k {:trigger rounds[k]} :: 0 <= k < |rounds| ==>
         RoundEnabled(run[k], rounds[k]) && run[k + 1] == RoundApply(run[k], rounds[k])
  }

  ghost predicate CanReach(c: Cluster, c': Cluster) {
    exists run, rounds :: Continues(run, rounds, c, c')
  }

  lemma ReachSelf(c: Cluster)
    ensures CanReach(c, c)
  {
    assert Continues([c], [], c, c);
  }

  lemma ReachMore(c: Cluster, c': Cluster, b: RoundStep)
    requires CanReach(c, c') && RoundEnabled(c', b)
    ensures CanReach(c, RoundApply(c', b))
  {
    var run, rounds :| Continues(run, rounds, c, c');
    var run', rounds' := run + [RoundApply(c', b)], rounds + [b];
    forall k | 0 <= k < |rounds'|
      ensures RoundEnabled(run'[k], rounds'[k]) && run'[k + 1] == RoundApply(run'[k], rounds'[k])
    {
      if k < |rounds| { assert rounds'[k] == rounds[k]; }
    }
    assert Continues(run', rounds', c, RoundApply(c', b));
  }

  /** The state is one of an honest run. */
  ghost predicate IsHonest(c: Cluster, h: History) {
    exists p :: HonestInv(c, h, p)
  }

  // ---- electing a leader ----

  lemma PlainHonest(c: Cluster, h: History, step: Step)
    requires Inv(c, h) && IsHonest(c, h) && Enabled(c, step)
    requires !step.SendAppend? && !step.DeliverAppend? && !step.HandleAppend?
    ensures IsHonest(Apply(c, step), Record(c, h, step))
  {
    var p :| HonestInv(c, h, p);
    StepHonest(c, h, p, step);
  }

  lemma PlainMove(c0: Cluster, c: Cluster, h: History, step: Step) returns (h': History)
    requires CanReach(c0, c) && Inv(c, h) && Enabled(c, step)
    requires !step.SendAppend? && !step.DeliverAppend? && !step.HandleAppend?
    ensures CanReach(c0, Apply(c, step)) && Inv(Apply(c, step), h')
    ensures IsHonest(c, h) ==> IsHonest(Apply(c, step), h')
  {
    ReachMore(c0, c, Plain(step));
    StepInv(c, h, step);
    if IsHonest(c, h) { PlainHonest(c, h, step); }
    h' := Record(c, h, step);
  }

  /** The peers but i are as before, with their logs, commits and calls. */
  ghost predicate OthersAsBefore(c: Cluster, c': Cluster, i: nat) {
    && |c'.servers| == |c.servers| && c'.appends == c.appends
    && forall g: nat :: g < |c.servers| && g != i ==> c'.servers[g] == c.servers[g]
  }

  /** Peer i times out until it is in term t. */
  lemma {:induction false} Raise(c0: Cluster, c: Cluster, h: History, i: nat, t: nat) returns (c': Cluster, h': History)
    requires CanReach(c0, c) && Inv(c, h) && i < |c.servers| && c.servers[i].term < t
    ensures CanReach(c0, c') && Inv(c', h') && OthersAsBefore(c, c', i) && c'.pending[i] > 0
    ensures c'.servers[i] == c.servers[i].(term := t, role := Candidate, voteFor := c.servers[i].me)
    ensures IsHonest(c, h) ==> IsHonest(c', h')
    decreases t - c.servers[i].term
  {
    h' := PlainMove(c0, c, h, Timeout(i));
    c' := Apply(c, Timeout(i));
    if c'.servers[i].term < t {
      c', h' := Raise(c0, c', h', i, t);
    }
  }

  /** Election e of candidate i, started in state c, has the vote of every peer below j. */
  ghost predicate Asked(c: Cluster, c': Cluster, i: nat, e: nat, j: nat) {
    && |c'.servers| == |c.servers| && c'.appends == c.appends && i < |c.servers| && c'.servers[i] == c.servers[i]
    && e < |c'.elections| && |c'.elections[e].calls| == |c.servers|
    && c'.elections[e].cand == i && c'.elections[e].args == BuildVoteArgs(c.servers[i]) && c'.elections[e].count == 1
    && (forall g: nat :: g < |c.servers| && g != i && g < j ==>
          && c'.servers[g].log == c.servers[g].log && c'.servers[g].term == c.servers[i].term
          && c'.elections[e].calls[g] == Replied(VoteReply(c.servers[i].term, true)))
    && (forall g: nat :: g < |c.servers| && g != i && g >= j ==>
          c'.servers[g] == c.servers[g] && c'.elections[e].calls[g] == Waiting)
  }

  /** Candidate i is ahead of every other peer in term and not behind in its log. */
  ghost predicate Favourite(c: Cluster, i: nat) {
    && i < |c.servers| && c.servers[i].role == Candidate
    && forall g: nat :: g < |c.servers| && g != i ==>
         c.servers[g].term < c.servers[i].term && AtLeast(c.servers[i].log, c.servers[g].log)
  }

  lemma AskOne(c: Cluster, c': Cluster, i: nat, e: nat, j: nat)
    requires Favourite(c, i) && WellFormed(c') && Asked(c, c', i, e, j) && j < |c.servers|
    ensures j == i ==> Asked(c, c', i, e, j + 1)
    ensures j != i ==> Enabled(c', DeliverVote(e, j)) && Asked(c, Apply(c', DeliverVote(e, j)), i, e, j + 1)
  {
    if j != i {
      GrantedExactly(c.servers[j], BuildVoteArgs(c.servers[i]));
    }
  }

  lemma AskStep(c0: Cluster, c: Cluster, cs: Cluster, hs: History, i: nat, e: nat, j: nat)
    returns (c': Cluster, h': History)
    requires CanReach(c0, cs) && Inv(cs, hs) && Favourite(c, i) && Asked(c, cs, i, e, j) && j < |c.servers|
    ensures CanReach(c0, c') && Inv(c', h') && Asked(c, c', i, e, j + 1) && (IsHonest(cs, hs) ==> IsHonest(c', h'))
  {
    AskOne(c, cs, i, e, j);
    if j == i {
      c', h' := cs, hs;
    } else {
      h' := PlainMove(c0, cs, hs, DeliverVote(e, j));
      c' := Apply(cs, DeliverVote(e, j));
    }
  }

  lemma {:induction false} AskAll(c0: Cluster, c: Cluster, cs: Cluster, hs: History, i: nat, e: nat, j: nat)
    returns (c': Cluster, h': History)
    requires CanReach(c0, cs) && Inv(cs, hs) && Favourite(c, i) && Asked(c, cs, i, e, 0) && j <= |c.servers|
    ensures CanReach(c0, c') && Inv(c', h') && Asked(c, c', i, e, j) && (IsHonest(cs, hs) ==> IsHonest(c', h'))
  {
    c', h' := cs, hs;
    if j > 0 {
      c', h' := AskAll(c0, c, cs, hs, i, e, j - 1);
      c', h' := AskStep(c0, c, c', h', i, e, j - 1);
    }
  }

  /** How many peers below j are not i. */
  function Others(i: nat, j: nat): nat {
    if i < j then j - 1 else j
  }

  /** The replies of the peers below j have been counted, and candidate i leads as soon as they are a majority. */
  ghost predicate CountedUpTo(c: Cluster, c': Cluster, i: nat, e: nat, j: nat) {
    && OthersAsBefore(c, c', i) && i < |c.servers| && e < |c'.elections| && |c'.elections[e].calls| == |c.servers|
    && c'.elections[e].cand == i && c'.elections[e].args.term == c.servers[i].term
    && (forall g: nat :: g < |c.servers| && g != i && g >= j ==>
          c'.elections[e].calls[g] == Replied(VoteReply(c.servers[i].term, true)))
    && (if 1 + Others(i, j) > |c.servers| / 2 then c'.servers[i] == BeLeader(c.servers[i])
        else c'.servers[i] == c.servers[i] && c'.elections[e].count == 1 + Others(i, j))
  }

  lemma CountOne(c: Cluster, c': Cluster, i: nat, e: nat, j: nat)
    requires WellFormed(c) && WellFormed(c') && CountedUpTo(c, c', i, e, j) && j < |c.servers|
    requires c.servers[i].role == Candidate
    ensures j == i ==> CountedUpTo(c, c', i, e, j + 1)
    ensures j != i ==> Enabled(c', HandleVote(e, j)) && CountedUpTo(c, Apply(c', HandleVote(e, j)), i, e, j + 1)
  {
  }

  lemma CountStep(c0: Cluster, c: Cluster, cs: Cluster, hs: History, i: nat, e: nat, j: nat)
    returns (c': Cluster, h': History)
    requires CanReach(c0, cs) && Inv(cs, hs) && WellFormed(c) && CountedUpTo(c, cs, i, e, j) && j < |c.servers|
    requires c.servers[i].role == Candidate
    ensures CanReach(c0, c') && Inv(c', h') && CountedUpTo(c, c', i, e, j + 1)
    ensures IsHonest(cs, hs) ==> IsHonest(c', h')
  {
    CountOne(c, cs, i, e, j);
    if j == i {
      c', h' := cs, hs;
    } else {
      h' := PlainMove(c0, cs, hs, HandleVote(e, j));
      c' := Apply(cs, HandleVote(e, j));
    }
  }

  lemma {:induction false} CountAll(c0: Cluster, c: Cluster, h: History, i: nat, e: nat, j: nat)
    returns (c': Cluster, h': History)
    requires CanReach(c0, c) && Inv(c, h) && CountedUpTo(c, c, i, e, 0) && j <= |c.servers|
    requires c.servers[i].role == Candidate
    ensures CanReach(c0, c') && Inv(c', h') && CountedUpTo(c, c', i, e, j)
    ensures IsHonest(c, h) ==> IsHonest(c', h')
  {
    c', h' := c, h;
    if j > 0 {
      c', h' := CountAll(c0, c, h, i, e, j - 1);
      c', h' := CountStep(c0, c, c', h', i, e, j - 1);
    }
  }

  ghost predicate SameTerm(c: Cluster, i: nat) {
    i < |c.servers| && forall g: nat :: g < |c.servers| ==> c.servers[g].term == c.servers[i].term
  }

  /** Peer i leads, everyone is in its term, and its indices are those of a new leader. */
  ghost predicate NewReign(c: Cluster, i: nat) {
    && i < |c.servers| && c.servers[i].role == Leader && IndicesInLog(c.servers[i])
    && SameTerm(c, i)
  }

  lemma {:induction false} TermAbove(servers: seq<Server>) returns (t: nat)
    ensures forall g :: 0 <= g < |servers| ==> servers[g].term < t
  {
    if servers == [] {
      t := 0;
    } else {
      var m := |servers| - 1;
      t := TermAbove(servers[..m]);
      assert forall g :: 0 <= g < m ==> servers[..m][g] == servers[g];
      if servers[m].term >= t { t := servers[m].term + 1; }
    }
  }

  lemma StartAsking(c: Cluster, i: nat)
    requires WellFormed(c) && Favourite(c, i) && c.pending[i] > 0
    ensures Enabled(c, StartElection(i)) && Asked(c, Apply(c, StartElection(i)), i, |c.elections|, 0)
  {
  }

  lemma StartCounting(c: Cluster, c': Cluster, i: nat, e: nat)
    requires |c.servers| >= 2 && Asked(c, c', i, e, |c.servers|)
    ensures CountedUpTo(c', c', i, e, 0) && SameTerm(c', i)
    ensures |c'.servers| == |c.servers| && c'.servers[i] == c.servers[i]
  {
  }

  lemma Crowned(c: Cluster, c': Cluster, i: nat, e: nat)
    requires WellFormed(c) && CountedUpTo(c, c', i, e, |c.servers|) && |c.servers| >= 2
    requires SameTerm(c, i)
    ensures NewReign(c', i)
  {
  }

  lemma Ask(c0: Cluster, c: Cluster, h: History, i: nat) returns (c': Cluster, h': History)
    requires CanReach(c0, c) && Inv(c, h) && Favourite(c, i) && c.pending[i] > 0
    ensures CanReach(c0, c') && Inv(c', h') && Asked(c, c', i, |c.elections|, |c.servers|)
    ensures IsHonest(c, h) ==> IsHonest(c', h')
  {
    StartAsking(c, i);
    h' := PlainMove(c0, c, h, StartElection(i));
    c', h' := AskAll(c0, c, Apply(c, StartElection(i)), h', i, |c.elections|, |c.servers|);
  }

  lemma CountVotes(c0: Cluster, c: Cluster, cs: Cluster, hs: History, i: nat, e: nat)
    returns (c': Cluster, h': History)
    requires CanReach(c0, cs) && Inv(cs, hs) && Asked(c, cs, i, e, |c.servers|) && |c.servers| >= 2
    requires c.servers[i].role == Candidate
    ensures CanReach(c0, c') && Inv(c', h') && NewReign(c', i) && |c'.servers| == |c.servers|
    ensures IsHonest(cs, hs) ==> IsHonest(c', h')
  {
    StartCounting(c, cs, i, e);
    c', h' := CountToEnd(c0, cs, hs, i, e);
  }

  lemma CountToEnd(c0: Cluster, c: Cluster, h: History, i: nat, e: nat) returns (c': Cluster, h': History)
    requires CanReach(c0, c) && Inv(c, h) && CountedUpTo(c, c, i, e, 0) && SameTerm(c, i) && |c.servers| >= 2
    requires c.servers[i].role == Candidate
    ensures CanReach(c0, c') && Inv(c', h') && NewReign(c', i) && |c'.servers| == |c.servers|
    ensures IsHonest(c, h) ==> IsHonest(c', h')
  {
    c', h' := CountAll(c0, c, h, i, e, |c.servers|);
    Crowned(c, c', i, e);
  }

  /** The favourite asks everyone, everyone says yes, and it leads. */
  lemma Win(c0: Cluster, c: Cluster, h: History, i: nat) returns (c': Cluster, h': History)
    requires CanReach(c0, c) && Inv(c, h) && Favourite(c, i) && c.pending[i] > 0 && |c.servers| >= 2
    ensures CanReach(c0, c') && Inv(c', h') && NewReign(c', i) && |c'.servers| == |c.servers|
    ensures IsHonest(c, h) ==> IsHonest(c', h')
  {
    c', h' := Ask(c0, c, h, i);
    c', h' := CountVotes(c0, c, c', h', i, |c.elections|);
  }

  /** From every state some peer can come to lead a new term with everyone else in that term. */
  lemma ElectSomeone(c0: Cluster, c: Cluster, h: History) returns (c': Cluster, h': History, i: nat)
    requires CanReach(c0, c) && Inv(c, h) && |c.servers| >= 2
    ensures CanReach(c0, c') && Inv(c', h') && NewReign(c', i) && |c'.servers| == |c.servers|
    ensures IsHonest(c, h) ==> IsHonest(c', h')
  {
    i := BestPeer(c.servers);
    var t := TermAbove(c.servers);
    c', h' := Raise(c0, c, h, i, t);
    assert Favourite(c', i);
    c', h' := Win(c0, c', h', i);
  }

  /** Every run of two or more peers, whatever has happened in it, can be continued so that a peer leads. */
  lemma LeaderCanBeElected(n: nat, run: seq<Cluster>, steps: seq<Step>) returns (c: Cluster, i: nat)
    requires IsRun(n, run, steps) && n >= 2
    ensures CanReach(run[|steps|], c) && i < |c.servers| && c.servers[i].role == Leader
    ensures forall g: nat :: g < |c.servers| ==> c.servers[g].term == c.servers[i].term
  {
    RunInv(n, run, steps, |steps|);
    RunSize(n, run, steps, |steps|);
    ReachSelf(run[|steps|]);
    var h;
    c, h, i := ElectSomeone(run[|steps|], run[|steps|], HistoryAt(run, steps, |steps|));
  }

  lemma SingleStep(c: Cluster, h: History, step: Step)
    requires Inv(c, h) && Enabled(c, step) && |c.servers| == 1 && c.servers[0].role != Leader
    ensures |Apply(c, step).servers| == 1 && Apply(c, step).servers[0].role != Leader
  {
    NoVoteReply(c, h, step);
    NotCrowned(c, step);
  }

  lemma SingleStart()
    ensures |Init(1).servers| == 1 && Init(1).servers[0].role != Leader
  {
  }

  /** A single peer never leads: it asks nobody, and only a reply can make it leader. */
  lemma {:induction false} SinglePeerNeverLeads(run: seq<Cluster>, steps: seq<Step>, k: nat)
    requires IsRun(1, run, steps) && k <= |steps|
    ensures |run[k].servers| == 1 && run[k].servers[0].role != Leader
  {
    if k == 0 {
      SingleStart();
    } else {
      SinglePeerNeverLeads(run, steps, k - 1);
      SingleStepInRun(run, steps, k - 1);
    }
  }

  lemma SingleStepInRun(run: seq<Cluster>, steps: seq<Step>, k: nat)
    requires IsRun(1, run, steps) && k < |steps| && |run[k].servers| == 1 && run[k].servers[0].role != Leader
    ensures |run[k + 1].servers| == 1 && run[k + 1].servers[0].role != Leader
  {
    RunInv(1, run, steps, k);
    SingleStep(run[k], HistoryAt(run, steps, k), steps[k]);
  }

  lemma NoVoteReply(c: Cluster, h: History, step: Step)
    requires Inv(c, h) && |c.servers| == 1 && Enabled(c, step)
    ensures !step.HandleVote?
  {
    assert forall e :: 0 <= e < |c.elections| ==> ElectionOk(h, c.elections[e], c.servers[c.elections[e].cand]);
  }

  lemma NotCrowned(c: Cluster, step: Step)
    requires Enabled(c, step) && !step.HandleVote? && |c.servers| == 1 && c.servers[0].role != Leader
    ensures |Apply(c, step).servers| == 1 && Apply(c, step).servers[0].role != Leader
  {
  }
}
