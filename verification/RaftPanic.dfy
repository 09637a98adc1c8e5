/** A run of five peers in which a deposed leader, whose log has been cut, handles an old success and reads its log
    past the end. With fewer peers this cannot happen. */
module RaftPanic {
  import opened RaftTypes
  import opened RaftServer
  import opened RaftCluster
  import opened RaftIndices
  import opened Quorum

  const N := 5

  ghost function End(run: seq<Cluster>): Cluster
    requires |run| > 0
  {
    run[|run| - 1]
  }

  lemma Extend(run: seq<Cluster>, steps: seq<Step>, step: Step) returns (run': seq<Cluster>, steps': seq<Step>)
    requires IsRun(N, run, steps) && Enabled(End(run), step)
    ensures IsRun(N, run', steps') && End(run') == Apply(End(run), step)
    ensures |End(run').servers| == N && WellFormed(End(run'))
  {
    run', steps' := run + [Apply(End(run), step)], steps + [step];
    forall k | 0 <= k < |steps'| ensures Enabled(run'[k], steps'[k]) && run'[k + 1] == Apply(run'[k], steps'[k]) {
      if k < |steps| { assert steps'[k] == steps[k]; }
    }
    RunIndices(N, run', steps', |steps'|);
  }

  /** A peer with nothing in its log, in term t. */
  ghost predicate Blank(s: Server, t: nat) {
    s.log == [SENTINEL] && s.term == t && s.commitIndex == 0
  }

  ghost predicate OthersKept(c: Cluster, c': Cluster, changed: set<nat>) {
    |c'.servers| == |c.servers| == N && forall g: nat :: g < N && g !in changed ==> c'.servers[g] == c.servers[g]
  }

  /** Peer i has asked v and w, and both have said yes. */
  lemma AskTwo(run: seq<Cluster>, steps: seq<Step>, i: nat, v: nat, w: nat)
    returns (run': seq<Cluster>, steps': seq<Step>)
    requires IsRun(N, run, steps) && |End(run).servers| == N && WellFormed(End(run))
    requires i < N && v < N && w < N && i != v && i != w && v != w
    requires var c := End(run);
             Blank(c.servers[i], c.servers[i].term) && Blank(c.servers[v], c.servers[v].term) &&
             Blank(c.servers[w], c.servers[w].term) &&
             c.servers[v].term <= c.servers[i].term && c.servers[w].term <= c.servers[i].term
    ensures IsRun(N, run', steps') && WellFormed(End(run'))
    ensures var c, c' := End(run), End(run');
            && OthersKept(c, c', {i, v, w}) && c'.appends == c.appends
            && c'.servers[i] == BeCandidate(c.servers[i])
            && Blank(c'.servers[v], c.servers[i].term + 1) && Blank(c'.servers[w], c.servers[i].term + 1)
            && |c'.elections| == |c.elections| + 1
            && var el := c'.elections[|c.elections|];
            && el.cand == i && el.args.term == c.servers[i].term + 1 && el.count == 1
            && el.calls[v] == Replied(VoteReply(el.args.term, true))
            && el.calls[w] == Replied(VoteReply(el.args.term, true))
  {
    var e := |End(run).elections|;
    run', steps' := Extend(run, steps, Timeout(i));
    run', steps' := Extend(run', steps', StartElection(i));
    run', steps' := Extend(run', steps', DeliverVote(e, v));
    run', steps' := Extend(run', steps', DeliverVote(e, w));
  }

  /** Peer i wins the next term with the votes of v and w. */
  lemma Elect(run: seq<Cluster>, steps: seq<Step>, i: nat, v: nat, w: nat)
    returns (run': seq<Cluster>, steps': seq<Step>)
    requires IsRun(N, run, steps) && |End(run).servers| == N && WellFormed(End(run))
    requires i < N && v < N && w < N && i != v && i != w && v != w
    requires var c := End(run);
             Blank(c.servers[i], c.servers[i].term) && Blank(c.servers[v], c.servers[v].term) &&
             Blank(c.servers[w], c.servers[w].term) &&
             c.servers[v].term <= c.servers[i].term && c.servers[w].term <= c.servers[i].term
    ensures IsRun(N, run', steps') && WellFormed(End(run'))
    ensures var c, c' := End(run), End(run');
            && OthersKept(c, c', {i, v, w}) && c'.appends == c.appends
            && c'.servers[i] == BeLeader(BeCandidate(c.servers[i]))
            && Blank(c'.servers[v], c.servers[i].term + 1) && Blank(c'.servers[w], c.servers[i].term + 1)
  {
    var e := |End(run).elections|;
    run', steps' := AskTwo(run, steps, i, v, w);
    run', steps' := Extend(run', steps', HandleVote(e, v));
    run', steps' := Extend(run', steps', HandleVote(e, w));
  }

  /** A leader with an empty log, nothing matched and nothing refused. */
  ghost predicate FreshLeader(s: Server, t: nat) {
    && s.role == Leader && Blank(s, t) && s.peers == N
    && s.nextIndex == seq(N, _ => 1) && s.matchIndex == seq(N, _ => 0)
  }

  /** Leader i of term t sends a heartbeat to peer j, which accepts it and answers. */
  lemma Heartbeat(run: seq<Cluster>, steps: seq<Step>, i: nat, j: nat, t: nat)
    returns (run': seq<Cluster>, steps': seq<Step>)
    requires IsRun(N, run, steps) && |End(run).servers| == N && WellFormed(End(run)) && i < N && j < N && i != j
    requires var c := End(run);
             && FreshLeader(c.servers[i], t) && c.servers[j].log[0] == SENTINEL && c.servers[j].term <= t
             && c.servers[j].commitIndex == 0
    ensures IsRun(N, run', steps') && WellFormed(End(run'))
    ensures var c, c' := End(run), End(run');
            && OthersKept(c, c', {j}) && Blank(c'.servers[j], t)
            && c'.servers[j].matchIndex == c.servers[j].matchIndex
            && c'.servers[j].nextIndex == c.servers[j].nextIndex
            && |c'.appends| == |c.appends| + 1 && c'.appends[..|c.appends|] == c.appends
            && c'.appends[|c.appends|].src == i && c'.appends[|c.appends|].dst == j
            && c'.appends[|c.appends|].phase == Answered(AppendReply(t, true))
  {
    var a := |End(run).appends|;
    run', steps' := Extend(run, steps, SendAppend(i, j));
    run', steps' := Extend(run', steps', DeliverAppend(a));
    assert End(run').servers[j].log == [SENTINEL];
  }

  /** The first `m` calls are heartbeats of leader 0 in term 2 that peers 1 to m have accepted. */
  ghost predicate Answers(c: Cluster, m: nat) {
    && |c.appends| == m
    && forall a :: 0 <= a < m ==>
         c.appends[a].src == 0 && c.appends[a].dst == a + 1 && c.appends[a].phase == Answered(AppendReply(2, true))
  }

  lemma Begin() returns (run: seq<Cluster>, steps: seq<Step>)
    ensures IsRun(N, run, steps) && WellFormed(End(run)) && |End(run).servers| == N && End(run).appends == []
    ensures forall g: nat :: g < N ==> End(run).servers[g] == InitServer(g, N)
  {
    run, steps := [Init(N)], [];
  }

  lemma {:induction false} AllAnswer(m: nat) returns (run: seq<Cluster>, steps: seq<Step>)
    requires m <= 4
    ensures IsRun(N, run, steps) && WellFormed(End(run)) && |End(run).servers| == N && Answers(End(run), m)
    ensures FreshLeader(End(run).servers[0], 2)
    ensures forall g: nat :: 1 <= g < N ==>
              Blank(End(run).servers[g], if g <= m || g <= 2 then 2 else 1)
  {
    if m == 0 {
      run, steps := Begin();
      run, steps := Elect(run, steps, 0, 1, 2);
    } else {
      run, steps := AllAnswer(m - 1);
      run, steps := Heartbeat(run, steps, 0, m, 2);
    }
  }

  /** Peer 0 has taken a command, has timed out, and has credited peers 1 to m with that command. */
  ghost predicate Credited(c: Cluster, m: nat) {
    && WellFormed(c) && |c.servers| == N && |c.appends| == 4
    && var s := c.servers[0];
    && s.role == Candidate && s.term == 3 && s.commitIndex == 0 && s.log == [SENTINEL, Entry(2, Op(1))] && Sized(s)
    && (forall g: nat :: 1 <= g < N ==> s.matchIndex[g] == if g <= m then 1 else 0) && s.matchIndex[0] <= 1
    && (forall g: nat :: 1 <= g < N ==> Blank(c.servers[g], 2))
    && forall a :: m <= a < 4 ==>
         c.appends[a].src == 0 && c.appends[a].dst == a + 1 && c.appends[a].phase == Answered(AppendReply(2, true))
  }

  /** A success that is handled out of office credits a peer and cannot commit. */
  lemma CreditOnly(s: Server, id: nat)
    requires Sized(s) && s.me < s.peers && id < s.peers && s.term == 3 && s.commitIndex == 0
    requires s.log == [SENTINEL, Entry(2, Op(1))] && forall g: nat :: g < s.peers ==> s.matchIndex[g] <= 1
    ensures CanHandleAppendReply(s, id, AppendReply(2, true))
    ensures OnAppendReply(s, id, AppendReply(2, true)) ==
            s.(matchIndex := NewMatchIndex(s, id), nextIndex := s.nextIndex[id := 2])
  {
    var m := NewMatchIndex(s, id);
    MedianIsGreatestMajorityIndex(m, 2);
    assert Reached(m, 2) == {};
  }

  lemma Deposed() returns (run: seq<Cluster>, steps: seq<Step>)
    ensures IsRun(N, run, steps) && Credited(End(run), 0)
  {
    run, steps := AllAnswer(4);
    run, steps := Extend(run, steps, ClientStart(0, Op(1)));
    run, steps := Extend(run, steps, Timeout(0));
  }

  lemma {:induction false} CreditedBy(m: nat) returns (run: seq<Cluster>, steps: seq<Step>)
    requires m <= 3
    ensures IsRun(N, run, steps) && Credited(End(run), m)
  {
    if m == 0 {
      run, steps := Deposed();
    } else {
      run, steps := CreditedBy(m - 1);
      CreditOnly(End(run).servers[0], m);
      run, steps := Extend(run, steps, HandleAppend(m - 1));
    }
  }

  /** Peer 4 wins term 3 with an empty log and cuts the log of peer 0. */
  lemma Cut() returns (run: seq<Cluster>, steps: seq<Step>)
    ensures IsRun(N, run, steps) && WellFormed(End(run)) && |End(run).servers| == N && |End(run).appends| == 5
    ensures var s, call := End(run).servers[0], End(run).appends[3];
            && call.src == 0 && call.dst == 4 && call.phase == Answered(AppendReply(2, true))
            && Blank(s, 3) && Sized(s) && forall g: nat :: 1 <= g < 4 ==> s.matchIndex[g] == 1
  {
    run, steps := CreditedBy(3);
    run, steps := Elect(run, steps, 4, 1, 2);
    run, steps := Heartbeat(run, steps, 4, 0, 3);
  }

  /** Peer 0 has an answer that it cannot handle: the median of MatchIndex is 1 and its log has only the sentinel. */
  lemma CutLogPanics() returns (run: seq<Cluster>, steps: seq<Step>)
    ensures IsRun(N, run, steps) && 3 < |End(run).appends| && End(run).appends[3].phase.Answered?
    ensures !Enabled(End(run), HandleAppend(3))
  {
    run, steps := Cut();
    var s := End(run).servers[0];
    ReplyPanicsExactly(N, run, steps, |steps|, 3);
    assert {1, 2, 3} <= Beyond(s, 4);
    SubsetSize({1, 2, 3}, Beyond(s, 4));
  }
}
