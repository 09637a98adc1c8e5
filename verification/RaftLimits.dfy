/** What the code does not promise: runs of three peers in which one call comes late and two peers apply different
    commands at one index, and runs in which a leader's NextIndex leaves its range. */
module RaftLimits {
  import opened RaftTypes
  import opened RaftServer
  import opened RaftCluster
  import opened RaftInvariant
  import opened RaftProgress
  import opened RaftSafety
  import opened Quorum

  // ---- runs that break one guard, and runs that stop a peer ----

  /** A run of three peers in which every step but those in `late` is timely. */
  ghost predicate RunBut(run: seq<Cluster>, steps: seq<Step>, late: set<nat>) {
    && IsRun(3, run, steps)
    && forall k {:trigger steps[k]} :: 0 <= k < |steps| && k !in late ==> Timely(run[k], steps[k])
  }

  ghost function End(run: seq<Cluster>): Cluster
    requires |run| > 0
  {
    run[|run| - 1]
  }

  lemma Extend(run: seq<Cluster>, steps: seq<Step>, late: set<nat>, step: Step)
    returns (run': seq<Cluster>, steps': seq<Step>)
    requires RunBut(run, steps, late) && Enabled(End(run), step) && (Timely(End(run), step) || |steps| in late)
    ensures RunBut(run', steps', late) && End(run') == Apply(End(run), step) && steps' == steps + [step]
    ensures |End(run').servers| == 3 && WellFormed(End(run'))
  {
    run', steps' := run + [Apply(End(run), step)], steps + [step];
    forall k | 0 <= k < |steps'| ensures Enabled(run'[k], steps'[k]) && run'[k + 1] == Apply(run'[k], steps'[k])
    {
      if k < |steps| { assert steps'[k] == steps[k]; }
    }
    forall k | 0 <= k < |steps'| && k !in late ensures Timely(run'[k], steps'[k]) {
      if k < |steps| { assert steps'[k] == steps[k]; }
    }
    RunInv(3, run', steps', |steps'|);
    RunSize(3, run', steps', |steps'|);
  }

  /** Peer i times out, asks peer v and wins with its vote. */
  lemma Elect(run: seq<Cluster>, steps: seq<Step>, late: set<nat>, i: nat, v: nat)
    returns (run': seq<Cluster>, steps': seq<Step>)
    requires RunBut(run, steps, late) && i < 3 && v < 3 && i != v
    requires var c := End(run);
             && |c.servers| == 3 && WellFormed(c) && c.servers[v].term <= c.servers[i].term
             && UpToDate(Last(c.servers[i].log).term, |c.servers[i].log| - 1, c.servers[v].log)
    ensures RunBut(run', steps', late) && |steps'| == |steps| + 4 && steps <= steps'
    ensures var c, c' := End(run), End(run');
            && c'.servers == c.servers[i := BeLeader(BeCandidate(c.servers[i]))]
                                      [v := Persist(BeFollower(c.servers[v], c.servers[i].term + 1).(voteFor := i))]
            && c'.appends == c.appends && WellFormed(c')
  {
    var c := End(run);
    var s := BeCandidate(c.servers[i]);
    run', steps' := Extend(run, steps, late, Timeout(i));
    run', steps' := Extend(run', steps', late, StartElection(i));
    var e := |c.elections|;
    var el := End(run').elections[e];
    assert el.args == BuildVoteArgs(s) && el.count == 1;
    run', steps' := Extend(run', steps', late, DeliverVote(e, v));
    assert End(run').elections[e].calls[v] == Replied(VoteReply(s.term, true));
    run', steps' := Extend(run', steps', late, HandleVote(e, v));
  }

  lemma Begin(late: set<nat>) returns (run: seq<Cluster>, steps: seq<Step>)
    ensures RunBut(run, steps, late) && steps == []
    ensures End(run).servers == [InitServer(0, 3), InitServer(1, 3), InitServer(2, 3)]
    ensures End(run).appends == [] && WellFormed(End(run))
  {
    run, steps := [Init(3)], [];
    assert Init(3).servers == [InitServer(0, 3), InitServer(1, 3), InitServer(2, 3)];
  }

  /** Peer 0 leads term 2 with the vote of peer 1, and nothing else has happened. */
  lemma FirstLeader(late: set<nat>) returns (run: seq<Cluster>, steps: seq<Step>)
    ensures RunBut(run, steps, late) && |steps| == 4
    ensures var c := End(run);
            && c.servers == [BeLeader(BeCandidate(InitServer(0, 3))),
                             Persist(BeFollower(InitServer(1, 3), 2).(voteFor := 0)),
                             InitServer(2, 3)]
            && c.appends == [] && WellFormed(c)
  {
    run, steps := Begin(late);
    run, steps := Elect(run, steps, late, 0, 1);
  }

  lemma MedianOfThree(m: seq<nat>, a: nat, b: nat, v: nat)
    requires |m| == 3 && a < 3 && b < 3 && a != b && m[a] == v && m[b] == v
    ensures Median(m) == v
  {
    assert {a, b} <= Reached(m, v);
    SubsetSize({a, b}, Reached(m, v));
    MedianIsGreatestMajorityIndex(m, v);
    assert Reached(m, v + 1) <= Peers(3) - {a, b};
    SubsetSize(Reached(m, v + 1), Peers(3) - {a, b});
    MedianIsGreatestMajorityIndex(m, v + 1);
  }

  /** A peer that has applied nothing. */
  ghost predicate Fresh(s: Server) {
    s.commitIndex == 0 && s.lastApplied == 0 && s.applied == []
  }

  /** Leader i sends to j, j accepts, and the leader commits and applies its whole log with it. */
  lemma CommitWith(run: seq<Cluster>, steps: seq<Step>, late: set<nat>, i: nat, j: nat, next: nat)
    returns (run': seq<Cluster>, steps': seq<Step>)
    requires RunBut(run, steps, late) && i < 3 && j < 3 && i != j
    requires var c := End(run);
             && |c.servers| == 3 && WellFormed(c)
             && var s, f := c.servers[i], c.servers[j];
             && s.role == Leader && Fresh(s) && |s.nextIndex| == 3 && |s.matchIndex| == 3
             && s.nextIndex[j] == next && 1 <= next <= |s.log| && |s.log| > 1 && Last(s.log).term == s.term
             && f.term == s.term && next - 1 < |f.log| && f.log[next - 1].term == s.log[next - 1].term
             && |f.log| <= |s.log|
    ensures RunBut(run', steps', late) && |steps'| == |steps| + 3 && steps <= steps'
    ensures var c, c' := End(run), End(run');
            && |c'.servers| == 3
            && (forall k :: 0 <= k < 3 && k != i && k != j ==> c'.servers[k] == c.servers[k])
            && c'.servers[i].applied == Messages(c.servers[i].log, 0, |c.servers[i].log| - 1)
  {
    var k := |End(run).appends|;
    run', steps' := Extend(run, steps, late, SendAppend(i, j));
    run', steps' := Extend(run', steps', late, DeliverAppend(k));
    var s := End(run').servers[i];
    MedianOfThree(NewMatchIndex(s, j), i, j, |s.log| - 1);
    run', steps' := Extend(run', steps', late, HandleAppend(k));
  }

  lemma HeartbeatAnswered() returns (run: seq<Cluster>, steps: seq<Step>)
    ensures RunBut(run, steps, {7}) && |steps| == 6
    ensures var c := End(run);
            && |c.servers| == 3 && WellFormed(c) && |c.appends| == 1
            && c.appends[0].src == 0 && c.appends[0].dst == 1
            && c.appends[0].phase == Answered(AppendReply(2, true))
            && c.servers[0] == BeLeader(BeCandidate(InitServer(0, 3)))
            && c.servers[1].log == [SENTINEL] && c.servers[1].term == 2 && Fresh(c.servers[1])
            && c.servers[2] == InitServer(2, 3)
  {
    run, steps := FirstLeader({7});
    run, steps := Extend(run, steps, {7}, SendAppend(0, 1));
    run, steps := Extend(run, steps, {7}, DeliverAppend(0));
  }

  /** Peer 1 has answered a heartbeat of leader 0, which then takes command 7. */
  lemma HeartbeatThenCommand() returns (run: seq<Cluster>, steps: seq<Step>)
    ensures RunBut(run, steps, {7}) && |steps| == 7
    ensures var c := End(run);
            && |c.servers| == 3 && WellFormed(c) && |c.appends| == 1
            && c.appends[0].src == 0 && c.appends[0].dst == 1
            && c.appends[0].phase == Answered(AppendReply(2, true))
            && c.servers[0].log == [SENTINEL, Entry(2, Op(7))]
            && c.servers[0].term == 2 && c.servers[0].role == Leader && Fresh(c.servers[0])
            && |c.servers[0].nextIndex| == 3 && |c.servers[0].matchIndex| == 3
            && c.servers[1].log == [SENTINEL] && c.servers[1].term == 2 && Fresh(c.servers[1])
            && c.servers[2] == InitServer(2, 3)
  {
    run, steps := HeartbeatAnswered();
    run, steps := Extend(run, steps, {7}, ClientStart(0, Op(7)));
  }

  /** A success reply to a heartbeat, handled after the leader has taken a command, counts that command as
      replicated: it is committed and applied although no other peer has it. */
  lemma LateReplyCommits() returns (run: seq<Cluster>, steps: seq<Step>)
    ensures RunBut(run, steps, {7}) && |steps| == 8 && steps[7].HandleAppend?
    ensures var c := End(run);
            && |c.servers| == 3 && WellFormed(c)
            && c.servers[0].applied == [ApplyMsg(1, Op(7))]
            && c.servers[1].log == [SENTINEL] && c.servers[1].term == 2 && Fresh(c.servers[1])
            && c.servers[2] == InitServer(2, 3)
  {
    run, steps := HeartbeatThenCommand();
    MedianOfThree(NewMatchIndex(End(run).servers[0], 1), 0, 1, 1);
    run, steps := Extend(run, steps, {7}, HandleAppend(0));
  }

  /** After that a later leader applies another command at the same index: with one late reply and
      everything else timely, State Machine Safety fails. */
  lemma LateReplyBreaksSafety() returns (run: seq<Cluster>, steps: seq<Step>)
    ensures RunBut(run, steps, {7}) && |steps| == 16 && steps[7].HandleAppend?
    ensures |End(run).servers| == 3
    ensures End(run).servers[0].applied == [ApplyMsg(1, Op(7))]
    ensures End(run).servers[1].applied == [ApplyMsg(1, Op(8))]
  {
    var late := {7};
    run, steps := LateReplyCommits();
    run, steps := Elect(run, steps, late, 1, 2);
    run, steps := Extend(run, steps, late, ClientStart(1, Op(8)));
    run, steps := CommitWith(run, steps, late, 1, 2, 1);
  }

  lemma OneRequest() returns (run: seq<Cluster>, steps: seq<Step>)
    ensures RunBut(run, steps, {10}) && |steps| == 6
    ensures var c := End(run);
            && |c.servers| == 3 && WellFormed(c) && |c.appends| == 1
            && c.appends[0] == AppendCall(0, 1, AppendArgs(2, 0, 0, -1, [Entry(2, Op(1))], 0),
                                          [SENTINEL, Entry(2, Op(1))], Requested)
            && c.servers[0] == Start(BeLeader(BeCandidate(InitServer(0, 3))), Op(1))
            && c.servers[1].log == [SENTINEL] && c.servers[1].term == 2 && Fresh(c.servers[1])
            && c.servers[2] == InitServer(2, 3)
  {
    var late := {10};
    run, steps := FirstLeader(late);
    run, steps := Extend(run, steps, late, ClientStart(0, Op(1)));
    assert End(run).servers[0].log == [SENTINEL, Entry(2, Op(1))];
    run, steps := Extend(run, steps, late, SendAppend(0, 1));
  }

  /** Leader 0 of term 2 sends command 1, and then commands 1 and 2, to peer 1. */
  lemma TwoRequests() returns (run: seq<Cluster>, steps: seq<Step>)
    ensures RunBut(run, steps, {10}) && |steps| == 8
    ensures var c := End(run);
            && |c.servers| == 3 && WellFormed(c) && |c.appends| == 2
            && c.appends[0] == AppendCall(0, 1, AppendArgs(2, 0, 0, -1, [Entry(2, Op(1))], 0),
                                          [SENTINEL, Entry(2, Op(1))], Requested)
            && c.appends[1] == AppendCall(0, 1, AppendArgs(2, 0, 0, -1, [Entry(2, Op(1)), Entry(2, Op(2))], 0),
                                          [SENTINEL, Entry(2, Op(1)), Entry(2, Op(2))], Requested)
            && c.servers[0].log == [SENTINEL, Entry(2, Op(1)), Entry(2, Op(2))]
            && c.servers[0].term == 2 && c.servers[0].role == Leader && Fresh(c.servers[0])
            && |c.servers[0].nextIndex| == 3 && |c.servers[0].matchIndex| == 3
            && c.servers[1].log == [SENTINEL] && c.servers[1].term == 2 && Fresh(c.servers[1])
            && c.servers[2] == InitServer(2, 3)
  {
    var late := {10};
    run, steps := OneRequest();
    assert End(run).servers[0].log == [SENTINEL, Entry(2, Op(1))];
    run, steps := Extend(run, steps, late, ClientStart(0, Op(2)));
    assert End(run).servers[0].log == [SENTINEL, Entry(2, Op(1)), Entry(2, Op(2))];
    run, steps := Extend(run, steps, late, SendAppend(0, 1));
  }

  lemma SecondRequestCommits() returns (run: seq<Cluster>, steps: seq<Step>)
    ensures RunBut(run, steps, {10}) && |steps| == 10
    ensures var c := End(run);
            && |c.servers| == 3 && |c.appends| == 2 && WellFormed(c)
            && c.appends[0] == AppendCall(0, 1, AppendArgs(2, 0, 0, -1, [Entry(2, Op(1))], 0),
                                          [SENTINEL, Entry(2, Op(1))], Requested)
            && c.servers[0].applied == [ApplyMsg(1, Op(1)), ApplyMsg(2, Op(2))]
            && c.servers[1].log == [SENTINEL, Entry(2, Op(1)), Entry(2, Op(2))] && c.servers[1].term == 2
            && Fresh(c.servers[1]) && c.servers[2] == InitServer(2, 3)
  {
    var late := {10};
    run, steps := TwoRequests();
    run, steps := Extend(run, steps, late, DeliverAppend(1));
    assert End(run).servers[1].log == [SENTINEL, Entry(2, Op(1)), Entry(2, Op(2))];
    MedianOfThree(NewMatchIndex(End(run).servers[0], 1), 0, 1, 2);
    run, steps := Extend(run, steps, late, HandleAppend(1));
  }

  /** The second request arrives first and both commands are committed; then the first request arrives and
      cuts command 2 off at peer 1. */
  lemma LateRequestCuts() returns (run: seq<Cluster>, steps: seq<Step>)
    ensures RunBut(run, steps, {10}) && |steps| == 11 && steps[10].DeliverAppend?
    ensures var c := End(run);
            && |c.servers| == 3 && |c.appends| == 2 && WellFormed(c)
            && c.servers[0].applied == [ApplyMsg(1, Op(1)), ApplyMsg(2, Op(2))]
            && c.servers[1].log == [SENTINEL, Entry(2, Op(1))] && c.servers[1].term == 2
            && Fresh(c.servers[1]) && c.servers[2] == InitServer(2, 3)
  {
    run, steps := SecondRequestCommits();
    run, steps := Extend(run, steps, {10}, DeliverAppend(0));
  }

  /** Peer 1 wins term 3 without command 2 and takes another command. */
  lemma LateRequestElects() returns (run: seq<Cluster>, steps: seq<Step>)
    ensures RunBut(run, steps, {10}) && |steps| == 16 && steps[10].DeliverAppend?
    ensures var c := End(run);
            && |c.servers| == 3 && WellFormed(c) && |c.appends| == 2
            && c.servers[0].applied == [ApplyMsg(1, Op(1)), ApplyMsg(2, Op(2))]
            && c.servers[1].log == [SENTINEL, Entry(2, Op(1)), Entry(3, Op(3))] && c.servers[1].term == 3
            && c.servers[1].role == Leader && Fresh(c.servers[1])
            && |c.servers[1].nextIndex| == 3 && |c.servers[1].matchIndex| == 3 && c.servers[1].nextIndex[2] == 2
            && c.servers[2].log == [SENTINEL] && c.servers[2].term == 3
  {
    var late := {10};
    run, steps := LateRequestCuts();
    run, steps := Elect(run, steps, late, 1, 2);
    run, steps := Extend(run, steps, late, ClientStart(1, Op(3)));
  }

  /** Peer 2 refuses once, because its log is too short. */
  lemma LateRequestRefused() returns (run: seq<Cluster>, steps: seq<Step>)
    ensures RunBut(run, steps, {10}) && |steps| == 19 && steps[10].DeliverAppend?
    ensures var c := End(run);
            && |c.servers| == 3 && WellFormed(c)
            && c.servers[0].applied == [ApplyMsg(1, Op(1)), ApplyMsg(2, Op(2))]
            && c.servers[1].log == [SENTINEL, Entry(2, Op(1)), Entry(3, Op(3))] && c.servers[1].term == 3
            && c.servers[1].role == Leader && Fresh(c.servers[1])
            && |c.servers[1].nextIndex| == 3 && |c.servers[1].matchIndex| == 3 && c.servers[1].nextIndex[2] == 1
            && c.servers[2].log == [SENTINEL] && c.servers[2].term == 3
  {
    var late := {10};
    run, steps := LateRequestElects();
    run, steps := Extend(run, steps, late, SendAppend(1, 2));
    run, steps := Extend(run, steps, late, DeliverAppend(2));
    run, steps := Extend(run, steps, late, HandleAppend(2));
  }

  /** With one late request and everything else timely, State Machine Safety fails. */
  lemma LateRequestBreaksSafety() returns (run: seq<Cluster>, steps: seq<Step>)
    ensures RunBut(run, steps, {10}) && |steps| == 22 && steps[10].DeliverAppend?
    ensures |End(run).servers| == 3
    ensures End(run).servers[0].applied == [ApplyMsg(1, Op(1)), ApplyMsg(2, Op(2))]
    ensures End(run).servers[1].applied == [ApplyMsg(1, Op(1)), ApplyMsg(2, Op(3))]
  {
    run, steps := LateRequestRefused();
    run, steps := CommitWith(run, steps, {10}, 1, 2, 1);
  }

  /** Leader 0 has taken a command that peer 1 lacks, and is elected again. */
  lemma LeaderAhead() returns (run: seq<Cluster>, steps: seq<Step>)
    ensures RunBut(run, steps, {})
    ensures var c := End(run);
            && |c.servers| == 3 && WellFormed(c) && c.appends == []
            && c.servers[0].role == Leader && c.servers[0].term == 3 && |c.servers[0].log| == 2
            && |c.servers[0].nextIndex| == 3 && |c.servers[0].matchIndex| == 3 && c.servers[0].nextIndex[1] == 2
            && c.servers[1].log == [SENTINEL] && c.servers[1].term == 3 && c.servers[1].role == Follower
  {
    run, steps := FirstLeader({});
    run, steps := Extend(run, steps, {}, ClientStart(0, Op(1)));
    run, steps := Elect(run, steps, {}, 0, 1);
  }

  /** Two refusals of the same leader, each lowering NextIndex, take it to 0: the next message that the
      leader builds indexes its log at -1. Both replies are timely. */
  lemma TwoRefusalsPanic() returns (run: seq<Cluster>, steps: seq<Step>)
    ensures RunBut(run, steps, {}) && |End(run).servers| == 3
    ensures var s := End(run).servers[0];
            s.role == Leader && |s.nextIndex| == 3 && s.nextIndex[1] == 0 && !CanBuildAppend(s, 1)
  {
    run, steps := LeaderAhead();
    run, steps := Extend(run, steps, {}, SendAppend(0, 1));
    run, steps := Extend(run, steps, {}, SendAppend(0, 1));
    run, steps := Extend(run, steps, {}, DeliverAppend(0));
    run, steps := Extend(run, steps, {}, DeliverAppend(1));
    run, steps := Extend(run, steps, {}, HandleAppend(0));
    run, steps := Extend(run, steps, {}, HandleAppend(1));
  }

  /** Leader 0 of term 2 has a message refused by peer 1, which is in term 3 already, and wins term 4. */
  lemma RefusedInEarlierTerm() returns (run: seq<Cluster>, steps: seq<Step>)
    ensures RunBut(run, steps, {})
    ensures var c := End(run);
            && |c.servers| == 3 && WellFormed(c) && |c.appends| == 1
            && c.appends[0].src == 0 && c.appends[0].dst == 1 && c.appends[0].args.prevIndex == 0
            && c.appends[0].phase == Answered(AppendReply(3, false))
            && c.servers[0].role == Leader && c.servers[0].term == 4
            && |c.servers[0].nextIndex| == 3 && |c.servers[0].matchIndex| == 3 && c.servers[0].nextIndex[1] == 1
  {
    run, steps := FirstLeader({});
    run, steps := Extend(run, steps, {}, SendAppend(0, 1));
    run, steps := Extend(run, steps, {}, Timeout(1));
    run, steps := Extend(run, steps, {}, DeliverAppend(0));
    run, steps := Extend(run, steps, {}, Timeout(0));
    run, steps := Elect(run, steps, {}, 0, 2);
  }

  /** A single refusal is enough if it is handled in a later term: NextIndex is still the one that was sent, and
      it falls to 0. */
  lemma OldRefusalPanics() returns (run: seq<Cluster>, steps: seq<Step>)
    ensures RunBut(run, steps, {}) && |End(run).servers| == 3
    ensures var s := End(run).servers[0];
            s.role == Leader && |s.nextIndex| == 3 && s.nextIndex[1] == 0 && !CanBuildAppend(s, 1)
  {
    run, steps := RefusedInEarlierTerm();
    run, steps := Extend(run, steps, {}, HandleAppend(0));
  }
}
