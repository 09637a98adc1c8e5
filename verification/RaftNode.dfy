/** The Raft peer and its persister as objects. Each method is proved to carry the peer's state where the
    function of the same name in RaftServer takes it. */
module RaftNode {
  import opened Options
  import opened RaftTypes
  import S = RaftServer
  import B = RaftBacktrack
  import Quorum

  /** The stable store. The encoding of the image is taken to be faithful, so it is kept decoded. */
  class Persister {
    var raftState: Option<Image>
    var snapshot: seq<bv8>

    constructor ()
      ensures raftState == None && snapshot == []
    {
      raftState, snapshot := None, [];
    }

    /** A second store with the same content, so that an old peer cannot overwrite what a new one reads. */
    method Copy() returns (other: Persister)
      ensures fresh(other) && other.raftState == raftState && other.snapshot == snapshot
    {
      other := new Persister();
      other.raftState, other.snapshot := raftState, snapshot;
    }

    method SaveRaftState(data: Image)
      modifies `raftState
      ensures raftState == Some(data)
    {
      raftState := Some(data);
    }

    method ReadRaftState() returns (data: Option<Image>)
      ensures data == raftState
    {
      data := raftState;
    }
  }

  class Raft {
    const me: nat
    const peers: nat
    const persister: Persister

    var role: Role
    var currentTerm: nat
    var voteFor: int
    var log: Log
    var commitIndex: nat
    var lastApplied: nat
    var nextIndex: seq<int>
    var matchIndex: seq<nat>
    var applyCh: seq<ApplyMsg>

    ghost function State(): Server
      reads this, persister
    {
      Server(me, peers, role, currentTerm, voteFor, log, commitIndex, lastApplied,
             nextIndex, matchIndex, applyCh, persister.raftState)
    }

    /** Make: a follower with nothing applied, whose term, vote and log come from the persister if it holds any. */
    constructor Make(peers: nat, me: nat, persister: Persister)
      ensures this.persister == persister
      ensures State() == S.Boot(me, peers, persister.raftState)
      ensures role == Follower && commitIndex == 0 && lastApplied == 0 && applyCh == []
      ensures match persister.raftState
              case None => currentTerm == 1 && voteFor == -1 && log == [SENTINEL]
              case Some(i) => currentTerm == i.term && voteFor == i.voteFor && log == i.log
    {
      this.peers, this.me, this.persister := peers, me, persister;
      role, currentTerm, voteFor, log := Follower, 1, -1, [SENTINEL];
      commitIndex, lastApplied := 0, 0;
      nextIndex, matchIndex, applyCh := [], [], [];
      new;
      ReadPersist();
    }

    method Persist()
      modifies persister
      ensures State() == S.Persist(old(State())) && persister.snapshot == old(persister.snapshot)
    {
      persister.SaveRaftState(Image(currentTerm, voteFor, log));
    }

    method ReadPersist()
      modifies `currentTerm, `voteFor, `log
      ensures match persister.raftState
              case None => State() == old(State())
              case Some(i) => State() == old(State()).(term := i.term, voteFor := i.voteFor, log := i.log)
    {
      var data := persister.ReadRaftState();
      match data
      case None =>
      case Some(i) => currentTerm, voteFor, log := i.term, i.voteFor, i.log;
    }

    method BeFollower(term: nat)
      modifies this
      ensures State() == S.BeFollower(old(State()), term)
    {
      currentTerm := term;
      role := Follower;
      voteFor := -1;
    }

    method BeCandidate()
      modifies this
      ensures State() == S.BeCandidate(old(State()))
    {
      currentTerm := currentTerm + 1;
      role := Candidate;
      voteFor := me;
    }

    method BeLeader()
      modifies this
      ensures State() == S.BeLeader(old(State()))
    {
      role := Leader;
      nextIndex := seq(peers, _ => 0);
      matchIndex := seq(peers, _ => 0);
      var i := 0;
      while i < |nextIndex|
        invariant 0 <= i <= |nextIndex| == peers
        invariant forall j :: 0 <= j < i ==> nextIndex[j] == |log|
        invariant State() == old(State()).(role := Leader, nextIndex := nextIndex, matchIndex := seq(peers, _ => 0))
      {
        nextIndex := nextIndex[i := |log|];
        i := i + 1;
      }
      var len := |log|;
      assert nextIndex == seq(peers, _ => len);
    }

    method UpdateLastApplied()
      requires commitIndex < |log|
      modifies `lastApplied, `applyCh
      ensures State() == S.UpdateLastApplied(old(State()))
    {
      ghost var from, ch := lastApplied, applyCh;
      while lastApplied < commitIndex
        invariant from <= lastApplied && (from <= commitIndex ==> lastApplied <= commitIndex)
        invariant from > commitIndex ==> lastApplied == from
        invariant lastApplied < |log| || lastApplied == from
        invariant State() == old(State()).(lastApplied := lastApplied, applied := applyCh)
        invariant applyCh == ch + (if lastApplied == from then [] else S.Messages(log, from, lastApplied))
      {
        lastApplied := lastApplied + 1;
        applyCh := applyCh + [ApplyMsg(lastApplied, log[lastApplied].command)];
      }
      if lastApplied == from { assert applyCh == ch; }
    }

    method RequestVote(a: VoteArgs) returns (reply: VoteReply)
      modifies this, persister
      ensures (State(), reply) == S.RequestVote(old(State()), a)
      ensures persister.snapshot == old(persister.snapshot)
    {
      if currentTerm < a.term {
        BeFollower(a.term);
      }
      reply := VoteReply(currentTerm, false);
      if a.term < currentTerm {
        return;
      }
      if voteFor != -1 && voteFor != a.candidate {
      } else if a.lastTerm < log[|log| - 1].term || (a.lastTerm == log[|log| - 1].term && a.lastIndex < |log| - 1) {
      } else {
        reply := VoteReply(currentTerm, true);
        voteFor := a.candidate;
        Persist();
      }
    }

    method AppendEntries(a: AppendArgs) returns (reply: AppendReply)
      modifies this, persister
      ensures (State(), reply) == S.AppendEntries(old(State()), a)
      ensures persister.snapshot == old(persister.snapshot)
    {
      if a.term > currentTerm {
        BeFollower(a.term);
      }
      reply := AppendReply(currentTerm, false);
      if a.term < currentTerm {
        return;
      }
      if a.prevIndex >= |log| {
        return;
      }
      if log[a.prevIndex].term != a.prevTerm {
        return;
      }
      log := log[..a.prevIndex + 1] + a.entries;
      if a.leaderCommit > commitIndex {
        commitIndex := S.Min(a.leaderCommit, |log| - 1);
        UpdateLastApplied();
      }
      Persist();
      reply := AppendReply(currentTerm, true);
    }

    /** Start: the index the command will have if it is ever committed, the term, and whether this is the leader. */
    method Start(command: Command) returns (index: int, term: nat, isLeader: bool)
      modifies this, persister
      ensures State() == S.Start(old(State()), command)
      ensures isLeader == (old(role) == Leader) && term == currentTerm == old(currentTerm)
      ensures index == if isLeader then |log| - 1 else -1
      ensures isLeader ==> log[index] == Entry(term, command)
      ensures persister.snapshot == old(persister.snapshot)
    {
      index, term, isLeader := -1, currentTerm, role == Leader;
      if isLeader {
        index := |log|;
        log := log + [Entry(currentTerm, command)];
        Persist();
      }
    }

    method BuildVoteArgs() returns (a: VoteArgs)
      ensures a == S.BuildVoteArgs(State())
    {
      a := VoteArgs(currentTerm, me, |log| - 1, log[|log| - 1].term);
    }

    /** The reply handler of startElection; `count` is the counter of that election. */
    method HandleVoteReply(argTerm: nat, count: nat, reply: VoteReply) returns (count': nat)
      modifies this
      ensures (State(), count') == S.OnVoteReply(old(State()), argTerm, count, reply)
    {
      count' := count;
      if reply.term > currentTerm {
        BeFollower(reply.term);
        return;
      }
      if role != Candidate || currentTerm != argTerm {
        return;
      }
      if reply.granted {
        count' := count' + 1;
      }
      if count' > peers / 2 {
        BeLeader();
      }
    }

    method BuildAppendArgs(id: nat) returns (a: AppendArgs)
      requires S.CanBuildAppend(State(), id)
      ensures a == S.BuildAppendArgs(State(), id)
    {
      var next := nextIndex[id];
      var entries := [];
      if |log| - 1 >= next {
        entries := log[next..];
      }
      a := AppendArgs(currentTerm, me, next - 1, log[next - 1].term, entries, commitIndex);
      assert entries == log[next..];
    }

    method HandleAppendReply(id: nat, reply: AppendReply)
      requires S.CanHandleAppendReply(State(), id, reply)
      modifies this
      ensures State() == S.OnAppendReply(old(State()), id, reply)
    {
      if reply.term > currentTerm {
        BeFollower(reply.term);
        return;
      }
      if reply.success {
        matchIndex := matchIndex[id := |log| - 1];
        nextIndex := nextIndex[id := matchIndex[id] + 1];
        matchIndex := matchIndex[me := |log| - 1];
        var copyMatchIndex := Quorum.SortDescending(matchIndex);
        var N := copyMatchIndex[|copyMatchIndex| / 2];
        if N > commitIndex && log[N].term == currentTerm {
          commitIndex := N;
          UpdateLastApplied();
        }
      } else {
        nextIndex := nextIndex[id := nextIndex[id] - 1];
      }
    }

    /** One turn of the loop in StartAppendLog. */
    method ExchangeWith(id: nat, follower: Raft) returns (success: bool)
      requires follower != this && follower.persister != persister
      requires B.CanExchange(State(), follower.State(), id)
      modifies this, follower, follower.persister
      ensures (State(), follower.State(), success) == B.Exchange(old(State()), old(follower.State()), id)
    {
      ghost var l := State();
      S.MedianInLog(l, id);
      var a := BuildAppendArgs(id);
      var reply := follower.AppendEntries(a);
      assert State() == l;
      HandleAppendReply(id, reply);
      success := reply.success;
    }

    /** One goroutine of StartAppendLog, run against a follower that nobody else talks to: it exchanges
        appends until the follower accepts, and then the two logs are equal. */
    method ReplicateTo(id: nat, follower: Raft) returns (exchanges: nat)
      requires follower != this && follower.persister != persister
      requires B.CanExchange(State(), follower.State(), id)
      modifies this, follower, follower.persister
      ensures 1 <= exchanges <= old(nextIndex[id]) && follower.log == log == old(log)
      ensures role == Leader && currentTerm == old(currentTerm)
      ensures |nextIndex| == |matchIndex| == peers && nextIndex[id] == |log| && matchIndex[id] == |log| - 1
    {
      exchanges := 0;
      var done := false;
      while !done
        invariant log == old(log) && role == Leader && currentTerm == old(currentTerm)
        invariant !done ==> B.CanExchange(State(), follower.State(), id)
        invariant !done ==> exchanges + nextIndex[id] == old(nextIndex[id])
        invariant done ==> 1 <= exchanges <= old(nextIndex[id]) && follower.log == log
        invariant done ==> |nextIndex| == |matchIndex| == peers && nextIndex[id] == |log| && matchIndex[id] == |log| - 1
        decreases !done, if done then 0 else nextIndex[id]
      {
        B.ExchangeStep(State(), follower.State(), id);
        done := ExchangeWith(id, follower);
        exchanges := exchanges + 1;
      }
    }
  }
}
