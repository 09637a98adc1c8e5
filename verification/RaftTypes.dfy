/** The records of one Raft peer: log entries, RPC arguments and replies, and the peer's own state. */
module RaftTypes {
  import opened Options

  /** A client command; the peer never looks inside one. Nil is the command of the sentinel entry. */
  datatype Command = Nil | Op(id: int)

  datatype Entry = Entry(term: int, command: Command)

  /** Every log starts with this entry at index 0, so real entries start at index 1. */
  const SENTINEL := Entry(-1, Nil)

  type Log = l: seq<Entry> | |l| > 0 witness [Entry(-1, Nil)]

  datatype Role = Follower | Candidate | Leader

  datatype ApplyMsg = ApplyMsg(index: nat, command: Command)

  /** What persist() writes to the stable store: the term, the vote and the log. */
  datatype Image = Image(term: nat, voteFor: int, log: Log)

  /** The fields of a Raft peer. `applied` is everything sent on applyCh so far and `disk` the content
      of its persister. `voteFor` is -1 when the peer has not voted in its term. */
  datatype Server = Server(
    me: nat,
    peers: nat,
    role: Role,
    term: nat,
    voteFor: int,
    log: Log,
    commitIndex: nat,
    lastApplied: nat,
    nextIndex: seq<int>,
    matchIndex: seq<nat>,
    applied: seq<ApplyMsg>,
    disk: Option<Image>)

  datatype VoteArgs = VoteArgs(term: nat, candidate: nat, lastIndex: nat, lastTerm: int)

  datatype VoteReply = VoteReply(term: nat, granted: bool)

  datatype AppendArgs = AppendArgs(
    term: nat,
    leader: nat,
    prevIndex: nat,
    prevTerm: int,
    entries: seq<Entry>,
    leaderCommit: nat)

  datatype AppendReply = AppendReply(term: nat, success: bool)

  function Last(l: Log): Entry {
    l[|l| - 1]
  }
}
