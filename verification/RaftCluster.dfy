/** A cluster of Raft peers and the RPC calls between them, one step per locked region.
    A call is an object with a phase, so the network may lose a call (it never moves on), delay it and
    reorder it against others, and never runs a handler twice for one request.
    An index out of range in the program stops the process, so such a step is not enabled. */
module RaftCluster {
  import opened RaftTypes
  import opened RaftServer

  /** One goroutine of startElection: request out, reply on its way, reply handled. */
  datatype VoteCall = Waiting | Replied(reply: VoteReply) | Handled(counted: bool)

  /** One run of startElection with its own arguments and its own counter. */
  datatype Election = Election(cand: nat, args: VoteArgs, count: nat, calls: seq<VoteCall>)

  datatype AppendPhase = Requested | Answered(reply: AppendReply) | Finished

  /** One AppendEntries call. `sent` is the leader's log when the arguments were built; no step reads it. */
  datatype AppendCall = AppendCall(src: nat, dst: nat, args: AppendArgs, sent: Log, phase: AppendPhase)

  /** `pending[i]` counts the startElection goroutines of peer i that have not yet read their arguments. */
  datatype Cluster = Cluster(
    servers: seq<Server>,
    pending: seq<nat>,
    elections: seq<Election>,
    appends: seq<AppendCall>)

  datatype Step =
    | Timeout(i: nat)
    | StartElection(i: nat)
    | DeliverVote(e: nat, j: nat)
    | HandleVote(e: nat, j: nat)
    | ClientStart(i: nat, command: Command)
    | SendAppend(i: nat, j: nat)
    | DeliverAppend(k: nat)
    | HandleAppend(k: nat)

  function Init(n: nat): Cluster {
    Cluster(seq(n, i requires 0 <= i < n => InitServer(i, n)), seq(n, _ => 0), [], [])
  }

  /** Sizes and identifiers that no step changes. */
  ghost predicate WellFormed(c: Cluster) {
    && |c.pending| == |c.servers|
    && (forall i :: 0 <= i < |c.servers| ==> c.servers[i].me == i && c.servers[i].peers == |c.servers|)
    && (forall e :: 0 <= e < |c.elections| ==>
          c.elections[e].cand < |c.servers| && |c.elections[e].calls| == |c.servers|)
    && (forall k :: 0 <= k < |c.appends| ==>
          c.appends[k].src < |c.servers| && c.appends[k].dst < |c.servers|)
  }

  ghost predicate Enabled(c: Cluster, step: Step) {
    WellFormed(c) &&
    match step
    case Timeout(i) => i < |c.servers|
    case StartElection(i) => i < |c.servers| && c.pending[i] > 0
    case DeliverVote(e, j) =>
      e < |c.elections| && j < |c.servers| && c.elections[e].calls[j].Waiting?
    case HandleVote(e, j) =>
      e < |c.elections| && j < |c.servers| && c.elections[e].calls[j].Replied?
    case ClientStart(i, _) => i < |c.servers|
    case SendAppend(i, j) =>
      && i < |c.servers| && j < |c.servers| && i != j
      && c.servers[i].role == Leader && CanBuildAppend(c.servers[i], j)
    case DeliverAppend(k) => k < |c.appends| && c.appends[k].phase.Requested?
    case HandleAppend(k) =>
      && k < |c.appends| && c.appends[k].phase.Answered?
      && CanHandleAppendReply(c.servers[c.appends[k].src], c.appends[k].dst, c.appends[k].phase.reply)
  }

  function SetServer(c: Cluster, i: nat, s: Server): Cluster
    requires i < |c.servers|
  {
    c.(servers := c.servers[i := s])
  }

  function SetCall(c: Cluster, e: nat, j: nat, count: nat, call: VoteCall): Cluster
    requires e < |c.elections| && j < |c.elections[e].calls|
  {
    var el := c.elections[e];
    c.(elections := c.elections[e := el.(count := count, calls := el.calls[j := call])])
  }

  function SetPhase(c: Cluster, k: nat, p: AppendPhase): Cluster
    requires k < |c.appends|
  {
    c.(appends := c.appends[k := c.appends[k].(phase := p)])
  }

  ghost function Apply(c: Cluster, step: Step): Cluster
    requires Enabled(c, step)
  {
    match step
    case Timeout(i) =>
      SetServer(c, i, BeCandidate(c.servers[i])).(pending := c.pending[i := c.pending[i] + 1])
    case StartElection(i) =>
      var calls := seq(|c.servers|, j => if j == i then Handled(false) else Waiting);
      c.(pending := c.pending[i := c.pending[i] - 1],
         elections := c.elections + [Election(i, BuildVoteArgs(c.servers[i]), 1, calls)])
    case DeliverVote(e, j) =>
      var el := c.elections[e];
      var (s, reply) := RequestVote(c.servers[j], el.args);
      SetCall(SetServer(c, j, s), e, j, el.count, Replied(reply))
    case HandleVote(e, j) =>
      var el := c.elections[e];
      var (s, count) := OnVoteReply(c.servers[el.cand], el.args.term, el.count, el.calls[j].reply);
      SetCall(SetServer(c, el.cand, s), e, j, count, Handled(count > el.count))
    case ClientStart(i, command) =>
      SetServer(c, i, Start(c.servers[i], command))
    case SendAppend(i, j) =>
      var s := c.servers[i];
      c.(appends := c.appends + [AppendCall(i, j, BuildAppendArgs(s, j), s.log, Requested)])
    case DeliverAppend(k) =>
      var call := c.appends[k];
      var (s, reply) := AppendEntries(c.servers[call.dst], call.args);
      SetPhase(SetServer(c, call.dst, s), k, Answered(reply))
    case HandleAppend(k) =>
      var call := c.appends[k];
      SetPhase(SetServer(c, call.src, OnAppendReply(c.servers[call.src], call.dst, call.phase.reply)),
               k, Finished)
  }

  ghost predicate AllEnabled(run: seq<Cluster>, steps: seq<Step>) {
    |steps| <= |run| && forall k {:trigger steps[k]} :: 0 <= k < |steps| ==> Enabled(run[k], steps[k])
  }

  /** A run of n peers: a first cluster, and each next one made by an enabled step. */
  ghost predicate IsRun(n: nat, run: seq<Cluster>, steps: seq<Step>) {
    && AllEnabled(run, steps)
    && |run| == |steps| + 1
    && run[0] == Init(n)
    && forall k {:trigger steps[k]} :: 0 <= k < |steps| ==> run[k + 1] == Apply(run[k], steps[k])
  }
}
