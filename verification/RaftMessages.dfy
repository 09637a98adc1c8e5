/** What a message brings about at the peer that receives it: terms spread, and commits travel. */
module RaftMessages {
  import opened RaftTypes
  import opened RaftServer
  import opened RaftCluster
  import opened RaftInvariant
  import opened RaftProgress
  import opened RaftSafety

  // ---- terms ----

  /** The peer that the step delivers a request or a reply to. */
  ghost function Receiver(c: Cluster, step: Step): nat
    requires Enabled(c, step)
  {
    match step
    case DeliverVote(_, j) => j
    case HandleVote(e, _) => c.elections[e].cand
    case DeliverAppend(k) => c.appends[k].dst
    case HandleAppend(k) => c.appends[k].src
    case _ => 0
  }

  /** The term in that request or reply. */
  ghost function MessageTerm(c: Cluster, step: Step): nat
    requires Enabled(c, step)
  {
    match step
    case DeliverVote(e, _) => c.elections[e].args.term
    case HandleVote(e, j) => c.elections[e].calls[j].reply.term
    case DeliverAppend(k) => c.appends[k].args.term
    case HandleAppend(k) => c.appends[k].phase.reply.term
    case _ => 0
  }

  predicate IsMessage(step: Step) {
    step.DeliverVote? || step.HandleVote? || step.DeliverAppend? || step.HandleAppend?
  }

  lemma MessageStep(c: Cluster, step: Step)
    requires Enabled(c, step) && IsMessage(step)
    ensures var i, t := Receiver(c, step), MessageTerm(c, step);
            && i < |c.servers| && i < |Apply(c, step).servers|
            && var s, s' := c.servers[i], Apply(c, step).servers[i];
            && s'.term == (if t > s.term then t else s.term)
            && (t > s.term ==> s'.role == Follower && (!step.DeliverVote? ==> s'.voteFor == -1))
            && (t <= s.term ==> s'.role == s.role || step.HandleVote?)
            && (t <= s.term ==> s'.voteFor == s.voteFor || step.DeliverVote?)
            && (t > s.term && (step.HandleVote? || step.HandleAppend?) ==>
                  s' == s.(term := t, role := Follower, voteFor := -1))
  {
    if step.DeliverAppend? { AppendEntriesShape(c.servers[c.appends[step.k].dst], c.appends[step.k].args); }
  }

  /** In every run, whoever receives a message is afterwards in the later of its own term and the message's. A
      message of a later term makes it a follower without a vote, except for the one that a vote request may get,
      and a reply of a later term changes nothing else. So nobody hears of a later term and goes on leading the old
      one. Another message leaves role and vote alone, except that a vote reply may crown and a vote request may get
      a vote; in particular a candidate stays one when a leader of its own term writes to it. */
  lemma LaterTermDeposes(n: nat, run: seq<Cluster>, steps: seq<Step>, k: nat)
    requires IsRun(n, run, steps) && k < |steps| && IsMessage(steps[k])
    ensures var i, t := Receiver(run[k], steps[k]), MessageTerm(run[k], steps[k]);
            && i < |run[k].servers| && i < |run[k + 1].servers|
            && var s, s' := run[k].servers[i], run[k + 1].servers[i];
            && s'.term == (if t > s.term then t else s.term)
            && (t > s.term ==> s'.role == Follower && (!steps[k].DeliverVote? ==> s'.voteFor == -1))
            && (t <= s.term ==> s'.role == s.role || steps[k].HandleVote?)
            && (t <= s.term ==> s'.voteFor == s.voteFor || steps[k].DeliverVote?)
            && (t > s.term && (steps[k].HandleVote? || steps[k].HandleAppend?) ==>
                  s'.log == s.log && s'.commitIndex == s.commitIndex && s'.applied == s.applied)
  {
    MessageStep(run[k], steps[k]);
  }

  /** Both handlers answer with the receiver's new term, which is never before that of the request. */
  lemma AnswersWithTerm(n: nat, run: seq<Cluster>, steps: seq<Step>, k: nat)
    requires IsRun(n, run, steps) && k < |steps| && (steps[k].DeliverVote? || steps[k].DeliverAppend?)
    ensures var c, c', step := run[k], run[k + 1], steps[k];
            Receiver(c, step) < |c'.servers| &&
            var t := c'.servers[Receiver(c, step)].term;
            && t >= MessageTerm(c, step)
            && (step.DeliverVote? ==>
                  && step.e < |c'.elections| && step.j < |c'.elections[step.e].calls|
                  && c'.elections[step.e].calls[step.j].Replied? && c'.elections[step.e].calls[step.j].reply.term == t)
            && (step.DeliverAppend? ==>
                  && step.k < |c'.appends|
                  && c'.appends[step.k].phase.Answered? && c'.appends[step.k].phase.reply.term == t)
  {
    MessageStep(run[k], steps[k]);
    if steps[k].DeliverAppend? {
      var a := run[k].appends[steps[k].k];
      AppendEntriesShape(run[k].servers[a.dst], a.args);
    }
  }

  // ---- the first message of a leader ----

  lemma CrownStep(c: Cluster, step: Step, i: nat)
    requires Enabled(c, step) && i < |c.servers| && c.servers[i].role != Leader
    requires i < |Apply(c, step).servers| && Apply(c, step).servers[i].role == Leader
    ensures step.HandleVote? && c.elections[step.e].cand == i && c.servers[i].role == Candidate
    ensures Apply(c, step).servers[i] == c.servers[i].(role := Leader,
              nextIndex := seq(|c.servers|, _ => |c.servers[i].log|), matchIndex := seq(|c.servers|, _ => 0))
  {
  }

  /** In every run, only a candidate that handles a vote reply comes to lead. It keeps its term and log, it takes
      nothing as stored elsewhere, and its first message to every peer carries no entry and asks for its last one. */
  lemma FirstMessage(n: nat, run: seq<Cluster>, steps: seq<Step>, k: nat, i: nat, j: nat)
    requires IsRun(n, run, steps) && k < |steps| && i < |run[k].servers| && j < |run[k].servers|
    requires i < |run[k + 1].servers| && run[k].servers[i].role != Leader && run[k + 1].servers[i].role == Leader
    ensures var s, s' := run[k].servers[i], run[k + 1].servers[i];
            && steps[k].HandleVote? && s.role == Candidate && s'.term == s.term && s'.log == s.log
            && j < |s'.matchIndex| && s'.matchIndex[j] == 0 && CanBuildAppend(s', j)
            && var a := BuildAppendArgs(s', j);
            && a.term == s.term && a.leader == s.me && a.entries == [] && a.leaderCommit == s.commitIndex
            && a.prevIndex == |s.log| - 1 && a.prevTerm == Last(s.log).term
  {
    CrownStep(run[k], steps[k], i);
    assert Enabled(run[k], steps[k]);
  }

  // ---- commits ----

  lemma SentCommit(n: nat, run: seq<Cluster>, steps: seq<Step>, b: nat, a: nat, m: nat)
    requires IsRun(n, run, steps) && b < m <= |steps| && |run[b].appends| == a && a < |run[b + 1].appends|
    ensures a < |run[m].appends| && run[m].appends[a].src < |run[b].servers|
    ensures run[m].appends[a].args.leaderCommit == run[b].servers[run[m].appends[a].src].commitIndex
    ensures run[m].appends[a].sent == run[b].servers[run[m].appends[a].src].log
  {
    AppendsStep(run[b], steps[b]);
    assert run[b + 1] == Apply(run[b], steps[b]) && Enabled(run[b], steps[b]);
    AppendsGrow(n, run, steps, b + 1, m);
    assert run[m].appends[a].(phase := Finished) == run[b + 1].appends[a].(phase := Finished);
  }

  /** The receiver of an accepted append has committed what its sender had committed when it built the message. */
  lemma AcceptedCommit(s: Server, a: AppendArgs)
    requires Accepts(s, a) && a.leaderCommit < |AppendEntries(s, a).0.log|
    ensures a.leaderCommit <= AppendEntries(s, a).0.commitIndex
  {
  }

  lemma MessagesPrefix(l: Log, a: nat, b: nat)
    requires a <= b < |l|
    ensures Messages(l, 0, a) <= Messages(l, 0, b)
  {
  }

  lemma AppliedIs(n: nat, run: seq<Cluster>, steps: seq<Step>, k: nat, i: nat)
    requires IsHonestRun(n, run, steps) && k <= |steps| && i < |run[k].servers|
    ensures var s := run[k].servers[i];
            s.commitIndex < |s.log| && s.applied == Messages(s.log, 0, s.commitIndex)
  {
    AppliedExactly(n, run, steps, k, i);
    var s := run[k].servers[i];
    assert s.applied == Messages(s.log, 0, s.commitIndex);
  }

  /** In every honest run, whoever accepts an append has applied at least what its sender had applied when it
      built the message, however long that was ago. */
  lemma CommitsTravel(n: nat, run: seq<Cluster>, steps: seq<Step>, m: nat) returns (b: nat)
    requires IsHonestRun(n, run, steps) && m < |steps| && steps[m].DeliverAppend?
    requires Accepts(run[m].servers[run[m].appends[steps[m].k].dst], run[m].appends[steps[m].k].args)
    ensures var call := run[m].appends[steps[m].k];
            && b < m && steps[b] == SendAppend(call.src, call.dst) && |run[b].appends| == steps[m].k
            && call.src < |run[b].servers| && call.dst < |run[m + 1].servers|
            && run[b].servers[call.src].applied <= run[m + 1].servers[call.dst].applied
  {
    var call := run[m].appends[steps[m].k];
    b := ExactReplication(n, run, steps, m);
    assert run[b + 1] == Apply(run[b], steps[b]) && run[m + 1] == Apply(run[m], steps[m]);
    SentCommit(n, run, steps, b, steps[m].k, m);
    AppliedIs(n, run, steps, b, call.src);
    AppliedIs(n, run, steps, m + 1, call.dst);
    AcceptedCommit(run[m].servers[call.dst], call.args);
    var s, s' := run[b].servers[call.src], run[m + 1].servers[call.dst];
    MessagesPrefix(s.log, s.commitIndex, s'.commitIndex);
  }
}
