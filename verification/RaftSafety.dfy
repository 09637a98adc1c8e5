/** The safety properties of Figure 3 of the Raft paper, over whole runs of the cluster.
    The first part holds in every run. The second part holds in every honest run. */
module RaftSafety {
  import opened RaftTypes
  import opened RaftServer
  import opened RaftCluster
  import opened RaftHistory
  import opened RaftInvariant
  import opened RaftProgress
  import opened RaftCommit
  import opened Quorum

  lemma {:induction false} RunSize(n: nat, run: seq<Cluster>, steps: seq<Step>, k: nat)
    requires IsRun(n, run, steps) && k <= |steps|
    ensures |run[k].servers| == n
  {
    if k > 0 {
      RunSize(n, run, steps, k - 1);
      assert Enabled(run[k - 1], steps[k - 1]);
    }
  }

  lemma {:induction false} AppendsGrow(n: nat, run: seq<Cluster>, steps: seq<Step>, k: nat, m: nat)
    requires IsRun(n, run, steps) && k <= m <= |steps|
    ensures |run[k].appends| <= |run[m].appends|
    ensures forall a :: 0 <= a < |run[k].appends| ==>
              run[m].appends[a].(phase := Finished) == run[k].appends[a].(phase := Finished)
    decreases m
  {
    if k < m {
      AppendsGrow(n, run, steps, k, m - 1);
      AppendsStep(run[m - 1], steps[m - 1]);
    }
  }

  lemma AppendsStep(c: Cluster, step: Step)
    requires Enabled(c, step)
    ensures var c' := Apply(c, step);
            && |c.appends| <= |c'.appends| <= |c.appends| + 1
            && (forall a :: 0 <= a < |c.appends| ==>
                  c'.appends[a].(phase := Finished) == c.appends[a].(phase := Finished))
            && (|c'.appends| > |c.appends| ==>
                  step.SendAppend? && var a := c'.appends[|c.appends|];
                  a.src == step.i && a.dst == step.j && a.sent == c.servers[step.i].log)
  {
  }

  /** Section 5.2: at most one peer is ever leader of a term, however late votes and elections run. */
  lemma ElectionSafety(n: nat, run: seq<Cluster>, steps: seq<Step>, k: nat, m: nat, i: nat, j: nat)
    requires IsRun(n, run, steps) && k <= |steps| && m <= |steps|
    requires i < |run[k].servers| && j < |run[m].servers|
    requires run[k].servers[i].role == Leader && run[m].servers[j].role == Leader
    requires run[k].servers[i].term == run[m].servers[j].term
    ensures i == j
  {
    RunInv(n, run, steps, k);
    RunInv(n, run, steps, m);
    var h, g := HistoryAt(run, steps, k), HistoryAt(run, steps, m);
    assert ServerOk(h, run[k].servers[i], i) && ServerOk(g, run[m].servers[j], j);
    if k <= m {
      RunExtends(n, run, steps, k, m);
    } else {
      RunExtends(n, run, steps, m, k);
    }
  }

  /** Section 5.3: if two logs, of any peers at any two moments of a run, hold an entry of the same index
      and term, they are the same up to that index. */
  lemma LogMatching(n: nat, run: seq<Cluster>, steps: seq<Step>, k: nat, m: nat, i: nat, j: nat, x: nat)
    requires IsRun(n, run, steps) && k <= m <= |steps|
    requires i < |run[k].servers| && j < |run[m].servers|
    requires x < |run[k].servers[i].log| && x < |run[m].servers[j].log|
    requires run[k].servers[i].log[x].term == run[m].servers[j].log[x].term
    ensures run[k].servers[i].log[..x + 1] == run[m].servers[j].log[..x + 1]
  {
    RunInv(n, run, steps, k);
    RunInv(n, run, steps, m);
    RunExtends(n, run, steps, k, m);
    var h, g := HistoryAt(run, steps, k), HistoryAt(run, steps, m);
    assert ServerOk(h, run[k].servers[i], i) && ServerOk(g, run[m].servers[j], j);
    LogOkExtends(h, g, run[k].servers[i].log);
    LogsMatch(g, run[k].servers[i].log, run[m].servers[j].log, x);
  }

  /** The terms of every reachable log ascend and do not exceed the peer's term. */
  lemma LogTerms(n: nat, run: seq<Cluster>, steps: seq<Step>, k: nat, i: nat)
    requires IsRun(n, run, steps) && k <= |steps| && i < |run[k].servers|
    ensures TermsAscend(run[k].servers[i].log) && TermsAtMost(run[k].servers[i].log, run[k].servers[i].term)
  {
    RunInv(n, run, steps, k);
    var h := HistoryAt(run, steps, k);
    assert ServerOk(h, run[k].servers[i], i);
    LogAscends(run[k], h, run[k].servers[i].log);
  }

  /** The step that made append call k. */
  lemma {:induction false} SentAt(n: nat, run: seq<Cluster>, steps: seq<Step>, k: nat, m: nat) returns (b: nat)
    requires IsRun(n, run, steps) && m <= |steps| && k < |run[m].appends|
    ensures b < m && |run[b].appends| == k && k < |run[b + 1].appends|
  {
    AppendsStep(run[m - 1], steps[m - 1]);
    if |run[m - 1].appends| > k {
      b := SentAt(n, run, steps, k, m - 1);
    } else {
      b := m - 1;
    }
  }

  /** Whenever AppendEntries succeeds, however late, the follower's whole log is the leader's log as it
      stood at the step that built the message. */
  lemma ExactReplication(n: nat, run: seq<Cluster>, steps: seq<Step>, m: nat) returns (b: nat)
    requires IsRun(n, run, steps) && m < |steps| && steps[m].DeliverAppend?
    requires Accepts(run[m].servers[run[m].appends[steps[m].k].dst], run[m].appends[steps[m].k].args)
    ensures var call := run[m].appends[steps[m].k];
            && b < m && steps[b] == SendAppend(call.src, call.dst) && |run[b].appends| == steps[m].k
            && call.src < |run[b].servers| && call.dst < |run[m + 1].servers|
            && run[m + 1].appends[steps[m].k].phase == Answered(AppendReply(call.args.term, true))
            && run[m + 1].servers[call.dst].log == run[b].servers[call.src].log
  {
    var k := steps[m].k;
    b := SentAt(n, run, steps, k, m);
    AppendsStep(run[b], steps[b]);
    AppendsGrow(n, run, steps, b + 1, m);
    var call := run[m].appends[k];
    assert call.(phase := Finished) == run[b + 1].appends[k].(phase := Finished);
    RunInv(n, run, steps, m);
    AcceptedIsSent(run[m], HistoryAt(run, steps, m), k);
    AppendEntriesShape(run[m].servers[call.dst], call.args);
  }

  /** For as long as a peer leads a term, its log only grows. */
  lemma LeaderAppendOnly(n: nat, run: seq<Cluster>, steps: seq<Step>, k: nat, m: nat, i: nat)
    requires IsRun(n, run, steps) && k <= m <= |steps|
    requires i < |run[k].servers| && i < |run[m].servers|
    requires run[k].servers[i].role == Leader && run[m].servers[i].role == Leader
    requires run[k].servers[i].term == run[m].servers[i].term
    ensures run[k].servers[i].log <= run[m].servers[i].log
  {
    RunInv(n, run, steps, k);
    RunInv(n, run, steps, m);
    RunExtends(n, run, steps, k, m);
    var h, g := HistoryAt(run, steps, k), HistoryAt(run, steps, m);
    assert ServerOk(h, run[k].servers[i], i) && ServerOk(g, run[m].servers[i], i);
  }

  // ---- the commit rule ----

  /** Figure 2: N exceeds commitIndex, a majority of matchIndex has reached it, and its entry is of this term. */
  ghost predicate MayCommit(s: Server, m: seq<nat>, N: nat) {
    N > s.commitIndex && Majority(Reached(m, N), |m|) && N < |s.log| && s.log[N].term == s.term
  }

  /** Taking the median is taking the greatest N that Figure 2 allows, if it allows any. */
  lemma CommitRule(s: Server, id: nat, r: AppendReply)
    requires CanHandleAppendReply(s, id, r) && r.term <= s.term && r.success
    requires TermsAscend(s.log) && TermsAtMost(s.log, s.term)
    ensures var s' := OnAppendReply(s, id, r);
            var m := NewMatchIndex(s, id);
            && (forall N: nat :: MayCommit(s, m, N) ==> N <= s'.commitIndex)
            && (s'.commitIndex != s.commitIndex ==> MayCommit(s, m, s'.commitIndex))
            && s'.commitIndex >= s.commitIndex
  {
    var m := NewMatchIndex(s, id);
    MedianIsGreatestMajorityIndex(m, Median(m));
    forall N: nat | MayCommit(s, m, N) ensures N <= OnAppendReply(s, id, r).commitIndex {
      MedianIsGreatestMajorityIndex(m, N);
      assert s.log[N].term <= s.log[Median(m)].term;
    }
  }

  /** The same for every append reply that any run handles. */
  lemma CommitRuleInRuns(n: nat, run: seq<Cluster>, steps: seq<Step>, k: nat)
    requires IsRun(n, run, steps) && k < |steps| && steps[k].HandleAppend?
    requires var a := run[k].appends[steps[k].k];
             a.phase.reply.success && a.phase.reply.term <= run[k].servers[a.src].term
    ensures var a := run[k].appends[steps[k].k];
            var s, s' := run[k].servers[a.src], run[k + 1].servers[a.src];
            var m := NewMatchIndex(s, a.dst);
            && (forall N: nat :: MayCommit(s, m, N) ==> N <= s'.commitIndex)
            && (s'.commitIndex != s.commitIndex ==> MayCommit(s, m, s'.commitIndex))
  {
    var a := run[k].appends[steps[k].k];
    RunSize(n, run, steps, k);
    LogTerms(n, run, steps, k, a.src);
    CommitRule(run[k].servers[a.src], a.dst, a.phase.reply);
  }

  // ---- honest runs ----

  /** What two leaders have committed agrees as far as the shorter goes. */
  lemma CommitsAgree(c: Cluster, h: History, p: Progress, x: Mark, y: Mark)
    requires ReignsOk(c, h) && LeadersComplete(c, h, p) && CommitsOk(c, h, p)
    requires x in p.commits && y in p.commits && x.term <= y.term
    ensures x.term in h.reigns && y.term in h.reigns
    ensures x.index < |h.reigns[x.term].log| && y.index < |h.reigns[y.term].log|
    ensures UpTo(h, x.term, x.index) <= h.reigns[y.term].log
  {
    assert CommitOk(h, p, x.term, x.index, |c.servers|) && CommitOk(h, p, y.term, y.index, |c.servers|);
    if x.term < y.term {
      CommittedIsSettled(c, h, p, x.term, x.index);
      assert ReignOk(h, y.term, h.reigns[y.term], c.servers);
    }
  }

  lemma PrefixesAgree<T>(l: seq<T>, l': seq<T>, r: seq<T>, q: seq<T>, a: nat, b: nat, c: nat, d: nat)
    requires a <= b < |l'| && a < |l| && a <= c < |r| && b <= d < |q|
    requires l[..a + 1] == r[..a + 1] && l'[..b + 1] == q[..b + 1]
    requires r[..c + 1] <= q || q[..d + 1] <= r
    ensures l[..a + 1] == l'[..a + 1]
  {
    assert l'[..a + 1] == l'[..b + 1][..a + 1];
    assert q[..a + 1] == q[..b + 1][..a + 1] == q[..d + 1][..a + 1];
    assert r[..a + 1] == r[..c + 1][..a + 1];
    assert r[..a + 1] == q[..a + 1];
  }

  /** Any two commits agree as far as the shorter goes. */
  ghost predicate CommitsChain(h: History, p: Progress) {
    forall x, y :: x in p.commits && y in p.commits && x.term <= y.term ==>
      && x.term in h.reigns && y.term in h.reigns
      && x.index < |h.reigns[x.term].log| && y.index < |h.reigns[y.term].log|
      && UpTo(h, x.term, x.index) <= h.reigns[y.term].log
  }

  lemma CommitsFormChain(c: Cluster, h: History, p: Progress)
    requires Inv(c, h) && HonestInv(c, h, p)
    ensures CommitsChain(h, p)
  {
    forall x, y | x in p.commits && y in p.commits && x.term <= y.term
      ensures && x.term in h.reigns && y.term in h.reigns
              && x.index < |h.reigns[x.term].log| && y.index < |h.reigns[y.term].log|
              && UpTo(h, x.term, x.index) <= h.reigns[y.term].log
    {
      CommitsAgree(c, h, p, x, y);
    }
  }

  /** Two committed prefixes are one a prefix of the other. */
  lemma BackedAgree(h: History, p: Progress, l: Log, a: nat, v: int, l': Log, b: nat, w: int)
    requires CommitsChain(h, p)
    requires Backed(h, p, l, a, v) && Backed(h, p, l', b, w) && l[0] == l'[0] && a <= b
    ensures l[..a + 1] == l'[..a + 1]
  {
    if a > 0 {
      var x :| x in p.commits && BackedBy(h, l, a, v, x);
      var y :| y in p.commits && BackedBy(h, l', b, w, y);
      PrefixesAgree(l, l', h.reigns[x.term].log, h.reigns[y.term].log, a, b, x.index, y.index);
    }
  }

  /** A peer's committed prefix, seen from a later moment of the run. */
  lemma BackedLater(n: nat, run: seq<Cluster>, steps: seq<Step>, k: nat, m: nat, i: nat) returns (w: int)
    requires IsHonestRun(n, run, steps) && k <= m <= |steps| && i < |run[k].servers|
    ensures Backed(HistoryAt(run, steps, m), ProgressAt(n, run, steps, m),
                   run[k].servers[i].log, run[k].servers[i].commitIndex, w)
    ensures run[k].servers[i].log[0] == SENTINEL
  {
    RunInv(n, run, steps, k);
    RunHonest(n, run, steps, k);
    RunExtends(n, run, steps, k, m);
    CommitsGrow(n, run, steps, k, m);
    var h, p := HistoryAt(run, steps, k), ProgressAt(n, run, steps, k);
    var s := run[k].servers[i];
    assert AppliedOk(h, p, s, i) && ServerOk(h, s, i);
    w := p.wrote[i];
    BackedExtends(h, p, HistoryAt(run, steps, m), ProgressAt(n, run, steps, m), s.log, s.commitIndex, w, w);
  }

  /** The logs of two peers at two moments agree up to the lesser of their commit indices. */
  lemma CommittedAgree(n: nat, run: seq<Cluster>, steps: seq<Step>, k: nat, m: nat, i: nat, j: nat)
    requires IsHonestRun(n, run, steps) && k <= |steps| && m <= |steps|
    requires i < |run[k].servers| && j < |run[m].servers|
    requires run[k].servers[i].commitIndex <= run[m].servers[j].commitIndex
    ensures var a := run[k].servers[i].commitIndex;
            && a < |run[k].servers[i].log| && a < |run[m].servers[j].log|
            && run[k].servers[i].log[..a + 1] == run[m].servers[j].log[..a + 1]
  {
    var t := if k <= m then m else k;
    var v := BackedLater(n, run, steps, k, t, i);
    var w := BackedLater(n, run, steps, m, t, j);
    BackedAgreeAt(n, run, steps, t, run[k].servers[i].log, run[k].servers[i].commitIndex, v,
                  run[m].servers[j].log, run[m].servers[j].commitIndex, w);
  }

  lemma BackedAgreeAt(n: nat, run: seq<Cluster>, steps: seq<Step>, t: nat,
                      l: Log, a: nat, v: int, l': Log, b: nat, w: int)
    requires IsHonestRun(n, run, steps) && t <= |steps| && l[0] == l'[0] && a <= b
    requires Backed(HistoryAt(run, steps, t), ProgressAt(n, run, steps, t), l, a, v)
    requires Backed(HistoryAt(run, steps, t), ProgressAt(n, run, steps, t), l', b, w)
    ensures l[..a + 1] == l'[..a + 1]
  {
    RunInv(n, run, steps, t);
    RunHonest(n, run, steps, t);
    CommitsFormChain(run[t], HistoryAt(run, steps, t), ProgressAt(n, run, steps, t));
    BackedAgree(HistoryAt(run, steps, t), ProgressAt(n, run, steps, t), l, a, v, l', b, w);
  }

  /** In every state all committed entries are in the log and have been applied, in order, each once. */
  lemma AppliedExactly(n: nat, run: seq<Cluster>, steps: seq<Step>, k: nat, i: nat)
    requires IsHonestRun(n, run, steps) && k <= |steps| && i < |run[k].servers|
    ensures var s := run[k].servers[i];
            && s.lastApplied == s.commitIndex < |s.log| && |s.applied| == s.lastApplied
            && forall x :: 0 <= x < |s.applied| ==> s.applied[x] == ApplyMsg(x + 1, s.log[x + 1].command)
  {
    RunHonest(n, run, steps, k);
    assert AppliedOk(HistoryAt(run, steps, k), ProgressAt(n, run, steps, k), run[k].servers[i], i);
  }

  lemma AppliedPrefix(n: nat, run: seq<Cluster>, steps: seq<Step>, k: nat, m: nat, i: nat, j: nat)
    requires IsHonestRun(n, run, steps) && k <= |steps| && m <= |steps|
    requires i < |run[k].servers| && j < |run[m].servers|
    requires run[k].servers[i].commitIndex <= run[m].servers[j].commitIndex
    ensures run[k].servers[i].applied <= run[m].servers[j].applied
  {
    CommittedAgree(n, run, steps, k, m, i, j);
    AppliedExactly(n, run, steps, k, i);
    AppliedExactly(n, run, steps, m, j);
    var s, s' := run[k].servers[i], run[m].servers[j];
    forall x | 0 <= x < |s.applied| ensures s.applied[x] == s'.applied[x] {
      assert s.log[x + 1] == s.log[..s.commitIndex + 1][x + 1] == s'.log[x + 1];
    }
  }

  /** Section 5.4.3, State Machine Safety: whatever two peers have applied at any two moments of a run,
      one sequence is a prefix of the other, so no index ever gets two commands. */
  lemma StateMachineSafety(n: nat, run: seq<Cluster>, steps: seq<Step>, k: nat, m: nat, i: nat, j: nat)
    requires IsHonestRun(n, run, steps) && k <= |steps| && m <= |steps|
    requires i < |run[k].servers| && j < |run[m].servers|
    ensures run[k].servers[i].applied <= run[m].servers[j].applied ||
            run[m].servers[j].applied <= run[k].servers[i].applied
  {
    if run[k].servers[i].commitIndex <= run[m].servers[j].commitIndex {
      AppliedPrefix(n, run, steps, k, m, i, j);
    } else {
      AppliedPrefix(n, run, steps, m, k, j, i);
    }
  }

  lemma QuietCommitIndex(c: Cluster, step: Step, i: nat)
    requires Enabled(c, step) && i < |c.servers|
    requires step.DeliverAppend? ==>
               !Accepts(c.servers[c.appends[step.k].dst], c.appends[step.k].args) || c.appends[step.k].dst != i
    requires step.HandleAppend? ==>
               || !c.appends[step.k].phase.reply.success || c.appends[step.k].src != i
               || c.appends[step.k].phase.reply.term > c.servers[c.appends[step.k].src].term
               || Apply(c, step).servers[i].commitIndex == c.servers[i].commitIndex
    ensures i < |Apply(c, step).servers| && Apply(c, step).servers[i].commitIndex == c.servers[i].commitIndex
  {
  }

  lemma StepCommitIndex(c: Cluster, h: History, p: Progress, step: Step, i: nat)
    requires Inv(c, h) && HonestInv(c, h, p) && Enabled(c, step) && Honest(c, p, step) && i < |c.servers|
    ensures i < |Apply(c, step).servers| && c.servers[i].commitIndex <= Apply(c, step).servers[i].commitIndex
  {
    if step.DeliverAppend? && Accepts(c.servers[c.appends[step.k].dst], c.appends[step.k].args) &&
       c.appends[step.k].dst == i {
      AcceptApplied(c, h, p, step.k, Apply(c, step), Advance(c, p, step));
    } else if step.HandleAppend? && c.appends[step.k].phase.reply.success && c.appends[step.k].src == i &&
              c.appends[step.k].phase.reply.term <= c.servers[c.appends[step.k].src].term &&
              c.servers[i].role == Leader {
      SuccessShape(c, p, step.k);
      SuccessApplied(c, h, p, step.k, Apply(c, step), Advance(c, p, step));
    } else {
      QuietCommitIndex(c, step, i);
    }
  }

  lemma {:induction false} CommitIndexGrows(n: nat, run: seq<Cluster>, steps: seq<Step>, k: nat, m: nat, i: nat)
    requires IsHonestRun(n, run, steps) && k <= m <= |steps|
    requires i < |run[k].servers| && i < |run[m].servers|
    ensures run[k].servers[i].commitIndex <= run[m].servers[i].commitIndex
    decreases m
  {
    if k < m {
      RunSize(n, run, steps, m - 1);
      RunSize(n, run, steps, m);
      CommitIndexGrows(n, run, steps, k, m - 1, i);
      RunInv(n, run, steps, m - 1);
      RunHonest(n, run, steps, m - 1);
      assert HonestAt(n, run, steps, m - 1);
      StepCommitIndex(run[m - 1], HistoryAt(run, steps, m - 1), ProgressAt(n, run, steps, m - 1), steps[m - 1], i);
    }
  }

  /** Committed entries are never cut: the commit index never decreases, the log up to it never changes
      again, and what has been applied stays applied. */
  lemma CommittedNeverCut(n: nat, run: seq<Cluster>, steps: seq<Step>, k: nat, m: nat, i: nat)
    requires IsHonestRun(n, run, steps) && k <= m <= |steps|
    requires i < |run[k].servers| && i < |run[m].servers|
    ensures var s, s' := run[k].servers[i], run[m].servers[i];
            && s.commitIndex <= s'.commitIndex && s.commitIndex < |s.log| && s.commitIndex < |s'.log|
            && s'.log[..s.commitIndex + 1] == s.log[..s.commitIndex + 1]
            && s.applied <= s'.applied
  {
    CommitIndexGrows(n, run, steps, k, m, i);
    CommittedAgree(n, run, steps, k, m, i, i);
    AppliedPrefix(n, run, steps, k, m, i, i);
  }

  lemma CommitStep(c: Cluster, h: History, p: Progress, k: nat)
    requires Inv(c, h) && HonestInv(c, h, p) && Enabled(c, HandleAppend(k)) && Honest(c, p, HandleAppend(k))
    requires var i := c.appends[k].src;
             Apply(c, HandleAppend(k)).servers[i].commitIndex != c.servers[i].commitIndex
    ensures var i := c.appends[k].src;
            var s, s' := c.servers[i], Apply(c, HandleAppend(k)).servers[i];
            && Mark(s.term, s'.commitIndex) in Advance(c, p, HandleAppend(k)).commits
            && s'.log == s.log && s'.commitIndex < |s.log|
            && s.term in h.reigns && h.reigns[s.term].log == s.log
  {
    var i := c.appends[k].src;
    assert c.appends[k].phase.reply.success && c.appends[k].phase.reply.term <= c.servers[i].term;
    SuccessShape(c, p, k);
    assert ServerOk(h, c.servers[i], i);
  }

  /** At moment t it is on record that the leader of x.term has committed `prefix`. */
  ghost predicate OnRecord(n: nat, run: seq<Cluster>, steps: seq<Step>, t: nat, x: Mark, prefix: seq<Entry>)
    requires AllEnabled(run, steps) && t <= |steps|
  {
    Recorded(HistoryAt(run, steps, t), ProgressAt(n, run, steps, t), x, prefix)
  }

  /** In this history and with these commits the leader of x.term has committed `prefix`. */
  ghost predicate Recorded(h: History, p: Progress, x: Mark, prefix: seq<Entry>) {
    && x in p.commits
    && x.term in h.reigns && x.index < |h.reigns[x.term].log| && UpTo(h, x.term, x.index) == prefix
  }

  lemma CommitRecorded(c: Cluster, h: History, p: Progress, k: nat)
    requires Inv(c, h) && HonestInv(c, h, p) && Enabled(c, HandleAppend(k)) && Honest(c, p, HandleAppend(k))
    requires var i := c.appends[k].src;
             Apply(c, HandleAppend(k)).servers[i].commitIndex != c.servers[i].commitIndex
    ensures var i := c.appends[k].src;
            var s' := Apply(c, HandleAppend(k)).servers[i];
            && s'.commitIndex < |s'.log|
            && Recorded(Record(c, h, HandleAppend(k)), Advance(c, p, HandleAppend(k)),
                        Mark(c.servers[i].term, s'.commitIndex), s'.log[..s'.commitIndex + 1])
  {
    CommitStep(c, h, p, k);
  }

  lemma CommitGoesOnRecord(n: nat, run: seq<Cluster>, steps: seq<Step>, k: nat)
    requires IsHonestRun(n, run, steps) && k < |steps| && steps[k].HandleAppend?
    requires var i := run[k].appends[steps[k].k].src;
             run[k + 1].servers[i].commitIndex != run[k].servers[i].commitIndex
    ensures var i := run[k].appends[steps[k].k].src;
            var s' := run[k + 1].servers[i];
            && s'.commitIndex < |s'.log|
            && OnRecord(n, run, steps, k + 1, Mark(run[k].servers[i].term, s'.commitIndex),
                        s'.log[..s'.commitIndex + 1])
  {
    RunInv(n, run, steps, k);
    RunHonest(n, run, steps, k);
    assert HonestAt(n, run, steps, k);
    CommitRecorded(run[k], HistoryAt(run, steps, k), ProgressAt(n, run, steps, k), steps[k].k);
  }

  lemma StaysOnRecord(n: nat, run: seq<Cluster>, steps: seq<Step>, k: nat, t: nat, x: Mark, prefix: seq<Entry>)
    requires IsHonestRun(n, run, steps) && k <= t <= |steps| && OnRecord(n, run, steps, k, x, prefix)
    ensures OnRecord(n, run, steps, t, x, prefix)
  {
    RunExtends(n, run, steps, k, t);
    CommitsGrow(n, run, steps, k, t);
    assert HistoryAt(run, steps, k).reigns[x.term].log <= HistoryAt(run, steps, t).reigns[x.term].log;
  }

  /** A leader's log, at any moment m, holds what an earlier leader has on record at a later moment t. */
  lemma LeaderHolds(n: nat, run: seq<Cluster>, steps: seq<Step>, m: nat, t: nat, j: nat, x: Mark, prefix: seq<Entry>)
    requires IsHonestRun(n, run, steps) && m <= t <= |steps| && j < |run[m].servers|
    requires run[m].servers[j].role == Leader && x.term < run[m].servers[j].term
    requires OnRecord(n, run, steps, t, x, prefix)
    ensures prefix <= run[m].servers[j].log
  {
    RunInv(n, run, steps, m);
    RunHonest(n, run, steps, t);
    RunExtends(n, run, steps, m, t);
    var h, g, q := HistoryAt(run, steps, m), HistoryAt(run, steps, t), ProgressAt(n, run, steps, t);
    var s := run[m].servers[j];
    assert ServerOk(h, s, j);
    assert ReignOk(h, s.term, h.reigns[s.term], run[m].servers);
    assert CommitOk(g, q, x.term, x.index, |run[t].servers|);
    CommittedIsSettled(run[t], g, q, x.term, x.index);
  }

  /** Section 5.4, Leader Completeness: what a leader commits in a term, whenever it does, is in the log of
      every peer that leads a later term at any moment of the run. */
  lemma LeaderCompleteness(n: nat, run: seq<Cluster>, steps: seq<Step>, k: nat, m: nat, j: nat)
    requires IsHonestRun(n, run, steps) && k < |steps| && m <= |steps| && j < |run[m].servers|
    requires steps[k].HandleAppend?
    requires var i := run[k].appends[steps[k].k].src;
             && run[k + 1].servers[i].commitIndex != run[k].servers[i].commitIndex
             && run[m].servers[j].role == Leader && run[m].servers[j].term > run[k].servers[i].term
    ensures var s := run[k + 1].servers[run[k].appends[steps[k].k].src];
            s.commitIndex < |s.log| && s.log[..s.commitIndex + 1] <= run[m].servers[j].log
  {
    var i := run[k].appends[steps[k].k].src;
    var s := run[k + 1].servers[i];
    var x := Mark(run[k].servers[i].term, s.commitIndex);
    CommitGoesOnRecord(n, run, steps, k);
    var prefix := s.log[..s.commitIndex + 1];
    var t := if k + 1 <= m then m else k + 1;
    StaysOnRecord(n, run, steps, k + 1, t, x, prefix);
    LeaderHolds(n, run, steps, m, t, j, x, prefix);
  }
}
