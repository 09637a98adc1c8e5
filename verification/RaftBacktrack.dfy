/** The NextIndex loop of StartAppendLog between a leader and one follower, without interleaving. */
module RaftBacktrack {
  import opened RaftTypes
  import opened RaftServer
  import opened Quorum

  /** Log Matching between two logs, which both start with the sentinel. */
  predicate LogsMatch(l: Log, m: Log) {
    && l[0] == SENTINEL && m[0] == SENTINEL
    && forall k :: 0 <= k < |l| && k < |m| && l[k].term == m[k].term ==> l[..k + 1] == m[..k + 1]
  }

  /** Leader l may exchange appends with follower f, which is peer id. */
  predicate CanExchange(l: Server, f: Server, id: nat) {
    l.role == Leader && IndicesInLog(l) && id < l.peers && id != l.me && LogsMatch(l.log, f.log) && f.term <= l.term
  }

  /** One turn of the loop: build, deliver, handle the reply. */
  function Exchange(l: Server, f: Server, id: nat): (r: (Server, Server, bool))
    requires CanExchange(l, f, id)
  {
    var (f', reply) := AppendEntries(f, BuildAppendArgs(l, id));
    MedianInLog(l, id);
    (OnAppendReply(l, id, reply), f', reply.success)
  }

  lemma SplicedLog(l: Log, f: Log, p: nat)
    requires LogsMatch(l, f) && p < |l| && p < |f| && l[p].term == f[p].term
    ensures f[..p + 1] + l[p + 1..] == l
  {
    assert l == l[..p + 1] + l[p + 1..];
  }

  lemma SuccessHandled(l: Server, id: nat, reply: AppendReply)
    requires l.role == Leader && IndicesInLog(l) && id < l.peers && reply.success && reply.term <= l.term
    requires Median(NewMatchIndex(l, id)) < |l.log|
    ensures var l' := OnAppendReply(l, id, reply);
            && l'.log == l.log && l'.term == l.term && l'.role == Leader
            && |l'.nextIndex| == |l'.matchIndex| == l.peers
            && l'.nextIndex[id] == |l.log| && l'.matchIndex[id] == |l.log| - 1
  {
  }

  /** A turn in which the consistency check holds makes the logs equal. */
  lemma ExchangeAccepted(l: Server, f: Server, id: nat)
    requires CanExchange(l, f, id) && Accepts(f, BuildAppendArgs(l, id))
    ensures var (l', f', ok) := Exchange(l, f, id);
            && ok && l'.log == l.log && l'.term == l.term && l'.role == Leader
            && |l'.nextIndex| == |l'.matchIndex| == l.peers
            && f'.log == l.log && l'.nextIndex[id] == |l.log| && l'.matchIndex[id] == |l.log| - 1
  {
    var a := BuildAppendArgs(l, id);
    MedianInLog(l, id);
    SplicedLog(l.log, f.log, a.prevIndex);
    SuccessHandled(l, id, AppendEntries(f, a).1);
  }

  /** A turn in which it fails lowers NextIndex by one, and never below 1. */
  lemma ExchangeRefused(l: Server, f: Server, id: nat)
    requires CanExchange(l, f, id) && !Accepts(f, BuildAppendArgs(l, id))
    ensures var (l', f', ok) := Exchange(l, f, id);
            && !ok && l'.log == l.log && l'.term == l.term && l'.role == Leader
            && |l'.nextIndex| == |l'.matchIndex| == l.peers
            && CanExchange(l', f', id) && l'.nextIndex[id] == l.nextIndex[id] - 1 >= 1 && f'.log == f.log
  {
    MedianInLog(l, id);
  }

  /** A turn either makes the logs equal or lowers NextIndex by one, and never below 1. */
  lemma ExchangeStep(l: Server, f: Server, id: nat)
    requires CanExchange(l, f, id)
    ensures var (l', f', ok) := Exchange(l, f, id);
            && l'.log == l.log && l'.term == l.term && l'.role == Leader
            && |l'.nextIndex| == |l'.matchIndex| == l.peers
            && (ok ==> f'.log == l.log && l'.nextIndex[id] == |l.log| && l'.matchIndex[id] == |l.log| - 1)
            && (!ok ==> CanExchange(l', f', id) && l'.nextIndex[id] == l.nextIndex[id] - 1 >= 1 && f'.log == f.log)
  {
    if Accepts(f, BuildAppendArgs(l, id)) {
      ExchangeAccepted(l, f, id);
    } else {
      ExchangeRefused(l, f, id);
    }
  }

  /** The loop: exchange until the follower accepts. The last component counts the exchanges. */
  function Backtrack(l: Server, f: Server, id: nat): (r: (Server, Server, nat))
    requires CanExchange(l, f, id)
    decreases l.nextIndex[id]
  {
    ExchangeStep(l, f, id);
    var (l', f', ok) := Exchange(l, f, id);
    if ok then (l', f', 1)
    else
      var (l'', f'', n) := Backtrack(l', f', id);
      (l'', f'', n + 1)
  }

  /** The loop ends after at most NextIndex[id] exchanges with the follower's log equal to the leader's, which
      has not changed, and with the leader's indices for the follower at the end of its log. */
  lemma {:induction false} BacktrackingReplicates(l: Server, f: Server, id: nat)
    requires CanExchange(l, f, id)
    ensures var (l', f', n) := Backtrack(l, f, id);
            && 1 <= n <= l.nextIndex[id]
            && f'.log == l'.log == l.log
            && |l'.nextIndex| == |l'.matchIndex| == l.peers
            && l'.nextIndex[id] == |l.log| && l'.matchIndex[id] == |l.log| - 1
            && l'.role == Leader && l'.term == l.term
    decreases l.nextIndex[id]
  {
    ExchangeStep(l, f, id);
    var (l', f', ok) := Exchange(l, f, id);
    if !ok { BacktrackingReplicates(l', f', id); }
  }
}
