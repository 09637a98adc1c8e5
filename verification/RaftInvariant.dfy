/** Every step keeps the invariant of RaftHistory: the proof, step by step. */
module RaftInvariant {
  import opened RaftTypes
  import opened RaftServer
  import opened RaftCluster
  import opened RaftHistory
  import opened Quorum

  lemma LogOkExtends(h: History, h': History, l: Log)
    requires LogOk(h, l) && Extends(h, h')
    ensures LogOk(h', l)
  {
    forall k | 1 <= k < |l| ensures EntryOk(h', l, k) {
      assert EntryOk(h, l, k);
      var t := l[k].term;
      assert h'.reigns[t].log[..k + 1] == h.reigns[t].log[..k + 1];
    }
  }

  /** A prefix of a justified log is justified. */
  lemma LogOkPrefix(h: History, l: Log, p: Log)
    requires LogOk(h, l) && p <= l
    ensures LogOk(h, p)
  {
    forall k | 1 <= k < |p| ensures EntryOk(h, p, k) {
      assert EntryOk(h, l, k);
      assert p[..k + 1] == l[..k + 1];
    }
  }

  /** Two justified logs that hold an entry of the same index and term agree up to it. */
  lemma LogsMatch(h: History, l: Log, m: Log, k: nat)
    requires LogOk(h, l) && LogOk(h, m)
    requires k < |l| && k < |m| && l[k].term == m[k].term
    ensures l[..k + 1] == m[..k + 1]
  {
    if k > 0 {
      assert EntryOk(h, l, k) && EntryOk(h, m, k);
    }
  }

  lemma AddVoteExtends(h: History, term: nat, voter: nat, vote: Vote)
    ensures Extends(h, AddVote(h, term, voter, vote))
  {
  }

  /** Justified logs have ascending terms, because leaders' logs do. */
  lemma LogAscends(c: Cluster, h: History, l: Log)
    requires ReignsOk(c, h) && LogOk(h, l)
    ensures TermsAscend(l)
  {
    forall a, b | 0 <= a < b < |l| ensures l[a].term <= l[b].term {
      assert EntryOk(h, l, b);
      var t := l[b].term;
      var r := h.reigns[t];
      assert ReignOk(h, t, r, c.servers);
      assert l[a] == l[..b + 1][a] && l[b] == l[..b + 1][b];
      assert l[a] == r.log[..b + 1][a] == r.log[a] && l[b] == r.log[b];
    }
  }

  lemma InitInv(n: nat)
    ensures Inv(Init(n), History(map[], map[]))
  {
  }

  /** The step changes one peer, and the history only by votes of that peer. */
  ghost predicate OnlyPeer(h: History, h': History, i: nat, s: Server, s': Server) {
    && h'.reigns == h.reigns
    && Extends(h, h')
    && (forall x :: x in h'.votes && x !in h.votes ==> x.peer == i && LogOk(h, h'.votes[x].log))
    && ServerOk(h', s', i)
    && s'.me == s.me && s'.peers == s.peers
    && s'.term >= s.term
    && (s'.term == s.term ==> s'.role == s.role)
    && (s'.term == s.term && s'.role == Candidate && s.term !in h.reigns ==> s'.log == s.log)
  }

  lemma ElectionOkExtends(h: History, h': History, e: Election, s: Server, s': Server)
    requires ElectionOk(h, e, s) && OnlyPeer(h, h', e.cand, s, s')
    ensures ElectionOk(h', e, s')
  {
    forall j: nat | j < |e.calls| && SaysYes(e.calls[j]) ensures Granted(h', e, j) {
      assert Granted(h, e, j);
    }
  }

  lemma ElectionOkFrame(h: History, h': History, e: Election, s: Server)
    requires ElectionOk(h, e, s) && Extends(h, h')
    ensures ElectionOk(h', e, s)
  {
    forall j: nat | j < |e.calls| && SaysYes(e.calls[j]) ensures Granted(h', e, j) {
      assert Granted(h, e, j);
    }
  }

  lemma PeerInv(c: Cluster, h: History, h': History, i: nat, s': Server)
    requires Inv(c, h) && i < |c.servers| && OnlyPeer(h, h', i, c.servers[i], s')
    ensures Inv(SetServer(c, i, s'), h')
  {
    var c' := SetServer(c, i, s');
    forall j: nat | j < |c.servers| ensures ServerOk(h', c'.servers[j], j) {
      assert ServerOk(h, c.servers[j], j);
      LogOkExtends(h, h', c.servers[j].log);
    }
    forall t | t in h'.reigns ensures ReignOk(h', t, h'.reigns[t], c'.servers) {
      assert ReignOk(h, t, h.reigns[t], c.servers);
      LogOkExtends(h, h', h.reigns[t].log);
    }
    forall x | x in h'.votes ensures VoteOk(h', x, |c'.servers|) {
      if x in h.votes { assert VoteOk(h, x, |c.servers|); }
      LogOkExtends(h, h', h'.votes[x].log);
    }
    forall e | 0 <= e < |c'.elections| ensures ElectionOk(h', c'.elections[e], c'.servers[c'.elections[e].cand]) {
      var el := c.elections[e];
      assert ElectionOk(h, el, c.servers[el.cand]);
      if el.cand == i {
        ElectionOkExtends(h, h', el, c.servers[i], s');
      } else {
        ElectionOkFrame(h, h', el, c.servers[el.cand]);
      }
    }
    forall k | 0 <= k < |c'.appends| ensures AppendOk(h', c'.appends[k]) {
      assert AppendOk(h, c.appends[k]);
    }
  }

  lemma TimeoutInv(c: Cluster, h: History, i: nat)
    requires Inv(c, h) && Enabled(c, Timeout(i))
    ensures Inv(Apply(c, Timeout(i)), Record(c, h, Timeout(i)))
  {
    var h' := Record(c, h, Timeout(i));
    var s := c.servers[i];
    assert ServerOk(h, s, i);
    AddVoteExtends(h, s.term + 1, i, Vote(i, s.log));
    LogOkExtends(h, h', s.log);
    PeerInv(c, h, h', i, BeCandidate(s));
    var c1 := SetServer(c, i, BeCandidate(s));
    assert Apply(c, Timeout(i)) == c1.(pending := c.pending[i := c.pending[i] + 1]);
  }

  lemma NewElectionOk(h: History, s: Server, i: nat, el: Election)
    requires s.me == i < |el.calls| && el.cand == i && el.args == BuildVoteArgs(s) && el.count == 1
    requires forall j :: 0 <= j < |el.calls| ==> el.calls[j] == if j == i then Handled(false) else Waiting
    ensures ElectionOk(h, el, s)
  {
    assert Granters(el) == {};
  }

  lemma StartElectionInv(c: Cluster, h: History, i: nat)
    requires Inv(c, h) && Enabled(c, StartElection(i))
    ensures Inv(Apply(c, StartElection(i)), Record(c, h, StartElection(i)))
  {
    var c' := Apply(c, StartElection(i));
    var m := |c.elections|;
    assert ServerOk(h, c.servers[i], i);
    NewElectionOk(h, c.servers[i], i, c'.elections[m]);
    forall e | 0 <= e < |c'.elections| ensures ElectionOk(h, c'.elections[e], c'.servers[c'.elections[e].cand]) {
      if e < m {
        assert c'.elections[e] == c.elections[e];
        assert ElectionOk(h, c.elections[e], c.servers[c.elections[e].cand]);
      }
    }
    assert ServersOk(c', h) && ReignsOk(c', h) && VotesOk(c', h) && AppendsOk(c', h);
  }

  lemma CatchUpOk(h: History, s: Server, i: nat, term: nat)
    requires ServerOk(h, s, i)
    ensures ServerOk(h, CatchUp(s, term), i)
  {
  }

  lemma GrantOk(h: History, s: Server, i: nat, a: VoteArgs)
    requires ServerOk(h, s, i) && RequestVote(s, a).1.granted
    ensures var h' := AddVote(h, a.term, i, Vote(a.candidate, s.log));
            OnlyPeer(h, h', i, s, RequestVote(s, a).0)
  {
    var h' := AddVote(h, a.term, i, Vote(a.candidate, s.log));
    AddVoteExtends(h, a.term, i, Vote(a.candidate, s.log));
    LogOkExtends(h, h', s.log);
    CatchUpOk(h, s, i, a.term);
  }

  lemma SetCallInv(c: Cluster, h: History, e: nat, j: nat, count: nat, call: VoteCall)
    requires Inv(c, h) && e < |c.elections| && j < |c.servers| && j != c.elections[e].cand
    requires ElectionOk(h, SetCall(c, e, j, count, call).elections[e], c.servers[c.elections[e].cand])
    ensures Inv(SetCall(c, e, j, count, call), h)
  {
    var c' := SetCall(c, e, j, count, call);
    forall d | 0 <= d < |c'.elections| ensures ElectionOk(h, c'.elections[d], c'.servers[c'.elections[d].cand]) {
      assert ElectionOk(h, c.elections[d], c.servers[c.elections[d].cand]);
    }
    assert ServersOk(c', h) && ReignsOk(c', h) && VotesOk(c', h) && AppendsOk(c', h);
  }

  /** Recording the answer of peer j keeps the election in order, if a granted vote is on record. */
  lemma AnswerElectionOk(h: History, el: Election, s: Server, j: nat, reply: VoteReply)
    requires ElectionOk(h, el, s) && j < |el.calls| && el.calls[j].Waiting?
    requires reply.granted ==> Granted(h, el, j)
    ensures ElectionOk(h, el.(calls := el.calls[j := Replied(reply)]), s)
  {
    var el' := el.(calls := el.calls[j := Replied(reply)]);
    assert Granters(el') == Granters(el);
    forall i: nat | i < |el'.calls| && SaysYes(el'.calls[i]) ensures Granted(h, el', i) {
      if i != j {
        assert SaysYes(el.calls[i]) && Granted(h, el, i);
      }
    }
  }

  lemma DeliverVoteInv(c: Cluster, h: History, e: nat, j: nat)
    requires Inv(c, h) && Enabled(c, DeliverVote(e, j))
    ensures Inv(Apply(c, DeliverVote(e, j)), Record(c, h, DeliverVote(e, j)))
  {
    var h' := Record(c, h, DeliverVote(e, j));
    var el := c.elections[e];
    var (s, reply) := RequestVote(c.servers[j], el.args);
    assert ServerOk(h, c.servers[j], j);
    assert ElectionOk(h, el, c.servers[el.cand]);
    CatchUpOk(h, c.servers[j], j, el.args.term);
    if reply.granted {
      GrantOk(h, c.servers[j], j, el.args);
    }
    PeerInv(c, h, h', j, s);
    var c1 := SetServer(c, j, s);
    assert ElectionOk(h', el, c1.servers[el.cand]);
    AnswerElectionOk(h', el, c1.servers[el.cand], j, reply);
    SetCallInv(c1, h', e, j, el.count, Replied(reply));
  }

  // ---- a vote reply, and winning an election ----

  /** The election after the reply of peer j has been handled. */
  ghost function Counted(el: Election, j: nat, counted: bool): Election
    requires j < |el.calls|
  {
    el.(count := if counted then el.count + 1 else el.count, calls := el.calls[j := Handled(counted)])
  }

  lemma CountGranters(el: Election, j: nat, counted: bool)
    requires j < |el.calls| && el.calls[j].Replied?
    ensures |Granters(Counted(el, j, counted))| == |Granters(el)| + if counted then 1 else 0
  {
    var el' := Counted(el, j, counted);
    assert j !in Granters(el);
    if counted {
      assert Granters(el') == Granters(el) + {j};
    } else {
      assert Granters(el') == Granters(el);
    }
  }

  /** Counting a reply adds its sender to the counted peers exactly when the vote was granted. */
  lemma CountOk(h: History, el: Election, s: Server, j: nat, counted: bool)
    requires ElectionOk(h, el, s) && j < |el.calls| && el.calls[j].Replied?
    requires counted ==> el.calls[j].reply.granted
    ensures ElectionOk(h, Counted(el, j, counted), s)
  {
    var el' := Counted(el, j, counted);
    CountGranters(el, j, counted);
    forall i: nat | i < |el'.calls| && SaysYes(el'.calls[i]) ensures Granted(h, el', i) {
      assert SaysYes(el.calls[i]) && Granted(h, el, i);
    }
  }

  /** A candidate whose counter passes half of the peers has a majority of the votes of its term,
      and nobody else has led that term. */
  lemma WinnerIsFirst(c: Cluster, h: History, el: Election)
    requires WellFormed(c) && ReignsOk(c, h) && el.cand < |c.servers| && |el.calls| == |c.servers|
    requires var s := c.servers[el.cand];
             && ServerOk(h, s, el.cand) && ElectionOk(h, el, s)
             && s.role == Candidate && s.term == el.args.term && el.count > |c.servers| / 2
    ensures var voters := Granters(el) + {el.cand};
            && Majority(voters, |c.servers|)
            && (forall v :: v in voters ==>
                  Slot(el.args.term, v) in h.votes && h.votes[Slot(el.args.term, v)].cand == el.cand)
            && el.args.term !in h.reigns
  {
    var voters := Granters(el) + {el.cand};
    var u := el.args.term;
    assert el.cand !in Granters(el);
    forall v | v in Granters(el) ensures Slot(u, v) in h.votes && h.votes[Slot(u, v)].cand == el.cand {
      assert SaysYes(el.calls[v]) && Granted(h, el, v);
    }
    if u in h.reigns {
      assert ReignOk(h, u, h.reigns[u], c.servers);
      var _ := MajoritiesMeet(voters, h.reigns[u].voters, |c.servers|);
    }
  }

  /** The history after candidate i wins its term with these voters. */
  ghost function Crown(h: History, i: nat, voters: set<nat>, s: Server): History {
    h.(reigns := h.reigns[s.term := Reign(i, voters, s.log, s.log)])
  }

  lemma CrownReign(c: Cluster, h: History, i: nat, voters: set<nat>)
    requires Inv(c, h) && i < |c.servers| && c.servers[i].role == Candidate
    requires c.servers[i].term !in h.reigns && Majority(voters, |c.servers|)
    requires forall v :: v in voters ==>
               Slot(c.servers[i].term, v) in h.votes && h.votes[Slot(c.servers[i].term, v)].cand == i
    ensures var s := c.servers[i];
            var h' := Crown(h, i, voters, s);
            ReignOk(h', s.term, h'.reigns[s.term], c.servers[i := BeLeader(s)])
  {
    var s := c.servers[i];
    var h' := Crown(h, i, voters, s);
    assert ServerOk(h, s, i);
    LogOkExtends(h, h', s.log);
    LogAscends(c, h, s.log);
    forall k | 0 <= k < |s.log| ensures s.log[k].term <= s.term - 1 {
      if k > 0 { assert EntryOk(h, s.log, k); }
    }
  }

  lemma CrownInv(c: Cluster, h: History, i: nat, voters: set<nat>)
    requires Inv(c, h) && i < |c.servers| && c.servers[i].role == Candidate
    requires c.servers[i].term !in h.reigns && Majority(voters, |c.servers|)
    requires forall v :: v in voters ==>
               Slot(c.servers[i].term, v) in h.votes && h.votes[Slot(c.servers[i].term, v)].cand == i
    ensures Inv(SetServer(c, i, BeLeader(c.servers[i])), Crown(h, i, voters, c.servers[i]))
  {
    var s := c.servers[i];
    var c', h' := SetServer(c, i, BeLeader(s)), Crown(h, i, voters, s);
    assert Extends(h, h');
    CrownReign(c, h, i, voters);
    forall j: nat | j < |c.servers| ensures ServerOk(h', c'.servers[j], j) {
      assert ServerOk(h, c.servers[j], j);
      LogOkExtends(h, h', c.servers[j].log);
    }
    forall t | t in h'.reigns ensures ReignOk(h', t, h'.reigns[t], c'.servers) {
      if t != s.term {
        assert ReignOk(h, t, h.reigns[t], c.servers);
        LogOkExtends(h, h', h.reigns[t].log);
      }
    }
    forall x | x in h'.votes ensures VoteOk(h', x, |c'.servers|) {
      assert VoteOk(h, x, |c.servers|);
      LogOkExtends(h, h', h.votes[x].log);
    }
    forall e | 0 <= e < |c'.elections| ensures ElectionOk(h', c'.elections[e], c'.servers[c'.elections[e].cand]) {
      var el := c.elections[e];
      assert ElectionOk(h, el, c.servers[el.cand]);
      ElectionOkFrame(h, h', el, c.servers[el.cand]);
    }
    forall k | 0 <= k < |c'.appends| ensures AppendOk(h', c'.appends[k]) {
      assert AppendOk(h, c.appends[k]);
    }
  }

  /** The reply has been counted, and nothing else has happened yet. */
  ghost function CountedCall(c: Cluster, e: nat, j: nat): Cluster
    requires Enabled(c, HandleVote(e, j))
  {
    var el := c.elections[e];
    var count := OnVoteReply(c.servers[el.cand], el.args.term, el.count, el.calls[j].reply).1;
    SetCall(c, e, j, count, Handled(count > el.count))
  }

  lemma CountedInv(c: Cluster, h: History, e: nat, j: nat)
    requires Inv(c, h) && Enabled(c, HandleVote(e, j))
    ensures Inv(CountedCall(c, e, j), h)
  {
    var el := c.elections[e];
    var s := c.servers[el.cand];
    var count := OnVoteReply(s, el.args.term, el.count, el.calls[j].reply).1;
    assert ElectionOk(h, el, s);
    CountOk(h, el, s, j, count > el.count);
    SetCallInv(c, h, e, j, count, Handled(count > el.count));
  }

  lemma WinInv(c: Cluster, h: History, e: nat)
    requires Inv(c, h) && e < |c.elections|
    requires var el := c.elections[e];
             var s := c.servers[el.cand];
             s.role == Candidate && s.term == el.args.term && el.count > |c.servers| / 2
    ensures var el := c.elections[e];
            var s := c.servers[el.cand];
            Inv(SetServer(c, el.cand, BeLeader(s)), Crown(h, el.cand, Granters(el) + {el.cand}, s))
  {
    var el := c.elections[e];
    assert ElectionOk(h, el, c.servers[el.cand]);
    WinnerIsFirst(c, h, el);
    CrownInv(c, h, el.cand, Granters(el) + {el.cand});
  }

  lemma LostInv(c: Cluster, h: History, i: nat, s': Server)
    requires Inv(c, h) && i < |c.servers|
    requires s' == c.servers[i] || exists t: nat :: t > c.servers[i].term && s' == BeFollower(c.servers[i], t)
    ensures Inv(SetServer(c, i, s'), h)
  {
    assert ServerOk(h, c.servers[i], i);
    PeerInv(c, h, h, i, s');
  }

  lemma HandleVoteInv(c: Cluster, h: History, e: nat, j: nat)
    requires Inv(c, h) && Enabled(c, HandleVote(e, j))
    ensures Inv(Apply(c, HandleVote(e, j)), Record(c, h, HandleVote(e, j)))
  {
    var el := c.elections[e];
    var s := c.servers[el.cand];
    var s' := OnVoteReply(s, el.args.term, el.count, el.calls[j].reply).0;
    var c1 := CountedCall(c, e, j);
    CountedInv(c, h, e, j);
    if s'.role == Leader && s.role != Leader {
      WinInv(c1, h, e);
    } else {
      LostInv(c1, h, el.cand, s');
    }
    assert Apply(c, HandleVote(e, j)) == SetServer(c1, el.cand, s');
  }

  // ---- client commands ----

  lemma StartExtends(c: Cluster, h: History, i: nat, command: Command)
    requires Inv(c, h) && Enabled(c, ClientStart(i, command))
    ensures Extends(h, Record(c, h, ClientStart(i, command)))
  {
    assert ServerOk(h, c.servers[i], i);
  }

  lemma StartLogOk(c: Cluster, h: History, i: nat, command: Command)
    requires Inv(c, h) && Enabled(c, ClientStart(i, command)) && c.servers[i].role == Leader
    ensures LogOk(Record(c, h, ClientStart(i, command)), Start(c.servers[i], command).log)
  {
    var h' := Record(c, h, ClientStart(i, command));
    var s := c.servers[i];
    assert ServerOk(h, s, i);
    StartExtends(c, h, i, command);
    LogOkExtends(h, h', s.log);
    var l := Start(s, command).log;
    forall k | 1 <= k < |l| ensures EntryOk(h', l, k) {
      if k < |s.log| {
        assert EntryOk(h', s.log, k);
        assert l[..k + 1] == s.log[..k + 1];
      }
    }
  }

  lemma StartServersOk(c: Cluster, h: History, i: nat, command: Command)
    requires Inv(c, h) && Enabled(c, ClientStart(i, command)) && c.servers[i].role == Leader
    ensures ServersOk(Apply(c, ClientStart(i, command)), Record(c, h, ClientStart(i, command)))
  {
    var c', h' := Apply(c, ClientStart(i, command)), Record(c, h, ClientStart(i, command));
    assert ServerOk(h, c.servers[i], i);
    StartExtends(c, h, i, command);
    StartLogOk(c, h, i, command);
    forall j: nat | j < |c.servers| ensures ServerOk(h', c'.servers[j], j) {
      assert ServerOk(h, c.servers[j], j);
      if j != i { ServerFrame(h, h', c.servers[j], j); }
    }
  }

  lemma ServerFrame(h: History, h': History, s: Server, j: nat)
    requires ServerOk(h, s, j) && Extends(h, h') && h'.votes == h.votes && h'.reigns.Keys == h.reigns.Keys
    requires s.role == Leader ==> h'.reigns[s.term] == h.reigns[s.term]
    ensures ServerOk(h', s, j)
  {
    LogOkExtends(h, h', s.log);
  }

  lemma ReignFrame(h: History, h': History, t: int, r: Reign, servers: seq<Server>, servers': seq<Server>)
    requires ReignOk(h, t, r, servers) && Extends(h, h') && |servers'| == |servers|
    requires forall j :: 0 <= j < |servers| ==>
               servers'[j].term == servers[j].term && servers'[j].role == servers[j].role
    ensures ReignOk(h', t, r, servers')
  {
    LogOkExtends(h, h', r.log);
  }

  lemma StartReignsOk(c: Cluster, h: History, i: nat, command: Command)
    requires Inv(c, h) && Enabled(c, ClientStart(i, command)) && c.servers[i].role == Leader
    ensures ReignsOk(Apply(c, ClientStart(i, command)), Record(c, h, ClientStart(i, command)))
  {
    var c', h' := Apply(c, ClientStart(i, command)), Record(c, h, ClientStart(i, command));
    assert ServerOk(h, c.servers[i], i);
    StartExtends(c, h, i, command);
    StartLogOk(c, h, i, command);
    forall t | t in h'.reigns ensures ReignOk(h', t, h'.reigns[t], c'.servers) {
      assert ReignOk(h, t, h.reigns[t], c.servers);
      if t == c.servers[i].term {
        ReignGrows(h, h', t, h.reigns[t], command, c.servers, c'.servers);
      } else {
        ReignFrame(h, h', t, h.reigns[t], c.servers, c'.servers);
      }
    }
  }

  /** The leader of term t appends a command. */
  lemma ReignGrows(h: History, h': History, t: int, r: Reign, command: Command,
                   servers: seq<Server>, servers': seq<Server>)
    requires ReignOk(h, t, r, servers) && Extends(h, h') && |servers'| == |servers|
    requires forall j :: 0 <= j < |servers| ==>
               servers'[j].term == servers[j].term && servers'[j].role == servers[j].role
    requires LogOk(h', r.log + [Entry(t, command)])
    ensures ReignOk(h', t, r.(log := r.log + [Entry(t, command)]), servers')
  {
  }

  lemma ClientStartInv(c: Cluster, h: History, i: nat, command: Command)
    requires Inv(c, h) && Enabled(c, ClientStart(i, command))
    ensures Inv(Apply(c, ClientStart(i, command)), Record(c, h, ClientStart(i, command)))
  {
    var c', h' := Apply(c, ClientStart(i, command)), Record(c, h, ClientStart(i, command));
    assert ServerOk(h, c.servers[i], i);
    if c.servers[i].role != Leader {
      assert c'.servers == c.servers;
      return;
    }
    StartExtends(c, h, i, command);
    StartServersOk(c, h, i, command);
    StartReignsOk(c, h, i, command);
    forall x | x in h'.votes ensures VoteOk(h', x, |c'.servers|) {
      assert VoteOk(h, x, |c.servers|);
      LogOkExtends(h, h', h.votes[x].log);
    }
    forall e | 0 <= e < |c'.elections| ensures ElectionOk(h', c'.elections[e], c'.servers[c'.elections[e].cand]) {
      var el := c.elections[e];
      assert ElectionOk(h, el, c.servers[el.cand]);
      ElectionOkFrame(h, h', el, c.servers[el.cand]);
    }
    forall k | 0 <= k < |c'.appends| ensures AppendOk(h', c'.appends[k]) {
      assert AppendOk(h, c.appends[k]);
    }
  }

  // ---- append calls ----

  lemma SendAppendInv(c: Cluster, h: History, i: nat, j: nat)
    requires Inv(c, h) && Enabled(c, SendAppend(i, j))
    ensures Inv(Apply(c, SendAppend(i, j)), h)
  {
    var c' := Apply(c, SendAppend(i, j));
    var s := c.servers[i];
    assert ServerOk(h, s, i);
    assert ReignOk(h, s.term, h.reigns[s.term], c.servers);
    forall k | 0 <= k < |c'.appends| ensures AppendOk(h, c'.appends[k]) {
      if k < |c.appends| {
        assert AppendOk(h, c.appends[k]);
      }
    }
    assert ServersOk(c', h) && ReignsOk(c', h) && VotesOk(c', h) && ElectionsOk(c', h);
  }

  /** An accepted append leaves the follower with exactly the log the leader had when it built the message. */
  lemma AcceptedIsSent(c: Cluster, h: History, k: nat)
    requires Inv(c, h) && k < |c.appends|
    requires Accepts(c.servers[c.appends[k].dst], c.appends[k].args)
    ensures AppendEntries(c.servers[c.appends[k].dst], c.appends[k].args).0.log == c.appends[k].sent
  {
    var call := c.appends[k];
    var s, a := c.servers[call.dst], call.args;
    assert AppendOk(h, call) && ServerOk(h, s, call.dst);
    var r := h.reigns[a.term];
    assert ReignOk(h, a.term, r, c.servers);
    LogsMatch(h, s.log, r.log, a.prevIndex);
    assert r.log[..a.prevIndex + 1] == call.sent[..a.prevIndex + 1];
    AcceptedLog(s, a);
    assert call.sent == call.sent[..a.prevIndex + 1] + call.sent[a.prevIndex + 1..];
  }

  lemma AcceptedLog(s: Server, a: AppendArgs)
    requires Accepts(s, a)
    ensures AppendEntries(s, a).0.log == s.log[..a.prevIndex + 1] + a.entries
  {
  }

  lemma AppendEntriesShape(s: Server, a: AppendArgs)
    ensures var s' := AppendEntries(s, a).0;
            && s'.me == s.me && s'.peers == s.peers
            && s'.term == CatchUp(s, a.term).term
            && s'.role == CatchUp(s, a.term).role
            && s'.voteFor == CatchUp(s, a.term).voteFor
            && (!Accepts(s, a) ==> s' == CatchUp(s, a.term))
            && (AppendEntries(s, a).1.success <==> Accepts(s, a))
            && AppendEntries(s, a).1.term == s'.term
  {
  }

  lemma DeliverOk(c: Cluster, h: History, k: nat)
    requires Inv(c, h) && Enabled(c, DeliverAppend(k))
    ensures var call := c.appends[k];
            OnlyPeer(h, h, call.dst, c.servers[call.dst], AppendEntries(c.servers[call.dst], call.args).0)
  {
    var call := c.appends[k];
    var s := c.servers[call.dst];
    assert ServerOk(h, s, call.dst);
    assert AppendOk(h, call);
    AppendEntriesShape(s, call.args);
    CatchUpOk(h, s, call.dst, call.args.term);
    if Accepts(s, call.args) {
      AcceptedIsSent(c, h, k);
      var r := h.reigns[call.args.term];
      assert ReignOk(h, call.args.term, r, c.servers);
      LogOkPrefix(h, r.log, call.sent);
    }
  }

  lemma SetPhaseInv(c: Cluster, h: History, k: nat, p: AppendPhase)
    requires Inv(c, h) && k < |c.appends|
    ensures Inv(SetPhase(c, k, p), h)
  {
    var c' := SetPhase(c, k, p);
    forall m | 0 <= m < |c'.appends| ensures AppendOk(h, c'.appends[m]) {
      assert AppendOk(h, c.appends[m]);
    }
    assert ServersOk(c', h) && ReignsOk(c', h) && VotesOk(c', h) && ElectionsOk(c', h);
  }

  lemma DeliverAppendInv(c: Cluster, h: History, k: nat)
    requires Inv(c, h) && Enabled(c, DeliverAppend(k))
    ensures Inv(Apply(c, DeliverAppend(k)), h)
  {
    var call := c.appends[k];
    var (s, reply) := AppendEntries(c.servers[call.dst], call.args);
    DeliverOk(c, h, k);
    PeerInv(c, h, h, call.dst, s);
    SetPhaseInv(SetServer(c, call.dst, s), h, k, Answered(reply));
  }

  lemma HandleAppendInv(c: Cluster, h: History, k: nat)
    requires Inv(c, h) && Enabled(c, HandleAppend(k))
    ensures Inv(Apply(c, HandleAppend(k)), h)
  {
    var call := c.appends[k];
    var s := c.servers[call.src];
    var s' := OnAppendReply(s, call.dst, call.phase.reply);
    assert ServerOk(h, s, call.src);
    ReplyPeer(h, call.src, s, call.dst, call.phase.reply);
    PeerInv(c, h, h, call.src, s');
    SetPhaseInv(SetServer(c, call.src, s'), h, k, Finished);
  }

  lemma ReplyPeer(h: History, i: nat, s: Server, id: nat, r: AppendReply)
    requires ServerOk(h, s, i) && CanHandleAppendReply(s, id, r)
    ensures OnlyPeer(h, h, i, s, OnAppendReply(s, id, r))
  {
  }

  // ---- every step, every run ----

  lemma StepInv(c: Cluster, h: History, step: Step)
    requires Inv(c, h) && Enabled(c, step)
    ensures Inv(Apply(c, step), Record(c, h, step))
  {
    match step
    case Timeout(i) => TimeoutInv(c, h, i);
    case StartElection(i) => StartElectionInv(c, h, i);
    case DeliverVote(e, j) => DeliverVoteInv(c, h, e, j);
    case HandleVote(e, j) => HandleVoteInv(c, h, e, j);
    case ClientStart(i, command) => ClientStartInv(c, h, i, command);
    case SendAppend(i, j) => SendAppendInv(c, h, i, j);
    case DeliverAppend(k) => DeliverAppendInv(c, h, k);
    case HandleAppend(k) => HandleAppendInv(c, h, k);
  }

  lemma HandleVoteExtends(c: Cluster, h: History, e: nat, j: nat)
    requires Inv(c, h) && Enabled(c, HandleVote(e, j))
    ensures Extends(h, Record(c, h, HandleVote(e, j)))
  {
    var c1 := Apply(c, HandleVote(e, j));
    var el := c.elections[e];
    var s := c.servers[el.cand];
    if c1.servers[el.cand].role == Leader && s.role != Leader {
      assert ServerOk(h, s, el.cand) && ElectionOk(h, el, s);
      var count := OnVoteReply(s, el.args.term, el.count, el.calls[j].reply).1;
      CountOk(h, el, s, j, count > el.count);
      assert c1.elections[e] == Counted(el, j, count > el.count);
      WinnerIsFirst(c, h, c1.elections[e]);
    }
  }

  lemma StepExtends(c: Cluster, h: History, step: Step)
    requires Inv(c, h) && Enabled(c, step)
    ensures Extends(h, Record(c, h, step))
  {
    match step
    case ClientStart(i, command) => StartExtends(c, h, i, command);
    case HandleVote(e, j) => HandleVoteExtends(c, h, e, j);
    case _ =>
  }

  lemma {:induction false} RunInv(n: nat, run: seq<Cluster>, steps: seq<Step>, k: nat)
    requires IsRun(n, run, steps) && k <= |steps|
    ensures Inv(run[k], HistoryAt(run, steps, k))
  {
    if k == 0 {
      InitInv(n);
    } else {
      RunInv(n, run, steps, k - 1);
      StepInv(run[k - 1], HistoryAt(run, steps, k - 1), steps[k - 1]);
    }
  }

  lemma ExtendsTransitive(h: History, h': History, h'': History)
    requires Extends(h, h') && Extends(h', h'')
    ensures Extends(h, h'')
  {
  }

  lemma RunStepExtends(n: nat, run: seq<Cluster>, steps: seq<Step>, k: nat)
    requires IsRun(n, run, steps) && k < |steps|
    ensures Extends(HistoryAt(run, steps, k), HistoryAt(run, steps, k + 1))
  {
    RunInv(n, run, steps, k);
    StepExtends(run[k], HistoryAt(run, steps, k), steps[k]);
  }

  ghost function Histories(run: seq<Cluster>, steps: seq<Step>): (hs: seq<History>)
    requires AllEnabled(run, steps)
    ensures |hs| == |steps| + 1 && forall i :: 0 <= i <= |steps| ==> hs[i] == HistoryAt(run, steps, i)
  {
    seq(|steps| + 1, i requires 0 <= i <= |steps| => HistoryAt(run, steps, i))
  }

  lemma HistoriesExtend(n: nat, run: seq<Cluster>, steps: seq<Step>, hs: seq<History>, k: nat)
    requires IsRun(n, run, steps) && hs == Histories(run, steps) && k < |steps|
    ensures Extends(hs[k], hs[k + 1])
  {
    RunStepExtends(n, run, steps, k);
  }

  lemma {:induction false} ChainExtends(hs: seq<History>, k: nat, m: nat)
    requires k <= m < |hs|
    requires forall i {:trigger hs[i]} :: 0 <= i < |hs| - 1 ==> Extends(hs[i], hs[i + 1])
    ensures Extends(hs[k], hs[m])
    decreases m
  {
    if k < m {
      ChainExtends(hs, k, m - 1);
      assert Extends(hs[m - 1], hs[m]);
      ExtendsTransitive(hs[k], hs[m - 1], hs[m]);
    }
  }

  lemma HistoriesChain(n: nat, run: seq<Cluster>, steps: seq<Step>, hs: seq<History>, k: nat, m: nat)
    requires IsRun(n, run, steps) && hs == Histories(run, steps) && k <= m <= |steps|
    ensures Extends(hs[k], hs[m])
  {
    forall i | 0 <= i < |hs| - 1 ensures Extends(hs[i], hs[i + 1]) {
      HistoriesExtend(n, run, steps, hs, i);
    }
    ChainExtends(hs, k, m);
  }

  lemma RunExtends(n: nat, run: seq<Cluster>, steps: seq<Step>, k: nat, m: nat)
    requires IsRun(n, run, steps) && k <= m <= |steps|
    ensures Extends(HistoryAt(run, steps, k), HistoryAt(run, steps, m))
  {
    HistoriesChain(n, run, steps, Histories(run, steps), k, m);
  }
}
