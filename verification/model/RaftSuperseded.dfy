/** A run in which a leader's record of a follower is no longer true: a leader
    that a majority has left behind, whose follower's log has been rewritten. */
module RaftSuperseded {
  import opened RaftTypes
  import opened RaftCore
  import opened RaftQuorum
  import opened RaftSystem
  import T = RaftTear
  import S = RaftSafety

  const FIVE := Config([1, 2, 3, 4, 5], 0, false)

  const UNKNOWN: map<NodeId, Progress> := map p | p in PeerSet(FIVE) :: Progress(0, 1)

  function Entry1(term: nat): Entry { Entry(term, 1, Noop, []) }

  /** A node that has neither committed nor compacted anything. */
  function Mk(id: NodeId, term: nat, vote: NodeId, log: Log, role: Role, lead: NodeId,
              prs: map<NodeId, Progress>, votes: map<NodeId, bool>): Node {
    Node(id, term, vote, log, 0, 0, role, lead, prs, votes, NO_READS, [], [], [], {}, false)
  }

  function Blank(id: NodeId, term: nat, vote: NodeId): Node { Mk(id, term, vote, [], Follower, NONE, UNKNOWN, map[]) }

  function Running(id: NodeId, term: nat, votes: map<NodeId, bool>): Node {
    Mk(id, term, id, [], Candidate, NONE, UNKNOWN, votes)
  }

  function Ruling(id: NodeId, term: nat, prs: map<NodeId, Progress>): Node {
    Mk(id, term, id, [Entry1(term)], Leader, id, prs, map[])
  }

  lemma Peers()
    ensures ValidConfig(FIVE) && PeerSet(FIVE) == {1, 2, 3, 4, 5} && Quorum(FIVE) == 3
    ensures UNKNOWN.Keys == PeerSet(FIVE)
  {
    assert FIVE.peers[0] == 1 && FIVE.peers[1] == 2 && FIVE.peers[2] == 3 && FIVE.peers[3] == 4 && FIVE.peers[4] == 5;
  }

  lemma NoProgress(n: Node)
    requires n.log == []
    ensures FreshProgress(FIVE, n) == UNKNOWN
  {
  }

  // ----- messages of a broadcast -----

  lemma {:induction false} AskedEach(n: Node, peers: seq<NodeId>, p: NodeId)
    requires p in peers && p != n.id && n.log == []
    ensures var r := AskVotes(n, peers, false); n.msgs <= r.msgs && Vote(n.id, p, n.term, 0, 0) in r.msgs
    decreases peers
  {
    var n' := if peers[0] == n.id then n else Send(n, Vote(n.id, peers[0], n.term, 0, 0));
    AskedMore(n', peers[1..]);
    if peers[0] == p {
      assert n'.msgs[|n.msgs|] == Vote(n.id, p, n.term, 0, 0);
    } else {
      AskedEach(n', peers[1..], p);
    }
  }

  lemma {:induction false} AskedMore(n: Node, peers: seq<NodeId>)
    requires n.log == []
    ensures n.msgs <= AskVotes(n, peers, false).msgs
    decreases peers
  {
    if peers != [] {
      AskedMore(if peers[0] == n.id then n else Send(n, Vote(n.id, peers[0], n.term, 0, 0)), peers[1..]);
    }
  }

  lemma {:induction false} SentEach(n: Node, peers: seq<NodeId>, p: NodeId, m: Message)
    requires n.snapIndex <= |n.log| && p in peers && p != n.id && p in n.prs
    requires m in AppendFor(FIVE, n, p, n.prs[p].next)
    ensures m in BcastAppend(FIVE, n, peers).msgs
    decreases peers
  {
    hide AppendFor;
    var n' := if peers[0] == n.id then n else SendAppend(FIVE, n, peers[0]);
    if peers[0] == p {
      assert m in n'.msgs;
      SentMore(n', peers[1..]);
    } else {
      AppendForSame(n, n', p);
      SentEach(n', peers[1..], p, m);
    }
  }

  lemma AppendForSame(n: Node, n': Node, p: NodeId)
    requires n.snapIndex <= |n.log| && n' == n.(msgs := n'.msgs) && p in n.prs
    ensures AppendFor(FIVE, n', p, n.prs[p].next) == AppendFor(FIVE, n, p, n.prs[p].next)
  {
  }

  lemma {:induction false} SentMore(n: Node, peers: seq<NodeId>)
    requires n.snapIndex <= |n.log|
    ensures n.msgs <= BcastAppend(FIVE, n, peers).msgs
    decreases peers
  {
    hide AppendFor;
    if peers != [] { SentMore(if peers[0] == n.id then n else SendAppend(FIVE, n, peers[0]), peers[1..]); }
  }

  // ----- the steps of the run, node by node -----

  lemma Campaigns(n: Node, p: NodeId)
    requires n.id in PeerSet(FIVE) && p in PeerSet(FIVE) && p != n.id
    requires n == Mk(n.id, n.term, n.vote, [], n.role, n.lead, UNKNOWN, n.votes) && !n.role.Leader?
    ensures ValidConfig(FIVE) && Sound(FIVE, n)
    ensures var r := Handle(FIVE, n, Timer);
      Drained(r) == Running(n.id, n.term + 1, map[n.id := true]) && Vote(n.id, p, n.term + 1, 0, 0) in r.msgs
  {
    hide PeerSet, AskVotes, FreshProgress;
    Peers();
    NoProgress(n);
    var v := RecordVote(BecomeCandidate(FIVE, n), n.id, true);
    assert Granted(v) == {n.id};
    T.AskVotesKeeps(v, FIVE.peers, false);
    AskedPeer(v, p);
  }

  lemma AskedPeer(v: Node, p: NodeId)
    requires p in PeerSet(FIVE) && p != v.id && v.log == []
    ensures Vote(v.id, p, v.term, 0, 0) in AskVotes(v, FIVE.peers, false).msgs
  {
    AskedEach(v, FIVE.peers, p);
  }

  lemma Grants(n: Node, c: NodeId, term: nat)
    requires n == Blank(n.id, n.term, n.vote) && n.id in PeerSet(FIVE) && n.term < term
    ensures ValidConfig(FIVE) && Sound(FIVE, n)
    ensures var r := Handle(FIVE, n, Receive(Vote(c, n.id, term, 0, 0), false));
      Drained(r) == Blank(n.id, term, c) && VoteResp(n.id, c, term, false) in r.msgs
  {
    hide PeerSet, FreshProgress;
    Peers();
    NoProgress(n);
    var m := Vote(c, n.id, term, 0, 0);
    assert Step(FIVE, n, m, false) == HandleVote(BecomeFollower(FIVE, n, term, NONE), m);
    var r := HandleVote(BecomeFollower(FIVE, n, term, NONE), m);
    assert r.msgs == [VoteResp(n.id, c, term, false)];
  }

  lemma CountsSecond(c: NodeId, term: nat, v: NodeId)
    requires c in PeerSet(FIVE) && v != c && term >= 1
    ensures var n := Running(c, term, map[c := true]); ValidConfig(FIVE) && Sound(FIVE, n)
    ensures var n := Running(c, term, map[c := true]);
      Drained(Handle(FIVE, n, Receive(VoteResp(v, c, term, false), false))) == Running(c, term, map[c := true, v := true])
  {
    hide PeerSet;
    Peers();
    var n := Running(c, term, map[c := true]);
    var r := RecordVote(n, v, true);
    assert Granted(r) == {c, v} && Rejected(r) == {};
    assert r.votes == map[c := true, v := true];
  }

  function Crowned(c: NodeId, term: nat): Node {
    Ruling(c, term, UNKNOWN[c := Progress(1, 2)])
  }

  lemma FewHolders(n: Node, c: NodeId, f: NodeId)
    requires n.prs.Keys == PeerSet(FIVE) && forall p | p in PeerSet(FIVE) && p != c && p != f :: n.prs[p].matched == 0
    ensures ValidConfig(FIVE) && QuorumIndex(FIVE, n) == 0
  {
    Peers();
    var h := Holders(n, FIVE.peers, 1);
    assert h <= {c, f};
    assert |h| <= 2 by { SmallSet(h, c, f); }
    QuorumIndexMeaning(FIVE, n, 1);
  }

  lemma SmallSet(h: set<NodeId>, c: NodeId, f: NodeId)
    requires h <= {c, f}
    ensures |h| <= 2
  {
    assert {c, f} == h + ({c, f} - h);
    assert |{c, f}| == |h| + |{c, f} - h|;
  }

  lemma Wins(c: NodeId, term: nat, v: NodeId, w: NodeId, p: NodeId)
    requires c in PeerSet(FIVE) && v != c && w != c && v != w && term >= 1 && p in PeerSet(FIVE) && p != c
    ensures var n := Running(c, term, map[c := true, v := true]); ValidConfig(FIVE) && Sound(FIVE, n)
    ensures var n := Running(c, term, map[c := true, v := true]);
      var r := Handle(FIVE, n, Receive(VoteResp(w, c, term, false), false));
      Drained(r) == Crowned(c, term) && Append(c, p, term, 0, 0, [Entry1(term)], 0) in r.msgs
  {
    hide PeerSet, FreshProgress, QuorumIndex, BcastAppend, AppendFor;
    Peers();
    var n := Running(c, term, map[c := true, v := true]);
    var x := RecordVote(n, w, true);
    assert Granted(x) == {c, v, w};
    NoProgress(x);
    var l := BecomeLeader(FIVE, x);
    BecomesLeader(x, c, term);
    assert l == Crowned(c, term);
    T.BcastAppendKeeps(FIVE, l, FIVE.peers);
    FirstAppend(c, term, p);
  }

  lemma BecomesLeader(x: Node, c: NodeId, term: nat)
    requires x == Running(c, term, x.votes) && c in PeerSet(FIVE)
    ensures ValidConfig(FIVE) && BecomeLeader(FIVE, x) == Crowned(c, term)
  {
    hide PeerSet, FreshProgress, QuorumIndex;
    Peers();
    NoProgress(x);
    assert x.log + Stamp(term, 0, [(Noop, [])]) == [Entry1(term)];
    var r := Reset(FIVE, x, term).(lead := c, role := Leader);
    var g := r.(log := [Entry1(term)], prs := r.prs[c := MaybeUpdate(r.prs[c], 1)]);
    OnlySelf(g, c);
    FewHolders(g, c, c);
  }

  lemma OnlySelf(g: Node, c: NodeId)
    requires g.prs == UNKNOWN[c := Progress(1, 2)] && c in PeerSet(FIVE)
    ensures g.prs.Keys == PeerSet(FIVE) && forall p | p in PeerSet(FIVE) && p != c :: g.prs[p].matched == 0
  {
  }

  lemma FirstAppend(c: NodeId, term: nat, p: NodeId)
    requires c in PeerSet(FIVE) && p in PeerSet(FIVE) && p != c
    ensures Append(c, p, term, 0, 0, [Entry1(term)], 0) in BcastAppend(FIVE, Crowned(c, term), FIVE.peers).msgs
  {
    var l := Crowned(c, term);
    assert l.log[0..1] == [Entry1(term)];
    assert AppendFor(FIVE, l, p, l.prs[p].next) == [Append(c, p, term, 0, 0, [Entry1(term)], 0)];
    SentEach(l, FIVE.peers, p, Append(c, p, term, 0, 0, [Entry1(term)], 0));
  }

  /** A follower's log, empty or of an earlier term, becomes the leader's. */
  lemma Accepts(n: Node, c: NodeId, term: nat)
    requires n.id in PeerSet(FIVE) && n.role.Follower? && n.term <= term && term >= 1 && n.prs.Keys == PeerSet(FIVE)
    requires n == Mk(n.id, n.term, n.vote, n.log, Follower, n.lead, n.prs, n.votes)
    requires n.log == [] || (n.log == [n.log[0]] && n.log[0].term < term)
    ensures ValidConfig(FIVE) && Sound(FIVE, n)
    ensures var r := Handle(FIVE, n, Receive(Append(c, n.id, term, 0, 0, [Entry1(term)], 0), false));
      && Drained(r) == Mk(n.id, term, r.vote, [Entry1(term)], Follower, c, r.prs, r.votes) && r.prs.Keys == PeerSet(FIVE)
      && AppendResp(n.id, c, term, 1, false, 0, 0) in r.msgs
  {
    hide PeerSet, FreshProgress;
    Peers();
    FreshKeys(n);
    var m := Append(c, n.id, term, 0, 0, [Entry1(term)], 0);
    var f := (if n.term < term then BecomeFollower(FIVE, n, term, c) else n).(lead := c);
    assert Step(FIVE, n, m, false) == HandleAppend(f, m);
    Overwrites(f, m, term);
  }

  lemma FreshKeys(n: Node)
    ensures FreshProgress(FIVE, n).Keys == PeerSet(FIVE)
  {
  }

  lemma Overwrites(f: Node, m: Message, term: nat)
    requires m.Append? && m.logIndex == 0 && m.logTerm == 0 && m.entries == [Entry1(term)] && m.commit == 0
    requires f.snapIndex == 0 && f.committed == 0 && term >= 1
    requires f.log == [] || (f.log == [f.log[0]] && f.log[0].term < term)
    ensures HandleAppend(f, m) ==
      f.(log := [Entry1(term)], msgs := f.msgs + [AppendResp(f.id, m.from, f.term, 1, false, 0, 0)])
  {
    assert FindConflict(f, m.entries) == 1;
    assert m.entries[0..] == m.entries;
    assert f.log[..0] + m.entries == [Entry1(term)];
  }

  lemma Acknowledged(c: NodeId, term: nat, f: NodeId)
    requires c in PeerSet(FIVE) && f in PeerSet(FIVE) && f != c && term >= 1
    ensures var n := Crowned(c, term); ValidConfig(FIVE) && Sound(FIVE, n)
    ensures var n := Crowned(c, term);
      Drained(Handle(FIVE, n, Receive(AppendResp(f, c, term, 1, false, 0, 0), false)))
        == Ruling(c, term, n.prs[f := Progress(1, 2)])
  {
    hide PeerSet, QuorumIndex;
    Peers();
    var n := Crowned(c, term);
    var u := n.(prs := n.prs[f := MaybeUpdate(n.prs[f], 1)]);
    UnknownOthers(n, c);
    FewHolders(u, c, f);
    assert n.prs[f] == Progress(0, 1);
  }

  lemma UnknownOthers(n: Node, c: NodeId)
    requires n.prs == UNKNOWN[c := Progress(1, 2)] && c in PeerSet(FIVE)
    ensures n.prs.Keys == PeerSet(FIVE) && forall p | p in PeerSet(FIVE) && p != c :: n.prs[p] == Progress(0, 1)
  {
  }

  // ----- putting the run together -----

  lemma Start() returns (run: seq<System>, acts: seq<Action>, s: System)
    ensures Reaches(FIVE, run, acts, s) && s.nodes.Keys == PeerSet(FIVE)
    ensures forall x | x in s.nodes :: s.nodes[x] == Blank(x, 0, NONE)
  {
    Peers();
    s := Init(FIVE);
    run, acts := [s], [];
    forall x | x in s.nodes ensures s.nodes[x] == Blank(x, 0, NONE) { FirstNode(x); }
  }

  lemma FirstNode(x: NodeId)
    ensures Recover(FIVE, x, 0, NONE, [], 0, 0) == Blank(x, 0, NONE)
  {
    NoProgress(Mk(x, 0, NONE, [], Follower, NONE, map[], map[]));
  }

  /** One more input to a node of the run. */
  lemma Extend(cfg: Config, run: seq<System>, acts: seq<Action>, s: System, id: NodeId, input: Input)
    returns (run': seq<System>, acts': seq<Action>, s': System)
    requires Reaches(cfg, run, acts, s) && CanInput(cfg, s, id, input)
    ensures ValidConfig(cfg) && Reaches(cfg, run', acts', s')
    ensures var r := Handle(cfg, s.nodes[id], input);
      && s'.nodes == s.nodes[id := Drained(r)] && (forall m | m in r.msgs :: m in s'.net) && s.net <= s'.net
  {
    hide Handle, Init;
    var a := Act(id, input);
    s' := Next(cfg, s, a);
    run', acts' := run + [s'], acts + [a];
    RunsOn(cfg, run, acts, s, a);
  }

  lemma Elect(run: seq<System>, acts: seq<Action>, s: System, c: NodeId, v: NodeId, w: NodeId, p: NodeId, term: nat)
    returns (run': seq<System>, acts': seq<Action>, s': System)
    requires Reaches(FIVE, run, acts, s) && s.nodes.Keys == PeerSet(FIVE) && {c, v, w, p} <= PeerSet(FIVE)
    requires c != v && c != w && v != w && p != c && term >= 1
    requires s.nodes[c] == Running(c, term, map[c := true]) && Vote(c, v, term, 0, 0) in s.net
    requires Vote(c, w, term, 0, 0) in s.net
    requires s.nodes[v] == Blank(v, s.nodes[v].term, s.nodes[v].vote) && s.nodes[v].term < term
    requires s.nodes[w] == Blank(w, s.nodes[w].term, s.nodes[w].vote) && s.nodes[w].term < term
    ensures Reaches(FIVE, run', acts', s')
    ensures s'.nodes == s.nodes[v := Blank(v, term, c)][w := Blank(w, term, c)][c := Crowned(c, term)]
    ensures s.net <= s'.net && Append(c, p, term, 0, 0, [Entry1(term)], 0) in s'.net
  {
    hide Reaches, Handle, PeerSet, UNKNOWN;
    Grants(s.nodes[v], c, term);
    var r1, a1, s1 := Extend(FIVE, run, acts, s, v, Receive(Vote(c, v, term, 0, 0), false));
    Grants(s.nodes[w], c, term);
    var r2, a2, s2 := Extend(FIVE, r1, a1, s1, w, Receive(Vote(c, w, term, 0, 0), false));
    CountsSecond(c, term, v);
    var r3, a3, s3 := Extend(FIVE, r2, a2, s2, c, Receive(VoteResp(v, c, term, false), false));
    Wins(c, term, v, w, p);
    run', acts', s' := Extend(FIVE, r3, a3, s3, c, Receive(VoteResp(w, c, term, false), false));
  }

  /** Node 1 leads term 1 and has been acknowledged by node 2 alone. */
  lemma FirstReign() returns (run: seq<System>, acts: seq<Action>, s: System)
    ensures Reaches(FIVE, run, acts, s) && s.nodes.Keys == PeerSet(FIVE) && PeerSet(FIVE) == {1, 2, 3, 4, 5}
    ensures s.nodes[1] == Ruling(1, 1, Crowned(1, 1).prs[2 := Progress(1, 2)])
    ensures s.nodes[2] == Mk(2, 1, s.nodes[2].vote, [Entry1(1)], Follower, 1, s.nodes[2].prs, s.nodes[2].votes)
    ensures s.nodes[2].prs.Keys == PeerSet(FIVE)
    ensures s.nodes[3] == Blank(3, 1, 1) && s.nodes[4] == Blank(4, 0, NONE) && s.nodes[5] == Blank(5, 0, NONE)
  {
    hide Reaches, Handle, PeerSet, UNKNOWN;
    Peers();
    run, acts, s := Start();
    Campaigns(Blank(1, 0, NONE), 2);
    Campaigns(Blank(1, 0, NONE), 3);
    run, acts, s := Extend(FIVE, run, acts, s, 1, Timer);
    run, acts, s := Elect(run, acts, s, 1, 2, 3, 2, 1);
    Accepts(Blank(2, 1, 1), 1, 1);
    run, acts, s := Extend(FIVE, run, acts, s, 2, Receive(Append(1, 2, 1, 0, 0, [Entry1(1)], 0), false));
    Acknowledged(1, 1, 2);
    run, acts, s := Extend(FIVE, run, acts, s, 1, Receive(AppendResp(2, 1, 1, 1, false, 0, 0), false));
  }

  /** There is a run at whose end a leader records that a follower matches its
      log up to an index at which the follower's log holds another entry. */
  lemma MatchCanBeOutdated() returns (run: seq<System>, acts: seq<Action>)
    ensures IsRun(FIVE, run, acts) && S.Leads(run, |acts|, 1) && S.IsNode(run, |acts|, 2)
    ensures var n, f := S.NodeAt(run, |acts|, 1), S.NodeAt(run, |acts|, 2); f.id in n.prs && !S.MatchIsTrue(n, f)
  {
    hide Reaches, Handle, PeerSet, UNKNOWN;
    var s;
    run, acts, s := FirstReign();
    Campaigns(Blank(4, 0, NONE), 3);
    run, acts, s := Extend(FIVE, run, acts, s, 4, Timer);
    Campaigns(Running(4, 1, map[4 := true]), 3);
    Campaigns(Running(4, 1, map[4 := true]), 5);
    run, acts, s := Extend(FIVE, run, acts, s, 4, Timer);
    run, acts, s := Elect(run, acts, s, 4, 3, 5, 2, 2);
    Accepts(s.nodes[2], 4, 2);
    run, acts, s := Extend(FIVE, run, acts, s, 2, Receive(Append(4, 2, 2, 0, 0, [Entry1(2)], 0), false));
    ReachesLast(FIVE, run, acts, s);
    assert Entry1(1) != Entry1(2);
    assert s.nodes[1].log[..1][0] == Entry1(1) && s.nodes[2].log[0] == Entry1(2);
  }
}
