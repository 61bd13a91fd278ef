/** A run in which a rejection that the network delivers twice puts a leader's
    Next at or below its Match. */
module RaftRepeated {
  import opened RaftTypes
  import opened RaftCore
  import opened RaftQuorum
  import opened RaftSystem
  import T = RaftTear
  import S = RaftSafety
  import Q = RaftSuperseded
  import B = RaftBacktrack

  // Three nodes, which send one entry at a time.
  const TRIO := Config([1, 2, 3], 1, false)

  const E1 := Entry(1, 1, Noop, [])
  const E2 := Entry(2, 2, Noop, [])

  function Records(a: Progress, b: Progress, c: Progress): map<NodeId, Progress> { map[1 := a, 2 := b, 3 := c] }

  const BLANK := Records(Progress(0, 1), Progress(0, 1), Progress(0, 1))
  const ONE_LONG := Records(Progress(1, 2), Progress(0, 2), Progress(0, 2))

  function Running(term: nat, log: Log, prs: map<NodeId, Progress>): Node {
    Q.Mk(1, term, 1, log, Candidate, NONE, prs, map[1 := true])
  }

  function Ruling(term: nat, log: Log, b: Progress, c: Progress): Node {
    Q.Mk(1, term, 1, log, Leader, 1, Records(Progress(|log|, |log| + 1), b, c), map[])
  }

  function Voter(term: nat, vote: NodeId, lead: NodeId, log: Log): Node {
    Q.Mk(2, term, vote, log, Follower, lead, BLANK, map[])
  }

  lemma Peers()
    ensures ValidConfig(TRIO) && PeerSet(TRIO) == {1, 2, 3} && Quorum(TRIO) == 2
  {
    assert TRIO.peers[0] == 1 && TRIO.peers[1] == 2 && TRIO.peers[2] == 3;
  }

  lemma Fresh(n: Node)
    ensures n.id == 1 && |n.log| == 1 ==> FreshProgress(TRIO, n) == ONE_LONG
    ensures n.log == [] ==> FreshProgress(TRIO, n) == BLANK
  {
    Peers();
  }

  /** An index that node 1 alone has reached is above the quorum's. */
  lemma FewHold(n: Node, a: Progress, b: Progress, c: Progress, i: nat)
    requires n.prs == Records(a, b, c) && b.matched < i && c.matched < i
    ensures ValidConfig(TRIO) && n.prs.Keys == PeerSet(TRIO) && QuorumIndex(TRIO, n) < i
  {
    hide QuorumIndex;
    Peers();
    var h := Holders(n, TRIO.peers, i);
    assert h <= {1};
    assert h == {} || h == {1};
    QuorumIndexMeaning(TRIO, n, i);
  }

  // ----- the steps, node by node -----

  /** A node that may campaign: new, or restarted with one entry. */
  predicate Idle(n: Node) {
    || n == Q.Mk(1, 0, NONE, [], Follower, NONE, BLANK, map[])
    || n == Q.Mk(1, 1, 1, [E1], Follower, NONE, ONE_LONG, map[])
  }

  lemma Stands(n: Node)
    requires Idle(n)
    ensures Sound(TRIO, n) && BecomeCandidate(TRIO, n).id == 1
    ensures RecordVote(BecomeCandidate(TRIO, n), 1, true) == Running(n.term + 1, n.log, n.prs)
    ensures Granted(Running(n.term + 1, n.log, n.prs)) == {1}
  {
    hide PeerSet, FreshProgress;
    Peers();
    Fresh(n);
  }

  lemma Campaigns(n: Node)
    requires Idle(n)
    ensures ValidConfig(TRIO) && Sound(TRIO, n)
    ensures var r := Handle(TRIO, n, Timer);
      Drained(r) == Running(n.term + 1, n.log, n.prs) && Vote(1, 2, n.term + 1, |n.log|, LastTerm(n.log)) in r.msgs
  {
    hide Idle, PeerSet, BecomeCandidate, RecordVote, AskVotes, Granted;
    assert n.id == 1 && !n.role.Leader? && n.snapIndex == 0 by { IdleParts(n); }
    Peers();
    Stands(n);
    var v := Running(n.term + 1, n.log, n.prs);
    T.AskVotesKeeps(v, TRIO.peers, false);
    Asks(v);
  }

  lemma IdleParts(n: Node)
    requires Idle(n)
    ensures n.id == 1 && !n.role.Leader? && n.snapIndex == 0
  {
  }

  lemma Asks(v: Node)
    requires v.id == 1 && v.snapIndex == 0 && v.msgs == []
    ensures Vote(1, 2, v.term, |v.log|, LastTerm(v.log)) in AskVotes(v, TRIO.peers, false).msgs
  {
    var p := TRIO.peers;
    assert p[1..] == [2, 3] && p[1..][1..] == [3] && p[1..][1..][1..] == [];
    var m2, m3 := Vote(1, 2, v.term, |v.log|, LastTerm(v.log)), Vote(1, 3, v.term, |v.log|, LastTerm(v.log));
    assert AskVotes(v, p, false) == AskVotes(v, [2, 3], false);
    assert AskVotes(v, [2, 3], false) == AskVotes(Send(v, m2), [3], false);
    assert AskVotes(Send(v, m2), [3], false) == AskVotes(Send(Send(v, m2), m3), [], false);
    assert Send(Send(v, m2), m3).msgs == [m2, m3];
  }

  lemma Grants(term: nat, log: Log)
    requires log == [] || log == [E1]
    ensures var n := Voter(term, if term == 0 then NONE else 1, NONE, []);
      && ValidConfig(TRIO) && Sound(TRIO, n)
      && var r := Handle(TRIO, n, Receive(Vote(1, 2, term + 1, |log|, LastTerm(log)), false));
        Drained(r) == Voter(term + 1, 1, NONE, []) && VoteResp(2, 1, term + 1, false) in r.msgs
  {
    hide PeerSet, FreshProgress;
    Peers();
    var n := Voter(term, if term == 0 then NONE else 1, NONE, []);
    Fresh(n);
    var m := Vote(1, 2, term + 1, |log|, LastTerm(log));
    var f := BecomeFollower(TRIO, n, term + 1, NONE);
    assert Step(TRIO, n, m, false) == HandleVote(f, m);
    assert HandleVote(f, m).msgs == [VoteResp(2, 1, term + 1, false)];
  }

  /** The log of a leader of its first or its second term. */
  predicate Standing(n: Node) { n == Running(1, [], BLANK) || n == Running(2, [E1], ONE_LONG) }

  function Crowned(n: Node): Node {
    if n.term == 1 then Ruling(1, [E1], Progress(0, 1), Progress(0, 1)) else Ruling(2, [E1, E2], Progress(0, 2), Progress(0, 2))
  }

  lemma BecomesLeader(n: Node)
    requires Standing(n)
    ensures var v := RecordVote(n, 2, true);
      && ValidConfig(TRIO) && 1 in PeerSet(TRIO) && |Granted(v)| == 2 && BecomeLeader(TRIO, v) == Crowned(n)
  {
    hide PeerSet, FreshProgress, QuorumIndex;
    Peers();
    var v := RecordVote(n, 2, true);
    assert Granted(v) == {1, 2};
    Fresh(v);
    var r := Reset(TRIO, v, v.term).(lead := 1, role := Leader);
    var log := r.log + Stamp(r.term, |r.log|, [(Noop, [])]);
    assert log == Crowned(n).log;
    var g := r.(log := log, prs := r.prs[1 := MaybeUpdate(r.prs[1], |log|)]);
    assert g == Crowned(n);
    FewHold(g, g.prs[1], g.prs[2], g.prs[3], 1);
  }

  lemma Wins(n: Node)
    requires Standing(n)
    ensures ValidConfig(TRIO) && Sound(TRIO, n)
    ensures var r := Handle(TRIO, n, Receive(VoteResp(2, 1, n.term, false), false));
      && Drained(r) == Crowned(n)
      && (n.term == 2 ==> Append(1, 2, 2, 1, 1, [E2], 0) in r.msgs)
  {
    hide PeerSet, BecomeLeader, BcastAppend, Granted, Crowned;
    Peers();
    BecomesLeader(n);
    var l, m := Crowned(n), VoteResp(2, 1, n.term, false);
    CrownParts(n);
    assert Step(TRIO, n, m, false) == CountVote(TRIO, n, m) == BcastAppend(TRIO, l, TRIO.peers);
    T.BcastAppendKeeps(TRIO, l, TRIO.peers);
    if n.term == 2 { Sends(n); }
  }

  lemma CrownParts(n: Node)
    requires Standing(n)
    ensures Crowned(n).snapIndex <= |Crowned(n).log| && Drained(Crowned(n)) == Crowned(n)
    ensures n.role.Candidate? && n.term >= 1 && n.lead == NONE && n.id == 1 && n.prs.Keys == {1, 2, 3} && n.snapIndex == 0
  {
  }

  lemma Sends(n: Node)
    requires n == Running(2, [E1], ONE_LONG)
    ensures Append(1, 2, 2, 1, 1, [E2], 0) in BcastAppend(TRIO, Crowned(n), TRIO.peers).msgs
  {
    hide BcastAppend;
    var l := Crowned(n);
    assert EntriesToSend(TRIO, l, 2) == [E1, E2][1..2] == [E2];
    assert AppendFor(TRIO, l, 2, 2) == [Append(1, 2, 2, 1, 1, [E2], 0)];
    ToSecond(l, Append(1, 2, 2, 1, 1, [E2], 0));
  }

  lemma ToSecond(l: Node, m: Message)
    requires l.id == 1 && l.snapIndex == 0 && 2 in l.prs && m in AppendFor(TRIO, l, 2, l.prs[2].next)
    ensures m in BcastAppend(TRIO, l, TRIO.peers).msgs
  {
    hide AppendFor;
    var p := TRIO.peers;
    assert p[1..] == [2, 3] && [2, 3][1..] == [3];
    assert BcastAppend(TRIO, l, p) == BcastAppend(TRIO, l, [2, 3]);
    var l2 := SendAppend(TRIO, l, 2);
    assert m in l2.msgs;
    assert BcastAppend(TRIO, l, [2, 3]) == BcastAppend(TRIO, l2, [3]);
    assert [3][1..] == [];
    var l3 := SendAppend(TRIO, l2, 3);
    assert BcastAppend(TRIO, l2, [3]) == BcastAppend(TRIO, l3, []) == l3;
  }

  /** The second node has nothing yet, and refuses what follows entry 1. */
  lemma Refuses()
    ensures var n := Voter(2, 1, NONE, []);
      && ValidConfig(TRIO) && Sound(TRIO, n)
      && var r := Handle(TRIO, n, Receive(Append(1, 2, 2, 1, 1, [E2], 0), false));
        Drained(r) == Voter(2, 1, 1, []) && REFUSAL in r.msgs
  {
    hide PeerSet;
    Peers();
    var n, m := Voter(2, 1, NONE, []), Append(1, 2, 2, 1, 1, [E2], 0);
    var f := n.(lead := 1);
    assert Step(TRIO, n, m, false) == HandleAppend(f, m);
    assert TermAt(f, 1) == 0;
    assert HandleAppend(f, m) == Send(f, REFUSAL);
  }

  const REFUSAL := AppendResp(2, 1, 2, 1, true, 0, 0)
  const ACK := AppendResp(2, 1, 2, 1, false, 0, 0)

  function Head(b: Progress): Node { Ruling(2, [E1, E2], b, Progress(0, 2)) }

  lemma Retries()
    ensures var n := Head(Progress(0, 2));
      && ValidConfig(TRIO) && Sound(TRIO, n)
      && var r := Handle(TRIO, n, Receive(REFUSAL, false));
        Drained(r) == Head(Progress(0, 1)) && Append(1, 2, 2, 0, 0, [E1], 0) in r.msgs
  {
    hide PeerSet;
    Peers();
    var n := Head(Progress(0, 2));
    var d := Head(Progress(0, 1));
    assert DecrHint(n, REFUSAL) == 0;
    assert n.prs[2 := Progress(0, 1)] == d.prs;
    assert Step(TRIO, n, REFUSAL, false) == HandleAppendResp(TRIO, n, REFUSAL) == SendAppend(TRIO, d, 2);
    assert EntriesToSend(TRIO, d, 1) == [E1, E2][0..1] == [E1];
  }

  lemma Takes()
    ensures var n := Voter(2, 1, 1, []);
      && ValidConfig(TRIO) && Sound(TRIO, n)
      && var r := Handle(TRIO, n, Receive(Append(1, 2, 2, 0, 0, [E1], 0), false));
        Drained(r) == Voter(2, 1, 1, [E1]) && ACK in r.msgs
  {
    hide PeerSet;
    Peers();
    var n, m := Voter(2, 1, 1, []), Append(1, 2, 2, 0, 0, [E1], 0);
    assert Step(TRIO, n, m, false) == HandleAppend(n, m);
    assert FindConflict(n, m.entries) == 1;
    assert m.entries[0..] == m.entries;
    assert n.log[..0] + m.entries == [E1];
  }

  lemma Notes()
    ensures var n := Head(Progress(0, 1));
      && ValidConfig(TRIO) && Sound(TRIO, n)
      && Drained(Handle(TRIO, n, Receive(ACK, false))) == Head(Progress(1, 2))
  {
    hide PeerSet, QuorumIndex;
    Peers();
    var n := Head(Progress(0, 1));
    var u := n.(prs := n.prs[2 := MaybeUpdate(n.prs[2], 1)]);
    assert u == Head(Progress(1, 2));
    FewHold(u, Progress(2, 3), Progress(1, 2), Progress(0, 2), 2);
    assert TermAt(u, 0) == 0 && TermAt(u, 1) == 1;
    assert !CanCommit(TRIO, u);
    assert Step(TRIO, n, ACK, false) == HandleAppendResp(TRIO, n, ACK) == u;
  }

  // ----- the run -----

  lemma Start() returns (run: seq<System>, acts: seq<Action>, s: System)
    ensures Reaches(TRIO, run, acts, s) && s.nodes.Keys == PeerSet(TRIO)
    ensures PeerSet(TRIO) == {1, 2, 3} && Idle(s.nodes[1]) && s.nodes[1].log == [] && s.nodes[2] == Voter(0, NONE, NONE, [])
  {
    hide FreshProgress;
    Peers();
    s := Init(TRIO);
    run, acts := [s], [];
    Fresh(Q.Mk(1, 0, NONE, [], Follower, NONE, map[], map[]));
    Fresh(Q.Mk(2, 0, NONE, [], Follower, NONE, map[], map[]));
  }

  /** Node 1 is elected with the vote of node 2. */
  lemma Elect(run: seq<System>, acts: seq<Action>, s: System) returns (run': seq<System>, acts': seq<Action>, s': System)
    requires Reaches(TRIO, run, acts, s) && s.nodes.Keys == PeerSet(TRIO) == {1, 2, 3} && Idle(s.nodes[1])
    requires var t := s.nodes[1].term; s.nodes[2] == Voter(t, if t == 0 then NONE else 1, NONE, [])
    ensures Reaches(TRIO, run', acts', s') && s'.nodes.Keys == PeerSet(TRIO)
    ensures var n := s.nodes[1]; var c := Running(n.term + 1, n.log, n.prs);
      && s'.nodes[1] == Crowned(c) && s'.nodes[2] == Voter(c.term, 1, NONE, [])
      && (c.term == 2 ==> Append(1, 2, 2, 1, 1, [E2], 0) in s'.net)
  {
    hide Reaches, Handle, PeerSet, Crowned;
    var n := s.nodes[1];
    Campaigns(n);
    var r1, a1, s1 := Q.Extend(TRIO, run, acts, s, 1, Timer);
    Grants(n.term, n.log);
    var r2, a2, s2 := Q.Extend(TRIO, r1, a1, s1, 2, Receive(Vote(1, 2, n.term + 1, |n.log|, LastTerm(n.log)), false));
    Wins(Running(n.term + 1, n.log, n.prs));
    run', acts', s' := Q.Extend(TRIO, r2, a2, s2, 1, Receive(VoteResp(2, 1, n.term + 1, false), false));
  }

  lemma Restarts(n: Node)
    requires n == Ruling(1, [E1], Progress(0, 1), Progress(0, 1))
    ensures ValidConfig(TRIO) && Sound(TRIO, n)
    ensures Recovered(TRIO, n, n.log, 0, 0) == Q.Mk(1, 1, 1, [E1], Follower, NONE, ONE_LONG, map[])
  {
    hide PeerSet, FreshProgress;
    Peers();
    Fresh(Q.Mk(1, 1, 1, [E1], Follower, NONE, map[], map[]));
  }

  /** Node 1 leads term 1 and writes its no-op, which reaches nobody; it crashes,
      restarts, and leads term 2. */
  lemma SecondReign() returns (run: seq<System>, acts: seq<Action>, s: System)
    ensures Reaches(TRIO, run, acts, s) && s.nodes.Keys == PeerSet(TRIO) == {1, 2, 3}
    ensures s.nodes[1] == Head(Progress(0, 2)) && s.nodes[2] == Voter(2, 1, NONE, [])
    ensures Append(1, 2, 2, 1, 1, [E2], 0) in s.net
  {
    hide Reaches, PeerSet;
    run, acts, s := Start();
    run, acts, s := Elect(run, acts, s);
    Restarts(s.nodes[1]);
    var a := Crash(1, 0);
    RunsOn(TRIO, run, acts, s, a);
    var s' := Next(TRIO, s, a);
    assert s'.nodes == s.nodes[1 := Recovered(TRIO, s.nodes[1], s.nodes[1].log, 0, 0)];
    run, acts, s := run + [s'], acts + [a], s';
    run, acts, s := Elect(run, acts, s);
  }

  /** The second node refuses what follows entry 1, is sent entry 1, and
      acknowledges it. The refusal is still on the network. */
  lemma CaughtUp() returns (run: seq<System>, acts: seq<Action>, s: System)
    ensures Reaches(TRIO, run, acts, s) && s.nodes.Keys == PeerSet(TRIO) == {1, 2, 3}
    ensures s.nodes[1] == Head(Progress(1, 2)) && s.nodes[2] == Voter(2, 1, 1, [E1]) && REFUSAL in s.net
  {
    hide Reaches, Handle, PeerSet;
    run, acts, s := SecondReign();
    Refuses();
    run, acts, s := Q.Extend(TRIO, run, acts, s, 2, Receive(Append(1, 2, 2, 1, 1, [E2], 0), false));
    Retries();
    run, acts, s := Q.Extend(TRIO, run, acts, s, 1, Receive(REFUSAL, false));
    Takes();
    run, acts, s := Q.Extend(TRIO, run, acts, s, 2, Receive(Append(1, 2, 2, 0, 0, [E1], 0), false));
    Notes();
    run, acts, s := Q.Extend(TRIO, run, acts, s, 1, Receive(ACK, false));
  }

  /** There is a run at whose end the same refusal reaches the leader again, and
      puts Next at 1 where Match is 1 and the two logs agree. */
  lemma RefusalOvershoots() returns (run: seq<System>, acts: seq<Action>)
    ensures IsRun(TRIO, run, acts) && |acts| > 0 && acts[|acts| - 1] == Act(1, Receive(REFUSAL, false))
    ensures S.Leads(run, |acts| - 1, 1) && 2 in S.NodeAt(run, |acts| - 1, 1).prs
    ensures S.NodeAt(run, |acts| - 1, 1).prs[2] == Progress(1, 2)
    ensures S.Leads(run, |acts|, 1) && 2 in S.NodeAt(run, |acts|, 1).prs && S.NodeAt(run, |acts|, 1).prs[2] == Progress(1, 1)
    ensures S.IsNode(run, |acts|, 2) && B.Agree(S.NodeAt(run, |acts|, 1), S.NodeAt(run, |acts|, 2), 1)
  {
    hide Reaches, Handle, PeerSet, IsRun;
    var r, a, s := CaughtUp();
    Again();
    var last := Act(1, Receive(REFUSAL, false));
    RunsOn(TRIO, r, a, s, last);
    var s' := Next(TRIO, s, last);
    run, acts := r + [s'], a + [last];
    ReachesLast(TRIO, r, a, s);
    ReachesLast(TRIO, run, acts, s');
    assert run[|acts| - 1] == s && run[|acts|] == s';
  }

  lemma Again()
    ensures var n := Head(Progress(1, 2));
      && ValidConfig(TRIO) && Sound(TRIO, n)
      && Drained(Handle(TRIO, n, Receive(REFUSAL, false))) == Head(Progress(1, 1))
  {
    hide PeerSet;
    Peers();
    var n, d := Head(Progress(1, 2)), Head(Progress(1, 1));
    assert DecrHint(n, REFUSAL) == 0;
    assert n.prs[2 := Progress(1, 1)] == d.prs;
    assert Step(TRIO, n, REFUSAL, false) == HandleAppendResp(TRIO, n, REFUSAL) == SendAppend(TRIO, d, 2);
  }
}
