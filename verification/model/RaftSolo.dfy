/** A cluster of one node. It wins every election alone, so its log only ever
    grows. This holds also when it dies in the middle of the one batch in which
    it raises its term and wins it: the entry of the new term may then be durable
    before the term is. */
module RaftSolo {
  import opened RaftTypes
  import opened RaftCore
  import opened RaftHistory
  import opened RaftSystem
  import opened RaftSteady
  import opened RaftTear
  import B = RaftBacktrack

  predicate Alone(cfg: Config) { ValidConfig(cfg) && |cfg.peers| == 1 }

  lemma OnlyPeer(cfg: Config)
    requires Alone(cfg)
    ensures PeerSet(cfg) == {cfg.peers[0]} && Quorum(cfg) == 1
  {
  }

  /** Between drains the node follows or leads. Leading, it has committed its
      whole log, whose last entry is of its term; otherwise the log may be one term
      ahead of the hard state. */
  predicate SoloNode(cfg: Config, n: Node) {
    && |cfg.peers| > 0 && n.id == cfg.peers[0] && n.prs.Keys == {n.id}
    && n.snapIndex <= n.committed <= |n.log| && !n.panicked && n.msgs == []
    && (n.vote == NONE || n.vote == n.id)
    && B.Rising(n.log) && WellFormed(n.log) && LastTerm(n.log) <= n.term + 1
    && (n.role.Follower? || n.role.Leader?)
    && (n.role.Leader? ==> Rules(n))
  }

  predicate Rules(n: Node) {
    && n.term >= 1 && n.committed == |n.log| > 0 && LastTerm(n.log) == n.term
    && n.id in n.prs && n.prs[n.id] == Progress(|n.log|, |n.log| + 1)
    && n.gated == [] && n.readOnly == NO_READS
  }

  /** What one input can do to the log. */
  predicate Grew(n: Node, r: Node) { n.log <= r.log && Steady(n, r) }

  // ----- commands and elections commit at once -----

  lemma OwnQuorum(cfg: Config, n: Node)
    requires Alone(cfg) && n.prs.Keys == PeerSet(cfg) && n.id == cfg.peers[0]
    ensures QuorumIndex(cfg, n) == n.prs[n.id].matched
  {
    var s := Matches(n, cfg.peers);
    assert s == [n.prs[n.id].matched];
    assert s[1..] == [];
    assert Sorted(s) == InsertSorted(s[0], []);
  }

  lemma StampedLog(n: Node, cmds: seq<(EntryKind, Bytes)>)
    requires B.Rising(n.log) && WellFormed(n.log) && LastTerm(n.log) <= n.term && n.term >= 1 && cmds != []
    ensures var log := n.log + Stamp(n.term, |n.log|, cmds);
      B.Rising(log) && WellFormed(log) && LastTerm(log) == n.term && |log| > |n.log|
  {
  }

  /** A leader that appends commits all of its log. */
  lemma SoloAppend(cfg: Config, n: Node, cmds: seq<(EntryKind, Bytes)>)
    requires Alone(cfg) && n.id == cfg.peers[0] && n.prs.Keys == PeerSet(cfg) && cmds != []
    requires n.role.Leader? && n.gated == [] && n.snapIndex <= n.committed <= |n.log| && n.term >= 1
    requires n.prs[n.id].matched <= |n.log| && n.prs[n.id].next <= |n.log| + 1
    ensures var log := n.log + Stamp(n.term, |n.log|, cmds);
      AppendEntry(cfg, n, cmds) == n.(log := log, committed := |log|, prs := n.prs[n.id := Progress(|log|, |log| + 1)])
  {
    var log := n.log + Stamp(n.term, |n.log|, cmds);
    var u := n.(log := log, prs := n.prs[n.id := MaybeUpdate(n.prs[n.id], |log|)]);
    OwnQuorum(cfg, u);
    var c := CommitTo(u, |log|);
    assert c.gated == [];
    assert SendReadIndexes(cfg, c.(gated := []), c.gated) == c;
  }

  lemma Elected(cfg: Config, n: Node)
    requires Alone(cfg) && n.id == cfg.peers[0] && !n.role.Leader? && n.snapIndex <= n.committed <= |n.log|
    ensures var r := SolicitVotes(cfg, BecomeCandidate(cfg, n)); var log := n.log + Stamp(n.term + 1, |n.log|, [(Noop, [])]);
      && r.role.Leader? && r.term == n.term + 1 && r.log == log && r.committed == |log|
      && r.prs == map[n.id := Progress(|log|, |log| + 1)] && r.gated == [] && r.readOnly == NO_READS && r.vote == n.id
      && r.id == n.id && r.snapIndex == n.snapIndex && r.msgs == n.msgs && r.readStates == n.readStates
      && r.panicked == n.panicked && r.issued == n.issued
  {
    hide AppendEntry, Stamp;
    OnlyPeer(cfg);
    var v := RecordVote(BecomeCandidate(cfg, n), n.id, true);
    assert Granted(v) == {n.id};
    var l := Reset(cfg, v, v.term).(lead := v.id, role := Leader);
    SoloAppend(cfg, l, [(Noop, [])]);
  }

  lemma SoloTimer(cfg: Config, n: Node)
    requires Alone(cfg) && SoloNode(cfg, n)
    ensures n.prs.Keys == PeerSet(cfg)
    ensures var r := TimerFires(cfg, n); SoloNode(cfg, r) && Grew(n, r) && r.readStates == n.readStates && r.snapIndex == n.snapIndex
  {
    hide SolicitVotes, Stamp;
    OnlyPeer(cfg);
    if n.role.Leader? {
      assert cfg.peers[1..] == [];
      BcastHeartbeatKeeps(n, cfg.peers, LastPendingContext(n.readOnly));
      assert BcastHeartbeat(n, cfg.peers, LastPendingContext(n.readOnly)) == n;
    } else {
      var p := RecordVote(BecomePreCandidate(n), n.id, true);
      assert Granted(p) == {n.id};
      Elected(cfg, n);
      Elected(cfg, p);
      StampedLog(n.(term := n.term + 1), [(Noop, [])]);
    }
  }

  lemma SoloPropose(cfg: Config, n: Node, cmds: seq<Bytes>)
    requires Alone(cfg) && SoloNode(cfg, n)
    ensures n.prs.Keys == PeerSet(cfg)
    ensures var r := Propose(cfg, n, cmds); SoloNode(cfg, r) && Grew(n, r) && r.readStates == n.readStates && r.snapIndex == n.snapIndex
  {
    hide AppendEntry, Stamp;
    OnlyPeer(cfg);
    if n.role.Leader? && cmds != [] {
      var es := seq(|cmds|, i requires 0 <= i < |cmds| => (Normal, cmds[i]));
      SoloAppend(cfg, n, es);
      StampedLog(n, es);
      assert cfg.peers[1..] == [];
      var a := AppendEntry(cfg, n, es);
      assert BcastAppend(cfg, a, cfg.peers) == a;
    }
  }

  /** A leader answers a read at once, with everything it holds. */
  lemma SoloRead(cfg: Config, n: Node, ctx: Context)
    requires Alone(cfg) && SoloNode(cfg, n) && n.prs.Keys == PeerSet(cfg)
    ensures var r := ReadIndex(cfg, n, ctx);
      r == n.(readStates := n.readStates + if n.role.Leader? then [ReadState(|n.log|, ctx)] else [])
  {
  }

  // ----- actions -----

  predicate SoloOK(cfg: Config, s: System) {
    && |cfg.peers| > 0 && s.net == {} && s.nodes.Keys == {cfg.peers[0]}
    && SoloNode(cfg, s.nodes[cfg.peers[0]]) && s.nodes[cfg.peers[0]].readStates == []
  }

  lemma SoloHandle(cfg: Config, n: Node, input: Input)
    requires Alone(cfg) && SoloNode(cfg, n) && !input.Receive? && n.readStates == []
    ensures Sound(cfg, n)
    ensures var r := Handle(cfg, n, input); SoloNode(cfg, r) && Grew(n, r) && r.snapIndex == n.snapIndex
    ensures var r := Handle(cfg, n, input);
      r.readStates == if input.Read? && n.role.Leader? then [ReadState(|n.log|, input.ctx)] else []
  {
    hide TimerFires, Propose, ReadIndex, B.Rising, WellFormed;
    OnlyPeer(cfg);
    match input
    case Timer => SoloTimer(cfg, n);
    case Commands(cmds) => SoloPropose(cfg, n, cmds);
    case Read(ctx) => SoloRead(cfg, n.(issued := n.issued + {ctx}), ctx);
  }

  lemma CutRises(log: Log, log': Log, keep: nat)
    requires B.Rising(log') && WellFormed(log') && log <= log' && keep <= |log'| && !(log'[..keep] <= log)
    ensures log <= log'[..keep] && B.Rising(log'[..keep]) && WellFormed(log'[..keep])
    ensures LastTerm(log'[..keep]) <= LastTerm(log')
  {
    if keep > |log| { assert log == log'[..|log|] == log'[..keep][..|log|]; }
  }

  lemma SoloRecovered(cfg: Config, n: Node, log: Log, commit: nat)
    requires Alone(cfg) && SoloNode(cfg, n) && commit <= n.committed
    requires n.log <= log && B.Rising(log) && WellFormed(log) && LastTerm(log) <= n.term + 1
    ensures var r := Recovered(cfg, n, log, n.snapIndex, commit); SoloNode(cfg, r) && Grew(n, r) && r.readStates == []
  {
    OnlyPeer(cfg);
  }

  /** Death inside a drain, of whatever input, loses no entry. */
  lemma SoloTear(cfg: Config, n: Node, input: Input, keep: nat, commit: nat)
    requires Alone(cfg) && SoloNode(cfg, n) && n.readStates == [] && !input.Receive? && commit <= n.committed
    requires Sound(cfg, n) && CanTear(n, Handle(cfg, n, input), keep)
    ensures var r := Torn(cfg, n, Handle(cfg, n, input), keep, commit);
      SoloNode(cfg, r) && Grew(n, r) && r.readStates == []
  {
    hide Handle, Recovered, B.Rising, WellFormed;
    SoloHandle(cfg, n, input);
    SoloTerm(cfg, n, input);
    var r := Handle(cfg, n, input);
    CutRises(n.log, r.log, keep);
    SoloRecovered(cfg, n, r.log[..keep], commit);
  }

  lemma SoloTerm(cfg: Config, n: Node, input: Input)
    requires Alone(cfg) && SoloNode(cfg, n) && !input.Receive? && Sound(cfg, n)
    ensures LastTerm(Handle(cfg, n, input).log) <= n.term + 1
  {
    hide SolicitVotes, AppendEntry, BcastAppend, BcastHeartbeat;
    OnlyPeer(cfg);
    match input
    case Timer =>
      if n.role.Leader? {
        BcastHeartbeatKeeps(n, cfg.peers, LastPendingContext(n.readOnly));
      } else {
        var p := RecordVote(BecomePreCandidate(n), n.id, true);
        assert Granted(p) == {n.id};
        Elected(cfg, n);
        Elected(cfg, p);
      }
    case Commands(cmds) => SoloProposeTerm(cfg, n, cmds);
    case Read(ctx) => SoloRead(cfg, n.(issued := n.issued + {ctx}), ctx);
  }

  lemma SoloProposeTerm(cfg: Config, n: Node, cmds: seq<Bytes>)
    requires Alone(cfg) && SoloNode(cfg, n) && Sound(cfg, n)
    ensures LastTerm(Propose(cfg, n, cmds).log) <= n.term + 1
  {
    hide AppendEntry, BcastAppend;
    if n.role.Leader? && cmds != [] {
      var es := seq(|cmds|, i requires 0 <= i < |cmds| => (Normal, cmds[i]));
      SoloAppend(cfg, n, es);
      BcastAppendKeeps(cfg, AppendEntry(cfg, n, es), cfg.peers);
    }
  }

  lemma SoloNext(cfg: Config, s: System, a: Action)
    requires Alone(cfg) && SoloOK(cfg, s) && Enabled(cfg, s, a)
    ensures SoloOK(cfg, Next(cfg, s, a)) && Grew(s.nodes[cfg.peers[0]], Next(cfg, s, a).nodes[cfg.peers[0]])
  {
    hide Handle, Recovered, Torn, CanTear, B.Rising, WellFormed;
    var x := cfg.peers[0];
    var n := s.nodes[x];
    match a
    case Act(id, input) =>
      SoloHandle(cfg, n, input);
      assert Sent(Handle(cfg, n, input).msgs) == {};
    case Compact(id, index) =>
    case Crash(id, commit) => SoloRecovered(cfg, n, n.log, commit);
    case Tear(id, input, keep, commit) => SoloTear(cfg, n, input, keep, commit);
  }

  lemma SoloInit(cfg: Config)
    requires Alone(cfg)
    ensures SoloOK(cfg, Init(cfg))
  {
    OnlyPeer(cfg);
  }

  // ----- whole runs -----

  lemma {:induction false} SoloState(cfg: Config, run: seq<System>, acts: seq<Action>, k: nat)
    requires Alone(cfg) && IsRun(cfg, run, acts) && k < |run|
    ensures SoloOK(cfg, run[k])
    decreases k
  {
    hide SoloOK, Init, Enabled, Next;
    if k == 0 {
      SoloInit(cfg);
    } else {
      SoloState(cfg, run, acts, k - 1);
      SoloNext(cfg, run[k - 1], acts[k - 1]);
    }
  }

  lemma GrewTrans(a: Node, b: Node, c: Node)
    requires Grew(a, b) && Grew(b, c)
    ensures Grew(a, c)
  {
  }

  /** From any moment of a run to any later one the log has only grown, across
      crashes, torn drains and compactions. */
  lemma {:induction false} SoloGrows(cfg: Config, run: seq<System>, acts: seq<Action>, j: nat, k: nat)
    requires Alone(cfg) && IsRun(cfg, run, acts) && j <= k < |run|
    ensures SoloOK(cfg, run[j]) && SoloOK(cfg, run[k]) && Grew(run[j].nodes[cfg.peers[0]], run[k].nodes[cfg.peers[0]])
    decreases k
  {
    hide SoloNode, Init, Enabled, Next;
    SoloState(cfg, run, acts, j);
    SoloState(cfg, run, acts, k);
    if j < k {
      var x := cfg.peers[0];
      SoloGrows(cfg, run, acts, j, k - 1);
      SoloNext(cfg, run[k - 1], acts[k - 1]);
      GrewTrans(run[j].nodes[x], run[k - 1].nodes[x], run[k].nodes[x]);
    }
  }
}
