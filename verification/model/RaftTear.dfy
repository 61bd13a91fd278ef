/** A crash in the middle of persisting a batch keeps the invariant. */
module RaftTear {
  import opened RaftTypes
  import opened RaftCore
  import opened RaftHistory
  import opened RaftInvariant
  import opened RaftReads
  import opened RaftLeader
  import opened RaftFollower
  import opened RaftElection
  import opened RaftSystem
  import opened RaftSteps

  // ----- what leaves the log alone -----

  lemma {:induction false} BcastAppendKeeps(cfg: Config, n: Node, peers: seq<NodeId>)
    requires n.snapIndex <= |n.log|
    ensures var r := BcastAppend(cfg, n, peers); r == n.(msgs := r.msgs)
    decreases peers
  {
    hide AppendFor;
    if peers != [] {
      BcastAppendKeeps(cfg, if peers[0] == n.id then n else SendAppend(cfg, n, peers[0]), peers[1..]);
    }
  }

  lemma {:induction false} AskVotesKeeps(n: Node, peers: seq<NodeId>, pre: bool)
    ensures var r := AskVotes(n, peers, pre); r == n.(msgs := r.msgs)
    decreases peers
  {
    if peers != [] {
      var n' :=
        if peers[0] == n.id then n
        else if pre then Send(n, PreVote(n.id, peers[0], n.term + 1, |n.log|, TermAt(n, |n.log|)))
        else Send(n, Vote(n.id, peers[0], n.term, |n.log|, TermAt(n, |n.log|)));
      AskVotesKeeps(n', peers[1..], pre);
    }
  }

  lemma StepLeaderLog(cfg: Config, n: Node, m: Message)
    requires |cfg.peers| > 0 && n.prs.Keys == PeerSet(cfg) && n.snapIndex <= |n.log|
    ensures StepLeader(cfg, n, m).log == n.log
  {
    hide MaybeCommit, BcastAppend, AppendFor, AdvanceReads, CanCommit;
    if m.HeartbeatResp? {
      AdvanceReadsLog(cfg, n, m);
    } else if m.AppendResp? && m.from in n.prs && !m.reject {
      var u := n.(prs := n.prs[m.from := MaybeUpdate(n.prs[m.from], m.logIndex)]);
      MaybeCommitKeeps(cfg, u);
      BcastAppendKeeps(cfg, MaybeCommit(cfg, u), cfg.peers);
    }
  }

  lemma AdvanceReadsLog(cfg: Config, n: Node, m: Message)
    requires m.HeartbeatResp? && n.snapIndex <= |n.log|
    ensures HandleHeartbeatResp(cfg, n, m).log == n.log
  {
    hide AppendFor;
  }

  lemma ReadIndexLog(cfg: Config, n: Node, ctx: Context)
    requires n.prs.Keys == PeerSet(cfg)
    ensures ReadIndex(cfg, n, ctx).log == n.log
  {
    SendReadIndexKeeps(cfg, n, ctx);
  }

  lemma BecomeLeaderLog(cfg: Config, n: Node)
    requires |cfg.peers| > 0 && n.id in PeerSet(cfg) && !n.role.Follower?
    ensures var r := BecomeLeader(cfg, n);
      && r.role.Leader? && r.term == n.term && r.snapIndex == n.snapIndex
      && r.log == n.log + Stamp(n.term, |n.log|, [(Noop, [])])
  {
    hide MaybeCommit, Stamp;
    MaybeCommitKeeps(cfg, NewLeader(cfg, n, n.log + Stamp(n.term, |n.log|, [(Noop, [])])));
  }

  /** A campaign writes to the log only by winning its new term outright. */
  lemma SolicitVotesLog(cfg: Config, n: Node)
    requires |cfg.peers| > 0 && n.id in PeerSet(cfg) && !n.role.Leader?
    ensures var r := SolicitVotes(cfg, BecomeCandidate(cfg, n)); r.log == n.log || (r.role.Leader? && r.term == n.term + 1)
  {
    hide BecomeLeader, AskVotes, Granted;
    var v := Candidacy(cfg, n);
    assert v == RecordVote(BecomeCandidate(cfg, n), n.id, true);
    BecomeLeaderLog(cfg, v);
    AskVotesKeeps(v, cfg.peers, false);
  }

  lemma TimerLog(cfg: Config, n: Node)
    requires ValidConfig(cfg) && n.id in PeerSet(cfg) && n.prs.Keys == PeerSet(cfg)
    ensures var r := TimerFires(cfg, n); r.log == n.log || (r.role.Leader? && r.term == n.term + 1)
  {
    hide SolicitVotes, AskVotes, BcastHeartbeat, Granted;
    if n.role.Leader? {
      BcastHeartbeatKeeps(n, cfg.peers, LastPendingContext(n.readOnly));
    } else {
      var v := RecordVote(BecomePreCandidate(n), n.id, true);
      SolicitVotesLog(cfg, v);
      AskVotesKeeps(v, cfg.peers, true);
      SolicitVotesLog(cfg, n);
    }
  }

  // ----- a torn append or snapshot -----

  /** A node that has started to follow the leader of a message's term. */
  predicate Joined(n: Node, nf: Node) {
    && nf.id == n.id && nf.log == n.log && nf.snapIndex == n.snapIndex && nf.committed == n.committed
    && nf.role.Follower? && nf.term >= n.term
  }

  lemma KeptPrefix(log: Log, log': Log, k: nat, keep: nat)
    requires k <= |log| && log[..k] <= log' && keep <= |log'|
    ensures keep <= k ==> log'[..keep] <= log
  {
    if keep <= k { assert log'[..keep] == log[..k][..keep] == log[..keep]; }
  }

  lemma SamePrefix(log: Log, log': Log, keep: nat)
    requires keep <= |log'|
    ensures log' == log ==> log'[..keep] <= log
  {
  }

  lemma TornCut(l: Log, log: Log, log': Log, c: nat, k: nat, keep: nat)
    requires c <= k <= |log| && log[..k] <= log' && log' <= l && keep <= |log'| && !(log'[..keep] <= log)
    ensures c <= keep && log'[..keep][..c] == log[..c] && log'[..keep] == l[..keep]
  {
    KeptPrefix(log, log', k, keep);
    assert log'[..c] == log[..k][..c];
  }

  lemma AcceptedLog(cfg: Config, b: Book, nf: Node, m: Message)
    requires StepOK(cfg, b, nf) && IsAppendFrom(cfg, b, nf, m)
    requires nf.committed <= m.logIndex && MatchTerm(nf, m.logIndex, m.logTerm)
    ensures var r := HandleAppend(nf, m);
      && r.snapIndex == nf.snapIndex && LogMove(b.h, nf.term, nf.log, r.log)
      && nf.committed <= m.logIndex <= |nf.log| && nf.log[..m.logIndex] <= r.log
  {
    hide StepOK, HistOK, SeenOK, VotesOK, ClaimsOfOK, Prov, ElectionsOK, SpliceFrom, LogMove;
    Follows(cfg, b, nf);
    Elections(cfg, b.h);
    MatchIsReal(cfg, b, nf, m);
    SpliceMeaning(cfg, b.h, nf, m.logIndex, m.logIndex + |m.entries|);
  }

  lemma TornAppend(cfg: Config, b: Book, n: Node, nf: Node, m: Message, keep: nat)
    requires StepOK(cfg, b, nf) && Joined(n, nf) && m.Append? && IsAppendFrom(cfg, b, nf, m)
    requires var r := HandleAppend(nf, m); keep <= |r.log| && !(r.log[..keep] <= n.log)
    ensures var r := HandleAppend(nf, m);
      r.snapIndex == n.snapIndex && DurableMove(b.h, n, r.log[..keep], n.snapIndex, nf.term)
  {
    hide StepOK, IsAppendFrom, HandleAppend, BookOK, NodeOK, MatchTerm;
    RefusedLog(nf, m);
    var r := HandleAppend(nf, m);
    SamePrefix(n.log, r.log, keep);
    AppendTerm(cfg, b, nf, m);
    AcceptedLog(cfg, b, nf, m);
    TornCut(b.h.el[nf.term].log, n.log, r.log, n.committed, m.logIndex, keep);
  }

  lemma AppendTerm(cfg: Config, b: Book, nf: Node, m: Message)
    requires IsAppendFrom(cfg, b, nf, m)
    ensures nf.term in b.h.el
  {
  }

  lemma RefusedLog(nf: Node, m: Message)
    requires m.Append?
    ensures HandleAppend(nf, m).log == nf.log || (nf.committed <= m.logIndex && MatchTerm(nf, m.logIndex, m.logTerm))
  {
  }

  lemma TornSnapshot(cfg: Config, b: Book, n: Node, nf: Node, m: Message)
    requires StepOK(cfg, b, nf) && Joined(n, nf) && IsSnapshotFrom(cfg, b, nf, m)
    requires HandleSnapshot(nf, m).log != n.log
    ensures var r := HandleSnapshot(nf, m);
      r.snapIndex == |r.log| > n.snapIndex && DurableMove(b.h, n, r.log, r.snapIndex, nf.term)
  {
    hide StepOK, HistOK, SeenOK, VotesOK, ClaimsOfOK, Prov;
    Follows(cfg, b, nf);
    assert m.prefix == b.h.el[nf.term].log[..|m.prefix|];
    assert LastTerm(m.prefix) == m.prefix[|m.prefix| - 1].term;
  }

  lemma JoinOK(cfg: Config, b: Book, n: Node, m: Message) returns (nf: Node)
    requires StepOK(cfg, b, n) && n.readStates == [] && MsgOK(cfg, b, m) && m.term >= n.term
    requires !(n.role.Leader? && m.term == n.term) && (m.Append? || m.InstallSnapshot?)
    ensures ValidConfig(cfg) && Shape(cfg, n)
    ensures StepOK(cfg, b, nf) && Joined(n, nf) && nf.term == m.term
    ensures m.Append? ==> Step(cfg, n, m, false) == HandleAppend(nf, m) == Step(cfg, n, m, true)
    ensures m.InstallSnapshot? ==> Step(cfg, n, m, false) == HandleSnapshot(nf, m) == Step(cfg, n, m, true)
  {
    hide StepOK, HistOK, AsksOK, HiddenOK, HandleAppend, HandleSnapshot, AppendBodyOK;
    Facts(cfg, b, n);
    if m.term > n.term {
      var n1 := BecomeFollower(cfg, n, m.term, m.from);
      BecomeFollowerOK(cfg, b, n, m.term, m.from);
      LeadOnly(cfg, b, n1, m.from);
      nf := n1.(lead := m.from);
    } else if n.role.Follower? {
      LeadOnly(cfg, b, n, m.from);
      nf := n.(lead := m.from);
    } else {
      BecomeFollowerOK(cfg, b, n, m.term, m.from);
      nf := BecomeFollower(cfg, n, m.term, m.from);
    }
  }

  lemma StaleLog(cfg: Config, n: Node, m: Message, leased: bool)
    requires ValidConfig(cfg) && Sound(cfg, n) && m.term >= 1
    requires m.term < n.term || (n.role.Leader? && m.term == n.term) || !(m.Append? || m.InstallSnapshot?)
    requires !(m.PreVoteResp? || m.VoteResp?)
    ensures Step(cfg, n, m, leased).log == n.log
  {
    hide StepLeader, StepCandidate, StepFollower;
    StepLeaderLog(cfg, n, m);
    if m.term >= n.term && !(n.role.Leader? && m.term == n.term) { QuietLog(cfg, n, m); }
  }

  lemma QuietLog(cfg: Config, n: Node, m: Message)
    requires ValidConfig(cfg) && Sound(cfg, n)
    requires !(m.Append? || m.InstallSnapshot? || m.PreVoteResp? || m.VoteResp?)
    ensures StepFollower(n, m).log == n.log
    ensures StepCandidate(cfg, n, m).log == n.log
    ensures StepFollower(BecomeFollower(cfg, n, m.term, m.from), m).log == n.log
  {
  }

  // ----- a torn append of the leader's own entries -----

  /** What a crash preserves of a node. */
  predicate SameDurable(n: Node, n1: Node) {
    && n1.id == n.id && n1.term == n.term && n1.vote == n.vote
    && n1.snapIndex == n.snapIndex && n1.committed == n.committed
  }

  lemma CutTail(t: nat, log: Log, log': Log, keep: nat)
    requires OwnTail(t, log, log') && keep <= |log'| && !(log'[..keep] <= log)
    ensures OwnTail(t, log, log'[..keep]) && |log| < keep
  {
    assert log[..|log|] == log;
    KeptPrefix(log, log', |log|, keep);
  }

  lemma ProposeLog(cfg: Config, n: Node, cmds: seq<Bytes>)
    requires ValidConfig(cfg) && Sound(cfg, n)
    ensures var r := Propose(cfg, n, cmds);
      && r.snapIndex == n.snapIndex && (n.role.Leader? ==> OwnTail(n.term, n.log, r.log))
      && (!n.role.Leader? ==> r == n)
  {
    hide MaybeCommit, Stamp, OwnTail;
    if n.role.Leader? && cmds != [] {
      var es := seq(|cmds|, i requires 0 <= i < |cmds| => (Normal, cmds[i]));
      var log := n.log + Stamp(n.term, |n.log|, es);
      StampTail(n.term, n.log, es);
      MaybeCommitKeeps(cfg, n.(log := log, prs := n.prs[n.id := MaybeUpdate(n.prs[n.id], |log|)]));
      BcastAppendKeeps(cfg, AppendEntry(cfg, n, es), cfg.peers);
    } else {
      StampTail(n.term, n.log, []);
      assert n.log + Stamp(n.term, |n.log|, []) == n.log by { NoStamp(n.term, n.log); }
    }
  }

  lemma NoStamp(t: nat, log: Log)
    ensures log + Stamp(t, |log|, []) == log
  {
  }

  lemma TornPropose(cfg: Config, b: Book, n: Node, cmds: seq<Bytes>, keep: nat) returns (b1: Book, n1: Node)
    requires StepOK(cfg, b, n) && Sound(cfg, n)
    requires var r := Propose(cfg, n, cmds); keep <= |r.log| && !(r.log[..keep] <= n.log)
    ensures StepOK(cfg, b1, n1) && Frame(b, b1, n.id) && SameDurable(n, n1)
    ensures n1.log == Propose(cfg, n, cmds).log[..keep] && Propose(cfg, n, cmds).snapIndex == n.snapIndex
  {
    hide StepOK, Frame, HistOK, AsksOK, HiddenOK, Propose, OwnTail;
    Facts(cfg, b, n);
    ProposeLog(cfg, n, cmds);
    var log := Propose(cfg, n, cmds).log;
    CutTail(n.term, n.log, log, keep);
    b1 := GrowOK(cfg, b, n, log[..keep]);
    n1 := Grown(n, log[..keep]);
  }

  /** Counting a vote writes to the log only by winning. */
  lemma VoteLog(cfg: Config, n: Node, m: Message, leased: bool)
    requires ValidConfig(cfg) && Sound(cfg, n) && m.term >= 1 && (m.PreVoteResp? || m.VoteResp?)
    ensures var r := Step(cfg, n, m, leased);
      || r.log == n.log
      || (r.role.Leader? && r.term == n.term + 1)
      || (&& n.role.Candidate? && m.VoteResp? && m.term == n.term
          && |Granted(RecordVote(n, m.from, !m.reject))| >= Quorum(cfg)
          && r.snapIndex == n.snapIndex && r.log == n.log + Stamp(n.term, |n.log|, [(Noop, [])]))
  {
    hide CountVote, Stamp, StepLeader, Granted;
    StepLeaderLog(cfg, n, m);
    if !n.role.Leader? && !n.role.Follower? { CountLog(cfg, n, m); }
  }

  lemma CountLog(cfg: Config, n: Node, m: Message)
    requires ValidConfig(cfg) && Sound(cfg, n) && (n.role.PreCandidate? || n.role.Candidate?)
    requires m.PreVoteResp? || m.VoteResp?
    ensures var r := CountVote(cfg, n, m);
      || r.log == n.log
      || (r.role.Leader? && r.term == n.term + 1)
      || (&& n.role.Candidate? && |Granted(RecordVote(n, m.from, !m.reject))| >= Quorum(cfg)
          && r.snapIndex == n.snapIndex && r.log == n.log + Stamp(n.term, |n.log|, [(Noop, [])]))
  {
    hide SolicitVotes, BecomeLeader, BcastAppend, Stamp, Granted, Rejected;
    var v := RecordVote(n, m.from, !m.reject);
    SolicitVotesLog(cfg, v);
    BecomeLeaderLog(cfg, v);
    BecomeLeaderKeeps(cfg, v);
    BcastAppendKeeps(cfg, BecomeLeader(cfg, v), cfg.peers);
  }

  lemma NoopTail(t: nat, log: Log)
    ensures var r := log + Stamp(t, |log|, [(Noop, [])]);
      |r| == |log| + 1 && OwnTail(t, log, r) && forall keep | 0 <= keep <= |log| :: r[..keep] <= log
  {
    var r := log + Stamp(t, |log|, [(Noop, [])]);
    forall keep | 0 <= keep <= |log| ensures r[..keep] <= log { assert r[..keep] == log[..keep]; }
  }

  lemma TornElection(cfg: Config, b: Book, n: Node, m: Message, log: Log) returns (b1: Book, n1: Node)
    requires StepOK(cfg, b, n) && n.role.Candidate? && m.VoteResp? && m.term == n.term && m.to == n.id
    requires MsgOK(cfg, b, m)
    requires |Granted(RecordVote(n, m.from, !m.reject))| >= Quorum(cfg)
    requires log == n.log + Stamp(n.term, |n.log|, [(Noop, [])])
    ensures StepOK(cfg, b1, n1) && Frame(b, b1, n.id) && SameDurable(n, n1) && n1.log == log
  {
    hide StepOK, Frame, OwnTail, Granted, Stamp;
    CandidateTally(cfg, b, n, m.from, !m.reject);
    NoopTail(n.term, n.log);
    var v := RecordVote(n, m.from, !m.reject);
    b1 := WonOK(cfg, b, v, log);
    n1 := NewLeader(cfg, v, log);
  }

  // ----- every input -----

  /** The input does not make the node leader of a new term, as is always so in
      a cluster of more than one. */
  predicate KeepsItsTerm(n: Node, n': Node) { n'.role.Leader? ==> n'.term == n.term }

  /** Whatever is durable after a torn batch is a durable move from a node that
      satisfies the invariant and shares the crashed node's hard state. */
  lemma TornMessage(cfg: Config, b: Book, n: Node, m: Message, leased: bool, keep: nat)
    returns (b1: Book, n1: Node, t: nat)
    requires StepOK(cfg, b, n) && n.readStates == [] && MsgOK(cfg, b, m) && m.to == n.id && Sound(cfg, n)
    requires CanTear(n, Step(cfg, n, m, leased), keep) && KeepsItsTerm(n, Step(cfg, n, m, leased))
    ensures StepOK(cfg, b1, n1) && Frame(b, b1, n.id) && SameDurable(n, n1)
    ensures var r := Step(cfg, n, m, leased);
      DurableMove(b1.h, n1, r.log[..keep], if r.snapIndex > n.snapIndex then r.snapIndex else n.snapIndex, t)
  {
    hide StepOK, Frame, HistOK, AsksOK, HiddenOK, Step, HandleAppend, HandleSnapshot, Stamp, OwnTail, LogMove,
         Granted, AppendBodyOK;
    Facts(cfg, b, n);
    b1, n1, t := b, n, m.term;
    FrameSelf(b, n.id);
    var r := Step(cfg, n, m, leased);
    SamePrefix(n.log, r.log, keep);
    if m.VoteResp? || m.PreVoteResp? {
      VoteLog(cfg, n, m, leased);
      NoopTail(n.term, n.log);
      b1, n1 := TornElection(cfg, b, n, m, r.log);
      assert r.log[..keep] == r.log;
    } else if m.term < n.term || (n.role.Leader? && m.term == n.term) || !(m.Append? || m.InstallSnapshot?) {
      StaleLog(cfg, n, m, leased);
    } else {
      var nf := JoinOK(cfg, b, n, m);
      if m.Append? {
        TornAppend(cfg, b, n, nf, m, keep);
      } else {
        TornSnapshot(cfg, b, n, nf, m);
        assert r.log[..keep] == r.log;
      }
    }
  }

  lemma TornInput(cfg: Config, b: Book, n: Node, input: Input, keep: nat)
    returns (b1: Book, n1: Node, t: nat)
    requires StepOK(cfg, b, n) && n.readStates == [] && Sound(cfg, n)
    requires input.Receive? ==> MsgOK(cfg, b, input.m) && input.m.to == n.id
    requires CanTear(n, Handle(cfg, n, input), keep) && KeepsItsTerm(n, Handle(cfg, n, input))
    ensures StepOK(cfg, b1, n1) && Frame(b, b1, n.id) && SameDurable(n, n1)
    ensures var r := Handle(cfg, n, input);
      DurableMove(b1.h, n1, r.log[..keep], if r.snapIndex > n.snapIndex then r.snapIndex else n.snapIndex, t)
  {
    hide StepOK, Frame, HistOK, AsksOK, HiddenOK, Step, TimerFires, Propose, ReadIndex, LogMove, MsgOK;
    b1, n1, t := b, n, 0;
    FrameSelf(b, n.id);
    Facts(cfg, b, n);
    var r := Handle(cfg, n, input);
    SamePrefix(n.log, r.log, keep);
    match input
    case Receive(m, leased) => b1, n1, t := TornMessage(cfg, b, n, m, leased, keep);
    case Timer => TimerLog(cfg, n);
    case Commands(cmds) => b1, n1 := TornPropose(cfg, b, n, cmds, keep);
    case Read(ctx) => ReadIndexLog(cfg, n.(issued := n.issued + {ctx}), ctx);
  }

  lemma TearOK(cfg: Config, b: Book, n: Node, input: Input, keep: nat, commit: nat) returns (b': Book)
    requires StepOK(cfg, b, n) && n.readStates == [] && Sound(cfg, n) && commit <= n.committed
    requires input.Receive? ==> MsgOK(cfg, b, input.m) && input.m.to == n.id
    requires CanTear(n, Handle(cfg, n, input), keep) && KeepsItsTerm(n, Handle(cfg, n, input))
    ensures StepOK(cfg, b', Torn(cfg, n, Handle(cfg, n, input), keep, commit)) && Frame(b, b', n.id)
  {
    hide StepOK, Frame, Handle, DurableMove, Recover, MsgOK, HistOK, AsksOK, HiddenOK;
    Facts(cfg, b, n);
    var r := Handle(cfg, n, input);
    var b1, n1, t := TornInput(cfg, b, n, input, keep);
    var snap := if r.snapIndex > n.snapIndex then r.snapIndex else n.snapIndex;
    RecoverOK(cfg, b1, n1, r.log[..keep], snap, commit, t);
    b' := DurableBook(b1, n1, snap);
    FrameTrans(b, b1, b', n.id);
  }
}
