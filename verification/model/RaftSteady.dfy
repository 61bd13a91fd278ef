/** What a node never takes back: its identity, its term, its vote within a
    term, and its snapshot. */
module RaftSteady {
  import opened RaftTypes
  import opened RaftCore
  import opened RaftElection
  import opened RaftSystem
  import opened RaftTear

  predicate Steady(n: Node, r: Node) {
    && r.id == n.id && r.term >= n.term && r.snapIndex >= n.snapIndex
    && (r.term == n.term && n.vote != NONE ==> r.vote == n.vote)
  }

  /** An input does not lower the commit index either. */
  predicate Onward(n: Node, r: Node) { Steady(n, r) && r.committed >= n.committed }

  /** The node has installed the snapshot a message carries. */
  predicate Installs(m: Message, r: Node) {
    m.InstallSnapshot? && r.log == m.prefix && r.snapIndex == r.committed == |m.prefix| && r.role.Follower?
  }

  /** Only an installed snapshot raises the boundary. */
  predicate SnapMoves(n: Node, m: Message, r: Node) {
    r.snapIndex == n.snapIndex || (Installs(m, r) && (m.term == n.term ==> r.term == m.term))
  }

  lemma SpliceKeeps(n: Node, index: nat, commit: nat, ents: Log)
    ensures var r := MaybeAppend(n, index, commit, ents);
      r == n.(log := r.log, committed := r.committed, panicked := r.panicked) && r.committed >= n.committed
  {
    hide FindConflict;
  }

  lemma SplicedSteady(n: Node, m: Message)
    requires m.Append?
    ensures Onward(n, HandleAppend(n, m)) && HandleAppend(n, m).snapIndex == n.snapIndex
  {
    hide MaybeAppend, FindConflictByTerm, MatchTerm;
    SpliceKeeps(n, m.logIndex, m.commit, m.entries);
  }

  lemma FollowerSteady(n: Node, m: Message)
    requires n.snapIndex <= n.committed && n.role.Follower?
    ensures Onward(n, StepFollower(n, m)) && SnapMoves(n, m, StepFollower(n, m))
  {
    hide HandleAppend;
    if m.Append? { SplicedSteady(n.(lead := m.from), m); }
  }

  lemma LeaderSteady(cfg: Config, n: Node, m: Message)
    requires |cfg.peers| > 0 && n.prs.Keys == PeerSet(cfg) && n.snapIndex <= |n.log|
    ensures Onward(n, StepLeader(cfg, n, m)) && StepLeader(cfg, n, m).snapIndex == n.snapIndex
  {
    hide MaybeCommit, BcastAppend, AppendFor, CanCommit;
    if m.AppendResp? && m.from in n.prs && !m.reject {
      var u := n.(prs := n.prs[m.from := MaybeUpdate(n.prs[m.from], m.logIndex)]);
      MaybeCommitKeeps(cfg, u);
      BcastAppendKeeps(cfg, MaybeCommit(cfg, u), cfg.peers);
    }
  }

  lemma WonSteady(cfg: Config, n: Node)
    requires |cfg.peers| > 0 && n.id in PeerSet(cfg) && !n.role.Follower?
    ensures Onward(n, BecomeLeader(cfg, n)) && BecomeLeader(cfg, n).snapIndex == n.snapIndex
  {
    hide MaybeCommit, Stamp;
    MaybeCommitKeeps(cfg, NewLeader(cfg, n, n.log + Stamp(n.term, |n.log|, [(Noop, [])])));
  }

  lemma SolicitSteady(cfg: Config, n: Node)
    requires |cfg.peers| > 0 && n.id in PeerSet(cfg) && !n.role.Leader?
    ensures var r := SolicitVotes(cfg, BecomeCandidate(cfg, n)); Onward(n, r) && r.snapIndex == n.snapIndex
  {
    hide BecomeLeader, AskVotes, Granted;
    var v := Candidacy(cfg, n);
    assert v == RecordVote(BecomeCandidate(cfg, n), n.id, true);
    WonSteady(cfg, v);
    AskVotesKeeps(v, cfg.peers, false);
  }

  lemma TimerSteady(cfg: Config, n: Node)
    requires ValidConfig(cfg) && Sound(cfg, n)
    ensures Onward(n, TimerFires(cfg, n)) && TimerFires(cfg, n).snapIndex == n.snapIndex
  {
    hide SolicitVotes, AskVotes, BcastHeartbeat, Granted;
    if n.role.Leader? {
      BcastHeartbeatKeeps(n, cfg.peers, LastPendingContext(n.readOnly));
    } else {
      var v := RecordVote(BecomePreCandidate(n), n.id, true);
      SolicitSteady(cfg, v);
      AskVotesKeeps(v, cfg.peers, true);
      SolicitSteady(cfg, n);
    }
  }

  lemma CountSteady(cfg: Config, n: Node, m: Message)
    requires ValidConfig(cfg) && Sound(cfg, n) && (n.role.PreCandidate? || n.role.Candidate?)
    requires m.PreVoteResp? || m.VoteResp?
    ensures Onward(n, CountVote(cfg, n, m)) && CountVote(cfg, n, m).snapIndex == n.snapIndex
  {
    hide SolicitVotes, BecomeLeader, BcastAppend, Granted, Rejected;
    var v := RecordVote(n, m.from, !m.reject);
    SolicitSteady(cfg, v);
    WonSteady(cfg, v);
    BecomeLeaderKeeps(cfg, v);
    BcastAppendKeeps(cfg, BecomeLeader(cfg, v), cfg.peers);
  }

  lemma CandidateSteady(cfg: Config, n: Node, m: Message)
    requires ValidConfig(cfg) && Sound(cfg, n) && n.snapIndex <= n.committed && m.term >= n.term
    requires n.role.PreCandidate? || n.role.Candidate?
    ensures Onward(n, StepCandidate(cfg, n, m)) && SnapMoves(n, m, StepCandidate(cfg, n, m))
  {
    hide HandleAppend, CountVote;
    if m.Append? { SplicedSteady(BecomeFollower(cfg, n, m.term, m.from), m); }
    if IsMyVoteResp(n, m) { CountSteady(cfg, n, m); }
  }

  lemma DispatchSteady(cfg: Config, n: Node, m: Message)
    requires ValidConfig(cfg) && Sound(cfg, n) && n.snapIndex <= n.committed
    requires m.term == n.term || (m.term > n.term && !m.Vote?)
    ensures Onward(n, Dispatch(cfg, n, m)) && SnapMoves(n, m, Dispatch(cfg, n, m))
  {
    hide StepFollower, StepLeader, StepCandidate;
    match n.role
    case Follower => FollowerSteady(n, m);
    case Leader => LeaderSteady(cfg, n, m);
    case _ => CandidateSteady(cfg, n, m);
  }

  lemma StepSteady(cfg: Config, n: Node, m: Message, leased: bool)
    requires ValidConfig(cfg) && Sound(cfg, n) && n.snapIndex <= n.committed && m.term >= 1
    ensures var r := Step(cfg, n, m, leased);
      Onward(n, r) && (r.snapIndex != n.snapIndex ==> Installs(m, r) && r.term == m.term)
  {
    hide Dispatch;
    if m.term >= n.term {
      if m.term == n.term || KeepsTerm(m) { DispatchSteady(cfg, n, m); }
      DispatchSteady(cfg, BecomeFollower(cfg, n, m.term, if m.Vote? then NONE else m.from), m);
    }
  }

  lemma ProposeSteady(cfg: Config, n: Node, cmds: seq<Bytes>)
    requires ValidConfig(cfg) && Sound(cfg, n)
    ensures Onward(n, Propose(cfg, n, cmds)) && Propose(cfg, n, cmds).snapIndex == n.snapIndex
  {
    hide MaybeCommit, Stamp;
    if n.role.Leader? && cmds != [] {
      var es := seq(|cmds|, i requires 0 <= i < |cmds| => (Normal, cmds[i]));
      var log := n.log + Stamp(n.term, |n.log|, es);
      MaybeCommitKeeps(cfg, n.(log := log, prs := n.prs[n.id := MaybeUpdate(n.prs[n.id], |log|)]));
      BcastAppendKeeps(cfg, AppendEntry(cfg, n, es), cfg.peers);
    }
  }

  lemma ReadSteady(cfg: Config, n: Node, ctx: Context)
    requires n.prs.Keys == PeerSet(cfg)
    ensures Onward(n, ReadIndex(cfg, n, ctx)) && ReadIndex(cfg, n, ctx).snapIndex == n.snapIndex
  {
    SendReadIndexKeeps(cfg, n, ctx);
  }

  lemma HandleSteady(cfg: Config, n: Node, input: Input)
    requires ValidConfig(cfg) && Sound(cfg, n) && n.snapIndex <= n.committed
    requires input.Receive? ==> input.m.term >= 1
    ensures var r := Handle(cfg, n, input);
      Onward(n, r) && (r.snapIndex != n.snapIndex ==> input.Receive? && Installs(input.m, r) && r.term == input.m.term)
  {
    hide Step, TimerFires, Propose, ReadIndex;
    match input
    case Receive(m, leased) => StepSteady(cfg, n, m, leased);
    case Timer => TimerSteady(cfg, n);
    case Commands(cmds) => ProposeSteady(cfg, n, cmds);
    case Read(ctx) => ReadSteady(cfg, n.(issued := n.issued + {ctx}), ctx);
  }

  // ----- only a leader answers reads -----

  lemma WonQuiet(cfg: Config, n: Node)
    requires |cfg.peers| > 0 && n.id in PeerSet(cfg) && !n.role.Follower?
    ensures BecomeLeader(cfg, n).readStates == n.readStates
  {
    hide Stamp, QuorumIndex;
    var r := NewLeader(cfg, n, n.log + Stamp(n.term, |n.log|, [(Noop, [])]));
    assert MaybeCommit(cfg, r).readStates == r.readStates;
  }

  lemma SolicitQuiet(cfg: Config, n: Node)
    requires |cfg.peers| > 0 && n.id in PeerSet(cfg) && !n.role.Leader?
    ensures SolicitVotes(cfg, BecomeCandidate(cfg, n)).readStates == n.readStates
  {
    hide BecomeLeader, AskVotes, Granted;
    var v := Candidacy(cfg, n);
    assert v == RecordVote(BecomeCandidate(cfg, n), n.id, true);
    WonQuiet(cfg, v);
    AskVotesKeeps(v, cfg.peers, false);
  }

  lemma TimerQuiet(cfg: Config, n: Node)
    requires ValidConfig(cfg) && Sound(cfg, n)
    ensures TimerFires(cfg, n).readStates == n.readStates
  {
    hide SolicitVotes, AskVotes, BcastHeartbeat, Granted;
    if n.role.Leader? {
      BcastHeartbeatKeeps(n, cfg.peers, LastPendingContext(n.readOnly));
    } else {
      var v := RecordVote(BecomePreCandidate(n), n.id, true);
      SolicitQuiet(cfg, v);
      AskVotesKeeps(v, cfg.peers, true);
      SolicitQuiet(cfg, n);
    }
  }

  lemma SplicedQuiet(n: Node, m: Message)
    requires m.Append?
    ensures HandleAppend(n, m).readStates == n.readStates
  {
    hide MaybeAppend, FindConflictByTerm, MatchTerm;
    SpliceKeeps(n, m.logIndex, m.commit, m.entries);
  }

  lemma FollowerQuiet(n: Node, m: Message)
    ensures StepFollower(n, m).readStates == n.readStates
  {
    hide HandleAppend;
    if m.Append? { SplicedQuiet(n.(lead := m.from), m); }
  }

  lemma CountQuiet(cfg: Config, n: Node, m: Message)
    requires ValidConfig(cfg) && Sound(cfg, n) && (n.role.PreCandidate? || n.role.Candidate?)
    requires m.PreVoteResp? || m.VoteResp?
    ensures CountVote(cfg, n, m).readStates == n.readStates
  {
    hide SolicitVotes, BecomeLeader, BcastAppend, Granted, Rejected;
    var v := RecordVote(n, m.from, !m.reject);
    SolicitQuiet(cfg, v);
    WonQuiet(cfg, v);
    BecomeLeaderKeeps(cfg, v);
    BcastAppendKeeps(cfg, BecomeLeader(cfg, v), cfg.peers);
  }

  lemma CandidateQuiet(cfg: Config, n: Node, m: Message)
    requires ValidConfig(cfg) && Sound(cfg, n) && (n.role.PreCandidate? || n.role.Candidate?)
    ensures StepCandidate(cfg, n, m).readStates == n.readStates
  {
    hide HandleAppend, CountVote;
    if m.Append? { SplicedQuiet(BecomeFollower(cfg, n, m.term, m.from), m); }
    if IsMyVoteResp(n, m) { CountQuiet(cfg, n, m); }
  }

  lemma DispatchQuiet(cfg: Config, n: Node, m: Message)
    requires ValidConfig(cfg) && Sound(cfg, n)
    ensures !n.role.Leader? ==> Dispatch(cfg, n, m).readStates == n.readStates
    ensures n.role.Leader? ==> Dispatch(cfg, n, m).term == n.term
  {
    hide StepFollower, StepLeader, StepCandidate;
    match n.role
    case Follower => FollowerQuiet(n, m);
    case Leader => LeaderTerm(cfg, n, m);
    case _ => CandidateQuiet(cfg, n, m);
  }

  lemma LeaderTerm(cfg: Config, n: Node, m: Message)
    requires |cfg.peers| > 0 && n.prs.Keys == PeerSet(cfg) && n.snapIndex <= |n.log|
    ensures StepLeader(cfg, n, m).term == n.term
  {
    hide MaybeCommit, BcastAppend, AppendFor, CanCommit;
    if m.AppendResp? && m.from in n.prs && !m.reject {
      var u := n.(prs := n.prs[m.from := MaybeUpdate(n.prs[m.from], m.logIndex)]);
      MaybeCommitKeeps(cfg, u);
      BcastAppendKeeps(cfg, MaybeCommit(cfg, u), cfg.peers);
    }
  }

  lemma StepReleases(cfg: Config, n: Node, m: Message, leased: bool)
    requires ValidConfig(cfg) && Sound(cfg, n)
    ensures var r := Step(cfg, n, m, leased); r.readStates == n.readStates || (n.role.Leader? && r.term == n.term)
  {
    hide Dispatch;
    DispatchQuiet(cfg, n, m);
    DispatchQuiet(cfg, BecomeFollower(cfg, n, m.term, if m.Vote? then NONE else m.from), m);
  }

  /** An input that answers a read was taken by a leader, which keeps its term. */
  lemma ReleaserLeads(cfg: Config, n: Node, input: Input)
    requires ValidConfig(cfg) && Sound(cfg, n)
    ensures var r := Handle(cfg, n, input); r.readStates == n.readStates || (n.role.Leader? && r.term == n.term)
  {
    hide Step, TimerFires, MaybeCommit, Stamp, SendReadIndex;
    match input
    case Receive(m, leased) => StepReleases(cfg, n, m, leased);
    case Timer => TimerQuiet(cfg, n);
    case Commands(cmds) =>
      if n.role.Leader? && cmds != [] {
        var es := seq(|cmds|, i requires 0 <= i < |cmds| => (Normal, cmds[i]));
        var log := n.log + Stamp(n.term, |n.log|, es);
        MaybeCommitKeeps(cfg, n.(log := log, prs := n.prs[n.id := MaybeUpdate(n.prs[n.id], |log|)]));
        BcastAppendKeeps(cfg, AppendEntry(cfg, n, es), cfg.peers);
      }
    case Read(ctx) => SendReadIndexKeeps(cfg, n.(issued := n.issued + {ctx}), ctx);
  }

  // ----- winning takes more than one node, when there is more than one -----

  lemma NotAlone(cfg: Config, n: Node)
    requires |cfg.peers| > 1 && n.id in PeerSet(cfg) && !n.role.Leader?
    ensures !SolicitVotes(cfg, BecomeCandidate(cfg, n)).role.Leader?
  {
    hide AskVotes, BecomeLeader;
    var v := Candidacy(cfg, n);
    assert v == RecordVote(BecomeCandidate(cfg, n), n.id, true);
    assert Granted(v) == {n.id};
    AskVotesKeeps(v, cfg.peers, false);
  }

  lemma TimerNotAlone(cfg: Config, n: Node)
    requires ValidConfig(cfg) && |cfg.peers| > 1 && Sound(cfg, n)
    ensures var r := TimerFires(cfg, n); r.role.Leader? ==> r.term == n.term
  {
    hide SolicitVotes, AskVotes, BcastHeartbeat;
    if n.role.Leader? {
      BcastHeartbeatKeeps(n, cfg.peers, LastPendingContext(n.readOnly));
    } else {
      var v := RecordVote(BecomePreCandidate(n), n.id, true);
      assert Granted(v) == {n.id};
      AskVotesKeeps(v, cfg.peers, true);
      NotAlone(cfg, n);
    }
  }

  lemma CountNotAlone(cfg: Config, n: Node, m: Message)
    requires ValidConfig(cfg) && |cfg.peers| > 1 && Sound(cfg, n) && (n.role.PreCandidate? || n.role.Candidate?)
    requires m.PreVoteResp? || m.VoteResp?
    ensures var r := CountVote(cfg, n, m); r.role.Leader? ==> r.term == n.term
  {
    hide SolicitVotes, BecomeLeader, BcastAppend, Granted, Rejected;
    var v := RecordVote(n, m.from, !m.reject);
    if v.role.PreCandidate? { NotAlone(cfg, v); }
    BecomeLeaderLog(cfg, v);
    BecomeLeaderKeeps(cfg, v);
    BcastAppendKeeps(cfg, BecomeLeader(cfg, v), cfg.peers);
  }

  lemma FollowerStays(n: Node, m: Message)
    requires n.role.Follower?
    ensures StepFollower(n, m).role.Follower?
  {
    hide MaybeAppend, FindConflictByTerm, MatchTerm;
    if m.Append? { SpliceKeeps(n.(lead := m.from), m.logIndex, m.commit, m.entries); }
  }

  lemma CandidateNotAlone(cfg: Config, n: Node, m: Message)
    requires ValidConfig(cfg) && |cfg.peers| > 1 && Sound(cfg, n) && (n.role.PreCandidate? || n.role.Candidate?)
    ensures var r := StepCandidate(cfg, n, m); r.role.Leader? ==> r.term == n.term
  {
    hide MaybeAppend, FindConflictByTerm, MatchTerm, CountVote;
    if m.Append? { SpliceKeeps(BecomeFollower(cfg, n, m.term, m.from), m.logIndex, m.commit, m.entries); }
    if IsMyVoteResp(n, m) { CountNotAlone(cfg, n, m); }
  }

  lemma DispatchNotAlone(cfg: Config, n: Node, m: Message)
    requires ValidConfig(cfg) && |cfg.peers| > 1 && Sound(cfg, n)
    ensures var r := Dispatch(cfg, n, m); r.role.Leader? ==> r.term == n.term
    ensures n.role.Follower? ==> !Dispatch(cfg, n, m).role.Leader?
  {
    hide StepFollower, StepLeader, StepCandidate;
    match n.role
    case Follower => FollowerStays(n, m);
    case Leader => LeaderTerm(cfg, n, m);
    case _ => CandidateNotAlone(cfg, n, m);
  }

  lemma StepNotAlone(cfg: Config, n: Node, m: Message, leased: bool)
    requires ValidConfig(cfg) && |cfg.peers| > 1 && Sound(cfg, n)
    ensures var r := Step(cfg, n, m, leased); r.role.Leader? ==> r.term == n.term
  {
    hide Dispatch;
    DispatchNotAlone(cfg, n, m);
    DispatchNotAlone(cfg, BecomeFollower(cfg, n, m.term, if m.Vote? then NONE else m.from), m);
  }

  lemma ProposeTerm(cfg: Config, n: Node, cmds: seq<Bytes>)
    requires ValidConfig(cfg) && Sound(cfg, n)
    ensures Propose(cfg, n, cmds).term == n.term
  {
    hide MaybeCommit, Stamp;
    if n.role.Leader? && cmds != [] {
      var es := seq(|cmds|, i requires 0 <= i < |cmds| => (Normal, cmds[i]));
      var log := n.log + Stamp(n.term, |n.log|, es);
      MaybeCommitKeeps(cfg, n.(log := log, prs := n.prs[n.id := MaybeUpdate(n.prs[n.id], |log|)]));
      BcastAppendKeeps(cfg, AppendEntry(cfg, n, es), cfg.peers);
    }
  }

  lemma ReadTerm(cfg: Config, n: Node, ctx: Context)
    requires n.prs.Keys == PeerSet(cfg)
    ensures ReadIndex(cfg, n, ctx).term == n.term
  {
    SendReadIndexKeeps(cfg, n, ctx);
  }

  /** In a cluster of more than one node, no single input both raises a node's term
      and makes it leader. */
  lemma NewLeaderKeepsTerm(cfg: Config, n: Node, input: Input)
    requires ValidConfig(cfg) && |cfg.peers| > 1 && Sound(cfg, n)
    ensures var r := Handle(cfg, n, input); r.role.Leader? ==> r.term == n.term
  {
    hide Step, TimerFires, Propose, ReadIndex;
    match input
    case Receive(m, leased) => StepNotAlone(cfg, n, m, leased);
    case Timer => TimerNotAlone(cfg, n);
    case Commands(cmds) => ProposeTerm(cfg, n, cmds);
    case Read(ctx) => ReadTerm(cfg, n.(issued := n.issued + {ctx}), ctx);
  }
}
