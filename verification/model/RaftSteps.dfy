/** Every action of a node keeps the invariant. */
module RaftSteps {
  import opened RaftTypes
  import opened RaftCore
  import opened RaftHistory
  import opened RaftInvariant
  import opened RaftReads
  import opened RaftLeader
  import opened RaftFollower
  import opened RaftElection
  import opened RaftSystem

  // ----- message dispatch -----

  lemma StepFollowerOK(cfg: Config, b: Book, n: Node, m: Message) returns (b': Book)
    requires StepOK(cfg, b, n) && n.role.Follower? && MsgOK(cfg, b, m) && m.to == n.id
    requires m.term == n.term || m.PreVoteResp?
    ensures StepOK(cfg, b', StepFollower(n, m)) && Frame(b, b', n.id)
  {
    hide StepOK, Frame, HandleAppend, HandleHeartbeat, HandleSnapshot;
    b' := b;
    FrameSelf(b, n.id);
    if m.Append? || m.Heartbeat? || m.InstallSnapshot? {
      var n1 := n.(lead := m.from);
      LeadOnly(cfg, b, n, m.from);
      if m.Append? {
        b' := HandleAppendOK(cfg, b, n1, m);
      } else if m.Heartbeat? {
        b' := HandleHeartbeatOK(cfg, b, n1, m);
      } else {
        b' := HandleSnapshotOK(cfg, b, n1, m);
      }
    }
  }

  lemma StepCandidateOK(cfg: Config, b: Book, n: Node, m: Message) returns (b': Book)
    requires StepOK(cfg, b, n) && (n.role.PreCandidate? || n.role.Candidate?) && n.readStates == []
    requires MsgOK(cfg, b, m) && m.to == n.id && (m.term == n.term || m.PreVoteResp?)
    ensures ValidConfig(cfg) && Shape(cfg, n)
    ensures StepOK(cfg, b', StepCandidate(cfg, n, m)) && Frame(b, b', n.id)
  {
    hide StepOK, Frame, HistOK, AsksOK, HiddenOK, HandleAppend, HandleHeartbeat, HandleSnapshot, CountVote;
    Facts(cfg, b, n);
    b' := b;
    FrameSelf(b, n.id);
    if m.Append? || m.Heartbeat? || m.InstallSnapshot? {
      var n1 := BecomeFollower(cfg, n, m.term, m.from);
      BecomeFollowerOK(cfg, b, n, m.term, m.from);
      if m.Append? {
        b' := HandleAppendOK(cfg, b, n1, m);
      } else if m.Heartbeat? {
        b' := HandleHeartbeatOK(cfg, b, n1, m);
      } else {
        b' := HandleSnapshotOK(cfg, b, n1, m);
      }
    } else if IsMyVoteResp(n, m) {
      b' := CountVoteOK(cfg, b, n, m);
    }
  }

  lemma StepLeaderOK(cfg: Config, b: Book, n: Node, m: Message) returns (b': Book)
    requires StepOK(cfg, b, n) && n.role.Leader?
    requires MsgOK(cfg, b, m) && (m.term == n.term || m.PreVoteResp?)
    ensures ValidConfig(cfg) && Shape(cfg, n)
    ensures StepOK(cfg, b', StepLeader(cfg, n, m)) && Frame(b, b', n.id)
  {
    hide StepOK, Frame, HistOK, AsksOK, HiddenOK, HandleAppendResp, HandleHeartbeatResp;
    Facts(cfg, b, n);
    b' := b;
    FrameSelf(b, n.id);
    if m.AppendResp? {
      b' := HandleAppendRespOK(cfg, b, n, m);
    } else if m.HeartbeatResp? {
      HandleHeartbeatRespOK(cfg, b, n, m);
    } else if m.InstallSnapshotResp? {
      SnapshotRespOK(cfg, b, n, m);
    }
  }

  lemma DispatchOK(cfg: Config, b: Book, n: Node, m: Message) returns (b': Book)
    requires StepOK(cfg, b, n) && n.readStates == [] && MsgOK(cfg, b, m) && m.to == n.id
    requires m.term == n.term || m.PreVoteResp? || m.PreVote?
    ensures ValidConfig(cfg) && Shape(cfg, n)
    ensures StepOK(cfg, b', Dispatch(cfg, n, m)) && Frame(b, b', n.id)
  {
    hide StepOK, Frame, HistOK, AsksOK, HiddenOK, StepFollower, StepCandidate, StepLeader, HandleVote;
    Facts(cfg, b, n);
    if m.PreVote? {
      b' := b;
      FrameSelf(b, n.id);
      var grant := IsUpToDate(n, m.logIndex, m.logTerm) && m.term > n.term;
      SendOK(cfg, b, n, PreVoteResp(n.id, m.from, m.term, !grant));
    } else if m.Vote? {
      b' := HandleVoteOK(cfg, b, n, m);
    } else {
      match n.role
      case Follower => b' := StepFollowerOK(cfg, b, n, m);
      case Leader => b' := StepLeaderOK(cfg, b, n, m);
      case PreCandidate => b' := StepCandidateOK(cfg, b, n, m);
      case Candidate => b' := StepCandidateOK(cfg, b, n, m);
    }
  }

  lemma RejectStickyOK(cfg: Config, b: Book, n: Node, m: Message)
    requires StepOK(cfg, b, n) && MsgOK(cfg, b, m) && (m.Vote? || m.PreVote?) && n.lead != NONE
    ensures StepOK(cfg, b, RejectSticky(n, m))
  {
    hide StepOK, HistOK, AsksOK, HiddenOK;
    Facts(cfg, b, n);
    if m.PreVote? {
      SendOK(cfg, b, n, PreVoteResp(n.id, m.from, m.term, true));
    } else {
      SendOK(cfg, b, n, VoteResp(n.id, m.from, n.term, true));
    }
  }

  lemma ReplyStaleOK(cfg: Config, b: Book, n: Node, m: Message)
    requires StepOK(cfg, b, n) && MsgOK(cfg, b, m) && m.term < n.term
    ensures StepOK(cfg, b, ReplyStale(n, m))
  {
    hide StepOK, HistOK, AsksOK, HiddenOK;
    Facts(cfg, b, n);
    match m
    case Append(_, _, _, _, _, _, _) => SendOK(cfg, b, n, AppendResp(n.id, m.from, n.term, 0, false, 0, 0));
    case Heartbeat(_, _, _, _, _) => SendOK(cfg, b, n, HeartbeatResp(n.id, m.from, n.term, []));
    case InstallSnapshot(_, _, _, _) => SendOK(cfg, b, n, InstallSnapshotResp(n.id, m.from, n.term, 0));
    case PreVote(_, _, _, _, _) => SendOK(cfg, b, n, PreVoteResp(n.id, m.from, n.term, true));
    case _ =>
  }

  lemma StepMessageOK(cfg: Config, b: Book, n: Node, m: Message, leased: bool) returns (b': Book)
    requires StepOK(cfg, b, n) && n.readStates == [] && MsgOK(cfg, b, m) && m.to == n.id
    ensures ValidConfig(cfg) && Shape(cfg, n)
    ensures StepOK(cfg, b', Step(cfg, n, m, leased)) && Frame(b, b', n.id)
  {
    hide StepOK, Frame, HistOK, AsksOK, HiddenOK, Dispatch, RejectSticky, ReplyStale;
    Facts(cfg, b, n);
    b' := b;
    FrameSelf(b, n.id);
    if Sticky(n, m, leased) {
      RejectStickyOK(cfg, b, n, m);
    } else if m.term == n.term || (m.term > n.term && KeepsTerm(m)) {
      b' := DispatchOK(cfg, b, n, m);
    } else if m.term < n.term {
      ReplyStaleOK(cfg, b, n, m);
    } else {
      var lead := if m.Vote? then NONE else m.from;
      BecomeFollowerOK(cfg, b, n, m.term, lead);
      b' := DispatchOK(cfg, b, BecomeFollower(cfg, n, m.term, lead), m);
    }
  }

  // ----- every input -----

  lemma TimerOK(cfg: Config, b: Book, n: Node) returns (b': Book)
    requires StepOK(cfg, b, n) && n.readStates == []
    ensures ValidConfig(cfg) && Shape(cfg, n)
    ensures StepOK(cfg, b', TimerFires(cfg, n)) && Frame(b, b', n.id)
  {
    hide StepOK, Frame, HistOK, AsksOK, HiddenOK, Campaign, BcastHeartbeat, ReadsOK, ProgressesOK, LeadsOK;
    Facts(cfg, b, n);
    if n.role.Leader? {
      b' := b;
      FrameSelf(b, n.id);
      LeaderFacts(cfg, b, n);
      LastContextCast(cfg, b, n);
      BcastHeartbeatOK(cfg, b, n, cfg.peers, LastPendingContext(n.readOnly));
    } else {
      b' := CampaignOK(cfg, b, n);
    }
  }

  lemma LastContextCast(cfg: Config, b: Book, n: Node)
    requires ReadsOK(cfg, b, n)
    ensures LastPendingContext(n.readOnly) != [] ==> (n.term, LastPendingContext(n.readOnly)) in b.casts
  {
  }

  lemma IssueOK(cfg: Config, b: Book, n: Node, ctx: Context)
    requires StepOK(cfg, b, n) && ctx !in n.issued
    ensures StepOK(cfg, b, n.(issued := n.issued + {ctx}))
    ensures n.role.Leader? ==> (n.term, ctx) !in b.asks
  {
    hide BookOK, MsgsOK, ClaimsOK, Prov, PendingOK, QueueOK, CandidateOK;
    var n' := n.(issued := n.issued + {ctx});
    assert ClaimsOfOK(b.h, n') && VotesOK(b.h, n') && ReadStatesOK(b, n') && SeenOK(b.h, n');
    if n.role.Leader? {
      assert ProgressesOK(b.h, n') by {
        forall f | f in n'.prs ensures ProgressOK(b.h, n', f) {
          assert ProgressOK(b.h, n, f);
        }
      }
      assert ReadsOK(cfg, b, n');
    }
    if n.role.Candidate? { IssueCandidate(b.h, n, n'); }
  }

  lemma IssueCandidate(h: History, n: Node, n': Node)
    requires n' == n.(issued := n'.issued) && n.committed <= |n.log| && CandidateOK(h, n)
    ensures CandidateOK(h, n')
  {
    assert n'.log[..n'.committed] == n.log[..n.committed];
  }

  lemma ReadOK(cfg: Config, b: Book, n: Node, ctx: Context) returns (b': Book)
    requires StepOK(cfg, b, n) && ctx !in n.issued
    ensures Shape(cfg, n)
    ensures StepOK(cfg, b', ReadIndex(cfg, n.(issued := n.issued + {ctx}), ctx)) && Growth(b, b', n.id)
    ensures b'.asks == if n.role.Leader? then b.asks[(n.term, ctx) := Ask(b.top, b.h.count)] else b.asks
  {
    hide StepOK, Growth, HistOK, AsksOK, HiddenOK, ReadIndex;
    Facts(cfg, b, n);
    IssueOK(cfg, b, n, ctx);
    b' := ReadIndexOK(cfg, b, n.(issued := n.issued + {ctx}), ctx);
  }

  lemma HandleOK(cfg: Config, b: Book, n: Node, input: Input) returns (b': Book)
    requires StepOK(cfg, b, n) && n.readStates == []
    requires input.Receive? ==> MsgOK(cfg, b, input.m) && input.m.to == n.id
    requires input.Read? ==> input.ctx !in n.issued
    ensures ValidConfig(cfg) && Sound(cfg, n)
    ensures StepOK(cfg, b', Handle(cfg, n, input)) && Growth(b, b', n.id)
    ensures b'.asks ==
      if input.Read? && n.role.Leader? then b.asks[(n.term, input.ctx) := Ask(b.top, b.h.count)] else b.asks
  {
    hide StepOK, Frame, Growth, HistOK, AsksOK, HiddenOK, Step, TimerFires, Propose, ReadIndex, MsgOK;
    Facts(cfg, b, n);
    match input
    case Receive(m, leased) =>
      b' := StepMessageOK(cfg, b, n, m, leased);
      FrameGrowth(b, b', n.id);
    case Timer =>
      b' := TimerOK(cfg, b, n);
      FrameGrowth(b, b', n.id);
    case Commands(cmds) =>
      b' := ProposeOK(cfg, b, n, cmds);
      FrameGrowth(b, b', n.id);
    case Read(ctx) => b' := ReadOK(cfg, b, n, ctx);
  }

  // ----- compaction and crashes -----

  lemma CompactOK(cfg: Config, b: Book, n: Node, index: nat)
    requires NodeOK(cfg, b, n) && n.snapIndex < index <= n.committed
    ensures NodeOK(cfg, b, n.(snapIndex := index))
  {
    hide ClaimsOK, Prov, PendingOK, QueueOK;
    var n' := n.(snapIndex := index);
    assert n'.log[..n'.committed] == n.log[..n.committed];
    if n.role.Leader? {
      assert ProgressesOK(b.h, n') by {
        forall f | f in n'.prs ensures ProgressOK(b.h, n', f) {
          assert ProgressOK(b.h, n, f);
        }
      }
      assert ReadsOK(cfg, b, n');
    }
  }

  /** How what is durable may differ from what the node held: nothing, or a
      piece of the log of a leader it was about to follow, or a snapshot of
      what that leader had committed. */
  predicate DurableMove(h: History, n: Node, log: Log, snap: nat, t: nat) {
    || (log == n.log && snap == n.snapIndex)
    || (&& t in h.el && n.term <= t && LogMove(h, t, n.log, log) && log != n.log
        && ((snap == n.snapIndex && n.committed <= |log| && n.committed <= |n.log|
             && log[..n.committed] == n.log[..n.committed])
            || (snap == |log| && snap > n.committed && SeenBy(h, log, t))))
  }

  lemma DurableClaims(cfg: Config, h: History, n: Node, n': Node, snap: nat, t: nat)
    requires ElectionsOK(cfg, h) && ClaimsOfOK(h, n) && DurableMove(h, n, n'.log, snap, t)
    requires n'.id == n.id && n'.term == n.term
    ensures ClaimsOfOK(h, n')
  {
    hide ElectionsOK, ClaimOK;
    if n'.log != n.log {
      forall t0 | (n.id, t0) in h.claims ensures ClaimsOK(h, h.count, n'.log, t0, h.claims[(n.id, t0)]) {
        ReplacedClaims(cfg, h, n.log, t, |n'.log|, t0, h.claims[(n.id, t0)]);
      }
    }
  }

  lemma DurableProv(cfg: Config, h: History, n: Node, log: Log, snap: nat, t: nat)
    requires ElectionsOK(cfg, h) && Prov(h, h.count, n.log) && DurableMove(h, n, log, snap, t)
    ensures Prov(h, h.count, log)
  {
    if log != n.log && log != [] {
      ElectionPrefix(cfg, h, t, |log|);
      assert ElectionOK(cfg, h, t);
    }
  }

  lemma DurableSeen(h: History, n: Node, n': Node, snap: nat, t: nat)
    requires n.snapIndex <= n.committed <= |n.log| && SeenOK(h, n) && DurableMove(h, n, n'.log, snap, t)
    requires n'.term == n.term && n'.snapIndex == snap <= n'.committed <= |n'.log|
    requires n'.committed <= Max(n.committed, snap)
    ensures SeenOK(h, n')
  {
    if n'.committed > 0 {
      if snap > n.committed {
        assert n'.log[..n'.committed] == n'.log;
      } else {
        assert n'.log[..n.committed] == n.log[..n.committed];
        var t0: nat :| SeenBy(h, n.log[..n.committed], t0) && (t0 <= n.term || n.committed <= n.snapIndex);
        var c := n'.log[..n'.committed];
        assert c == n.log[..n.committed][..n'.committed];
        assert SeenBy(h, c, t0);
      }
    }
  }

  function DurableBook(b: Book, n: Node, snap: nat): Book {
    b.(hidden := b.hidden[n.id := snap], top := Max(b.top, snap))
  }

  lemma SnapReached(h: History, top: nat, log: Log, t: nat)
    requires forall u | u in h.el :: h.el[u].ord < h.count
    requires Reached(h, h.count, top) && SeenBy(h, log, t)
    ensures Reached(h, h.count, Max(top, |log|))
  {
  }

  lemma HiddenRaised(b: Book, b': Book, id: NodeId, snap: nat)
    requires HiddenOK(b) && id in b.hidden && b.hidden[id] <= snap
    requires b'.h == b.h && b'.hidden == b.hidden[id := snap]
    ensures HiddenOK(b')
  {
  }

  lemma HiddenFrame(b: Book, b': Book, id: NodeId, snap: nat)
    requires id in b.hidden && b.hidden[id] <= snap && b.top <= b'.top
    requires b' == b.(hidden := b.hidden[id := snap], top := b'.top)
    ensures Frame(b, b', id)
  {
    assert forall t | t in b.h.el :: ElectionGrows(b.h.el[t], b'.h.el[t]);
  }

  lemma ReachesTop(b: Book)
    requires AsksOK(b)
    ensures Reached(b.h, b.h.count, b.top)
  {
  }

  lemma DurableBookOK(cfg: Config, b: Book, n: Node, log: Log, snap: nat, t: nat)
    requires BookOK(cfg, b) && Shape(cfg, n) && MarksOK(b, n) && DurableMove(b.h, n, log, snap, t)
    ensures BookOK(cfg, DurableBook(b, n, snap)) && Frame(b, DurableBook(b, n, snap), n.id)
  {
    hide HistOK, AsksOK, HiddenOK, Reached, Frame, LogMove, ElectionsOK;
    var b' := DurableBook(b, n, snap);
    HiddenFrame(b, b', n.id, snap);
    HiddenRaised(b, b', n.id, snap);
    Elections(cfg, b.h);
    ReachesTop(b);
    if snap > n.committed {
      ElectionOrds(cfg, b.h);
      SnapReached(b.h, b.top, log, t);
    }
    FrameExtends(b, b', n.id);
    AsksStable(b, b');
  }

  lemma ElectionOrds(cfg: Config, h: History)
    requires ElectionsOK(cfg, h)
    ensures forall u | u in h.el :: h.el[u].ord < h.count
  {
    forall u | u in h.el ensures h.el[u].ord < h.count { assert ElectionOK(cfg, h, u); }
  }

  lemma FrameExtends(b: Book, b': Book, id: NodeId)
    requires Frame(b, b', id)
    ensures Extends(b.h, b'.h)
  {
  }

  lemma RecoveredFields(cfg: Config, n: Node, log: Log, snap: nat, commit: nat)
    requires n.snapIndex <= n.committed && commit <= n.committed && snap <= |log|
    requires commit <= |log| || commit <= snap
    ensures var r := Recovered(cfg, n, log, snap, commit);
      && r == Node(n.id, n.term, n.vote, log, snap, Max(snap, commit), Follower, NONE, r.prs, map[], NO_READS, [], [], [], {}, false)
      && r.prs.Keys == PeerSet(cfg)
  {
  }

  lemma RecoveredVotes(h: History, n: Node, r: Node)
    requires VotesOK(h, n) && r.id == n.id && r.term == n.term && r.vote == n.vote && r.role.Follower?
    ensures VotesOK(h, r)
  {
  }

  /** Recovery from what is durable restores the invariant. */
  lemma RecoverOK(cfg: Config, b: Book, n: Node, log: Log, snap: nat, commit: nat, t: nat)
    requires StepOK(cfg, b, n) && DurableMove(b.h, n, log, snap, t) && commit <= n.committed
    ensures snap <= |log| && StepOK(cfg, DurableBook(b, n, snap), Recovered(cfg, n, log, snap, commit))
    ensures Frame(b, DurableBook(b, n, snap), n.id)
  {
    hide StepOK, HistOK, AsksOK, HiddenOK, ElectionsOK, ClaimsOfOK, VotesOK, SeenOK, Prov, MsgsOK, Frame, Recovered,
         LogMove;
    Parts(cfg, b, n);
    Follows(cfg, b, n);
    var b' := DurableBook(b, n, snap);
    DurableBookOK(cfg, b, n, log, snap, t);
    Elections(cfg, b.h);
    RecoveredFields(cfg, n, log, snap, commit);
    var r := Recovered(cfg, n, log, snap, commit);
    DurableClaims(cfg, b.h, n, r, snap, t);
    DurableProv(cfg, b.h, n, log, snap, t);
    DurableSeen(b.h, n, r, snap, t);
    RecoveredVotes(b.h, n, r);
    NoMessages(cfg, b');
    assert ReadStatesOK(b', r);
    Join(cfg, b', r);
  }

  lemma NoMessages(cfg: Config, b: Book)
    ensures MsgsOK(cfg, b, [])
  {
  }
}
