/** What a node sends, and what each message says about the node at that moment. */
module RaftTraffic {
  import opened RaftTypes
  import opened RaftCore
  import opened RaftSystem
  import opened RaftSteady
  import opened RaftTear
  import B = RaftBacktrack

  /** Neither replication nor an answer to it. */
  predicate Plain(m: Message) { !m.Append? && !m.InstallSnapshot? && !m.AppendResp? && !m.InstallSnapshotResp? }

  predicate AllPlain(msgs: seq<Message>) { forall i | 0 <= i < |msgs| :: Plain(msgs[i]) }

  /** What a leader replicates starts at or past the next index it has recorded. */
  predicate Offers(n: Node, m: Message) {
    && (m.Append? || m.InstallSnapshot?) && m.from == n.id && m.term == n.term && m.to in n.prs
    && (m.Append? ==> m.logIndex + 1 >= n.prs[m.to].next)
    && (m.InstallSnapshot? ==> n.snapIndex <= |n.log| && m.prefix == n.log[..n.snapIndex] && n.snapIndex >= n.prs[m.to].next)
  }

  predicate AllOffer(n: Node) { forall i | 0 <= i < |n.msgs| :: Plain(n.msgs[i]) || Offers(n, n.msgs[i]) }

  lemma PlainOffers(n: Node)
    requires AllPlain(n.msgs)
    ensures AllOffer(n)
  {
  }

  // ----- the sending functions -----

  lemma SendAppendOffers(cfg: Config, n: Node, to: NodeId)
    requires n.snapIndex <= |n.log| && AllOffer(n)
    ensures AllOffer(SendAppend(cfg, n, to))
  {
  }

  lemma {:induction false} BcastAppendOffers(cfg: Config, n: Node, peers: seq<NodeId>)
    requires n.snapIndex <= |n.log| && AllOffer(n)
    ensures AllOffer(BcastAppend(cfg, n, peers))
    decreases peers
  {
    hide AllOffer, SendAppend;
    if peers != [] {
      SendAppendOffers(cfg, n, peers[0]);
      SendAppendKeeps(cfg, n, peers[0]);
      BcastAppendOffers(cfg, if peers[0] == n.id then n else SendAppend(cfg, n, peers[0]), peers[1..]);
    }
  }

  lemma SendAppendKeeps(cfg: Config, n: Node, to: NodeId)
    requires n.snapIndex <= |n.log|
    ensures var r := SendAppend(cfg, n, to); r == n.(msgs := r.msgs)
  {
    hide AppendFor;
  }

  lemma {:induction false} BcastHeartbeatPlain(n: Node, peers: seq<NodeId>, ctx: Context)
    requires (forall i | 0 <= i < |peers| :: peers[i] in n.prs) && AllPlain(n.msgs)
    ensures AllPlain(BcastHeartbeat(n, peers, ctx).msgs)
    decreases peers
  {
    if peers != [] {
      var n' := if peers[0] == n.id then n
                else Send(n, Heartbeat(n.id, peers[0], n.term, Min(n.prs[peers[0]].matched, n.committed), ctx));
      BcastHeartbeatPlain(n', peers[1..], ctx);
    }
  }

  lemma {:induction false} AskVotesPlain(n: Node, peers: seq<NodeId>, pre: bool)
    requires AllPlain(n.msgs)
    ensures AllPlain(AskVotes(n, peers, pre).msgs)
    decreases peers
  {
    if peers != [] {
      var n' :=
        if peers[0] == n.id then n
        else if pre then Send(n, PreVote(n.id, peers[0], n.term + 1, |n.log|, TermAt(n, |n.log|)))
        else Send(n, Vote(n.id, peers[0], n.term, |n.log|, TermAt(n, |n.log|)));
      AskVotesPlain(n', peers[1..], pre);
    }
  }

  lemma SendReadPlain(cfg: Config, n: Node, ctx: Context)
    requires n.prs.Keys == PeerSet(cfg) && AllPlain(n.msgs)
    ensures AllPlain(SendReadIndex(cfg, n, ctx).msgs)
  {
    BcastHeartbeatPlain(n.(readOnly := RecvAck(AddRequest(n.readOnly, n.committed, ctx), n.id, ctx)), cfg.peers, ctx);
  }

  lemma {:induction false} SendReadsPlain(cfg: Config, n: Node, ctxs: seq<Context>)
    requires n.prs.Keys == PeerSet(cfg) && AllPlain(n.msgs)
    ensures AllPlain(SendReadIndexes(cfg, n, ctxs).msgs)
    decreases ctxs
  {
    hide SendReadIndex;
    if ctxs != [] {
      SendReadPlain(cfg, n, ctxs[0]);
      SendReadIndexKeeps(cfg, n, ctxs[0]);
      SendReadsPlain(cfg, SendReadIndex(cfg, n, ctxs[0]), ctxs[1..]);
    }
  }

  lemma CommitPlain(cfg: Config, n: Node)
    requires |cfg.peers| > 0 && n.prs.Keys == PeerSet(cfg) && AllPlain(n.msgs)
    ensures AllPlain(MaybeCommit(cfg, n).msgs)
  {
    hide SendReadIndexes, QuorumIndex;
    var c := CommitTo(n, QuorumIndex(cfg, n));
    SendReadsPlain(cfg, c.(gated := []), c.gated);
  }

  lemma AppendPlain(cfg: Config, n: Node, cmds: seq<(EntryKind, Bytes)>)
    requires |cfg.peers| > 0 && n.prs.Keys == PeerSet(cfg) && n.id in PeerSet(cfg) && AllPlain(n.msgs)
    ensures AllPlain(AppendEntry(cfg, n, cmds).msgs)
  {
    hide MaybeCommit, Stamp;
    var log := n.log + Stamp(n.term, |n.log|, cmds);
    CommitPlain(cfg, n.(log := log, prs := n.prs[n.id := MaybeUpdate(n.prs[n.id], |log|)]));
  }

  lemma WonPlain(cfg: Config, n: Node)
    requires |cfg.peers| > 0 && n.id in PeerSet(cfg) && AllPlain(n.msgs)
    ensures AllPlain(BecomeLeader(cfg, n).msgs)
  {
    hide AppendEntry;
    if !n.role.Follower? { AppendPlain(cfg, Reset(cfg, n, n.term).(lead := n.id, role := Leader), [(Noop, [])]); }
  }

  lemma SolicitPlain(cfg: Config, n: Node)
    requires |cfg.peers| > 0 && n.id in PeerSet(cfg) && AllPlain(n.msgs)
    ensures AllPlain(SolicitVotes(cfg, n).msgs)
  {
    hide BecomeLeader, AskVotes, Granted;
    var v := RecordVote(n, n.id, true);
    WonPlain(cfg, v);
    AskVotesPlain(v, cfg.peers, false);
  }

  lemma TimerPlain(cfg: Config, n: Node)
    requires ValidConfig(cfg) && Sound(cfg, n) && AllPlain(n.msgs)
    ensures AllPlain(TimerFires(cfg, n).msgs)
  {
    hide SolicitVotes, AskVotes, BcastHeartbeat, Granted;
    if n.role.Leader? {
      BcastHeartbeatPlain(n, cfg.peers, LastPendingContext(n.readOnly));
    } else {
      var v := RecordVote(BecomePreCandidate(n), n.id, true);
      SolicitPlain(cfg, BecomeCandidate(cfg, v));
      AskVotesPlain(v, cfg.peers, true);
      SolicitPlain(cfg, BecomeCandidate(cfg, n));
    }
  }

  /** Replication comes from a leader. */
  predicate Leading(r: Node) { AllPlain(r.msgs) || (r.role.Leader? && AllOffer(r)) }

  lemma ProposeLeads(cfg: Config, n: Node, cmds: seq<Bytes>)
    requires ValidConfig(cfg) && Sound(cfg, n) && AllPlain(n.msgs)
    ensures Leading(Propose(cfg, n, cmds))
  {
    hide AppendEntry, BcastAppend, AllOffer, AllPlain;
    if n.role.Leader? && cmds != [] {
      var es := seq(|cmds|, i requires 0 <= i < |cmds| => (Normal, cmds[i]));
      var a := AppendEntry(cfg, n, es);
      AppendPlain(cfg, n, es);
      AppendEntryKeeps(cfg, n, es);
      PlainOffers(a);
      AppendRole(cfg, n, es);
      BcastAppendOffers(cfg, a, cfg.peers);
      BcastAppendKeeps(cfg, a, cfg.peers);
    }
  }

  lemma AppendRole(cfg: Config, n: Node, cmds: seq<(EntryKind, Bytes)>)
    requires |cfg.peers| > 0 && n.prs.Keys == PeerSet(cfg) && n.id in PeerSet(cfg)
    ensures AppendEntry(cfg, n, cmds).role == n.role
  {
    hide MaybeCommit, Stamp;
    var log := n.log + Stamp(n.term, |n.log|, cmds);
    MaybeCommitKeeps(cfg, n.(log := log, prs := n.prs[n.id := MaybeUpdate(n.prs[n.id], |log|)]));
  }

  lemma CountLeads(cfg: Config, n: Node, m: Message)
    requires ValidConfig(cfg) && Sound(cfg, n) && AllPlain(n.msgs) && (m.PreVoteResp? || m.VoteResp?)
    requires n.role.PreCandidate? || n.role.Candidate?
    ensures Leading(CountVote(cfg, n, m))
  {
    hide SolicitVotes, BecomeLeader, BcastAppend, Granted, Rejected, AllOffer, AllPlain;
    var v := RecordVote(n, m.from, !m.reject);
    SolicitPlain(cfg, BecomeCandidate(cfg, v));
    WonPlain(cfg, v);
    BecomeLeaderKeeps(cfg, v);
    BecomeLeaderLog(cfg, v);
    var w := BecomeLeader(cfg, v);
    PlainOffers(w);
    BcastAppendOffers(cfg, w, cfg.peers);
    BcastAppendKeeps(cfg, w, cfg.peers);
  }

  lemma LeaderLeads(cfg: Config, n: Node, m: Message)
    requires ValidConfig(cfg) && Sound(cfg, n) && AllPlain(n.msgs) && n.role.Leader?
    ensures Leading(StepLeader(cfg, n, m))
  {
    hide HandleAppendResp, HandleHeartbeatResp, SendAppend, AllOffer, AllPlain;
    match m
    case AppendResp(_, _, _, _, _, _, _) => AckLeads(cfg, n, m);
    case HeartbeatResp(_, _, _, _) => BeatLeads(cfg, n, m);
    case InstallSnapshotResp(_, _, _, _) =>
      if m.from in n.prs {
        var u := n.(prs := n.prs[m.from := MaybeUpdate(n.prs[m.from], m.logIndex)]);
        PlainOffers(u);
        SendAppendOffers(cfg, u, m.from);
        SendAppendKeeps(cfg, u, m.from);
      }
    case _ =>
  }

  lemma AckLeads(cfg: Config, n: Node, m: Message)
    requires ValidConfig(cfg) && Sound(cfg, n) && AllPlain(n.msgs) && n.role.Leader? && m.AppendResp?
    ensures Leading(HandleAppendResp(cfg, n, m))
  {
    hide MaybeCommit, BcastAppend, CanCommit, DecrHint, SendAppend, AllOffer, AllPlain;
    if m.from in n.prs {
      var d := n.(prs := n.prs[m.from := MaybeDecrTo(n.prs[m.from], m.logIndex, DecrHint(n, m))]);
      PlainOffers(d);
      SendAppendOffers(cfg, d, m.from);
      SendAppendKeeps(cfg, d, m.from);
      var u := n.(prs := n.prs[m.from := MaybeUpdate(n.prs[m.from], m.logIndex)]);
      CommitPlain(cfg, u);
      MaybeCommitKeeps(cfg, u);
      var c := MaybeCommit(cfg, u);
      PlainOffers(c);
      BcastAppendOffers(cfg, c, cfg.peers);
      BcastAppendKeeps(cfg, c, cfg.peers);
    }
  }

  lemma BeatLeads(cfg: Config, n: Node, m: Message)
    requires ValidConfig(cfg) && Sound(cfg, n) && AllPlain(n.msgs) && n.role.Leader? && m.HeartbeatResp?
    ensures Leading(HandleHeartbeatResp(cfg, n, m))
  {
    hide SendAppend, AllPlain, AckCount, RecvAck;
    PlainOffers(n);
    SendAppendOffers(cfg, n, m.from);
    SendAppendKeeps(cfg, n, m.from);
  }

  // ----- answers -----

  predicate Refusal(m: Message) { m.AppendResp? && m.reject }

  /** An acknowledgement of everything up to an index. */
  predicate Ack(m: Message) { (m.AppendResp? && !m.reject) || m.InstallSnapshotResp? }

  /** `m` is what node `n` answers when it refuses the append `q`. */
  predicate RefusedBy(n: Node, q: Message, m: Message) {
    && q.Append? && n.term <= q.term && n.committed <= q.logIndex
    && Refusal(m) && m.from == n.id && m.to == q.from && m.term == q.term
    && B.Refuses(n, q.logIndex, q.logTerm, m)
  }

  /** `m` acknowledges what `q` replicated, and with it at least the index that
      `q` started from; or it tells a stale sender the term, and acknowledges nothing. */
  predicate AckedBy(n: Node, q: Message, m: Message) {
    && Ack(m) && m.from == n.id && m.to == q.from
    && (|| m.logIndex == 0
        || (q.Append? && m.term == q.term && m.logIndex >= q.logIndex)
        || (q.InstallSnapshot? && m.term == q.term && m.logIndex >= |q.prefix|))
  }

  predicate Answers(n: Node, q: Message, m: Message) { RefusedBy(n, q, m) || AckedBy(n, q, m) }

  predicate OnlyAnswers(n: Node, q: Message, msgs: seq<Message>) {
    forall i | 0 <= i < |msgs| :: Plain(msgs[i]) || Answers(n, q, msgs[i])
  }

  lemma {:induction false} SameWalk(n: Node, r: Node, index: nat, term: nat)
    requires r.log == n.log && r.snapIndex == n.snapIndex
    ensures FindConflictByTerm(r, index, term) == FindConflictByTerm(n, index, term)
    decreases index
  {
    if index > 0 { SameWalk(n, r, index - 1, term); }
  }

  /** The node, having taken on the term of a message. */
  predicate Turned(n: Node, r: Node, q: Message) {
    && r.log == n.log && r.snapIndex == n.snapIndex && r.committed == n.committed && r.id == n.id
    && r.term == q.term && n.term <= q.term && AllPlain(r.msgs) && n.snapIndex <= n.committed <= |n.log|
  }

  lemma AppendAnswers(n: Node, r: Node, q: Message)
    requires Turned(n, r, q) && q.Append?
    ensures OnlyAnswers(n, q, HandleAppend(r, q).msgs)
  {
    hide FindConflictByTerm, FindConflict, B.Refuses;
    SpliceKeeps(r, q.logIndex, q.commit, q.entries);
    if n.committed <= q.logIndex && !MatchTerm(r, q.logIndex, q.logTerm) { RefusesSame(n, r, q); }
  }

  lemma RefusesSame(n: Node, r: Node, q: Message)
    requires Turned(n, r, q) && q.Append? && n.committed <= q.logIndex && !MatchTerm(r, q.logIndex, q.logTerm)
    ensures var (hint, hintTerm) := FindConflictByTerm(r, Min(q.logIndex, |r.log|), q.logTerm);
      B.Refuses(n, q.logIndex, q.logTerm, AppendResp(r.id, q.from, r.term, q.logIndex, true, hint, hintTerm))
  {
    hide FindConflictByTerm;
    SameWalk(n, r, Min(q.logIndex, |n.log|), q.logTerm);
  }

  /** Entries have terms. */
  predicate Termed(q: Message) { q.InstallSnapshot? && q.prefix != [] ==> LastTerm(q.prefix) >= 1 }

  lemma SnapshotAnswers(n: Node, r: Node, q: Message)
    requires Turned(n, r, q) && q.InstallSnapshot? && Termed(q)
    ensures OnlyAnswers(n, q, HandleSnapshot(r, q).msgs)
  {
    hide RefusedBy;
    assert r.committed <= |r.log|;
  }

  lemma PlainAnswers(n: Node, q: Message, msgs: seq<Message>)
    requires AllPlain(msgs)
    ensures OnlyAnswers(n, q, msgs)
  {
  }

  /** Where a message finds a node: of its own term, or not one a leader sends. */
  predicate Meets(n: Node, r: Node, q: Message) {
    && (q.Append? || q.InstallSnapshot? ==> Turned(n, r, q)) && AllPlain(r.msgs) && Termed(q)
  }

  lemma CandidateSends(cfg: Config, n: Node, r: Node, q: Message)
    requires ValidConfig(cfg) && Sound(cfg, r) && Meets(n, r, q) && (r.role.PreCandidate? || r.role.Candidate?)
    ensures OnlyAnswers(n, q, StepCandidate(cfg, r, q).msgs) || Leading(StepCandidate(cfg, r, q))
  {
    hide HandleAppend, HandleSnapshot, CountVote, Answers;
    var f := BecomeFollower(cfg, r, q.term, q.from);
    if q.Append? {
      AppendAnswers(n, f, q);
    } else if q.InstallSnapshot? {
      SnapshotAnswers(n, f, q);
    } else if IsMyVoteResp(r, q) {
      CountLeads(cfg, r, q);
    } else {
      PlainAnswers(n, q, StepCandidate(cfg, r, q).msgs);
    }
  }

  lemma FollowerSends(n: Node, r: Node, q: Message)
    requires Meets(n, r, q)
    ensures OnlyAnswers(n, q, StepFollower(r, q).msgs)
  {
    hide HandleAppend, HandleSnapshot, Answers;
    if q.Append? {
      AppendAnswers(n, r.(lead := q.from), q);
    } else if q.InstallSnapshot? {
      SnapshotAnswers(n, r.(lead := q.from), q);
    } else {
      PlainAnswers(n, q, StepFollower(r, q).msgs);
    }
  }

  lemma DispatchSends(cfg: Config, n: Node, r: Node, q: Message)
    requires ValidConfig(cfg) && Sound(cfg, r) && Meets(n, r, q)
    ensures OnlyAnswers(n, q, Dispatch(cfg, r, q).msgs) || Leading(Dispatch(cfg, r, q))
  {
    hide StepFollower, StepCandidate, StepLeader, Answers;
    if q.PreVote? || q.Vote? {
      PlainAnswers(n, q, Dispatch(cfg, r, q).msgs);
    } else {
      match r.role
      case Follower => FollowerSends(n, r, q);
      case Leader => LeaderLeads(cfg, r, q);
      case _ => CandidateSends(cfg, n, r, q);
    }
  }

  lemma StaleSends(n: Node, q: Message)
    requires n.msgs == []
    ensures OnlyAnswers(n, q, ReplyStale(n, q).msgs)
  {
    hide RefusedBy;
  }

  lemma StepSends(cfg: Config, n: Node, q: Message, leased: bool)
    requires ValidConfig(cfg) && Sound(cfg, n) && n.msgs == [] && n.snapIndex <= n.committed <= |n.log|
    requires q.term >= 1 && Termed(q)
    ensures var r := Step(cfg, n, q, leased); OnlyAnswers(n, q, r.msgs) || Leading(r)
  {
    hide Dispatch, Answers, ReplyStale;
    if Sticky(n, q, leased) {
      PlainAnswers(n, q, RejectSticky(n, q).msgs);
    } else if q.term == n.term || (q.term > n.term && KeepsTerm(q)) {
      DispatchSends(cfg, n, n, q);
    } else if q.term < n.term {
      StaleSends(n, q);
    } else {
      DispatchSends(cfg, n, BecomeFollower(cfg, n, q.term, if q.Vote? then NONE else q.from), q);
    }
  }

  /** Every message an input makes a node send is a vote or a heartbeat or an
      answer to one, or replication by a leader from its next index on, or the answer
      to the replication just received. */
  lemma HandleSends(cfg: Config, n: Node, input: Input, m: Message)
    requires ValidConfig(cfg) && Sound(cfg, n) && n.msgs == [] && n.snapIndex <= n.committed <= |n.log|
    requires input.Receive? ==> input.m.term >= 1 && Termed(input.m)
    requires m in Handle(cfg, n, input).msgs
    ensures var r := Handle(cfg, n, input);
      || Plain(m)
      || (r.role.Leader? && Offers(r, m))
      || (input.Receive? && Answers(n, input.m, m))
  {
    hide Step, TimerFires, Propose, SendReadIndex, Answers, Offers;
    match input
    case Receive(q, leased) => StepSends(cfg, n, q, leased);
    case Timer => TimerPlain(cfg, n);
    case Commands(cmds) => ProposeLeads(cfg, n, cmds);
    case Read(ctx) => SendReadPlain(cfg, n.(issued := n.issued + {ctx}), ctx);
  }
}
