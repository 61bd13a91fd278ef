/** Match and Next of a leader along every run: Next never gets more than one
    ahead of what a follower has acknowledged, once it has acknowledged anything. */
module RaftNext {
  import opened RaftTypes
  import opened RaftCore
  import opened RaftHistory
  import opened RaftInvariant
  import opened RaftSystem
  import opened RaftSteady
  import opened RaftTear
  import opened RaftTraffic
  import opened RaftRuns
  import opened RaftSafety
  import B = RaftBacktrack

  // ----- new messages -----

  lemma NetAfter(cfg: Config, s: System, a: Action, m: Message)
    requires ValidConfig(cfg) && Enabled(cfg, s, a) && m in Next(cfg, s, a).net && m !in s.net
    ensures a.Act? && a.id in s.nodes && Sound(cfg, s.nodes[a.id]) && m in Handle(cfg, s.nodes[a.id], a.input).msgs
    ensures a.input.Receive? ==> a.input.m in s.net && a.input.m.to == a.id
  {
    hide Handle, Sound, Recovered, Torn;
  }

  lemma StateBook(cfg: Config, s: System, b: Book)
    requires SysOK(cfg, s, b)
    ensures ElectionsOK(cfg, b.h) && BookOK(cfg, b) && ValidConfig(cfg)
  {
  }

  lemma MessageTermed(cfg: Config, b: Book, m: Message)
    requires MsgOK(cfg, b, m) && ElectionsOK(cfg, b.h)
    ensures Termed(m)
  {
    if m.InstallSnapshot? && m.prefix != [] {
      assert ElectionOK(cfg, b.h, m.term);
      assert m.prefix[|m.prefix| - 1] == b.h.el[m.term].log[|m.prefix| - 1];
    }
  }

  /** What a message that an action adds to the network says. */
  predicate Says(cfg: Config, n: Node, input: Input, m: Message)
    requires ValidConfig(cfg) && Sound(cfg, n)
  {
    var r := Handle(cfg, n, input);
    || Plain(m)
    || (r.role.Leader? && Offers(r, m))
    || (input.Receive? && Answers(n, input.m, m))
  }

  lemma NewMessage(cfg: Config, s: System, b: Book, a: Action, m: Message)
    requires SysOK(cfg, s, b) && ValidConfig(cfg) && Enabled(cfg, s, a) && m in Next(cfg, s, a).net && m !in s.net
    ensures a.Act? && a.id in s.nodes && Sound(cfg, s.nodes[a.id]) && s.nodes[a.id].id == a.id
    ensures a.input.Receive? ==> a.input.m in s.net && a.input.m.to == a.id
    ensures Says(cfg, s.nodes[a.id], a.input, m) && Handle(cfg, s.nodes[a.id], a.input).id == a.id
  {
    hide SysOK, Enabled, Next, Handle, StepOK, Sound, BookOK, NodeOK, MsgOK, ElectionsOK, Plain, Offers, Answers;
    NetAfter(cfg, s, a, m);
    IdleStep(cfg, s, b, a.id);
    var n := s.nodes[a.id];
    StepNode(cfg, b, n);
    ShapeAt(cfg, b, n);
    if a.input.Receive? {
      MessageTerm(cfg, s, b, a.input.m);
      StateBook(cfg, s, b);
      MessageTermed(cfg, b, a.input.m);
    }
    HandleSends(cfg, n, a.input, m);
    HandleSteady(cfg, n, a.input);
  }

  lemma SaysAhead(cfg: Config, n: Node, input: Input, m: Message, x: NodeId, f: NodeId, t: nat, next: nat)
    requires ValidConfig(cfg) && Sound(cfg, n) && Says(cfg, n, input, m) && Handle(cfg, n, input).id == n.id != x
    requires input.Receive? ==> input.m.to == n.id && Ahead(input.m, x, f, t, next)
    ensures Ahead(m, x, f, t, next)
  {
    hide Handle, Sound, B.Refuses;
  }

  // ----- the leader's records -----

  /** The records after a message to a leader. */
  function Progressed(n: Node, m: Message): map<NodeId, Progress> {
    match m
    case AppendResp(_, _, _, _, _, _, _) =>
      if m.from !in n.prs then n.prs
      else if m.reject then n.prs[m.from := MaybeDecrTo(n.prs[m.from], m.logIndex, DecrHint(n, m))]
      else n.prs[m.from := MaybeUpdate(n.prs[m.from], m.logIndex)]
    case InstallSnapshotResp(_, _, _, _) =>
      if m.from !in n.prs then n.prs else n.prs[m.from := MaybeUpdate(n.prs[m.from], m.logIndex)]
    case _ => n.prs
  }

  lemma SameUpdate(prs: map<NodeId, Progress>, f: NodeId)
    requires f in prs
    ensures prs[f := prs[f]] == prs
  {
  }

  lemma LeaderProgress(cfg: Config, n: Node, m: Message)
    requires ValidConfig(cfg) && Sound(cfg, n)
    ensures StepLeader(cfg, n, m).prs == Progressed(n, m)
  {
    hide MaybeCommit, BcastAppend, CanCommit, DecrHint, AppendFor, AdvanceReads, AckCount;
    if m.AppendResp? && m.from in n.prs {
      SameUpdate(n.prs, m.from);
      var u := n.(prs := n.prs[m.from := MaybeUpdate(n.prs[m.from], m.logIndex)]);
      MaybeCommitKeeps(cfg, u);
      BcastAppendKeeps(cfg, MaybeCommit(cfg, u), cfg.peers);
    }
    if m.HeartbeatResp? { BeatProgress(cfg, n, m); }
  }

  lemma BeatProgress(cfg: Config, n: Node, m: Message)
    requires m.HeartbeatResp? && n.snapIndex <= |n.log|
    ensures HandleHeartbeatResp(cfg, n, m).prs == n.prs
  {
    hide AppendFor, AckCount;
  }

  /** Who leads after an input led before, and moved its records as above; or it
      was a candidate of the same term, and starts from nothing acknowledged. */
  predicate Advances(n: Node, input: Input, r: Node) {
    || (&& n.role.Leader? && r.term == n.term
        && (forall f | f in r.prs && f != n.id :: f in n.prs && r.prs[f] ==
              if input.Receive? && input.m.term == n.term then
                (if f in Progressed(n, input.m) then Progressed(n, input.m)[f] else n.prs[f])
              else n.prs[f]))
    || (&& n.role.Candidate? && r.term == n.term && forall f | f in r.prs && f != n.id :: r.prs[f].matched == 0)
  }

  lemma WonRecords(cfg: Config, n: Node)
    requires |cfg.peers| > 0 && n.id in PeerSet(cfg) && !n.role.Follower?
    ensures var r := BecomeLeader(cfg, n); r.term == n.term && forall f | f in r.prs && f != n.id :: r.prs[f].matched == 0
  {
    hide MaybeCommit, Stamp;
    var l := Reset(cfg, n, n.term).(lead := n.id, role := Leader);
    var log := l.log + Stamp(l.term, |l.log|, [(Noop, [])]);
    MaybeCommitKeeps(cfg, l.(log := log, prs := l.prs[l.id := MaybeUpdate(l.prs[l.id], |log|)]));
  }

  lemma CountAdvances(cfg: Config, n: Node, m: Message, input: Input)
    requires ValidConfig(cfg) && |cfg.peers| > 1 && Sound(cfg, n) && (n.role.PreCandidate? || n.role.Candidate?)
    requires m.PreVoteResp? || m.VoteResp?
    ensures CountVote(cfg, n, m).role.Leader? ==> Advances(n, input, CountVote(cfg, n, m))
  {
    hide SolicitVotes, BecomeLeader, BcastAppend, Granted, Rejected, Progressed;
    var v := RecordVote(n, m.from, !m.reject);
    NotAlone(cfg, v);
    WonRecords(cfg, v);
    BecomeLeaderKeeps(cfg, v);
    BcastAppendKeeps(cfg, BecomeLeader(cfg, v), cfg.peers);
  }

  lemma CandidateAdvances(cfg: Config, n: Node, m: Message, input: Input)
    requires ValidConfig(cfg) && |cfg.peers| > 1 && Sound(cfg, n) && (n.role.PreCandidate? || n.role.Candidate?)
    ensures StepCandidate(cfg, n, m).role.Leader? ==> Advances(n, input, StepCandidate(cfg, n, m))
  {
    hide CountVote, HandleAppend, HandleHeartbeat, HandleSnapshot, Advances;
    FollowerStays(BecomeFollower(cfg, n, m.term, m.from), m);
    if IsMyVoteResp(n, m) { CountAdvances(cfg, n, m, input); }
    if m.Append? || m.Heartbeat? || m.InstallSnapshot? {
      StillFollows(BecomeFollower(cfg, n, m.term, m.from), m);
    }
  }

  lemma StillFollows(n: Node, m: Message)
    requires n.role.Follower?
    ensures m.Append? ==> HandleAppend(n, m).role.Follower?
    ensures m.Heartbeat? ==> HandleHeartbeat(n, m).role.Follower?
    ensures m.InstallSnapshot? ==> HandleSnapshot(n, m).role.Follower?
  {
    hide MaybeAppend, FindConflictByTerm;
    if m.Append? { SpliceKeeps(n, m.logIndex, m.commit, m.entries); }
  }

  lemma DispatchAdvances(cfg: Config, n: Node, m: Message, input: Input)
    requires ValidConfig(cfg) && |cfg.peers| > 1 && Sound(cfg, n) && input.Receive? && input.m == m
    requires m.term == n.term || KeepsTerm(m)
    ensures Dispatch(cfg, n, m).role.Leader? ==> Advances(n, input, Dispatch(cfg, n, m))
  {
    hide StepFollower, StepCandidate, StepLeader;
    if !m.PreVote? && !m.Vote? {
      match n.role
      case Follower => FollowerStays(n, m);
      case Leader =>
        LeaderProgress(cfg, n, m);
        LeaderTerm(cfg, n, m);
      case _ => CandidateAdvances(cfg, n, m, input);
    }
  }

  lemma JoinedDispatch(cfg: Config, n: Node, m: Message)
    requires ValidConfig(cfg) && Sound(cfg, n) && n.role.Follower?
    ensures Dispatch(cfg, n, m).role.Follower?
  {
    hide StepFollower;
    FollowerStays(n, m);
  }

  lemma StepAdvances(cfg: Config, n: Node, m: Message, leased: bool, input: Input)
    requires ValidConfig(cfg) && |cfg.peers| > 1 && Sound(cfg, n) && m.term >= 1 && input.Receive? && input.m == m
    ensures Step(cfg, n, m, leased).role.Leader? ==> n.role.Leader? || n.role.Candidate?
    ensures Step(cfg, n, m, leased).role.Leader? ==> Advances(n, input, Step(cfg, n, m, leased))
  {
    hide Dispatch, DecrHint;
    if m.term == n.term || KeepsTerm(m) { DispatchAdvances(cfg, n, m, input); }
    JoinedDispatch(cfg, BecomeFollower(cfg, n, m.term, if m.Vote? then NONE else m.from), m);
  }

  lemma ProposeAdvances(cfg: Config, n: Node, cmds: seq<Bytes>)
    requires ValidConfig(cfg) && Sound(cfg, n)
    ensures var r := Propose(cfg, n, cmds);
      r.role.Leader? ==> n.role.Leader? && r.term == n.term && forall f | f in r.prs && f != n.id :: f in n.prs && r.prs[f] == n.prs[f]
  {
    hide MaybeCommit, Stamp;
    if n.role.Leader? && cmds != [] {
      var es := seq(|cmds|, i requires 0 <= i < |cmds| => (Normal, cmds[i]));
      var log := n.log + Stamp(n.term, |n.log|, es);
      MaybeCommitKeeps(cfg, n.(log := log, prs := n.prs[n.id := MaybeUpdate(n.prs[n.id], |log|)]));
      BcastAppendKeeps(cfg, AppendEntry(cfg, n, es), cfg.peers);
    }
  }

  lemma TimerAdvances(cfg: Config, n: Node)
    requires ValidConfig(cfg) && |cfg.peers| > 1 && Sound(cfg, n)
    ensures TimerFires(cfg, n).role.Leader? ==> n.role.Leader? && TimerFires(cfg, n) == n.(msgs := TimerFires(cfg, n).msgs)
  {
    hide BcastHeartbeat, Campaign;
    if n.role.Leader? {
      BcastHeartbeatKeeps(n, cfg.peers, LastPendingContext(n.readOnly));
    } else {
      NoLoneWin(cfg, n);
    }
  }

  lemma NoLoneWin(cfg: Config, n: Node)
    requires ValidConfig(cfg) && |cfg.peers| > 1 && Sound(cfg, n) && !n.role.Leader?
    ensures !Campaign(cfg, n).role.Leader?
  {
    hide SolicitVotes, AskVotes;
    NotAlone(cfg, n);
    var v := RecordVote(BecomePreCandidate(n), n.id, true);
    assert Granted(v) == {n.id};
    AskVotesKeeps(v, cfg.peers, true);
  }

  lemma HandleAdvances(cfg: Config, n: Node, input: Input)
    requires ValidConfig(cfg) && |cfg.peers| > 1 && Sound(cfg, n) && (input.Receive? ==> input.m.term >= 1)
    ensures Handle(cfg, n, input).role.Leader? ==> Advances(n, input, Handle(cfg, n, input))
  {
    hide Step, TimerFires, Propose, SendReadIndex, Progressed;
    match input
    case Receive(m, leased) => StepAdvances(cfg, n, m, leased, input);
    case Timer => TimerAdvances(cfg, n);
    case Commands(cmds) => ProposeAdvances(cfg, n, cmds);
    case Read(ctx) => SendReadIndexKeeps(cfg, n.(issued := n.issued + {ctx}), ctx);
  }

  // ----- the invariant -----

  /** What is under way between leader `x` of term `t` and `f` lies at or past
      index `next`: replication, and every acknowledgement that says something. */
  predicate Ahead(m: Message, x: NodeId, f: NodeId, t: nat, next: nat) {
    && (m.from == x && m.to == f && m.term == t && m.Append? ==> m.logIndex + 1 >= next)
    && (m.from == x && m.to == f && m.term == t && m.InstallSnapshot? ==> |m.prefix| >= next)
    && (m.from == f && m.to == x && m.term == t && Ack(m) ==> m.logIndex == 0 || m.logIndex + 1 >= next)
  }

  predicate AllAhead(net: set<Message>, x: NodeId, f: NodeId, t: nat, next: nat) {
    forall m | m in net :: Ahead(m, x, f, t, next)
  }

  /** Until the follower has acknowledged something, Next only falls, and nothing
      under way lies before it; from then on, Next rises with Match only. */
  predicate NextOK(net: set<Message>, n: Node, f: NodeId)
    requires f in n.prs
  {
    if n.prs[f].matched == 0 then AllAhead(net, n.id, f, n.term, n.prs[f].next)
    else n.prs[f].next <= n.prs[f].matched + 1
  }

  predicate NextInv(s: System) {
    forall x, f | x in s.nodes && s.nodes[x].role.Leader? && f in s.nodes[x].prs && f != x :: NextOK(s.net, s.nodes[x], f)
  }

  /** Another node acts. */
  lemma OtherActs(cfg: Config, s: System, b: Book, a: Action, x: NodeId, f: NodeId)
    requires SysOK(cfg, s, b) && ValidConfig(cfg) && Enabled(cfg, s, a) && a.id != x
    requires x in s.nodes && s.nodes[x].id == x && f in s.nodes[x].prs && f != x && NextOK(s.net, s.nodes[x], f)
    ensures NextOK(Next(cfg, s, a).net, s.nodes[x], f)
  {
    hide SysOK, Enabled, Next, Handle, Sound, Says, Ahead;
    var n, net' := s.nodes[x], Next(cfg, s, a).net;
    if n.prs[f].matched == 0 {
      forall m | m in net' ensures Ahead(m, x, f, n.term, n.prs[f].next) {
        if m !in s.net {
          NewMessage(cfg, s, b, a, m);
          SaysAhead(cfg, s.nodes[a.id], a.input, m, x, f, n.term, n.prs[f].next);
        }
      }
    }
  }

  lemma FallsOrStays(n: Node, m: Message, f: NodeId)
    requires f in n.prs && n.prs[f].next >= 1
    requires m.AppendResp? && m.reject ==> m.rejectHint <= m.logIndex
    requires n.prs[f].matched > 0 ==> n.prs[f].next <= n.prs[f].matched + 1
    requires n.prs[f].matched == 0 && Ack(m) && m.from == f ==> m.logIndex == 0 || m.logIndex + 1 >= n.prs[f].next
    ensures f in Progressed(n, m)
    ensures var p := Progressed(n, m)[f];
      if p.matched == 0 then n.prs[f].matched == 0 && p.next <= n.prs[f].next else p.next <= p.matched + 1
  {
    hide ScanBack;
    if m.AppendResp? { ScanFalls(n, Min(m.rejectHint, |n.log|), m.hintTerm); }
  }

  lemma {:induction false} ScanFalls(n: Node, hint: nat, term: nat)
    ensures ScanBack(n, hint, term) <= hint
    decreases hint
  {
    if hint > 0 { ScanFalls(n, hint - 1, term); }
  }

  lemma LowerAhead(net: set<Message>, x: NodeId, f: NodeId, t: nat, next: nat, next': nat)
    requires AllAhead(net, x, f, t, next) && next' <= next
    ensures AllAhead(net, x, f, t, next')
  {
  }

  /** Before an election of the term was won, nothing was under way in it. */
  lemma NothingBefore(cfg: Config, s: System, b: Book, x: NodeId, f: NodeId, t: nat, next: nat)
    requires SysOK(cfg, s, b) && t !in b.h.el
    ensures AllAhead(s.net, x, f, t, next)
  {
    hide BookOK, IdleOK, AsksOK;
    ClaimsNeedElections(cfg, b);
    forall m | m in s.net ensures Ahead(m, x, f, t, next) { assert MsgOK(cfg, b, m); }
  }

  lemma ClaimsNeedElections(cfg: Config, b: Book)
    requires BookOK(cfg, b)
    ensures forall f, t | (f, t) in b.h.claims :: t in b.h.el
  {
    hide ElectionsOK, GrantsOK, BidsOK, CommitsOK, AsksOK, HiddenOK;
  }

  lemma NotYetWon(cfg: Config, b: Book, b': Book, n: Node, r: Node)
    requires NodeOK(cfg, b, n) && LeadsOK(b'.h, r) && Extends(b.h, b'.h)
    requires n.role.Candidate? && r.role.Leader? && r.id == n.id && r.term == n.term
    ensures n.term !in b.h.el
  {
    hide Prov, ClaimsOfOK, SeenOK, MarksOK, ReadsOK, ProgressesOK, CandidateOK, ReadStatesOK;
  }

  lemma LeaderSays(cfg: Config, n: Node, input: Input, m: Message, f: NodeId)
    requires ValidConfig(cfg) && Sound(cfg, n) && Says(cfg, n, input, m)
    requires var r := Handle(cfg, n, input); r.id == n.id && f in r.prs && f != n.id
    ensures var r := Handle(cfg, n, input); Ahead(m, n.id, f, r.term, r.prs[f].next)
  {
    hide Handle, Sound, B.Refuses;
  }

  lemma ActEnabled(cfg: Config, s: System, x: NodeId, input: Input)
    requires ValidConfig(cfg) && Enabled(cfg, s, Act(x, input))
    ensures x in s.nodes && Sound(cfg, s.nodes[x]) && (input.Receive? ==> input.m in s.net && input.m.to == x)
  {
    hide Sound;
  }

  /** What a leader sends lies at or past its records. */
  lemma SentAhead(cfg: Config, s: System, b: Book, x: NodeId, input: Input, f: NodeId)
    requires SysOK(cfg, s, b) && ValidConfig(cfg) && Enabled(cfg, s, Act(x, input)) && x in s.nodes && Sound(cfg, s.nodes[x])
    requires var r := Handle(cfg, s.nodes[x], input);
      r.id == x && f in r.prs && f != x && AllAhead(s.net, x, f, r.term, r.prs[f].next)
    ensures var r := Handle(cfg, s.nodes[x], input);
      AllAhead(Next(cfg, s, Act(x, input)).net, x, f, r.term, r.prs[f].next)
  {
    hide SysOK, Enabled, Next, Handle, Sound, Says, Ahead;
    var r := Handle(cfg, s.nodes[x], input);
    forall m | m in Next(cfg, s, Act(x, input)).net ensures Ahead(m, x, f, r.term, r.prs[f].next) {
      if m !in s.net {
        NewMessage(cfg, s, b, Act(x, input), m);
        LeaderSays(cfg, s.nodes[x], input, m, f);
      }
    }
  }

  /** The leader itself acts. */
  lemma LeaderActs(cfg: Config, s: System, b: Book, b': Book, x: NodeId, input: Input, f: NodeId)
    requires SysOK(cfg, s, b) && ValidConfig(cfg) && |cfg.peers| > 1 && Enabled(cfg, s, Act(x, input)) && NextInv(s)
    requires x in s.nodes && LeadsOK(b'.h, Handle(cfg, s.nodes[x], input)) && Extends(b.h, b'.h)
    requires var r := Handle(cfg, s.nodes[x], input); r.role.Leader? && f in r.prs && f != x
    ensures NextOK(Next(cfg, s, Act(x, input)).net, Handle(cfg, s.nodes[x], input), f)
  {
    hide SysOK, Enabled, Next, Handle, Sound, NodeOK, Extends, Advances, AllAhead, LeadsOK, StepOK, MsgOK, BookOK,
         NextInv;
    ActEnabled(cfg, s, x, input);
    IdleStep(cfg, s, b, x);
    var n := s.nodes[x];
    StepNode(cfg, b, n);
    ShapeAt(cfg, b, n);
    if input.Receive? { MessageTerm(cfg, s, b, input.m); }
    HandleAdvances(cfg, n, input);
    HandleSteady(cfg, n, input);
    var r := Handle(cfg, n, input);
    RecordMoves(cfg, s, b, b', n, r, x, input, f);
    if r.prs[f].matched == 0 { SentAhead(cfg, s, b, x, input, f); }
  }

  /** What the input made of the record of `f`, against what was under way before. */
  lemma RecordMoves(cfg: Config, s: System, b: Book, b': Book, n: Node, r: Node, x: NodeId, input: Input, f: NodeId)
    requires SysOK(cfg, s, b) && NextInv(s) && x in s.nodes && n == s.nodes[x] && n.id == x && f in r.prs && f != x
    requires NodeOK(cfg, b, n) && LeadsOK(b'.h, r) && Extends(b.h, b'.h) && r.role.Leader? && r.id == n.id
    requires Advances(n, input, r)
    requires input.Receive? ==> input.m in s.net && input.m.to == x && MsgOK(cfg, b, input.m)
    ensures if r.prs[f].matched == 0 then AllAhead(s.net, x, f, r.term, r.prs[f].next)
            else r.prs[f].next <= r.prs[f].matched + 1
  {
    hide SysOK, NodeOK, Extends, AllAhead, Progressed, MsgOK, LeadsOK;
    if n.role.Leader? {
      assert NextOK(s.net, n, f);
      NextAtLeastOne(cfg, b, n, f);
      if input.Receive? && input.m.term == n.term {
        var m := input.m;
        HintsFall(cfg, b, m);
        if n.prs[f].matched == 0 && Ack(m) && m.from == f { AckAhead(s.net, m, x, f, n.term, n.prs[f].next); }
        FallsOrStays(n, m, f);
      }
      if r.prs[f].matched == 0 { LowerAhead(s.net, x, f, n.term, n.prs[f].next, r.prs[f].next); }
    } else {
      NotYetWon(cfg, b, b', n, r);
      NothingBefore(cfg, s, b, x, f, r.term, r.prs[f].next);
    }
  }

  lemma AckAhead(net: set<Message>, m: Message, x: NodeId, f: NodeId, t: nat, next: nat)
    requires AllAhead(net, x, f, t, next) && m in net && Ack(m) && m.from == f && m.to == x && m.term == t
    ensures m.logIndex == 0 || m.logIndex + 1 >= next
  {
    assert Ahead(m, x, f, t, next);
  }

  lemma HintsFall(cfg: Config, b: Book, m: Message)
    requires MsgOK(cfg, b, m)
    ensures m.AppendResp? && m.reject ==> m.rejectHint <= m.logIndex
  {
  }

  lemma NextAtLeastOne(cfg: Config, b: Book, n: Node, f: NodeId)
    requires NodeOK(cfg, b, n) && n.role.Leader? && f in n.prs
    ensures n.prs[f].next >= 1
  {
    hide Prov, ClaimsOfOK, VotesOK, SeenOK, MarksOK, ReadsOK, ReadStatesOK;
    assert ProgressOK(b.h, n, f);
  }

  // ----- whole runs -----

  lemma NodesAfter(cfg: Config, s: System, a: Action, x: NodeId)
    requires ValidConfig(cfg) && Enabled(cfg, s, a) && a.id in s.nodes && x in s.nodes
    ensures var s' := Next(cfg, s, a);
      && x in s'.nodes && (x != a.id ==> s'.nodes[x] == s.nodes[x])
      && (x == a.id && a.Act? ==> s'.nodes[x] == Drained(Handle(cfg, s.nodes[x], a.input)))
      && (x == a.id && a.Compact? ==> s'.nodes[x] == s.nodes[x].(snapIndex := a.index) && s'.net == s.net)
      && (x == a.id && (a.Crash? || a.Tear?) ==> s'.nodes[x].role.Follower? || s'.nodes[x].panicked)
  {
    hide Handle, Sound, CanTear;
  }

  lemma NextKeeps(cfg: Config, s: System, b: Book, a: Action, b': Book)
    requires SysOK(cfg, s, b) && ValidConfig(cfg) && |cfg.peers| > 1 && Enabled(cfg, s, a) && NextInv(s) && a.id in s.nodes
    requires SysOK(cfg, Next(cfg, s, a), b') && Extends(b.h, b'.h)
    ensures NextInv(Next(cfg, s, a))
  {
    hide SysOK, Enabled, Next, Handle, Extends, NextOK, LeadsOK, NodeOK, BookOK, StepOK, Sound;
    var s' := Next(cfg, s, a);
    SameNodes(cfg, s, b);
    SameNodes(cfg, s', b');
    forall x, f | x in s'.nodes && s'.nodes[x].role.Leader? && f in s'.nodes[x].prs && f != x
      ensures NextOK(s'.net, s'.nodes[x], f)
    {
      NodesAfter(cfg, s, a, x);
      IdleStep(cfg, s, b, x);
      IdleStep(cfg, s', b', x);
      StepNode(cfg, b', s'.nodes[x]);
      if x != a.id {
        OtherActs(cfg, s, b, a, x, f);
      } else if a.Act? {
        ActEnabled(cfg, s, x, a.input);
        LeaderAt(cfg, b', s'.nodes[x]);
        DrainedLeads(b'.h, Handle(cfg, s.nodes[x], a.input));
        LeaderActs(cfg, s, b, b', x, a.input, f);
        DrainedNext(s'.net, Handle(cfg, s.nodes[x], a.input), f);
      } else if a.Compact? {
        CompactNext(s'.net, s.nodes[x], a.index, f);
      }
    }
  }

  lemma SameNodes(cfg: Config, s: System, b: Book)
    requires SysOK(cfg, s, b)
    ensures s.nodes.Keys == PeerSet(cfg)
  {
  }

  lemma DrainedLeads(h: History, r: Node)
    requires LeadsOK(h, Drained(r))
    ensures LeadsOK(h, r)
  {
  }

  lemma DrainedNext(net: set<Message>, r: Node, f: NodeId)
    requires f in r.prs && NextOK(net, r, f)
    ensures NextOK(net, Drained(r), f)
  {
  }

  lemma CompactNext(net: set<Message>, n: Node, i: nat, f: NodeId)
    requires f in n.prs && NextOK(net, n, f)
    ensures NextOK(net, n.(snapIndex := i), f)
  {
  }

  lemma NoLeaderAtFirst(cfg: Config)
    requires ValidConfig(cfg)
    ensures NextInv(Init(cfg))
  {
  }

  lemma {:induction false} NextAlways(cfg: Config, run: seq<System>, acts: seq<Action>, books: seq<Book>, k: nat)
    requires IsRun(cfg, run, acts) && |cfg.peers| > 1 && BooksOK(cfg, run, acts, books) && k < |run|
    ensures NextInv(run[k])
    decreases k
  {
    hide BooksOK, SysOK, NextInv, Enabled, Next, Init;
    if k == 0 {
      NoLeaderAtFirst(cfg);
    } else {
      NextAlways(cfg, run, acts, books, k - 1);
      RunLength(cfg, run, acts, books);
      StateOK(cfg, run, acts, books, k - 1);
      StateOK(cfg, run, acts, books, k);
      BooksGrow(cfg, run, acts, books, k - 1, k);
      GrowsHistory(books[k - 1], books[k]);
      ActsOn(cfg, run[k - 1], acts[k - 1]);
      NextKeeps(cfg, run[k - 1], books[k - 1], acts[k - 1], books[k]);
    }
  }

  lemma ActsOn(cfg: Config, s: System, a: Action)
    requires ValidConfig(cfg) && Enabled(cfg, s, a)
    ensures a.id in s.nodes
  {
    hide Handle, Sound, CanTear;
  }

  /** In every run, once a follower has acknowledged anything, a leader's Next is
      at most one past its Match. */
  lemma MatchBoundsNext(cfg: Config, run: seq<System>, acts: seq<Action>, k: nat, x: NodeId, f: NodeId)
    requires IsRun(cfg, run, acts) && Leads(run, k, x) && f in NodeAt(run, k, x).prs && f != x
    ensures var p := NodeAt(run, k, x).prs[f]; p.matched == 0 || p.next <= p.matched + 1
  {
    hide IsRun, BooksOK, AllAhead;
    Sized(cfg, run, acts);
    if |cfg.peers| == 1 {
      Sole(cfg, run, acts, k, x, k, x);
    } else {
      var books := RunOK(cfg, run, acts);
      NextAlways(cfg, run, acts, books, k);
      assert NextOK(run[k].net, NodeAt(run, k, x), f);
    }
  }
}
