/** A leader's own appends, and its handling of its followers' replies. */
module RaftLeader {
  import opened RaftTypes
  import opened RaftCore
  import opened RaftHistory
  import opened RaftInvariant
  import opened RaftReads
  import opened RaftReplication

  function OldClaim(h: History, x: NodeId, t: nat): nat {
    if (x, t) in h.claims then h.claims[(x, t)] else 0
  }

  /** The history after node `x` acknowledges index `i` in term `t`. */
  function WithClaim(h: History, x: NodeId, t: nat, i: nat): History {
    h.(claims := h.claims[(x, t) := Max(OldClaim(h, x, t), i)])
  }

  /** The history after the leader of `t` extends its log and acknowledges it itself. */
  function WithLog(h: History, t: nat, log: Log): History
    requires t in h.el
  {
    WithClaim(h.(el := h.el[t := h.el[t].(log := log)]), h.el[t].leader, t, |log|)
  }

  lemma ClaimLonger(h: History, n: nat, log: Log, log': Log, t: nat, m: nat)
    requires ClaimOK(h, n, log, t, m) && log <= log'
    ensures ClaimOK(h, n, log', t, m)
  {
  }

  lemma ClaimsLonger(h: History, n: nat, log: Log, log': Log, t: nat, most: nat)
    requires ClaimsOK(h, n, log, t, most) && log <= log'
    ensures ClaimsOK(h, n, log', t, most)
  {
    forall m: nat | m <= most ensures ClaimOK(h, n, log', t, m) {
      ClaimLonger(h, n, log, log', t, m);
    }
  }

  /** The new entries are the leader's own. */
  predicate OwnTail(t: nat, log: Log, log': Log) {
    && log <= log'
    && (forall p | |log| <= p < |log'| :: log'[p].term == t && log'[p].index == p + 1)
  }

  lemma StampTail(t: nat, log: Log, cmds: seq<(EntryKind, Bytes)>)
    ensures OwnTail(t, log, log + Stamp(t, |log|, cmds))
  {
  }

  lemma LogExtends(h: History, t: nat, log: Log)
    requires t in h.el && h.el[t].log <= log
    ensures Extends(h, WithLog(h, t, log)) && HistFrame(h, WithLog(h, t, log), h.el[t].leader)
  {
  }

  lemma LogElection(cfg: Config, h: History, t: nat, log: Log)
    requires t in h.el && ElectionOK(cfg, h, t) && OwnTail(t, h.el[t].log, log) && Extends(h, WithLog(h, t, log))
    ensures ElectionOK(cfg, WithLog(h, t, log), t)
  {
    var h' := WithLog(h, t, log);
    ProvStable(h, h', h.el[t].ord, h.el[t].ord, h.el[t].base);
    var was := h.el[t].log;
    forall p | |h.el[t].base| <= p < |log| ensures log[p].term == t {
      if p < |was| { assert log[p] == was[p]; }
    }
    forall p | 0 <= p < |log| ensures log[p].index == p + 1 && log[p].term >= 1 {
      if p < |was| { assert log[p] == was[p]; }
    }
  }

  lemma LogGrows(cfg: Config, h: History, n: Node, log: Log)
    requires HistOK(cfg, h) && Shape(cfg, n) && LeadsOK(h, n) && VotesOK(h, n) && OwnTail(n.term, n.log, log)
    ensures HistOK(cfg, WithLog(h, n.term, log)) && Extends(h, WithLog(h, n.term, log))
    ensures HistFrame(h, WithLog(h, n.term, log), n.id)
  {
    hide GrantsOK, BidsOK, ClaimOK, ElectionOK, CommitsOK, GrantOK, BidOK, OwnTail, HistFrame;
    var t := n.term;
    var h' := WithLog(h, t, log);
    assert h.el[t].log <= log by { TailPrefix(t, n.log, log); }
    LogExtends(h, t, log);
    assert ElectionOK(cfg, h, t);
    LogElection(cfg, h, t, log);
    ElectionsStable(cfg, h, h');
    LogClaims(h, n, h');
    GrantsStable(cfg, h, h');
    BidsStable(h, h');
    assert ClaimKeysOK(cfg, h');
    CommitsStable(cfg, h, h');
  }

  lemma TailPrefix(t: nat, log: Log, log': Log)
    requires OwnTail(t, log, log')
    ensures log <= log'
  {
  }

  /** No node acknowledges in a term below one it has voted in. */
  lemma LogClaims(h: History, n: Node, h': History)
    requires VotesOK(h, n)
    requires forall x, t | (x, t) in h'.claims && (x != n.id || t != n.term) ::
               (x, t) in h.claims && h'.claims[(x, t)] == h.claims[(x, t)]
    ensures forall v, t | (v, t) in h.grants :: SameClaimsBelow(h, h', v, t)
  {
  }

  lemma LogBook(cfg: Config, b: Book, n: Node, log: Log)
    requires BookOK(cfg, b) && Shape(cfg, n) && LeadsOK(b.h, n) && VotesOK(b.h, n) && OwnTail(n.term, n.log, log)
    ensures var b' := b.(h := WithLog(b.h, n.term, log)); BookOK(cfg, b') && Frame(b, b', n.id)
  {
    hide HistOK, VotesOK, OwnTail, HistFrame, Reached;
    var b' := b.(h := WithLog(b.h, n.term, log));
    LogGrows(cfg, b.h, n, log);
    assert Reached(b.h, b.h.count, b.top);
    ReachedStable(b.h, b'.h, b.h.count, b.top);
    AsksStable(b, b');
    HiddenStable(b, b');
  }

  lemma GrownClaims(cfg: Config, h: History, n: Node, log: Log, n': Node)
    requires ElectionsOK(cfg, h) && LeadsOK(h, n) && ClaimsOfOK(h, n) && n.log <= log
    requires ElectionsOK(cfg, WithLog(h, n.term, log)) && Extends(h, WithLog(h, n.term, log))
    requires n'.id == n.id && n'.term == n.term && n'.log == log
    ensures ClaimsOfOK(WithLog(h, n.term, log), n')
  {
    hide ElectionsOK, Extends, ClaimOK;
    var h' := WithLog(h, n.term, log);
    forall t | (n.id, t) in h'.claims
      ensures t <= n.term && t in h'.el && ClaimsOK(h', h'.count, log, t, h'.claims[(n.id, t)])
    {
      if (n.id, t) in h.claims {
        ClaimsStable(cfg, h, h', h.count, h'.count, n.log, t, h.claims[(n.id, t)]);
        ClaimsLonger(h', h'.count, n.log, log, t, h.claims[(n.id, t)]);
      }
      if t == n.term { OwnLogClaims(h', h'.count, log, t); }
    }
  }

  lemma OwnLogClaims(h: History, n: nat, log: Log, t: nat)
    requires t in h.el && h.el[t].log == log
    ensures ClaimsOK(h, n, log, t, |log|)
  {
    forall m: nat | m <= |log| ensures ClaimOK(h, n, log, t, m) {
      assert Has(h, log, t, m);
    }
  }

  lemma GrownProgress(h: History, n: Node, log: Log, n': Node)
    requires LeadsOK(h, n) && ProgressesOK(h, n) && n.log <= log && n.id in n.prs
    requires n' == n.(log := log, prs := n.prs[n.id := MaybeUpdate(n.prs[n.id], |log|)])
    ensures ProgressesOK(WithLog(h, n.term, log), n')
  {
    var h' := WithLog(h, n.term, log);
    forall f | f in n'.prs ensures ProgressOK(h', n', f) {
      assert ProgressOK(h, n, f);
    }
  }

  lemma GrownReads(cfg: Config, b: Book, n: Node, n': Node)
    requires n' == n.(log := n'.log, prs := n'.prs)
    ensures ReadsOK(cfg, b, n) ==> ReadsOK(cfg, b, n')
    ensures ReadStatesOK(b, n) ==> ReadStatesOK(b, n')
  {
    hide PendingOK, QueueOK;
  }

  lemma GrownNode(cfg: Config, b: Book, n: Node, log: Log, n': Node)
    requires NodeOK(cfg, b, n) && n.role.Leader? && OwnTail(n.term, n.log, log) && AsksOK(b)
    requires n' == n.(log := log, prs := n.prs[n.id := MaybeUpdate(n.prs[n.id], |log|)])
    requires ElectionsOK(cfg, b.h) && ElectionsOK(cfg, WithLog(b.h, n.term, log))
    requires Extends(b.h, WithLog(b.h, n.term, log))
    ensures NodeOK(cfg, b.(h := WithLog(b.h, n.term, log)), n')
  {
    hide ElectionsOK, AsksOK, ReadsOK, ReadStatesOK, ClaimsOK, OwnTail, Extends, ProgressesOK;
    var b' := b.(h := WithLog(b.h, n.term, log));
    TailPrefix(n.term, n.log, log);
    GrownClaims(cfg, b.h, n, log, n');
    GrownProgress(b.h, n, log, n');
    assert n.id in n.prs;
    ReadsStable(cfg, b, b', n);
    ReadStatesStable(b, b', n);
    GrownReads(cfg, b', n, n');
    GrownProv(cfg, b'.h, n.term, log);
    assert log[..n.committed] == n.log[..n.committed];
    if n.committed > 0 { assert SeenBy(b'.h, n'.log[..n'.committed], n'.term); }
  }

  lemma GrownProv(cfg: Config, h: History, t: nat, log: Log)
    requires ElectionsOK(cfg, h) && t in h.el && h.el[t].log == log
    ensures Prov(h, h.count, log)
  {
    assert ElectionOK(cfg, h, t);
    assert LastTerm(log) == t;
  }

  lemma VotesFact(cfg: Config, b: Book, n: Node)
    requires NodeOK(cfg, b, n)
    ensures VotesOK(b.h, n)
  {
  }

  /** The leader's own log, grown by entries of its term. */
  function Grown(n: Node, log: Log): Node
    requires n.id in n.prs
  {
    n.(log := log, prs := n.prs[n.id := MaybeUpdate(n.prs[n.id], |log|)])
  }

  lemma GrowOK(cfg: Config, b: Book, n: Node, log: Log) returns (b': Book)
    requires StepOK(cfg, b, n) && n.role.Leader? && OwnTail(n.term, n.log, log)
    ensures n.id in n.prs && StepOK(cfg, b', Grown(n, log)) && Frame(b, b', n.id)
  {
    hide StepOK, NodeOK, MsgsOK, HistOK, AsksOK, HiddenOK, ElectionsOK, ReadFrame, HistFrame, Extends,
         ReadsOK, ProgressesOK, VotesOK, OwnTail;
    Parts(cfg, b, n);
    Facts(cfg, b, n);
    LeaderFacts(cfg, b, n);
    VotesFact(cfg, b, n);
    b' := b.(h := WithLog(b.h, n.term, log));
    LogBook(cfg, b, n, log);
    Elections(cfg, b.h);
    Elections(cfg, b'.h);
    GrownNode(cfg, b, n, log, Grown(n, log));
    MsgsStable(cfg, b, b', n.msgs);
    Join(cfg, b', Grown(n, log));
  }

  lemma AppendEntryOK(cfg: Config, b: Book, n: Node, cmds: seq<(EntryKind, Bytes)>) returns (b': Book)
    requires StepOK(cfg, b, n) && n.role.Leader?
    ensures ValidConfig(cfg) && n.prs.Keys == PeerSet(cfg) && n.id in PeerSet(cfg)
    ensures StepOK(cfg, b', AppendEntry(cfg, n, cmds)) && Frame(b, b', n.id)
  {
    hide StepOK, HistOK, AsksOK, HiddenOK, Frame, OwnTail, MaybeCommit, Stamp;
    Facts(cfg, b, n);
    var log := n.log + Stamp(n.term, |n.log|, cmds);
    StampTail(n.term, n.log, cmds);
    var b1 := GrowOK(cfg, b, n, log);
    b' := MaybeCommitOK(cfg, b1, Grown(n, log));
    FrameTrans(b, b1, b', n.id);
  }

  lemma MaybeCommitRole(cfg: Config, n: Node)
    requires |cfg.peers| > 0 && n.prs.Keys == PeerSet(cfg)
    ensures MaybeCommit(cfg, n).role == n.role && MaybeCommit(cfg, n).id == n.id
  {
    MaybeCommitKeeps(cfg, n);
  }

  lemma ProposeOK(cfg: Config, b: Book, n: Node, cmds: seq<Bytes>) returns (b': Book)
    requires StepOK(cfg, b, n)
    ensures ValidConfig(cfg) && Shape(cfg, n)
    ensures StepOK(cfg, b', Propose(cfg, n, cmds)) && Frame(b, b', n.id)
  {
    hide StepOK, HistOK, AsksOK, HiddenOK, Frame, MaybeCommit, BcastAppend;
    Facts(cfg, b, n);
    b' := b;
    FrameSelf(b, n.id);
    if n.role.Leader? && cmds != [] {
      var es := seq(|cmds|, i requires 0 <= i < |cmds| => (Normal, cmds[i]));
      b' := AppendEntryOK(cfg, b, n, es);
      var log := n.log + Stamp(n.term, |n.log|, es);
      MaybeCommitRole(cfg, n.(log := log, prs := n.prs[n.id := MaybeUpdate(n.prs[n.id], |log|)]));
      BcastAppendOK(cfg, b', AppendEntry(cfg, n, es), cfg.peers);
    }
  }

  // ----- replies -----

  lemma UpdateOK(cfg: Config, b: Book, n: Node, f: NodeId, i: nat)
    requires StepOK(cfg, b, n) && n.role.Leader? && f in n.prs && ClaimMade(b.h, f, n.term, i)
    ensures StepOK(cfg, b, n.(prs := n.prs[f := MaybeUpdate(n.prs[f], i)]))
  {
    hide StepOK, ReadsOK, ProgressesOK;
    LeaderFacts(cfg, b, n);
    UpdateProgressOK(b.h, n, f, i);
    ProgressOnly(cfg, b, n, n.(prs := n.prs[f := MaybeUpdate(n.prs[f], i)]));
  }

  lemma HandleAppendRespOK(cfg: Config, b: Book, n: Node, m: Message) returns (b': Book)
    requires StepOK(cfg, b, n) && n.role.Leader? && m.AppendResp? && m.term == n.term && MsgOK(cfg, b, m)
    ensures ValidConfig(cfg) && Shape(cfg, n)
    ensures StepOK(cfg, b', HandleAppendResp(cfg, n, m)) && Frame(b, b', n.id)
  {
    hide StepOK, HistOK, AsksOK, HiddenOK, Frame, ReadsOK, ProgressesOK, MaybeCommit, BcastAppend, AppendFor, CanCommit;
    Facts(cfg, b, n);
    LeaderFacts(cfg, b, n);
    b' := b;
    FrameSelf(b, n.id);
    if m.reject {
      if n.prs[m.from].next == m.logIndex + 1 {
        DecrProgressOK(b.h, n, m);
        var n' := n.(prs := n.prs[m.from := MaybeDecrTo(n.prs[m.from], m.logIndex, DecrHint(n, m))]);
        ProgressOnly(cfg, b, n, n');
        SendAppendOK(cfg, b, n', m.from);
      }
    } else {
      UpdateOK(cfg, b, n, m.from, m.logIndex);
      var u := n.(prs := n.prs[m.from := MaybeUpdate(n.prs[m.from], m.logIndex)]);
      if n.prs[m.from].matched < m.logIndex && CanCommit(cfg, u) {
        b' := MaybeCommitOK(cfg, b, u);
        MaybeCommitRole(cfg, u);
        BcastAppendOK(cfg, b', MaybeCommit(cfg, u), cfg.peers);
      }
    }
  }

  lemma SnapshotRespOK(cfg: Config, b: Book, n: Node, m: Message)
    requires StepOK(cfg, b, n) && n.role.Leader? && m.InstallSnapshotResp? && m.term == n.term && MsgOK(cfg, b, m)
    ensures ValidConfig(cfg) && Shape(cfg, n)
    ensures StepOK(cfg, b, StepLeader(cfg, n, m))
  {
    hide StepOK, HistOK, AsksOK, HiddenOK, AppendFor;
    Facts(cfg, b, n);
    UpdateOK(cfg, b, n, m.from, m.logIndex);
    SendAppendOK(cfg, b, n.(prs := n.prs[m.from := MaybeUpdate(n.prs[m.from], m.logIndex)]), m.from);
  }

  // ----- heartbeat replies and the release of reads -----

  lemma AckPending(cfg: Config, b: Book, t: nat, c: Context, s: ReadStatus, v: NodeId)
    requires PendingOK(cfg, b, t, c, s) && v in PeerSet(cfg) && NotVoted(b.h, v, t, b.casts[(t, c)])
    ensures PendingOK(cfg, b, t, c, s.(acks := s.acks + {v}))
  {
    hide NotVoted;
  }

  lemma AckReads(cfg: Config, b: Book, n: Node, v: NodeId, c: Context)
    requires ReadsOK(cfg, b, n) && v in PeerSet(cfg)
    requires (n.term, c) in b.casts && NotVoted(b.h, v, n.term, b.casts[(n.term, c)])
    ensures ReadsOK(cfg, b, n.(readOnly := RecvAck(n.readOnly, v, c)))
  {
    hide PendingOK, NotVoted;
    if c in n.readOnly.pending {
      AckPending(cfg, b, n.term, c, n.readOnly.pending[c], v);
    }
  }

  lemma AckOK(cfg: Config, b: Book, n: Node, v: NodeId, c: Context)
    requires StepOK(cfg, b, n) && n.role.Leader? && v in PeerSet(cfg)
    requires (n.term, c) in b.casts && NotVoted(b.h, v, n.term, b.casts[(n.term, c)])
    ensures StepOK(cfg, b, n.(readOnly := RecvAck(n.readOnly, v, c)))
  {
    hide StepOK, HistOK, AsksOK, HiddenOK, ReadsOK, ProgressesOK, LeadsOK, NotVoted, VotesOK, HistFrame, ReadFrame,
         Extends;
    Facts(cfg, b, n);
    LeaderFacts(cfg, b, n);
    LeaderReadStates(cfg, b, n);
    AckReads(cfg, b, n, v, c);
    FrameSelf(b, n.id);
    ReadsOnly(cfg, b, b, n, n.(readOnly := RecvAck(n.readOnly, v, c)));
  }

  /** A quorum of acknowledgements rules out every later leader elected before
      the context was broadcast. */
  lemma QuorumConfirms(cfg: Config, h: History, t: nat, acks: set<NodeId>, cast: nat, ask: nat)
    requires ValidConfig(cfg) && ElectionsOK(cfg, h) && ask <= cast
    requires acks <= PeerSet(cfg) && |acks| >= Quorum(cfg)
    requires forall v | v in acks :: NotVoted(h, v, t, cast)
    ensures !Higher(h, t, ask)
  {
    forall t2 | t2 in h.el && t2 > t ensures h.el[t2].ord >= ask {
      assert ElectionOK(cfg, h, t2);
      var v := QuorumsMeet(cfg, acks, h.el[t2].voters);
      assert NotVoted(h, v, t, cast);
    }
  }

  lemma {:induction false} ReleasedAt(ro: ReadOnly, ctxs: seq<Context>, k: nat)
    requires k < |Released(ro, ctxs)|
    ensures exists a :: 0 <= a < |ctxs| && ctxs[a] in ro.pending && Released(ro, ctxs)[k] == ReadState(ro.pending[ctxs[a]].index, ctxs[a])
    decreases ctxs
  {
    var rest := Released(ro, ctxs[1..]);
    if ctxs[0] in ro.pending {
      if k == 0 {
        assert Released(ro, ctxs)[0] == ReadState(ro.pending[ctxs[0]].index, ctxs[0]);
      } else {
        ReleasedAt(ro, ctxs[1..], k - 1);
        var a :| 0 <= a < |ctxs[1..]| && ctxs[1..][a] in ro.pending && rest[k - 1] == ReadState(ro.pending[ctxs[1..][a]].index, ctxs[1..][a]);
        assert ctxs[a + 1] == ctxs[1..][a];
      }
    } else {
      ReleasedAt(ro, ctxs[1..], k);
      var a :| 0 <= a < |ctxs[1..]| && ctxs[1..][a] in ro.pending && rest[k] == ReadState(ro.pending[ctxs[1..][a]].index, ctxs[1..][a]);
      assert ctxs[a + 1] == ctxs[1..][a];
    }
  }

  /** Every request released together with `target` was confirmed by the same quorum. */
  lemma BatchConfirmed(cfg: Config, b: Book, n: Node, k: nat, a: nat)
    requires ValidConfig(cfg) && ElectionsOK(cfg, b.h) && ReadsOK(cfg, b, n)
    requires a < k <= |n.readOnly.queue|
    requires |n.readOnly.pending[n.readOnly.queue[k - 1]].acks| >= Quorum(cfg)
    ensures var c := n.readOnly.queue[a];
      (n.term, c) in b.asks && n.readOnly.pending[c].index >= b.asks[(n.term, c)].floor
  {
    hide ElectionsOK;
    var ro := n.readOnly;
    var target, c := ro.queue[k - 1], ro.queue[a];
    assert PendingOK(cfg, b, n.term, target, ro.pending[target]);
    assert PendingOK(cfg, b, n.term, c, ro.pending[c]);
    QuorumConfirms(cfg, b.h, n.term, ro.pending[target].acks, b.casts[(n.term, target)], b.asks[(n.term, c)].ord);
  }

  lemma ReleasedFloors(cfg: Config, b: Book, n: Node, k: nat)
    requires ValidConfig(cfg) && ElectionsOK(cfg, b.h) && ReadsOK(cfg, b, n) && ReadStatesOK(b, n)
    requires 0 < k <= |n.readOnly.queue|
    requires |n.readOnly.pending[n.readOnly.queue[k - 1]].acks| >= Quorum(cfg)
    ensures ReadStatesOK(b, n.(readStates := n.readStates + Released(n.readOnly, n.readOnly.queue[..k])))
  {
    hide ElectionsOK, ReadsOK;
    var rel := Released(n.readOnly, n.readOnly.queue[..k]);
    forall j | 0 <= j < |rel|
      ensures (n.term, rel[j].context) in b.asks && rel[j].index >= b.asks[(n.term, rel[j].context)].floor
    {
      ReleasedAt(n.readOnly, n.readOnly.queue[..k], j);
      var a :| 0 <= a < |n.readOnly.queue[..k]| && n.readOnly.queue[..k][a] in n.readOnly.pending
        && rel[j] == ReadState(n.readOnly.pending[n.readOnly.queue[..k][a]].index, n.readOnly.queue[..k][a]);
      BatchConfirmed(cfg, b, n, k, a);
    }
  }

  lemma DroppedQueue(b: Book, t: nat, ro: ReadOnly, k: nat)
    requires QueueOK(b, t, ro) && k <= |ro.queue|
    ensures QueueOK(b, t, DropReleased(ro, k))
  {
    var ro' := DropReleased(ro, k);
    assert forall a | 0 <= a < |ro'.queue| :: ro'.queue[a] == ro.queue[k + a];
  }

  lemma DroppedPending(ro: ReadOnly, k: nat, c: Context)
    requires k <= |ro.queue| && c in DropReleased(ro, k).pending && c in ro.queue
    ensures c in DropReleased(ro, k).queue
  {
    var a :| 0 <= a < |ro.queue| && ro.queue[a] == c;
    assert forall j | 0 <= j < k :: ro.queue[j] in ro.queue[..k];
    assert ro.queue[k..][a - k] == c;
  }

  lemma DroppedReads(cfg: Config, b: Book, n: Node, k: nat)
    requires ReadsOK(cfg, b, n) && k <= |n.readOnly.queue|
    ensures ReadsOK(cfg, b, n.(readOnly := DropReleased(n.readOnly, k)))
  {
    hide PendingOK, QueueOK;
    var ro' := DropReleased(n.readOnly, k);
    DroppedQueue(b, n.term, n.readOnly, k);
    forall c | c in ro'.pending ensures c in ro'.queue {
      DroppedPending(n.readOnly, k, c);
    }
  }

  lemma AdvanceReadsOK(cfg: Config, b: Book, n: Node, c: Context)
    requires StepOK(cfg, b, n) && n.role.Leader? && AckCount(n.readOnly, c) >= Quorum(cfg)
    ensures StepOK(cfg, b, AdvanceReads(n, c))
  {
    hide StepOK, ElectionsOK, GrantsOK, BidsOK, ClaimKeysOK, CommitsOK, AsksOK, HiddenOK, ReadsOK, ReadStatesOK,
         ProgressesOK, LeadsOK, VotesOK, HistFrame, ReadFrame, Extends, DropReleased, Released;
    Facts(cfg, b, n);
    LeaderFacts(cfg, b, n);
    LeaderReadStates(cfg, b, n);
    WalkToBound(n.readOnly, 0, c);
    var k := WalkTo(n.readOnly, 0, c);
    var n' := AdvanceReads(n, c);
    if k == 0 {
      NothingReleased(n.readOnly);
      assert n' == n;
    } else {
      ReleasedFloors(cfg, b, n, k);
      DroppedReads(cfg, b, n, k);
      var r := n.(readStates := n.readStates + Released(n.readOnly, n.readOnly.queue[..k]));
      AdvanceFields(cfg, b, n, r, n');
      FrameSelf(b, n.id);
      ReadsOnly(cfg, b, b, n, n');
    }
  }

  lemma NothingReleased(ro: ReadOnly)
    ensures Released(ro, ro.queue[..0]) == []
  {
  }

  lemma AdvanceFields(cfg: Config, b: Book, n: Node, r: Node, n': Node)
    requires n' == n.(readStates := n'.readStates, readOnly := n'.readOnly)
    requires r == n.(readStates := n'.readStates) && ReadStatesOK(b, r)
    requires ReadsOK(cfg, b, n.(readOnly := n'.readOnly))
    ensures ReadsOK(cfg, b, n') && ReadStatesOK(b, n')
  {
    hide PendingOK, QueueOK;
  }

  lemma HandleHeartbeatRespOK(cfg: Config, b: Book, n: Node, m: Message)
    requires StepOK(cfg, b, n) && n.role.Leader? && m.HeartbeatResp? && m.term == n.term && MsgOK(cfg, b, m)
    ensures Shape(cfg, n)
    ensures StepOK(cfg, b, HandleHeartbeatResp(cfg, n, m))
  {
    hide StepOK, HistOK, AsksOK, HiddenOK, AppendFor, NotVoted, AdvanceReads, RecvAck, AckCount;
    Facts(cfg, b, n);
    SendAppendOK(cfg, b, n, m.from);
    var s := if m.from in n.prs && n.prs[m.from].matched < |n.log| then SendAppend(cfg, n, m.from) else n;
    if m.context != [] {
      AckOK(cfg, b, s, m.from, m.context);
      var a := s.(readOnly := RecvAck(s.readOnly, m.from, m.context));
      if AckCount(a.readOnly, m.context) >= Quorum(cfg) {
        AdvanceReadsOK(cfg, b, a, m.context);
      }
    }
  }

  lemma ReadIndexOK(cfg: Config, b: Book, n: Node, ctx: Context) returns (b': Book)
    requires StepOK(cfg, b, n) && ctx in n.issued
    requires n.role.Leader? ==> (n.term, ctx) !in b.asks
    ensures Shape(cfg, n)
    ensures StepOK(cfg, b', ReadIndex(cfg, n, ctx)) && Growth(b, b', n.id)
    ensures b'.asks == if n.role.Leader? then b.asks[(n.term, ctx) := Ask(b.top, b.h.count)] else b.asks
  {
    hide StepOK, HistOK, AsksOK, HiddenOK, ReadsOK, ProgressesOK, ReadStatesOK, VotesOK, Extends, HistFrame,
         ReadFrame, SendReadIndex;
    Facts(cfg, b, n);
    b' := b;
    FrameSelf(b, n.id);
    if n.role.Leader? {
      LeaderFacts(cfg, b, n);
      LeaderReadStates(cfg, b, n);
      var b1 := b.(asks := b.asks[(n.term, ctx) := Ask(b.top, b.h.count)]);
      AskAdded(b, n.term, ctx, b1);
      AskReads(cfg, b, b1, n, ctx);
      ReadStatesStable(b, b1, n);
      if !CommittedInCurrentTerm(n) {
        b' := b1;
        ReadsOnly(cfg, b, b1, n, n.(gated := n.gated + [ctx]));
      } else {
        ReadsOnly(cfg, b, b1, n, n);
        var b2 := SendReadIndexOK(cfg, b1, n, ctx);
        GrowthTrans(b, b1, b2, n.id);
        b' := b2;
      }
    }
  }

  lemma AskReads(cfg: Config, b: Book, b': Book, n: Node, ctx: Context)
    requires ReadsOK(cfg, b, n) && AsksOK(b) && BookExtends(b, b') && (n.term, ctx) !in b.asks && ctx in n.issued
    requires b' == b.(asks := b.asks[(n.term, ctx) := Ask(b.top, b.h.count)])
    ensures ReadsOK(cfg, b', n) && Readable(b', n, ctx)
    ensures ReadsOK(cfg, b', n.(gated := n.gated + [ctx]))
    ensures ReadStatesOK(b', n) ==> ReadStatesOK(b', n.(gated := n.gated + [ctx]))
  {
    forall c | c in n.readOnly.pending ensures PendingOK(cfg, b', n.term, c, n.readOnly.pending[c]) {
      PendingStable(cfg, b, b', n.term, c, n.readOnly.pending[c]);
    }
    assert QueueOK(b', n.term, n.readOnly);
    assert (n.term, ctx) !in b'.casts;
  }
}
