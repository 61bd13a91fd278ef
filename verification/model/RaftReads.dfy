/** Linearizable reads on a leader: recording a request, broadcasting its
    context, counting acknowledgements, releasing. */
module RaftReads {
  import opened RaftTypes
  import opened RaftCore
  import opened RaftHistory
  import opened RaftInvariant

  lemma Facts(cfg: Config, b: Book, n: Node)
    requires StepOK(cfg, b, n)
    ensures ValidConfig(cfg) && Shape(cfg, n) && HistOK(cfg, b.h) && AsksOK(b) && HiddenOK(b)
  {
  }

  lemma Parts(cfg: Config, b: Book, n: Node)
    requires StepOK(cfg, b, n)
    ensures ValidConfig(cfg) && BookOK(cfg, b) && NodeOK(cfg, b, n) && MsgsOK(cfg, b, n.msgs)
  {
  }

  lemma Join(cfg: Config, b: Book, n: Node)
    requires ValidConfig(cfg) && BookOK(cfg, b) && NodeOK(cfg, b, n) && MsgsOK(cfg, b, n.msgs)
    ensures StepOK(cfg, b, n)
  {
  }

  lemma Elections(cfg: Config, h: History)
    requires HistOK(cfg, h)
    ensures ElectionsOK(cfg, h)
  {
  }

  lemma LeaderFacts(cfg: Config, b: Book, n: Node)
    requires StepOK(cfg, b, n) && n.role.Leader?
    ensures Shape(cfg, n) && LeadsOK(b.h, n) && ProgressesOK(b.h, n) && ReadsOK(cfg, b, n)
  {
  }

  /** A node whose output queue alone changed. */
  lemma MsgsOnly(cfg: Config, b: Book, n: Node, n': Node)
    requires NodeOK(cfg, b, n) && n' == n.(msgs := n'.msgs)
    ensures NodeOK(cfg, b, n')
  {
    if n.role.Leader? {
      forall f | f in n'.prs ensures ProgressOK(b.h, n', f) {
        assert ProgressOK(b.h, n, f);
      }
    }
  }

  lemma SendOK(cfg: Config, b: Book, n: Node, m: Message)
    requires StepOK(cfg, b, n) && MsgOK(cfg, b, m)
    ensures StepOK(cfg, b, Send(n, m))
  {
    hide BookOK, NodeOK, MsgOK;
    MsgsOnly(cfg, b, n, Send(n, m));
  }

  lemma HeartbeatOK(cfg: Config, b: Book, n: Node, f: NodeId, ctx: Context)
    requires Shape(cfg, n) && LeadsOK(b.h, n) && ProgressesOK(b.h, n) && f in n.prs
    requires ctx != [] ==> (n.term, ctx) in b.casts
    ensures MsgOK(cfg, b, Heartbeat(n.id, f, n.term, Min(n.prs[f].matched, n.committed), ctx))
  {
    assert ProgressOK(b.h, n, f);
  }

  lemma {:induction false} BcastHeartbeatOK(cfg: Config, b: Book, n: Node, peers: seq<NodeId>, ctx: Context)
    requires StepOK(cfg, b, n) && n.role.Leader?
    requires forall i | 0 <= i < |peers| :: peers[i] in n.prs
    requires ctx != [] ==> (n.term, ctx) in b.casts
    ensures StepOK(cfg, b, BcastHeartbeat(n, peers, ctx))
    decreases peers
  {
    hide StepOK, MsgOK, ProgressesOK, LeadsOK, ReadsOK;
    if peers != [] {
      var f := peers[0];
      if f == n.id {
        BcastHeartbeatOK(cfg, b, n, peers[1..], ctx);
      } else {
        LeaderFacts(cfg, b, n);
        HeartbeatOK(cfg, b, n, f, ctx);
        var m := Heartbeat(n.id, f, n.term, Min(n.prs[f].matched, n.committed), ctx);
        SendOK(cfg, b, n, m);
        BcastHeartbeatOK(cfg, b, Send(n, m), peers[1..], ctx);
      }
    }
  }

  /** What an earlier leader committed fits inside a later leader's first log. */
  lemma EarlierCommit(cfg: Config, h: History, t: nat, t2: nat)
    requires ValidConfig(cfg) && HistOK(cfg, h) && t in h.el && t2 in h.el && t < t2
    ensures h.el[t].commit <= |h.el[t].log| && h.el[t].log[..h.el[t].commit] <= h.el[t2].base
  {
    hide GrantsOK, BidsOK, ElectionsOK, ClaimKeysOK, Committed;
    var log := h.el[t].log[..h.el[t].commit];
    assert Backed(cfg, h, t, log);
    if log != [] {
      var t0: nat, m: nat :| t0 <= t && CommittedBy(cfg, h, t0, m, log);
      LeaderCompleteness(cfg, h, t0, m, t2);
    }
  }

  /** The commit index of a leader that has committed in its own term is at
      least the floor of any request, unless a later leader was already
      elected when the request entered. */
  lemma FloorReached(cfg: Config, h: History, n: Node, ord: nat, floor: nat)
    requires ValidConfig(cfg) && HistOK(cfg, h) && LeadsOK(h, n) && CommittedInCurrentTerm(n)
    requires Reached(h, ord, floor)
    ensures Higher(h, n.term, ord) || n.committed >= floor
  {
    hide GrantsOK, BidsOK, ElectionsOK, ClaimKeysOK, CommitsOK;
    if floor > 0 {
      var t :| t in h.el && h.el[t].ord < ord && floor <= h.el[t].commit;
      if t > n.term {
        assert Higher(h, n.term, ord);
      } else if t < n.term {
        EarlierCommit(cfg, h, t, n.term);
        TermsBound(cfg, h, n.term, n.committed - 1);
      }
    }
  }

  // ----- entering a request -----

  lemma AskAdded(b: Book, t: nat, ctx: Context, b': Book)
    requires AsksOK(b) && HiddenOK(b) && t in b.h.el && (t, ctx) !in b.asks
    requires b' == b.(asks := b.asks[(t, ctx) := Ask(b.top, b.h.count)])
    ensures AsksOK(b') && HiddenOK(b') && Growth(b, b', b.h.el[t].leader)
  {
  }

  lemma CastAdded(b: Book, t: nat, ctx: Context, b': Book)
    requires AsksOK(b) && HiddenOK(b) && (t, ctx) in b.asks && (t, ctx) !in b.casts
    requires b' == b.(casts := b.casts[(t, ctx) := b.h.count])
    ensures AsksOK(b') && HiddenOK(b') && Frame(b, b', b.h.el[t].leader)
  {
  }

  /** A leader whose read bookkeeping alone changed. */
  lemma ReadsOnly(cfg: Config, b: Book, b': Book, n: Node, n': Node)
    requires StepOK(cfg, b, n) && n.role.Leader?
    requires AsksOK(b') && HiddenOK(b') && BookExtends(b, b') && b'.h == b.h && b'.hidden == b.hidden && b'.top == b.top
    requires n' == n.(readOnly := n'.readOnly, gated := n'.gated, readStates := n'.readStates, issued := n'.issued)
    requires ReadsOK(cfg, b', n') && ReadStatesOK(b', n')
    ensures StepOK(cfg, b', n')
  {
    hide ReadsOK, ReadStatesOK, AsksOK, HistOK, HiddenOK, ClaimsOK, MsgOK;
    assert ProgressesOK(b'.h, n') by {
      forall f | f in n'.prs ensures ProgressOK(b'.h, n', f) {
        assert ProgressOK(b.h, n, f);
      }
    }
    MsgsStable(cfg, b, b', n.msgs);
  }

  ghost predicate Readable(b: Book, n: Node, ctx: Context) {
    (n.term, ctx) in b.asks && (n.term, ctx) !in b.casts && ctx !in n.gated
  }

  ghost predicate AllReadable(b: Book, n: Node, ctxs: seq<Context>) {
    && (forall a | 0 <= a < |ctxs| :: Readable(b, n, ctxs[a]))
    && (forall a, c | 0 <= a < c < |ctxs| :: ctxs[a] != ctxs[c])
  }

  lemma SelfNotVoted(cfg: Config, h: History, n: Node, k: nat)
    requires ElectionsOK(cfg, h) && VotesOK(h, n)
    ensures NotVoted(h, n.id, n.term, k)
  {
    forall t2 | t2 in h.el && t2 > n.term && h.el[t2].ord < k ensures n.id !in h.el[t2].voters {
      assert ElectionOK(cfg, h, t2);
    }
  }

  lemma SoloVoter(cfg: Config, voters: set<NodeId>, id: NodeId)
    requires ValidConfig(cfg) && |cfg.peers| == 1 && IsQuorum(cfg, voters) && id in PeerSet(cfg)
    ensures id in voters
  {
    PeerSetSize(cfg.peers);
    if id !in voters { SubsetSize(voters + {id}, PeerSet(cfg)); }
  }

  /** In a cluster of one, no other leader can have been elected. */
  lemma SoloNoHigher(cfg: Config, h: History, n: Node, k: nat)
    requires ValidConfig(cfg) && ElectionsOK(cfg, h) && VotesOK(h, n) && Shape(cfg, n) && |cfg.peers| == 1
    ensures !Higher(h, n.term, k)
  {
    SelfNotVoted(cfg, h, n, k);
    forall t2 | t2 in h.el && t2 > n.term ensures h.el[t2].ord >= k {
      assert ElectionOK(cfg, h, t2);
      SoloVoter(cfg, h.el[t2].voters, n.id);
    }
  }

  lemma NewPendingOK(cfg: Config, b: Book, b': Book, n: Node, ctx: Context)
    requires StepOK(cfg, b, n) && n.role.Leader? && CommittedInCurrentTerm(n) && Readable(b, n, ctx)
    requires b' == b.(casts := b.casts[(n.term, ctx) := b.h.count])
    ensures PendingOK(cfg, b', n.term, ctx, ReadStatus(n.committed, {n.id}))
  {
    hide HiddenOK, GrantsOK, BidsOK, ElectionsOK, ClaimKeysOK, CommitsOK, Reached, MsgsOK, ClaimsOfOK, VotesOK,
         ProgressesOK, ReadsOK, ReadStatesOK, Higher, NotVoted, SeenOK;
    var a := b.asks[(n.term, ctx)];
    assert Reached(b.h, a.ord, a.floor);
    FloorReached(cfg, b.h, n, a.ord, a.floor);
    SelfNotVoted(cfg, b.h, n, b.h.count);
  }

  lemma QueueGrows(b: Book, b': Book, t: nat, ro: ReadOnly, ctx: Context, ro': ReadOnly)
    requires AsksOK(b) && QueueOK(b, t, ro)
    requires (t, ctx) in b.asks && (t, ctx) !in b.casts && ctx !in ro.pending
    requires b' == b.(casts := b.casts[(t, ctx) := b.h.count])
    requires ro'.queue == ro.queue + [ctx] && ro'.pending.Keys == ro.pending.Keys + {ctx}
    ensures QueueOK(b', t, ro')
  {
    var q, q' := ro.queue, ro'.queue;
    assert forall a | 0 <= a < |q| :: q'[a] == q[a];
    assert q'[|q|] == ctx;
    forall a, c | 0 <= a <= c < |q'|
      ensures (t, q'[a]) in b'.asks && (t, q'[c]) in b'.casts
      ensures b'.asks[(t, q'[a])].ord <= b'.casts[(t, q'[c])]
    {
      if a < |q| { assert (t, q[a]) in b.asks; }
    }
  }

  lemma NotPending(cfg: Config, b: Book, n: Node, ctx: Context)
    requires ReadsOK(cfg, b, n) && Readable(b, n, ctx)
    ensures ctx !in n.readOnly.pending
  {
    hide QueueOK;
  }

  lemma RecordReads(cfg: Config, b: Book, b': Book, n: Node, ctx: Context, n': Node)
    requires AsksOK(b) && ReadsOK(cfg, b, n) && Readable(b, n, ctx) && BookExtends(b, b')
    requires b' == b.(casts := b.casts[(n.term, ctx) := b.h.count])
    requires PendingOK(cfg, b', n.term, ctx, ReadStatus(n.committed, {n.id}))
    requires n' == n.(readOnly := RecvAck(AddRequest(n.readOnly, n.committed, ctx), n.id, ctx))
    ensures ReadsOK(cfg, b', n')
  {
    hide PendingOK, QueueOK, AsksOK, BookExtends;
    var ro, ro' := n.readOnly, n'.readOnly;
    NotPending(cfg, b, n, ctx);
    assert ro'.queue == ro.queue + [ctx];
    assert {} + {n.id} == {n.id};
    assert ro'.pending == ro.pending[ctx := ReadStatus(n.committed, {n.id})];
    QueueGrows(b, b', n.term, ro, ctx, ro');
    forall c | c in ro'.pending ensures c in ro'.queue && PendingOK(cfg, b', n.term, c, ro'.pending[c]) {
      if c == ctx {
        assert ro'.queue[|ro.queue|] == ctx;
      } else {
        PendingStable(cfg, b, b', n.term, c, ro.pending[c]);
      }
    }
  }

  lemma LeaderReadStates(cfg: Config, b: Book, n: Node)
    requires StepOK(cfg, b, n)
    ensures ReadStatesOK(b, n) && VotesOK(b.h, n)
  {
  }

  /** Recording a request and acknowledging it on the leader's own behalf. */
  lemma RecordReadOK(cfg: Config, b: Book, n: Node, ctx: Context, b': Book)
    requires StepOK(cfg, b, n) && n.role.Leader? && CommittedInCurrentTerm(n) && Readable(b, n, ctx)
    requires b' == b.(casts := b.casts[(n.term, ctx) := b.h.count])
    ensures StepOK(cfg, b', n.(readOnly := RecvAck(AddRequest(n.readOnly, n.committed, ctx), n.id, ctx)))
    ensures Frame(b, b', n.id)
  {
    hide StepOK, HistOK, HiddenOK, AsksOK, ReadsOK, ProgressesOK, PendingOK, HistFrame, ReadFrame, BookExtends, VotesOK;
    Facts(cfg, b, n);
    LeaderFacts(cfg, b, n);
    LeaderReadStates(cfg, b, n);
    CastAdded(b, n.term, ctx, b');
    NewPendingOK(cfg, b, b', n, ctx);
    var n' := n.(readOnly := RecvAck(AddRequest(n.readOnly, n.committed, ctx), n.id, ctx));
    RecordReads(cfg, b, b', n, ctx, n');
    ReadStatesStable(b, b', n);
    assert ReadStatesOK(b', n');
    ReadsOnly(cfg, b, b', n, n');
  }

  lemma SameReads(cfg: Config, b: Book, n: Node, n': Node)
    requires ReadsOK(cfg, b, n) && n' == n.(readStates := n'.readStates)
    ensures ReadsOK(cfg, b, n')
  {
    hide PendingOK, QueueOK;
  }

  lemma SoloReadOK(cfg: Config, b: Book, n: Node, ctx: Context)
    requires StepOK(cfg, b, n) && n.role.Leader? && CommittedInCurrentTerm(n)
    requires (n.term, ctx) in b.asks && |cfg.peers| == 1
    ensures StepOK(cfg, b, n.(readStates := n.readStates + [ReadState(n.committed, ctx)]))
  {
    hide StepOK, HiddenOK, GrantsOK, BidsOK, ElectionsOK, ClaimKeysOK, CommitsOK, ReadsOK, ProgressesOK, Reached,
         VotesOK, Higher;
    Facts(cfg, b, n);
    LeaderFacts(cfg, b, n);
    LeaderReadStates(cfg, b, n);
    var a := b.asks[(n.term, ctx)];
    FloorReached(cfg, b.h, n, a.ord, a.floor);
    SoloNoHigher(cfg, b.h, n, a.ord);
    var n' := n.(readStates := n.readStates + [ReadState(n.committed, ctx)]);
    SameReads(cfg, b, n, n');
    FrameSelf(b, n.id);
    ReadsOnly(cfg, b, b, n, n');
  }

  lemma SendReadIndexOK(cfg: Config, b: Book, n: Node, ctx: Context) returns (b': Book)
    requires StepOK(cfg, b, n) && n.role.Leader? && CommittedInCurrentTerm(n) && Readable(b, n, ctx)
    ensures n.prs.Keys == PeerSet(cfg)
    ensures StepOK(cfg, b', SendReadIndex(cfg, n, ctx)) && Frame(b, b', n.id)
    ensures b'.asks == b.asks && forall k | k in b'.casts :: k in b.casts || k == (n.term, ctx)
  {
    hide StepOK, Frame, HistOK, HiddenOK, AsksOK;
    Facts(cfg, b, n);
    if |cfg.peers| == 1 {
      SoloReadOK(cfg, b, n, ctx);
      FrameSelf(b, n.id);
      b' := b;
    } else {
      b' := b.(casts := b.casts[(n.term, ctx) := b.h.count]);
      RecordReadOK(cfg, b, n, ctx, b');
      var r := n.(readOnly := RecvAck(AddRequest(n.readOnly, n.committed, ctx), n.id, ctx));
      BcastHeartbeatOK(cfg, b', r, cfg.peers, ctx);
    }
  }

  lemma StillReadable(b: Book, b': Book, n: Node, n': Node, ctxs: seq<Context>)
    requires AllReadable(b, n, ctxs) && ctxs != []
    requires b'.asks == b.asks && forall k | k in b'.casts :: k in b.casts || k == (n.term, ctxs[0])
    requires n'.term == n.term && n'.gated == n.gated
    ensures AllReadable(b', n', ctxs[1..])
  {
    forall a | 0 <= a < |ctxs[1..]| ensures Readable(b', n', ctxs[1..][a]) {
      assert ctxs[1..][a] == ctxs[a + 1] && Readable(b, n, ctxs[a + 1]);
    }
  }

  lemma {:induction false} SendReadIndexesOK(cfg: Config, b: Book, n: Node, ctxs: seq<Context>) returns (b': Book)
    requires StepOK(cfg, b, n) && n.role.Leader? && CommittedInCurrentTerm(n)
    requires AllReadable(b, n, ctxs)
    ensures n.prs.Keys == PeerSet(cfg)
    ensures StepOK(cfg, b', SendReadIndexes(cfg, n, ctxs)) && Frame(b, b', n.id)
    decreases ctxs
  {
    hide StepOK, Frame, HistOK, HiddenOK, AsksOK;
    Facts(cfg, b, n);
    if ctxs == [] {
      b' := b;
      FrameSelf(b, n.id);
    } else {
      assert Readable(b, n, ctxs[0]);
      var b1 := SendReadIndexOK(cfg, b, n, ctxs[0]);
      var n1 := SendReadIndex(cfg, n, ctxs[0]);
      SendReadIndexKeeps(cfg, n, ctxs[0]);
      StillReadable(b, b1, n, n1, ctxs);
      b' := SendReadIndexesOK(cfg, b1, n1, ctxs[1..]);
      FrameTrans(b, b1, b', n.id);
    }
  }

  lemma DropGated(cfg: Config, b: Book, n: Node)
    requires ReadsOK(cfg, b, n) && ReadStatesOK(b, n)
    ensures ReadsOK(cfg, b, n.(gated := [])) && ReadStatesOK(b, n.(gated := []))
    ensures AllReadable(b, n.(gated := []), n.gated)
  {
    hide PendingOK, QueueOK;
  }

  lemma ReleaseGatedOK(cfg: Config, b: Book, n: Node) returns (b': Book)
    requires StepOK(cfg, b, n) && n.role.Leader?
    ensures n.prs.Keys == PeerSet(cfg)
    ensures StepOK(cfg, b', ReleaseGated(cfg, n)) && Frame(b, b', n.id)
  {
    hide StepOK, HistOK, HiddenOK, AsksOK, ReadsOK, ProgressesOK, LeadsOK, ReadStatesOK, AllReadable, HistFrame,
         ReadFrame, VotesOK;
    Facts(cfg, b, n);
    b' := b;
    FrameSelf(b, n.id);
    if CommittedInCurrentTerm(n) {
      LeaderFacts(cfg, b, n);
      LeaderReadStates(cfg, b, n);
      var n0 := n.(gated := []);
      DropGated(cfg, b, n);
      ReadsOnly(cfg, b, b, n, n0);
      b' := SendReadIndexesOK(cfg, b, n0, n.gated);
    }
  }
}
