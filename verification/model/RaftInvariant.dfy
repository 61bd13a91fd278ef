/** What a history says about one node and about one message, and why what is
    true of the other nodes and of messages already sent stays true when one
    node acts. */
module RaftInvariant {
  import opened RaftTypes
  import opened RaftHistory

  /** A read request on entry: the highest commit index any node had reached,
      and the number of elections won so far. */
  datatype Ask = Ask(floor: nat, ord: nat)

  /** A history together with what the proof remembers about reads and
      snapshots. `casts[(t, c)]` is the number of elections won before the
      leader of `t` first broadcast `c`; `hidden[x]` is a snapshot index node
      `x` has reached; `top` bounds every commit index reached so far. */
  datatype Book = Book(
    h: History,
    asks: map<(nat, Context), Ask>, casts: map<(nat, Context), nat>,
    hidden: map<NodeId, nat>, top: nat)

  ghost predicate AsksOK(b: Book) {
    && (forall t, c | (t, c) in b.asks ::
          t in b.h.el && b.asks[(t, c)].ord <= b.h.count && Reached(b.h, b.asks[(t, c)].ord, b.asks[(t, c)].floor))
    && (forall t, c | (t, c) in b.casts :: (t, c) in b.asks && b.casts[(t, c)] <= b.h.count)
    && Reached(b.h, b.h.count, b.top)
  }

  /** A leader of a later term has been elected. */
  predicate Superseded(h: History, t: nat) { exists t2 :: t2 in h.el && t2 > t }

  /** An acknowledgement beyond the end of the leader's log stays within what
      the acknowledging node holds as a durable snapshot of a later leader. */
  ghost predicate HiddenOK(b: Book) {
    forall x, t | (x, t) in b.h.claims && t in b.h.el && b.h.claims[(x, t)] > |b.h.el[t].log| ::
      x in b.hidden && b.h.claims[(x, t)] <= b.hidden[x] && Superseded(b.h, t)
  }

  ghost predicate BookOK(cfg: Config, b: Book) { HistOK(cfg, b.h) && AsksOK(b) && HiddenOK(b) }

  // ----- a node against a history -----

  predicate Shape(cfg: Config, n: Node) {
    && n.id in PeerSet(cfg) && n.prs.Keys == PeerSet(cfg)
    && n.snapIndex <= n.committed <= |n.log|
    && (n.lead != NONE ==> n.term >= 1)
    && !n.panicked
  }

  ghost predicate ClaimsOfOK(h: History, n: Node) {
    forall t | (n.id, t) in h.claims ::
      && t <= n.term && t in h.el
      && ClaimsOK(h, h.count, n.log, t, h.claims[(n.id, t)])
  }

  ghost predicate VotesOK(h: History, n: Node) {
    && (forall t | (n.id, t) in h.grants :: t <= n.term && (t == n.term ==> n.vote == h.grants[(n.id, t)].cand))
    && (n.vote != NONE ==> (n.id, n.term) in h.grants)
    && (forall t | (n.id, t) in h.bids :: t <= n.term)
    && (forall t | t in h.el && h.el[t].leader == n.id :: t <= n.term && (t == n.term ==> !n.role.Candidate?))
  }

  /** The leader of `t` has committed everything in `log`. */
  predicate SeenBy(h: History, log: Log, t: nat) {
    t in h.el && |log| <= h.el[t].commit && log <= h.el[t].log
  }

  ghost predicate SeenOK(h: History, n: Node)
    requires n.committed <= |n.log|
  {
    n.committed > 0 ==>
      exists t: nat :: SeenBy(h, n.log[..n.committed], t) && (t <= n.term || n.committed <= n.snapIndex)
  }

  predicate MarksOK(b: Book, n: Node) {
    n.committed <= b.top && n.id in b.hidden && b.hidden[n.id] <= n.snapIndex
  }

  predicate ClaimMade(h: History, f: NodeId, t: nat, i: nat) {
    i == 0 || ((f, t) in h.claims && h.claims[(f, t)] >= i)
  }

  predicate ProgressOK(h: History, n: Node, f: NodeId)
    requires f in n.prs
  {
    && ClaimMade(h, f, n.term, n.prs[f].matched)
    && n.prs[f].next >= 1
    && (n.prs[f].next <= |n.log| + 1 || ClaimMade(h, f, n.term, n.prs[f].next - 1))
  }

  predicate ProgressesOK(h: History, n: Node) {
    forall f | f in n.prs :: ProgressOK(h, n, f)
  }

  /** The history knows this node as the leader of its term. */
  predicate LeadsOK(h: History, n: Node) {
    && n.term >= 1 && n.term in h.el && h.el[n.term].leader == n.id
    && h.el[n.term].log == n.log && h.el[n.term].commit == n.committed
  }

  /** A leader of a later term than `t` was elected before time `n`. */
  ghost predicate Higher(h: History, t: nat, n: nat) {
    exists t2 :: t2 in h.el && t2 > t && h.el[t2].ord < n
  }

  ghost predicate NotVoted(h: History, v: NodeId, t: nat, n: nat) {
    forall t2 | t2 in h.el && t2 > t && h.el[t2].ord < n :: v !in h.el[t2].voters
  }

  ghost predicate PendingOK(cfg: Config, b: Book, t: nat, c: Context, s: ReadStatus) {
    && (t, c) in b.asks && (t, c) in b.casts
    && s.acks <= PeerSet(cfg)
    && (Higher(b.h, t, b.asks[(t, c)].ord) || s.index >= b.asks[(t, c)].floor)
    && (forall v | v in s.acks :: NotVoted(b.h, v, t, b.casts[(t, c)]))
  }

  ghost predicate QueueOK(b: Book, t: nat, ro: ReadOnly) {
    && (forall a | 0 <= a < |ro.queue| :: ro.queue[a] in ro.pending)
    && (forall a, c | 0 <= a < c < |ro.queue| :: ro.queue[a] != ro.queue[c])
    && (forall a, c | 0 <= a <= c < |ro.queue| ::
          && (t, ro.queue[a]) in b.asks && (t, ro.queue[c]) in b.casts
          && b.asks[(t, ro.queue[a])].ord <= b.casts[(t, ro.queue[c])])
  }

  ghost predicate ReadsOK(cfg: Config, b: Book, n: Node) {
    && (forall c | c in n.readOnly.pending :: c in n.readOnly.queue && PendingOK(cfg, b, n.term, c, n.readOnly.pending[c]))
    && QueueOK(b, n.term, n.readOnly)
    && (forall a | 0 <= a < |n.gated| :: (n.term, n.gated[a]) in b.asks && (n.term, n.gated[a]) !in b.casts)
    && (forall a, c | 0 <= a < c < |n.gated| :: n.gated[a] != n.gated[c])
    && (forall c | (n.term, c) in b.asks :: c in n.issued)
  }

  ghost predicate LeaderOK(cfg: Config, b: Book, n: Node) {
    LeadsOK(b.h, n) && ProgressesOK(b.h, n) && ReadsOK(cfg, b, n)
  }

  ghost predicate CandidateOK(h: History, n: Node)
    requires n.committed <= |n.log|
  {
    && (n.id, n.term) in h.bids && h.bids[(n.id, n.term)].log == n.log
    && (n.committed > 0 ==>
          exists t: nat :: SeenBy(h, n.log[..n.committed], t) && h.el[t].ord < h.bids[(n.id, n.term)].ord)
    && (forall v | v in n.votes && n.votes[v] :: (v, n.term) in h.grants && h.grants[(v, n.term)].cand == n.id)
  }

  ghost predicate ReadStatesOK(b: Book, n: Node) {
    forall a | 0 <= a < |n.readStates| ::
      && (n.term, n.readStates[a].context) in b.asks
      && n.readStates[a].index >= b.asks[(n.term, n.readStates[a].context)].floor
  }

  ghost predicate NodeOK(cfg: Config, b: Book, n: Node) {
    && Shape(cfg, n)
    && Prov(b.h, b.h.count, n.log)
    && ClaimsOfOK(b.h, n) && VotesOK(b.h, n) && SeenOK(b.h, n) && MarksOK(b, n)
    && (n.role.Leader? ==> LeaderOK(cfg, b, n))
    && (n.role.Candidate? ==> CandidateOK(b.h, n))
    && ReadStatesOK(b, n)
  }

  // ----- a message against a history -----

  function TermIn(log: Log, i: nat): nat
    requires i <= |log|
  {
    if i == 0 then 0 else log[i - 1].term
  }

  predicate AppendBodyOK(b: Book, m: Message)
    requires m.Append? && m.term in b.h.el
  {
    var log := b.h.el[m.term].log;
    || (m.logIndex + |m.entries| <= |log| && m.logTerm == TermIn(log, m.logIndex)
        && m.entries == log[m.logIndex..m.logIndex + |m.entries|])
    || (m.logIndex > 0 && m.logTerm == 0 && m.entries == [] && m.to in b.hidden && m.logIndex <= b.hidden[m.to]
        && Superseded(b.h, m.term))
  }

  /** Sent by the leader of its term. */
  predicate FromLeader(h: History, m: Message) {
    m.term in h.el && h.el[m.term].leader == m.from
  }

  ghost predicate MsgBodyOK(b: Book, m: Message) {
    match m
    case PreVote(_, _, _, _, _) => true
    case PreVoteResp(_, _, _, _) => true
    case Vote(from, _, term, logIndex, logTerm) =>
      && (from, term) in b.h.bids && logIndex == |b.h.bids[(from, term)].log|
      && logTerm == LastTerm(b.h.bids[(from, term)].log)
    case VoteResp(from, to, term, reject) =>
      !reject ==> (from, term) in b.h.grants && b.h.grants[(from, term)].cand == to
    case Append(_, _, term, _, _, _, commit) =>
      FromLeader(b.h, m) && commit <= b.h.el[term].commit && AppendBodyOK(b, m)
    case AppendResp(from, _, term, logIndex, reject, rejectHint, _) =>
      if reject then rejectHint <= logIndex else ClaimMade(b.h, from, term, logIndex)
    case Heartbeat(_, to, term, commit, context) =>
      && FromLeader(b.h, m) && commit <= b.h.el[term].commit && ClaimMade(b.h, to, term, commit)
      && (context != [] ==> (term, context) in b.casts)
    case HeartbeatResp(from, _, term, context) =>
      context != [] ==> (term, context) in b.casts && NotVoted(b.h, from, term, b.casts[(term, context)])
    case InstallSnapshot(_, _, term, prefix) =>
      FromLeader(b.h, m) && prefix != [] && SeenBy(b.h, prefix, term)
    case InstallSnapshotResp(from, _, term, logIndex) => ClaimMade(b.h, from, term, logIndex)
  }

  ghost predicate MsgOK(cfg: Config, b: Book, m: Message) {
    m.term >= 1 && m.from in PeerSet(cfg) && m.to in PeerSet(cfg) && MsgBodyOK(b, m)
  }

  ghost predicate MsgsOK(cfg: Config, b: Book, msgs: seq<Message>) {
    forall a | 0 <= a < |msgs| :: MsgOK(cfg, b, msgs[a])
  }

  /** Everything a handler of one node may rely on, and must re-establish. */
  ghost predicate StepOK(cfg: Config, b: Book, n: Node) {
    ValidConfig(cfg) && BookOK(cfg, b) && NodeOK(cfg, b, n) && MsgsOK(cfg, b, n.msgs)
  }

  // ----- growth -----

  ghost predicate BookExtends(b: Book, b': Book) {
    && Extends(b.h, b'.h) && b.top <= b'.top
    && (forall k | k in b.asks :: k in b'.asks && b'.asks[k] == b.asks[k])
    && (forall k | k in b.casts :: k in b'.casts && b'.casts[k] == b.casts[k])
    && (forall x | x in b.hidden :: x in b'.hidden && b'.hidden[x] >= b.hidden[x])
  }

  /** All growth is attributable to node `i`. */
  ghost predicate HistFrame(h: History, h': History, i: NodeId) {
    && (forall x, t | (x, t) in h'.claims && x != i :: (x, t) in h.claims && h'.claims[(x, t)] == h.claims[(x, t)])
    && (forall x, t | (x, t) in h'.grants && x != i :: (x, t) in h.grants)
    && (forall x, t | (x, t) in h'.bids && x != i :: (x, t) in h.bids)
    && (forall t | t in h'.el && h'.el[t].leader != i :: t in h.el && h'.el[t] == h.el[t])
  }

  ghost predicate ReadFrame(b: Book, b': Book, i: NodeId) {
    && (forall x | x in b'.hidden && x != i :: x in b.hidden && b'.hidden[x] == b.hidden[x])
    && (forall t, c | (t, c) in b'.asks && (t, c) !in b.asks :: t in b'.h.el && b'.h.el[t].leader == i)
    && (forall t, c | (t, c) in b'.casts && (t, c) !in b.casts :: t in b'.h.el && b'.h.el[t].leader == i)
  }

  ghost predicate Growth(b: Book, b': Book, i: NodeId) {
    BookExtends(b, b') && HistFrame(b.h, b'.h, i) && ReadFrame(b, b', i)
  }

  /** Growth without a new read request. */
  ghost predicate Frame(b: Book, b': Book, i: NodeId) { Growth(b, b', i) && b'.asks == b.asks }

  lemma FrameGrowth(b: Book, b': Book, i: NodeId)
    requires Frame(b, b', i)
    ensures Growth(b, b', i) && b'.asks == b.asks
  {
  }

  lemma FrameSelf(b: Book, i: NodeId)
    ensures Frame(b, b, i)
  {
  }

  lemma FrameTrans(a: Book, b: Book, c: Book, i: NodeId)
    requires Frame(a, b, i) && Frame(b, c, i)
    ensures Frame(a, c, i)
  {
    hide Growth;
    GrowthTrans(a, b, c, i);
  }

  lemma GrowthTrans(a: Book, b: Book, c: Book, i: NodeId)
    requires Growth(a, b, i) && Growth(b, c, i)
    ensures Growth(a, c, i)
  {
    ExtendsTrans(a.h, b.h, c.h);
    HistFrameTrans(a.h, b.h, c.h, i);
    ReadFrameTrans(a, b, c, i);
  }

  lemma HistFrameTrans(a: History, b: History, c: History, i: NodeId)
    requires HistFrame(a, b, i) && HistFrame(b, c, i)
    ensures HistFrame(a, c, i)
  {
  }

  lemma ReadFrameTrans(a: Book, b: Book, c: Book, i: NodeId)
    requires ReadFrame(a, b, i) && ReadFrame(b, c, i) && Extends(b.h, c.h)
    ensures ReadFrame(a, c, i)
  {
    forall t, k | (t, k) in c.asks && (t, k) !in a.asks
      ensures t in c.h.el && c.h.el[t].leader == i
    {
      if (t, k) in b.asks { assert t in b.h.el && ElectionGrows(b.h.el[t], c.h.el[t]); }
    }
    forall t, k | (t, k) in c.casts && (t, k) !in a.casts
      ensures t in c.h.el && c.h.el[t].leader == i
    {
      if (t, k) in b.casts { assert t in b.h.el && ElectionGrows(b.h.el[t], c.h.el[t]); }
    }
  }

  lemma ExtendsTrans(a: History, b: History, c: History)
    requires Extends(a, b) && Extends(b, c)
    ensures Extends(a, c)
  {
    forall t | t in a.el ensures t in c.el && ElectionGrows(a.el[t], c.el[t]) {
      assert t in b.el;
    }
    forall t | t in c.el && t !in a.el ensures c.el[t].ord >= a.count {
      if t in b.el { assert ElectionGrows(b.el[t], c.el[t]); }
    }
  }

  // ----- stability of the history's own invariants -----

  lemma LosesStable(cfg: Config, h: History, h': History, t2: nat, t: nat, m: nat)
    requires ElectionsOK(cfg, h) && ElectionsOK(cfg, h') && Extends(h, h') && Loses(h, t2, t, m)
    ensures Loses(h', t2, t, m)
  {
    hide ElectionsOK;
    var base := h.el[t2].base;
    assert ElectionGrows(h.el[t2], h'.el[t2]) && ElectionGrows(h.el[t], h'.el[t]);
    if m > |h.el[t].log| { NewEntriesLost(cfg, h, h', t2, t, m); }
  }

  /** A leader that is already elected does not start with entries another
      leader has yet to write. */
  lemma NewEntriesLost(cfg: Config, h: History, h': History, t2: nat, t: nat, m: nat)
    requires ElectionsOK(cfg, h) && ElectionsOK(cfg, h') && t in h.el && t2 in h.el && t in h'.el
    requires ElectionGrows(h.el[t], h'.el[t]) && |h.el[t].log| < m
    ensures !Has(h', h.el[t2].base, t, m)
  {
    hide ElectionsOK;
    var base := h.el[t2].base;
    BaseShorter(cfg, h, t);
    BaseProv(cfg, h, t2);
    if m <= |base| && base[m - 1].term == t {
      TermEntry(cfg, h, h.el[t2].ord, base, m - 1, t);
    }
    if m <= |h'.el[t].log| {
      OwnEntry(cfg, h', t, m - 1);
      assert h'.el[t].log[..m][m - 1].term == t;
    }
  }

  lemma BaseShorter(cfg: Config, h: History, t: nat)
    requires ElectionsOK(cfg, h) && t in h.el
    ensures |h.el[t].base| < |h.el[t].log|
  {
    assert ElectionOK(cfg, h, t);
  }

  lemma BaseProv(cfg: Config, h: History, t: nat)
    requires ElectionsOK(cfg, h) && t in h.el
    ensures Prov(h, h.el[t].ord, h.el[t].base)
  {
    assert ElectionOK(cfg, h, t);
  }

  lemma OwnEntry(cfg: Config, h: History, t: nat, p: nat)
    requires ElectionsOK(cfg, h) && t in h.el && |h.el[t].base| <= p < |h.el[t].log|
    ensures h.el[t].log[p].term == t
  {
    assert ElectionOK(cfg, h, t);
  }

  lemma ClaimStable(cfg: Config, h: History, h': History, n: nat, n': nat, log: Log, t: nat, m: nat)
    requires ElectionsOK(cfg, h) && ElectionsOK(cfg, h') && Extends(h, h') && n <= n'
    requires ClaimOK(h, n, log, t, m)
    ensures ClaimOK(h', n', log, t, m)
  {
    hide ElectionsOK;
    if Has(h, log, t, m) {
      assert ElectionGrows(h.el[t], h'.el[t]);
      assert h.el[t].log[..m] == h'.el[t].log[..m];
    } else {
      var t2 :| Loses(h, t2, t, m) && h.el[t2].ord < n;
      LosesStable(cfg, h, h', t2, t, m);
      assert h'.el[t2].ord < n';
    }
  }

  lemma ClaimsStable(cfg: Config, h: History, h': History, n: nat, n': nat, log: Log, t: nat, most: nat)
    requires ElectionsOK(cfg, h) && ElectionsOK(cfg, h') && Extends(h, h') && n <= n'
    requires ClaimsOK(h, n, log, t, most)
    ensures ClaimsOK(h', n', log, t, most)
  {
    forall m: nat | m <= most ensures ClaimOK(h', n', log, t, m) {
      ClaimStable(cfg, h, h', n, n', log, t, m);
    }
  }

  lemma CommittedStable(cfg: Config, h: History, h': History, t: nat, m: nat)
    requires Extends(h, h') && Committed(cfg, h, t, m)
    ensures Committed(cfg, h', t, m)
  {
    assert ElectionGrows(h.el[t], h'.el[t]);
    assert Claimants(cfg, h, t, m) <= Claimants(cfg, h', t, m);
    SubsetSize(Claimants(cfg, h, t, m), Claimants(cfg, h', t, m));
  }

  lemma BackedStable(cfg: Config, h: History, h': History, t: nat, log: Log)
    requires Extends(h, h') && Backed(cfg, h, t, log)
    ensures Backed(cfg, h', t, log)
  {
    if log != [] {
      var t0: nat, m: nat :| t0 <= t && CommittedBy(cfg, h, t0, m, log);
      CommittedStable(cfg, h, h', t0, m);
      assert ElectionGrows(h.el[t0], h'.el[t0]);
      PrefixTake(h.el[t0].log, h'.el[t0].log, m);
      assert CommittedBy(cfg, h', t0, m, log);
    }
  }

  lemma ReachedStable(h: History, h': History, n: nat, i: nat)
    requires Extends(h, h') && Reached(h, n, i)
    ensures Reached(h', n, i)
  {
    if i > 0 {
      var t :| t in h.el && h.el[t].ord < n && i <= h.el[t].commit;
      assert ElectionGrows(h.el[t], h'.el[t]);
      assert t in h'.el && h'.el[t].ord < n && i <= h'.el[t].commit;
    }
  }

  ghost predicate SameClaimsBelow(h: History, h': History, v: NodeId, t: nat) {
    forall t0 | (v, t0) in h'.claims && t0 < t :: (v, t0) in h.claims && h'.claims[(v, t0)] == h.claims[(v, t0)]
  }

  lemma GrantStable(cfg: Config, h: History, h': History, v: NodeId, t: nat)
    requires ElectionsOK(cfg, h) && ElectionsOK(cfg, h') && Extends(h, h')
    requires (v, t) in h.grants && GrantOK(cfg, h, v, t) && SameClaimsBelow(h, h', v, t)
    ensures GrantOK(cfg, h', v, t)
  {
    var g := h.grants[(v, t)];
    ProvStable(h, h', g.ord, g.ord, g.log);
    forall t0 | (v, t0) in h'.claims && t0 < t
      ensures ClaimsOK(h', g.ord, g.log, t0, h'.claims[(v, t0)])
    {
      ClaimsStable(cfg, h, h', g.ord, g.ord, g.log, t0, h.claims[(v, t0)]);
    }
  }

  lemma GrantsStable(cfg: Config, h: History, h': History)
    requires ElectionsOK(cfg, h) && ElectionsOK(cfg, h') && Extends(h, h') && GrantsOK(cfg, h)
    requires forall v, t | (v, t) in h.grants :: SameClaimsBelow(h, h', v, t)
    requires forall v, t | (v, t) in h'.grants && (v, t) !in h.grants :: GrantOK(cfg, h', v, t)
    ensures GrantsOK(cfg, h')
  {
    forall v, t | (v, t) in h'.grants ensures GrantOK(cfg, h', v, t) {
      if (v, t) in h.grants {
        assert GrantOK(cfg, h, v, t) && SameClaimsBelow(h, h', v, t);
        GrantStable(cfg, h, h', v, t);
      }
    }
  }

  /** No vote cast since then goes to a campaign that its voter had already
      passed over. */
  predicate NewVotesFree(h: History, h': History, c: NodeId, t: nat)
    requires (c, t) in h.bids
  {
    forall v, t2 | (v, t) in h'.grants && (v, t) !in h.grants && h'.grants[(v, t)].cand == c
      && t2 in h.el && t2 >= t && h.el[t2].ord < h.bids[(c, t)].ord :: v !in h.el[t2].voters
  }

  lemma BidStable(h: History, h': History, c: NodeId, t: nat)
    requires Extends(h, h') && (c, t) in h.bids && BidOK(h, c, t) && NewVotesFree(h, h', c, t)
    ensures BidOK(h', c, t)
  {
    var b := h.bids[(c, t)];
    ProvStable(h, h', b.ord, b.ord, b.log);
    forall t2 | t2 in h'.el && h'.el[t2].ord < b.ord && t2 >= t
      ensures Blocked(h', c, t, t2)
    {
      assert t2 in h.el && ElectionGrows(h.el[t2], h'.el[t2]);
      assert Blocked(h, c, t, t2);
    }
  }

  lemma BidsStable(h: History, h': History)
    requires Extends(h, h') && BidsOK(h)
    requires forall c, t | (c, t) in h.bids :: NewVotesFree(h, h', c, t)
    requires forall c, t | (c, t) in h'.bids && (c, t) !in h.bids :: BidOK(h', c, t)
    ensures BidsOK(h')
  {
    forall c, t | (c, t) in h'.bids ensures BidOK(h', c, t) {
      if (c, t) in h.bids {
        assert BidOK(h, c, t) && NewVotesFree(h, h', c, t);
        BidStable(h, h', c, t);
      }
    }
  }

  ghost predicate NewCommitsBacked(cfg: Config, h: History, h': History) {
    forall t | t in h'.el && (t !in h.el || h'.el[t].commit != h.el[t].commit) ::
      h'.el[t].commit <= |h'.el[t].log| && Backed(cfg, h', t, h'.el[t].log[..h'.el[t].commit])
  }

  lemma CommitsStable(cfg: Config, h: History, h': History)
    requires ElectionsOK(cfg, h) && ElectionsOK(cfg, h') && Extends(h, h') && CommitsOK(cfg, h)
    requires NewCommitsBacked(cfg, h, h')
    ensures CommitsOK(cfg, h')
  {
    forall t | t in h'.el
      ensures h'.el[t].commit <= |h'.el[t].log| && Backed(cfg, h', t, h'.el[t].log[..h'.el[t].commit])
    {
      if t in h.el && h'.el[t].commit == h.el[t].commit {
        assert ElectionGrows(h.el[t], h'.el[t]);
        PrefixTake(h.el[t].log, h'.el[t].log, h.el[t].commit);
        BackedStable(cfg, h, h', t, h.el[t].log[..h.el[t].commit]);
      }
    }
  }

  /** Elections whose log did not change stay in order; the others are argued for. */
  lemma ElectionsStable(cfg: Config, h: History, h': History)
    requires ElectionsOK(cfg, h) && Extends(h, h')
    requires forall t | t in h'.el :: ElectionOK(cfg, h', t) ||
               (t in h.el && h'.el[t].log == h.el[t].log
                && (h'.el[t].commit == h.el[t].commit || h'.el[t].commit <= |h.el[t].log|))
    ensures ElectionsOK(cfg, h')
  {
    forall t | t in h'.el ensures ElectionOK(cfg, h', t) {
      if !ElectionOK(cfg, h', t) { ElectionStable(cfg, h, h', t); }
    }
  }

  lemma ElectionStable(cfg: Config, h: History, h': History, t: nat)
    requires t in h.el && ElectionOK(cfg, h, t) && Extends(h, h')
    requires h'.el[t].log == h.el[t].log && (h'.el[t].commit == h.el[t].commit || h'.el[t].commit <= |h.el[t].log|)
    ensures t in h'.el && ElectionOK(cfg, h', t)
  {
    assert ElectionGrows(h.el[t], h'.el[t]);
    ProvStable(h, h', h.el[t].ord, h'.el[t].ord, h.el[t].base);
  }

  lemma SupersededStays(h: History, h': History, t: nat)
    requires Extends(h, h')
    ensures Superseded(h, t) ==> Superseded(h', t)
  {
    if t2 :| t2 in h.el && t2 > t { assert t2 in h'.el; }
  }

  lemma HiddenStable(b: Book, b': Book)
    requires HiddenOK(b) && BookExtends(b, b')
    requires forall x, t | (x, t) in b'.h.claims && t in b'.h.el && b'.h.claims[(x, t)] > |b'.h.el[t].log| ::
               && (x, t) in b.h.claims && t in b.h.el && b'.h.claims[(x, t)] == b.h.claims[(x, t)]
    ensures HiddenOK(b')
  {
    forall x, t | (x, t) in b'.h.claims && t in b'.h.el && b'.h.claims[(x, t)] > |b'.h.el[t].log|
      ensures x in b'.hidden && b'.h.claims[(x, t)] <= b'.hidden[x] && Superseded(b'.h, t)
    {
      assert ElectionGrows(b.h.el[t], b'.h.el[t]);
      SupersededStays(b.h, b'.h, t);
    }
  }

  /** The reading side when only the history grew. */
  lemma AsksStable(b: Book, b': Book)
    requires AsksOK(b) && Extends(b.h, b'.h) && b'.asks == b.asks && b'.casts == b.casts
    requires Reached(b'.h, b'.h.count, b'.top)
    ensures AsksOK(b')
  {
    forall t, c | (t, c) in b'.asks
      ensures t in b'.h.el && b'.asks[(t, c)].ord <= b'.h.count
      ensures Reached(b'.h, b'.asks[(t, c)].ord, b'.asks[(t, c)].floor)
    {
      ReachedStable(b.h, b'.h, b.asks[(t, c)].ord, b.asks[(t, c)].floor);
    }
  }

  lemma ReachedLater(h: History, n: nat, n': nat, i: nat)
    requires Reached(h, n, i) && n <= n'
    ensures Reached(h, n', i)
  {
  }

  // ----- stability of what is said about messages and nodes -----

  lemma NotVotedStable(h: History, h': History, v: NodeId, t: nat, n: nat)
    requires Extends(h, h') && NotVoted(h, v, t, n) && n <= h.count
    ensures NotVoted(h', v, t, n)
  {
    forall t2 | t2 in h'.el && t2 > t && h'.el[t2].ord < n ensures v !in h'.el[t2].voters {
      assert t2 in h.el && ElectionGrows(h.el[t2], h'.el[t2]);
    }
  }

  lemma MsgStable(cfg: Config, b: Book, b': Book, m: Message)
    requires BookExtends(b, b') && AsksOK(b) && MsgOK(cfg, b, m)
    ensures MsgOK(cfg, b', m)
  {
    if m.term in b.h.el { assert ElectionGrows(b.h.el[m.term], b'.h.el[m.term]); }
    match m {
      case Append(_, _, term, _, _, _, _) => SupersededStays(b.h, b'.h, term);
      case HeartbeatResp(from, _, term, context) =>
        if context != [] { NotVotedStable(b.h, b'.h, from, term, b.casts[(term, context)]); }
      case _ =>
    }
  }

  lemma MsgsStable(cfg: Config, b: Book, b': Book, msgs: seq<Message>)
    requires BookExtends(b, b') && AsksOK(b) && MsgsOK(cfg, b, msgs)
    ensures MsgsOK(cfg, b', msgs)
  {
    forall a | 0 <= a < |msgs| ensures MsgOK(cfg, b', msgs[a]) {
      MsgStable(cfg, b, b', msgs[a]);
    }
  }

  lemma SeenStable(h: History, h': History, log: Log, t: nat)
    requires Extends(h, h') && SeenBy(h, log, t)
    ensures SeenBy(h', log, t) && h'.el[t].ord == h.el[t].ord
  {
    assert ElectionGrows(h.el[t], h'.el[t]);
  }

  lemma SeenOKStable(h: History, h': History, n: Node)
    requires Extends(h, h') && n.committed <= |n.log| && SeenOK(h, n)
    ensures SeenOK(h', n)
  {
    if n.committed > 0 {
      var t: nat :| SeenBy(h, n.log[..n.committed], t) && (t <= n.term || n.committed <= n.snapIndex);
      SeenStable(h, h', n.log[..n.committed], t);
    }
  }

  lemma ProvStable(h: History, h': History, n: nat, n': nat, log: Log)
    requires Extends(h, h') && Prov(h, n, log) && n <= n'
    ensures Prov(h', n', log)
  {
    if log != [] { assert ElectionGrows(h.el[LastTerm(log)], h'.el[LastTerm(log)]); }
  }

  lemma PendingStable(cfg: Config, b: Book, b': Book, t: nat, c: Context, s: ReadStatus)
    requires BookExtends(b, b') && AsksOK(b) && PendingOK(cfg, b, t, c, s)
    ensures PendingOK(cfg, b', t, c, s)
  {
    if Higher(b.h, t, b.asks[(t, c)].ord) {
      var t2 :| t2 in b.h.el && t2 > t && b.h.el[t2].ord < b.asks[(t, c)].ord;
      assert ElectionGrows(b.h.el[t2], b'.h.el[t2]);
      assert t2 in b'.h.el && t2 > t && b'.h.el[t2].ord < b'.asks[(t, c)].ord;
    }
    forall v | v in s.acks ensures NotVoted(b'.h, v, t, b'.casts[(t, c)]) {
      NotVotedStable(b.h, b'.h, v, t, b.casts[(t, c)]);
    }
  }

  lemma CandidateStable(h: History, h': History, n: Node)
    requires Extends(h, h') && n.committed <= |n.log| && CandidateOK(h, n)
    ensures CandidateOK(h', n)
  {
    if n.committed > 0 {
      var t: nat :| SeenBy(h, n.log[..n.committed], t) && h.el[t].ord < h.bids[(n.id, n.term)].ord;
      SeenStable(h, h', n.log[..n.committed], t);
    }
  }

  lemma ClaimsOfStable(cfg: Config, h: History, h': History, n: Node)
    requires ElectionsOK(cfg, h) && ElectionsOK(cfg, h') && Extends(h, h') && ClaimsOfOK(h, n)
    requires forall t | (n.id, t) in h'.claims :: (n.id, t) in h.claims && h'.claims[(n.id, t)] == h.claims[(n.id, t)]
    ensures ClaimsOfOK(h', n)
  {
    forall t | (n.id, t) in h'.claims
      ensures t <= n.term && t in h'.el && ClaimsOK(h', h'.count, n.log, t, h'.claims[(n.id, t)])
    {
      assert ElectionGrows(h.el[t], h'.el[t]);
      ClaimsStable(cfg, h, h', h.count, h'.count, n.log, t, h.claims[(n.id, t)]);
    }
  }

  lemma ReadsStable(cfg: Config, b: Book, b': Book, n: Node)
    requires BookExtends(b, b') && AsksOK(b) && ReadsOK(cfg, b, n)
    requires forall c | (n.term, c) in b'.asks :: (n.term, c) in b.asks
    requires forall c | (n.term, c) in b'.casts :: (n.term, c) in b.casts
    ensures ReadsOK(cfg, b', n)
  {
    forall c | c in n.readOnly.pending
      ensures c in n.readOnly.queue && PendingOK(cfg, b', n.term, c, n.readOnly.pending[c])
    {
      PendingStable(cfg, b, b', n.term, c, n.readOnly.pending[c]);
    }
  }

  lemma ProgressesStable(h: History, h': History, n: Node)
    requires Extends(h, h') && ProgressesOK(h, n)
    ensures ProgressesOK(h', n)
  {
    forall f | f in n.prs ensures ProgressOK(h', n, f) {
      assert ProgressOK(h, n, f);
    }
  }

  lemma ReadStatesStable(b: Book, b': Book, n: Node)
    requires BookExtends(b, b') && ReadStatesOK(b, n)
    ensures ReadStatesOK(b', n)
  {
  }

  lemma OtherVotesStable(h: History, h': History, i: NodeId, n: Node)
    requires Extends(h, h') && HistFrame(h, h', i) && n.id != i && VotesOK(h, n)
    ensures VotesOK(h', n)
  {
  }

  lemma OtherLeaderStable(cfg: Config, b: Book, b': Book, i: NodeId, n: Node)
    requires Growth(b, b', i) && n.id != i && AsksOK(b) && LeaderOK(cfg, b, n)
    ensures LeaderOK(cfg, b', n)
  {
    assert ElectionGrows(b.h.el[n.term], b'.h.el[n.term]);
    ProgressesStable(b.h, b'.h, n);
    ReadsStable(cfg, b, b', n);
  }

  /** What holds of a node still holds when another node acts. */
  lemma OtherNodeStable(cfg: Config, b: Book, b': Book, i: NodeId, n: Node)
    requires ElectionsOK(cfg, b.h) && AsksOK(b) && ElectionsOK(cfg, b'.h) && Growth(b, b', i)
    requires NodeOK(cfg, b, n) && n.id != i
    ensures NodeOK(cfg, b', n)
  {
    ProvStable(b.h, b'.h, b.h.count, b'.h.count, n.log);
    ClaimsOfStable(cfg, b.h, b'.h, n);
    SeenOKStable(b.h, b'.h, n);
    if n.role.Candidate? { CandidateStable(b.h, b'.h, n); }
    if n.role.Leader? { OtherLeaderStable(cfg, b, b', i, n); }
    OtherVotesStable(b.h, b'.h, i, n);
    ReadStatesStable(b, b', n);
  }
}
