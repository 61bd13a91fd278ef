/** The invariant of the whole cluster, along every run. */
module RaftRuns {
  import opened RaftTypes
  import opened RaftCore
  import opened RaftHistory
  import opened RaftInvariant
  import opened RaftSystem
  import opened RaftSteps
  import opened RaftTear
  import opened RaftSteady

  ghost predicate IdleOK(cfg: Config, b: Book, id: NodeId, n: Node) {
    n.id == id && n.msgs == [] && n.readStates == [] && NodeOK(cfg, b, n)
  }

  ghost predicate SysOK(cfg: Config, s: System, b: Book) {
    && ValidConfig(cfg) && BookOK(cfg, b)
    && s.nodes.Keys == PeerSet(cfg)
    && (forall id | id in s.nodes :: IdleOK(cfg, b, id, s.nodes[id]))
    && (forall m | m in s.net :: MsgOK(cfg, b, m))
  }

  /** The read requests an action adds. */
  function AsksAfter(s: System, a: Action, b: Book): map<(nat, Context), Ask>
    requires a.id in s.nodes
  {
    var n := s.nodes[a.id];
    if a.Act? && a.input.Read? && n.role.Leader? then b.asks[(n.term, a.input.ctx) := Ask(b.top, b.h.count)] else b.asks
  }

  /** Every read an action releases was asked for in the releaser's term, and is
      answered at or above what was committed anywhere when it was asked. */
  predicate ReleasesOK(cfg: Config, s: System, a: Action, b: Book)
    requires ValidConfig(cfg) && Enabled(cfg, s, a) && a.id in s.nodes
  {
    a.Act? ==>
      var r := Handle(cfg, s.nodes[a.id], a.input);
      forall i | 0 <= i < |r.readStates| ::
        && (r.term, r.readStates[i].context) in b.asks
        && r.readStates[i].index >= b.asks[(r.term, r.readStates[i].context)].floor
  }

  ghost predicate StepBooks(cfg: Config, s: System, a: Action, b: Book, b': Book) {
    && ValidConfig(cfg) && Enabled(cfg, s, a) && a.id in s.nodes
    && BookExtends(b, b') && b'.asks == AsksAfter(s, a, b) && ReleasesOK(cfg, s, a, b')
  }

  // ----- one action -----

  lemma IdleStep(cfg: Config, s: System, b: Book, id: NodeId)
    requires SysOK(cfg, s, b) && id in s.nodes
    ensures StepOK(cfg, b, s.nodes[id]) && s.nodes[id].readStates == [] && s.nodes[id].msgs == []
    ensures s.nodes[id].id == id
  {
    hide BookOK, NodeOK, MsgOK;
    assert IdleOK(cfg, b, id, s.nodes[id]);
  }

  lemma DrainOK(cfg: Config, b: Book, n: Node)
    requires NodeOK(cfg, b, n)
    ensures IdleOK(cfg, b, n.id, Drained(n))
  {
    hide ClaimsOK, Prov, PendingOK, QueueOK;
    var n' := Drained(n);
    assert n'.log[..n'.committed] == n.log[..n.committed];
    if n.role.Leader? {
      assert ProgressesOK(b.h, n') by {
        forall f | f in n'.prs ensures ProgressOK(b.h, n', f) { assert ProgressOK(b.h, n, f); }
      }
      assert ReadsOK(cfg, b, n');
    }
  }

  lemma BookElections(cfg: Config, b: Book)
    requires BookOK(cfg, b)
    ensures ElectionsOK(cfg, b.h) && AsksOK(b)
  {
  }

  lemma OthersOK(cfg: Config, s: System, b: Book, b': Book, id: NodeId, x: NodeId)
    requires SysOK(cfg, s, b) && BookOK(cfg, b') && Growth(b, b', id) && x in s.nodes && x != id
    ensures IdleOK(cfg, b', x, s.nodes[x])
  {
    hide BookOK, NodeOK, MsgOK, Growth, ElectionsOK, AsksOK;
    assert IdleOK(cfg, b, x, s.nodes[x]);
    BookElections(cfg, b);
    BookElections(cfg, b');
    OtherNodeStable(cfg, b, b', id, s.nodes[x]);
  }

  lemma NetOK(cfg: Config, net: set<Message>, msgs: seq<Message>, b: Book, b': Book)
    requires AsksOK(b) && BookExtends(b, b')
    requires (forall m | m in net :: MsgOK(cfg, b, m)) && MsgsOK(cfg, b', msgs)
    ensures forall m | m in net + Sent(msgs) :: MsgOK(cfg, b', m)
  {
    hide MsgOK, AsksOK, BookExtends;
    forall m | m in net ensures MsgOK(cfg, b', m) { MsgStable(cfg, b, b', m); }
  }

  lemma GrowthExtends(b: Book, b': Book, id: NodeId)
    requires Growth(b, b', id)
    ensures BookExtends(b, b')
  {
  }

  lemma ReplaceOK(cfg: Config, s: System, b: Book, b': Book, n': Node, s': System)
    requires SysOK(cfg, s, b) && n'.id in s.nodes && StepOK(cfg, b', n') && Growth(b, b', n'.id)
    requires s' == System(s.nodes[n'.id := Drained(n')], s.net + Sent(n'.msgs))
    ensures SysOK(cfg, s', b') && BookExtends(b, b')
  {
    hide BookOK, NodeOK, MsgOK, Growth, AsksOK, BookExtends, IdleOK;
    forall x | x in s'.nodes ensures IdleOK(cfg, b', x, s'.nodes[x]) {
      if x == n'.id { DrainOK(cfg, b', n'); } else { OthersOK(cfg, s, b, b', n'.id, x); }
    }
    GrowthExtends(b, b', n'.id);
    BookElections(cfg, b);
    NetOK(cfg, s.net, n'.msgs, b, b');
  }

  lemma IdReleases(cfg: Config, b: Book, n: Node)
    requires NodeOK(cfg, b, n)
    ensures ReadStatesOK(b, n)
  {
  }

  lemma StepNode(cfg: Config, b: Book, n: Node)
    requires StepOK(cfg, b, n)
    ensures ValidConfig(cfg) && BookOK(cfg, b) && NodeOK(cfg, b, n) && Sound(cfg, n) && Shape(cfg, n)
  {
  }

  lemma MessageTerm(cfg: Config, s: System, b: Book, m: Message)
    requires SysOK(cfg, s, b) && m in s.net
    ensures MsgOK(cfg, b, m) && m.term >= 1
  {
  }

  lemma ActOK(cfg: Config, s: System, b: Book, id: NodeId, input: Input) returns (b': Book)
    requires SysOK(cfg, s, b) && ValidConfig(cfg) && CanInput(cfg, s, id, input)
    ensures SysOK(cfg, Next(cfg, s, Act(id, input)), b') && StepBooks(cfg, s, Act(id, input), b, b')
    ensures Steady(s.nodes[id], Next(cfg, s, Act(id, input)).nodes[id])
  {
    hide SysOK, StepOK, BookOK, NodeOK, MsgOK, Growth, Handle, BookExtends;
    IdleStep(cfg, s, b, id);
    var n := s.nodes[id];
    StepNode(cfg, b, n);
    if input.Receive? { MessageTerm(cfg, s, b, input.m); }
    b' := HandleOK(cfg, b, n, input);
    HandleSteady(cfg, n, input);
    var n' := Handle(cfg, n, input);
    ReplaceOK(cfg, s, b, b', n', Next(cfg, s, Act(id, input)));
    StepNode(cfg, b', n');
    IdReleases(cfg, b', n');
  }

  lemma QuietOK(cfg: Config, s: System, b: Book, b': Book, n': Node, s': System)
    requires SysOK(cfg, s, b) && n'.id in s.nodes && StepOK(cfg, b', n') && Frame(b, b', n'.id)
    requires n'.msgs == [] && n'.readStates == [] && s' == s.(nodes := s.nodes[n'.id := n'])
    ensures SysOK(cfg, s', b') && BookExtends(b, b') && b'.asks == b.asks
  {
    hide SysOK, StepOK, Frame, Growth, BookExtends;
    FrameGrowth(b, b', n'.id);
    assert Drained(n') == n';
    assert Sent(n'.msgs) == {};
    assert s' == System(s.nodes[n'.id := Drained(n')], s.net + Sent(n'.msgs));
    ReplaceOK(cfg, s, b, b', n', s');
  }

  lemma CompactStep(cfg: Config, s: System, b: Book, id: NodeId, index: nat)
    requires SysOK(cfg, s, b) && ValidConfig(cfg) && Enabled(cfg, s, Compact(id, index))
    ensures SysOK(cfg, Next(cfg, s, Compact(id, index)), b) && BookExtends(b, b)
  {
    hide SysOK, BookOK, NodeOK, Frame, BookExtends;
    IdleStep(cfg, s, b, id);
    CompactOK(cfg, b, s.nodes[id], index);
    FrameSelf(b, id);
    QuietOK(cfg, s, b, b, s.nodes[id].(snapIndex := index), Next(cfg, s, Compact(id, index)));
  }

  lemma CrashStep(cfg: Config, s: System, b: Book, id: NodeId, commit: nat) returns (b': Book)
    requires SysOK(cfg, s, b) && ValidConfig(cfg) && Enabled(cfg, s, Crash(id, commit))
    ensures SysOK(cfg, Next(cfg, s, Crash(id, commit)), b') && BookExtends(b, b') && b'.asks == b.asks
    ensures Steady(s.nodes[id], Next(cfg, s, Crash(id, commit)).nodes[id])
  {
    hide SysOK, StepOK, BookOK, NodeOK, Frame, BookExtends, DurableBook;
    IdleStep(cfg, s, b, id);
    var n := s.nodes[id];
    RecoverOK(cfg, b, n, n.log, n.snapIndex, commit, 0);
    b' := DurableBook(b, n, n.snapIndex);
    QuietOK(cfg, s, b, b', Recovered(cfg, n, n.log, n.snapIndex, commit), Next(cfg, s, Crash(id, commit)));
  }

  lemma TearStep(cfg: Config, s: System, b: Book, id: NodeId, input: Input, keep: nat, commit: nat) returns (b': Book)
    requires SysOK(cfg, s, b) && ValidConfig(cfg) && |cfg.peers| > 1 && Enabled(cfg, s, Tear(id, input, keep, commit))
    ensures SysOK(cfg, Next(cfg, s, Tear(id, input, keep, commit)), b') && BookExtends(b, b') && b'.asks == b.asks
    ensures Steady(s.nodes[id], Next(cfg, s, Tear(id, input, keep, commit)).nodes[id])
  {
    hide SysOK, StepOK, BookOK, NodeOK, MsgOK, Frame, BookExtends, Handle;
    IdleStep(cfg, s, b, id);
    var n := s.nodes[id];
    if input.Receive? { MessageTerm(cfg, s, b, input.m); }
    NewLeaderKeepsTerm(cfg, n, input);
    b' := TearOK(cfg, b, n, input, keep, commit);
    QuietOK(cfg, s, b, b', Torn(cfg, n, Handle(cfg, n, input), keep, commit), Next(cfg, s, Tear(id, input, keep, commit)));
  }

  lemma NextOK(cfg: Config, s: System, b: Book, a: Action) returns (b': Book)
    requires SysOK(cfg, s, b) && ValidConfig(cfg) && |cfg.peers| > 1 && Enabled(cfg, s, a)
    ensures SysOK(cfg, Next(cfg, s, a), b') && StepBooks(cfg, s, a, b, b')
    ensures Steady(s.nodes[a.id], Next(cfg, s, a).nodes[a.id])
  {
    hide SysOK, BookExtends, Handle, Recovered, Torn, CanTear;
    match a
    case Act(id, input) => b' := ActOK(cfg, s, b, id, input);
    case Compact(id, index) =>
      b' := b;
      CompactStep(cfg, s, b, id, index);
    case Crash(id, commit) => b' := CrashStep(cfg, s, b, id, commit);
    case Tear(id, input, keep, commit) => b' := TearStep(cfg, s, b, id, input, keep, commit);
  }

  // ----- the start -----

  function FirstBook(cfg: Config): Book {
    Book(History(map[], 0, map[], map[], map[]), map[], map[], map id | id in PeerSet(cfg) :: 0, 0)
  }

  lemma FirstBookOK(cfg: Config)
    ensures BookOK(cfg, FirstBook(cfg))
  {
  }

  lemma FirstNodeOK(cfg: Config, id: NodeId)
    requires id in PeerSet(cfg)
    ensures IdleOK(cfg, FirstBook(cfg), id, Recover(cfg, id, 0, NONE, [], 0, 0))
  {
  }

  lemma InitOK(cfg: Config)
    requires ValidConfig(cfg)
    ensures SysOK(cfg, Init(cfg), FirstBook(cfg))
  {
    hide BookOK, IdleOK, Recover, FirstBook;
    FirstBookOK(cfg);
    forall id | id in PeerSet(cfg) ensures IdleOK(cfg, FirstBook(cfg), id, Recover(cfg, id, 0, NONE, [], 0, 0)) {
      FirstNodeOK(cfg, id);
    }
  }

  // ----- whole runs -----

  ghost predicate BooksOK(cfg: Config, run: seq<System>, acts: seq<Action>, books: seq<Book>) {
    && |run| == |books| == |acts| + 1
    && (forall k | 0 <= k < |run| :: SysOK(cfg, run[k], books[k]))
    && (forall k | 0 <= k < |acts| :: StepBooks(cfg, run[k], acts[k], books[k], books[k + 1]))
  }

  predicate NodesSteady(s: System, s': System) {
    s'.nodes.Keys == s.nodes.Keys && forall x | x in s.nodes :: Steady(s.nodes[x], s'.nodes[x])
  }

  lemma StepNodesSteady(cfg: Config, s: System, b: Book, a: Action)
    requires SysOK(cfg, s, b) && ValidConfig(cfg) && |cfg.peers| > 1 && Enabled(cfg, s, a)
    ensures NodesSteady(s, Next(cfg, s, a))
  {
    hide SysOK, Handle, Recovered, Torn, CanTear;
    var b' := NextOK(cfg, s, b, a);
  }

  /** Every run of more than one node has a history that explains each of its states. */
  lemma {:induction false} RunOK(cfg: Config, run: seq<System>, acts: seq<Action>) returns (books: seq<Book>)
    requires IsRun(cfg, run, acts) && |cfg.peers| > 1
    ensures BooksOK(cfg, run, acts, books) && books[0] == FirstBook(cfg)
    decreases |acts|
  {
    hide SysOK, StepBooks, Enabled, Next, Init;
    if acts == [] {
      InitOK(cfg);
      books := [FirstBook(cfg)];
    } else {
      var k := |acts| - 1;
      var before := RunOK(cfg, run[..k + 1], acts[..k]);
      var b' := NextOK(cfg, run[k], before[k], acts[k]);
      books := before + [b'];
    }
  }

  lemma ExtendsSelf(b: Book)
    ensures BookExtends(b, b)
  {
  }

  lemma BookExtendsTrans(a: Book, b: Book, c: Book)
    requires BookExtends(a, b) && BookExtends(b, c)
    ensures BookExtends(a, c)
  {
    ExtendsTrans(a.h, b.h, c.h);
  }

  lemma StepExtends(cfg: Config, s: System, a: Action, b: Book, b': Book)
    requires StepBooks(cfg, s, a, b, b')
    ensures BookExtends(b, b')
  {
  }

  lemma {:induction false} BooksGrow(cfg: Config, run: seq<System>, acts: seq<Action>, books: seq<Book>, j: nat, k: nat)
    requires BooksOK(cfg, run, acts, books) && j <= k < |run|
    ensures BookExtends(books[j], books[k])
    decreases k
  {
    hide SysOK, BookExtends, StepBooks;
    if j == k {
      ExtendsSelf(books[j]);
    } else {
      BooksGrow(cfg, run, acts, books, j, k - 1);
      StepExtends(cfg, run[k - 1], acts[k - 1], books[k - 1], books[k]);
      BookExtendsTrans(books[j], books[k - 1], books[k]);
    }
  }
}
