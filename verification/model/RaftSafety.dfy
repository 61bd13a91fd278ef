/** What every run of the cluster guarantees: Figure 3 of the extended Raft
    paper, durability of committed entries, progress tracking, and the safety of
    reads (section 6.4 of Ongaro's dissertation). All statements relate states at
    any two moments of one run, across crashes, torn writes and compaction. */
module RaftSafety {
  import opened RaftTypes
  import opened RaftHistory
  import opened RaftInvariant
  import opened RaftReads
  import opened RaftFollower
  import opened RaftSystem
  import opened RaftSteady
  import opened RaftRuns
  import opened RaftSolo
  import B = RaftBacktrack

  predicate IsNode(run: seq<System>, k: nat, x: NodeId) { k < |run| && x in run[k].nodes }

  predicate Leads(run: seq<System>, k: nat, x: NodeId) { IsNode(run, k, x) && run[k].nodes[x].role.Leader? }

  function NodeAt(run: seq<System>, k: nat, x: NodeId): Node
    requires IsNode(run, k, x)
  {
    run[k].nodes[x]
  }

  /** The entries a node has committed. */
  function CommittedLog(n: Node): Log { if n.committed <= |n.log| then n.log[..n.committed] else n.log }

  // ----- reading one state against the final history -----

  lemma StateAt(cfg: Config, run: seq<System>, acts: seq<Action>, books: seq<Book>, k: nat, x: NodeId)
    requires BooksOK(cfg, run, acts, books) && IsNode(run, k, x)
    ensures ValidConfig(cfg) && BookOK(cfg, books[k]) && NodeOK(cfg, books[k], NodeAt(run, k, x))
    ensures NodeAt(run, k, x).id == x
  {
    hide StepBooks, BookOK, NodeOK, MsgOK;
    assert SysOK(cfg, run[k], books[k]);
    assert IdleOK(cfg, books[k], x, run[k].nodes[x]);
  }

  /** Facts about a node that outlive the moment they were observed. */
  ghost predicate Observed(cfg: Config, h: History, n: Node) {
    && n.snapIndex <= n.committed <= |n.log|
    && Prov(h, h.count, n.log)
    && (n.committed > 0 ==> exists t: nat :: SeenBy(h, n.log[..n.committed], t))
    && (n.vote != NONE ==> (n.id, n.term) in h.grants && h.grants[(n.id, n.term)].cand == n.vote)
    && (n.role.Leader? ==>
          n.term in h.el && h.el[n.term].leader == n.id && n.log <= h.el[n.term].log
          && |h.el[n.term].base| <= |n.log| && n.committed <= h.el[n.term].commit)
  }

  lemma ObserveNow(cfg: Config, b: Book, n: Node)
    requires BookOK(cfg, b) && NodeOK(cfg, b, n)
    ensures Observed(cfg, b.h, n)
  {
    hide AsksOK, HiddenOK, GrantsOK, BidsOK, ClaimKeysOK, CommitsOK, ReadsOK, ProgressesOK, Prov, ClaimsOK;
    if n.role.Leader? { assert ElectionOK(cfg, b.h, n.term); }
  }

  lemma ObserveLater(cfg: Config, h: History, h': History, n: Node)
    requires Observed(cfg, h, n) && Extends(h, h')
    ensures Observed(cfg, h', n)
  {
    ProvStable(h, h', h.count, h'.count, n.log);
    if n.committed > 0 {
      var t: nat :| SeenBy(h, n.log[..n.committed], t);
      assert ElectionGrows(h.el[t], h'.el[t]);
      assert SeenBy(h', n.log[..n.committed], t);
    }
    if n.role.Leader? { assert ElectionGrows(h.el[n.term], h'.el[n.term]); }
  }

  lemma ObservedAt(cfg: Config, run: seq<System>, acts: seq<Action>, books: seq<Book>, j: nat, x: NodeId, k: nat)
    requires BooksOK(cfg, run, acts, books) && IsNode(run, j, x) && j <= k < |run|
    ensures ValidConfig(cfg) && BookOK(cfg, books[k]) && Observed(cfg, books[k].h, NodeAt(run, j, x))
    ensures NodeAt(run, j, x).id == x
  {
    hide BooksOK, BookOK, NodeOK, Observed, BookExtends;
    RunLength(cfg, run, acts, books);
    StateAt(cfg, run, acts, books, j, x);
    ObserveNow(cfg, books[j], NodeAt(run, j, x));
    BooksGrow(cfg, run, acts, books, j, k);
    GrowsHistory(books[j], books[k]);
    ObserveLater(cfg, books[j].h, books[k].h, NodeAt(run, j, x));
    SomeState(cfg, run, acts, books, k);
  }

  lemma GrowsHistory(b: Book, b': Book)
    requires BookExtends(b, b')
    ensures Extends(b.h, b'.h)
  {
  }

  lemma SomeState(cfg: Config, run: seq<System>, acts: seq<Action>, books: seq<Book>, k: nat)
    requires BooksOK(cfg, run, acts, books) && k < |run|
    ensures BookOK(cfg, books[k]) && run[k].nodes.Keys == PeerSet(cfg)
  {
    hide StepBooks, BookOK, MsgOK, IdleOK;
    assert SysOK(cfg, run[k], books[k]);
  }

  /** Two observations of one run, under its last history. */
  lemma Both(cfg: Config, run: seq<System>, acts: seq<Action>, j: nat, x: NodeId, k: nat, y: NodeId) returns (h: History)
    requires IsRun(cfg, run, acts) && |cfg.peers| > 1 && IsNode(run, j, x) && IsNode(run, k, y)
    ensures ValidConfig(cfg) && HistOK(cfg, h) && ElectionsOK(cfg, h)
    ensures Observed(cfg, h, NodeAt(run, j, x)) && NodeAt(run, j, x).id == x
    ensures Observed(cfg, h, NodeAt(run, k, y)) && NodeAt(run, k, y).id == y
  {
    hide IsRun, BooksOK, HistOK, AsksOK, HiddenOK, Observed, ElectionsOK;
    var books := RunOK(cfg, run, acts);
    RunLength(cfg, run, acts, books);
    ObservedAt(cfg, run, acts, books, j, x, |run| - 1);
    ObservedAt(cfg, run, acts, books, k, y, |run| - 1);
    h := books[|run| - 1].h;
    Elections(cfg, h);
  }

  lemma Sized(cfg: Config, run: seq<System>, acts: seq<Action>)
    requires IsRun(cfg, run, acts)
    ensures ValidConfig(cfg) && |cfg.peers| >= 1 && |run| == |acts| + 1
  {
  }

  /** Two observations of a run of a single node. */
  lemma Sole(cfg: Config, run: seq<System>, acts: seq<Action>, j: nat, x: NodeId, k: nat, y: NodeId)
    requires IsRun(cfg, run, acts) && |cfg.peers| == 1 && IsNode(run, j, x) && IsNode(run, k, y)
    ensures ValidConfig(cfg) && x == y == cfg.peers[0]
    ensures SoloNode(cfg, NodeAt(run, j, x)) && SoloNode(cfg, NodeAt(run, k, y))
    ensures j <= k ==> Grew(NodeAt(run, j, x), NodeAt(run, k, y))
    ensures k <= j ==> Grew(NodeAt(run, k, y), NodeAt(run, j, x))
  {
    hide SoloNode, Init, Enabled, Next, Grew;
    if j <= k { SoloGrows(cfg, run, acts, j, k); }
    if k <= j { SoloGrows(cfg, run, acts, k, j); }
  }

  lemma RunLength(cfg: Config, run: seq<System>, acts: seq<Action>, books: seq<Book>)
    requires BooksOK(cfg, run, acts, books)
    ensures |books| == |run| == |acts| + 1
  {
  }

  lemma SoleState(cfg: Config, run: seq<System>, acts: seq<Action>, k: nat, x: NodeId)
    requires IsRun(cfg, run, acts) && |cfg.peers| == 1 && k < |run| && x in PeerSet(cfg)
    ensures ValidConfig(cfg) && x == cfg.peers[0] && IsNode(run, k, x) && SoloNode(cfg, NodeAt(run, k, x))
    ensures Sound(cfg, NodeAt(run, k, x))
  {
    hide B.Rising, Init, Enabled, Next;
    OnlyPeer(cfg);
    SoloState(cfg, run, acts, k);
  }

  lemma SoleMatch(cfg: Config, run: seq<System>, acts: seq<Action>, k: nat, x: NodeId, f: NodeId)
    requires IsRun(cfg, run, acts) && |cfg.peers| == 1 && Leads(run, k, x) && f in PeerSet(cfg)
    ensures IsNode(run, k, f) && NodeAt(run, k, f).id == f && f in NodeAt(run, k, x).prs
    ensures MatchIsTrue(NodeAt(run, k, x), NodeAt(run, k, f))
  {
    hide IsRun, B.Rising;
    SoleState(cfg, run, acts, k, f);
    Sole(cfg, run, acts, k, x, k, f);
  }

  lemma SoleHolder(cfg: Config, run: seq<System>, acts: seq<Action>, j: nat, x: NodeId, k: nat)
    requires IsRun(cfg, run, acts) && |cfg.peers| == 1 && IsNode(run, j, x) && j <= k < |run|
    ensures HeldByQuorum(cfg, run[k], CommittedLog(NodeAt(run, j, x)))
  {
    hide IsRun, B.Rising;
    Sole(cfg, run, acts, j, x, j, x);
    OnlyPeer(cfg);
    SoleState(cfg, run, acts, k, x);
    Sole(cfg, run, acts, j, x, k, x);
    assert IsQuorum(cfg, {x});
  }

  lemma SolePair(cfg: Config, run: seq<System>, acts: seq<Action>, k: nat, x: NodeId, y: NodeId)
    requires IsRun(cfg, run, acts) && |cfg.peers| == 1 && IsNode(run, k, x) && IsNode(run, k, y)
    ensures B.Pair(NodeAt(run, k, x), NodeAt(run, k, y))
  {
    hide IsRun;
    Sole(cfg, run, acts, k, x, k, y);
  }

  /** Reads of a single node: its leader answers at once with its whole log,
      which holds all it ever had. */
  lemma SoleRead(cfg: Config, run: seq<System>, acts: seq<Action>, k: nat, i: nat)
    requires IsRun(cfg, run, acts) && |cfg.peers| == 1 && k < |acts| && i < |ReleasedBy(cfg, run[k], acts[k])|
    ensures var rs := ReleasedBy(cfg, run[k], acts[k])[i]; var x := acts[k].id;
      IsNode(run, k, x) && AsksRead(run, acts, k, x, NodeAt(run, k, x).term, rs.context) && CommitsBelow(run, k, rs.index)
  {
    hide Handle, Next, Sound, CanTear, Init, B.Rising;
    SoloState(cfg, run, acts, k);
    var x, a := acts[k].id, acts[k];
    SoloHandle(cfg, run[k].nodes[x], a.input);
    forall j: nat, y | j <= k && IsNode(run, j, y) ensures NodeAt(run, j, y).committed <= |run[k].nodes[x].log| {
      Sole(cfg, run, acts, j, y, k, x);
    }
  }

  // ----- Figure 3 -----

  /** At most one node is ever the leader of a term. */
  lemma ElectionSafety(cfg: Config, run: seq<System>, acts: seq<Action>, j: nat, x: NodeId, k: nat, y: NodeId)
    requires IsRun(cfg, run, acts) && Leads(run, j, x) && Leads(run, k, y)
    requires NodeAt(run, j, x).term == NodeAt(run, k, y).term
    ensures x == y
  {
    hide IsRun, HistOK, ElectionsOK, Prov;
    Sized(cfg, run, acts);
    if |cfg.peers| == 1 {
      Sole(cfg, run, acts, j, x, k, y);
      return;
    }
    var h := Both(cfg, run, acts, j, x, k, y);
  }

  /** A node never casts two votes in one term, even across crashes. */
  lemma OneVotePerTerm(cfg: Config, run: seq<System>, acts: seq<Action>, x: NodeId, j: nat, k: nat)
    requires IsRun(cfg, run, acts) && IsNode(run, j, x) && IsNode(run, k, x)
    requires NodeAt(run, j, x).term == NodeAt(run, k, x).term
    requires NodeAt(run, j, x).vote != NONE && NodeAt(run, k, x).vote != NONE
    ensures NodeAt(run, j, x).vote == NodeAt(run, k, x).vote
  {
    hide IsRun, HistOK, ElectionsOK, Prov;
    Sized(cfg, run, acts);
    if |cfg.peers| == 1 {
      Sole(cfg, run, acts, j, x, k, x);
      return;
    }
    var h := Both(cfg, run, acts, j, x, k, x);
  }

  /** Two logs, of any nodes at any times, that hold one term at an index are
      the same up to that index. */
  lemma LogMatching(cfg: Config, run: seq<System>, acts: seq<Action>, j: nat, x: NodeId, k: nat, y: NodeId, p: nat)
    requires IsRun(cfg, run, acts) && IsNode(run, j, x) && IsNode(run, k, y)
    requires p < |NodeAt(run, j, x).log| && p < |NodeAt(run, k, y).log|
    requires NodeAt(run, j, x).log[p].term == NodeAt(run, k, y).log[p].term
    ensures NodeAt(run, j, x).log[..p + 1] == NodeAt(run, k, y).log[..p + 1]
  {
    hide IsRun, HistOK, ElectionsOK, Prov;
    Sized(cfg, run, acts);
    if |cfg.peers| == 1 {
      Sole(cfg, run, acts, j, x, k, y);
      return;
    }
    var h := Both(cfg, run, acts, j, x, k, y);
    SameTermSameLog(cfg, h, NodeAt(run, j, x).log, NodeAt(run, k, y).log, p);
  }

  /** Any two committed prefixes of one history are comparable. */
  lemma CommittedComparable(cfg: Config, h: History, a: Log, t: nat, c: Log, u: nat)
    requires ValidConfig(cfg) && HistOK(cfg, h) && SeenBy(h, a, t) && SeenBy(h, c, u) && t <= u
    ensures a <= c || c <= a
  {
    hide GrantsOK, BidsOK, ClaimKeysOK, CommitsOK, ElectionsOK;
    Elections(cfg, h);
    LeaderLog(cfg, h, u);
    if t < u {
      EarlierCommit(cfg, h, t, u);
      assert h.el[t].log[..|a|] == a;
      assert a <= h.el[t].log[..h.el[t].commit];
    }
    BothPrefixes(a, c, h.el[u].log, h.el[u].base);
  }

  lemma BothPrefixes(a: Log, c: Log, l: Log, base: Log)
    requires c <= l && base <= l && (a <= l || a <= base)
    ensures a <= c || c <= a
  {
  }

  /** State machine safety: what two nodes have committed, at any two times, is
      one sequence as far as the shorter goes. */
  lemma StateMachineSafety(cfg: Config, run: seq<System>, acts: seq<Action>, j: nat, x: NodeId, k: nat, y: NodeId)
    requires IsRun(cfg, run, acts) && IsNode(run, j, x) && IsNode(run, k, y)
    ensures var a := CommittedLog(NodeAt(run, j, x)); var c := CommittedLog(NodeAt(run, k, y)); a <= c || c <= a
  {
    hide IsRun, HistOK, ElectionsOK, Prov;
    Sized(cfg, run, acts);
    if |cfg.peers| == 1 {
      Sole(cfg, run, acts, j, x, k, y);
      return;
    }
    var h := Both(cfg, run, acts, j, x, k, y);
    var n, m := NodeAt(run, j, x), NodeAt(run, k, y);
    if n.committed > 0 && m.committed > 0 {
      var t: nat :| SeenBy(h, n.log[..n.committed], t);
      var u: nat :| SeenBy(h, m.log[..m.committed], u);
      if t <= u {
        CommittedComparable(cfg, h, CommittedLog(n), t, CommittedLog(m), u);
      } else {
        CommittedComparable(cfg, h, CommittedLog(m), u, CommittedLog(n), t);
      }
    }
  }

  /** Leader completeness: what a leader has committed is in the log of every
      leader of a later term, whenever that leader is observed. */
  lemma LaterLeadersHold(cfg: Config, run: seq<System>, acts: seq<Action>, j: nat, x: NodeId, k: nat, y: NodeId)
    requires IsRun(cfg, run, acts) && Leads(run, j, x) && Leads(run, k, y)
    requires NodeAt(run, j, x).term < NodeAt(run, k, y).term
    ensures CommittedLog(NodeAt(run, j, x)) <= NodeAt(run, k, y).log
  {
    hide IsRun, HistOK, ElectionsOK, Prov;
    Sized(cfg, run, acts);
    if |cfg.peers| == 1 {
      Sole(cfg, run, acts, j, x, k, y);
      return;
    }
    var h := Both(cfg, run, acts, j, x, k, y);
    var n, m := NodeAt(run, j, x), NodeAt(run, k, y);
    EarlierCommit(cfg, h, n.term, m.term);
    LeaderLog(cfg, h, m.term);
    assert h.el[n.term].log[..n.committed] == h.el[n.term].log[..h.el[n.term].commit][..n.committed];
    HeldByLeader(h.el[n.term].log, n.log, n.committed, h.el[m.term].base, h.el[m.term].log, m.log);
  }

  /** Every term up to which something is seen committed belongs to a node that
      has reached that term. */
  lemma SeenTerm(cfg: Config, run: seq<System>, acts: seq<Action>, books: seq<Book>, j: nat, t: nat)
    requires BooksOK(cfg, run, acts, books) && j < |run| == |books| && t in books[j].h.el
    ensures exists z :: IsNode(run, j, z) && t <= NodeAt(run, j, z).term
  {
    hide BooksOK, BookOK, ElectionsOK, ClaimsOfOK;
    SomeState(cfg, run, acts, books, j);
    BookParts(cfg, books[j]);
    ElectionLeader(cfg, books[j].h, t);
    var z := books[j].h.el[t].leader;
    StateClaims(cfg, run, acts, books, j, z);
    assert IsNode(run, j, z) && t <= NodeAt(run, j, z).term;
  }

  lemma ElectionLeader(cfg: Config, h: History, t: nat)
    requires ElectionsOK(cfg, h) && t in h.el
    ensures h.el[t].leader in PeerSet(cfg)
  {
    assert ElectionOK(cfg, h, t);
  }

  /** The leader under whose term a node's commits were made. */
  lemma CommitTerm(cfg: Config, run: seq<System>, acts: seq<Action>, books: seq<Book>, j: nat, x: NodeId) returns (t: nat)
    requires BooksOK(cfg, run, acts, books) && IsNode(run, j, x) && NodeAt(run, j, x).committed > 0 && |run| == |books|
    ensures NodeAt(run, j, x).committed <= |NodeAt(run, j, x).log|
    ensures SeenBy(books[j].h, CommittedLog(NodeAt(run, j, x)), t)
    ensures t <= NodeAt(run, j, x).term || NodeAt(run, j, x).committed <= NodeAt(run, j, x).snapIndex
  {
    hide BooksOK, BookOK, ClaimsOfOK, VotesOK, Prov, LeaderOK, CandidateOK, ReadStatesOK;
    StateAt(cfg, run, acts, books, j, x);
    var n := NodeAt(run, j, x);
    t :| SeenBy(books[j].h, n.log[..n.committed], t) && (t <= n.term || n.committed <= n.snapIndex);
  }

  /** Node `x` has committed nothing beyond a snapshot that a torn drain left
      durable, ahead of the hard state that was to follow it. */
  ghost predicate OnTornSnapshot(run: seq<System>, acts: seq<Action>, j: nat, x: NodeId)
    requires IsNode(run, j, x)
  {
    && NodeAt(run, j, x).committed <= NodeAt(run, j, x).snapIndex
    && exists i: nat :: i < j && TornInstall(run, acts, i, x) && NodeAt(run, i + 1, x).snapIndex == NodeAt(run, j, x).snapIndex
  }

  predicate TornInstall(run: seq<System>, acts: seq<Action>, i: nat, x: NodeId) {
    && i < |acts| && acts[i].Tear? && acts[i].id == x && IsNode(run, i, x) && IsNode(run, i + 1, x)
    && NodeAt(run, i, x).snapIndex < NodeAt(run, i + 1, x).snapIndex
  }

  lemma NoSnapshotAtFirst(cfg: Config, run: seq<System>, acts: seq<Action>, x: NodeId)
    requires IsRun(cfg, run, acts) && IsNode(run, 0, x)
    ensures NodeAt(run, 0, x).committed == 0
  {
  }

  lemma StillNotTorn(run: seq<System>, acts: seq<Action>, j: nat, x: NodeId)
    requires IsNode(run, j, x) && IsNode(run, j + 1, x) && !OnTornSnapshot(run, acts, j + 1, x)
    requires NodeAt(run, j, x).snapIndex == NodeAt(run, j + 1, x).snapIndex
    requires NodeAt(run, j + 1, x).committed <= NodeAt(run, j + 1, x).snapIndex
    ensures !OnTornSnapshot(run, acts, j, x)
  {
  }

  lemma SeenPrefix(h: History, h': History, a: Log, c: Log, t: nat)
    requires Extends(h, h') && SeenBy(h, c, t) && a <= c
    ensures SeenBy(h', a, t)
  {
    SeenStable(h, h', c, t);
  }

  /** One action on `x` that leaves its commit index on its snapshot either
      shortens what it had committed before, or installs a snapshot. */
  lemma SnapshotStep(cfg: Config, run: seq<System>, acts: seq<Action>, books: seq<Book>, j: nat, x: NodeId)
    requires IsRun(cfg, run, acts) && BooksOK(cfg, run, acts, books) && j < |acts|
    requires IsNode(run, j, x) && IsNode(run, j + 1, x) && !TornInstall(run, acts, j, x)
    requires var r := NodeAt(run, j + 1, x); r.committed == r.snapIndex
    ensures var n := NodeAt(run, j, x); var r := NodeAt(run, j + 1, x);
      || (r.snapIndex == n.snapIndex && r.committed <= n.committed && n.term <= r.term)
      || (r.snapIndex > n.snapIndex && r.committed == n.committed && n.term <= r.term)
      || SeenBy(books[j].h, CommittedLog(r), r.term)
  {
    hide BooksOK, SysOK, BookOK, NodeOK, Handle, CanTear, Sound, Init, Steady;
    RunLength(cfg, run, acts, books);
    StateOK(cfg, run, acts, books, j);
    StateAt(cfg, run, acts, books, j, x);
    var a, n, r := acts[j], NodeAt(run, j, x), NodeAt(run, j + 1, x);
    assert run[j + 1] == Next(cfg, run[j], a);
    ShapeAt(cfg, books[j], n);
    if a.id == x {
      match a
      case Act(_, input) =>
        if input.Receive? { MessageTerm(cfg, run[j], books[j], input.m); }
        HandleSteady(cfg, n, input);
        SteadyParts(n, Handle(cfg, n, input));
      case Compact(_, _) =>
      case Crash(_, commit) => RecoveredMarks(cfg, n, n.log, n.snapIndex, commit);
      case Tear(_, input, keep, commit) => TornMarks(cfg, n, Handle(cfg, n, input), keep, commit);
    }
  }

  lemma ShapeAt(cfg: Config, b: Book, n: Node)
    requires NodeOK(cfg, b, n)
    ensures n.snapIndex <= n.committed <= |n.log| && Sound(cfg, n)
  {
  }

  lemma SteadyParts(n: Node, r: Node)
    requires Steady(n, r)
    ensures n.term <= r.term && n.snapIndex <= r.snapIndex
  {
  }

  lemma RecoveredMarks(cfg: Config, n: Node, log: Log, snap: nat, commit: nat)
    requires snap <= |log|
    ensures var r := Recovered(cfg, n, log, snap, commit); r.term == n.term && r.snapIndex == snap
  {
  }

  lemma TornMarks(cfg: Config, n: Node, n': Node, keep: nat, commit: nat)
    requires CanTear(n, n', keep)
    ensures var r := Torn(cfg, n, n', keep, commit); r.term == n.term && r.snapIndex >= n.snapIndex
  {
  }

  /** Unless it sits on a torn snapshot, what a node has committed was committed
      by a leader of a term the node has reached. */
  lemma {:induction false} OwnCommitTerm(cfg: Config, run: seq<System>, acts: seq<Action>, books: seq<Book>, j: nat, x: NodeId)
    returns (t: nat)
    requires IsRun(cfg, run, acts) && |cfg.peers| > 1 && BooksOK(cfg, run, acts, books) && |run| == |books|
    requires IsNode(run, j, x) && NodeAt(run, j, x).committed > 0 && !OnTornSnapshot(run, acts, j, x)
    ensures SeenBy(books[j].h, CommittedLog(NodeAt(run, j, x)), t) && t <= NodeAt(run, j, x).term
    decreases j
  {
    hide IsRun, BooksOK, Extends, SeenBy, BookOK, NodeOK;
    var r := NodeAt(run, j, x);
    StateAt(cfg, run, acts, books, j, x);
    ShapeAt(cfg, books[j], r);
    if r.committed > r.snapIndex {
      t := CommitTerm(cfg, run, acts, books, j, x);
    } else if j == 0 {
      NoSnapshotAtFirst(cfg, run, acts, x);
    } else {
      Sized(cfg, run, acts);
      SomeState(cfg, run, acts, books, j - 1);
      SomeState(cfg, run, acts, books, j);
      var n := NodeAt(run, j - 1, x);
      BooksGrow(cfg, run, acts, books, j - 1, j);
      GrowsHistory(books[j - 1], books[j]);
      SnapshotStep(cfg, run, acts, books, j - 1, x);
      StateAt(cfg, run, acts, books, j - 1, x);
      ShapeAt(cfg, books[j - 1], n);
      if SeenBy(books[j - 1].h, CommittedLog(r), r.term) {
        t := r.term;
        SeenPrefix(books[j - 1].h, books[j].h, CommittedLog(r), CommittedLog(r), t);
      } else {
        if r.snapIndex == n.snapIndex { StillNotTorn(run, acts, j - 1, x); }
        t := OwnCommitTerm(cfg, run, acts, books, j - 1, x);
        StateMachineSafety(cfg, run, acts, j - 1, x, j, x);
        ShorterCommitted(CommittedLog(r), CommittedLog(n));
        SeenPrefix(books[j - 1].h, books[j].h, CommittedLog(r), CommittedLog(n), t);
      }
    }
  }

  lemma ShorterCommitted(a: Log, c: Log)
    requires (a <= c || c <= a) && |a| <= |c|
    ensures a <= c
  {
  }

  /** A leader is late enough for what `x` has committed at time `j` when its
      term is above the term of `x`, or, if `x` sits on a snapshot that outran a hard
      state lost in a crash, above every term then reached. */
  ghost predicate LateEnough(run: seq<System>, acts: seq<Action>, j: nat, x: NodeId, term: nat)
    requires IsNode(run, j, x)
  {
    || (!OnTornSnapshot(run, acts, j, x) && NodeAt(run, j, x).term < term)
    || (forall z | z in run[j].nodes :: run[j].nodes[z].term < term)
  }

  lemma LateTerm(cfg: Config, run: seq<System>, acts: seq<Action>, books: seq<Book>, j: nat, x: NodeId, term: nat)
    returns (t: nat)
    requires IsRun(cfg, run, acts) && |cfg.peers| > 1 && BooksOK(cfg, run, acts, books) && |run| == |books|
    requires IsNode(run, j, x) && NodeAt(run, j, x).committed > 0 && LateEnough(run, acts, j, x, term)
    ensures SeenBy(books[j].h, CommittedLog(NodeAt(run, j, x)), t) && t < term
  {
    hide IsRun, BooksOK, SeenBy, OnTornSnapshot;
    if !OnTornSnapshot(run, acts, j, x) && NodeAt(run, j, x).term < term {
      t := OwnCommitTerm(cfg, run, acts, books, j, x);
    } else {
      t := CommitTerm(cfg, run, acts, books, j, x);
      SeenElection(books[j].h, CommittedLog(NodeAt(run, j, x)), t);
      SeenTerm(cfg, run, acts, books, j, t);
    }
  }

  lemma SeenElection(h: History, log: Log, t: nat)
    requires SeenBy(h, log, t)
    ensures t in h.el
  {
  }

  /** Leader completeness for any committer: every leader that is late enough
      holds what the node has committed. */
  lemma CommittedReachesLeaders(cfg: Config, run: seq<System>, acts: seq<Action>, j: nat, x: NodeId, k: nat, y: NodeId)
    requires IsRun(cfg, run, acts) && IsNode(run, j, x) && Leads(run, k, y)
    requires LateEnough(run, acts, j, x, NodeAt(run, k, y).term)
    ensures CommittedLog(NodeAt(run, j, x)) <= NodeAt(run, k, y).log
  {
    hide IsRun, BooksOK, HistOK, AsksOK, HiddenOK, ElectionsOK, Prov, BookExtends;
    Sized(cfg, run, acts);
    if |cfg.peers| == 1 {
      Sole(cfg, run, acts, j, x, k, y);
      return;
    }
    var books := RunOK(cfg, run, acts);
    RunLength(cfg, run, acts, books);
    var n, m := NodeAt(run, j, x), NodeAt(run, k, y);
    if n.committed > 0 {
      var t := LateTerm(cfg, run, acts, books, j, x, m.term);
      var h := books[|run| - 1].h;
      ObservedAt(cfg, run, acts, books, k, y, |run| - 1);
      BooksGrow(cfg, run, acts, books, j, |run| - 1);
      GrowsHistory(books[j], books[|run| - 1]);
      SeenStable(books[j].h, h, CommittedLog(n), t);
      EarlierCommit(cfg, h, t, m.term);
      Elections(cfg, h);
      LeaderLog(cfg, h, m.term);
      SeenHeld(h, CommittedLog(n), t, h.el[m.term].base, h.el[m.term].log, m.log);
    }
  }

  lemma SeenHeld(h: History, c: Log, t: nat, base: Log, l: Log, mlog: Log)
    requires SeenBy(h, c, t) && h.el[t].commit <= |h.el[t].log| && h.el[t].log[..h.el[t].commit] <= base
    requires base <= l && mlog <= l && |base| <= |mlog|
    ensures c <= mlog
  {
    assert c == h.el[t].log[..h.el[t].commit][..|c|];
    assert base <= mlog;
  }

  lemma HeldByLeader(lt: Log, nlog: Log, c: nat, base: Log, l: Log, mlog: Log)
    requires nlog <= lt && c <= |nlog| && lt[..c] <= base && base <= l && mlog <= l && |base| <= |mlog|
    ensures nlog[..c] <= mlog
  {
    PrefixTake(nlog, lt, c);
    PrefixTake(base, l, |base|);
    assert base <= mlog;
  }

  // ----- log shape -----

  lemma TermsRise(cfg: Config, h: History, log: Log)
    requires ElectionsOK(cfg, h) && Prov(h, h.count, log)
    ensures B.Rising(log)
  {
    hide ElectionsOK, Prov;
    ProvWellFormed(cfg, h, h.count, log);
    forall i, j | 0 <= i <= j < |log| ensures log[i].term <= log[j].term {
      ProvPrefix(cfg, h, h.count, log, j + 1);
      ProvTerms(cfg, h, h.count, log[..j + 1], i);
    }
  }

  /** No node is past the term of `x`. */
  predicate Topmost(run: seq<System>, k: nat, x: NodeId)
    requires IsNode(run, k, x)
  {
    forall z | z in run[k].nodes :: run[k].nodes[z].term <= NodeAt(run, k, x).term
  }

  lemma TopSeen(cfg: Config, run: seq<System>, acts: seq<Action>, books: seq<Book>, k: nat, x: NodeId, j: nat, t: nat)
    requires IsRun(cfg, run, acts) && BooksOK(cfg, run, acts, books) && |run| == |books| && j <= k
    requires IsNode(run, k, x) && Topmost(run, k, x) && t in books[j].h.el
    ensures t <= NodeAt(run, k, x).term
  {
    hide IsRun, BooksOK, Steady;
    SeenTerm(cfg, run, acts, books, j, t);
    var z :| IsNode(run, j, z) && t <= NodeAt(run, j, z).term;
    SomeState(cfg, run, acts, books, j);
    NothingTakenBack(cfg, run, acts, z, j, k);
    SteadyParts(NodeAt(run, j, z), NodeAt(run, k, z));
  }

  /** What any node has ever committed is in the log of a leader whose term is
      the highest reached. */
  lemma TopLeaderHolds(cfg: Config, run: seq<System>, acts: seq<Action>, k: nat, x: NodeId, j: nat, y: NodeId)
    requires IsRun(cfg, run, acts) && Leads(run, k, x) && IsNode(run, j, y) && j <= k
    requires Topmost(run, k, x)
    ensures CommittedLog(NodeAt(run, j, y)) <= NodeAt(run, k, x).log
  {
    hide IsRun, BooksOK, HistOK, AsksOK, HiddenOK, ElectionsOK, Prov, BookOK, NodeOK, Extends;
    Sized(cfg, run, acts);
    if |cfg.peers| == 1 {
      Sole(cfg, run, acts, j, y, k, x);
      return;
    }
    var books := RunOK(cfg, run, acts);
    RunLength(cfg, run, acts, books);
    var n, m, h := NodeAt(run, k, x), NodeAt(run, j, y), books[k].h;
    StateAt(cfg, run, acts, books, k, x);
    BookParts(cfg, books[k]);
    LeaderAt(cfg, books[k], n);
    if m.committed > 0 {
      var t := CommitTerm(cfg, run, acts, books, j, y);
      TopSeen(cfg, run, acts, books, k, x, j, t);
      BooksGrow(cfg, run, acts, books, j, k);
      GrowsHistory(books[j], books[k]);
      SeenStable(books[j].h, h, CommittedLog(m), t);
      if t < n.term {
        EarlierCommit(cfg, h, t, n.term);
        LeaderLog(cfg, h, n.term);
        SeenHeld(h, CommittedLog(m), t, h.el[n.term].base, h.el[n.term].log, n.log);
      }
    }
  }

  /** In every run, terms rise along every log, and a leader of the highest term
      reached meets every follower in the states backtracking is proved for. */
  lemma BacktrackingApplies(cfg: Config, run: seq<System>, acts: seq<Action>, k: nat, x: NodeId, y: NodeId)
    requires IsRun(cfg, run, acts) && IsNode(run, k, x) && IsNode(run, k, y)
    ensures B.Rising(NodeAt(run, k, x).log)
    ensures NodeAt(run, k, x).role.Leader? && Topmost(run, k, x) ==> B.Pair(NodeAt(run, k, x), NodeAt(run, k, y))
  {
    hide IsRun, HistOK, ElectionsOK, Prov, B.Rising;
    Sized(cfg, run, acts);
    if |cfg.peers| == 1 {
      SolePair(cfg, run, acts, k, x, y);
      return;
    }
    var h := Both(cfg, run, acts, k, x, k, y);
    var n, m := NodeAt(run, k, x), NodeAt(run, k, y);
    TermsRise(cfg, h, n.log);
    TermsRise(cfg, h, m.log);
    if n.role.Leader? && Topmost(run, k, x) {
      TopLeaderHolds(cfg, run, acts, k, x, k, y);
      if m.snapIndex > 0 {
        assert CommittedLog(m)[m.snapIndex - 1] == n.log[m.snapIndex - 1];
      }
    }
  }

  // ----- durability -----

  ghost predicate HeldByQuorum(cfg: Config, s: System, log: Log) {
    exists q: set<NodeId> :: IsQuorum(cfg, q) && forall f | f in q :: f in s.nodes && log <= s.nodes[f].log
  }

  lemma ClaimantHolds(cfg: Config, h: History, f: Node, t: nat, m: nat, c: Log)
    requires ValidConfig(cfg) && HistOK(cfg, h) && CommittedBy(cfg, h, t, m, c)
    requires ClaimsOfOK(h, f) && f.id in Claimants(cfg, h, t, m)
    ensures c <= f.log
  {
    hide BidsOK, ClaimKeysOK, CommitsOK, ElectionsOK, GrantsOK;
    assert ClaimOK(h, h.count, f.log, t, m);
    forall t2 | t2 in h.el && t2 > t ensures Has(h, h.el[t2].base, t, m) {
      LeaderCompleteness(cfg, h, t, m, t2);
    }
  }

  lemma SeenIsBacked(cfg: Config, h: History, c: Log, t: nat) returns (t0: nat, m: nat)
    requires HistOK(cfg, h) && SeenBy(h, c, t) && c != []
    ensures CommittedBy(cfg, h, t0, m, c)
  {
    hide GrantsOK, BidsOK, ClaimKeysOK, Committed;
    var seen := h.el[t].log[..h.el[t].commit];
    assert c <= seen && seen != [];
    t0, m :| t0 <= t && CommittedBy(cfg, h, t0, m, seen);
  }

  lemma AllPeers(cfg: Config)
    requires ValidConfig(cfg)
    ensures IsQuorum(cfg, PeerSet(cfg))
  {
    PeerSetSize(cfg.peers);
  }

  lemma StateClaims(cfg: Config, run: seq<System>, acts: seq<Action>, books: seq<Book>, k: nat, f: NodeId)
    requires BooksOK(cfg, run, acts, books) && k < |run| && f in PeerSet(cfg)
    ensures IsNode(run, k, f) && NodeAt(run, k, f).id == f && ClaimsOfOK(books[k].h, NodeAt(run, k, f))
    ensures VotesOK(books[k].h, NodeAt(run, k, f))
  {
    hide BooksOK, BookOK, ClaimsOK, Prov, LeaderOK, CandidateOK, SeenOK;
    SomeState(cfg, run, acts, books, k);
    StateAt(cfg, run, acts, books, k, f);
  }

  /** Whatever any node has committed by now is, at every later moment, in the
      durable logs of a majority. */
  lemma CommittedIsDurable(cfg: Config, run: seq<System>, acts: seq<Action>, j: nat, x: NodeId, k: nat)
    requires IsRun(cfg, run, acts) && IsNode(run, j, x) && j <= k < |run|
    ensures HeldByQuorum(cfg, run[k], CommittedLog(NodeAt(run, j, x)))
  {
    hide IsRun, BooksOK, HistOK, AsksOK, HiddenOK, ElectionsOK, Prov, Claimants, ClaimsOfOK, VotesOK;
    Sized(cfg, run, acts);
    if |cfg.peers| == 1 {
      SoleHolder(cfg, run, acts, j, x, k);
      return;
    }
    var books := RunOK(cfg, run, acts);
    RunLength(cfg, run, acts, books);
    ObservedAt(cfg, run, acts, books, j, x, k);
    var n, h := NodeAt(run, j, x), books[k].h;
    var c := CommittedLog(n);
    if n.committed == 0 {
      AllPeers(cfg);
      SomeState(cfg, run, acts, books, k);
    } else {
      var t: nat :| SeenBy(h, c, t);
      var t0, m := SeenIsBacked(cfg, h, c, t);
      var q := Claimants(cfg, h, t0, m);
      forall f | f in q ensures f in run[k].nodes && c <= run[k].nodes[f].log {
        ClaimantPeer(cfg, h, t0, m, f);
        StateClaims(cfg, run, acts, books, k, f);
        ClaimantHolds(cfg, h, NodeAt(run, k, f), t0, m, c);
      }
    }
  }

  lemma ClaimantPeer(cfg: Config, h: History, t: nat, m: nat, f: NodeId)
    requires f in Claimants(cfg, h, t, m)
    ensures f in PeerSet(cfg)
  {
  }

  // ----- the core never panics -----

  /** No run reaches a panic, the watermarks are ordered in every state, and every
      node is always fit to take its next input. */
  lemma NeverPanics(cfg: Config, run: seq<System>, acts: seq<Action>, k: nat, x: NodeId)
    requires IsRun(cfg, run, acts) && k < |run| && x in PeerSet(cfg)
    ensures IsNode(run, k, x)
    ensures var n := NodeAt(run, k, x);
      !n.panicked && n.snapIndex <= n.committed <= |n.log| && Sound(cfg, n)
  {
    hide IsRun, BooksOK, BookOK;
    Sized(cfg, run, acts);
    if |cfg.peers| == 1 {
      SoleState(cfg, run, acts, k, x);
      return;
    }
    var books := RunOK(cfg, run, acts);
    SomeState(cfg, run, acts, books, k);
    StateAt(cfg, run, acts, books, k, x);
  }

  lemma {:induction false} ManySteady(cfg: Config, run: seq<System>, acts: seq<Action>, books: seq<Book>, x: NodeId, j: nat, k: nat)
    requires IsRun(cfg, run, acts) && |cfg.peers| > 1 && BooksOK(cfg, run, acts, books)
    requires x in PeerSet(cfg) && j <= k < |run|
    ensures IsNode(run, j, x) && IsNode(run, k, x) && Steady(NodeAt(run, j, x), NodeAt(run, k, x))
    decreases k
  {
    hide BooksOK, SysOK, Enabled, Next, Init, Steady;
    RunLength(cfg, run, acts, books);
    SomeState(cfg, run, acts, books, j);
    SomeState(cfg, run, acts, books, k);
    if j < k {
      ManySteady(cfg, run, acts, books, x, j, k - 1);
      StateOK(cfg, run, acts, books, k - 1);
      StepNodesSteady(cfg, run[k - 1], books[k - 1], acts[k - 1]);
      SteadyTrans(NodeAt(run, j, x), NodeAt(run, k - 1, x), NodeAt(run, k, x));
    } else {
      SteadySelf(NodeAt(run, j, x));
    }
  }

  lemma SteadySelf(n: Node)
    ensures Steady(n, n)
  {
  }

  lemma SteadyTrans(a: Node, b: Node, c: Node)
    requires Steady(a, b) && Steady(b, c)
    ensures Steady(a, c)
  {
  }

  /** Terms, votes and snapshots never go back. */
  lemma NothingTakenBack(cfg: Config, run: seq<System>, acts: seq<Action>, x: NodeId, j: nat, k: nat)
    requires IsRun(cfg, run, acts) && x in PeerSet(cfg) && j <= k < |run|
    ensures IsNode(run, j, x) && IsNode(run, k, x) && Steady(NodeAt(run, j, x), NodeAt(run, k, x))
  {
    hide IsRun, BooksOK, Steady, SoloNode;
    Sized(cfg, run, acts);
    if |cfg.peers| == 1 {
      SoleState(cfg, run, acts, j, x);
      SoleState(cfg, run, acts, k, x);
      Sole(cfg, run, acts, j, x, k, x);
    } else {
      var books := RunOK(cfg, run, acts);
      ManySteady(cfg, run, acts, books, x, j, k);
    }
  }

  lemma StateOK(cfg: Config, run: seq<System>, acts: seq<Action>, books: seq<Book>, k: nat)
    requires BooksOK(cfg, run, acts, books) && k < |run|
    ensures SysOK(cfg, run[k], books[k])
  {
    hide SysOK, StepBooks;
  }

  // ----- progress tracking -----

  /** The nodes that have moved past term `t`. */
  function Above(s: System, t: nat): set<NodeId> { set x | x in s.nodes && s.nodes[x].term > t }

  predicate MatchIsTrue(n: Node, f: Node)
    requires f.id in n.prs
  {
    var p := n.prs[f.id];
    && p.matched <= |n.log| && n.log[..p.matched] <= f.log
    && 1 <= p.next <= |n.log| + 1
  }

  lemma VoterTerm(cfg: Config, h: History, t: nat, v: NodeId, n: Node)
    requires ElectionsOK(cfg, h) && t in h.el && v in h.el[t].voters && n.id == v && VotesOK(h, n)
    ensures n.term >= t
  {
    assert ElectionOK(cfg, h, t);
  }

  lemma VotersQuorum(cfg: Config, h: History, t: nat)
    requires ElectionsOK(cfg, h) && t in h.el
    ensures IsQuorum(cfg, h.el[t].voters)
  {
    assert ElectionOK(cfg, h, t);
  }

  lemma VotersAbove(cfg: Config, run: seq<System>, acts: seq<Action>, books: seq<Book>, k: nat, t: nat, t2: nat)
    requires ValidConfig(cfg) && |run| == |books| && BooksOK(cfg, run, acts, books) && k < |run|
    requires ElectionsOK(cfg, books[k].h) && t2 in books[k].h.el && t2 > t
    ensures IsQuorum(cfg, Above(run[k], t))
  {
    hide BooksOK, BookOK, ElectionsOK, VotesOK, ClaimsOfOK;
    var h := books[k].h;
    VotersQuorum(cfg, h, t2);
    SomeState(cfg, run, acts, books, k);
    forall v | v in h.el[t2].voters ensures v in Above(run[k], t) {
      StateClaims(cfg, run, acts, books, k, v);
      VoterTerm(cfg, h, t2, v, run[k].nodes[v]);
    }
    SubsetSize(h.el[t2].voters, Above(run[k], t));
  }

  lemma ClaimedMatch(h: History, n: Node, f: Node)
    requires LeadsOK(h, n) && f.id in n.prs && ProgressOK(h, n, f.id) && ClaimsOfOK(h, f)
    requires forall t2 | t2 in h.el :: t2 <= n.term
    ensures MatchIsTrue(n, f)
  {
    var p := n.prs[f.id];
    if p.matched > 0 { assert ClaimOK(h, h.count, f.log, n.term, p.matched); }
    if p.next > 1 && ClaimMade(h, f.id, n.term, p.next - 1) { assert ClaimOK(h, h.count, f.log, n.term, p.next - 1); }
  }

  lemma LeaderAt(cfg: Config, b: Book, n: Node)
    requires NodeOK(cfg, b, n) && n.role.Leader?
    ensures LeadsOK(b.h, n) && ProgressesOK(b.h, n) && n.prs.Keys == PeerSet(cfg)
  {
  }

  lemma BookParts(cfg: Config, b: Book)
    requires BookOK(cfg, b)
    ensures HistOK(cfg, b.h) && ElectionsOK(cfg, b.h)
  {
  }

  /** Match and Next: unless a majority has already moved past its term, what a
      leader records about a follower is true of the follower's durable log. */
  lemma MatchSoundness(cfg: Config, run: seq<System>, acts: seq<Action>, k: nat, x: NodeId, f: NodeId)
    requires IsRun(cfg, run, acts) && Leads(run, k, x) && f in PeerSet(cfg)
    ensures IsNode(run, k, f) && NodeAt(run, k, f).id == f && f in NodeAt(run, k, x).prs
    ensures MatchIsTrue(NodeAt(run, k, x), NodeAt(run, k, f)) || IsQuorum(cfg, Above(run[k], NodeAt(run, k, x).term))
  {
    hide IsRun, BooksOK, BookOK, NodeOK, HistOK, ElectionsOK, ClaimsOfOK, VotesOK, MatchIsTrue, ProgressOK, Above;
    Sized(cfg, run, acts);
    if |cfg.peers| == 1 {
      SoleMatch(cfg, run, acts, k, x, f);
      return;
    }
    var books := RunOK(cfg, run, acts);
    RunLength(cfg, run, acts, books);
    StateAt(cfg, run, acts, books, k, x);
    StateClaims(cfg, run, acts, books, k, f);
    var n, h := NodeAt(run, k, x), books[k].h;
    BookParts(cfg, books[k]);
    LeaderAt(cfg, books[k], n);
    if t2 :| t2 in h.el && t2 > n.term {
      VotersAbove(cfg, run, acts, books, k, n.term, t2);
    } else {
      ClaimedMatch(h, n, NodeAt(run, k, f));
    }
  }

  lemma NextPositive(cfg: Config, run: seq<System>, acts: seq<Action>, k: nat, x: NodeId, f: NodeId)
    requires IsRun(cfg, run, acts) && Leads(run, k, x) && f in PeerSet(cfg)
    ensures f in NodeAt(run, k, x).prs && NodeAt(run, k, x).prs[f].next >= 1
  {
    hide IsRun, BooksOK, BookOK, NodeOK;
    MatchSoundness(cfg, run, acts, k, x, f);
    Sized(cfg, run, acts);
    if |cfg.peers| == 1 {
      Sole(cfg, run, acts, k, x, k, x);
      OnlyPeer(cfg);
    } else {
      var books := RunOK(cfg, run, acts);
      RunLength(cfg, run, acts, books);
      StateAt(cfg, run, acts, books, k, x);
      LeaderAt(cfg, books[k], NodeAt(run, k, x));
      assert ProgressOK(books[k].h, NodeAt(run, k, x), f);
    }
  }

  /** Exactly when a leader's record of a follower is true: Next is within its log,
      and the two logs hold one term at the one index Match. */
  lemma MatchExactly(cfg: Config, run: seq<System>, acts: seq<Action>, k: nat, x: NodeId, f: NodeId)
    requires IsRun(cfg, run, acts) && Leads(run, k, x) && f in PeerSet(cfg)
    ensures IsNode(run, k, f) && NodeAt(run, k, f).id == f && f in NodeAt(run, k, x).prs
    ensures var n := NodeAt(run, k, x); var p := n.prs[f];
      MatchIsTrue(n, NodeAt(run, k, f)) <==>
        p.next <= |n.log| + 1 && (p.matched == 0 || B.Agree(n, NodeAt(run, k, f), p.matched))
  {
    hide IsRun;
    MatchSoundness(cfg, run, acts, k, x, f);
    NextPositive(cfg, run, acts, k, x, f);
    var n, m := NodeAt(run, k, x), NodeAt(run, k, f);
    var i := n.prs[f].matched;
    if i > 0 && B.Agree(n, m, i) {
      LogMatching(cfg, run, acts, k, x, k, f, i - 1);
    }
    if i > 0 && i <= |n.log| && n.log[..i] <= m.log { assert n.log[..i][i - 1] == m.log[i - 1]; }
  }

  // ----- linearizable reads -----

  /** Action `i` asks the leader `x` of term `t` for a read with context `c`. */
  predicate AsksRead(run: seq<System>, acts: seq<Action>, i: nat, x: NodeId, t: nat, c: Context) {
    && i < |acts| && acts[i] == Act(x, Read(c))
    && Leads(run, i, x) && NodeAt(run, i, x).term == t
  }

  /** No node had committed past `floor` by the time of action `i`. */
  ghost predicate CommitsBelow(run: seq<System>, i: nat, floor: nat) {
    forall j: nat, y | j <= i && IsNode(run, j, y) :: NodeAt(run, j, y).committed <= floor
  }

  ghost predicate Traced(run: seq<System>, acts: seq<Action>, k: nat, t: nat, c: Context, floor: nat) {
    exists i: nat, x :: i < k && AsksRead(run, acts, i, x, t, c) && CommitsBelow(run, i, floor)
  }

  lemma TopBounds(cfg: Config, run: seq<System>, acts: seq<Action>, books: seq<Book>, i: nat)
    requires BooksOK(cfg, run, acts, books) && i < |run|
    ensures CommitsBelow(run, i, books[i].top)
  {
    hide BooksOK, BookOK, Prov, ClaimsOfOK, VotesOK, SeenOK, LeaderOK, CandidateOK, ReadStatesOK, Extends;
    RunLength(cfg, run, acts, books);
    forall j: nat, y | j <= i && IsNode(run, j, y) ensures NodeAt(run, j, y).committed <= books[i].top {
      StateAt(cfg, run, acts, books, j, y);
      BooksGrow(cfg, run, acts, books, j, i);
    }
  }

  lemma {:induction false} AsksTraced(cfg: Config, run: seq<System>, acts: seq<Action>, books: seq<Book>, k: nat, t: nat, c: Context)
    requires BooksOK(cfg, run, acts, books) && k < |run| && books[0] == FirstBook(cfg) && (t, c) in books[k].asks
    ensures Traced(run, acts, k, t, c, books[k].asks[(t, c)].floor)
    decreases k
  {
    hide SysOK, CommitsBelow, BookExtends, ReleasesOK, Enabled;
    if k > 0 {
      var s, a := run[k - 1], acts[k - 1];
      assert StepBooks(cfg, s, a, books[k - 1], books[k]);
      assert a.id in s.nodes;
      if a.Act? && a.input.Read? && s.nodes[a.id].role.Leader? && (t, c) == (s.nodes[a.id].term, a.input.ctx) {
        TopBounds(cfg, run, acts, books, k - 1);
        assert AsksRead(run, acts, k - 1, a.id, t, c);
      } else {
        AsksTraced(cfg, run, acts, books, k - 1, t, c);
      }
    }
  }

  /** Every read released is one asked of the same node while it led the same
      term, and its index covers everything any node had committed by then. */
  lemma ReadIndexSafety(cfg: Config, run: seq<System>, acts: seq<Action>, k: nat, i: nat)
    requires IsRun(cfg, run, acts) && k < |acts| && i < |ReleasedBy(cfg, run[k], acts[k])|
    ensures var rs := ReleasedBy(cfg, run[k], acts[k])[i]; var x := acts[k].id;
      IsNode(run, k, x) && exists j: nat ::
        j <= k && AsksRead(run, acts, j, x, NodeAt(run, k, x).term, rs.context) && CommitsBelow(run, j, rs.index)
  {
    hide BooksOK, SysOK, StepBooks, Handle, Next, CommitsBelow, Sound, CanTear, Init;
    if |cfg.peers| == 1 {
      SoleRead(cfg, run, acts, k, i);
      return;
    }
    var books := RunOK(cfg, run, acts);
    RunLength(cfg, run, acts, books);
    StateOK(cfg, run, acts, books, k);
    var s, a := run[k], acts[k];
    IdleStep(cfg, s, books[k], a.id);
    ReleaserLeads(cfg, s.nodes[a.id], a.input);
    var rs := ReleasedBy(cfg, s, a)[i];
    var t := s.nodes[a.id].term;
    ReleasedAsks(cfg, run, acts, books, k, i);
    AsksTraced(cfg, run, acts, books, k + 1, t, rs.context);
    var floor := books[k + 1].asks[(t, rs.context)].floor;
    var j: nat, y :| j < k + 1 && AsksRead(run, acts, j, y, t, rs.context) && CommitsBelow(run, j, floor);
    ElectionSafety(cfg, run, acts, j, y, k, a.id);
    LowerFloor(run, j, floor, rs.index);
  }

  lemma LowerFloor(run: seq<System>, j: nat, floor: nat, index: nat)
    requires CommitsBelow(run, j, floor) && floor <= index
    ensures CommitsBelow(run, j, index)
  {
  }

  lemma ReleasedAsks(cfg: Config, run: seq<System>, acts: seq<Action>, books: seq<Book>, k: nat, i: nat)
    requires IsRun(cfg, run, acts) && BooksOK(cfg, run, acts, books) && k < |acts|
    requires acts[k].Act? && i < |ReleasedBy(cfg, run[k], acts[k])| && acts[k].id in run[k].nodes
    requires Handle(cfg, run[k].nodes[acts[k].id], acts[k].input).term == run[k].nodes[acts[k].id].term
    ensures var rs := ReleasedBy(cfg, run[k], acts[k])[i]; var t := run[k].nodes[acts[k].id].term;
      (t, rs.context) in books[k + 1].asks && rs.index >= books[k + 1].asks[(t, rs.context)].floor
  {
    hide SysOK, Handle, Next, BookExtends, Init;
    assert StepBooks(cfg, run[k], acts[k], books[k], books[k + 1]);
  }
}
