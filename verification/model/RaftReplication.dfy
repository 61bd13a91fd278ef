/** Replication on a leader: what it sends, how acknowledgements move its
    progress records, and how they let it commit. */
module RaftReplication {
  import opened RaftTypes
  import opened RaftCore
  import opened RaftHistory
  import opened RaftInvariant
  import opened RaftReads
  import opened RaftQuorum

  // ----- sending -----

  lemma AppendForOK(cfg: Config, b: Book, n: Node, f: NodeId)
    requires Shape(cfg, n) && LeadsOK(b.h, n) && HiddenOK(b) && f in n.prs && ProgressOK(b.h, n, f)
    ensures MsgsOK(cfg, b, AppendFor(cfg, n, f, n.prs[f].next))
  {
    var next := n.prs[f].next;
    var prev := next - 1;
    if next > |n.log| + 1 {
      assert ClaimMade(b.h, f, n.term, prev);
      assert b.h.claims[(f, n.term)] <= b.hidden[f];
    } else if next <= |n.log| && next > n.snapIndex {
      var ents := EntriesToSend(cfg, n, next);
      assert ents == n.log[prev..prev + |ents|];
    }
  }

  lemma SendAllOK(cfg: Config, b: Book, n: Node, msgs: seq<Message>)
    requires StepOK(cfg, b, n) && MsgsOK(cfg, b, msgs)
    ensures StepOK(cfg, b, n.(msgs := n.msgs + msgs))
  {
    hide BookOK, NodeOK, MsgOK;
    MsgsOnly(cfg, b, n, n.(msgs := n.msgs + msgs));
  }

  lemma SendAppendOK(cfg: Config, b: Book, n: Node, f: NodeId)
    requires StepOK(cfg, b, n) && n.role.Leader?
    ensures n.snapIndex <= |n.log| && StepOK(cfg, b, SendAppend(cfg, n, f))
  {
    hide StepOK, HistOK, AsksOK, HiddenOK, LeadsOK, ReadsOK, ProgressOK, AppendFor, MsgsOK;
    Facts(cfg, b, n);
    LeaderFacts(cfg, b, n);
    if f in n.prs {
      AppendForOK(cfg, b, n, f);
      SendAllOK(cfg, b, n, AppendFor(cfg, n, f, n.prs[f].next));
    }
  }

  lemma {:induction false} BcastAppendOK(cfg: Config, b: Book, n: Node, peers: seq<NodeId>)
    requires StepOK(cfg, b, n) && n.role.Leader?
    ensures n.snapIndex <= |n.log| && StepOK(cfg, b, BcastAppend(cfg, n, peers))
    decreases peers
  {
    hide StepOK, AppendFor, HistOK, AsksOK, HiddenOK;
    Facts(cfg, b, n);
    if peers != [] {
      if peers[0] == n.id {
        BcastAppendOK(cfg, b, n, peers[1..]);
      } else {
        SendAppendOK(cfg, b, n, peers[0]);
        BcastAppendOK(cfg, b, SendAppend(cfg, n, peers[0]), peers[1..]);
      }
    }
  }

  // ----- progress -----

  lemma SameReadsPrs(cfg: Config, b: Book, n: Node, n': Node)
    requires ReadsOK(cfg, b, n) && n' == n.(prs := n'.prs)
    ensures ReadsOK(cfg, b, n')
  {
    hide PendingOK, QueueOK;
  }

  /** A leader whose progress records alone changed. */
  lemma ProgressOnly(cfg: Config, b: Book, n: Node, n': Node)
    requires StepOK(cfg, b, n) && n.role.Leader?
    requires n' == n.(prs := n'.prs) && n'.prs.Keys == n.prs.Keys && ProgressesOK(b.h, n')
    ensures StepOK(cfg, b, n')
  {
    hide BookOK, MsgsOK, ReadsOK, ProgressesOK, ClaimsOK;
    SameReadsPrs(cfg, b, n, n');
  }

  lemma UpdateProgressOK(h: History, n: Node, f: NodeId, i: nat)
    requires ProgressesOK(h, n) && f in n.prs && ClaimMade(h, f, n.term, i)
    ensures ProgressesOK(h, n.(prs := n.prs[f := MaybeUpdate(n.prs[f], i)]))
  {
    var n' := n.(prs := n.prs[f := MaybeUpdate(n.prs[f], i)]);
    forall g | g in n'.prs ensures ProgressOK(h, n', g) {
      assert ProgressOK(h, n, g);
    }
  }

  lemma ScanBackBound(n: Node, hint: nat, term: nat)
    ensures ScanBack(n, hint, term) <= hint
  {
  }

  lemma DecrProgressOK(h: History, n: Node, m: Message)
    requires ProgressesOK(h, n) && m.AppendResp? && m.reject && m.rejectHint <= m.logIndex
    requires m.from in n.prs && n.prs[m.from].next == m.logIndex + 1
    ensures ProgressesOK(h, n.(prs := n.prs[m.from := MaybeDecrTo(n.prs[m.from], m.logIndex, DecrHint(n, m))]))
  {
    var n' := n.(prs := n.prs[m.from := MaybeDecrTo(n.prs[m.from], m.logIndex, DecrHint(n, m))]);
    ScanBackBound(n, Min(m.rejectHint, |n.log|), m.hintTerm);
    forall g | g in n'.prs ensures ProgressOK(h, n', g) {
      assert ProgressOK(h, n, g);
    }
  }

  // ----- commitment -----

  /** What the leader's own records show replicated on a quorum is committed. */
  lemma QuorumCommits(cfg: Config, h: History, n: Node)
    requires ValidConfig(cfg) && Shape(cfg, n) && LeadsOK(h, n) && ProgressesOK(h, n) && CanCommit(cfg, n)
    ensures Committed(cfg, h, n.term, QuorumIndex(cfg, n))
  {
    var m := QuorumIndex(cfg, n);
    QuorumIndexMeaning(cfg, n, m);
    var q := Holders(n, cfg.peers, m);
    forall x | x in q ensures x in Claimants(cfg, h, n.term, m) {
      var i :| 0 <= i < |cfg.peers| && n.prs[cfg.peers[i]].matched >= m && cfg.peers[i] == x;
      assert ProgressOK(h, n, x);
    }
    SubsetSize(q, Claimants(cfg, h, n.term, m));
  }

  lemma CommitRaised(cfg: Config, h: History, t: nat, m: nat, h': History)
    requires HistOK(cfg, h) && Committed(cfg, h, t, m) && h.el[t].commit <= m
    requires h' == h.(el := h.el[t := h.el[t].(commit := m)])
    ensures HistOK(cfg, h') && Extends(h, h') && HistFrame(h, h', h.el[t].leader)
  {
    hide GrantsOK, BidsOK, ClaimOK, ElectionOK, CommitsOK, GrantOK, BidOK, Committed;
    assert m <= |h.el[t].log| by { CommittedIndex(cfg, h, t, m); }
    CommitExtends(h, t, m, h');
    ElectionsStable(cfg, h, h');
    GrantsStable(cfg, h, h');
    BidsStable(h, h');
    assert ClaimKeysOK(cfg, h');
    CommittedStable(cfg, h, h', t, m);
    assert CommittedBy(cfg, h', t, m, h'.el[t].log[..m]);
    assert NewCommitsBacked(cfg, h, h');
    CommitsStable(cfg, h, h');
  }

  lemma CommittedIndex(cfg: Config, h: History, t: nat, m: nat)
    requires Committed(cfg, h, t, m)
    ensures t in h.el && 1 <= m <= |h.el[t].log|
  {
  }

  lemma CommitExtends(h: History, t: nat, m: nat, h': History)
    requires t in h.el && h.el[t].commit <= m && h' == h.(el := h.el[t := h.el[t].(commit := m)])
    ensures Extends(h, h') && HistFrame(h, h', h.el[t].leader)
  {
  }

  lemma CommitBook(cfg: Config, b: Book, t: nat, m: nat, b': Book)
    requires BookOK(cfg, b) && Committed(cfg, b.h, t, m) && b.h.el[t].commit <= m
    requires b' == b.(h := b.h.(el := b.h.el[t := b.h.el[t].(commit := m)]), top := Max(b.top, m))
    ensures BookOK(cfg, b') && Frame(b, b', b.h.el[t].leader)
  {
    hide HistOK, Committed, HistFrame, Extends;
    CommittedIndex(cfg, b.h, t, m);
    CommitRaised(cfg, b.h, t, m, b'.h);
    CommitTop(cfg, b, t, m, b');
    AsksStable(b, b');
    HiddenStable(b, b');
  }

  lemma CommitTop(cfg: Config, b: Book, t: nat, m: nat, b': Book)
    requires HistOK(cfg, b.h) && AsksOK(b) && Extends(b.h, b'.h) && t in b.h.el
    requires b' == b.(h := b.h.(el := b.h.el[t := b.h.el[t].(commit := m)]), top := Max(b.top, m))
    ensures Reached(b'.h, b'.h.count, b'.top)
  {
    hide GrantsOK, BidsOK, ClaimKeysOK, CommitsOK;
    assert ElectionOK(cfg, b.h, t);
    if b'.top == b.top { ReachedStable(b.h, b'.h, b.h.count, b.top); }
  }

  /** The leader after it commits `m`, before it releases gated reads. */
  lemma LeaderCommits(cfg: Config, b: Book, n: Node, m: nat, b': Book)
    requires StepOK(cfg, b, n) && n.role.Leader? && Committed(cfg, b.h, n.term, m) && n.committed <= m
    requires b' == b.(h := b.h.(el := b.h.el[n.term := b.h.el[n.term].(commit := m)]), top := Max(b.top, m))
    ensures StepOK(cfg, b', n.(committed := m)) && Frame(b, b', n.id)
  {
    hide StepOK, NodeOK, MsgsOK, HistOK, AsksOK, HiddenOK, ElectionsOK, Committed, ReadFrame, HistFrame, ReadsOK,
         ProgressesOK;
    var n' := n.(committed := m);
    Parts(cfg, b, n);
    LeaderFacts(cfg, b, n);
    CommittedIndex(cfg, b.h, n.term, m);
    CommitBook(cfg, b, n.term, m, b');
    MsgsStable(cfg, b, b', n.msgs);
    Elections(cfg, b.h);
    Elections(cfg, b'.h);
    LeaderCommitsNode(cfg, b, b', n, n');
    Join(cfg, b', n');
  }

  lemma LeaderCommitsNode(cfg: Config, b: Book, b': Book, n: Node, n': Node)
    requires NodeOK(cfg, b, n) && n.role.Leader? && n' == n.(committed := n'.committed)
    requires ElectionsOK(cfg, b.h) && ElectionsOK(cfg, b'.h) && AsksOK(b) && BookExtends(b, b')
    requires n.committed <= n'.committed <= |n.log|
    requires b' == b.(h := b.h.(el := b.h.el[n.term := b.h.el[n.term].(commit := n'.committed)]), top := Max(b.top, n'.committed))
    ensures NodeOK(cfg, b', n')
  {
    hide ElectionsOK, AsksOK, ReadsOK, ReadStatesOK, ClaimsOK, Extends;
    ProvStable(b.h, b'.h, b.h.count, b'.h.count, n.log);
    ClaimsOfStable(cfg, b.h, b'.h, n);
    ReadsStable(cfg, b, b', n);
    CommitReads(cfg, b', n, n');
    ReadStatesStable(b, b', n);
    ProgressesStable(b.h, b'.h, n);
    CommitFields(b'.h, n, n');
    if n'.committed > 0 { assert SeenBy(b'.h, n'.log[..n'.committed], n'.term); }
    assert VotesOK(b'.h, n');
  }

  lemma CommitReads(cfg: Config, b: Book, n: Node, n': Node)
    requires n' == n.(committed := n'.committed)
    ensures ReadsOK(cfg, b, n) ==> ReadsOK(cfg, b, n')
    ensures ReadStatesOK(b, n) ==> ReadStatesOK(b, n')
  {
    hide PendingOK, QueueOK;
  }

  lemma CommitFields(h: History, n: Node, n': Node)
    requires n' == n.(committed := n'.committed) && ClaimsOfOK(h, n) && ProgressesOK(h, n)
    ensures ClaimsOfOK(h, n') && ProgressesOK(h, n')
  {
    hide ClaimsOK;
    forall f | f in n'.prs ensures ProgressOK(h, n', f) {
      assert ProgressOK(h, n, f);
    }
  }

  lemma MaybeCommitOK(cfg: Config, b: Book, n: Node) returns (b': Book)
    requires StepOK(cfg, b, n) && n.role.Leader?
    ensures ValidConfig(cfg) && n.prs.Keys == PeerSet(cfg)
    ensures StepOK(cfg, b', MaybeCommit(cfg, n)) && Frame(b, b', n.id)
  {
    hide StepOK, Frame, HistOK, AsksOK, HiddenOK, ReadsOK, ProgressesOK, Committed, ReleaseGated;
    Facts(cfg, b, n);
    LeaderFacts(cfg, b, n);
    b' := b;
    FrameSelf(b, n.id);
    if CanCommit(cfg, n) {
      var m := QuorumIndex(cfg, n);
      QuorumCommits(cfg, b.h, n);
      CommittedIndex(cfg, b.h, n.term, m);
      var b1 := b.(h := b.h.(el := b.h.el[n.term := b.h.el[n.term].(commit := m)]), top := Max(b.top, m));
      LeaderCommits(cfg, b, n, m, b1);
      b' := ReleaseGatedOK(cfg, b1, n.(committed := m));
      FrameTrans(b, b1, b', n.id);
    }
  }
}
