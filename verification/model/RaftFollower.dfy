/** A follower's handling of appends, heartbeats and snapshots. */
module RaftFollower {
  import opened RaftTypes
  import opened RaftCore
  import opened RaftHistory
  import opened RaftInvariant
  import opened RaftReads
  import opened RaftLeader

  lemma LeaderLog(cfg: Config, h: History, t: nat)
    requires ElectionsOK(cfg, h) && t in h.el
    ensures WellFormed(h.el[t].log) && h.el[t].base <= h.el[t].log
  {
    assert ElectionOK(cfg, h, t);
  }

  /** A log that holds the leader's term at an index holds its log up to there. */
  lemma LeaderMatches(cfg: Config, h: History, t: nat, log: Log, p: nat)
    requires ElectionsOK(cfg, h) && Prov(h, h.count, log) && t in h.el
    requires p < |log| && p < |h.el[t].log| && log[p].term == h.el[t].log[p].term
    ensures log[..p + 1] == h.el[t].log[..p + 1]
  {
    hide ElectionsOK, Prov;
    GrownProv(cfg, h, t, h.el[t].log);
    SameTermSameLog(cfg, h, log, h.el[t].log, p);
  }

  // ----- what an acknowledgement says -----

  /** What any leader up to `t2` has committed is in the log of the leader of `t2`. */
  lemma SeenInLeader(cfg: Config, h: History, log: Log, t: nat, t2: nat)
    requires ValidConfig(cfg) && HistOK(cfg, h) && SeenBy(h, log, t) && t <= t2 && t2 in h.el
    ensures log <= h.el[t2].log
  {
    hide GrantsOK, BidsOK, ClaimKeysOK, CommitsOK, ElectionsOK;
    if t < t2 {
      EarlierCommit(cfg, h, t, t2);
      LeaderLog(cfg, h, t2);
      PrefixTake(log, h.el[t].log, |log|);
    }
  }

  /** What a leader has committed is never missing from a later leader's first log. */
  lemma NotLost(cfg: Config, h: History, t: nat, m: nat, n: nat)
    requires ValidConfig(cfg) && HistOK(cfg, h) && t in h.el && m <= h.el[t].commit
    ensures !LostBefore(h, n, t, m)
  {
    hide GrantsOK, BidsOK, ClaimKeysOK, CommitsOK, ElectionsOK;
    forall t2 | t2 in h.el && t2 > t ensures Has(h, h.el[t2].base, t, m) {
      EarlierCommit(cfg, h, t, t2);
    }
  }

  lemma HasTake(h: History, log: Log, t: nat, m: nat)
    requires t in h.el && m <= |h.el[t].log| && m <= |log| && h.el[t].log[..m] == log[..m]
    ensures Has(h, log, t, m)
  {
  }

  lemma PrefixClaims(h: History, n: nat, log: Log, t: nat, i: nat)
    requires t in h.el && i <= |h.el[t].log| && h.el[t].log[..i] <= log
    ensures ClaimsOK(h, n, log, t, i)
  {
    forall m: nat | m <= i ensures ClaimOK(h, n, log, t, m) {
      HasShorter(h, log, t, i, m);
    }
  }

  /** A node may acknowledge its own commit index to any leader it follows. */
  lemma CommittedClaims(cfg: Config, h: History, n: Node)
    requires ValidConfig(cfg) && HistOK(cfg, h) && Shape(cfg, n) && SeenOK(h, n) && n.term in h.el
    ensures ClaimsOK(h, h.count, n.log, n.term, n.committed)
    ensures n.committed <= |h.el[n.term].log| || n.committed <= n.snapIndex
  {
    hide GrantsOK, BidsOK, ClaimKeysOK, CommitsOK, ElectionsOK, ClaimOK;
    if n.committed == 0 {
      PrefixClaims(h, h.count, n.log, n.term, 0);
    } else {
      var c := n.log[..n.committed];
      var t: nat :| SeenBy(h, c, t) && (t <= n.term || n.committed <= n.snapIndex);
      if t <= n.term {
        SeenInLeader(cfg, h, c, t, n.term);
        assert h.el[n.term].log[..n.committed] == c;
        PrefixClaims(h, h.count, n.log, n.term, n.committed);
      } else {
        LaterClaims(cfg, h, n, t);
      }
    }
  }

  lemma LaterClaims(cfg: Config, h: History, n: Node, t: nat)
    requires ElectionsOK(cfg, h) && n.committed <= |n.log| && n.term in h.el
    requires SeenBy(h, n.log[..n.committed], t) && t > n.term
    ensures ClaimsOK(h, h.count, n.log, n.term, n.committed)
  {
    hide ElectionsOK;
    ElectionBase(cfg, h, t);
    ElectionOrd(cfg, h, t);
    forall m: nat | m <= n.committed ensures ClaimOK(h, h.count, n.log, n.term, m) {
      if Has(h, h.el[t].base, n.term, m) {
        PrefixTake(h.el[n.term].log[..m], h.el[t].base, m);
        PrefixTake(h.el[t].base, h.el[t].log, m);
        PrefixTake(n.log[..n.committed], h.el[t].log, m);
        HasTake(h, n.log, n.term, m);
      } else {
        assert Loses(h, t, n.term, m);
      }
    }
  }

  /** Replacing a log by a piece of the log of the leader of `t2` keeps every
      acknowledgement up to `t2`, or shows that leader never had it. */
  lemma ReplacedClaims(cfg: Config, h: History, log: Log, t2: nat, x: nat, t: nat, most: nat)
    requires ElectionsOK(cfg, h) && t2 in h.el && t <= t2 && x <= |h.el[t2].log|
    requires !(h.el[t2].log[..x] <= log) && ClaimsOK(h, h.count, log, t, most)
    ensures ClaimsOK(h, h.count, h.el[t2].log[..x], t, most)
  {
    assert ElectionOK(cfg, h, t2);
    hide ElectionsOK;
    forall m: nat | m <= most ensures ClaimOK(h, h.count, h.el[t2].log[..x], t, m) {
      assert ClaimOK(h, h.count, log, t, m);
      if Has(h, log, t, m) {
        ReplacedClaim(h, log, t2, x, t, m);
      }
    }
  }

  lemma ShorterPrefix(l: Log, x: nat, m: nat, log: Log)
    requires x <= m <= |l| && l[..m] <= log
    ensures l[..x] <= log
  {
    assert l[..x] == l[..m][..x];
  }

  lemma ReplacedClaim(h: History, log: Log, t2: nat, x: nat, t: nat, m: nat)
    requires t2 in h.el && t <= t2 && x <= |h.el[t2].log| && h.el[t2].ord < h.count && h.el[t2].base <= h.el[t2].log
    requires !(h.el[t2].log[..x] <= log) && Has(h, log, t, m)
    ensures ClaimOK(h, h.count, h.el[t2].log[..x], t, m)
  {
    var l2 := h.el[t2].log;
    if t == t2 || Has(h, h.el[t2].base, t, m) {
      if t < t2 {
        PrefixTake(h.el[t].log[..m], h.el[t2].base, m);
        PrefixTake(h.el[t2].base, l2, m);
      }
      assert l2[..m] == h.el[t].log[..m] <= log;
      if x <= m { ShorterPrefix(l2, x, m, log); }
      assert l2[..m] == l2[..x][..m];
    } else {
      assert Loses(h, t2, t, m);
    }
  }

  // ----- one move of a follower -----

  function ClaimedBook(b: Book, n: Node, i: nat): Book {
    b.(h := WithClaim(b.h, n.id, n.term, i), hidden := b.hidden[n.id := n.snapIndex], top := Max(b.top, n.committed))
  }

  /** How a follower of the leader of `t` may change its log. */
  predicate LogMove(h: History, t: nat, log: Log, log': Log) {
    || log' == log
    || (t in h.el && |log'| <= |h.el[t].log| && log' == h.el[t].log[..|log'|] && !(log' <= log))
  }

  lemma ClaimHist(cfg: Config, h: History, n: Node, i: nat)
    requires HistOK(cfg, h) && n.id in PeerSet(cfg) && VotesOK(h, n) && n.term in h.el
    ensures var h' := WithClaim(h, n.id, n.term, i); HistOK(cfg, h') && Extends(h, h') && HistFrame(h, h', n.id)
  {
    hide GrantsOK, BidsOK, ClaimOK, ElectionOK, CommitsOK, GrantOK, BidOK;
    var h' := WithClaim(h, n.id, n.term, i);
    assert Extends(h, h');
    ElectionsStable(cfg, h, h');
    LogClaims(h, n, h');
    GrantsStable(cfg, h, h');
    BidsStable(h, h');
    CommitsStable(cfg, h, h');
  }

  lemma ClaimBook(cfg: Config, b: Book, n: Node, n': Node, i: nat)
    requires BookOK(cfg, b) && n.id in PeerSet(cfg) && VotesOK(b.h, n) && MarksOK(b, n) && n.term in b.h.el
    requires n'.id == n.id && n'.term == n.term && n'.snapIndex >= n.snapIndex
    requires i <= |b.h.el[n.term].log| || (i <= n'.snapIndex && Superseded(b.h, n.term))
    requires Reached(b.h, b.h.count, Max(b.top, n'.committed))
    ensures BookOK(cfg, ClaimedBook(b, n', i)) && Frame(b, ClaimedBook(b, n', i), n.id)
  {
    hide HistOK, VotesOK, Reached;
    var b' := ClaimedBook(b, n', i);
    ClaimHist(cfg, b.h, n, i);
    ReachedStable(b.h, b'.h, b.h.count, b'.top);
    AsksStable(b, b');
  }

  /** Only a log of a later leader backs a claim beyond the leader's own. */
  lemma ClaimSuperseded(h: History, log: Log, t: nat, i: nat)
    requires t in h.el && ClaimsOK(h, h.count, log, t, i) && i > |h.el[t].log|
    ensures Superseded(h, t)
  {
    assert ClaimOK(h, h.count, log, t, i);
  }

  lemma MovedClaims(cfg: Config, h: History, n: Node, n': Node, i: nat)
    requires ElectionsOK(cfg, h) && ClaimsOfOK(h, n) && n.term in h.el
    requires n'.id == n.id && n'.term == n.term && LogMove(h, n.term, n.log, n'.log)
    requires ClaimsOK(h, h.count, n'.log, n.term, i)
    requires ElectionsOK(cfg, WithClaim(h, n.id, n.term, i)) && Extends(h, WithClaim(h, n.id, n.term, i))
    ensures ClaimsOfOK(WithClaim(h, n.id, n.term, i), n')
  {
    hide ElectionsOK, Extends, ClaimOK;
    var h' := WithClaim(h, n.id, n.term, i);
    forall t | (n.id, t) in h'.claims
      ensures t <= n.term && t in h'.el && ClaimsOK(h', h'.count, n'.log, t, h'.claims[(n.id, t)])
    {
      if (n.id, t) in h.claims {
        if n'.log != n.log {
          ReplacedClaims(cfg, h, n.log, n.term, |n'.log|, t, h.claims[(n.id, t)]);
        }
        ClaimsStable(cfg, h, h', h.count, h'.count, n'.log, t, h.claims[(n.id, t)]);
      }
      if t == n.term { ClaimsStable(cfg, h, h', h.count, h'.count, n'.log, t, i); }
    }
  }

  /** The commit index stays on the same entries, or follows the leader's. */
  predicate CommitMove(h: History, n: Node, n': Node)
    requires n.committed <= |n.log| && n'.committed <= |n'.log|
  {
    || (n'.committed == n.committed && n'.log[..n'.committed] == n.log[..n.committed])
    || SeenBy(h, n'.log[..n'.committed], n.term)
  }

  lemma MovedSeen(h: History, n: Node, n': Node)
    requires n.committed <= |n.log| && n'.committed <= |n'.log| && SeenOK(h, n) && CommitMove(h, n, n')
    requires n'.term == n.term && n'.snapIndex >= n.snapIndex
    ensures SeenOK(h, n')
  {
  }

  lemma MovedProv(cfg: Config, h: History, n: Node, log: Log)
    requires ElectionsOK(cfg, h) && Prov(h, h.count, n.log) && LogMove(h, n.term, n.log, log)
    ensures Prov(h, h.count, log)
  {
    if log != n.log && log != [] {
      ElectionPrefix(cfg, h, n.term, |log|);
      assert ElectionOK(cfg, h, n.term);
    }
  }

  lemma MovedTop(h: History, b: Book, n: Node, n': Node)
    requires h == b.h && AsksOK(b) && MarksOK(b, n) && n.committed <= |n.log| && n'.committed <= |n'.log|
    requires CommitMove(h, n, n')
    requires n.term in h.el && h.el[n.term].ord < h.count
    ensures Reached(h, h.count, Max(b.top, n'.committed))
  {
    if n'.committed > b.top { assert SeenBy(h, n'.log[..n'.committed], n.term); }
  }

  /** A follower of the leader of its term changes its log, snapshot or commit
      index, and acknowledges `i`. */
  lemma FollowerMoves(cfg: Config, b: Book, n: Node, n': Node, i: nat)
    requires StepOK(cfg, b, n) && n.role.Follower? && n.term in b.h.el
    requires n' == n.(log := n'.log, snapIndex := n'.snapIndex, committed := n'.committed)
    requires n.snapIndex <= n'.snapIndex <= n'.committed <= |n'.log|
    requires LogMove(b.h, n.term, n.log, n'.log) && n.committed <= |n.log| && CommitMove(b.h, n, n')
    requires ClaimsOK(b.h, b.h.count, n'.log, n.term, i)
    requires i <= |b.h.el[n.term].log| || i <= n'.snapIndex
    ensures StepOK(cfg, ClaimedBook(b, n', i), n') && Frame(b, ClaimedBook(b, n', i), n.id)
  {
    hide StepOK, HistOK, AsksOK, HiddenOK, ClaimsOK, LogMove, CommitMove, MsgsOK, VotesOK, ClaimsOfOK, SeenOK, ReadStatesOK,
         Extends, HistFrame, ReadFrame, Reached, ElectionsOK, Prov;
    Parts(cfg, b, n);
    Elections(cfg, b.h);
    var b' := ClaimedBook(b, n', i);
    ElectionOrd(cfg, b.h, n.term);
    MovedTop(b.h, b, n, n');
    if i > |b.h.el[n.term].log| { ClaimSuperseded(b.h, n'.log, n.term, i); }
    ClaimBook(cfg, b, n, n', i);
    Elections(cfg, b'.h);
    MovedClaims(cfg, b.h, n, n', i);
    MovedSeen(b.h, n, n');
    SeenOKStable(b.h, b'.h, n');
    MovedProv(cfg, b.h, n, n'.log);
    ProvStable(b.h, b'.h, b.h.count, b'.h.count, n'.log);
    MovedVotes(b.h, b'.h, n, n');
    ReadStatesStable(b, b', n);
    MovedReads(b', n, n');
    MsgsStable(cfg, b, b', n.msgs);
    Join(cfg, b', n');
  }

  lemma ElectionOrd(cfg: Config, h: History, t: nat)
    requires ElectionsOK(cfg, h) && t in h.el
    ensures h.el[t].ord < h.count && t >= 1
  {
    assert ElectionOK(cfg, h, t);
  }

  lemma MovedVotes(h: History, h': History, n: Node, n': Node)
    requires VotesOK(h, n) && h'.el == h.el && h'.grants == h.grants && h'.bids == h.bids
    requires n'.id == n.id && n'.term == n.term && n'.vote == n.vote && n'.role == n.role
    ensures VotesOK(h', n')
  {
  }

  lemma MovedReads(b: Book, n: Node, n': Node)
    requires ReadStatesOK(b, n) && n'.term == n.term && n'.readStates == n.readStates
    ensures ReadStatesOK(b, n')
  {
  }

  // ----- appends -----

  /** A log that matches the leader's log at an index matches it up to there. */
  lemma MatchedPrefix(cfg: Config, h: History, n: Node, i: nat)
    requires ElectionsOK(cfg, h) && Prov(h, h.count, n.log) && n.term in h.el
    requires n.snapIndex <= i <= |h.el[n.term].log| && TermAt(n, i) == TermIn(h.el[n.term].log, i)
    ensures i <= |n.log| && n.log[..i] == h.el[n.term].log[..i]
  {
    hide ElectionsOK, Prov;
    LeaderLog(cfg, h, n.term);
    if i > 0 { LeaderMatches(cfg, h, n.term, n.log, i - 1); }
  }

  /** Where `findConflict` stops, for entries cut from the leader's log `l`. */
  lemma {:induction false} ConflictMeaning(n: Node, l: Log, k: nat, e: nat)
    requires WellFormed(l) && n.snapIndex <= k <= e <= |l| && k <= |n.log|
    ensures var c := FindConflict(n, l[k..e]);
      && (c == 0 ==> e <= |n.log| && forall p | k <= p < e :: n.log[p].term == l[p].term)
      && (c > 0 ==>
            && k < c <= e && c - 1 <= |n.log|
            && (forall p | k <= p < c - 1 :: n.log[p].term == l[p].term)
            && (c <= |n.log| ==> n.log[c - 1].term != l[c - 1].term))
    decreases e - k
  {
    if k < e {
      var ents := l[k..e];
      assert ents[0] == l[k] && ents[1..] == l[k + 1..e];
      if MatchTerm(n, ents[0].index, ents[0].term) {
        ConflictMeaning(n, l, k + 1, e);
      }
    } else {
      assert l[k..e] == [];
    }
  }

  /** Splicing entries cut from the leader's log leaves either the log as it
      was, already holding them, or exactly the leader's log up to their end. */
  lemma SpliceMeaning(cfg: Config, h: History, n: Node, k: nat, e: nat)
    requires ElectionsOK(cfg, h) && Prov(h, h.count, n.log) && n.term in h.el
    requires var l := h.el[n.term].log; k <= e <= |l| && k <= |n.log| && n.log[..k] == l[..k]
    requires n.snapIndex <= n.committed <= k
    ensures var l := h.el[n.term].log; var r := SpliceFrom(n, k, l[k..e]);
      && r == n.(log := r.log)
      && l[..e] <= r.log && n.log[..k] <= r.log && LogMove(h, n.term, n.log, r.log)
  {
    hide ElectionsOK, Prov, WellFormed;
    var l := h.el[n.term].log;
    LeaderLog(cfg, h, n.term);
    ConflictMeaning(n, l, k, e);
    var c := FindConflict(n, l[k..e]);
    if c == 0 {
      PrefixAgrees(cfg, h, n, l, k, e);
    } else {
      PrefixAgrees(cfg, h, n, l, k, c - 1);
      SpliceResult(n, l, k, e, c);
    }
  }

  lemma PrefixAgrees(cfg: Config, h: History, n: Node, l: Log, k: nat, p: nat)
    requires ElectionsOK(cfg, h) && Prov(h, h.count, n.log) && n.term in h.el && l == h.el[n.term].log
    requires k <= p <= |n.log| && p <= |l| && n.log[..k] == l[..k]
    requires forall q | k <= q < p :: n.log[q].term == l[q].term
    ensures n.log[..p] == l[..p]
  {
    hide ElectionsOK, Prov;
    if p > k { LeaderMatches(cfg, h, n.term, n.log, p - 1); }
  }

  lemma SpliceResult(n: Node, l: Log, k: nat, e: nat, c: nat)
    requires WellFormed(l) && k < c <= e <= |l| && c - 1 <= |n.log| && n.log[..c - 1] == l[..c - 1] && n.committed <= k
    requires c <= |n.log| ==> n.log[c - 1].term != l[c - 1].term
    requires c == FindConflict(n, l[k..e])
    ensures var r := SpliceFrom(n, k, l[k..e]);
      r == n.(log := l[..e]) && !(l[..e] <= n.log) && n.log[..k] <= l[..e]
  {
    hide FindConflict;
    assert l[k..e][c - k - 1..] == l[c - 1..e];
    assert l[c - 1..e][0].index == c;
    CutJoins(l, n.log, c - 1, e);
    assert l[..e][c - 1] == l[c - 1];
    ShorterPrefix(n.log, k, c - 1, l[..e]);
  }

  lemma CutJoins(l: Log, log: Log, p: nat, e: nat)
    requires p <= e <= |l| && p <= |log| && log[..p] == l[..p]
    ensures log[..p] + l[p..e] == l[..e] && log[..p] <= l[..e]
  {
  }

  lemma SendClaim(cfg: Config, b: Book, n: Node, m: Message)
    requires StepOK(cfg, b, n) && m.from == n.id && m.to in PeerSet(cfg) && m.term == n.term && n.term >= 1
    requires (m.AppendResp? && !m.reject) || m.InstallSnapshotResp?
    requires ClaimMade(b.h, n.id, n.term, m.logIndex)
    ensures StepOK(cfg, b, Send(n, m))
  {
    hide BookOK, NodeOK, MsgsOK;
    assert n.id in PeerSet(cfg) by { Facts(cfg, b, n); }
    SendOK(cfg, b, n, m);
  }

  lemma Follows(cfg: Config, b: Book, n: Node)
    requires StepOK(cfg, b, n)
    ensures ValidConfig(cfg) && Shape(cfg, n) && HistOK(cfg, b.h) && SeenOK(b.h, n) && Prov(b.h, b.h.count, n.log)
    ensures n.term in b.h.el ==> n.term >= 1
    ensures VotesOK(b.h, n) && ClaimsOfOK(b.h, n) && MarksOK(b, n)
  {
    if n.term in b.h.el { assert ElectionOK(cfg, b.h, n.term); }
  }

  /** Acknowledging its own commit index. */
  lemma AckCommitted(cfg: Config, b: Book, n: Node, m: Message) returns (b': Book)
    requires StepOK(cfg, b, n) && n.role.Follower? && n.term in b.h.el
    requires (m.AppendResp? && !m.reject) || m.InstallSnapshotResp?
    requires m.from == n.id && m.to in PeerSet(cfg) && m.term == n.term && m.logIndex == n.committed
    ensures StepOK(cfg, b', Send(n, m)) && Frame(b, b', n.id)
  {
    hide StepOK, HistOK, ClaimsOK, SeenOK, VotesOK, ClaimsOfOK, Prov, Frame;
    Follows(cfg, b, n);
    CommittedClaims(cfg, b.h, n);
    b' := ClaimedBook(b, n, n.committed);
    FollowerMoves(cfg, b, n, n, n.committed);
    SendClaim(cfg, b', n, m);
  }

  predicate IsAppendFrom(cfg: Config, b: Book, n: Node, m: Message) {
    && m.Append? && m.term == n.term && m.from in PeerSet(cfg) && m.term in b.h.el
    && m.commit <= b.h.el[m.term].commit && AppendBodyOK(b, m) && m.to == n.id
  }

  /** The preceding entry can only match inside the leader's log. */
  lemma MatchIsReal(cfg: Config, b: Book, n: Node, m: Message)
    requires Shape(cfg, n) && MarksOK(b, n) && ElectionsOK(cfg, b.h) && Prov(b.h, b.h.count, n.log)
    requires IsAppendFrom(cfg, b, n, m) && n.committed <= m.logIndex && MatchTerm(n, m.logIndex, m.logTerm)
    ensures var l := b.h.el[m.term].log; var e := m.logIndex + |m.entries|;
      && e <= |l| && m.entries == l[m.logIndex..e]
      && m.logIndex <= |n.log| && n.log[..m.logIndex] == l[..m.logIndex]
  {
    hide ElectionsOK, Prov;
    ProvWellFormed(cfg, b.h, b.h.count, n.log);
    assert m.logTerm >= 1 || m.logIndex == 0 || m.logIndex > |n.log|;
    MatchedPrefix(cfg, b.h, n, m.logIndex);
  }

  lemma AcceptOK(cfg: Config, b: Book, n: Node, m: Message) returns (b': Book)
    requires StepOK(cfg, b, n) && n.role.Follower? && IsAppendFrom(cfg, b, n, m)
    requires n.committed <= m.logIndex && MatchTerm(n, m.logIndex, m.logTerm)
    ensures StepOK(cfg, b', HandleAppend(n, m)) && Frame(b, b', n.id)
  {
    hide StepOK, HistOK, ClaimsOK, SeenOK, VotesOK, ClaimsOfOK, Prov, Frame, ElectionsOK, SpliceFrom, LogMove;
    Follows(cfg, b, n);
    Elections(cfg, b.h);
    var l := b.h.el[m.term].log;
    var k, e := m.logIndex, m.logIndex + |m.entries|;
    MatchIsReal(cfg, b, n, m);
    SpliceMeaning(cfg, b.h, n, k, e);
    var r := SpliceFrom(n, k, m.entries);
    var n' := MaybeAppend(n, k, m.commit, m.entries);
    assert n' == n.(log := r.log, committed := Max(n.committed, Min(m.commit, e)));
    AcceptCommit(b.h, n, n', m.commit, k, e);
    PrefixClaims(b.h, b.h.count, n'.log, n.term, e);
    b' := ClaimedBook(b, n', e);
    FollowerMoves(cfg, b, n, n', e);
    SendClaim(cfg, b', n', AppendResp(n.id, m.from, n.term, e, false, 0, 0));
  }

  lemma AcceptCommit(h: History, n: Node, n': Node, commit: nat, k: nat, e: nat)
    requires n.term in h.el && commit <= h.el[n.term].commit && n.committed <= k <= |n.log|
    requires k <= e <= |h.el[n.term].log|
    requires h.el[n.term].log[..e] <= n'.log && n.log[..k] <= n'.log
    requires n'.committed == Max(n.committed, Min(commit, e)) && n'.committed <= |n'.log|
    ensures CommitMove(h, n, n')
  {
    if n'.committed == n.committed {
      PrefixTake(n.log[..k], n'.log, n.committed);
      assert n.log[..k][..n.committed] == n.log[..n.committed];
    } else {
      PrefixTake(h.el[n.term].log[..e], n'.log, n'.committed);
      assert h.el[n.term].log[..e][..n'.committed] == h.el[n.term].log[..n'.committed];
    }
  }

  lemma ConflictByTermBound(n: Node, index: nat, term: nat)
    ensures FindConflictByTerm(n, index, term).0 <= index
  {
  }

  lemma HandleAppendOK(cfg: Config, b: Book, n: Node, m: Message) returns (b': Book)
    requires StepOK(cfg, b, n) && n.role.Follower? && IsAppendFrom(cfg, b, n, m)
    ensures StepOK(cfg, b', HandleAppend(n, m)) && Frame(b, b', n.id)
  {
    hide StepOK, Frame, HistOK, AsksOK, HiddenOK, AppendBodyOK, SeenOK, Prov, VotesOK, ClaimsOfOK,
         FindConflictByTerm, MaybeAppend;
    Follows(cfg, b, n);
    if m.logIndex < n.committed {
      b' := AckCommitted(cfg, b, n, AppendResp(n.id, m.from, n.term, n.committed, false, 0, 0));
    } else if MatchTerm(n, m.logIndex, m.logTerm) {
      b' := AcceptOK(cfg, b, n, m);
    } else {
      b' := b;
      FrameSelf(b, n.id);
      ConflictByTermBound(n, Min(m.logIndex, |n.log|), m.logTerm);
      var (hint, hintTerm) := FindConflictByTerm(n, Min(m.logIndex, |n.log|), m.logTerm);
      SendOK(cfg, b, n, AppendResp(n.id, m.from, n.term, m.logIndex, true, hint, hintTerm));
    }
  }

  // ----- heartbeats -----

  /** A heartbeat moves the commit index only over entries the leader shares. */
  lemma HeartbeatCommit(cfg: Config, h: History, n: Node, commit: nat)
    requires ValidConfig(cfg) && HistOK(cfg, h) && Shape(cfg, n) && ClaimsOfOK(h, n) && n.term in h.el
    requires commit <= h.el[n.term].commit && ClaimMade(h, n.id, n.term, commit)
    ensures commit <= |n.log| && SeenBy(h, n.log[..commit], n.term)
  {
    hide GrantsOK, BidsOK, ClaimKeysOK, ElectionsOK, CommitsOK, LostBefore;
    assert ClaimOK(h, h.count, n.log, n.term, commit) by {
      if commit == 0 { HasTake(h, n.log, n.term, 0); }
    }
    NotLost(cfg, h, n.term, commit, h.count);
  }

  lemma HandleHeartbeatOK(cfg: Config, b: Book, n: Node, m: Message) returns (b': Book)
    requires StepOK(cfg, b, n) && n.role.Follower? && m.Heartbeat? && m.term == n.term && m.to == n.id
    requires MsgOK(cfg, b, m)
    ensures StepOK(cfg, b', HandleHeartbeat(n, m)) && Frame(b, b', n.id)
  {
    hide StepOK, HistOK, ClaimsOK, SeenOK, VotesOK, ClaimsOfOK, Prov, Frame, ElectionsOK, ClaimMade, NotVoted;
    Follows(cfg, b, n);
    HeartbeatCommit(cfg, b.h, n, m.commit);
    var n' := CommitTo(n, Min(m.commit, |n.log|));
    assert n' == n.(committed := Max(n.committed, m.commit));
    PrefixClaims(b.h, b.h.count, n'.log, n.term, 0);
    b' := ClaimedBook(b, n', 0);
    FollowerMoves(cfg, b, n, n', 0);
    Follows(cfg, b', n');
    Elections(cfg, b'.h);
    if m.context != [] { SelfNotVoted(cfg, b'.h, n', b'.casts[(m.term, m.context)]); }
    SendOK(cfg, b', n', HeartbeatResp(n.id, m.from, n.term, m.context));
  }

  // ----- snapshots -----

  predicate IsSnapshotFrom(cfg: Config, b: Book, n: Node, m: Message) {
    && m.InstallSnapshot? && m.term == n.term && m.from in PeerSet(cfg)
    && m.prefix != [] && SeenBy(b.h, m.prefix, m.term)
  }

  lemma InstallOK(cfg: Config, b: Book, n: Node, m: Message) returns (b': Book)
    requires StepOK(cfg, b, n) && n.role.Follower? && IsSnapshotFrom(cfg, b, n, m)
    requires |m.prefix| > n.committed && !MatchTerm(n, |m.prefix|, LastTerm(m.prefix))
    ensures StepOK(cfg, b', HandleSnapshot(n, m)) && Frame(b, b', n.id)
  {
    hide StepOK, HistOK, ClaimsOK, SeenOK, VotesOK, ClaimsOfOK, Prov, Frame, ElectionsOK;
    Follows(cfg, b, n);
    var i := |m.prefix|;
    var n' := n.(log := m.prefix, snapIndex := i, committed := i);
    assert m.prefix == b.h.el[n.term].log[..i];
    assert LastTerm(m.prefix) == m.prefix[i - 1].term;
    assert LogMove(b.h, n.term, n.log, n'.log);
    assert n'.log[..i] == m.prefix;
    PrefixClaims(b.h, b.h.count, n'.log, n.term, i);
    b' := ClaimedBook(b, n', i);
    FollowerMoves(cfg, b, n, n', i);
    SendClaim(cfg, b', n', InstallSnapshotResp(n.id, m.from, n.term, i));
  }

  lemma FastForwardOK(cfg: Config, b: Book, n: Node, m: Message) returns (b': Book)
    requires StepOK(cfg, b, n) && n.role.Follower? && IsSnapshotFrom(cfg, b, n, m)
    requires |m.prefix| > n.committed && MatchTerm(n, |m.prefix|, LastTerm(m.prefix))
    ensures StepOK(cfg, b', HandleSnapshot(n, m)) && Frame(b, b', n.id)
  {
    hide StepOK, HistOK, ClaimsOK, SeenOK, VotesOK, ClaimsOfOK, Prov, Frame, ElectionsOK;
    Follows(cfg, b, n);
    Elections(cfg, b.h);
    var i := |m.prefix|;
    assert m.prefix[i - 1] == b.h.el[n.term].log[i - 1];
    MatchedPrefix(cfg, b.h, n, i);
    var n' := n.(committed := i);
    assert n'.log[..i] == m.prefix;
    PrefixClaims(b.h, b.h.count, n'.log, n.term, i);
    b' := ClaimedBook(b, n', i);
    FollowerMoves(cfg, b, n, n', i);
    SendClaim(cfg, b', n', InstallSnapshotResp(n.id, m.from, n.term, i));
  }

  lemma HandleSnapshotOK(cfg: Config, b: Book, n: Node, m: Message) returns (b': Book)
    requires StepOK(cfg, b, n) && n.role.Follower? && IsSnapshotFrom(cfg, b, n, m)
    ensures StepOK(cfg, b', HandleSnapshot(n, m)) && Frame(b, b', n.id)
  {
    hide StepOK, Frame;
    if |m.prefix| <= n.committed {
      b' := AckCommitted(cfg, b, n, InstallSnapshotResp(n.id, m.from, n.term, n.committed));
    } else if MatchTerm(n, |m.prefix|, LastTerm(m.prefix)) {
      b' := FastForwardOK(cfg, b, n, m);
    } else {
      b' := InstallOK(cfg, b, n, m);
    }
  }
}
