/** What the safety proof remembers about a run. Nothing here is part of the
    system: a `History` is a witness that the proof builds alongside a run, and
    every definition below speaks about it alone. */
module RaftHistory {
  import opened RaftTypes

  /** One won election: who voted, the winner's log when it won (`base`), the
      leader's log and commit index so far, and its place in time (`ord`). */
  datatype Election = Election(leader: NodeId, voters: set<NodeId>, base: Log, log: Log, commit: nat, ord: nat)

  /** A vote, with the voter's log and the number of elections won before it. */
  datatype Grant = Grant(cand: NodeId, log: Log, ord: nat)

  /** A campaign, with the candidate's log and the number of elections won before it. */
  datatype Bid = Bid(log: Log, ord: nat)

  datatype History = History(
    el: map<nat, Election>, count: nat,
    grants: map<(NodeId, nat), Grant>,
    bids: map<(NodeId, nat), Bid>,
    // claims[(f, t)] is the highest index f acknowledged to the leader of t.
    claims: map<(NodeId, nat), nat>)

  predicate WellFormed(log: Log) {
    forall p | 0 <= p < |log| :: log[p].index == p + 1 && log[p].term >= 1
  }

  /** `log` is a piece of the log of the leader of its last term, who won
      before time `n`. */
  predicate Prov(h: History, n: nat, log: Log) {
    log != [] ==>
      var t := LastTerm(log);
      t in h.el && h.el[t].ord < n && log <= h.el[t].log
  }

  predicate UpToDate(a: Log, b: Log) {
    LastTerm(a) > LastTerm(b) || (LastTerm(a) == LastTerm(b) && |a| >= |b|)
  }

  /** `log` starts with the first `m` entries of the leader of `t`. */
  predicate Has(h: History, log: Log, t: nat, m: nat) {
    t in h.el && m <= |h.el[t].log| && h.el[t].log[..m] <= log
  }

  /** The leader of `t2` was elected after `t` without those entries. */
  predicate Loses(h: History, t2: nat, t: nat, m: nat) {
    t in h.el && t2 in h.el && t2 > t && !Has(h, h.el[t2].base, t, m)
  }

  ghost predicate LostBefore(h: History, n: nat, t: nat, m: nat) {
    exists t2 :: Loses(h, t2, t, m) && h.el[t2].ord < n
  }

  ghost predicate ClaimOK(h: History, n: nat, log: Log, t: nat, m: nat) {
    Has(h, log, t, m) || LostBefore(h, n, t, m)
  }

  ghost predicate ClaimsOK(h: History, n: nat, log: Log, t: nat, most: nat) {
    forall m: nat | m <= most :: ClaimOK(h, n, log, t, m)
  }

  predicate IsQuorum(cfg: Config, s: set<NodeId>) {
    s <= PeerSet(cfg) && 2 * |s| > |cfg.peers|
  }

  predicate ElectionOK(cfg: Config, h: History, t: nat)
    requires t in h.el
  {
    var e := h.el[t];
    && t >= 1 && e.ord < h.count
    && e.leader in PeerSet(cfg) && IsQuorum(cfg, e.voters)
    && |e.base| < |e.log| && e.base <= e.log
    && (forall p | |e.base| <= p < |e.log| :: e.log[p].term == t)
    && WellFormed(e.log)
    && LastTerm(e.base) < t && Prov(h, e.ord, e.base)
    && e.commit <= |e.log|
    && (e.leader, t) in h.bids && h.bids[(e.leader, t)].log == e.base && h.bids[(e.leader, t)].ord <= e.ord
    && (forall v | v in e.voters ::
          (v, t) in h.grants && h.grants[(v, t)].cand == e.leader && h.grants[(v, t)].ord <= e.ord)
  }

  predicate ElectionsOK(cfg: Config, h: History) {
    forall t | t in h.el :: ElectionOK(cfg, h, t)
  }

  ghost predicate GrantOK(cfg: Config, h: History, v: NodeId, t: nat)
    requires (v, t) in h.grants
  {
    var g := h.grants[(v, t)];
    && v in PeerSet(cfg) && g.cand in PeerSet(cfg) && g.ord <= h.count
    && Prov(h, g.ord, g.log)
    && (g.cand, t) in h.bids && UpToDate(h.bids[(g.cand, t)].log, g.log)
    && (forall t0 | (v, t0) in h.claims && t0 < t :: ClaimsOK(h, g.ord, g.log, t0, h.claims[(v, t0)]))
  }

  ghost predicate GrantsOK(cfg: Config, h: History) {
    forall v, t | (v, t) in h.grants :: GrantOK(cfg, h, v, t)
  }

  /** No voter of an election at `t` or later, won before the campaign of `c`
      at `t` began, votes for that campaign. */
  predicate Blocked(h: History, c: NodeId, t: nat, t2: nat)
    requires t2 in h.el
  {
    forall v | v in h.el[t2].voters :: (v, t) in h.grants ==> h.grants[(v, t)].cand != c
  }

  predicate BidOK(h: History, c: NodeId, t: nat)
    requires (c, t) in h.bids
  {
    var b := h.bids[(c, t)];
    && t >= 1 && b.ord <= h.count && Prov(h, b.ord, b.log) && WellFormed(b.log)
    && (forall t2 | t2 in h.el && h.el[t2].ord < b.ord && t2 >= t :: Blocked(h, c, t, t2))
  }

  ghost predicate BidsOK(h: History) {
    forall c, t | (c, t) in h.bids :: BidOK(h, c, t)
  }

  ghost predicate ClaimKeysOK(cfg: Config, h: History) {
    forall x, t | (x, t) in h.claims :: x in PeerSet(cfg) && t in h.el
  }

  function Claimants(cfg: Config, h: History, t: nat, m: nat): set<NodeId> {
    set x | x in PeerSet(cfg) && (x, t) in h.claims && h.claims[(x, t)] >= m
  }

  /** Entry `m` of the leader of `t` is from term `t` and a quorum acknowledged it. */
  predicate Committed(cfg: Config, h: History, t: nat, m: nat) {
    && t in h.el && 1 <= m <= |h.el[t].log| && h.el[t].log[m - 1].term == t
    && IsQuorum(cfg, Claimants(cfg, h, t, m))
  }

  predicate CommittedBy(cfg: Config, h: History, t: nat, m: nat, log: Log) {
    Committed(cfg, h, t, m) && log <= h.el[t].log[..m]
  }

  /** `log` is covered by an entry committed in a term up to `t`. */
  ghost predicate Backed(cfg: Config, h: History, t: nat, log: Log) {
    log != [] ==> exists t0: nat, m: nat :: t0 <= t && CommittedBy(cfg, h, t0, m, log)
  }

  ghost predicate CommitsOK(cfg: Config, h: History)
    requires ElectionsOK(cfg, h)
  {
    forall t | t in h.el ::
      h.el[t].commit <= |h.el[t].log| && Backed(cfg, h, t, h.el[t].log[..h.el[t].commit])
  }

  /** Some leader elected before time `n` has committed index `i`. */
  ghost predicate Reached(h: History, n: nat, i: nat) {
    i > 0 ==> exists t :: t in h.el && h.el[t].ord < n && i <= h.el[t].commit
  }

  ghost predicate HistOK(cfg: Config, h: History) {
    && ElectionsOK(cfg, h) && GrantsOK(cfg, h) && BidsOK(h) && ClaimKeysOK(cfg, h)
    && CommitsOK(cfg, h)
  }

  // ----- how a history grows -----

  predicate ElectionGrows(e: Election, e': Election) {
    && e'.leader == e.leader && e'.voters == e.voters && e'.base == e.base && e'.ord == e.ord
    && e.log <= e'.log && e.commit <= e'.commit
  }

  ghost predicate Extends(h: History, h': History) {
    && h.count <= h'.count
    && (forall t | t in h.el :: t in h'.el && ElectionGrows(h.el[t], h'.el[t]))
    && (forall t | t in h'.el && t !in h.el :: h'.el[t].ord >= h.count)
    && (forall k | k in h.grants :: k in h'.grants && h'.grants[k] == h.grants[k])
    && (forall k | k in h.bids :: k in h'.bids && h'.bids[k] == h.bids[k])
    && (forall k | k in h.claims :: k in h'.claims && h'.claims[k] >= h.claims[k])
  }

  // ----- facts about one history -----

  /** Every leader's log holds terms up to its own. */
  lemma {:induction false} TermsBound(cfg: Config, h: History, t: nat, p: nat)
    requires ElectionsOK(cfg, h) && t in h.el && p < |h.el[t].log|
    ensures h.el[t].log[p].term <= t
    ensures p < |h.el[t].base| ==> h.el[t].log[p].term < t
    decreases h.el[t].ord
  {
    var e := h.el[t];
    if p < |e.base| {
      var t1 := LastTerm(e.base);
      TermsBound(cfg, h, t1, p);
      assert e.log[p] == e.base[p] == h.el[t1].log[p];
    }
  }

  /** Any piece of a leader's log is a piece of the log of its own last leader. */
  lemma {:induction false} ElectionPrefix(cfg: Config, h: History, t: nat, p: nat)
    requires ElectionsOK(cfg, h) && t in h.el && 0 < p <= |h.el[t].log|
    ensures var l := h.el[t].log[..p]; LastTerm(l) in h.el && h.el[LastTerm(l)].ord <= h.el[t].ord && l <= h.el[LastTerm(l)].log
    decreases h.el[t].ord
  {
    var e := h.el[t];
    if p <= |e.base| {
      var t1 := LastTerm(e.base);
      ElectionPrefix(cfg, h, t1, p);
      assert e.log[..p] == e.base[..p] == h.el[t1].log[..p];
    } else {
      assert LastTerm(e.log[..p]) == t;
    }
  }

  lemma ProvPrefix(cfg: Config, h: History, n: nat, log: Log, p: nat)
    requires ElectionsOK(cfg, h) && Prov(h, n, log) && p <= |log|
    ensures Prov(h, n, log[..p])
  {
    if p > 0 {
      var t := LastTerm(log);
      ElectionPrefix(cfg, h, t, p);
      assert log[..p] == h.el[t].log[..p];
    }
  }

  lemma ProvWellFormed(cfg: Config, h: History, n: nat, log: Log)
    requires ElectionsOK(cfg, h) && Prov(h, n, log)
    ensures WellFormed(log)
  {
    if log != [] {
      var t := LastTerm(log);
      assert ElectionOK(cfg, h, t);
      assert forall p | 0 <= p < |log| :: log[p] == h.el[t].log[p];
    }
  }

  lemma ProvTerms(cfg: Config, h: History, n: nat, log: Log, p: nat)
    requires ElectionsOK(cfg, h) && Prov(h, n, log) && p < |log|
    ensures log[p].term <= LastTerm(log)
  {
    TermsBound(cfg, h, LastTerm(log), p);
    assert log[p] == h.el[LastTerm(log)].log[p];
  }

  /** Log matching: two logs of the cluster that hold one term at an index are
      the same up to it. */
  lemma SameTermSameLog(cfg: Config, h: History, a: Log, b: Log, p: nat)
    requires ElectionsOK(cfg, h) && Prov(h, h.count, a) && Prov(h, h.count, b)
    requires p < |a| && p < |b| && a[p].term == b[p].term
    ensures a[..p + 1] == b[..p + 1]
  {
    hide ElectionsOK;
    ProvPrefix(cfg, h, h.count, a, p + 1);
    ProvPrefix(cfg, h, h.count, b, p + 1);
    var t := a[p].term;
    assert LastTerm(a[..p + 1]) == t && LastTerm(b[..p + 1]) == t;
    assert a[..p + 1] == h.el[t].log[..p + 1] == b[..p + 1];
  }

  /** An entry of term `t` in any log is the leader's entry. */
  lemma TermEntry(cfg: Config, h: History, n: nat, log: Log, p: nat, t: nat)
    requires ElectionsOK(cfg, h) && Prov(h, n, log) && p < |log| && log[p].term == t
    ensures t in h.el && p < |h.el[t].log| && log[..p + 1] == h.el[t].log[..p + 1]
    ensures p >= |h.el[t].base|
    ensures h.el[t].ord < n
  {
    ProvPrefix(cfg, h, n, log, p + 1);
    assert LastTerm(log[..p + 1]) == t;
    assert log[..p + 1] == h.el[t].log[..p + 1];
    TermsBound(cfg, h, t, p);
    assert h.el[t].log[p] == log[..p + 1][p];
  }

  // ----- quorums -----

  lemma {:induction false} PeerSetSize(peers: seq<NodeId>)
    requires forall i, j | 0 <= i < j < |peers| :: peers[i] != peers[j]
    ensures |set i | 0 <= i < |peers| :: peers[i]| == |peers|
  {
    var s := set i | 0 <= i < |peers| :: peers[i];
    if peers != [] {
      var last := |peers| - 1;
      var rest := peers[..last];
      var r := set i | 0 <= i < |rest| :: rest[i];
      PeerSetSize(rest);
      assert s == r + {peers[last]} by {
        forall x | x in s ensures x in r + {peers[last]} {
          var i :| 0 <= i < |peers| && peers[i] == x;
          if i < last { assert rest[i] == x; }
        }
        forall x | x in r + {peers[last]} ensures x in s {
          if x != peers[last] {
            var i :| 0 <= i < |rest| && rest[i] == x;
            assert peers[i] == x;
          }
        }
      }
      assert peers[last] !in r;
    } else {
      assert s == {};
    }
  }

  lemma QuorumsMeet(cfg: Config, a: set<NodeId>, b: set<NodeId>) returns (x: NodeId)
    requires ValidConfig(cfg) && IsQuorum(cfg, a) && IsQuorum(cfg, b)
    ensures x in a && x in b
  {
    PeerSetSize(cfg.peers);
    if a * b == {} {
      assert |a + b| == |a| + |b|;
      SubsetSize(a + b, PeerSet(cfg));
      assert false;
    }
    x :| x in a * b;
  }

  lemma {:induction false} SubsetSize<T>(a: set<T>, b: set<T>)
    requires a <= b
    ensures |a| <= |b|
  {
    assert b == a + (b - a);
    assert |b| == |a| + |b - a|;
  }

  // ----- leader completeness -----

  lemma HasShorter(h: History, log: Log, t: nat, m: nat, k: nat)
    requires Has(h, log, t, m) && k <= m
    ensures Has(h, log, t, k)
  {
    assert h.el[t].log[..k] == h.el[t].log[..m][..k];
  }

  /** What a quorum acknowledged is in the log every later leader starts from. */
  lemma {:induction false} LeaderCompleteness(cfg: Config, h: History, t: nat, m: nat, t2: nat)
    requires ValidConfig(cfg) && ElectionsOK(cfg, h) && GrantsOK(cfg, h)
    requires Committed(cfg, h, t, m) && t2 in h.el && t < t2
    ensures Has(h, h.el[t2].base, t, m)
    decreases h.el[t2].ord
  {
    var e := h.el[t2];
    var y := QuorumsMeet(cfg, Claimants(cfg, h, t, m), e.voters);
    var g := h.grants[(y, t2)];
    assert GrantOK(cfg, h, y, t2);
    assert ClaimOK(h, g.ord, g.log, t, m);
    if LostBefore(h, g.ord, t, m) {
      var t1 :| Loses(h, t1, t, m) && h.el[t1].ord < g.ord;
      LeaderCompleteness(cfg, h, t, m, t1);
      assert false;
    }
    VoterLastTerm(cfg, h, t, m, g.log);
    var t3 := LastTerm(e.base);
    if t3 > t {
      LeaderCompleteness(cfg, h, t, m, t3);
    }
    WinnerHas(cfg, h, t, m, e.base, g.log);
  }

  lemma VoterLastTerm(cfg: Config, h: History, t: nat, m: nat, vlog: Log)
    requires ElectionsOK(cfg, h) && Committed(cfg, h, t, m)
    requires Has(h, vlog, t, m) && Prov(h, h.count, vlog)
    ensures LastTerm(vlog) >= t
  {
    hide ElectionsOK, IsQuorum, Claimants, Prov;
    assert vlog[m - 1] == h.el[t].log[..m][m - 1];
    ProvTerms(cfg, h, h.count, vlog, m - 1);
  }

  /** The up-to-date test carries a committed entry from a voter to the winner. */
  lemma WinnerHas(cfg: Config, h: History, t: nat, m: nat, base: Log, vlog: Log)
    requires ElectionsOK(cfg, h) && Committed(cfg, h, t, m)
    requires Has(h, vlog, t, m) && LastTerm(vlog) >= t && UpToDate(base, vlog)
    requires Prov(h, h.count, base)
    requires LastTerm(base) > t ==> Has(h, h.el[LastTerm(base)].base, t, m)
    ensures Has(h, base, t, m)
  {
    hide ElectionsOK, IsQuorum, Claimants;
    var t3 := LastTerm(base);
    ElectionBase(cfg, h, t);
    assert base <= h.el[t3].log;
    if t3 == t {
      PrefixTake(base, h.el[t].log, m);
    } else {
      TermEntry(cfg, h, h.count, base, |base| - 1, t3);
      ElectionBase(cfg, h, t3);
      PrefixTake(base, h.el[t3].log, m);
      PrefixTake(h.el[t3].base, h.el[t3].log, m);
      PrefixTake(h.el[t].log[..m], h.el[t3].base, m);
    }
  }

  lemma ElectionBase(cfg: Config, h: History, t: nat)
    requires ElectionsOK(cfg, h) && t in h.el
    ensures t >= 1 && h.el[t].base <= h.el[t].log
  {
    assert ElectionOK(cfg, h, t);
  }

  lemma PrefixTake(a: Log, b: Log, m: nat)
    requires a <= b && m <= |a|
    ensures a[..m] == b[..m]
  {
  }
}
