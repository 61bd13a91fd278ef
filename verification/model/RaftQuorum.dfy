/** The commit candidate is the highest index a quorum has matched. */
module RaftQuorum {
  import opened RaftTypes
  import opened RaftCore
  import opened RaftHistory

  function AtLeast(s: seq<nat>, x: nat): nat {
    if s == [] then 0 else (if s[0] >= x then 1 else 0) + AtLeast(s[1..], x)
  }

  predicate Ascending(s: seq<nat>) {
    forall i, j | 0 <= i < j < |s| :: s[i] <= s[j]
  }

  lemma {:induction false} InsertAscending(x: nat, s: seq<nat>)
    requires Ascending(s)
    ensures Ascending(InsertSorted(x, s))
    ensures forall y | y in InsertSorted(x, s) :: y == x || y in s
  {
    if s != [] && x > s[0] {
      InsertAscending(x, s[1..]);
      var r := InsertSorted(x, s[1..]);
      forall i | 0 <= i < |r| ensures s[0] <= r[i] {
        assert r[i] in r;
      }
    }
  }

  lemma {:induction false} SortedAscending(s: seq<nat>)
    ensures Ascending(Sorted(s))
  {
    if s != [] {
      SortedAscending(s[1..]);
      InsertAscending(s[0], Sorted(s[1..]));
    }
  }

  lemma {:induction false} InsertCounts(x: nat, s: seq<nat>, y: nat)
    ensures AtLeast(InsertSorted(x, s), y) == (if x >= y then 1 else 0) + AtLeast(s, y)
  {
    if s == [] || x <= s[0] {
      assert ([x] + s)[1..] == s;
    } else {
      InsertCounts(x, s[1..], y);
      assert InsertSorted(x, s)[1..] == InsertSorted(x, s[1..]);
    }
  }

  /** Sorting moves values and loses none. */
  lemma {:induction false} SortedCounts(s: seq<nat>, y: nat)
    ensures AtLeast(Sorted(s), y) == AtLeast(s, y)
  {
    if s != [] {
      SortedCounts(s[1..], y);
      InsertCounts(s[0], Sorted(s[1..]), y);
    }
  }

  lemma {:induction false} AscendingCount(s: seq<nat>, k: nat, y: nat)
    requires Ascending(s) && k < |s|
    ensures y <= s[k] ==> AtLeast(s, y) >= |s| - k
    ensures y > s[k] ==> AtLeast(s, y) < |s| - k
  {
    if k > 0 {
      AscendingCount(s[1..], k - 1, y);
    } else {
      AllCount(s[1..], y);
      if y <= s[0] { assert forall i | 0 <= i < |s[1..]| :: s[1..][i] == s[i + 1] >= y; }
    }
  }

  lemma {:induction false} AllCount(s: seq<nat>, y: nat)
    ensures AtLeast(s, y) <= |s|
    ensures (forall i | 0 <= i < |s| :: s[i] >= y) ==> AtLeast(s, y) == |s|
  {
    if s != [] {
      AllCount(s[1..], y);
      if forall i | 0 <= i < |s| :: s[i] >= y {
        assert forall i | 0 <= i < |s[1..]| :: s[1..][i] == s[i + 1];
      }
    }
  }

  /** The peers known to hold everything up to `m`. */
  function Holders(n: Node, peers: seq<NodeId>, m: nat): set<NodeId>
    requires forall i | 0 <= i < |peers| :: peers[i] in n.prs
  {
    set i | 0 <= i < |peers| && n.prs[peers[i]].matched >= m :: peers[i]
  }

  lemma HoldersSplit(n: Node, peers: seq<NodeId>, m: nat, one: set<NodeId>)
    requires peers != [] && forall i | 0 <= i < |peers| :: peers[i] in n.prs
    requires one == if n.prs[peers[0]].matched >= m then {peers[0]} else {}
    ensures Holders(n, peers, m) == one + Holders(n, peers[1..], m)
  {
    var rest := peers[1..];
    forall x | x in Holders(n, peers, m) ensures x in one + Holders(n, rest, m) {
      var i :| 0 <= i < |peers| && n.prs[peers[i]].matched >= m && peers[i] == x;
      if i > 0 { assert rest[i - 1] == x; }
    }
    forall x | x in Holders(n, rest, m) ensures x in Holders(n, peers, m) {
      var i :| 0 <= i < |rest| && n.prs[rest[i]].matched >= m && rest[i] == x;
      assert peers[i + 1] == x;
    }
  }

  lemma {:induction false} HoldersCount(n: Node, peers: seq<NodeId>, m: nat)
    requires forall i | 0 <= i < |peers| :: peers[i] in n.prs
    requires forall i, j | 0 <= i < j < |peers| :: peers[i] != peers[j]
    ensures |Holders(n, peers, m)| == AtLeast(Matches(n, peers), m)
  {
    if peers == [] {
      assert Holders(n, peers, m) == {};
    } else {
      var rest := peers[1..];
      HoldersCount(n, rest, m);
      assert Matches(n, peers)[1..] == Matches(n, rest);
      var one: set<NodeId> := if n.prs[peers[0]].matched >= m then {peers[0]} else {};
      HoldersSplit(n, peers, m, one);
      assert peers[0] !in Holders(n, rest, m);
    }
  }

  /** A quorum holds everything up to `m` exactly when `m` is at most the
      index the sorted list yields. */
  lemma QuorumIndexMeaning(cfg: Config, n: Node, m: nat)
    requires ValidConfig(cfg) && n.prs.Keys == PeerSet(cfg)
    ensures m <= QuorumIndex(cfg, n) <==> |Holders(n, cfg.peers, m)| >= Quorum(cfg)
  {
    var s := Matches(n, cfg.peers);
    SortedAscending(s);
    SortedCounts(s, m);
    AscendingCount(Sorted(s), |cfg.peers| - Quorum(cfg), m);
    HoldersCount(n, cfg.peers, m);
  }
}
