/** The simulator's run-time check of leader completeness. It reads each commit
    record once, and skips the scan of a leader while the inputs it last passed on
    are unchanged; neither ever changes its verdict. */
module LeaderCheck {
  import opened RaftTypes
  import opened Ordering

  /** A durable commit advance, as a node's storage recorded it. */
  datatype Rec = Rec(index: nat, term: nat, digest: nat, commitTerm: nat, termKnown: bool, dataKnown: bool)

  datatype Mark = Mark(term: nat, digest: nat, commitTerm: nat, termKnown: bool, dataKnown: bool)

  /** What is durable at a node: term and digest by index, and its snapshot. */
  datatype View = View(marks: map<nat, (nat, nat)>, snapIndex: nat, snapTerm: nat)

  /** A node's storage with its mutation count and commit records, and the term
      it leads, if it does (0 otherwise). */
  datatype Observed = Observed(view: View, generation: nat, records: seq<Rec>, leads: nat)

  type Cluster = map<NodeId, Observed>

  datatype Verdict = Pass | Diverged | Violated(leader: NodeId, index: nat)

  type Committed = map<nat, Mark>

  // ----- folding commit records -----

  predicate Clash(m: Mark, r: Rec) {
    (m.termKnown && r.termKnown && m.term != r.term) || (m.dataKnown && r.dataKnown && m.digest != r.digest)
  }

  predicate LearnsTerm(m: Mark, r: Rec) { m.commitTerm == 0 || (r.commitTerm != 0 && r.commitTerm < m.commitTerm) }

  function Merged(m: Mark, r: Rec): Mark {
    Mark(if !m.termKnown && r.termKnown then r.term else m.term,
         if !m.dataKnown && r.dataKnown then r.digest else m.digest,
         if LearnsTerm(m, r) then r.commitTerm else m.commitTerm,
         m.termKnown || r.termKnown, m.dataKnown || r.dataKnown)
  }

  function FoldOne(c: Committed, r: Rec): Option<Committed> {
    if r.index !in c then Some(c[r.index := Mark(r.term, r.digest, r.commitTerm, r.termKnown, r.dataKnown)])
    else if Clash(c[r.index], r) then None
    else Some(c[r.index := Merged(c[r.index], r)])
  }

  function FoldAll(c: Committed, rs: seq<Rec>): Option<Committed>
    decreases rs
  {
    if rs == [] then Some(c)
    else match FoldOne(c, rs[0])
      case None => None
      case Some(c') => FoldAll(c', rs[1..])
  }

  // ----- the scan -----

  /** One committed index against one leader's durable log. */
  predicate Answers(v: View, term: nat, index: nat, want: Mark) {
    if want.commitTerm != 0 && want.commitTerm > term then true
    else if index in v.marks then
      (want.termKnown ==> v.marks[index].0 == want.term) && (want.dataKnown ==> v.marks[index].1 == want.digest)
    else v.snapIndex >= index && (v.snapIndex == index && want.termKnown ==> v.snapTerm == want.term)
  }

  /** The first index, in the order given, that a leader cannot answer for. */
  function Scan(v: View, term: nat, c: Committed, indexes: seq<nat>): Option<nat>
    decreases indexes
  {
    if indexes == [] then None
    else if indexes[0] in c && !Answers(v, term, indexes[0], c[indexes[0]]) then Some(indexes[0])
    else Scan(v, term, c, indexes[1..])
  }

  // ----- folding a whole cluster, from where it was last read -----

  function FoldPeers(c: Committed, cursor: map<NodeId, nat>, peers: seq<NodeId>, nodes: Cluster): Option<Committed>
    decreases peers
  {
    if peers == [] then Some(c)
    else if peers[0] !in nodes then FoldPeers(c, cursor, peers[1..], nodes)
    else
      match FoldAll(c, Fresh(cursor, peers[0], nodes[peers[0]].records))
      case None => None
      case Some(c') => FoldPeers(c', cursor, peers[1..], nodes)
  }

  function Fresh(cursor: map<NodeId, nat>, id: NodeId, records: seq<Rec>): seq<Rec> {
    if id in cursor && cursor[id] <= |records| then records[cursor[id]..] else records
  }

  function ScanPeers(c: Committed, indexes: seq<nat>, peers: seq<NodeId>, nodes: Cluster): Verdict
    decreases peers
  {
    if peers == [] then Pass
    else if peers[0] !in nodes || nodes[peers[0]].leads == 0 then ScanPeers(c, indexes, peers[1..], nodes)
    else
      match Scan(nodes[peers[0]].view, nodes[peers[0]].leads, c, indexes)
      case Some(i) => Violated(peers[0], i)
      case None => ScanPeers(c, indexes, peers[1..], nodes)
  }

  /** What a fold of the cluster ends in: the verdict of a scan over ascending
      indexes. */
  ghost predicate Concludes(f: Option<Committed>, peers: seq<NodeId>, nodes: Cluster, v: Verdict) {
    match f
    case None => v == Diverged
    case Some(c) => exists indexes :: Lists(Below, indexes, c.Keys) && v == ScanPeers(c, indexes, peers, nodes)
  }

  // ----- the reference: every record re-read and every leader re-scanned -----

  /** The verdict of a full rescan: it depends on nothing but the cluster. */
  ghost predicate IsVerdict(peers: seq<NodeId>, nodes: Cluster, v: Verdict) {
    Concludes(FoldPeers(map[], map[], peers, nodes), peers, nodes, v)
  }

  /** There is only one such verdict. */
  lemma VerdictUnique(peers: seq<NodeId>, nodes: Cluster, v: Verdict, w: Verdict)
    requires IsVerdict(peers, nodes, v) && IsVerdict(peers, nodes, w)
    ensures v == w
  {
    hide FoldPeers, ScanPeers, Lists, StrictOrder;
    var f := FoldPeers(map[], map[], peers, nodes);
    if f.Some? {
      var c := f.value;
      var a :| Lists(Below, a, c.Keys) && v == ScanPeers(c, a, peers, nodes);
      var b :| Lists(Below, b, c.Keys) && w == ScanPeers(c, b, peers, nodes);
      BelowOrders();
      ListingUnique(Below, a, b, c.Keys);
    }
  }

  // ----- what a fold says about a set of records, in whatever order -----

  /** What is not known is left at zero. */
  predicate Proper(r: Rec) { (!r.termKnown ==> r.term == 0) && (!r.dataKnown ==> r.digest == 0) }

  predicate AllProper(rs: set<Rec>) { forall r | r in rs :: Proper(r) }

  predicate Conflicts(a: Rec, b: Rec) {
    a.index == b.index && ((a.termKnown && b.termKnown && a.term != b.term) || (a.dataKnown && b.dataKnown && a.digest != b.digest))
  }

  predicate Consistent(rs: set<Rec>) { forall a, b | a in rs && b in rs :: !Conflicts(a, b) }

  /** `m` sums up the records of index `i`: what any of them knows, and the least
      commit term any of them has. */
  ghost predicate SumsUp(m: Mark, rs: set<Rec>, i: nat) {
    && (m.termKnown <==> exists r :: r in rs && r.index == i && r.termKnown)
    && (m.dataKnown <==> exists r :: r in rs && r.index == i && r.dataKnown)
    && (forall r | r in rs && r.index == i :: (r.termKnown ==> r.term == m.term) && (r.dataKnown ==> r.digest == m.digest))
    && (!m.termKnown ==> m.term == 0) && (!m.dataKnown ==> m.digest == 0)
    && (forall r | r in rs && r.index == i :: r.commitTerm != 0 ==> 0 < m.commitTerm <= r.commitTerm)
    && (m.commitTerm != 0 ==> exists r :: r in rs && r.index == i && r.commitTerm == m.commitTerm)
  }

  ghost predicate Sums(c: Committed, rs: set<Rec>) {
    && (forall i: nat :: i in c <==> exists r :: r in rs && r.index == i)
    && (forall i | i in c :: SumsUp(c[i], rs, i))
  }

  lemma SumsConsistent(c: Committed, rs: set<Rec>)
    requires Sums(c, rs)
    ensures Consistent(rs)
  {
    forall a, b | a in rs && b in rs ensures !Conflicts(a, b) {
      if a.index == b.index {
        assert a.index in c;
        assert SumsUp(c[a.index], rs, a.index);
      }
    }
  }

  function FirstMark(r: Rec): Mark { Mark(r.term, r.digest, r.commitTerm, r.termKnown, r.dataKnown) }

  lemma FirstSums(rs: set<Rec>, r: Rec)
    requires Proper(r) && forall x | x in rs :: x.index != r.index
    ensures SumsUp(FirstMark(r), rs + {r}, r.index)
  {
    assert r in rs + {r};
  }

  lemma MergedSums(m: Mark, rs: set<Rec>, r: Rec)
    requires SumsUp(m, rs, r.index) && Proper(r) && !Clash(m, r)
    ensures SumsUp(Merged(m, r), rs + {r}, r.index)
  {
    var all, m' := rs + {r}, Merged(m, r);
    assert r in all;
    if m.termKnown {
      var x :| x in rs && x.index == r.index && x.termKnown;
      assert x in all;
    }
    if m.dataKnown {
      var x :| x in rs && x.index == r.index && x.dataKnown;
      assert x in all;
    }
    if m.commitTerm != 0 {
      var x :| x in rs && x.index == r.index && x.commitTerm == m.commitTerm;
      assert x in all;
    }
  }

  lemma OtherSums(m: Mark, rs: set<Rec>, r: Rec, i: nat)
    requires SumsUp(m, rs, i) && r.index != i
    ensures SumsUp(m, rs + {r}, i)
  {
    var all := rs + {r};
    if m.termKnown {
      var x :| x in rs && x.index == i && x.termKnown;
      assert x in all;
    }
    if m.dataKnown {
      var x :| x in rs && x.index == i && x.dataKnown;
      assert x in all;
    }
    if m.commitTerm != 0 {
      var x :| x in rs && x.index == i && x.commitTerm == m.commitTerm;
      assert x in all;
    }
  }

  lemma KeysGrow(c: Committed, rs: set<Rec>, r: Rec)
    requires forall i: nat :: i in c <==> exists x :: x in rs && x.index == i
    ensures forall i: nat :: i in c.Keys + {r.index} <==> exists x :: x in rs + {r} && x.index == i
  {
    forall i: nat ensures i in c.Keys + {r.index} <==> exists x :: x in rs + {r} && x.index == i {
      assert r in rs + {r};
      if i in c {
        var x :| x in rs && x.index == i;
        assert x in rs + {r};
      }
    }
  }

  lemma NewSums(c: Committed, rs: set<Rec>, r: Rec, c': Committed)
    requires Sums(c, rs) && c'.Keys == c.Keys + {r.index} && SumsUp(c'[r.index], rs + {r}, r.index)
    requires forall i | i in c && i != r.index :: c'[i] == c[i]
    ensures Sums(c', rs + {r})
  {
    hide SumsUp;
    KeysGrow(c, rs, r);
    forall i | i in c' ensures SumsUp(c'[i], rs + {r}, i) {
      if i != r.index { OtherSums(c[i], rs, r, i); }
    }
  }

  /** One more record: it clashes exactly with a record that contradicts it. */
  lemma FoldOneSums(c: Committed, rs: set<Rec>, r: Rec)
    requires Sums(c, rs) && Proper(r)
    ensures FoldOne(c, r).Some? ==> Sums(FoldOne(c, r).value, rs + {r})
    ensures FoldOne(c, r).None? ==> exists x :: x in rs && Conflicts(x, r)
  {
    hide SumsUp;
    if r.index !in c {
      FirstSums(rs, r);
      NewSums(c, rs, r, FoldOne(c, r).value);
    } else {
      assert SumsUp(c[r.index], rs, r.index);
      if Clash(c[r.index], r) {
        ClashFound(c[r.index], rs, r);
      } else {
        MergedSums(c[r.index], rs, r);
        NewSums(c, rs, r, FoldOne(c, r).value);
      }
    }
  }

  lemma ClashFound(m: Mark, rs: set<Rec>, r: Rec)
    requires SumsUp(m, rs, r.index) && Clash(m, r)
    ensures exists x :: x in rs && Conflicts(x, r)
  {
    if m.termKnown && r.termKnown && m.term != r.term {
      var x :| x in rs && x.index == r.index && x.termKnown;
      assert Conflicts(x, r);
    } else {
      var x :| x in rs && x.index == r.index && x.dataKnown;
      assert Conflicts(x, r);
    }
  }

  function Recs(rs: seq<Rec>): set<Rec> { set r | r in rs }

  lemma RecsStep(rs: seq<Rec>)
    requires rs != []
    ensures Recs(rs) == {rs[0]} + Recs(rs[1..])
  {
    assert rs == [rs[0]] + rs[1..];
  }

  /** A fold of records goes through exactly if they are consistent with what was
      folded before, and then sums up all of them. */
  lemma {:induction false} FoldAllSums(c: Committed, before: set<Rec>, rs: seq<Rec>)
    requires Sums(c, before) && AllProper(Recs(rs))
    ensures FoldAll(c, rs).Some? <==> Consistent(before + Recs(rs))
    ensures FoldAll(c, rs).Some? ==> Sums(FoldAll(c, rs).value, before + Recs(rs))
    decreases rs
  {
    hide Sums, FoldOne, Conflicts, Proper;
    SumsConsistent(c, before);
    if rs == [] {
      assert before + Recs(rs) == before;
    } else {
      RecsStep(rs);
      var r := rs[0];
      assert r in Recs(rs);
      FoldOneSums(c, before, r);
      assert before + Recs(rs) == (before + {r}) + Recs(rs[1..]);
      if FoldOne(c, r).Some? {
        FoldAllSums(FoldOne(c, r).value, before + {r}, rs[1..]);
      } else {
        var x :| x in before && Conflicts(x, r);
        assert x in before + Recs(rs) && r in before + Recs(rs);
      }
    }
  }

  /** The records of some peers that a reader has not read. */
  function Unread(cursor: map<NodeId, nat>, peers: seq<NodeId>, nodes: Cluster): set<Rec>
    decreases peers
  {
    if peers == [] then {}
    else if peers[0] !in nodes then Unread(cursor, peers[1..], nodes)
    else Recs(Fresh(cursor, peers[0], nodes[peers[0]].records)) + Unread(cursor, peers[1..], nodes)
  }

  predicate ProperCluster(nodes: Cluster) { forall id | id in nodes :: AllProper(Recs(nodes[id].records)) }

  lemma FreshWithin(cursor: map<NodeId, nat>, id: NodeId, rs: seq<Rec>)
    ensures Recs(Fresh(cursor, id, rs)) <= Recs(rs)
  {
  }

  lemma FreshProper(cursor: map<NodeId, nat>, id: NodeId, rs: seq<Rec>)
    requires AllProper(Recs(rs))
    ensures AllProper(Recs(Fresh(cursor, id, rs))) && Recs(Fresh(cursor, id, rs)) <= Recs(rs)
  {
    FreshWithin(cursor, id, rs);
  }

  lemma SmallerConsistent(a: set<Rec>, b: set<Rec>)
    requires a <= b && Consistent(b)
    ensures Consistent(a)
  {
  }

  lemma {:induction false} FoldPeersSums(
      c: Committed, before: set<Rec>, cursor: map<NodeId, nat>, peers: seq<NodeId>, nodes: Cluster)
    requires Sums(c, before) && ProperCluster(nodes)
    ensures var f := FoldPeers(c, cursor, peers, nodes); var all := before + Unread(cursor, peers, nodes);
      (f.Some? <==> Consistent(all)) && (f.Some? ==> Sums(f.value, all))
    decreases peers
  {
    hide Sums, Consistent, FoldAll, Fresh, AllProper;
    SumsConsistent(c, before);
    if peers == [] {
      assert before + Unread(cursor, peers, nodes) == before;
    } else if peers[0] !in nodes {
      FoldPeersSums(c, before, cursor, peers[1..], nodes);
    } else {
      var rs := Fresh(cursor, peers[0], nodes[peers[0]].records);
      FreshProper(cursor, peers[0], nodes[peers[0]].records);
      FoldAllSums(c, before, rs);
      var all := before + Unread(cursor, peers, nodes);
      assert all == (before + Recs(rs)) + Unread(cursor, peers[1..], nodes);
      if FoldAll(c, rs).Some? {
        FoldPeersSums(FoldAll(c, rs).value, before + Recs(rs), cursor, peers[1..], nodes);
      } else if Consistent(all) {
        SmallerConsistent(before + Recs(rs), all);
      }
    }
  }

  // ----- records that are filled in later -----

  /** A record of the same event, with at most its commit term filled in. */
  predicate SameEvent(r: Rec, r': Rec) {
    r' == r.(commitTerm := r'.commitTerm) && (r.commitTerm != 0 ==> r'.commitTerm == r.commitTerm)
  }

  /** Each record has its event among the others, at least as well filled in. */
  ghost predicate Backed(rs: set<Rec>, others: set<Rec>) {
    forall r | r in rs :: exists r' :: r' in others && SameEvent(r, r')
  }

  lemma BackedConsistent(a: set<Rec>, b: set<Rec>)
    requires Backed(a, b) && Consistent(b)
    ensures Consistent(a)
  {
    forall x, y | x in a && y in a ensures !Conflicts(x, y) {
      var x' :| x' in b && SameEvent(x, x');
      var y' :| y' in b && SameEvent(y, y');
      assert !Conflicts(x', y');
    }
  }

  lemma BackedMark(m: Mark, a: set<Rec>, m': Mark, b: set<Rec>, i: nat)
    requires Backed(a, b) && SumsUp(m, a, i) && SumsUp(m', b, i)
    ensures m.termKnown ==> m'.termKnown && m'.term == m.term
    ensures m.dataKnown ==> m'.dataKnown && m'.digest == m.digest
    ensures m.commitTerm != 0 ==> 0 < m'.commitTerm <= m.commitTerm
  {
    if m.termKnown {
      var r :| r in a && r.index == i && r.termKnown;
      var r' :| r' in b && SameEvent(r, r');
    }
    if m.dataKnown {
      var r :| r in a && r.index == i && r.dataKnown;
      var r' :| r' in b && SameEvent(r, r');
    }
    if m.commitTerm != 0 {
      var r :| r in a && r.index == i && r.commitTerm == m.commitTerm;
      var r' :| r' in b && SameEvent(r, r');
    }
  }

  lemma BackedKeys(c: Committed, a: set<Rec>, c': Committed, b: set<Rec>)
    requires Sums(c, a) && Sums(c', b) && Backed(a, b)
    ensures c.Keys <= c'.Keys
  {
    forall i | i in c ensures i in c' {
      var r :| r in a && r.index == i;
      var r' :| r' in b && SameEvent(r, r');
    }
  }

  /** Sets of records of the same events sum up to the same. */
  lemma SameSums(c: Committed, a: set<Rec>, c': Committed, b: set<Rec>)
    requires Sums(c, a) && Sums(c', b) && Backed(a, b) && Backed(b, a)
    ensures c == c'
  {
    hide SumsUp, Backed;
    BackedKeys(c, a, c', b);
    BackedKeys(c', b, c, a);
    forall i | i in c ensures c[i] == c'[i] {
      BackedMark(c[i], a, c'[i], b, i);
      BackedMark(c'[i], b, c[i], a, i);
      UnknownZero(c[i], a, i);
      UnknownZero(c'[i], b, i);
    }
  }

  lemma UnknownZero(m: Mark, rs: set<Rec>, i: nat)
    requires SumsUp(m, rs, i)
    ensures (!m.termKnown ==> m.term == 0) && (!m.dataKnown ==> m.digest == 0)
  {
  }

  /** Records are only added, or filled in; one that is filled in is repeated
      among those added. */
  predicate Grown(rs: seq<Rec>, rs': seq<Rec>) {
    && |rs| <= |rs'|
    && (forall i | 0 <= i < |rs| :: SameEvent(rs[i], rs'[i]) && (rs'[i] == rs[i] || rs'[i] in rs'[|rs|..]))
  }

  lemma GrownTrans(a: seq<Rec>, b: seq<Rec>, c: seq<Rec>)
    requires Grown(a, b) && Grown(b, c)
    ensures Grown(a, c)
  {
    forall i | 0 <= i < |a| ensures SameEvent(a[i], c[i]) && (c[i] == a[i] || c[i] in c[|a|..]) {
      if c[i] != b[i] {
        var j :| 0 <= j < |c| - |b| && c[|b|..][j] == c[i];
        assert c[|a|..][|b| - |a| + j] == c[i];
      } else if b[i] != a[i] {
        var j :| 0 <= j < |b| - |a| && b[|a|..][j] == b[i];
        assert SameEvent(b[|a| + j], c[|a| + j]);
        assert c[|a|..][j] == c[i];
      }
    }
  }

  // ----- reading on from the cursors is as good as reading everything -----

  function AllRecs(peers: seq<NodeId>, nodes: Cluster): set<Rec> {
    set id, r | id in peers && id in nodes && r in nodes[id].records :: r
  }

  lemma {:induction false} UnreadHas(cursor: map<NodeId, nat>, peers: seq<NodeId>, nodes: Cluster, id: NodeId)
    requires id in peers && id in nodes
    ensures Recs(Fresh(cursor, id, nodes[id].records)) <= Unread(cursor, peers, nodes)
    decreases peers
  {
    hide Fresh;
    if id != peers[0] { UnreadHas(cursor, peers[1..], nodes, id); }
  }

  lemma {:induction false} UnreadWithin(cursor: map<NodeId, nat>, peers: seq<NodeId>, nodes: Cluster)
    ensures Unread(cursor, peers, nodes) <= AllRecs(peers, nodes)
    decreases peers
  {
    hide Fresh;
    if peers != [] {
      UnreadWithin(cursor, peers[1..], nodes);
      assert AllRecs(peers[1..], nodes) <= AllRecs(peers, nodes);
      if peers[0] in nodes {
        FreshWithin(cursor, peers[0], nodes[peers[0]].records);
        assert Recs(nodes[peers[0]].records) <= AllRecs(peers, nodes);
      }
    }
  }

  lemma UnreadAll(peers: seq<NodeId>, nodes: Cluster)
    ensures Unread(map[], peers, nodes) == AllRecs(peers, nodes)
  {
    UnreadWithin(map[], peers, nodes);
    forall r | r in AllRecs(peers, nodes) ensures r in Unread(map[], peers, nodes) {
      var id :| id in peers && id in nodes && r in nodes[id].records;
      UnreadHas(map[], peers, nodes, id);
      assert Fresh(map[], id, nodes[id].records) == nodes[id].records;
      assert r in Recs(nodes[id].records);
    }
  }

  /** The first `k` records of a storage have been read: each is among those
      folded, or is repeated further on. */
  ghost predicate ReadTo(rs: seq<Rec>, k: nat, folded: set<Rec>) {
    k <= |rs| && Backed(Recs(rs[..k]), folded + Recs(rs[k..]))
  }

  /** A reader's state is up to date with a cluster. */
  ghost predicate Reads(folded: set<Rec>, cursor: map<NodeId, nat>, peers: seq<NodeId>, nodes: Cluster) {
    && Backed(folded, AllRecs(peers, nodes)) && ProperCluster(nodes)
    && (forall id | id in cursor :: id in nodes && ReadTo(nodes[id].records, cursor[id], folded))
  }

  lemma BackedItself(a: set<Rec>, b: set<Rec>)
    requires a <= b
    ensures Backed(a, b)
  {
    forall r | r in a ensures exists r' :: r' in b && SameEvent(r, r') { assert SameEvent(r, r); }
  }

  lemma BackedMore(a: set<Rec>, b: set<Rec>, c: set<Rec>)
    requires Backed(a, b) && b <= c
    ensures Backed(a, c)
  {
  }

  lemma BackedBoth(a: set<Rec>, b: set<Rec>, c: set<Rec>)
    requires Backed(a, c) && Backed(b, c)
    ensures Backed(a + b, c)
  {
  }

  lemma BackedTrans(a: set<Rec>, b: set<Rec>, c: set<Rec>)
    requires Backed(a, b) && Backed(b, c)
    ensures Backed(a, c)
  {
    forall r | r in a ensures exists r' :: r' in c && SameEvent(r, r') {
      var x :| x in b && SameEvent(r, x);
      var y :| y in c && SameEvent(x, y);
      assert SameEvent(r, y);
    }
  }

  /** Every record of a storage has been read, or is still to be. */
  lemma RecordsBacked(rs: seq<Rec>, cursor: map<NodeId, nat>, id: NodeId, folded: set<Rec>)
    requires id in cursor ==> ReadTo(rs, cursor[id], folded)
    ensures Backed(Recs(rs), folded + Recs(Fresh(cursor, id, rs)))
  {
    hide SameEvent;
    var k := if id in cursor then cursor[id] else 0;
    var all := folded + Recs(rs[k..]);
    assert Fresh(cursor, id, rs) == rs[k..];
    BackedItself(Recs(rs[k..]), all);
    assert rs == rs[..k] + rs[k..];
    assert Recs(rs) == Recs(rs[..k]) + Recs(rs[k..]);
    BackedBoth(Recs(rs[..k]), Recs(rs[k..]), all);
  }

  lemma AllBacked(folded: set<Rec>, cursor: map<NodeId, nat>, peers: seq<NodeId>, nodes: Cluster)
    requires Reads(folded, cursor, peers, nodes)
    ensures Backed(AllRecs(peers, nodes), folded + Unread(cursor, peers, nodes))
  {
    hide SameEvent, ProperCluster, ReadTo, Fresh, Unread;
    var all := folded + Unread(cursor, peers, nodes);
    forall r | r in AllRecs(peers, nodes) ensures exists r' :: r' in all && SameEvent(r, r') {
      var id :| id in peers && id in nodes && r in nodes[id].records;
      var rs := nodes[id].records;
      UnreadHas(cursor, peers, nodes, id);
      RecordsBacked(rs, cursor, id, folded);
      assert r in Recs(rs);
    }
  }

  /** Folding only what is new, onto what was folded before, gives exactly what
      folding every record of the cluster from nothing gives. */
  lemma ReadOnIsRescan(c: Committed, folded: set<Rec>, cursor: map<NodeId, nat>, peers: seq<NodeId>, nodes: Cluster)
    requires Sums(c, folded) && Reads(folded, cursor, peers, nodes)
    ensures FoldPeers(c, cursor, peers, nodes) == FoldPeers(map[], map[], peers, nodes)
  {
    hide Sums, Backed, FoldPeers, Consistent, ReadTo, Unread, AllRecs;
    var a, b := folded + Unread(cursor, peers, nodes), AllRecs(peers, nodes);
    FoldPeersSums(c, folded, cursor, peers, nodes);
    NothingSums();
    FoldPeersSums(map[], {}, map[], peers, nodes);
    UnreadAll(peers, nodes);
    assert {} + b == b;
    AllBacked(folded, cursor, peers, nodes);
    UnreadWithin(cursor, peers, nodes);
    BackedItself(Unread(cursor, peers, nodes), b);
    BackedBoth(folded, Unread(cursor, peers, nodes), b);
    if Consistent(a) { BackedConsistent(b, a); }
    if Consistent(b) {
      BackedConsistent(a, b);
      SameSums(FoldPeers(c, cursor, peers, nodes).value, a, FoldPeers(map[], map[], peers, nodes).value, b);
    }
  }

  lemma NothingSums()
    ensures Sums(map[], {})
  {
  }

  // ----- what the memo relies on -----

  /** A storage changes what it holds only by raising its generation, and its
      commit records only by growing. */
  predicate Moves(was: Observed, now: Observed) {
    && was.generation <= now.generation && (was.generation == now.generation ==> was.view == now.view)
    && Grown(was.records, now.records) && AllProper(Recs(now.records))
  }

  /** Between two checks no storage goes away, and each one moves. */
  predicate Evolves(was: Cluster, now: Cluster) {
    was.Keys <= now.Keys && ProperCluster(now) && forall id | id in was :: Moves(was[id], now[id])
  }

  lemma MovesTrans(a: Observed, b: Observed, c: Observed)
    requires Moves(a, b) && Moves(b, c)
    ensures Moves(a, c)
  {
    GrownTrans(a.records, b.records, c.records);
  }

  lemma EvolvesTrans(a: Cluster, b: Cluster, c: Cluster)
    requires Evolves(a, b) && Evolves(b, c)
    ensures Evolves(a, c)
  {
    hide Moves, ProperCluster;
    forall id | id in a ensures Moves(a[id], c[id]) { MovesTrans(a[id], b[id], c[id]); }
  }

  lemma GrownBacked(rs: seq<Rec>, rs': seq<Rec>)
    requires Grown(rs, rs')
    ensures Backed(Recs(rs), Recs(rs'))
  {
    forall r | r in Recs(rs) ensures exists r' :: r' in Recs(rs') && SameEvent(r, r') {
      var i :| 0 <= i < |rs| && rs[i] == r;
      assert rs'[i] in Recs(rs') && SameEvent(r, rs'[i]);
    }
  }

  lemma ReadToStays(rs: seq<Rec>, rs': seq<Rec>, k: nat, folded: set<Rec>)
    requires Grown(rs, rs') && ReadTo(rs, k, folded)
    ensures ReadTo(rs', k, folded)
  {
    var now := folded + Recs(rs'[k..]);
    forall r | r in Recs(rs'[..k]) ensures exists r' :: r' in now && SameEvent(r, r') {
      var i :| 0 <= i < k && rs'[..k][i] == r;
      if rs'[i] != rs[i] {
        var j :| 0 <= j < |rs'| - |rs| && rs'[|rs|..][j] == r;
        assert rs'[k..][|rs| - k + j] == r;
        assert SameEvent(r, r);
      } else {
        assert rs[..k][i] == r && r in Recs(rs[..k]);
        var x :| x in folded + Recs(rs[k..]) && SameEvent(r, x);
        if x !in folded {
          var j :| 0 <= j < |rs| - k && rs[k..][j] == x;
          assert rs'[k..][j] == rs'[k + j] && SameEvent(rs[k + j], rs'[k + j]);
          assert SameEvent(r, rs'[k + j]);
        }
      }
    }
  }

  lemma AllRecsGrow(peers: seq<NodeId>, was: Cluster, now: Cluster)
    requires Evolves(was, now)
    ensures Backed(AllRecs(peers, was), AllRecs(peers, now))
  {
    hide Grown, ProperCluster, SameEvent;
    forall r | r in AllRecs(peers, was) ensures exists r' :: r' in AllRecs(peers, now) && SameEvent(r, r') {
      var id :| id in peers && id in was && r in was[id].records;
      assert Moves(was[id], now[id]);
      GrownBacked(was[id].records, now[id].records);
      assert r in Recs(was[id].records);
      var r' :| r' in Recs(now[id].records) && SameEvent(r, r');
      assert r' in AllRecs(peers, now);
    }
  }

  /** Mutations and enrichments between two checks keep a reader up to date. */
  lemma ReadsEvolve(folded: set<Rec>, cursor: map<NodeId, nat>, peers: seq<NodeId>, was: Cluster, now: Cluster)
    requires Reads(folded, cursor, peers, was) && Evolves(was, now)
    ensures Reads(folded, cursor, peers, now)
  {
    hide Backed, Grown, ReadTo, AllRecs, ProperCluster;
    AllRecsGrow(peers, was, now);
    BackedTrans(folded, AllRecs(peers, was), AllRecs(peers, now));
    forall id | id in cursor ensures id in now && ReadTo(now[id].records, cursor[id], folded) {
      assert Moves(was[id], now[id]);
      ReadToStays(was[id].records, now[id].records, cursor[id], folded);
    }
  }

  lemma ReadToMore(rs: seq<Rec>, k: nat, folded: set<Rec>, more: set<Rec>)
    requires ReadTo(rs, k, folded) && folded <= more
    ensures ReadTo(rs, k, more)
  {
    BackedMore(Recs(rs[..k]), folded + Recs(rs[k..]), more + Recs(rs[k..]));
  }

  /** Folding some of a peer's records keeps a reader up to date. */
  lemma ReadsFold(folded: set<Rec>, cursor: map<NodeId, nat>, peers: seq<NodeId>, nodes: Cluster, id: NodeId, more: set<Rec>)
    requires Reads(folded, cursor, peers, nodes) && id in peers && id in nodes
    requires folded <= more <= folded + Recs(nodes[id].records)
    ensures Reads(more, cursor, peers, nodes)
  {
    hide ReadTo, ProperCluster;
    var all := AllRecs(peers, nodes);
    assert Recs(nodes[id].records) <= all;
    BackedItself(Recs(nodes[id].records), all);
    forall x | x in cursor ensures x in nodes && ReadTo(nodes[x].records, cursor[x], more) {
      ReadToMore(nodes[x].records, cursor[x], folded, more);
    }
  }

  /** Once all of a peer's records are folded its cursor may move to the end. */
  lemma ReadsPast(folded: set<Rec>, cursor: map<NodeId, nat>, peers: seq<NodeId>, nodes: Cluster, id: NodeId)
    requires Reads(folded, cursor, peers, nodes) && id in nodes
    requires Recs(Fresh(cursor, id, nodes[id].records)) <= folded
    ensures Reads(folded, cursor[id := |nodes[id].records|], peers, nodes)
  {
    hide ProperCluster, SameEvent;
    var rs := nodes[id].records;
    var k := if id in cursor then cursor[id] else 0;
    assert rs[..|rs|] == rs && rs[|rs|..] == [];
    assert Fresh(cursor, id, rs) == rs[k..];
    assert rs == rs[..k] + rs[k..];
    assert Recs(rs) == Recs(rs[..k]) + Recs(rs[k..]);
    BackedItself(Recs(rs[k..]), folded);
    if id in cursor {
      BackedMore(Recs(rs[..k]), folded + Recs(rs[k..]), folded);
      BackedBoth(Recs(rs[..k]), Recs(rs[k..]), folded);
    }
    assert folded + Recs([]) == folded;
  }

  /** A leader answers for everything committed. */
  predicate AnswersAll(v: View, term: nat, c: Committed) {
    forall i | i in c :: Answers(v, term, i, c[i])
  }

  lemma {:induction false} ScanFinds(v: View, term: nat, c: Committed, indexes: seq<nat>)
    ensures Scan(v, term, c, indexes) == None <==> forall i | i in indexes && i in c :: Answers(v, term, i, c[i])
    decreases indexes
  {
    if indexes != [] {
      ScanFinds(v, term, c, indexes[1..]);
      assert indexes == [indexes[0]] + indexes[1..];
    }
  }

  lemma {:induction false} FoldAllSnoc(c: Committed, rs: seq<Rec>, i: nat)
    requires i < |rs|
    ensures FoldAll(c, rs[i..]) == match FoldOne(c, rs[i]) case None => None case Some(c') => FoldAll(c', rs[i + 1..])
  {
    assert rs[i..][1..] == rs[i + 1..];
  }

  lemma PeersStep(c: Committed, cursor: map<NodeId, nat>, peers: seq<NodeId>, nodes: Cluster, i: nat)
    requires i < |peers|
    ensures FoldPeers(c, cursor, peers[i..], nodes) ==
      if peers[i] !in nodes then FoldPeers(c, cursor, peers[i + 1..], nodes)
      else match FoldAll(c, Fresh(cursor, peers[i], nodes[peers[i]].records))
        case None => None
        case Some(c') => FoldPeers(c', cursor, peers[i + 1..], nodes)
  {
    assert peers[i..][1..] == peers[i + 1..];
  }

  lemma ScanStep(c: Committed, indexes: seq<nat>, peers: seq<NodeId>, nodes: Cluster, i: nat)
    requires i < |peers|
    ensures ScanPeers(c, indexes, peers[i..], nodes) ==
      if peers[i] !in nodes || nodes[peers[i]].leads == 0 then ScanPeers(c, indexes, peers[i + 1..], nodes)
      else match Scan(nodes[peers[i]].view, nodes[peers[i]].leads, c, indexes)
        case Some(x) => Violated(peers[i], x)
        case None => ScanPeers(c, indexes, peers[i + 1..], nodes)
  {
    assert peers[i..][1..] == peers[i + 1..];
  }

  datatype Memo = Memo(generation: nat, version: nat, term: nat)

  predicate Distinct(peers: seq<NodeId>) { forall i, j | 0 <= i < j < |peers| :: peers[i] != peers[j] }

  class Checker {
    const peers: seq<NodeId>
    var committed: Committed
    var version: nat
    var cursor: map<NodeId, nat>
    var markCache: map<NodeId, (nat, View)>
    var sorted: seq<nat>
    var memo: map<NodeId, Memo>
    // The cluster as it was at the last check, and the records read so far.
    ghost var last: Cluster
    ghost var folded: set<Rec>

    constructor (peers: seq<NodeId>)
      requires Distinct(peers)
      ensures this.peers == peers && Valid() && committed == map[] && cursor == map[] && last == map[]
    {
      this.peers := peers;
      committed, version, cursor, markCache, sorted, memo, last := map[], 0, map[], map[], [], map[], map[];
      folded := {};
      new;
      NothingSums();
    }

    /** A remembered pass is a pass on its own inputs as long as they are the
        current ones, and a cached view is the view of its generation. */
    ghost predicate MemoOK(id: NodeId)
      requires id in memo
      reads this`last, this`memo, this`committed, this`version
    {
      && id in last && memo[id].generation <= last[id].generation && memo[id].version <= version
      && (memo[id].generation == last[id].generation && memo[id].version == version ==>
            AnswersAll(last[id].view, memo[id].term, committed))
    }

    ghost predicate CacheOK(id: NodeId)
      requires id in markCache
      reads this`last, this`markCache
    {
      && id in last && markCache[id].0 <= last[id].generation
      && (markCache[id].0 == last[id].generation ==> markCache[id].1 == last[id].view)
    }

    /** What has been read, and from where, is up to date with the last check. */
    ghost predicate Valid()
      reads this
    {
      Remembers() && Sums(committed, folded) && Reads(folded, cursor, peers, last)
    }

    ghost predicate Remembers()
      reads this`last, this`memo, this`markCache, this`sorted, this`committed, this`version
    {
      && Distinct(peers)
      && (forall id | id in memo :: MemoOK(id)) && (forall id | id in markCache :: CacheOK(id))
      && Ascending(Below, sorted) && (forall i | i in sorted :: i in committed)
    }

    /** Folds new commit records; any change raises the version. */
    method FoldRecords(rs: seq<Rec>) returns (ok: bool)
      requires Remembers() && Sums(committed, folded) && AllProper(Recs(rs))
      modifies this`committed, this`version, this`folded
      ensures Remembers() && Sums(committed, folded)
      ensures ok == FoldAll(old(committed), rs).Some? && (ok ==> committed == FoldAll(old(committed), rs).value)
      ensures old(folded) <= folded <= old(folded) + Recs(rs) && (ok ==> folded == old(folded) + Recs(rs))
    {
      hide Answers, FoldOne, Sums, Proper;
      var i := 0;
      assert rs[0..] == rs;
      while i < |rs|
        invariant 0 <= i <= |rs| && Remembers() && Sums(committed, folded)
        invariant FoldAll(old(committed), rs) == FoldAll(committed, rs[i..])
        invariant folded == old(folded) + Recs(rs[..i])
      {
        FoldAllSnoc(committed, rs, i);
        assert rs[i] in Recs(rs);
        assert Recs(rs[..i]) <= Recs(rs);
        var fits := FoldRecord(rs[i]);
        if !fits {
          return false;
        }
        assert rs[..i + 1] == rs[..i] + [rs[i]];
        assert Recs(rs[..i + 1]) == Recs(rs[..i]) + {rs[i]};
        i := i + 1;
      }
      assert rs[..i] == rs;
      return true;
    }

    method FoldRecord(r: Rec) returns (ok: bool)
      requires Remembers() && Sums(committed, folded) && Proper(r)
      modifies this`committed, this`version, this`folded
      ensures Remembers() && Sums(committed, folded)
      ensures ok == FoldOne(old(committed), r).Some?
      ensures committed == if ok then FoldOne(old(committed), r).value else old(committed)
      ensures folded == if ok then old(folded) + {r} else old(folded)
    {
      hide Answers, Sums;
      FoldOneSums(committed, folded, r);
      if r.index in committed {
        var prev := committed[r.index];
        if Clash(prev, r) {
          return false;
        }
        var changed := (!prev.termKnown && r.termKnown) || (!prev.dataKnown && r.dataKnown) || LearnsTerm(prev, r);
        if changed {
          committed := committed[r.index := Merged(prev, r)];
          version := version + 1;
        } else {
          assert committed[r.index := Merged(prev, r)] == committed;
        }
      } else {
        committed := committed[r.index := Mark(r.term, r.digest, r.commitTerm, r.termKnown, r.dataKnown)];
        version := version + 1;
      }
      folded := folded + {r};
      return true;
    }

    /** A node's durable view, re-read only when its generation has moved. */
    method DurableMarks(id: NodeId, now: Observed) returns (v: View)
      requires Remembers() && id in last && now == last[id]
      modifies this`markCache
      ensures Remembers() && v == now.view
    {
      hide AnswersAll;
      if id in markCache && markCache[id].0 == now.generation {
        return markCache[id].1;
      }
      v := now.view;
      markCache := markCache[id := (now.generation, v)];
    }

    /** Rebuilds the ascending index list only when an index has been added. */
    method SortIndexes()
      requires Remembers()
      modifies this`sorted
      ensures Remembers() && Lists(Below, sorted, committed.Keys)
    {
      hide AnswersAll, StrictOrder;
      BelowOrders();
      DistinctSize(sorted);
      if |sorted| != |committed.Keys| {
        sorted := Sort(Below, committed.Keys);
      } else {
        SameSize(Elements(sorted), committed.Keys);
      }
    }

    method ScanLeader(v: View, term: nat) returns (bad: Option<nat>)
      ensures bad == Scan(v, term, committed, sorted)
    {
      hide Answers;
      var i := 0;
      assert sorted[0..] == sorted;
      while i < |sorted|
        invariant 0 <= i <= |sorted| && Scan(v, term, committed, sorted) == Scan(v, term, committed, sorted[i..])
      {
        assert sorted[i..][1..] == sorted[i + 1..];
        if sorted[i] in committed && !Answers(v, term, sorted[i], committed[sorted[i]]) {
          return Some(sorted[i]);
        }
        i := i + 1;
      }
      return None;
    }

    /** The memoised check gives the verdict of a full rescan of the cluster, now
        and after any checks and changes before, whatever their verdicts. */
    method Check(nodes: Cluster) returns (v: Verdict)
      requires Valid() && Evolves(last, nodes)
      modifies this
      ensures Valid() && last == nodes && IsVerdict(peers, nodes, v)
    {
      hide AnswersAll, FoldPeers, ScanPeers, Fresh, Sums, Reads, Lists, Evolves;
      Observe(nodes);
      ReadOnIsRescan(committed, folded, cursor, peers, nodes);
      var ok := FoldCluster(nodes);
      if !ok {
        return Diverged;
      }
      SortIndexes();
      v := ScanLeaders(nodes);
    }

    ghost method Observe(nodes: Cluster)
      requires Valid() && Evolves(last, nodes)
      modifies this`last
      ensures Valid() && last == nodes
    {
      hide AnswersAll, Sums, Reads, Grown, ProperCluster;
      ReadsEvolve(folded, cursor, peers, last, nodes);
      last := nodes;
    }

    method FoldCluster(nodes: Cluster) returns (ok: bool)
      requires Valid() && last == nodes
      modifies this`committed, this`version, this`cursor, this`folded
      ensures Valid()
      ensures var f := FoldPeers(old(committed), old(cursor), peers, nodes); ok == f.Some? && (ok ==> committed == f.value)
    {
      hide AnswersAll, FoldPeers, FoldAll, Sums, Reads, Fresh;
      var i := 0;
      assert peers[0..] == peers;
      while i < |peers|
        invariant 0 <= i <= |peers| && Valid()
        invariant FoldPeers(old(committed), old(cursor), peers, nodes) == FoldPeers(committed, old(cursor), peers[i..], nodes)
        invariant forall j | i <= j < |peers| :: (peers[j] in cursor <==> peers[j] in old(cursor))
                    && (peers[j] in cursor ==> cursor[peers[j]] == old(cursor)[peers[j]])
      {
        PeersStep(committed, old(cursor), peers, nodes, i);
        var id := peers[i];
        if id in nodes {
          SameFresh(cursor, old(cursor), id, nodes[id].records);
          var fits := FoldPeer(nodes, id);
          if !fits {
            return false;
          }
        }
        i := i + 1;
      }
      assert peers[i..] == [];
      NoPeersLeft(committed, old(cursor), nodes);
      return true;
    }

    lemma SameFresh(a: map<NodeId, nat>, b: map<NodeId, nat>, id: NodeId, rs: seq<Rec>)
      requires (id in a <==> id in b) && (id in a ==> a[id] == b[id])
      ensures Fresh(a, id, rs) == Fresh(b, id, rs)
    {
    }

    method FoldPeer(nodes: Cluster, id: NodeId) returns (ok: bool)
      requires Valid() && last == nodes && id in peers && id in nodes
      modifies this`committed, this`version, this`cursor, this`folded
      ensures Valid()
      ensures var f := FoldAll(old(committed), Fresh(old(cursor), id, nodes[id].records));
        ok == f.Some? && (ok ==> committed == f.value)
      ensures cursor == if ok then old(cursor)[id := |nodes[id].records|] else old(cursor)
    {
      hide AnswersAll, FoldAll, Sums, Reads, Fresh, AllProper;
      var records := nodes[id].records;
      ReadsProper(folded, cursor, peers, nodes, id);
      FreshProper(cursor, id, records);
      ghost var was := folded;
      ok := FoldRecords(Fresh(cursor, id, records));
      ReadsFold(was, cursor, peers, nodes, id, folded);
      if ok {
        ReadsPast(folded, cursor, peers, nodes, id);
        cursor := cursor[id := |records|];
      }
    }

    lemma ReadsProper(f: set<Rec>, k: map<NodeId, nat>, ps: seq<NodeId>, nodes: Cluster, id: NodeId)
      requires Reads(f, k, ps, nodes) && id in nodes
      ensures AllProper(Recs(nodes[id].records))
    {
    }

    lemma NoPeersLeft(c: Committed, k: map<NodeId, nat>, nodes: Cluster)
      ensures FoldPeers(c, k, [], nodes) == Some(c)
    {
    }

    method ScanLeaders(nodes: Cluster) returns (v: Verdict)
      requires Remembers() && Lists(Below, sorted, committed.Keys) && last == nodes
      modifies this`markCache, this`memo
      ensures Remembers() && v == ScanPeers(committed, sorted, peers, nodes)
    {
      hide AnswersAll, ScanPeers, Scan, Lists;
      var i := 0;
      assert peers[0..] == peers;
      while i < |peers|
        invariant 0 <= i <= |peers| && Remembers()
        invariant ScanPeers(committed, sorted, peers, nodes) == ScanPeers(committed, sorted, peers[i..], nodes)
      {
        ScanStep(committed, sorted, peers, nodes, i);
        var id := peers[i];
        if id in nodes && nodes[id].leads != 0 {
          var bad := CheckLeader(id, nodes[id]);
          if bad.Some? {
            return Violated(id, bad.value);
          }
        }
        i := i + 1;
      }
      assert peers[i..] == [];
      NoLeadersLeft(committed, sorted, nodes);
      return Pass;
    }

    lemma NoLeadersLeft(c: Committed, indexes: seq<nat>, nodes: Cluster)
      ensures ScanPeers(c, indexes, [], nodes) == Pass
    {
    }

    /** One leader: skipped if it passed before on the very same inputs. */
    method CheckLeader(id: NodeId, now: Observed) returns (bad: Option<nat>)
      requires Remembers() && Lists(Below, sorted, committed.Keys) && id in last && now == last[id]
      modifies this`markCache, this`memo
      ensures Remembers() && bad == Scan(now.view, now.leads, committed, sorted)
    {
      hide Answers, Scan;
      ScanFinds(now.view, now.leads, committed, sorted);
      var key := Memo(now.generation, version, now.leads);
      if id in memo && memo[id] == key {
        return None;
      }
      var v := DurableMarks(id, now);
      bad := ScanLeader(v, now.leads);
      if bad.None? {
        memo := memo[id := key];
      }
    }
  }

  function Elements(s: seq<nat>): set<nat> { set i | i in s }

  lemma {:induction false} DistinctSize(s: seq<nat>)
    requires Ascending(Below, s)
    ensures |Elements(s)| == |s|
    decreases |s|
  {
    if s != [] {
      var init, x := s[..|s| - 1], s[|s| - 1];
      DistinctSize(init);
      assert s == init + [x];
      assert Elements(s) == Elements(init) + {x};
      assert forall i | 0 <= i < |init| :: Below(init[i], x);
    }
  }

  lemma SameSize<T>(a: set<T>, b: set<T>)
    requires a <= b && |a| == |b|
    ensures a == b
  {
    assert b == a + (b - a);
    assert |b| == |a| + |b - a|;
  }
}
