/** What a verdict of the leader-completeness check means, said of the records
    and the durable logs alone. */
module LeaderVerdict {
  import opened RaftTypes
  import opened Ordering
  import opened LeaderCheck

  predicate OfIndex(r: Rec, i: nat) { r.index == i }

  /** Some record says what was committed at an index. */
  ghost predicate Recorded(rs: set<Rec>, i: nat) { exists r :: r in rs && OfIndex(r, i) }

  ghost predicate TermIs(rs: set<Rec>, i: nat, t: nat) {
    exists r :: r in rs && OfIndex(r, i) && r.termKnown && r.term == t
  }

  ghost predicate DigestIs(rs: set<Rec>, i: nat, d: nat) {
    exists r :: r in rs && OfIndex(r, i) && r.dataKnown && r.digest == d
  }

  /** A leader of `term` must hold the index: no record says in which term it was
      committed, or one says that this was not after `term`. */
  ghost predicate Due(rs: set<Rec>, i: nat, term: nat) {
    || (forall r | r in rs && OfIndex(r, i) :: r.commitTerm == 0)
    || (exists r :: r in rs && OfIndex(r, i) && 0 < r.commitTerm <= term)
  }

  /** The durable log has an entry there with the term and digest that are known,
      or a snapshot reaches past it, or ends there with the term that is known. */
  ghost predicate Durably(v: View, rs: set<Rec>, i: nat) {
    if i in v.marks then
      && (forall t: nat | TermIs(rs, i, t) :: v.marks[i].0 == t)
      && (forall d: nat | DigestIs(rs, i, d) :: v.marks[i].1 == d)
    else v.snapIndex > i || (v.snapIndex == i && forall t: nat | TermIs(rs, i, t) :: v.snapTerm == t)
  }

  /** A live leader lacks something committed that it must hold. */
  ghost predicate Lacks(nodes: Cluster, rs: set<Rec>, l: NodeId, i: nat) {
    && l in nodes && nodes[l].leads > 0
    && Recorded(rs, i) && Due(rs, i, nodes[l].leads) && !Durably(nodes[l].view, rs, i)
  }

  // ----- one index -----

  lemma MarkMeans(m: Mark, rs: set<Rec>, i: nat, t: nat)
    requires SumsUp(m, rs, i)
    ensures TermIs(rs, i, t) <==> m.termKnown && m.term == t
    ensures DigestIs(rs, i, t) <==> m.dataKnown && m.digest == t
    ensures Due(rs, i, t) <==> m.commitTerm == 0 || m.commitTerm <= t
  {
    if m.termKnown {
      var r :| r in rs && r.index == i && r.termKnown;
      assert OfIndex(r, i);
    }
    if m.dataKnown {
      var r :| r in rs && r.index == i && r.dataKnown;
      assert OfIndex(r, i);
    }
    if m.commitTerm != 0 {
      var r :| r in rs && r.index == i && r.commitTerm == m.commitTerm;
      assert OfIndex(r, i);
    }
  }

  lemma AnswersMeans(v: View, term: nat, i: nat, m: Mark, rs: set<Rec>)
    requires SumsUp(m, rs, i)
    ensures Answers(v, term, i, m) <==> (Due(rs, i, term) ==> Durably(v, rs, i))
  {
    hide SumsUp, TermIs, DigestIs, Due;
    MarkMeans(m, rs, i, term);
    forall t: nat ensures TermIs(rs, i, t) <==> m.termKnown && m.term == t { MarkMeans(m, rs, i, t); }
    forall d: nat ensures DigestIs(rs, i, d) <==> m.dataKnown && m.digest == d { MarkMeans(m, rs, i, d); }
    assert m.termKnown ==> TermIs(rs, i, m.term);
    assert m.dataKnown ==> DigestIs(rs, i, m.digest);
  }

  lemma KeyMeans(c: Committed, rs: set<Rec>, i: nat)
    requires Sums(c, rs)
    ensures i in c <==> Recorded(rs, i)
    ensures i in c ==> SumsUp(c[i], rs, i)
  {
    hide SumsUp;
    if i in c {
      var r :| r in rs && r.index == i;
      assert OfIndex(r, i);
    }
  }

  // ----- one leader -----

  lemma LacksMeans(c: Committed, rs: set<Rec>, nodes: Cluster, l: NodeId, i: nat)
    requires Sums(c, rs) && l in nodes && nodes[l].leads > 0
    ensures Lacks(nodes, rs, l, i) <==> i in c && !Answers(nodes[l].view, nodes[l].leads, i, c[i])
  {
    hide Sums, SumsUp, Answers, Due, Durably, Recorded;
    KeyMeans(c, rs, i);
    if i in c { AnswersMeans(nodes[l].view, nodes[l].leads, i, c[i], rs); }
  }

  /** A scan in ascending order ends at the least index that is lacking. */
  lemma {:induction false} ScanMeans(c: Committed, rs: set<Rec>, nodes: Cluster, l: NodeId, indexes: seq<nat>)
    requires Sums(c, rs) && l in nodes && nodes[l].leads > 0 && Ascending(Below, indexes)
    ensures var s := Scan(nodes[l].view, nodes[l].leads, c, indexes);
      match s
      case None => forall i | i in indexes :: !Lacks(nodes, rs, l, i)
      case Some(j) => j in indexes && Lacks(nodes, rs, l, j) && forall i | i in indexes && i < j :: !Lacks(nodes, rs, l, i)
    decreases indexes
  {
    hide Sums, Answers, Lacks;
    if indexes != [] {
      var i0, rest := indexes[0], indexes[1..];
      LacksMeans(c, rs, nodes, l, i0);
      assert Ascending(Below, rest);
      ScanMeans(c, rs, nodes, l, rest);
      assert forall i | i in indexes :: i == i0 || i in rest;
      forall i | i in rest ensures i0 < i {
        var k :| 0 <= k < |rest| && rest[k] == i;
        assert Below(indexes[0], indexes[k + 1]);
      }
    }
  }

  /** The same over every index. */
  lemma LeaderMeans(c: Committed, rs: set<Rec>, nodes: Cluster, l: NodeId, indexes: seq<nat>)
    requires Sums(c, rs) && l in nodes && nodes[l].leads > 0 && Lists(Below, indexes, c.Keys)
    ensures var s := Scan(nodes[l].view, nodes[l].leads, c, indexes);
      match s
      case None => forall i: nat :: !Lacks(nodes, rs, l, i)
      case Some(j) => Lacks(nodes, rs, l, j) && forall i: nat | i < j :: !Lacks(nodes, rs, l, i)
  {
    hide Sums, Answers, Lacks, Scan;
    ScanMeans(c, rs, nodes, l, indexes);
    forall i: nat ensures Lacks(nodes, rs, l, i) ==> i in indexes {
      LacksMeans(c, rs, nodes, l, i);
      if Lacks(nodes, rs, l, i) { assert i in c.Keys; }
    }
  }

  // ----- every leader -----

  ghost predicate NoneLacks(peers: seq<NodeId>, nodes: Cluster, rs: set<Rec>) {
    forall l, i: nat | l in peers :: !Lacks(nodes, rs, l, i)
  }

  /** The first leader, in the order of the peers, that lacks anything, and the
      least index it lacks. */
  ghost predicate FirstLack(peers: seq<NodeId>, nodes: Cluster, rs: set<Rec>, l: NodeId, i: nat) {
    && Lacks(nodes, rs, l, i) && (forall j: nat | j < i :: !Lacks(nodes, rs, l, j))
    && exists p :: 0 <= p < |peers| && peers[p] == l && NoneLacks(peers[..p], nodes, rs)
  }

  lemma NotLeading(nodes: Cluster, rs: set<Rec>, l: NodeId, i: nat)
    requires l !in nodes || nodes[l].leads == 0
    ensures !Lacks(nodes, rs, l, i)
  {
  }

  lemma NoneMore(peers: seq<NodeId>, nodes: Cluster, rs: set<Rec>)
    requires peers != [] && NoneLacks(peers[1..], nodes, rs) && forall i: nat :: !Lacks(nodes, rs, peers[0], i)
    ensures NoneLacks(peers, nodes, rs)
  {
    hide Lacks;
    assert forall l | l in peers :: l == peers[0] || l in peers[1..];
  }

  lemma FirstMore(peers: seq<NodeId>, nodes: Cluster, rs: set<Rec>, l: NodeId, i: nat)
    requires peers != [] && FirstLack(peers[1..], nodes, rs, l, i) && forall j: nat :: !Lacks(nodes, rs, peers[0], j)
    ensures FirstLack(peers, nodes, rs, l, i)
  {
    hide Lacks;
    var p :| 0 <= p < |peers[1..]| && peers[1..][p] == l && NoneLacks(peers[1..][..p], nodes, rs);
    var before := peers[..p + 1];
    assert before[0] == peers[0] && before[1..] == peers[1..][..p];
    NoneMore(before, nodes, rs);
    assert peers[p + 1] == l && NoneLacks(peers[..p + 1], nodes, rs);
  }

  lemma {:induction false} PeersMean(c: Committed, rs: set<Rec>, indexes: seq<nat>, peers: seq<NodeId>, nodes: Cluster)
    requires Sums(c, rs) && Lists(Below, indexes, c.Keys)
    ensures match ScanPeers(c, indexes, peers, nodes)
      case Pass => NoneLacks(peers, nodes, rs)
      case Diverged => false
      case Violated(l, i) => FirstLack(peers, nodes, rs, l, i)
    decreases peers
  {
    hide Sums, Lacks, Lists, Scan, NoneLacks, FirstLack;
    if peers == [] {
      NoneAtAll(nodes, rs);
    } else {
      var l := peers[0];
      PeersMean(c, rs, indexes, peers[1..], nodes);
      if l !in nodes || nodes[l].leads == 0 {
        forall i: nat ensures !Lacks(nodes, rs, l, i) { NotLeading(nodes, rs, l, i); }
        Onward(c, rs, indexes, peers, nodes);
      } else {
        LeaderMeans(c, rs, nodes, l, indexes);
        if Scan(nodes[l].view, nodes[l].leads, c, indexes).None? {
          Onward(c, rs, indexes, peers, nodes);
        } else {
          HeadLacks(peers, nodes, rs, Scan(nodes[l].view, nodes[l].leads, c, indexes).value);
        }
      }
    }
  }

  lemma NoneAtAll(nodes: Cluster, rs: set<Rec>)
    ensures NoneLacks([], nodes, rs)
  {
  }

  lemma HeadLacks(peers: seq<NodeId>, nodes: Cluster, rs: set<Rec>, i: nat)
    requires peers != [] && Lacks(nodes, rs, peers[0], i) && forall j: nat | j < i :: !Lacks(nodes, rs, peers[0], j)
    ensures FirstLack(peers, nodes, rs, peers[0], i)
  {
    hide Lacks;
    assert peers[..0] == [];
    assert NoneLacks(peers[..0], nodes, rs);
  }

  lemma Onward(c: Committed, rs: set<Rec>, indexes: seq<nat>, peers: seq<NodeId>, nodes: Cluster)
    requires peers != [] && forall i: nat :: !Lacks(nodes, rs, peers[0], i)
    requires match ScanPeers(c, indexes, peers[1..], nodes)
      case Pass => NoneLacks(peers[1..], nodes, rs)
      case Diverged => false
      case Violated(l, i) => FirstLack(peers[1..], nodes, rs, l, i)
    ensures match ScanPeers(c, indexes, peers[1..], nodes)
      case Pass => NoneLacks(peers, nodes, rs)
      case Diverged => false
      case Violated(l, i) => FirstLack(peers, nodes, rs, l, i)
  {
    hide Lacks, NoneLacks, FirstLack, ScanPeers;
    match ScanPeers(c, indexes, peers[1..], nodes)
    case Pass => NoneMore(peers, nodes, rs);
    case Diverged =>
    case Violated(l, i) => FirstMore(peers, nodes, rs, l, i);
  }

  /** The verdict. Records that contradict each other are a divergence; otherwise
      the check passes exactly if no live leader lacks anything committed that it
      must hold, and if one does it names the first leader that does, in the order
      of the peers, and the least index it lacks. */
  lemma VerdictMeans(peers: seq<NodeId>, nodes: Cluster, v: Verdict)
    requires ProperCluster(nodes) && IsVerdict(peers, nodes, v)
    ensures var rs := AllRecs(peers, nodes);
      && (v.Diverged? <==> exists a, b ::
            && a in rs && b in rs && a.index == b.index
            && ((a.termKnown && b.termKnown && a.term != b.term) || (a.dataKnown && b.dataKnown && a.digest != b.digest)))
      && (v.Pass? <==> Consistent(rs) && NoneLacks(peers, nodes, rs))
      && (v.Violated? ==> FirstLack(peers, nodes, rs, v.leader, v.index))
  {
    hide Sums, FoldPeers, ScanPeers, Lists, NoneLacks, FirstLack;
    var rs := AllRecs(peers, nodes);
    NothingSums();
    FoldPeersSums(map[], {}, map[], peers, nodes);
    UnreadAll(peers, nodes);
    assert {} + Unread(map[], peers, nodes) == rs;
    var f := FoldPeers(map[], map[], peers, nodes);
    if f.Some? {
      var indexes :| Lists(Below, indexes, f.value.Keys) && v == ScanPeers(f.value, indexes, peers, nodes);
      PeersMean(f.value, rs, indexes, peers, nodes);
      if v.Violated? { OneLacks(peers, nodes, rs, v.leader, v.index); }
    }
  }

  lemma NothingSums()
    ensures Sums(map[], {})
  {
  }

  lemma OneLacks(peers: seq<NodeId>, nodes: Cluster, rs: set<Rec>, l: NodeId, i: nat)
    requires FirstLack(peers, nodes, rs, l, i)
    ensures !NoneLacks(peers, nodes, rs)
  {
    hide Lacks;
  }
}
