/** The simulator's storage wrapper: it counts mutations and records what each
    durable commit advance covered, which is all the leader check looks at. */
module TrackedStorage {
  import opened RaftTypes
  import opened PlainLog
  import opened MemStorage
  import opened LeaderCheck

  function MarkAt(digest: Bytes -> nat, p: Plain, i: nat): (nat, nat)
    requires p.dummy < i <= Last(p)
  {
    (p.entries[i - p.dummy - 1].term, digest(p.entries[i - p.dummy - 1].data))
  }

  /** What the check sees of a stored log. */
  function ViewOf(digest: Bytes -> nat, p: Plain): View {
    View(map i: nat | p.dummy < i <= Last(p) :: MarkAt(digest, p, i), p.dummy, p.dummyTerm)
  }

  // ----- the records -----

  /** A snapshot commits everything it covers, but only its boundary term is known. */
  function SnapRecs(from: nat, s: Snapshot): seq<Rec>
    requires from < s.index
  {
    seq(s.index - from, k requires 0 <= k < s.index - from =>
      if from + 1 + k == s.index then Rec(s.index, s.term, 0, 0, true, false) else Rec(from + 1 + k, 0, 0, 0, false, false))
  }

  /** One committed index: its entry if the log still has it, its term if it is
      the snapshot's boundary, and otherwise nothing but the index. */
  function RecAt(digest: Bytes -> nat, p: Plain, i: nat, commitTerm: nat): Rec {
    if p.dummy < i <= Last(p) then Rec(i, MarkAt(digest, p, i).0, MarkAt(digest, p, i).1, commitTerm, true, true)
    else if i == p.dummy then Rec(i, p.dummyTerm, 0, commitTerm, true, false)
    else Rec(i, 0, 0, commitTerm, false, false)
  }

  function CommitRecs(digest: Bytes -> nat, p: Plain, from: nat, commit: nat, commitTerm: nat): seq<Rec>
    requires from <= commit
  {
    seq(commit - from, k requires 0 <= k < commit - from => RecAt(digest, p, from + 1 + k, commitTerm))
  }

  /** A record whose commit term has been waiting for this hard state. */
  predicate Waits(r: Rec, commit: nat, commitTerm: nat) { r.index <= commit && r.commitTerm == 0 && commitTerm != 0 }

  function Fill(r: Rec, commit: nat, commitTerm: nat): Rec {
    if Waits(r, commit, commitTerm) then r.(commitTerm := commitTerm) else r
  }

  function Filled(rs: seq<Rec>, commit: nat, commitTerm: nat): seq<Rec> {
    seq(|rs|, i requires 0 <= i < |rs| => Fill(rs[i], commit, commitTerm))
  }

  /** The records just filled in, once more, in their order. */
  function Repeats(rs: seq<Rec>, commit: nat, commitTerm: nat): seq<Rec>
    decreases |rs|
  {
    if rs == [] then []
    else
      var init, r := rs[..|rs| - 1], rs[|rs| - 1];
      Repeats(init, commit, commitTerm) + if Waits(r, commit, commitTerm) then [Fill(r, commit, commitTerm)] else []
  }

  function Enriched(rs: seq<Rec>, commit: nat, commitTerm: nat): seq<Rec> {
    Filled(rs, commit, commitTerm) + Repeats(rs, commit, commitTerm)
  }

  lemma {:induction false} RepeatsHold(rs: seq<Rec>, commit: nat, commitTerm: nat, i: nat)
    requires i < |rs| && Waits(rs[i], commit, commitTerm)
    ensures Fill(rs[i], commit, commitTerm) in Repeats(rs, commit, commitTerm)
    decreases |rs|
  {
    if i < |rs| - 1 { RepeatsHold(rs[..|rs| - 1], commit, commitTerm, i); }
  }

  lemma {:induction false} RepeatsFrom(rs: seq<Rec>, commit: nat, commitTerm: nat, r: Rec)
    requires r in Repeats(rs, commit, commitTerm)
    ensures exists i :: 0 <= i < |rs| && Waits(rs[i], commit, commitTerm) && r == Fill(rs[i], commit, commitTerm)
    decreases |rs|
  {
    var init := rs[..|rs| - 1];
    if r in Repeats(init, commit, commitTerm) {
      RepeatsFrom(init, commit, commitTerm, r);
      var i :| 0 <= i < |init| && Waits(init[i], commit, commitTerm) && r == Fill(init[i], commit, commitTerm);
      assert rs[i] == init[i];
    }
  }

  /** Enrichment fills in every waiting record, and shows each of them to a reader
      that has already gone past. */
  lemma EnrichedGrows(rs: seq<Rec>, commit: nat, commitTerm: nat)
    ensures Grown(rs, Enriched(rs, commit, commitTerm))
    ensures AllProper(Recs(rs)) ==> AllProper(Recs(Enriched(rs, commit, commitTerm)))
  {
    var rs' := Enriched(rs, commit, commitTerm);
    assert rs'[|rs|..] == Repeats(rs, commit, commitTerm);
    forall i | 0 <= i < |rs| ensures SameEvent(rs[i], rs'[i]) && (rs'[i] == rs[i] || rs'[i] in rs'[|rs|..]) {
      if Waits(rs[i], commit, commitTerm) { RepeatsHold(rs, commit, commitTerm, i); }
    }
    if AllProper(Recs(rs)) {
      forall r | r in Recs(rs') ensures LeaderCheck.Proper(r) { EnrichedProper(rs, commit, commitTerm, r); }
    }
  }

  lemma EnrichedProper(rs: seq<Rec>, commit: nat, commitTerm: nat, r: Rec)
    requires AllProper(Recs(rs)) && r in Enriched(rs, commit, commitTerm)
    ensures LeaderCheck.Proper(r)
  {
    if r in Repeats(rs, commit, commitTerm) {
      RepeatsFrom(rs, commit, commitTerm, r);
      var i :| 0 <= i < |rs| && Waits(rs[i], commit, commitTerm) && r == Fill(rs[i], commit, commitTerm);
      assert rs[i] in Recs(rs);
    } else {
      var i :| 0 <= i < |rs| && Filled(rs, commit, commitTerm)[i] == r;
      assert rs[i] in Recs(rs);
    }
  }

  lemma AddedGrows(rs: seq<Rec>, more: seq<Rec>)
    ensures Grown(rs, rs + more)
    ensures AllProper(Recs(rs)) && AllProper(Recs(more)) ==> AllProper(Recs(rs + more))
  {
    assert Recs(rs + more) == Recs(rs) + Recs(more);
  }

  lemma SnapRecsProper(from: nat, s: Snapshot)
    requires from < s.index
    ensures AllProper(Recs(SnapRecs(from, s)))
  {
  }

  lemma CommitRecsProper(digest: Bytes -> nat, p: Plain, from: nat, commit: nat, commitTerm: nat)
    requires from <= commit
    ensures var rs := CommitRecs(digest, p, from, commit, commitTerm);
      AllProper(Recs(rs)) && forall k | 0 <= k < |rs| :: rs[k].index == from + 1 + k
  {
    var rs := CommitRecs(digest, p, from, commit, commitTerm);
    assert forall k | 0 <= k < |rs| :: rs[k] == RecAt(digest, p, from + 1 + k, commitTerm);
    forall r | r in Recs(rs) ensures LeaderCheck.Proper(r) {
      var k :| 0 <= k < |rs| && rs[k] == r;
      assert r == RecAt(digest, p, from + 1 + k, commitTerm);
    }
  }

  predicate Covered(rs: seq<Rec>, i: nat) { exists k :: 0 <= k < |rs| && rs[k].index == i }

  lemma StillCovered(rs: seq<Rec>, rs': seq<Rec>, i: nat)
    requires Grown(rs, rs') && Covered(rs, i)
    ensures Covered(rs', i)
  {
    var k :| 0 <= k < |rs| && rs[k].index == i;
    assert SameEvent(rs[k], rs'[k]);
  }

  lemma NewlyCovered(rs: seq<Rec>, more: seq<Rec>, from: nat, i: nat)
    requires (forall k | 0 <= k < |more| :: more[k].index == from + 1 + k) && from < i <= from + |more|
    ensures Covered(rs + more, i)
  {
    assert (rs + more)[|rs| + (i - from - 1)].index == i;
  }

  datatype Mutation = AppendOp(ents: Log) | SnapshotOp(snap: Snapshot) | HardOp(hard: HardState)

  predicate Formed(op: Mutation) { op.AppendOp? && op.ents != [] ==> Contiguous(op.ents, op.ents[0].index) }

  // ----- a storage as a value, and what one mutation makes of it -----

  /** All that a tracked storage holds, save the hard state itself. */
  datatype Held = Held(digest: Bytes -> nat, log: Plain, commit: nat, records: seq<Rec>, generation: nat)

  /** What the check sees of a storage whose node leads term `leads` (0: none). */
  function SeenOf(s: Held, leads: nat): Observed { Observed(ViewOf(s.digest, s.log), s.generation, s.records, leads) }

  predicate Takes(s: Held, op: Mutation) {
    match op
    case AppendOp(ents) => ents == [] || ents[0].index + |ents| - 1 <= s.log.dummy || ents[0].index <= Last(s.log) + 1
    case SnapshotOp(snap) => snap.index > s.log.dummy
    case HardOp(h) => h.commit <= s.commit || h.commit <= Last(s.log)
  }

  /** A mutation that is refused leaves the storage alone, except that a hard
      state is stored before its commit is found to be missing. */
  function Stepped(s: Held, op: Mutation): Held {
    match op
    case AppendOp(ents) =>
      if !Takes(s, op) then s
      else if ents == [] || ents[0].index + |ents| - 1 <= s.log.dummy then s.(generation := s.generation + 1)
      else s.(log := Appended(s.log, ents), generation := s.generation + 1)
    case SnapshotOp(snap) =>
      if !Takes(s, op) then s
      else s.(log := Snapshotted(s.log, snap), commit := Max(s.commit, snap.index), generation := s.generation + 1,
              records := s.records + if snap.index > s.commit then SnapRecs(s.commit, snap) else [])
    case HardOp(h) =>
      var s' := s.(generation := s.generation + 1);
      if h.commit <= s.commit then s'.(records := Enriched(s.records, h.commit, h.term))
      else if Takes(s, op) then
        s'.(commit := h.commit, records := s.records + CommitRecs(s.digest, s.log, s.commit, h.commit, h.term))
      else s'
  }

  function Appended(p: Plain, ents: Log): Plain {
    var rest := Uncovered(ents, p.dummy);
    if rest != [] && p.dummy < rest[0].index <= Last(p) + 1 then Spliced(p, rest) else p
  }

  /** Any mutation, taken or refused, changes what the check sees only by raising
      the generation, and the records only by growing. */
  lemma StepMoves(s: Held, op: Mutation, l: nat, l': nat)
    requires AllProper(Recs(s.records))
    ensures Moves(SeenOf(s, l), SeenOf(Stepped(s, op), l')) && AllProper(Recs(Stepped(s, op).records))
  {
    hide AllProper, Enriched, ViewOf, Snapshotted, Appended, SnapRecs, CommitRecs;
    assert Grown(s.records, s.records);
    match op
    case AppendOp(_) =>
    case SnapshotOp(snap) =>
      if snap.index > s.commit {
        SnapRecsProper(s.commit, snap);
        AddedGrows(s.records, SnapRecs(s.commit, snap));
      } else {
        assert s.records + [] == s.records;
      }
    case HardOp(h) =>
      if h.commit <= s.commit {
        EnrichedGrows(s.records, h.commit, h.term);
      } else {
        CommitRecsProper(s.digest, s.log, s.commit, h.commit, h.term);
        AddedGrows(s.records, CommitRecs(s.digest, s.log, s.commit, h.commit, h.term));
      }
  }

  class Tracked {
    const inner: Storage
    const digest: Bytes -> nat
    var generation: nat
    var durableCommit: nat
    var records: seq<Rec>

    constructor (inner: Storage, digest: Bytes -> nat)
      requires inner.Valid()
      ensures this.inner == inner && Valid() && generation == 0 && durableCommit == 0 && records == []
    {
      this.inner, this.digest := inner, digest;
      generation, durableCommit, records := 0, 0, [];
    }

    /** Every index up to the durable commit has a record. */
    ghost predicate Valid()
      reads this, inner
    {
      inner.Valid() && AllProper(Recs(records)) && forall i | 1 <= i <= durableCommit :: Covered(records, i)
    }

    function View(): Held
      reads this, inner
    {
      Held(digest, inner.Stored(), durableCommit, records, generation)
    }

    method AppendEntries(ents: Log) returns (ok: bool)
      requires Valid() && (ents != [] ==> Contiguous(ents, ents[0].index))
      modifies this`generation, inner`entries
      ensures Valid() && generation == old(generation) + (if ok then 1 else 0)
      ensures var p := old(inner.Stored());
        && ok == (ents == [] || ents[0].index + |ents| - 1 <= p.dummy || ents[0].index <= Last(p) + 1)
        && inner.Stored() == if ok && ents != [] && ents[0].index + |ents| - 1 > p.dummy
                             then Spliced(p, Uncovered(ents, p.dummy)) else p
    {
      var r := inner.AppendEntries(ents);
      if r != Done {
        return false;
      }
      generation := generation + 1;
      return true;
    }

    method ApplySnapshot(s: Snapshot) returns (ok: bool)
      requires Valid()
      modifies this, inner`entries, inner`snapshot
      ensures Valid() && generation == old(generation) + (if ok then 1 else 0)
      ensures ok == (s.index > old(inner.snapshot.index))
      ensures inner.Stored() == if ok then Snapshotted(old(inner.Stored()), s) else old(inner.Stored())
      ensures records == old(records) + if ok && s.index > old(durableCommit) then SnapRecs(old(durableCommit), s) else []
      ensures durableCommit == if ok then Max(old(durableCommit), s.index) else old(durableCommit)
    {
      hide Snapshotted;
      var r := inner.ApplySnapshot(s);
      if r != Done {
        return false;
      }
      generation := generation + 1;
      if s.index > durableCommit {
        var more := SnapshotRecords(s);
        SnapRecsProper(durableCommit, s);
        Record(more, s.index);
      }
      return true;
    }

    method SnapshotRecords(s: Snapshot) returns (more: seq<Rec>)
      requires s.index > durableCommit
      ensures more == SnapRecs(durableCommit, s)
    {
      more := [];
      var i := durableCommit + 1;
      while i <= s.index
        invariant durableCommit + 1 <= i <= s.index + 1 && |more| == i - durableCommit - 1
        invariant more == SnapRecs(durableCommit, s)[..|more|]
      {
        var rec := if i == s.index then Rec(i, s.term, 0, 0, true, false) else Rec(i, 0, 0, 0, false, false);
        more := more + [rec];
        i := i + 1;
      }
    }

    method Record(more: seq<Rec>, commit: nat)
      requires Valid() && commit == durableCommit + |more| && AllProper(Recs(more))
      requires forall k | 0 <= k < |more| :: more[k].index == durableCommit + 1 + k
      modifies this`records, this`durableCommit
      ensures Valid() && durableCommit == commit && records == old(records) + more
    {
      hide Covered, AllProper;
      ghost var was, from := records, durableCommit;
      AddedGrows(was, more);
      records := records + more;
      durableCommit := commit;
      forall i | 1 <= i <= commit ensures Covered(records, i) {
        if i <= from { StillCovered(was, records, i); } else { NewlyCovered(was, more, from, i); }
      }
    }

    /** A hard state that moves the durable commit records what it covers, or
        fails if an entry of it is not there; any other enriches. */
    method SetHardState(h: HardState) returns (ok: bool)
      requires Valid()
      modifies this, inner`hard
      ensures Valid() && generation == old(generation) + 1 && inner.hard == h && inner.Stored() == old(inner.Stored())
      ensures ok <==> h.commit <= old(durableCommit) || h.commit <= Last(inner.Stored())
      ensures records ==
        if h.commit <= old(durableCommit) then Enriched(old(records), h.commit, h.term)
        else if ok then old(records) + CommitRecs(digest, inner.Stored(), old(durableCommit), h.commit, h.term)
        else old(records)
      ensures durableCommit == if ok then Max(old(durableCommit), h.commit) else old(durableCommit)
    {
      inner.SetHardState(h);
      generation := generation + 1;
      if h.commit <= durableCommit {
        Enrich(h.commit, h.term);
        return true;
      }
      var more;
      ok, more := AdvanceRecords(h.commit, h.term);
      if ok {
        CommitRecsProper(digest, inner.Stored(), durableCommit, h.commit, h.term);
        Record(more, h.commit);
      }
    }

    /** Fills in the commit term of snapshot-derived records, and repeats them at
        the end for a reader that has already gone past. */
    method Enrich(commit: nat, commitTerm: nat)
      requires Valid()
      modifies this`records
      ensures Valid() && records == Enriched(old(records), commit, commitTerm)
    {
      hide Covered, AllProper, Enriched, Grown;
      var enriched: seq<Rec> := [];
      var i := 0;
      ghost var was := records;
      assert was[..0] == [];
      while i < |records|
        invariant 0 <= i <= |was| == |records|
        invariant forall k | 0 <= k < i :: records[k] == Fill(was[k], commit, commitTerm)
        invariant forall k | i <= k < |was| :: records[k] == was[k]
        invariant enriched == Repeats(was[..i], commit, commitTerm)
      {
        assert was[..i + 1][..i] == was[..i];
        if records[i].index <= commit && records[i].commitTerm == 0 && commitTerm != 0 {
          records := records[i := records[i].(commitTerm := commitTerm)];
          enriched := enriched + [records[i]];
        }
        i := i + 1;
      }
      assert was[..i] == was;
      assert records == Filled(was, commit, commitTerm);
      records := records + enriched;
      EnrichedGrows(was, commit, commitTerm);
      assert records == Enriched(was, commit, commitTerm) by { EnrichedIs(was, commit, commitTerm); }
      forall k | 1 <= k <= durableCommit ensures Covered(records, k) { StillCovered(was, records, k); }
    }

    lemma EnrichedIs(rs: seq<Rec>, commit: nat, commitTerm: nat)
      ensures Enriched(rs, commit, commitTerm) == Filled(rs, commit, commitTerm) + Repeats(rs, commit, commitTerm)
    {
    }

    /** One record for each newly committed index; fails if one is unavailable. */
    method AdvanceRecords(commit: nat, commitTerm: nat) returns (ok: bool, more: seq<Rec>)
      requires Valid() && commit > durableCommit
      ensures ok <==> commit <= Last(inner.Stored())
      ensures ok ==> more == CommitRecs(digest, inner.Stored(), durableCommit, commit, commitTerm)
    {
      ghost var p := inner.Stored();
      more := [];
      var i := durableCommit + 1;
      while i <= commit
        invariant durableCommit + 1 <= i <= commit + 1 && |more| == i - durableCommit - 1
        invariant i > durableCommit + 1 ==> i - 1 <= Last(p)
        invariant more == CommitRecs(digest, p, durableCommit, i - 1, commitTerm)
      {
        var es := inner.EntriesIn(i, i + 1);
        var rec;
        if es.Ok? && |es.value| == 1 {
          rec := Rec(i, es.value[0].term, digest(es.value[0].data), commitTerm, true, true);
        } else {
          var t := inner.Term(i);
          if inner.snapshot.index < i {
            return false, [];
          }
          rec := if t.Ok? then Rec(i, t.value, 0, commitTerm, true, false) else Rec(i, 0, 0, commitTerm, false, false);
        }
        assert rec == RecAt(digest, p, i, commitTerm);
        more := more + [rec];
        i := i + 1;
      }
      return true, more;
    }

    /** Each mutation is the step of the storage as a value. */
    method Mutate(op: Mutation) returns (ok: bool)
      requires Valid() && Formed(op)
      modifies this, inner
      ensures Valid() && ok == Takes(old(View()), op) && View() == Stepped(old(View()), op)
    {
      hide Covered, AllProper, Enriched, Snapshotted, Spliced;
      match op
      case AppendOp(ents) => ok := AppendEntries(ents);
      case SnapshotOp(s) => ok := ApplySnapshot(s);
      case HardOp(h) => ok := SetHardState(h);
    }
  }

  // ----- whole sessions -----

  /** One turn of a session: one storage changes, or the cluster is checked while
      the nodes of `leads` lead these terms. */
  datatype Turn = Mutate(id: NodeId, op: Mutation) | Check(leads: map<NodeId, nat>)

  type Stores = map<NodeId, Held>

  function SeenAll(stores: Stores, leads: map<NodeId, nat>): Cluster {
    map id | id in stores :: SeenOf(stores[id], if id in leads then leads[id] else 0)
  }

  function TurnOf(stores: Stores, t: Turn): Stores {
    if t.Mutate? && t.id in stores then stores[t.id := Stepped(stores[t.id], t.op)] else stores
  }

  /** The storages after some turns. */
  function Final(stores: Stores, turns: seq<Turn>): Stores
    decreases turns
  {
    if turns == [] then stores else Final(TurnOf(stores, turns[0]), turns[1..])
  }

  /** What the checks among some turns are given to look at, one after the other. */
  function Trace(stores: Stores, turns: seq<Turn>): seq<Cluster>
    decreases turns
  {
    if turns == [] then []
    else (if turns[0].Check? then [SeenAll(stores, turns[0].leads)] else []) + Trace(TurnOf(stores, turns[0]), turns[1..])
  }

  ghost predicate AllStoresProper(stores: Stores) { forall id | id in stores :: AllProper(Recs(stores[id].records)) }

  /** Whatever the turns, each cluster a check sees has evolved from the one
      before the turns began. */
  lemma {:induction false} TraceEvolves(stores: Stores, turns: seq<Turn>, i: nat)
    requires AllStoresProper(stores) && i < |Trace(stores, turns)|
    ensures Evolves(SeenAll(stores, map[]), Trace(stores, turns)[i])
    decreases turns
  {
    hide AllProper, Stepped, ViewOf, Evolves;
    var next := TurnOf(stores, turns[0]);
    TurnEvolves(stores, turns[0]);
    if turns[0].Check? && i == 0 {
      LeadsEvolve(stores, turns[0].leads);
    } else {
      TraceEvolves(next, turns[1..], if turns[0].Check? then i - 1 else i);
      EvolvesTrans(SeenAll(stores, map[]), SeenAll(next, map[]), Trace(stores, turns)[i]);
    }
  }

  lemma SameMoves(a: Observed, l: nat)
    requires AllProper(Recs(a.records))
    ensures Moves(a, a.(leads := l))
  {
  }

  lemma TurnEvolves(stores: Stores, t: Turn)
    requires AllStoresProper(stores)
    ensures AllStoresProper(TurnOf(stores, t)) && Evolves(SeenAll(stores, map[]), SeenAll(TurnOf(stores, t), map[]))
  {
    hide AllProper, Stepped, ViewOf, Moves;
    var was, now := SeenAll(stores, map[]), SeenAll(TurnOf(stores, t), map[]);
    forall x | x in stores ensures Moves(was[x], now[x]) && AllProper(Recs(TurnOf(stores, t)[x].records)) {
      if t.Mutate? && x == t.id {
        StepMoves(stores[x], t.op, 0, 0);
      } else {
        SameMoves(was[x], 0);
        assert now[x] == was[x].(leads := 0);
      }
    }
  }

  lemma LeadsEvolve(stores: Stores, leads: map<NodeId, nat>)
    requires AllStoresProper(stores)
    ensures Evolves(SeenAll(stores, map[]), SeenAll(stores, leads))
    ensures Evolves(SeenAll(stores, leads), SeenAll(stores, map[]))
  {
    hide AllProper, ViewOf, Moves;
    var a, b := SeenAll(stores, map[]), SeenAll(stores, leads);
    forall x | x in stores ensures Moves(a[x], b[x]) && Moves(b[x], a[x]) {
      SameMoves(a[x], b[x].leads);
      SameMoves(b[x], 0);
      assert b[x] == a[x].(leads := b[x].leads) && a[x] == b[x].(leads := 0);
    }
  }

  function Views(nodes: map<NodeId, Tracked>): Stores
    reads nodes.Values, set id | id in nodes :: nodes[id].inner
  {
    map id | id in nodes :: nodes[id].View()
  }

  /** No two nodes share a storage. */
  ghost predicate Apart(nodes: map<NodeId, Tracked>) {
    forall a, b | a in nodes && b in nodes && a != b :: nodes[a] != nodes[b] && nodes[a].inner != nodes[b].inner
  }

  ghost predicate AllValid(nodes: map<NodeId, Tracked>)
    reads nodes.Values, set id | id in nodes :: nodes[id].inner
  {
    forall id | id in nodes :: nodes[id].Valid()
  }

  lemma ViewsProper(nodes: map<NodeId, Tracked>)
    requires AllValid(nodes)
    ensures AllStoresProper(Views(nodes))
  {
    hide Covered;
    forall id | id in nodes ensures AllProper(Recs(Views(nodes)[id].records)) { assert nodes[id].Valid(); }
  }

  method MutateOne(nodes: map<NodeId, Tracked>, id: NodeId, op: Mutation)
    requires AllValid(nodes) && Apart(nodes) && id in nodes && Formed(op)
    modifies nodes[id], nodes[id].inner
    ensures AllValid(nodes) && Views(nodes) == old(Views(nodes))[id := Stepped(old(nodes[id].View()), op)]
  {
    hide Covered, AllProper, Stepped;
    ghost var was := Views(nodes);
    var ok := nodes[id].Mutate(op);
    assert forall x | x in nodes && x != id :: nodes[x] != nodes[id] && nodes[x].inner != nodes[id].inner;
    assert forall x | x in nodes && x != id :: nodes[x].Valid() && Views(nodes)[x] == was[x];
  }

  method CheckNow(c: Checker, nodes: map<NodeId, Tracked>, leads: map<NodeId, nat>) returns (now: Cluster, v: Verdict)
    requires c.Valid() && AllValid(nodes) && Evolves(c.last, SeenAll(Views(nodes), map[]))
    modifies c
    ensures c.Valid() && AllValid(nodes) && Evolves(c.last, SeenAll(Views(nodes), map[]))
    ensures now == SeenAll(Views(nodes), leads) && IsVerdict(c.peers, now, v)
  {
    hide Covered, ViewOf, Evolves, IsVerdict;
    now := SeenAll(Views(nodes), leads);
    ViewsProper(nodes);
    LeadsEvolve(Views(nodes), leads);
    EvolvesTrans(c.last, SeenAll(Views(nodes), map[]), now);
    v := c.Check(now);
  }

  lemma TraceStep(stores: Stores, turns: seq<Turn>, i: nat)
    requires i < |turns|
    ensures Trace(stores, turns[i..]) ==
      (if turns[i].Check? then [SeenAll(stores, turns[i].leads)] else []) + Trace(TurnOf(stores, turns[i]), turns[i + 1..])
    ensures Final(stores, turns[i..]) == Final(TurnOf(stores, turns[i]), turns[i + 1..])
  {
    hide TurnOf;
    assert turns[i..][1..] == turns[i + 1..];
  }

  lemma TraceDone(stores: Stores)
    ensures Trace(stores, []) == [] && Final(stores, []) == stores
  {
  }

  method OneTurn(c: Checker, nodes: map<NodeId, Tracked>, t: Turn) returns (now: seq<Cluster>, v: seq<Verdict>)
    requires c.Valid() && AllValid(nodes) && Apart(nodes) && Evolves(c.last, SeenAll(Views(nodes), map[]))
    requires t.Mutate? ==> Formed(t.op)
    modifies c, nodes.Values, set id | id in nodes :: nodes[id].inner
    ensures c.Valid() && AllValid(nodes) && Evolves(c.last, SeenAll(Views(nodes), map[]))
    ensures Views(nodes) == TurnOf(old(Views(nodes)), t)
    ensures now == if t.Check? then [SeenAll(old(Views(nodes)), t.leads)] else []
    ensures |v| == |now| && forall i | 0 <= i < |v| :: IsVerdict(c.peers, now[i], v[i])
  {
    hide Covered, ViewOf, Evolves, IsVerdict, Apart, AllValid, Stepped, SeenAll;
    now, v := [], [];
    ghost var was := Views(nodes);
    ViewsProper(nodes);
    TurnEvolves(was, t);
    match t
    case Mutate(id, op) =>
      if id in nodes {
        MutateOne(nodes, id, op);
        EvolvesTrans(c.last, SeenAll(was, map[]), SeenAll(Views(nodes), map[]));
      }
    case Check(leads) =>
      var seen, verdict := CheckNow(c, nodes, leads);
      now, v := [seen], [verdict];
  }

  /** Any sequence of mutations, enrichments and checks, from a fresh checker or
      from one that has followed the storages so far. Every mutation takes effect,
      every check sees the cluster as the turns before it have left it, and gives the
      verdict of a full rescan of that. */
  method Session(c: Checker, nodes: map<NodeId, Tracked>, turns: seq<Turn>)
    returns (seen: seq<Cluster>, verdicts: seq<Verdict>)
    requires c.Valid() && AllValid(nodes) && Apart(nodes) && Evolves(c.last, SeenAll(Views(nodes), map[]))
    requires forall t | t in turns :: t.Mutate? ==> Formed(t.op)
    modifies c, nodes.Values, set id | id in nodes :: nodes[id].inner
    ensures c.Valid() && AllValid(nodes) && Evolves(c.last, SeenAll(Views(nodes), map[]))
    ensures Views(nodes) == Final(old(Views(nodes)), turns) && seen == Trace(old(Views(nodes)), turns)
    ensures |verdicts| == |seen| && forall i | 0 <= i < |verdicts| :: IsVerdict(c.peers, seen[i], verdicts[i])
  {
    hide Covered, ViewOf, Evolves, IsVerdict, Apart, AllValid, Views, SeenAll, Trace, Final, TurnOf;
    seen, verdicts := [], [];
    var i := 0;
    assert turns[0..] == turns;
    ghost var start := Views(nodes);
    assert seen + Trace(start, turns) == Trace(start, turns);
    while i < |turns|
      invariant 0 <= i <= |turns| && c.Valid() && AllValid(nodes) && Evolves(c.last, SeenAll(Views(nodes), map[]))
      invariant seen + Trace(Views(nodes), turns[i..]) == Trace(start, turns)
      invariant Final(Views(nodes), turns[i..]) == Final(start, turns)
      invariant |verdicts| == |seen| && forall j | 0 <= j < |verdicts| :: IsVerdict(c.peers, seen[j], verdicts[j])
    {
      TraceStep(Views(nodes), turns, i);
      ghost var rest := Trace(TurnOf(Views(nodes), turns[i]), turns[i + 1..]);
      var now, v := OneTurn(c, nodes, turns[i]);
      assert seen + (now + rest) == (seen + now) + rest;
      seen, verdicts := seen + now, verdicts + v;
      i := i + 1;
    }
    assert turns[i..] == [];
    TraceDone(Views(nodes));
  }
}
