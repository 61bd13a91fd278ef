/** What each mutation of a tracked storage records for the leader check. */
module CommitRecords {
  import opened RaftTypes
  import opened PlainLog
  import opened LeaderCheck
  import opened StoredLogs
  import T = TrackedStorage

  /** All that is still known of a committed index: its entry above the boundary,
      the term at it, and nothing but the index below. */
  ghost predicate Tells(s: T.Held, r: Rec, i: nat, commitTerm: nat) {
    && r.index == i && r.commitTerm == commitTerm
    && r.termKnown == (i >= s.log.dummy) && r.dataKnown == (i > s.log.dummy)
    && (i == s.log.dummy ==> r.term == s.log.dummyTerm)
    && forall e :: HasAt(s.log, i, e) ==> r.term == e.term && r.digest == s.digest(e.data)
  }

  /** A hard state that moves the durable commit index adds one record for each
      index it moves past, in order, and fails exactly if the log ends before it. */
  lemma CommitRecorded(s: T.Held, h: HardState)
    requires h.commit > s.commit
    ensures var r := T.Stepped(s, T.HardOp(h));
      if h.commit > Last(s.log) then r == s.(generation := s.generation + 1)
      else
        && r == T.Held(s.digest, s.log, h.commit, r.records, s.generation + 1)
        && |r.records| == |s.records| + h.commit - s.commit && s.records <= r.records
        && forall j | |s.records| <= j < |r.records| :: Tells(s, r.records[j], s.commit + 1 + j - |s.records|, h.term)
  {
    var r := T.Stepped(s, T.HardOp(h));
    if h.commit <= Last(s.log) {
      forall j | |s.records| <= j < |r.records| ensures Tells(s, r.records[j], s.commit + 1 + j - |s.records|, h.term) {
        assert r.records[j] == T.RecAt(s.digest, s.log, s.commit + 1 + j - |s.records|, h.term);
      }
    }
  }

  /** A newer snapshot commits every index up to its own. Each gets a record, with
      a term at the snapshot's index only, and no commit term yet. */
  lemma SnapshotRecorded(s: T.Held, snap: Snapshot)
    ensures var r := T.Stepped(s, T.SnapshotOp(snap));
      if snap.index <= s.log.dummy then r == s
      else
        && r.log == Snapshotted(s.log, snap) && r.generation == s.generation + 1
        && r.commit == Max(s.commit, snap.index) && |r.records| == |s.records| + r.commit - s.commit && s.records <= r.records
        && forall j | |s.records| <= j < |r.records| :: var i := s.commit + 1 + j - |s.records|;
             r.records[j] == Rec(i, if i == snap.index then snap.term else 0, 0, 0, i == snap.index, false)
  {
  }

  // ----- enrichment -----

  predicate Lacking(r: Rec, commit: nat) { r.index <= commit && r.commitTerm == 0 }

  /** Exactly the places of the records that lack their commit term, in order. */
  predicate PlacesOf(rs: seq<Rec>, commit: nat, at: seq<nat>) {
    && (forall k | 0 <= k < |at| :: at[k] < |rs| && Lacking(rs[at[k]], commit))
    && (forall j, k | 0 <= j < k < |at| :: at[j] < at[k])
    && forall i | 0 <= i < |rs| && Lacking(rs[i], commit) :: i in at
  }

  lemma {:induction false} RepeatedPlaces(rs: seq<Rec>, commit: nat, commitTerm: nat) returns (at: seq<nat>)
    requires commitTerm != 0
    ensures PlacesOf(rs, commit, at) && |T.Repeats(rs, commit, commitTerm)| == |at|
    ensures forall k | 0 <= k < |at| :: T.Repeats(rs, commit, commitTerm)[k] == rs[at[k]].(commitTerm := commitTerm)
    decreases |rs|
  {
    hide PlacesOf;
    if rs == [] {
      at := [];
      NoPlaces(commit);
    } else {
      var init := rs[..|rs| - 1];
      var some := RepeatedPlaces(init, commit, commitTerm);
      MorePlaces(rs, commit, some);
      at := if Lacking(rs[|rs| - 1], commit) then some + [|rs| - 1] else some;
    }
  }

  lemma NoPlaces(commit: nat)
    ensures PlacesOf([], commit, [])
  {
  }

  lemma MorePlaces(rs: seq<Rec>, commit: nat, some: seq<nat>)
    requires rs != [] && PlacesOf(rs[..|rs| - 1], commit, some)
    ensures PlacesOf(rs, commit, if Lacking(rs[|rs| - 1], commit) then some + [|rs| - 1] else some)
    ensures forall k | 0 <= k < |some| :: some[k] < |rs| - 1
  {
    var init, n := rs[..|rs| - 1], |rs| - 1;
    var at := if Lacking(rs[n], commit) then some + [n] else some;
    forall k | 0 <= k < |at| ensures at[k] < |rs| && Lacking(rs[at[k]], commit) {
      if k < |some| { assert init[some[k]] == rs[some[k]]; }
    }
    forall i | 0 <= i < |rs| && Lacking(rs[i], commit) ensures i in at {
      if i < n {
        assert Lacking(init[i], commit) && i in some;
      } else {
        assert at[|at| - 1] == i;
      }
    }
  }

  /** A hard state that moves nothing gives its term, if it has one, to every record
      up to its commit index that lacks it, and repeats those, in order, at the end. */
  lemma EnrichmentRecorded(s: T.Held, h: HardState) returns (at: seq<nat>)
    requires h.commit <= s.commit
    ensures var r := T.Stepped(s, T.HardOp(h)); r == s.(generation := s.generation + 1, records := r.records)
    ensures var rs := T.Stepped(s, T.HardOp(h)).records;
      if h.term == 0 then rs == s.records
      else
        && PlacesOf(s.records, h.commit, at) && |rs| == |s.records| + |at|
        && (forall i | 0 <= i < |s.records| ::
              rs[i] == if Lacking(s.records[i], h.commit) then s.records[i].(commitTerm := h.term) else s.records[i])
        && forall k | 0 <= k < |at| :: rs[|s.records| + k] == s.records[at[k]].(commitTerm := h.term)
  {
    at := [];
    if h.term == 0 {
      NoRepeats(s.records, h.commit);
      assert T.Filled(s.records, h.commit, 0) == s.records;
    } else {
      at := RepeatedPlaces(s.records, h.commit, h.term);
    }
  }

  lemma {:induction false} NoRepeats(rs: seq<Rec>, commit: nat)
    ensures T.Repeats(rs, commit, 0) == []
    decreases |rs|
  {
    if rs != [] { NoRepeats(rs[..|rs| - 1], commit); }
  }

  /** The check is shown, at each index above the boundary, the term and the digest
      of the entry stored there, and nothing at any other. */
  lemma ShownToCheck(s: T.Held, leads: nat)
    ensures var v := T.SeenOf(s, leads).view;
      && v.snapIndex == s.log.dummy && v.snapTerm == s.log.dummyTerm
      && (forall i :: i in v.marks <==> s.log.dummy < i <= Last(s.log))
      && forall i, e :: HasAt(s.log, i, e) ==> v.marks[i] == (e.term, s.digest(e.data))
  {
  }
}
