/** What reopening the write-ahead log rebuilds: the newest snapshot, with every
    record of the log replayed on top of it. */
module WalReplay {
  import opened RaftTypes
  import opened PlainLog
  import opened WalFraming

  // ----- replaying records above snapshot index `s` -----

  /** An entry lands at its index and cuts whatever follows; entries the
      snapshot covers are skipped, along with the cut they imply. */
  function ApplyEntry(s: nat, es: Log, e: Entry): Option<Log> {
    if e.index <= s then Some(es)
    else
      var pos := e.index - (s + 1);
      if pos > |es| then None else Some(es[..pos] + [e])
  }

  function CutAbove(s: nat, es: Log, index: nat): Log {
    if index <= s then [] else if index - s < |es| then es[..index - s] else es
  }

  function ApplyRec(s: nat, es: Log, r: Record): Option<Log> {
    match r
    case EntryRec(e) => ApplyEntry(s, es, e)
    case HardRec(_) => Some(es)
    case TruncRec(index, _) => Some(CutAbove(s, es, index))
  }

  function Fold(s: nat, start: Log, rs: seq<Record>): Option<Log>
    decreases |rs|
  {
    if rs == [] then Some(start)
    else
      match Fold(s, start, rs[..|rs| - 1])
      case None => None
      case Some(es) => ApplyRec(s, es, rs[|rs| - 1])
  }

  function Replay(s: nat, rs: seq<Record>): Option<Log> { Fold(s, [], rs) }

  function LastHard(rs: seq<Record>): HardState
    decreases |rs|
  {
    if rs == [] then HardState(0, NONE, 0)
    else if rs[|rs| - 1].HardRec? then rs[|rs| - 1].h
    else LastHard(rs[..|rs| - 1])
  }

  lemma {:induction false} FoldSplit(s: nat, start: Log, a: seq<Record>, b: seq<Record>)
    requires Fold(s, start, a).Some?
    ensures Fold(s, start, a + b) == Fold(s, Fold(s, start, a).value, b)
    decreases |b|
  {
    if b == [] {
      assert a + b == a;
    } else {
      assert (a + b)[..|a + b| - 1] == a + b[..|b| - 1];
      FoldSplit(s, start, a, b[..|b| - 1]);
    }
  }

  lemma FoldSnoc(s: nat, start: Log, init: seq<Record>, r: Record)
    requires Fold(s, start, init).Some?
    ensures Fold(s, start, init + [r]) == ApplyRec(s, Fold(s, start, init).value, r)
  {
    assert (init + [r])[..|init|] == init;
  }

  lemma {:induction false} FoldPrefix(s: nat, start: Log, rs: seq<Record>, k: nat)
    requires Fold(s, start, rs).Some? && k <= |rs|
    ensures Fold(s, start, rs[..k]).Some?
    decreases |rs|
  {
    if k < |rs| {
      assert rs[..|rs| - 1][..k] == rs[..k];
      FoldPrefix(s, start, rs[..|rs| - 1], k);
    } else {
      assert rs[..k] == rs;
    }
  }

  // ----- one log under two snapshots -----

  /** Replaying above a later snapshot agrees with replaying above an earlier
      one wherever the latter reaches, and never meets a gap the latter did not. */
  lemma {:induction false} ReplaySuffix(b: nat, s: nat, rs: seq<Record>)
    requires b <= s && Replay(b, rs).Some?
    ensures Replay(s, rs).Some?
    ensures b + |Replay(b, rs).value| > s ==> Replay(s, rs).value == Replay(b, rs).value[s - b..]
    decreases |rs|
  {
    if rs != [] {
      var init, r := rs[..|rs| - 1], rs[|rs| - 1];
      ReplaySuffix(b, s, init);
      SuffixStep(b, s, Replay(b, init).value, Replay(s, init).value, r);
    }
  }

  lemma SuffixStep(b: nat, s: nat, eb: Log, es: Log, r: Record)
    requires b <= s && ApplyRec(b, eb, r).Some? && (b + |eb| > s ==> es == eb[s - b..])
    ensures ApplyRec(s, es, r).Some?
    ensures b + |ApplyRec(b, eb, r).value| > s ==> ApplyRec(s, es, r).value == ApplyRec(b, eb, r).value[s - b..]
  {
    match r
    case EntryRec(e) =>
      if e.index > s {
        var pos := e.index - (b + 1);
        assert (eb[..pos] + [e])[s - b..] == eb[s - b..pos] + [e];
      }
    case HardRec(_) =>
    case TruncRec(index, _) =>
  }

  // ----- what may come back -----

  /** No entry record above `s` is left standing: every one is followed by a
      truncation marker. */
  predicate NoStale(s: nat, rs: seq<Record>) {
    forall i | 0 <= i < |rs| && rs[i].EntryRec? && rs[i].e.index > s :: exists j :: i < j < |rs| && rs[j].TruncRec?
  }

  predicate MarkersBelow(s: nat, rs: seq<Record>) {
    forall i | 0 <= i < |rs| && rs[i].TruncRec? :: rs[i].index <= s
  }

  lemma NoStaleStep(s: nat, init: seq<Record>, r: Record)
    ensures NoStale(s, init + [r]) <==> r.TruncRec? || (NoStale(s, init) && !(r.EntryRec? && r.e.index > s))
  {
    var rs := init + [r];
    assert rs[|init|] == r;
    if r.TruncRec? {
    } else if r.EntryRec? && r.e.index > s {
    } else if NoStale(s, init) {
      forall i | 0 <= i < |rs| && rs[i].EntryRec? && rs[i].e.index > s ensures exists j :: i < j < |rs| && rs[j].TruncRec? {
        assert init[i] == rs[i];
        var j :| i < j < |init| && init[j].TruncRec?;
        assert rs[j].TruncRec?;
      }
    } else {
      var i :| 0 <= i < |init| && init[i].EntryRec? && init[i].e.index > s && !(exists j :: i < j < |init| && init[j].TruncRec?);
      assert rs[i] == init[i];
      forall j | i < j < |rs| ensures !rs[j].TruncRec? {
        if j < |init| { assert rs[j] == init[j]; }
      }
    }
  }

  /** A replay ends empty exactly when no stale record is left. */
  lemma {:induction false} EmptyReplay(s: nat, rs: seq<Record>)
    requires Replay(s, rs).Some? && MarkersBelow(s, rs)
    ensures Replay(s, rs).value == [] <==> NoStale(s, rs)
    decreases |rs|
  {
    if rs != [] {
      var init, r := rs[..|rs| - 1], rs[|rs| - 1];
      assert rs == init + [r];
      assert MarkersBelow(s, init);
      EmptyReplay(s, init);
      NoStaleStep(s, init, r);
    }
  }

  // ----- reopening -----

  /** A snapshot file: its flag says the log must be cut at its boundary. */
  datatype StoredSnap = StoredSnap(snap: Snapshot, trunc: bool)

  datatype Mirror = Mirror(hard: HardState, snap: Snapshot, entries: Log)

  function Marker(s: Snapshot): Record { TruncRec(s.index, s.term) }

  /** The cut a flagged snapshot calls for is not in the log yet. */
  predicate CutMissing(st: StoredSnap, rs: seq<Record>) { st.trunc && Marker(st.snap) !in rs }

  /** The mirror rebuilt from a snapshot file and the log's records. */
  function Recovered(st: StoredSnap, rs: seq<Record>): Mirror
    requires Replay(st.snap.index, rs).Some?
  {
    Mirror(LastHard(rs), st.snap, if CutMissing(st, rs) then [] else Replay(st.snap.index, rs).value)
  }
}
