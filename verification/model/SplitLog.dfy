/** The core's log: a durable prefix in storage, an unstable tail, and possibly
    a received snapshot waiting to be persisted. Together they are one plain log. */
module SplitLog {
  import opened RaftTypes
  import opened PlainLog
  import opened MemStorage

  /** A range of a log kept in two pieces, the first being `a[..k]`. */
  lemma JoinSlice(a: Log, k: nat, u: Log, i: nat, j: nat)
    requires k <= |a| && i <= j <= k + |u|
    ensures j <= k ==> (a[..k] + u)[i..j] == a[i..j]
    ensures i >= k ==> (a[..k] + u)[i..j] == u[i - k..j - k]
    ensures i < k < j ==> (a[..k] + u)[i..j] == a[i..k] + u[..j - k]
  {
  }

  /** Splicing at position `p` of a log kept in two pieces, in each of the
      three ways the unstable tail does it. */
  lemma SpliceTail(a: Log, k: nat, u: Log, p: nat, ents: Log)
    requires k <= |a| && p <= k + |u|
    ensures p == k + |u| ==> a[..k] + (u + ents) == (a[..k] + u)[..p] + ents
    ensures p <= k ==> a[..p] + ents == (a[..k] + u)[..p] + ents
    ensures p > k ==> a[..k] + (u[..p - k] + ents) == (a[..k] + u)[..p] + ents
  {
  }

  // ----- the pieces as values: what is stored, a pending snapshot, and the
  // unstable entries from `off` on -----

  /** The unstable part sits on what is below it. */
  predicate Sits(stored: Plain, snap: Option<Snapshot>, u: Log, off: nat) {
    && Contiguous(u, off)
    && match snap
       case None => stored.dummy < off <= Last(stored) + 1
       case Some(s) => off == s.index + 1
  }

  /** The one log the pieces add up to. */
  function Shown(stored: Plain, snap: Option<Snapshot>, u: Log, off: nat): Plain
    requires Sits(stored, snap, u, off)
  {
    match snap
    case None => Plain(stored.dummy, stored.dummyTerm, stored.entries[..off - 1 - stored.dummy] + u)
    case Some(s) => Plain(s.index, s.term, u)
  }

  lemma ShownEnds(stored: Plain, snap: Option<Snapshot>, u: Log, off: nat)
    requires Sits(stored, snap, u, off)
    ensures var p := Shown(stored, snap, u, off);
      && Last(p) + 1 == off + |u| && p.dummy == (if snap.Some? then snap.value.index else stored.dummy)
  {
  }

  /** The unstable part after a splice: extended, replaced or cut. */
  predicate IsSplice(u: Log, off: nat, ents: Log, u': Log, off': nat)
    requires ents != []
  {
    var first := ents[0].index;
    if first == off + |u| then u' == u + ents && off' == off
    else if first <= off then u' == ents && off' == first
    else first < off + |u| && u' == u[..first - off] + ents && off' == off
  }

  /** Splicing the unstable part splices the log. */
  lemma SplicedShown(stored: Plain, snap: Option<Snapshot>, u: Log, off: nat, ents: Log, u': Log, off': nat)
    requires Sits(stored, snap, u, off) && ents != [] && Contiguous(ents, ents[0].index)
    requires var p := Shown(stored, snap, u, off); p.dummy < ents[0].index <= Last(p) + 1
    requires IsSplice(u, off, ents, u', off')
    ensures Sits(stored, snap, u', off') && u' != []
    ensures Shown(stored, snap, u', off') == Spliced(Shown(stored, snap, u, off), ents)
  {
    hide Contiguous;
    var first := ents[0].index;
    if first >= off { TailContiguous(u, off, ents); }
    if first == off + |u| { assert u[..first - off] == u; }
    if snap.None? {
      SpliceTail(stored.entries, off - 1 - stored.dummy, u, first - 1 - stored.dummy, ents);
    }
  }

  lemma StoredRange(stored: Plain, lo: nat, hi: nat)
    requires stored.dummy < lo < hi <= Last(stored) + 1
    ensures SliceOf(stored, lo, hi) == Ok(stored.entries[lo - 1 - stored.dummy..hi - 1 - stored.dummy])
  {
  }

  /** What a range takes from the storage and from the unstable entries. */
  predicate Pieces(stored: Plain, u: Log, off: nat, lo: nat, top: nat, whole: Log) {
    && lo < top <= off + |u|
    && (lo < off ==> stored.dummy < lo && Min(top, off) <= Last(stored) + 1)
    && (lo < off ==> SliceOf(stored, lo, Min(top, off)).Ok?)
    && whole == (if lo < off then SliceOf(stored, lo, Min(top, off)).value else [])
                + (if top > off then u[Max(lo, off) - off..top - off] else [])
  }

  lemma LowPieces(stored: Plain, u: Log, off: nat, lo: nat, top: nat, whole: Log)
    requires stored.dummy < lo < top <= off <= Last(stored) + 1 && SliceOf(stored, lo, top) == Ok(whole)
    ensures Pieces(stored, u, off, lo, top, whole)
  {
    hide SliceOf;
    assert whole + [] == whole;
  }

  lemma HighPieces(stored: Plain, u: Log, off: nat, lo: nat, top: nat)
    requires off <= lo < top <= off + |u|
    ensures Pieces(stored, u, off, lo, top, u[lo - off..top - off])
  {
    hide SliceOf;
    assert [] + u[lo - off..top - off] == u[lo - off..top - off];
  }

  lemma AcrossPieces(stored: Plain, u: Log, off: nat, lo: nat, top: nat, low: Log)
    requires stored.dummy < lo < off < top <= off + |u| && off <= Last(stored) + 1 && SliceOf(stored, lo, off) == Ok(low)
    ensures Pieces(stored, u, off, lo, top, low + u[..top - off])
  {
    hide SliceOf;
  }

  lemma StoredPieces(stored: Plain, u: Log, off: nat, lo: nat, top: nat)
    requires stored.dummy < off <= Last(stored) + 1
    requires stored.dummy < lo < top <= off + |u|
    ensures var d := stored.dummy + 1; Pieces(stored, u, off, lo, top, (stored.entries[..off - d] + u)[lo - d..top - d])
  {
    hide SliceOf, Pieces;
    var d := stored.dummy + 1;
    JoinSlice(stored.entries, off - d, u, lo - d, top - d);
    if top <= off {
      StoredRange(stored, lo, top);
      LowPieces(stored, u, off, lo, top, stored.entries[lo - d..top - d]);
    } else if lo >= off {
      HighPieces(stored, u, off, lo, top);
    } else {
      StoredRange(stored, lo, off);
      AcrossPieces(stored, u, off, lo, top, stored.entries[lo - d..off - d]);
    }
  }

  /** A visible range is a range of the storage followed by an unstable one. */
  lemma SlicePieces(stored: Plain, snap: Option<Snapshot>, u: Log, off: nat, lo: nat, top: nat)
    requires Sits(stored, snap, u, off)
    requires var p := Shown(stored, snap, u, off); p.dummy < lo < top <= Last(p) + 1
    ensures var p := Shown(stored, snap, u, off);
      Pieces(stored, u, off, lo, top, p.entries[lo - 1 - p.dummy..top - 1 - p.dummy])
  {
    if snap.None? {
      hide Contiguous, SliceOf, Pieces;
      StoredPieces(stored, u, off, lo, top);
    } else {
      hide Contiguous, SliceOf;
    }
  }

  class RaftLog {
    const storage: Storage
    // The unstable part: entries[i] has index offset + i.
    var snapshot: Option<Snapshot>
    var entries: Log
    var offset: nat
    var committed: nat
    var applied: nat
    var panicked: bool

    predicate Fits()
      reads this, storage
    {
      Sits(storage.Stored(), snapshot, entries, offset)
    }

    /** Between two batches: with nothing unstable, storage ends the log. */
    predicate Valid()
      reads this, storage
    {
      storage.Valid() && Fits() && (snapshot.None? && entries == [] ==> offset == storage.LastIndex() + 1)
    }

    /** A pending snapshot is one the storage will drop everything for. */
    predicate Persistable()
      reads this, storage
    {
      snapshot.Some? ==> snapshot.value.index > storage.snapshot.index && !KeepsSuffix(storage.Stored(), snapshot.value)
    }

    function Visible(): Plain
      requires Fits()
      reads this, storage
    {
      Shown(storage.Stored(), snapshot, entries, offset)
    }

    function State(): LogState
      requires Fits()
      reads this, storage
    {
      LogState(Visible(), committed, applied, panicked)
    }

    constructor (storage: Storage)
      requires storage.Valid()
      ensures this.storage == storage && Valid() && snapshot == None && entries == []
      ensures State() == LogState(storage.Stored(), storage.snapshot.index, storage.snapshot.index, false)
    {
      this.storage := storage;
      snapshot := None;
      entries := [];
      offset := storage.LastIndex() + 1;
      committed := storage.FirstIndex() - 1;
      applied := storage.FirstIndex() - 1;
      panicked := false;
      new;
      assert storage.entries[..offset - 1 - storage.snapshot.index] == storage.entries;
    }

    // ----- reads -----

    function FirstIndex(): (r: nat)
      requires Valid()
      reads this, storage
      ensures r == Visible().dummy + 1
    {
      match snapshot
      case Some(s) => s.index + 1
      case None => storage.FirstIndex()
    }

    function UnstableLast(): Option<nat>
      reads this
    {
      if |entries| != 0 then Some(offset + |entries| - 1)
      else match snapshot case Some(s) => Some(s.index) case None => None
    }

    function LastIndex(): (r: nat)
      requires Valid()
      reads this, storage
      ensures r == Last(Visible())
    {
      match UnstableLast()
      case Some(i) => i
      case None => storage.LastIndex()
    }

    function UnstableTerm(i: nat): Option<nat>
      reads this
    {
      if i < offset then
        match snapshot
        case Some(s) => if s.index == i then Some(s.term) else None
        case None => None
      else
        match UnstableLast()
        case None => None
        case Some(last) =>
          if i > last then None
          else if snapshot.Some? && i == snapshot.value.index then Some(snapshot.value.term)
          else if i - offset < |entries| then Some(entries[i - offset].term)
          else None
    }

    function Term(i: nat): (r: Result<nat>)
      requires Valid()
      reads this, storage
      ensures r == Ok(TermOf(Visible(), i))
    {
      if i < FirstIndex() - 1 || i > LastIndex() then Ok(0)
      else match UnstableTerm(i)
        case Some(t) => Ok(t)
        case None => storage.Term(i)
    }

    predicate MatchTerm(i: nat, t: nat)
      requires Valid()
      reads this, storage
      ensures MatchTerm(i, t) <==> TermOf(Visible(), i) == t
    {
      Term(i) == Ok(t)
    }

    predicate IsUpToDate(lastIndex: nat, lastTerm: nat)
      requires Valid()
      reads this, storage
      ensures var p := Visible(); var mine := TermOf(p, Last(p));
        IsUpToDate(lastIndex, lastTerm) <==> lastTerm > mine || (lastTerm == mine && lastIndex >= Last(p))
    {
      var t := Term(LastIndex()).value;
      lastTerm > t || (lastTerm == t && lastIndex >= LastIndex())
    }

    /** Entries in [lo, hi): a stored part followed by an unstable part. */
    function Slice(lo: nat, hi: nat): (r: Result<Log>)
      requires Valid()
      reads this, storage
      ensures r == SliceOf(Visible(), lo, hi)
    {
      hide Sits, Shown, Contiguous;
      if lo >= hi then Ok([])
      else if lo < FirstIndex() then Compacted
      else
        var top := Min(hi, LastIndex() + 1);
        if lo >= top then Ok([]) else
        SlicePieces(storage.Stored(), snapshot, entries, offset, lo, top);
        ShownEnds(storage.Stored(), snapshot, entries, offset);
        var below := if lo < offset then storage.EntriesIn(lo, Min(top, offset)) else Ok([]);
        var above := if top > offset then entries[Max(lo, offset) - offset..top - offset] else [];
        Ok(below.value + above)
    }

    function NextCommitted(): (r: Log)
      requires Valid()
      reads this, storage
      ensures r == Pending(State())
    {
      hide Sits, Shown, Contiguous, SliceOf, Pending;
      SlicePending(State());
      var lo := Max(applied + 1, FirstIndex());
      if lo >= committed + 1 then []
      else Slice(lo, committed + 1).value
    }

    // ----- updates -----

    /** The index of the first incoming entry that is missing or conflicts. */
    method FindConflict(ents: Log) returns (c: nat)
      requires Valid()
      ensures c == Conflict(Visible(), ents)
    {
      var i := 0;
      while i < |ents|
        invariant 0 <= i <= |ents|
        invariant Conflict(Visible(), ents) == Conflict(Visible(), ents[i..])
      {
        if !MatchTerm(ents[i].index, ents[i].term) {
          return ents[i].index;
        }
        assert ents[i..][1..] == ents[i + 1..];
        i := i + 1;
      }
      return 0;
    }

    /** Splices contiguous entries onto the unstable tail. */
    method TruncateAppend(ents: Log)
      requires Valid() && ents != [] && Contiguous(ents, ents[0].index)
      requires Visible().dummy < ents[0].index <= Last(Visible()) + 1
      modifies this`entries, this`offset
      ensures Valid() && Visible() == Spliced(old(Visible()), ents)
    {
      hide Contiguous, KeepsSuffix, Sits, Shown;
      ghost var stored, u, off := storage.Stored(), entries, offset;
      ShownEnds(stored, snapshot, u, off);
      var first := ents[0].index;
      if first == offset + |entries| {
        entries := entries + ents;
      } else if first <= offset {
        offset := first;
        entries := ents;
      } else {
        entries := entries[..first - offset] + ents;
      }
      SplicedShown(stored, snapshot, u, off, ents, entries, offset);
    }

    /** `append`; incoming entries that would leave a gap break the core. */
    method Append(ents: Log) returns (last: nat)
      requires Valid() && (ents != [] ==> Contiguous(ents, ents[0].index) && ents[0].index > Visible().dummy)
      modifies this`entries, this`offset, this`panicked
      ensures Valid() && State() == Joined(old(State()), ents) && last == Last(Visible())
    {
      if ents != [] {
        if ents[0].index > LastIndex() + 1 {
          panicked := true;
        } else {
          TruncateAppend(ents);
        }
      }
      last := LastIndex();
    }

    method CommitTo(i: nat)
      requires Valid()
      modifies this`committed, this`panicked
      ensures Valid() && State() == Committed(old(State()), i)
    {
      if committed < i {
        if i > LastIndex() {
          panicked := true;
        } else {
          committed := i;
        }
      }
    }

    method AppliedTo(i: nat)
      requires Valid()
      modifies this`applied, this`panicked
      ensures Valid() && State() == Applied(old(State()), i)
    {
      if i != 0 {
        if committed < i || i < applied {
          panicked := true;
        } else {
          applied := i;
        }
      }
    }

    method MaybeAppend(index: nat, logTerm: nat, commit: nat, ents: Log) returns (last: nat, ok: bool)
      requires Valid() && Contiguous(ents, index + 1) && Visible().dummy <= committed
      modifies this`entries, this`offset, this`committed, this`panicked
      ensures Valid() && State() == MaybeAppended(old(State()), index, logTerm, commit, ents)
      ensures ok == (TermOf(old(Visible()), index) == logTerm)
      ensures last == if ok then index + |ents| else 0
    {
      hide Committed, JoinedFrom;
      if !MatchTerm(index, logTerm) {
        return 0, false;
      }
      last := index + |ents|;
      ok := true;
      JoinFrom(index, ents);
      CommitTo(Min(commit, last));
    }

    method JoinFrom(index: nat, ents: Log)
      requires Valid() && Contiguous(ents, index + 1) && Visible().dummy <= committed
      modifies this`entries, this`offset, this`panicked
      ensures Valid() && State() == JoinedFrom(old(State()), index, ents)
    {
      hide Conflict, Joined;
      var conflict := FindConflict(ents);
      if conflict != 0 {
        if conflict <= committed || !(index < conflict <= index + |ents|) {
          panicked := true;
        } else {
          var rest := ents[conflict - index - 1..];
          assert rest[0].index == conflict;
          var end := Append(rest);
        }
      }
    }

    /** Sits the log on a received snapshot. */
    method Restore(s: Snapshot)
      requires Valid()
      modifies this
      ensures Valid() && State() == Restored(old(State()), s) && snapshot == Some(s) && entries == []
    {
      committed := s.index;
      if applied < s.index {
        applied := s.index;
      }
      offset := s.index + 1;
      entries := [];
      snapshot := Some(s);
    }

    method MaybeCommit(maxIndex: nat, term: nat) returns (moved: bool)
      requires Valid()
      modifies this`committed, this`panicked
      ensures moved == (maxIndex > old(committed) && TermOf(old(Visible()), maxIndex) == term)
      ensures Valid() && State() == if moved then Committed(old(State()), maxIndex) else old(State())
    {
      moved := false;
      if maxIndex > committed && MatchTerm(maxIndex, term) {
        CommitTo(maxIndex);
        moved := true;
      }
    }

    /** Drops entries through `i` once they are stored, unless they were replaced. */
    method StableTo(i: nat, t: nat)
      requires Contiguous(entries, offset) && (snapshot.Some? ==> snapshot.value.index < offset)
      modifies this`entries, this`offset
      ensures if old(offset) <= i < old(offset) + |old(entries)| && old(entries)[i - old(offset)].term == t
              then entries == old(entries)[i + 1 - old(offset)..] && offset == i + 1
              else entries == old(entries) && offset == old(offset)
    {
      var gt := UnstableTerm(i);
      if gt == Some(t) && i >= offset {
        entries := entries[i + 1 - offset..];
        offset := i + 1;
      }
    }

    /** Lets go of the unstable part once the storage holds the whole log. */
    method Release(ents: Log, snap: Option<Snapshot>)
      requires storage.Valid() && Fits() && storage.Stored() == Visible() && ents == entries && snap == snapshot
      modifies this`entries, this`offset, this`snapshot
      ensures Valid() && entries == [] && snapshot == None && Visible() == old(Visible())
    {
      if |ents| > 0 {
        var last := ents[|ents| - 1];
        StableTo(last.index, last.term);
      }
      assert entries == [] && offset == Last(storage.Stored()) + 1;
      if snap.Some? {
        StableSnapTo(snap.value.index);
      }
      assert storage.entries[..|storage.entries|] == storage.entries;
    }

    method StableSnapTo(i: nat)
      modifies this`snapshot
      ensures snapshot == if old(snapshot).Some? && old(snapshot).value.index == i then None else old(snapshot)
    {
      if snapshot.Some? && snapshot.value.index == i {
        snapshot := None;
      }
    }
  }

  // ----- why a pending snapshot must not match the storage -----

  /** What the storage holds once a pending snapshot and the entries above it
      have been persisted. */
  function Persisted(stored: Plain, s: Snapshot, ents: Log): Plain
    requires s.index > stored.dummy && Contiguous(ents, s.index + 1)
  {
    var p := Snapshotted(stored, s);
    if ents == [] then p else Spliced(p, ents)
  }

  /** Persisting a snapshot leaves exactly the log the core sees if and only if
      there are entries above it to cut the storage with, or the storage has no
      suffix that its boundary would keep. */
  lemma SnapshotPersistsExactly(stored: Plain, s: Snapshot, ents: Log)
    requires s.index > stored.dummy && Contiguous(ents, s.index + 1)
    ensures Persisted(stored, s, ents) == Plain(s.index, s.term, ents) <==> ents != [] || !KeepsSuffix(stored, s)
  {
    if ents == [] && KeepsSuffix(stored, s) {
      assert |Snapshotted(stored, s).entries| > 0;
    }
  }

  /** A drained log never asks for a snapshot its storage matches. */
  lemma DrainedNeverMatches(stored: Plain, s: Snapshot)
    requires TermOf(stored, s.index) != s.term
    ensures !KeepsSuffix(stored, s)
  {
  }
}
