/** The in-memory log storage: everything it holds survives a crash. */
module MemStorage {
  import opened RaftTypes
  import opened PlainLog

  datatype Status = Done | Failed(why: Result<nat>)

  class Storage {
    var hard: HardState
    var snapshot: Snapshot
    // entries[i] has index snapshot.index + 1 + i.
    var entries: Log

    predicate Valid()
      reads this
    {
      Contiguous(entries, snapshot.index + 1)
    }

    function Stored(): Plain
      reads this
    {
      Plain(snapshot.index, snapshot.term, entries)
    }

    constructor ()
      ensures Valid() && Stored() == Plain(0, 0, []) && hard == HardState(0, NONE, 0)
    {
      hard := HardState(0, NONE, 0);
      snapshot := Snapshot(0, 0, []);
      entries := [];
    }

    method SetHardState(st: HardState)
      modifies this`hard
      ensures hard == st
    {
      hard := st;
    }

    /** Drops what the snapshot covers, cuts a conflicting suffix, and appends;
        refuses entries that would leave a gap. */
    method AppendEntries(ents: Log) returns (r: Status)
      requires Valid() && (ents != [] ==> Contiguous(ents, ents[0].index))
      modifies this`entries
      ensures Valid()
      ensures var p := old(Stored());
        if ents == [] || ents[0].index + |ents| - 1 <= p.dummy then r == Done && Stored() == p
        else if ents[0].index > Last(p) + 1 then r == Failed(Unavailable) && Stored() == p
        else r == Done && Stored() == Spliced(p, Uncovered(ents, p.dummy))
    {
      if ents == [] {
        return Done;
      }
      var off := snapshot.index;
      var first := ents[0].index;
      var last := ents[|ents| - 1].index;
      if last <= off {
        return Done;
      }
      var rest := ents;
      if first <= off {
        rest := ents[off + 1 - first..];
        first := rest[0].index;
      }
      var pos := first - (off + 1);
      if pos > |entries| {
        return Failed(Unavailable);
      }
      entries := entries[..pos] + rest;
      return Done;
    }

    function EntriesIn(lo: nat, hi: nat): (r: Result<Log>)
      requires Valid()
      reads this
      ensures snapshot.index < lo <= hi <= Last(Stored()) + 1 ==> r == SliceOf(Stored(), lo, hi)
      ensures r == Compacted <==> lo <= snapshot.index
    {
      var off := snapshot.index;
      if lo <= off then Compacted
      else if hi > off + |entries| + 1 || lo > hi then Unavailable
      else if lo == hi then Ok([])
      else Ok(entries[lo - off - 1..hi - off - 1])
    }

    function Term(i: nat): (r: Result<nat>)
      reads this
      ensures snapshot.index <= i <= Last(Stored()) <==> r.Ok?
      ensures r.Ok? ==> r.value == TermOf(Stored(), i)
    {
      var off := snapshot.index;
      if i == off then Ok(snapshot.term)
      else if i < off then Compacted
      else if i > off + |entries| then Unavailable
      else Ok(entries[i - off - 1].term)
    }

    function FirstIndex(): nat
      reads this
    {
      snapshot.index + 1
    }

    function LastIndex(): nat
      reads this
    {
      snapshot.index + |entries|
    }

    /** Installs a newer snapshot; only a matching boundary keeps the suffix. */
    method ApplySnapshot(s: Snapshot) returns (r: Status)
      requires Valid()
      modifies this`entries, this`snapshot
      ensures Valid()
      ensures if s.index <= old(snapshot.index) then r == Failed(Compacted) && Stored() == old(Stored()) && snapshot == old(snapshot)
              else r == Done && Stored() == Snapshotted(old(Stored()), s) && snapshot == s
    {
      var off := snapshot.index;
      if s.index <= off {
        return Failed(Compacted);
      }
      var last := off + |entries|;
      if s.index < last && entries[s.index - off - 1].term == s.term {
        entries := entries[s.index - off..];
      } else {
        entries := [];
      }
      snapshot := s;
      return Done;
    }

    /** Drops a prefix in place, keeping the snapshot's content. */
    method Compact(index: nat) returns (r: Status)
      requires Valid()
      modifies this`entries, this`snapshot
      ensures Valid()
      ensures var p := old(Stored());
        if index <= p.dummy then r == Failed(Compacted) && Stored() == p
        else if index > Last(p) then r == Failed(Unavailable) && Stored() == p
        else r == Done && Stored() == Plain(index, TermOf(p, index), p.entries[index - p.dummy..])
    {
      var off := snapshot.index;
      if index <= off {
        return Failed(Compacted);
      }
      if index > off + |entries| {
        return Failed(Unavailable);
      }
      var term := entries[index - off - 1].term;
      entries := entries[index - off..];
      snapshot := Snapshot(index, term, snapshot.data);
      return Done;
    }
  }
}
