/** The durable log storage over its files. The bytes of a crash are whatever
    the last synced write left, plus any prefix of an unfinished one. */
module DiskStorage {
  import opened RaftTypes
  import opened PlainLog
  import opened BigEndian
  import opened WalFraming
  import opened WalReplay
  import opened DiskRuns
  import opened DiskFiles

  function Flat(groups: seq<seq<Record>>): seq<Record> {
    if groups == [] then [] else groups[0] + Flat(groups[1..])
  }

  lemma {:induction false} FlatGrows(groups: seq<seq<Record>>, rs: seq<Record>)
    ensures Flat(groups + [rs]) == Flat(groups) + rs
    decreases groups
  {
    if groups == [] {
      assert (groups + [rs])[1..] == [];
    } else {
      assert (groups + [rs])[1..] == groups[1..] + [rs];
      FlatGrows(groups[1..], rs);
    }
  }

  lemma FlatAppends(groups: seq<seq<Record>>, rs: seq<Record>)
    requires groups != []
    ensures Flat(groups[|groups| - 1 := groups[|groups| - 1] + rs]) == Flat(groups) + rs
  {
    var n := |groups| - 1;
    var init := groups[..n];
    assert groups == init + [groups[n]];
    assert groups[n := groups[n] + rs] == init + [groups[n] + rs];
    FlatGrows(init, groups[n]);
    FlatGrows(init, groups[n] + rs);
  }

  lemma JoinMore(a: seq<Record>, r: Record, b: seq<Record>)
    ensures a + ([r] + b) == (a + [r]) + b
  {
  }

  lemma EmptyFrames(crc: Bytes -> nat, rs: seq<Record>)
    ensures Frames(crc, rs) == [] <==> rs == []
  {
  }

  lemma OneFrame(crc: Bytes -> nat, r: Record)
    ensures Frames(crc, [r]) == Frame(crc, Encode(r))
  {
    assert [r][1..] == [];
    assert Frame(crc, Encode(r)) + [] == Frame(crc, Encode(r));
  }

  lemma NewestAdded(crc: Bytes -> nat, files: seq<Bytes>, st: StoredSnap)
    requires FramedSnap(st.snap)
    ensures Newest(crc, files + [SnapFile(crc, st)]) == if Small(st.snap) then st else Newest(crc, files)
  {
    hide SnapFile, FitsSnap, Small, FramedSnap, SnapPayload;
    PayloadSize(st);
    if Small(st.snap) {
      SnapFileReads(crc, st);
    } else {
      OversizedUnread(crc, st);
      assert (files + [SnapFile(crc, st)])[..|files|] == files;
    }
  }

  /** The segments hold the synced records, group by group, and the buffer the
      rest. */
  predicate Laid(crc: Bytes -> nat, segs: seq<Bytes>, groups: seq<seq<Record>>, buf: Bytes, recs: seq<Record>, synced: nat) {
    && synced <= |recs|
    && |segs| == |groups| && (forall i | 0 <= i < |segs| :: segs[i] == Frames(crc, groups[i]))
    && Flat(groups) == recs[..synced]
    && buf == Frames(crc, recs[synced..])
  }

  lemma FreshSegment(segs: seq<Bytes>, buf: Bytes)
    ensures (segs + [[]])[|segs| := [] + buf] == segs + [buf]
  {
    assert [] + buf == buf;
  }

  class Storage {
    const crc: Bytes -> nat
    const maxSegment: nat
    // The mirror.
    var hard: HardState
    var snapshot: Snapshot
    var entries: Log
    var cutPending: bool
    // Framed records not yet written.
    var buf: Bytes
    // The files: log segments, the last one active, and snapshot files.
    var segs: seq<Bytes>
    var snaps: seq<Bytes>
    // The records the segments and the buffer stand for, segment by segment,
    // and what the mirror held when its snapshot became current.
    ghost var recs: seq<Record>
    ghost var synced: nat
    ghost var groups: seq<seq<Record>>
    ghost var base: Log
    ghost var from: nat
    ghost var early: map<nat, Log>

    constructor Blank(crc: Bytes -> nat, maxSegment: nat, snaps: seq<Bytes>)
      ensures this.crc == crc && this.maxSegment == maxSegment && this.snaps == snaps
      ensures hard == HardState(0, NONE, 0) && snapshot == NO_SNAPSHOT && entries == [] && !cutPending
      ensures buf == [] && segs == [] && groups == [] && recs == [] && synced == 0
    {
      this.crc, this.maxSegment, this.snaps := crc, maxSegment, snaps;
      hard, snapshot, entries, cutPending := HardState(0, NONE, 0), NO_SNAPSHOT, [], false;
      buf, segs, groups, recs, synced, base, from, early := [], [], [], [], 0, [], 0, map[];
    }

    ghost predicate BytesOK()
      reads this`recs, this`synced, this`segs, this`groups, this`buf
    {
      Laid(crc, segs, groups, buf, recs, synced)
    }

    ghost predicate Valid()
      reads this
    {
      segs != [] && BytesOK() && !cutPending && snapshot == Newest(crc, snaps).snap
    }

    ghost function View(): Disk
      reads this
    {
      Disk(Newest(crc, snaps), Mirror(hard, snapshot, entries), recs, synced, base, from, early)
    }

    // ----- writes -----

    method AppendEntries(ents: Log) returns (ok: bool)
      requires Valid() && (ents != [] ==> Contiguous(ents, ents[0].index))
      modifies this`entries, this`buf, this`recs
      ensures Valid() && View() == Appended(old(View()), ents)
      ensures ok <==> ents == [] || ents[0].index <= old(snapshot.index + |entries|) + 1
                      || ents[0].index + |ents| - 1 <= snapshot.index
    {
      hide BytesOK, Newest, EntryRecs, Appended, Contiguous;
      if ents == [] {
        NothingAppended(View());
        return true;
      }
      AppendedParts(View(), ents);
      var off := snapshot.index;
      var first := ents[0].index;
      var last := ents[|ents| - 1].index;
      if last <= off {
        return true;
      }
      var rest := ents;
      if first <= off {
        rest := ents[off + 1 - first..];
        first := rest[0].index;
      }
      var pos := first - (off + 1);
      if pos > |entries| {
        return false;
      }
      entries := entries[..pos] + rest;
      BufferEntries(rest);
      return true;
    }

    method BufferEntries(rest: Log)
      requires BytesOK()
      modifies this`buf, this`recs
      ensures BytesOK() && recs == old(recs) + EntryRecs(rest)
    {
      hide BytesOK;
      var i := 0;
      while i < |rest|
        invariant 0 <= i <= |rest|
        invariant BytesOK() && recs == old(recs) + EntryRecs(rest[..i])
      {
        assert EntryRecs(rest)[i] == EntryRec(rest[i]);
        BufferRecord(EntryRec(rest[i]));
        assert EntryRecs(rest[..i + 1]) == EntryRecs(rest[..i]) + [EntryRec(rest[i])];
        i := i + 1;
      }
      assert rest[..i] == rest;
    }

    method BufferRecord(r: Record)
      requires BytesOK()
      modifies this`buf, this`recs
      ensures BytesOK() && recs == old(recs) + [r]
    {
      hide Encode, Frame, Frames;
      ghost var tail := recs[synced..];
      FramesJoin(crc, tail, [r]);
      OneFrame(crc, r);
      buf := buf + Frame(crc, Encode(r));
      recs := recs + [r];
      assert recs[synced..] == tail + [r] && recs[..synced] == old(recs)[..synced];
    }

    method SetHardState(h: HardState)
      requires Valid()
      modifies this`hard, this`buf, this`recs
      ensures Valid() && View() == After(old(View()), SetHard(h))
    {
      hide BytesOK, Newest;
      hard := h;
      BufferRecord(HardRec(h));
    }

    /** Writes and syncs the buffer, in a fresh segment if the active one is full. */
    method Sync()
      requires segs != [] && BytesOK()
      modifies this`segs, this`buf, this`groups, this`synced
      ensures segs != [] && BytesOK() && synced == |recs| && buf == []
      ensures var n := |old(segs)| - 1;
        segs == if old(buf) == [] then old(segs)
                else if |old(segs)[n]| >= maxSegment then old(segs) + [old(buf)]
                else old(segs)[n := old(segs)[n] + old(buf)]
    {
      hide Frames;
      ghost var more := recs[synced..];
      assert recs == recs[..synced] + more;
      assert recs[..|recs|] == recs;
      EmptyFrames(crc, more);
      EmptyFrames(crc, []);
      if |buf| == 0 {
        return;
      }
      if |segs[|segs| - 1]| >= maxSegment {
        FlatGrows(groups, []);
        segs, groups := segs + [[]], groups + [[]];
        FreshSegment(old(segs), buf);
      }
      var n := |segs| - 1;
      FramesJoin(crc, groups[n], more);
      FlatAppends(groups, more);
      segs, groups := segs[n := segs[n] + buf], groups[n := groups[n] + more];
      buf, synced := [], |recs|;
      assert recs[synced..] == [];
    }

    /** The snapshot file becomes durable first; if it contradicts the log above
        it, a truncation marker follows and is synced before anything else. A file
        over the size bound is one that recovery will pass over. */
    method ApplySnapshot(s: Snapshot) returns (ok: bool)
      requires Valid() && FramedSnap(s)
      modifies this
      ensures ok == (s.index > old(snapshot.index)) && View().mirror == Installed(old(View()), s).mirror
      ensures !ok || Small(s) ==> Valid() && View() == Installed(old(View()), s)
      ensures ok && !Small(s) ==> Newest(crc, snaps) == old(Newest(crc, snaps))
    {
      hide BytesOK, Newest, SnapFile, Cuts, Snapshotted, Installed, Small, FramedSnap;
      InstalledParts(View(), s);
      if s.index <= snapshot.index {
        return false;
      }
      ghost var d := View();
      var cut := WriteSnapshot(s);
      if cut {
        MarkCut(s);
      }
      base, from, early := entries, |recs|, Installed(d, s).early;
      return true;
    }

    method MarkCut(s: Snapshot)
      requires segs != [] && BytesOK()
      modifies this`buf, this`recs, this`segs, this`groups, this`synced, this`cutPending
      ensures segs != [] && BytesOK() && !cutPending && recs == old(recs) + [Marker(s)] && synced == |recs|
    {
      hide BytesOK;
      BufferRecord(Marker(s));
      Sync();
      cutPending := false;
    }

    method WriteSnapshot(s: Snapshot) returns (cut: bool)
      requires FramedSnap(s) && s.index > snapshot.index
      modifies this`entries, this`snapshot, this`snaps, this`cutPending
      ensures cut == cutPending == Cuts(old(Visible(View())), s)
      ensures Newest(crc, snaps) == if Small(s) then StoredSnap(s, cut) else old(Newest(crc, snaps))
      ensures snapshot == s && entries == Snapshotted(old(Visible(View())), s).entries
    {
      hide Newest, FitsSnap, SnapFile, Small, FramedSnap;
      var off := snapshot.index;
      var last := off + |entries|;
      var retain := s.index < last && entries[s.index - off - 1].term == s.term;
      cut := s.index < last && !retain;
      NewestAdded(crc, snaps, StoredSnap(s, cut));
      snaps := snaps + [SnapFile(crc, StoredSnap(s, cut))];
      if retain {
        entries := entries[s.index - off..];
      } else {
        entries := [];
      }
      snapshot := s;
      cutPending := cut;
    }

    // ----- recovery -----

    /** Loads the newest snapshot file that is intact. */
    method LoadSnapshot()
      requires snapshot == NO_SNAPSHOT && !cutPending
      modifies this`snapshot, this`cutPending
      ensures StoredSnap(snapshot, cutPending) == Newest(crc, snaps)
    {
      hide ReadSnap;
      var i := |snaps|;
      assert snaps[..i] == snaps;
      while i > 0
        invariant 0 <= i <= |snaps| && snapshot == NO_SNAPSHOT && !cutPending
        invariant Newest(crc, snaps[..i]) == Newest(crc, snaps)
      {
        i := i - 1;
        assert snaps[..i + 1][..i] == snaps[..i] && snaps[..i + 1][i] == snaps[i];
        match ReadSnap(crc, snaps[i])
        case Some(st) =>
          snapshot, cutPending := st.snap, st.trunc;
          return;
        case None =>
      }
      assert snaps[..0] == [];
    }

    /** Applies one decoded record to the mirror; fails on a gap. */
    method ApplyRecord(r: Record) returns (ok: bool)
      modifies this`entries, this`hard, this`cutPending
      ensures ok == ApplyRec(snapshot.index, old(entries), r).Some?
      ensures ok ==> entries == ApplyRec(snapshot.index, old(entries), r).value
                     && hard == (if r.HardRec? then r.h else old(hard))
                     && cutPending == (old(cutPending) && r != Marker(snapshot))
      ensures !ok ==> entries == old(entries) && hard == old(hard) && cutPending == old(cutPending)
    {
      match r
      case EntryRec(e) =>
        var off := snapshot.index;
        if e.index <= off {
          return true;
        }
        var pos := e.index - (off + 1);
        if pos > |entries| {
          return false;
        }
        entries := entries[..pos] + [e];
        return true;
      case HardRec(h) =>
        hard := h;
        return true;
      case TruncRec(index, term) =>
        var off := snapshot.index;
        if index <= off {
          entries := [];
        } else if index - off < |entries| {
          entries := entries[..index - off];
        }
        if cutPending && index == snapshot.index && term == snapshot.term {
          cutPending := false;
        }
        return true;
    }

    /** The mirror is what the records replayed so far rebuild. */
    ghost predicate Replaying()
      reads this`snapshot, this`snaps, this`recs, this`entries, this`hard, this`cutPending
    {
      && snapshot == Newest(crc, snaps).snap && Replay(snapshot.index, recs) == Some(entries)
      && hard == LastHard(recs) && cutPending == CutMissing(Newest(crc, snaps), recs)
    }

    lemma ReplayedOne(r: Record, before: seq<Record>, es: Log)
      requires Replay(snapshot.index, before) == Some(es) && ApplyRec(snapshot.index, es, r).Some?
      ensures Replay(snapshot.index, before + [r]) == ApplyRec(snapshot.index, es, r)
      ensures LastHard(before + [r]) == if r.HardRec? then r.h else LastHard(before)
      ensures CutMissing(Newest(crc, snaps), before + [r]) <==> CutMissing(Newest(crc, snaps), before) && r != Marker(Newest(crc, snaps).snap)
    {
      FoldSnoc(snapshot.index, [], before, r);
      assert (before + [r])[..|before|] == before;
    }

    /** Replays one segment to its end, or to the first bad frame, and says how
        many of its bytes are good. */
    method ReplaySegment(data: Bytes) returns (good: nat)
      requires Replaying()
      modifies this`entries, this`hard, this`cutPending, this`recs
      ensures Replaying()
      ensures var (rs, m) := Kept(crc, snapshot.index, old(entries), data); good == m && recs == old(recs) + rs
    {
      hide ReadFrame, Decode, ApplyRec, Newest, Fold, LastHard, CutMissing;
      var off := 0;
      ghost var got: seq<Record> := [];
      assert data[0..] == data && got + Kept(crc, snapshot.index, entries, data).0 == Kept(crc, snapshot.index, entries, data).0;
      while off < |data|
        invariant 0 <= off <= |data| && Replaying() && recs == old(recs) + got
        invariant var (rs, m) := Kept(crc, snapshot.index, entries, data[off..]);
          Kept(crc, snapshot.index, old(entries), data) == (got + rs, off + m)
        decreases |data| - off
      {
        var frame := ReadFrame(crc, data[off..]);
        if frame.None? {
          return off;
        }
        ReadIsReal(crc, data[off..]);
        var (p, n) := frame.value;
        var rec := Decode(p);
        if rec.None? {
          return off;
        }
        ghost var before, es := recs, entries;
        var ok := ApplyRecord(rec.value);
        if !ok {
          return off;
        }
        ReplayedOne(rec.value, before, es);
        recs, got := recs + [rec.value], got + [rec.value];
        off := off + n;
        assert data[off - n..][n..] == data[off..];
        JoinMore(got[..|got| - 1], rec.value, Kept(crc, snapshot.index, entries, data[off..]).0);
      }
      NothingKept(data[off..], entries);
      return off;
    }

    lemma NothingKept(data: Bytes, es: Log)
      requires data == []
      ensures Kept(crc, snapshot.index, es, data) == ([], 0)
    {
    }

    /** The segments replayed so far are the records replayed so far. */
    ghost predicate Loaded()
      reads this
    {
      && Replaying() && AllWritable(recs) && Flat(groups) == recs
      && |segs| == |groups| && forall j | 0 <= j < |segs| :: segs[j] == Frames(crc, groups[j])
    }

    method ReplayFile(file: Bytes) returns (torn: bool)
      requires Loaded()
      modifies this`entries, this`hard, this`cutPending, this`recs, this`segs, this`groups
      ensures Loaded()
      ensures var (rs, m) := Kept(crc, snapshot.index, old(entries), file);
        recs == old(recs) + rs && torn == (m < |file|) && Fold(snapshot.index, old(entries), rs) == Some(entries)
    {
      hide Newest, Kept, Fold, LastHard, CutMissing, Writable, Frames;
      ghost var before, es := recs, entries;
      KeptIsReal(crc, snapshot.index, es, file);
      var good := ReplaySegment(file);
      ghost var rs := Kept(crc, snapshot.index, es, file).0;
      FlatGrows(groups, rs);
      segs, groups := segs + [file[..good]], groups + [rs];
      FoldSplit(snapshot.index, [], before, rs);
      torn := good < |file|;
    }

    lemma KeptMore(es: Log, files: seq<Bytes>, i: nat, before: seq<Record>)
      requires i < |files|
      ensures var (rs, m) := Kept(crc, snapshot.index, es, files[i]);
        before + KeptRecs(crc, snapshot.index, es, files[i..]) ==
          if m < |files[i]| || Fold(snapshot.index, es, rs).None? then before + rs
          else before + rs + KeptRecs(crc, snapshot.index, Fold(snapshot.index, es, rs).value, files[i + 1..])
    {
      hide Kept, Fold;
      assert files[i..][1..] == files[i + 1..];
    }

    /** Replays the segments in order; a torn one ends the log, and what follows
        it is discarded. */
    method ReplayFiles(files: seq<Bytes>)
      requires Replaying() && recs == [] && segs == [] && groups == [] && buf == [] && entries == []
      modifies this`entries, this`hard, this`cutPending, this`recs, this`segs, this`groups, this`synced
      ensures Replaying() && BytesOK() && synced == |recs| && AllWritable(recs)
      ensures recs == KeptRecs(crc, snapshot.index, [], files)
    {
      hide Kept, KeptRecs, Fold, Frames, Replaying, Writable;
      var i, torn := 0, false;
      assert files[0..] == files && recs + KeptRecs(crc, snapshot.index, [], files) == KeptRecs(crc, snapshot.index, [], files);
      while i < |files| && !torn
        invariant 0 <= i <= |files| && Loaded()
        invariant !torn ==> recs + KeptRecs(crc, snapshot.index, entries, files[i..]) == KeptRecs(crc, snapshot.index, [], files)
        invariant torn ==> recs == KeptRecs(crc, snapshot.index, [], files)
      {
        KeptMore(entries, files, i, recs);
        torn := ReplayFile(files[i]);
        i := i + 1;
      }
      NothingLeft(entries, files[i..]);
      synced := |recs|;
      assert recs[..synced] == recs && recs[synced..] == [];
      EmptyFrames(crc, []);
    }

    lemma NothingLeft(es: Log, files: seq<Bytes>)
      ensures files == [] ==> KeptRecs(crc, snapshot.index, es, files) == []
    {
    }

    /** Recovery from whatever files a crash left. */
    static method Open(crc: Bytes -> nat, maxSegment: nat, snaps: seq<Bytes>, files: seq<Bytes>) returns (d: Storage)
      ensures fresh(d) && d.Valid() && d.crc == crc && d.snaps == snaps && AllWritable(d.recs)
      ensures var st := Newest(crc, snaps); var rs := KeptRecs(crc, st.snap.index, [], files);
        Replay(st.snap.index, rs).Some? && d.View() == Restarted(st, rs)
    {
      hide Newest, KeptRecs, Replay, LastHard, CutMissing, Storage.BytesOK;
      d := new Storage.Blank(crc, maxSegment, snaps);
      d.LoadSnapshot();
      NothingReplayed(Newest(crc, snaps));
      d.ReplayFiles(files);
      d.Repair();
    }

    /** Cuts the log a flagged snapshot contradicts, if its marker was lost. */
    method Repair()
      requires Replaying() && BytesOK() && synced == |recs| && AllWritable(recs)
      modifies this
      ensures Valid() && snaps == old(snaps) && AllWritable(recs) && View() == Restarted(Newest(crc, snaps), old(recs))
    {
      hide Newest, Replay, LastHard, Writable, BytesOK, CutMissing;
      if cutPending {
        entries := [];
      }
      if |segs| == 0 {
        FirstSegment();
      }
      if cutPending {
        NewestMarker(crc, snaps);
        MarkCut(snapshot);
      }
      base, from, early := entries, |recs|, map[];
    }

    method FirstSegment()
      requires BytesOK() && segs == []
      modifies this`segs, this`groups
      ensures BytesOK() && segs != []
    {
      EmptyFrames(crc, []);
      FlatGrows(groups, []);
      segs, groups := [[]], [[]];
    }
  }

  lemma NothingAppended(d: Disk)
    ensures Appended(d, []) == d
  {
  }

  /** What is left of a batch of entries once the snapshot covers its start. */
  function Rest(off: nat, ents: Log): Log
    requires ents != []
  {
    if ents[0].index <= off < ents[0].index + |ents| then ents[off + 1 - ents[0].index..] else ents
  }

  lemma AppendedParts(d: Disk, ents: Log)
    requires ents != [] && Contiguous(ents, ents[0].index)
    ensures ents[|ents| - 1].index == ents[0].index + |ents| - 1
    ensures var off, es, rest := d.mirror.snap.index, d.mirror.entries, Rest(d.mirror.snap.index, ents);
      && (ents[|ents| - 1].index > off ==> rest != [] && rest[0].index == Max(ents[0].index, off + 1))
      && Appended(d, ents) ==
         if ents[|ents| - 1].index <= off || rest == [] || rest[0].index > off + |es| + 1 || rest[0].index <= off then d
         else d.(mirror := d.mirror.(entries := es[..rest[0].index - (off + 1)] + rest), recs := d.recs + EntryRecs(rest))
  {
    hide EntryRecs;
  }

  lemma InstalledParts(d: Disk, s: Snapshot)
    ensures var i := Installed(d, s); var cut := Cuts(Visible(d), s);
      if s.index <= d.mirror.snap.index then i == d
      else
        && i.st == StoredSnap(s, cut) && i.recs == (if cut then d.recs + [Marker(s)] else d.recs)
        && i.synced == (if cut then |i.recs| else d.synced) && i.from == |i.recs|
        && i.base == i.mirror.entries && i.mirror == Mirror(d.mirror.hard, s, Snapshotted(Visible(d), s).entries)
  {
    hide LeftAt;
  }

  lemma NothingReplayed(st: StoredSnap)
    ensures Replay(st.snap.index, []) == Some([]) && LastHard([]) == HardState(0, NONE, 0)
    ensures CutMissing(st, []) == st.trunc
  {
  }

  lemma MarkerFits(s: Snapshot)
    requires s.index < Pow256(8) && s.term < Pow256(8)
    ensures Writable(Marker(s))
  {
  }

  lemma {:induction false} NewestMarker(crc: Bytes -> nat, files: seq<Bytes>)
    ensures Writable(Marker(Newest(crc, files).snap))
    decreases files
  {
    hide ReadFrame, Writable;
    if files == [] {
      Widths();
      MarkerFits(NO_SNAPSHOT);
    } else {
      var st := ReadSnap(crc, files[|files| - 1]);
      if st.Some? {
        var (p, n) := ReadFrame(crc, files[|files| - 1]).value;
        PutGet(p[0..8]);
        PutGet(p[8..16]);
        MarkerFits(st.value.snap);
      } else {
        NewestMarker(crc, files[..|files| - 1]);
      }
    }
  }

  // ----- crashes, byte by byte -----

  /** The segments after a crash that wrote `c` bytes of the buffer, with or
      without having opened a new segment for them. */
  function CrashFiles(segs: seq<Bytes>, buf: Bytes, c: nat, rotated: bool): seq<Bytes>
    requires segs != [] && c <= |buf|
  {
    if rotated then segs + [buf[..c]] else segs[..|segs| - 1] + [segs[|segs| - 1] + buf[..c]]
  }

  lemma {:induction false} WholeJoin(crc: Bytes -> nat, a: seq<Record>, b: seq<Record>, c: nat)
    ensures Whole(crc, a + b, |Frames(crc, a)| + c) == |a| + Whole(crc, b, c)
    decreases a
  {
    hide Frame, Encode;
    if a == [] {
      assert a + b == b;
    } else {
      assert (a + b)[1..] == a[1..] + b;
      WholeJoin(crc, a[1..], b, c);
    }
  }

  lemma {:induction false} SoundJoin(a: seq<Record>, b: seq<Record>)
    ensures Sound(a + b) == if Sound(a) < |a| then Sound(a) else |a| + Sound(b)
    decreases a
  {
    hide Writable;
    if a == [] {
      assert a + b == b;
    } else {
      assert (a + b)[1..] == a[1..] + b;
      SoundJoin(a[1..], b);
    }
  }

  lemma SoundAll(rs: seq<Record>)
    ensures Sound(rs) == |rs| <==> AllWritable(rs)
  {
    hide Writable;
    if Sound(rs) == |rs| { assert rs[..|rs|] == rs; }
  }

  /** A segment holding whole records and the start of more parses to the
      records that are complete, up to the first that is too large. */
  lemma SegmentParses(crc: Bytes -> nat, a: seq<Record>, b: seq<Record>, c: nat)
    requires AllFramed(a) && AllFramed(b) && c <= |Frames(crc, b)|
    ensures Parse(crc, Frames(crc, a) + Frames(crc, b)[..c]).0 == Clip(a + b, |a| + Whole(crc, b, c))
    ensures Parse(crc, Frames(crc, a)) == (a[..Sound(a)], |Frames(crc, a[..Sound(a)])|)
  {
    hide AllFramed, Parse, Whole, Frames, Sound, Clip;
    CutSegmentParses(crc, a, b, c);
    WholeSegmentParses(crc, a);
  }

  lemma FramedJoin(a: seq<Record>, b: seq<Record>)
    requires AllFramed(a) && AllFramed(b)
    ensures AllFramed(a + b)
  {
    hide Framed;
  }

  lemma CutSegmentParses(crc: Bytes -> nat, a: seq<Record>, b: seq<Record>, c: nat)
    requires AllFramed(a) && AllFramed(b) && c <= |Frames(crc, b)|
    ensures Parse(crc, Frames(crc, a) + Frames(crc, b)[..c]).0 == Clip(a + b, |a| + Whole(crc, b, c))
  {
    hide AllFramed, Parse, Whole, Frames, Sound;
    var k := |Frames(crc, a)| + c;
    FramedJoin(a, b);
    FramesJoin(crc, a, b);
    assert (Frames(crc, a) + Frames(crc, b))[..k] == Frames(crc, a) + Frames(crc, b)[..c];
    CutLogParses(crc, a + b, k);
    WholeJoin(crc, a, b, c);
  }

  lemma WholeSegmentParses(crc: Bytes -> nat, a: seq<Record>)
    requires AllFramed(a)
    ensures Parse(crc, Frames(crc, a)) == (a[..Sound(a)], |Frames(crc, a[..Sound(a)])|)
  {
    hide AllFramed, Parse, Whole, Frames, Sound;
    CutLogParses(crc, a, |Frames(crc, a)|);
    assert a[..|a|] == a && Frames(crc, a)[..|Frames(crc, a)|] == Frames(crc, a);
    WholeFrames(crc, a, |a|, |Frames(crc, a)|);
  }

  lemma {:induction false} FewerFrames(crc: Bytes -> nat, rs: seq<Record>, j: nat)
    requires j < |rs|
    ensures |Frames(crc, rs[..j])| < |Frames(crc, rs)|
    decreases rs
  {
    hide Encode;
    if j > 0 {
      assert rs[..j][1..] == rs[1..][..j - 1];
      FewerFrames(crc, rs[1..], j - 1);
    }
  }

  predicate GroupsOK(crc: Bytes -> nat, segs: seq<Bytes>, groups: seq<seq<Record>>) {
    && |segs| == |groups|
    && (forall i | 0 <= i < |segs| :: segs[i] == Frames(crc, groups[i]) && AllFramed(groups[i]))
  }

  /** The first segment is kept whole, or ends the log. */
  lemma HeadKept(crc: Bytes -> nat, s: nat, es: Log, g: seq<Record>, files: seq<Bytes>)
    requires AllFramed(g) && Fold(s, es, g).Some?
    ensures KeptRecs(crc, s, es, [Frames(crc, g)] + files) ==
      if Sound(g) < |g| then g[..Sound(g)] else g + KeptRecs(crc, s, Fold(s, es, g).value, files)
  {
    hide Kept, Parse, Frames, Fold, AllFramed, Sound;
    assert AllFramed([]) by { NoneFramed(); }
    assert Frames(crc, []) == [] by { EmptyFrames(crc, []); }
    SegmentParses(crc, g, [], 0);
    FoldPrefix(s, es, g, Sound(g));
    KeptIsParsed(crc, s, es, Frames(crc, g));
    assert ([Frames(crc, g)] + files)[1..] == files;
    if Sound(g) < |g| {
      FewerFrames(crc, g, Sound(g));
    } else {
      assert g[..|g|] == g;
    }
  }

  /** The first `m` records, up to the first that is too large. */
  function Clip(rs: seq<Record>, m: nat): seq<Record>
    requires m <= |rs|
  {
    rs[..Min(m, Sound(rs))]
  }

  lemma ClipJoin(a: seq<Record>, b: seq<Record>, m: nat)
    requires m <= |b|
    ensures Clip(a + b, |a| + m) == if Sound(a) < |a| then a[..Sound(a)] else a + Clip(b, m)
  {
    hide Sound;
    SoundJoin(a, b);
  }

  lemma FoldHead(s: nat, es: Log, a: seq<Record>, b: seq<Record>)
    requires Fold(s, es, a + b).Some?
    ensures Fold(s, es, a).Some? && Fold(s, Fold(s, es, a).value, b).Some?
  {
    hide Fold;
    FoldPrefix(s, es, a + b, |a|);
    assert (a + b)[..|a|] == a;
    FoldSplit(s, es, a, b);
  }

  /** Whole segments followed by one that holds the first `w` of more records:
      what is kept ends at the first record that is too large. */
  lemma {:induction false} SegmentsKept(
      crc: Bytes -> nat, s: nat, es: Log, segs: seq<Bytes>, groups: seq<seq<Record>>, last: Bytes, tail: seq<Record>, w: nat)
    requires GroupsOK(crc, segs, groups) && w <= |tail| && Parse(crc, last).0 == Clip(tail, w)
    requires Fold(s, es, Flat(groups) + tail[..w]).Some?
    ensures KeptRecs(crc, s, es, segs + [last]) == Clip(Flat(groups) + tail, |Flat(groups)| + w)
    decreases segs
  {
    hide KeptRecs, Parse, Frames, Fold, AllFramed, Sound, Clip;
    if segs == [] {
      assert segs + [last] == [last] && Flat(groups) + tail == tail && Flat(groups) + tail[..w] == tail[..w];
      ClipFolds(s, es, tail, w);
      LastKept(crc, s, es, last);
    } else {
      var g, more := groups[0], Flat(groups[1..]);
      assert Flat(groups) + tail == g + (more + tail) && Flat(groups) + tail[..w] == g + (more + tail[..w]);
      FoldHead(s, es, g, more + tail[..w]);
      HeadKept(crc, s, es, g, segs[1..] + [last]);
      assert segs + [last] == [Frames(crc, g)] + (segs[1..] + [last]);
      ClipJoin(g, more + tail, |more| + w);
      assert GroupsOK(crc, segs[1..], groups[1..]);
      SegmentsKept(crc, s, Fold(s, es, g).value, segs[1..], groups[1..], last, tail, w);
    }
  }

  lemma ClipFolds(s: nat, es: Log, rs: seq<Record>, w: nat)
    requires w <= |rs| && Fold(s, es, rs[..w]).Some?
    ensures Fold(s, es, Clip(rs, w)).Some?
  {
    hide Fold, Sound;
    var k := Min(w, Sound(rs));
    FoldPrefix(s, es, rs[..w], k);
    assert rs[..w][..k] == rs[..k];
  }

  lemma NoneFramed()
    ensures AllFramed([])
  {
  }

  lemma LastKept(crc: Bytes -> nat, s: nat, es: Log, last: Bytes)
    requires Fold(s, es, Parse(crc, last).0).Some?
    ensures KeptRecs(crc, s, es, [last]) == Parse(crc, last).0
  {
    hide Kept, Parse, Fold;
    KeptIsParsed(crc, s, es, last);
    var rs, m := Parse(crc, last).0, Parse(crc, last).1;
    var es' := Fold(s, es, rs).value;
    assert [last][1..] == [];
    assert rs + [] == rs;
    assert KeptRecs(crc, s, es', []) == [];
  }

  lemma {:induction false} FlatFramed(groups: seq<seq<Record>>)
    requires AllFramed(Flat(groups))
    ensures forall i | 0 <= i < |groups| :: AllFramed(groups[i])
    decreases groups
  {
    hide Framed;
    if groups != [] {
      var a, b := groups[0], Flat(groups[1..]);
      assert AllFramed(a) by { assert forall i | 0 <= i < |a| :: a[i] == (a + b)[i]; }
      assert AllFramed(b) by { assert forall i | 0 <= i < |b| :: b[i] == (a + b)[|a| + i]; }
      FlatFramed(groups[1..]);
      forall i | 0 <= i < |groups| ensures AllFramed(groups[i]) {
        if i > 0 { assert groups[i] == groups[1..][i - 1]; }
      }
    }
  }

  lemma PartFramed(rs: seq<Record>, k: nat)
    requires AllFramed(rs) && k <= |rs|
    ensures AllFramed(rs[..k]) && AllFramed(rs[k..])
  {
    hide Framed;
  }

  /** Whatever bytes of the buffer reach the segments, recovery above snapshot
      index `s` keeps exactly the records that are complete, up to the first that
      is too large. */
  lemma CrashLeaves(crc: Bytes -> nat, s: nat, segs: seq<Bytes>, groups: seq<seq<Record>>, buf: Bytes, recs: seq<Record>,
                    synced: nat, c: nat, rotated: bool)
    requires Laid(crc, segs, groups, buf, recs, synced) && segs != [] && c <= |buf| && Replay(s, recs).Some?
    requires AllFramed(recs)
    ensures var k := synced + Whole(crc, recs[synced..], c);
      k <= |recs| && KeptRecs(crc, s, [], CrashFiles(segs, buf, c, rotated)) == recs[..Min(k, Sound(recs))]
  {
    hide AllFramed, Frames, Whole, KeptRecs, Fold, Parse, Sound, Laid, CrashFiles, GroupsOK, Flat;
    LaidBounds(crc, segs, groups, buf, recs, synced);
    var tail := recs[synced..];
    PartFramed(recs, synced);
    LaidParts(crc, segs, groups, buf, recs, synced);
    assert recs == Flat(groups) + tail;
    if rotated {
      RotatedLeaves(crc, s, segs, groups, tail, c);
    } else {
      PlainLeaves(crc, s, segs, groups, tail, c);
    }
  }

  lemma LaidParts(crc: Bytes -> nat, segs: seq<Bytes>, groups: seq<seq<Record>>, buf: Bytes, recs: seq<Record>, synced: nat)
    requires Laid(crc, segs, groups, buf, recs, synced) && AllFramed(recs[..synced])
    ensures GroupsOK(crc, segs, groups) && Flat(groups) == recs[..synced] && buf == Frames(crc, recs[synced..])
  {
    hide AllFramed, Frames, Flat;
    FlatFramed(groups);
  }

  lemma RotatedLeaves(crc: Bytes -> nat, s: nat, segs: seq<Bytes>, groups: seq<seq<Record>>, tail: seq<Record>, c: nat)
    requires GroupsOK(crc, segs, groups) && segs != [] && AllFramed(tail) && c <= |Frames(crc, tail)|
    requires Replay(s, Flat(groups) + tail).Some?
    ensures KeptRecs(crc, s, [], CrashFiles(segs, Frames(crc, tail), c, true)) ==
      Clip(Flat(groups) + tail, |Flat(groups)| + Whole(crc, tail, c))
  {
    hide Framed, Frames, Whole, KeptRecs, Fold, Parse, Sound, Clip;
    var w, buf := Whole(crc, tail, c), Frames(crc, tail);
    EmptyFrames(crc, []);
    NoneFramed();
    SegmentParses(crc, [], tail, c);
    assert Frames(crc, []) + buf[..c] == buf[..c] && [] + tail == tail;
    FoldShort(s, Flat(groups), tail, w);
    SegmentsKept(crc, s, [], segs, groups, buf[..c], tail, w);
  }

  lemma FoldShort(s: nat, a: seq<Record>, b: seq<Record>, w: nat)
    requires Replay(s, a + b).Some? && w <= |b|
    ensures Replay(s, a + b[..w]).Some?
  {
    hide Fold;
    FoldPrefix(s, [], a + b, |a| + w);
    assert (a + b)[..|a| + w] == a + b[..w];
  }

  lemma PlainLeaves(crc: Bytes -> nat, s: nat, segs: seq<Bytes>, groups: seq<seq<Record>>, tail: seq<Record>, c: nat)
    requires GroupsOK(crc, segs, groups) && segs != [] && AllFramed(tail) && c <= |Frames(crc, tail)|
    requires Replay(s, Flat(groups) + tail).Some?
    ensures KeptRecs(crc, s, [], CrashFiles(segs, Frames(crc, tail), c, false)) ==
      Clip(Flat(groups) + tail, |Flat(groups)| + Whole(crc, tail, c))
  {
    hide AllFramed, Frames, Whole, KeptRecs, Fold, Parse, Sound, Clip, Flat;
    var n, w := |segs| - 1, Whole(crc, tail, c);
    var g := groups[n];
    SegmentParses(crc, g, tail, c);
    assert groups == groups[..n] + [g];
    FlatGrows(groups[..n], g);
    assert Flat(groups) + tail == Flat(groups[..n]) + (g + tail);
    assert (g + tail)[..|g| + w] == g + tail[..w];
    FoldShort(s, Flat(groups), tail, w);
    assert Flat(groups) + tail[..w] == Flat(groups[..n]) + (g + tail)[..|g| + w];
    SegmentsKept(crc, s, [], segs[..n], groups[..n], segs[n] + Frames(crc, tail)[..c], g + tail, |g| + w);
  }

  /** How many records survive a crash that wrote `c` bytes of the buffer: all
      that are complete, up to the first that is too large. */
  ghost function Survivors(d: Storage, c: nat): nat
    requires d.synced <= |d.recs|
    reads d
  {
    Min(d.synced + Whole(d.crc, d.recs[d.synced..], c), Sound(d.recs))
  }

  /** Whatever bytes of an unfinished write reach the disk, recovery keeps exactly
      these records. It keeps all that were synced if and only if none of them is
      over the size bound. */
  lemma CrashKeeps(d: Storage, c: nat, rotated: bool)
    requires d.Valid() && AllFramed(d.recs) && c <= |d.buf| && Replay(d.snapshot.index, d.recs).Some?
    ensures d.synced <= |d.recs| && Survivors(d, c) <= |d.recs|
    ensures KeptRecs(d.crc, d.snapshot.index, [], CrashFiles(d.segs, d.buf, c, rotated)) == d.recs[..Survivors(d, c)]
    ensures d.synced <= Survivors(d, c) <==> AllWritable(d.recs[..d.synced])
  {
    hide Newest, Laid, Whole, KeptRecs, Fold, Sound, Writable, Framed;
    LaidBounds(d.crc, d.segs, d.groups, d.buf, d.recs, d.synced);
    CrashLeaves(d.crc, d.snapshot.index, d.segs, d.groups, d.buf, d.recs, d.synced, c, rotated);
    SoundPart(d.recs, d.synced);
  }

  lemma SoundPart(rs: seq<Record>, k: nat)
    requires k <= |rs|
    ensures k <= Sound(rs) <==> AllWritable(rs[..k])
  {
    hide Writable, Sound;
    assert rs == rs[..k] + rs[k..];
    SoundJoin(rs[..k], rs[k..]);
    SoundAll(rs[..k]);
  }

  lemma LaidBounds(crc: Bytes -> nat, segs: seq<Bytes>, groups: seq<seq<Record>>, buf: Bytes, recs: seq<Record>, synced: nat)
    requires Laid(crc, segs, groups, buf, recs, synced)
    ensures synced <= |recs|
  {
  }

  /** What a restart over any first records of a disk is. */
  lemma RestartsAt(d: Disk, s: nat, k: nat)
    requires Inv(d) && d.st.snap.index <= s && k <= |d.recs|
    ensures Replay(s, d.recs).Some? && Replay(s, d.recs[..k]).Some? && MarkersBelow(s, d.recs[..k])
  {
    hide Inv, Fold, MarkersBelow;
    InvBounds(d);
    assert d.recs[..|d.recs|] == d.recs;
    ReplayLater(d, s, |d.recs|);
    FoldPrefix(s, [], d.recs, k);
    MarkersLater(d.st.snap.index, s, d.recs, k);
  }

  /** A crash at any byte followed by a restart is, on the records, a restart with
      the records that survive; with every synced one and possibly some more, if no
      synced record is over the size bound. */
  method CrashAndReopen(d: Storage, c: nat, rotated: bool) returns (r: Storage)
    requires d.Valid() && Inv(d.View()) && AllFramed(d.recs) && c <= |d.buf|
    ensures fresh(r) && r.Valid() && Inv(r.View()) && AllWritable(r.recs)
    ensures d.synced <= |d.recs| && Survivors(d, c) <= |d.recs|
    ensures Replay(d.snapshot.index, d.recs[..Survivors(d, c)]).Some?
    ensures r.View() == Restarted(d.View().st, d.recs[..Survivors(d, c)])
    ensures AllWritable(d.recs[..d.synced]) ==>
      d.synced <= Survivors(d, c) && r.View() == After(d.View(), Reopen(Survivors(d, c)))
  {
    hide Inv, Newest, KeptRecs, Whole, Replay, Sound, Writable, Framed;
    LaidBounds(d.crc, d.segs, d.groups, d.buf, d.recs, d.synced);
    RestartsAt(d.View(), d.snapshot.index, |d.recs|);
    CrashKeeps(d, c, rotated);
    RestartsAt(d.View(), d.snapshot.index, Survivors(d, c));
    RestartKeeps(d.View().st, d.recs[..Survivors(d, c)]);
    r := Storage.Open(d.crc, d.maxSegment, d.snaps, CrashFiles(d.segs, d.buf, c, rotated));
  }

  // ----- crashes while a snapshot is installed -----

  /** A snapshot file that is not complete is passed over. */
  lemma TornSnapFile(crc: Bytes -> nat, files: seq<Bytes>, st: StoredSnap, t: nat)
    requires FramedSnap(st.snap) && t < |SnapFile(crc, st)|
    ensures Newest(crc, files + [SnapFile(crc, st)[..t]]) == Newest(crc, files)
  {
    hide FramedSnap, SnapPayload;
    PayloadSize(st);
    SnapWidth(st.snap);
    TornFrame(crc, SnapPayload(st), t);
    var all := files + [SnapFile(crc, st)[..t]];
    assert all[..|all| - 1] == files;
  }

  lemma SnapWidth(s: Snapshot)
    requires FramedSnap(s)
    ensures 21 + |s.data| < Pow256(4)
  {
  }

  lemma LaidMore(crc: Bytes -> nat, segs: seq<Bytes>, groups: seq<seq<Record>>, buf: Bytes, recs: seq<Record>, synced: nat, r: Record)
    requires Laid(crc, segs, groups, buf, recs, synced)
    ensures Laid(crc, segs, groups, buf + Frame(crc, Encode(r)), recs + [r], synced)
  {
    hide Encode, Frame, Frames;
    var tail := recs[synced..];
    FramesJoin(crc, tail, [r]);
    OneFrame(crc, r);
    assert (recs + [r])[synced..] == tail + [r] && (recs + [r])[..synced] == recs[..synced];
  }

  /** How many records survive when `c` bytes of the buffer and the marker do. */
  ghost function Marked(d: Storage, s: Snapshot, c: nat): nat
    requires d.synced <= |d.recs|
    reads d
  {
    Min(d.synced + Whole(d.crc, (d.recs + [Marker(s)])[d.synced..], c), Sound(d.recs + [Marker(s)]))
  }

  /** The state after a crash inside installing a snapshot that cuts the log. */
  function CutShort(d: Disk, s: Snapshot, k: nat): Disk {
    if k <= |d.recs| then After(d, TornInstall(s, k)) else After(Installed(d, s), Reopen(k))
  }

  /** Death once the file of a snapshot that cuts the log is durable, with any `c`
      bytes of what was buffered and of the marker written: on the records it is a
      torn installation, or a crash just after the whole of it. Either way the
      process comes back with the snapshot and nothing above it. */
  method CrashInInstall(d: Storage, s: Snapshot, c: nat, rotated: bool) returns (r: Storage)
    requires d.Valid() && Inv(d.View()) && AllFramed(d.recs) && Cuts(Visible(d.View()), s)
    requires FramedSnap(s) && Small(s) && c <= |d.buf + Frame(d.crc, Encode(Marker(s)))|
    ensures fresh(r) && r.Valid() && Inv(r.View()) && AllWritable(r.recs)
    ensures d.synced <= |d.recs| && Marked(d, s, c) <= |d.recs| + 1 && r.View() == CutShort(d.View(), s, Marked(d, s, c))
    ensures r.snapshot == s && r.entries == []
  {
    hide Inv, Newest, KeptRecs, Whole, Replay, Laid, FramedSnap, Small, SnapFile, Frame, Encode, Writable, Framed,
         Cuts, Sound;
    var buf := d.buf + Frame(d.crc, Encode(Marker(s)));
    var snaps := d.snaps + [SnapFile(d.crc, StoredSnap(s, true))];
    NewestAdded(d.crc, d.snaps, StoredSnap(s, true));
    LaidBounds(d.crc, d.segs, d.groups, d.buf, d.recs, d.synced);
    LaidMore(d.crc, d.segs, d.groups, d.buf, d.recs, d.synced, Marker(s));
    InstallReplays(d.View(), s);
    MarkerFramed(d.recs, s);
    CrashLeaves(d.crc, s.index, d.segs, d.groups, buf, d.recs + [Marker(s)], d.synced, c, rotated);
    CutShortIs(d.View(), s, Marked(d, s, c));
    r := Storage.Open(d.crc, d.maxSegment, snaps, CrashFiles(d.segs, buf, c, rotated));
  }

  lemma InstallReplays(d: Disk, s: Snapshot)
    requires Inv(d) && Cuts(Visible(d), s)
    ensures Replay(s.index, d.recs + [Marker(s)]) == Some([])
  {
    hide Inv, Replay;
    InvBounds(d);
    InvSnap(d);
    assert d.recs[..|d.recs|] == d.recs;
    ReplayLater(d, s.index, |d.recs|);
    CutReplay(s.index, d.recs, s.term);
  }

  lemma MarkerFramed(recs: seq<Record>, s: Snapshot)
    requires AllFramed(recs) && FramedSnap(s)
    ensures AllFramed(recs + [Marker(s)])
  {
    MarkerFits(s);
    WritableFramed(Marker(s));
  }

  lemma NoMarker(d: Disk, s: Snapshot, k: nat)
    requires Inv(d) && Cuts(Visible(d), s) && k <= |d.recs|
    ensures CutMissing(StoredSnap(s, true), d.recs[..k])
  {
    hide Inv;
    InvBounds(d);
    InvSnap(d);
    assert MarkersBelow(d.st.snap.index, d.recs);
  }

  lemma CutShortIs(d: Disk, s: Snapshot, k: nat)
    requires Inv(d) && Cuts(Visible(d), s) && k <= |d.recs| + 1
    ensures Replay(s.index, (d.recs + [Marker(s)])[..k]).Some?
    ensures CutShort(d, s, k) == Restarted(StoredSnap(s, true), (d.recs + [Marker(s)])[..k]) && Inv(CutShort(d, s, k))
    ensures CutShort(d, s, k).mirror.snap == s && CutShort(d, s, k).mirror.entries == []
  {
    hide Inv, Replay, LastHard;
    var all := d.recs + [Marker(s)];
    InvSnap(d);
    if k <= |d.recs| {
      assert all[..k] == d.recs[..k];
      RestartsAt(d, s.index, k);
      RestartKeeps(StoredSnap(s, true), d.recs[..k]);
      NoMarker(d, s, k);
    } else {
      assert all[..k] == all;
      InstallReplays(d, s);
      InstallKeeps(d, s);
      var d' := Installed(d, s);
      assert d'.recs == all && d'.recs[..k] == all;
      AfterKeeps(d', Reopen(k));
    }
  }
}
