/** What a stored log holds at each index after an append or a snapshot, and what
    recovery finds there, without following how either is computed. */
module StoredLogs {
  import opened RaftTypes
  import opened PlainLog
  import opened WalFraming
  import opened WalReplay
  import opened DiskFiles
  import D = DiskRuns

  predicate HasAt(p: Plain, i: nat, e: Entry) { p.dummy < i <= Last(p) && p.entries[i - p.dummy - 1] == e }

  // ----- appends and snapshots -----

  /** Each incoming entry stands at its index, and what came before them is kept. */
  predicate StandsAfter(p: Plain, ents: Log, i: nat, e: Entry)
    requires ents != []
  {
    p.dummy < i && if i < ents[0].index then HasAt(p, i, e) else e in ents && e.index == i
  }

  /** An append that reaches past the boundary and leaves no gap. Nothing is held
      past its last entry, whatever was there. */
  lemma AppendStores(p: Plain, ents: Log)
    requires Proper(p) && ents != [] && Contiguous(ents, ents[0].index)
    requires p.dummy < ents[|ents| - 1].index && ents[0].index <= Last(p) + 1
    ensures var rest := Uncovered(ents, p.dummy); rest != [] && p.dummy < rest[0].index <= Last(p) + 1
    ensures var r := Spliced(p, Uncovered(ents, p.dummy));
      && r.dummy == p.dummy && r.dummyTerm == p.dummyTerm && Last(r) == ents[|ents| - 1].index && Proper(r)
      && forall i: nat, e :: HasAt(r, i, e) <==> StandsAfter(p, ents, i, e)
  {
    hide HasAt, StandsAfter, Spliced, Uncovered;
    AppendShape(p, ents);
    var r := Spliced(p, Uncovered(ents, p.dummy));
    forall i: nat, e ensures HasAt(r, i, e) <==> StandsAfter(p, ents, i, e) { AppendStoresAt(p, ents, r, i, e); }
  }

  lemma AppendShape(p: Plain, ents: Log)
    requires Proper(p) && ents != [] && Contiguous(ents, ents[0].index)
    requires p.dummy < ents[|ents| - 1].index && ents[0].index <= Last(p) + 1
    ensures var rest := Uncovered(ents, p.dummy); rest != [] && p.dummy < rest[0].index <= Last(p) + 1
    ensures var r := Spliced(p, Uncovered(ents, p.dummy));
      && r.dummy == p.dummy && r.dummyTerm == p.dummyTerm && Last(r) == ents[|ents| - 1].index && Proper(r)
      && (forall k | 0 <= k < |r.entries| && k + p.dummy + 1 < ents[0].index :: k < |p.entries| && r.entries[k] == p.entries[k])
      && forall k | 0 <= k < |r.entries| && k + p.dummy + 1 >= ents[0].index :: r.entries[k] == ents[k + p.dummy + 1 - ents[0].index]
  {
    var rest := Uncovered(ents, p.dummy);
    assert rest == ents[|ents| - |rest|..];
  }

  lemma AppendStoresAt(p: Plain, ents: Log, r: Plain, i: nat, e: Entry)
    requires ents != [] && Contiguous(ents, ents[0].index) && ents[0].index <= Last(p) + 1
    requires r.dummy == p.dummy && Last(r) == ents[|ents| - 1].index
    requires forall k | 0 <= k < |r.entries| && k + p.dummy + 1 < ents[0].index ::
      k < |p.entries| && r.entries[k] == p.entries[k]
    requires forall k | 0 <= k < |r.entries| && k + p.dummy + 1 >= ents[0].index ::
      r.entries[k] == ents[k + p.dummy + 1 - ents[0].index]
    ensures HasAt(r, i, e) <==> StandsAfter(p, ents, i, e)
  {
    if p.dummy < i && ents[0].index <= i {
      if i <= Last(r) {
        assert ents[i - ents[0].index].index == i;
        assert r.entries[i - p.dummy - 1] == ents[i - ents[0].index];
      }
      if e in ents && e.index == i {
        var k :| 0 <= k < |ents| && ents[k] == e;
        assert k == i - ents[0].index;
      }
    }
  }

  /** A newer snapshot keeps exactly what is above it, and that only if the log held
      the snapshot's term at its index. */
  lemma SnapshotStores(p: Plain, s: Snapshot)
    requires Proper(p) && s.index > p.dummy
    ensures var r := Snapshotted(p, s);
      && r.dummy == s.index && r.dummyTerm == s.term && Proper(r)
      && forall i: nat, e :: HasAt(r, i, e) <==>
           i > s.index && HasAt(p, i, e) && p.entries[s.index - p.dummy - 1].term == s.term
  {
  }

  /** The write-ahead log takes an append by the same rule, and frames one record
      for each entry the snapshot does not cover. */
  lemma DiskAppends(d: D.Disk, ents: Log)
    requires Proper(D.Visible(d)) && (ents != [] ==> Contiguous(ents, ents[0].index))
    ensures var p, r := D.Visible(d), D.After(d, D.Append(ents));
      if ents == [] || ents[|ents| - 1].index <= p.dummy || ents[0].index > Last(p) + 1 then r == d
      else
        && r == d.(mirror := r.mirror, recs := r.recs) && r.mirror == d.mirror.(entries := r.mirror.entries)
        && (forall i: nat, e :: HasAt(D.Visible(r), i, e) <==> StandsAfter(p, ents, i, e))
        && |r.recs| == |d.recs| + Min(|ents|, ents[|ents| - 1].index - p.dummy)
        && d.recs <= r.recs
        && forall j | |d.recs| <= j < |r.recs| :: r.recs[j] == EntryRec(ents[j - |r.recs| + |ents|])
  {
    var p := D.Visible(d);
    if ents != [] && ents[|ents| - 1].index > p.dummy && ents[0].index <= Last(p) + 1 {
      AppendStores(p, ents);
      var rest := Uncovered(ents, p.dummy);
      assert rest == ents[|ents| - |rest|..];
    }
  }

  // ----- replaying -----

  /** A record that takes away what a log above `s` held at `i`. */
  predicate Undoes(r: Record, s: nat, i: nat) {
    match r
    case EntryRec(e) => s < e.index <= i
    case HardRec(_) => false
    case TruncRec(index, _) => index < i
  }

  /** Record `k` wrote `e` at `i`, and no later one took it away. */
  predicate LastWrote(rs: seq<Record>, s: nat, k: nat, i: nat, e: Entry) {
    && k < |rs| && rs[k] == EntryRec(e) && e.index == i > s
    && forall j | k < j < |rs| :: !Undoes(rs[j], s, i)
  }

  function Above(s: nat, es: Log): Plain { Plain(s, 0, es) }

  /** The last writer of an index decides what is replayed at it. */
  lemma {:induction false} ReplayedMeans(s: nat, rs: seq<Record>, i: nat, e: Entry)
    requires Replay(s, rs).Some?
    ensures HasAt(Above(s, Replay(s, rs).value), i, e) <==> exists k: nat :: LastWrote(rs, s, k, i, e)
    decreases |rs|
  {
    if rs != [] {
      var init, r := rs[..|rs| - 1], rs[|rs| - 1];
      ReplayedMeans(s, init, i, e);
      ReplayedStep(s, Replay(s, init).value, r, i, e);
      if r == EntryRec(e) && e.index == i > s {
        assert LastWrote(rs, s, |rs| - 1, i, e);
      } else if !Undoes(r, s, i) {
        if k: nat :| LastWrote(init, s, k, i, e) { assert LastWrote(rs, s, k, i, e); }
      }
      if k: nat :| LastWrote(rs, s, k, i, e) {
        if k < |init| { assert LastWrote(init, s, k, i, e); }
      }
    }
  }

  lemma ReplayedStep(s: nat, es: Log, r: Record, i: nat, e: Entry)
    requires ApplyRec(s, es, r).Some?
    ensures HasAt(Above(s, ApplyRec(s, es, r).value), i, e) <==>
      (r == EntryRec(e) && e.index == i > s) || (!Undoes(r, s, i) && HasAt(Above(s, es), i, e))
  {
  }

  /** The hard state recovered is the last one written, or the zero state. */
  lemma {:induction false} HardMeans(rs: seq<Record>, k: nat)
    ensures k < |rs| && rs[k].HardRec? && (forall j | k < j < |rs| :: !rs[j].HardRec?) ==> LastHard(rs) == rs[k].h
    ensures (forall j | 0 <= j < |rs| :: !rs[j].HardRec?) ==> LastHard(rs) == HardState(0, NONE, 0)
    decreases |rs|
  {
    if rs != [] && !rs[|rs| - 1].HardRec? { HardMeans(rs[..|rs| - 1], k); }
  }

  /** The snapshot recovered is that of the last file that can be read, or none. */
  lemma {:induction false} NewestMeans(crc: Bytes -> nat, files: seq<Bytes>, j: nat)
    ensures j < |files| && ReadSnap(crc, files[j]).Some? && (forall k | j < k < |files| :: ReadSnap(crc, files[k]).None?)
      ==> Newest(crc, files) == ReadSnap(crc, files[j]).value
    ensures (forall k | 0 <= k < |files| :: ReadSnap(crc, files[k]).None?)
      ==> Newest(crc, files) == StoredSnap(D.NO_SNAPSHOT, false)
    decreases |files|
  {
    hide ReadSnap;
    if files != [] && ReadSnap(crc, files[|files| - 1]).None? { NewestMeans(crc, files[..|files| - 1], j); }
  }

  /** Recovery stops in a segment only where no record can be read that could be
      replayed next: whole, within the bound, and leaving no gap. */
  lemma {:induction false} KeptIsAll(crc: Bytes -> nat, s: nat, es: Log, buf: Bytes, r: Record, more: Bytes)
    requires Writable(r)
    requires var (rs, m) := Kept(crc, s, es, buf); m <= |buf| && buf[m..] == Frame(crc, Encode(r)) + more
    ensures var (rs, m) := Kept(crc, s, es, buf);
      Fold(s, es, rs).Some? && r.EntryRec? && r.e.index > s + |Fold(s, es, rs).value| + 1
    decreases |buf|
  {
    hide Encode, Decode, ReadFrame, Frame, Writable, Fold, ApplyRec;
    var (rs, m) := Kept(crc, s, es, buf);
    KeptIsReal(crc, s, es, buf);
    if Kept(crc, s, es, buf) == ([], 0) {
      assert buf[0..] == buf;
      RefusedOnlyForGap(crc, s, es, buf, r, more);
      EmptyFold(s, es);
    } else {
      var f := ReadFrame(crc, buf).value;
      ReadIsReal(crc, buf);
      var r0 := Decode(f.0).value;
      var es' := ApplyRec(s, es, r0).value;
      var (rs', m') := Kept(crc, s, es', buf[f.1..]);
      assert m == f.1 + m' && rs == [r0] + rs';
      KeptIsReal(crc, s, es', buf[f.1..]);
      assert buf[f.1..][m'..] == buf[m..];
      KeptIsAll(crc, s, es', buf[f.1..], r, more);
      FoldCons(s, es, r0, rs');
    }
  }

  lemma RefusedOnlyForGap(crc: Bytes -> nat, s: nat, es: Log, buf: Bytes, r: Record, more: Bytes)
    requires Writable(r) && buf == Frame(crc, Encode(r)) + more && Kept(crc, s, es, buf) == ([], 0)
    ensures r.EntryRec? && r.e.index > s + |es| + 1
  {
    hide Encode, Decode, Frame, ReadFrame;
    WritableFramed(r);
    EncodedSize(r);
    RecordRoundTrip(r);
    FrameReads(crc, Encode(r), more);
  }
}
