/** The storage's files: snapshot files, and what recovery keeps of the log's
    segments. */
module DiskFiles {
  import opened RaftTypes
  import opened PlainLog
  import opened BigEndian
  import opened WalFraming
  import opened WalReplay
  import opened DiskRuns

  // ----- snapshot files -----

  function SnapPayload(st: StoredSnap): Bytes {
    Put(st.snap.index, 8) + Put(st.snap.term, 8) + Put(|st.snap.data|, 4) + st.snap.data + [if st.trunc then 1 else 0]
  }

  /** Accepts the form above, and the older one without the flag byte. */
  function ParseSnap(p: Bytes): Option<StoredSnap> {
    if |p| < 20 then None
    else
      var end := 20 + Get(p[16..20]);
      if |p| != end && |p| != end + 1 then None
      else if |p| == end + 1 && p[end] > 1 then None
      else Some(StoredSnap(Snapshot(Get(p[0..8]), Get(p[8..16]), p[20..end]), |p| == end + 1 && p[end] == 1))
  }

  predicate FitsSnap(st: StoredSnap) {
    && st.snap.index < Pow256(8) && st.snap.term < Pow256(8) && |st.snap.data| < Pow256(4)
    && |SnapPayload(st)| <= MAX_PAYLOAD
  }

  /** A snapshot whose file can say its length. */
  predicate FramedSnap(s: Snapshot) {
    s.index < Pow256(8) && s.term < Pow256(8) && 21 + |s.data| < Pow256(4)
  }

  /** A snapshot within the size bound. */
  predicate Small(s: Snapshot) { 21 + |s.data| <= MAX_PAYLOAD }

  lemma PayloadSize(st: StoredSnap)
    ensures |SnapPayload(st)| == 21 + |st.snap.data|
    ensures FramedSnap(st.snap) ==> (FitsSnap(st) <==> Small(st.snap))
  {
  }

  lemma SnapRoundTrip(st: StoredSnap)
    requires FitsSnap(st)
    ensures ParseSnap(SnapPayload(st)) == Some(st)
  {
    var i, t, n, f := Put(st.snap.index, 8), Put(st.snap.term, 8), Put(|st.snap.data|, 4), [if st.trunc then 1 else 0];
    var p := i + t + n + st.snap.data + f;
    var end := 20 + |st.snap.data|;
    assert p[0..8] == i && p[8..16] == t && p[16..20] == n && p[20..end] == st.snap.data && p[end] == f[0];
    GetPutFits(st.snap.index, 8);
    GetPutFits(st.snap.term, 8);
    GetPutFits(|st.snap.data|, 4);
  }

  function SnapFile(crc: Bytes -> nat, st: StoredSnap): Bytes { Frame(crc, SnapPayload(st)) }

  function ReadSnap(crc: Bytes -> nat, file: Bytes): Option<StoredSnap> {
    match ReadFrame(crc, file)
    case None => None
    case Some((p, _)) => ParseSnap(p)
  }

  lemma SnapFileReads(crc: Bytes -> nat, st: StoredSnap)
    requires FitsSnap(st)
    ensures ReadSnap(crc, SnapFile(crc, st)) == Some(st)
  {
    Widths();
    FrameReads(crc, SnapPayload(st), []);
    assert SnapFile(crc, st) + [] == SnapFile(crc, st);
    SnapRoundTrip(st);
  }

  /** A snapshot file over the size bound is not read. */
  lemma OversizedUnread(crc: Bytes -> nat, st: StoredSnap)
    requires FramedSnap(st.snap) && !Small(st.snap)
    ensures ReadSnap(crc, SnapFile(crc, st)) == None
  {
    hide SnapPayload;
    PayloadSize(st);
    FrameReads(crc, SnapPayload(st), []);
    assert SnapFile(crc, st) + [] == SnapFile(crc, st);
  }

  /** The newest intact snapshot of files in ascending order. */
  function Newest(crc: Bytes -> nat, files: seq<Bytes>): StoredSnap {
    if files == [] then StoredSnap(NO_SNAPSHOT, false)
    else
      match ReadSnap(crc, files[|files| - 1])
      case Some(st) => st
      case None => Newest(crc, files[..|files| - 1])
  }

  // ----- segments -----

  /** The records recovery takes from one segment on top of `es`, up to the
      first frame that is torn, does not decode, or leaves a gap. */
  function Kept(crc: Bytes -> nat, s: nat, es: Log, buf: Bytes): (seq<Record>, nat)
    decreases |buf|
  {
    match ReadFrame(crc, buf)
    case None => ([], 0)
    case Some((p, n)) =>
      match Decode(p)
      case None => ([], 0)
      case Some(r) =>
        match ApplyRec(s, es, r)
        case None => ([], 0)
        case Some(es') => var (rs, m) := Kept(crc, s, es', buf[n..]); ([r] + rs, n + m)
  }

  lemma {:induction false} FoldCons(s: nat, es: Log, r: Record, rs: seq<Record>)
    ensures Fold(s, es, [r] + rs) ==
      match ApplyRec(s, es, r) case None => None case Some(es') => Fold(s, es', rs)
    decreases |rs|
  {
    if rs == [] {
      assert ([r] + rs)[..0] == [] && [r] + rs == [r];
    } else {
      assert ([r] + rs)[..|rs|] == [r] + rs[..|rs| - 1];
      FoldCons(s, es, r, rs[..|rs| - 1]);
    }
  }

  /** What is kept can be replayed, and is byte for byte what was there. */
  lemma {:induction false} KeptIsReal(crc: Bytes -> nat, s: nat, es: Log, buf: Bytes)
    ensures var (rs, m) := Kept(crc, s, es, buf);
      Fold(s, es, rs).Some? && m <= |buf| && buf[..m] == Frames(crc, rs) && AllWritable(rs)
    decreases |buf|
  {
    hide Encode, Decode, ApplyRec, ReadFrame, Frame, Writable, Fold;
    EmptyFold(s, es);
    if ReadFrame(crc, buf).Some? {
      ReadIsReal(crc, buf);
      var (p, n) := ReadFrame(crc, buf).value;
      if Decode(p).Some? && ApplyRec(s, es, Decode(p).value).Some? {
        var r := Decode(p).value;
        DecodedFits(p);
        var es' := ApplyRec(s, es, r).value;
        KeptIsReal(crc, s, es', buf[n..]);
        var (rs, m) := Kept(crc, s, es', buf[n..]);
        FoldCons(s, es, r, rs);
        assert ([r] + rs)[1..] == rs;
        assert buf[..n + m] == buf[..n] + buf[n..][..m];
      }
    }
  }

  lemma EmptyFold(s: nat, es: Log)
    ensures Fold(s, es, []) == Some(es)
  {
  }

  lemma ReadIsReal(crc: Bytes -> nat, buf: Bytes)
    requires ReadFrame(crc, buf).Some?
    ensures var (p, n) := ReadFrame(crc, buf).value;
      0 < n <= |buf| && buf[..n] == Frame(crc, p) && 0 < |p| <= MAX_PAYLOAD
  {
    var (p, n) := ReadFrame(crc, buf).value;
    PutGet(buf[0..4]);
    PutGet(buf[4..8]);
    assert buf[..n] == buf[0..4] + buf[4..8] + buf[8..n];
  }

  lemma DecodedFits(p: Bytes)
    requires Decode(p).Some? && |p| <= MAX_PAYLOAD
    ensures Writable(Decode(p).value) && Encode(Decode(p).value) == p
  {
    RecordStrict(p);
  }

  /** With no gap in the way, recovery keeps all that parses. */
  lemma {:induction false} KeptIsParsed(crc: Bytes -> nat, s: nat, es: Log, buf: Bytes)
    requires Fold(s, es, Parse(crc, buf).0).Some?
    ensures Kept(crc, s, es, buf) == Parse(crc, buf)
    decreases |buf|
  {
    hide Decode, ApplyRec, ReadFrame, Fold;
    if ReadFrame(crc, buf).Some? {
      var (p, n) := ReadFrame(crc, buf).value;
      ReadIsReal(crc, buf);
      if Decode(p).Some? {
        var r := Decode(p).value;
        var rs := Parse(crc, buf[n..]).0;
        FoldCons(s, es, r, rs);
        KeptIsParsed(crc, s, ApplyRec(s, es, r).value, buf[n..]);
      }
    }
  }

  /** The records recovery takes from all segments: a torn one ends the log. */
  function KeptRecs(crc: Bytes -> nat, s: nat, es: Log, segs: seq<Bytes>): seq<Record>
    decreases segs
  {
    if segs == [] then []
    else
      var (rs, m) := Kept(crc, s, es, segs[0]);
      var es' := Fold(s, es, rs);
      if m < |segs[0]| || es'.None? then rs else rs + KeptRecs(crc, s, es'.value, segs[1..])
  }

  lemma {:induction false} KeptRecsFold(crc: Bytes -> nat, s: nat, es: Log, segs: seq<Bytes>)
    ensures Fold(s, es, KeptRecs(crc, s, es, segs)).Some?
    decreases segs
  {
    hide Kept;
    EmptyFold(s, es);
    if segs != [] {
      var (rs, m) := Kept(crc, s, es, segs[0]);
      KeptIsReal(crc, s, es, segs[0]);
      if m == |segs[0]| {
        var es' := Fold(s, es, rs).value;
        KeptRecsFold(crc, s, es', segs[1..]);
        FoldSplit(s, es, rs, KeptRecs(crc, s, es', segs[1..]));
      }
    }
  }
}
