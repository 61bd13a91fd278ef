/** The write-ahead log's bytes: typed records inside length-prefixed,
    checksummed frames. The checksum is any function of the payload; a cut at any
    byte is recognised by length alone. */
module WalFraming {
  import opened RaftTypes
  import opened PlainLog
  import opened BigEndian

  const HEADER := 8
  const MAX_PAYLOAD := 0x400_0000

  datatype Record =
    | EntryRec(e: Entry)
    | HardRec(h: HardState)
    | TruncRec(index: nat, term: nat)

  // ----- records -----

  function KindByte(k: EntryKind): Byte {
    match k case Normal => 0 case Noop => 1 case Other(b) => b
  }

  function KindOf(b: Byte): EntryKind {
    if b == 0 then Normal else if b == 1 then Noop else Other(b)
  }

  function Encode(r: Record): Bytes {
    match r
    case EntryRec(e) => [1] + Put(e.term, 8) + Put(e.index, 8) + [KindByte(e.kind)] + Put(|e.data|, 4) + e.data
    case HardRec(h) => [2] + Put(h.term, 8) + Put(h.vote, 8) + Put(h.commit, 8)
    case TruncRec(index, term) => [3] + Put(index, 8) + Put(term, 8)
  }

  function DecodeEntry(body: Bytes): Option<Entry> {
    if |body| < 21 then None
    else if 21 + Get(body[17..21]) != |body| then None
    else Some(Entry(Get(body[0..8]), Get(body[8..16]), KindOf(body[16]), body[21..]))
  }

  function Decode(payload: Bytes): Option<Record> {
    if payload == [] then None
    else
      var body := payload[1..];
      if payload[0] == 1 then
        match DecodeEntry(body) case None => None case Some(e) => Some(EntryRec(e))
      else if payload[0] == 2 then
        if |body| != 24 then None
        else Some(HardRec(HardState(Get(body[0..8]), Get(body[8..16]), Get(body[16..24]))))
      else if payload[0] == 3 then
        if |body| != 16 then None else Some(TruncRec(Get(body[0..8]), Get(body[8..16])))
      else None
  }

  /** The widths of the fields the source's types give them. */
  predicate Fits(r: Record) {
    match r
    case EntryRec(e) =>
      && e.term < Pow256(8) && e.index < Pow256(8) && |e.data| < Pow256(4)
      && KindOf(KindByte(e.kind)) == e.kind
    case HardRec(h) => h.term < Pow256(8) && h.vote < Pow256(8) && h.commit < Pow256(8)
    case TruncRec(index, term) => index < Pow256(8) && term < Pow256(8)
  }

  lemma EntryRoundTrip(e: Entry)
    requires Fits(EntryRec(e))
    ensures DecodeEntry(Encode(EntryRec(e))[1..]) == Some(e)
  {
    var t, i, k, n := Put(e.term, 8), Put(e.index, 8), [KindByte(e.kind)], Put(|e.data|, 4);
    var body := t + i + k + n + e.data;
    assert Encode(EntryRec(e))[1..] == body;
    assert body[0..8] == t && body[8..16] == i && body[16] == k[0] && body[17..21] == n && body[21..] == e.data;
    GetPutFits(e.term, 8);
    GetPutFits(e.index, 8);
    GetPutFits(|e.data|, 4);
  }

  lemma HardRoundTrip(h: HardState)
    requires Fits(HardRec(h))
    ensures Decode(Encode(HardRec(h))) == Some(HardRec(h))
  {
    var t, v, c := Put(h.term, 8), Put(h.vote, 8), Put(h.commit, 8);
    var body := t + v + c;
    assert Encode(HardRec(h))[1..] == body;
    assert body[0..8] == t && body[8..16] == v && body[16..24] == c;
    GetPutFits(h.term, 8);
    GetPutFits(h.vote, 8);
    GetPutFits(h.commit, 8);
  }

  lemma TruncRoundTrip(index: nat, term: nat)
    requires Fits(TruncRec(index, term))
    ensures Decode(Encode(TruncRec(index, term))) == Some(TruncRec(index, term))
  {
    var i, t := Put(index, 8), Put(term, 8);
    var body := i + t;
    assert Encode(TruncRec(index, term))[1..] == body;
    assert body[0..8] == i && body[8..16] == t;
    GetPutFits(index, 8);
    GetPutFits(term, 8);
  }

  /** Decoding inverts encoding. */
  lemma RecordRoundTrip(r: Record)
    requires Fits(r)
    ensures Decode(Encode(r)) == Some(r)
  {
    match r
    case EntryRec(e) => EntryRoundTrip(e);
    case HardRec(h) => HardRoundTrip(h);
    case TruncRec(index, term) => TruncRoundTrip(index, term);
  }

  lemma EntryStrict(body: Bytes)
    requires DecodeEntry(body).Some?
    ensures var e := DecodeEntry(body).value; Fits(EntryRec(e)) && Encode(EntryRec(e)) == [1] + body
  {
    PutGet(body[0..8]);
    PutGet(body[8..16]);
    PutGet(body[17..21]);
    assert body == body[0..8] + body[8..16] + [body[16]] + body[17..21] + body[21..];
    var e := DecodeEntry(body).value;
    assert [1] + body == [1] + body[0..8] + body[8..16] + [body[16]] + body[17..21] + body[21..];
  }

  lemma HardStrict(body: Bytes)
    requires |body| == 24
    ensures var h := HardState(Get(body[0..8]), Get(body[8..16]), Get(body[16..24]));
      Fits(HardRec(h)) && Encode(HardRec(h)) == [2] + body
  {
    PutGet(body[0..8]);
    PutGet(body[8..16]);
    PutGet(body[16..24]);
    assert [2] + body == [2] + body[0..8] + body[8..16] + body[16..24];
  }

  lemma TruncStrict(body: Bytes)
    requires |body| == 16
    ensures var r := TruncRec(Get(body[0..8]), Get(body[8..16])); Fits(r) && Encode(r) == [3] + body
  {
    PutGet(body[0..8]);
    PutGet(body[8..16]);
    assert [3] + body == [3] + body[0..8] + body[8..16];
  }

  /** Encoding inverts decoding: a payload is accepted only if it is the
      encoding of what it decodes to. */
  lemma RecordStrict(payload: Bytes)
    requires Decode(payload).Some?
    ensures Fits(Decode(payload).value) && Encode(Decode(payload).value) == payload
  {
    hide Get, Encode, Fits, DecodeEntry;
    var body := payload[1..];
    assert payload == [payload[0]] + body;
    if payload[0] == 1 {
      EntryStrict(body);
    } else if payload[0] == 2 {
      HardStrict(body);
    } else {
      TruncStrict(body);
    }
  }

  // ----- frames -----

  function Sum(crc: Bytes -> nat, p: Bytes): nat { crc(p) % Pow256(4) }

  function Frame(crc: Bytes -> nat, p: Bytes): Bytes { Put(|p|, 4) + Put(Sum(crc, p), 4) + p }

  /** The payload of the frame at the head of `buf` and the bytes it takes;
      none when the frame is incomplete, oversized or fails its checksum. */
  function ReadFrame(crc: Bytes -> nat, buf: Bytes): Option<(Bytes, nat)> {
    if HEADER > |buf| then None
    else
      var n := Get(buf[0..4]);
      if n == 0 || n > MAX_PAYLOAD || HEADER + n > |buf| then None
      else
        var p := buf[HEADER..HEADER + n];
        if Sum(crc, p) != Get(buf[4..8]) then None else Some((p, HEADER + n))
  }

  lemma FrameShape(crc: Bytes -> nat, p: Bytes, rest: Bytes)
    requires |p| < Pow256(4)
    ensures var b := Frame(crc, p) + rest;
      && |Frame(crc, p)| == HEADER + |p| && Get(b[0..4]) == |p| && Get(b[4..8]) == Sum(crc, p)
      && b[HEADER..HEADER + |p|] == p
  {
    var b := Frame(crc, p) + rest;
    assert b[0..4] == Put(|p|, 4) && b[4..8] == Put(Sum(crc, p), 4);
    GetPutFits(|p|, 4);
    GetPutFits(Sum(crc, p), 4);
  }

  /** A written frame reads back exactly when its payload is not empty and not
      over the size bound; a larger one is taken for the end of the log. */
  lemma FrameReads(crc: Bytes -> nat, p: Bytes, rest: Bytes)
    requires |p| < Pow256(4)
    ensures 0 < |p| <= MAX_PAYLOAD ==> ReadFrame(crc, Frame(crc, p) + rest) == Some((p, HEADER + |p|))
    ensures !(0 < |p| <= MAX_PAYLOAD) ==> ReadFrame(crc, Frame(crc, p) + rest) == None
  {
    FrameShape(crc, p, rest);
  }

  /** Any strict prefix of a frame is recognised as torn. */
  lemma TornFrame(crc: Bytes -> nat, p: Bytes, k: nat)
    requires |p| < Pow256(4) && k < |Frame(crc, p)|
    ensures ReadFrame(crc, Frame(crc, p)[..k]) == None
  {
    FrameShape(crc, p, []);
    assert Frame(crc, p) + [] == Frame(crc, p);
    if k >= HEADER { assert Frame(crc, p)[..k][0..4] == Frame(crc, p)[0..4]; }
  }

  // ----- whole logs -----

  /** A record whose frame can say its length. */
  predicate Framed(r: Record) { Fits(r) && |Encode(r)| < Pow256(4) }

  predicate AllFramed(rs: seq<Record>) { forall i | 0 <= i < |rs| :: Framed(rs[i]) }

  /** A record the reader will accept. */
  predicate Writable(r: Record) { Fits(r) && |Encode(r)| <= MAX_PAYLOAD }

  predicate AllWritable(rs: seq<Record>) { forall i | 0 <= i < |rs| :: Writable(rs[i]) }

  function Frames(crc: Bytes -> nat, rs: seq<Record>): Bytes {
    if rs == [] then [] else Frame(crc, Encode(rs[0])) + Frames(crc, rs[1..])
  }

  /** The records up to the first bad frame, and the bytes they take. */
  function Parse(crc: Bytes -> nat, buf: Bytes): (seq<Record>, nat)
    decreases |buf|
  {
    match ReadFrame(crc, buf)
    case None => ([], 0)
    case Some((p, n)) =>
      match Decode(p)
      case None => ([], 0)
      case Some(r) => var (rs, m) := Parse(crc, buf[n..]); ([r] + rs, n + m)
  }

  /** How many whole frames lie within the first `k` bytes. */
  function Whole(crc: Bytes -> nat, rs: seq<Record>, k: nat): (j: nat)
    ensures j <= |rs|
  {
    if rs == [] then 0
    else
      var n := |Frame(crc, Encode(rs[0]))|;
      if n > k then 0 else 1 + Whole(crc, rs[1..], k - n)
  }

  /** How many of the leading records the reader accepts. */
  function Sound(rs: seq<Record>): (j: nat)
    ensures j <= |rs| && AllWritable(rs[..j]) && (j < |rs| ==> !Writable(rs[j]))
  {
    if rs == [] || !Writable(rs[0]) then 0
    else
      var j := 1 + Sound(rs[1..]);
      assert rs[..j] == [rs[0]] + rs[1..][..j - 1];
      j
  }

  lemma EncodedSize(r: Record)
    requires Framed(r)
    ensures 0 < |Encode(r)|
  {
  }

  lemma WritableFramed(r: Record)
    requires Writable(r)
    ensures Framed(r)
  {
    Widths();
  }

  lemma ParseStep(crc: Bytes -> nat, r: Record, rest: Bytes)
    requires Writable(r)
    ensures var (rs, m) := Parse(crc, rest);
      Parse(crc, Frame(crc, Encode(r)) + rest) == ([r] + rs, |Frame(crc, Encode(r))| + m)
  {
    hide Encode, Decode, Fits, Frame, ReadFrame;
    WritableFramed(r);
    EncodedSize(r);
    FrameShape(crc, Encode(r), rest);
    FrameReads(crc, Encode(r), rest);
    RecordRoundTrip(r);
    var f := Frame(crc, Encode(r));
    assert (f + rest)[|f|..] == rest;
  }

  lemma ParseTorn(crc: Bytes -> nat, r: Record, k: nat)
    requires Framed(r) && k < |Frame(crc, Encode(r))|
    ensures Parse(crc, Frame(crc, Encode(r))[..k]) == ([], 0)
  {
    hide Encode, Decode, Fits, Frame, ReadFrame;
    TornFrame(crc, Encode(r), k);
  }

  /** A record that is too large ends the log for the reader. */
  lemma ParseOversized(crc: Bytes -> nat, r: Record, rest: Bytes)
    requires Framed(r) && !Writable(r)
    ensures Parse(crc, Frame(crc, Encode(r)) + rest) == ([], 0)
  {
    hide Encode, Decode, Fits, Frame, ReadFrame;
    FrameReads(crc, Encode(r), rest);
  }

  /** Cutting a log at any byte leaves exactly its whole frames, up to the first
      that holds a record over the size bound. */
  lemma {:induction false} CutLogParses(crc: Bytes -> nat, rs: seq<Record>, k: nat)
    requires AllFramed(rs) && k <= |Frames(crc, rs)|
    ensures var j := Min(Whole(crc, rs, k), Sound(rs)); Parse(crc, Frames(crc, rs)[..k]) == (rs[..j], |Frames(crc, rs[..j])|)
    decreases rs
  {
    hide Writable, Framed, Encode, Decode, Frame, Parse;
    if rs == [] {
      EmptyParses(crc);
    } else {
      var f, tail := Frame(crc, Encode(rs[0])), Frames(crc, rs[1..]);
      assert Framed(rs[0]);
      if |f| > k {
        assert (f + tail)[..k] == f[..k];
        ParseTorn(crc, rs[0], k);
      } else if !Writable(rs[0]) {
        assert (f + tail)[..k] == f + tail[..k - |f|];
        ParseOversized(crc, rs[0], tail[..k - |f|]);
      } else {
        var j := Min(Whole(crc, rs[1..], k - |f|), Sound(rs[1..]));
        assert (f + tail)[..k] == f + tail[..k - |f|];
        ParseStep(crc, rs[0], tail[..k - |f|]);
        CutLogParses(crc, rs[1..], k - |f|);
        assert rs[..j + 1] == [rs[0]] + rs[1..][..j];
        assert rs[..j + 1][1..] == rs[1..][..j];
      }
    }
  }

  lemma EmptyParses(crc: Bytes -> nat)
    ensures Parse(crc, []) == ([], 0)
  {
  }

  /** The whole frames within a prefix grow with it, and a log holds all of its own. */
  lemma {:induction false} WholeFrames(crc: Bytes -> nat, rs: seq<Record>, j: nat, k: nat)
    requires j <= |rs| && |Frames(crc, rs[..j])| <= k
    ensures Whole(crc, rs, k) >= j
    decreases rs
  {
    hide Encode, Frame;
    if j > 0 {
      assert rs[..j][1..] == rs[1..][..j - 1];
      WholeFrames(crc, rs[1..], j - 1, k - |Frame(crc, Encode(rs[0]))|);
    }
  }

  lemma {:induction false} FramesJoin(crc: Bytes -> nat, a: seq<Record>, b: seq<Record>)
    ensures Frames(crc, a + b) == Frames(crc, a) + Frames(crc, b)
    decreases a
  {
    if a == [] {
      assert a + b == b;
    } else {
      assert (a + b)[1..] == a[1..] + b;
      FramesJoin(crc, a[1..], b);
    }
  }
}
