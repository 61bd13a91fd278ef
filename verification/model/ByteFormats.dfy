/** The formats on the wire and on disk, byte by byte. */
module ByteFormats {
  import opened RaftTypes
  import opened BigEndian
  import opened PlainLog
  import opened WalFraming
  import opened WalReplay
  import opened DiskFiles
  import K = KvMachine
  import C = KvCodec
  import S = KvSnapshot

  // ----- integers -----

  /** The digits of a number to the base 256, the most significant first. */
  function Digit(x: nat, w: nat, i: nat): nat
    requires i < w
  {
    x / Pow256(w - 1 - i) % 256
  }

  /** The `w` bytes at a place are a number. */
  predicate NumberAt(b: Bytes, at: nat, w: nat, x: nat) {
    at + w <= |b| && forall i | 0 <= i < w :: b[at + i] == Digit(x, w, i)
  }

  lemma DivTwice(x: nat, m: nat)
    requires m > 0
    ensures x / 256 / m == x / (256 * m)
  {
    var q := x / 256;
    var k, s := q / m, q % m;
    assert q == m * k + s;
    assert x == 256 * q + x % 256;
    assert x == (256 * m) * k + (256 * s + x % 256);
    DivUnique(x, 256 * m, k, 256 * s + x % 256);
  }

  lemma DivUnique(x: nat, m: nat, k: nat, r: nat)
    requires m > 0 && r < m && x == m * k + r
    ensures x / m == k
  {
    ModUnique(x, m, k, r);
    assert m * (x / m) == m * k;
    if x / m != k { MultiplesApart(m, x / m - k); }
  }

  lemma {:induction false} PutDigits(x: nat, w: nat, i: nat)
    requires i < w
    ensures Put(x, w)[i] == Digit(x, w, i)
    decreases w
  {
    if i < w - 1 {
      PutDigits(x / 256, w - 1, i);
      DivTwice(x, Pow256(w - 2 - i));
    }
  }

  lemma PutNumber(b: Bytes, at: nat, w: nat, x: nat)
    requires at + w <= |b| && b[at..at + w] == Put(x, w)
    ensures NumberAt(b, at, w, x)
  {
    hide Put;
    forall i | 0 <= i < w ensures b[at + i] == Digit(x, w, i) {
      PutDigits(x, w, i);
      assert b[at..at + w][i] == b[at + i];
    }
  }

  // ----- frames and records -----

  /** A frame is the length of its payload, its checksum, and the payload. */
  lemma FrameBytes(crc: Bytes -> nat, p: Bytes)
    ensures var b := Frame(crc, p); |b| == 8 + |p| && NumberAt(b, 0, 4, |p|) && NumberAt(b, 4, 4, crc(p) % 0x1_0000_0000) && b[8..] == p
  {
    Widths();
    var b := Frame(crc, p);
    PutNumber(b, 0, 4, |p|);
    PutNumber(b, 4, 4, Sum(crc, p));
  }

  /** Frames are read up to 64 MiB. */
  lemma FrameLimit(crc: Bytes -> nat, p: Bytes, rest: Bytes)
    requires |p| < 0x1_0000_0000
    ensures ReadFrame(crc, Frame(crc, p) + rest).Some? <==> 0 < |p| <= 64 * 1024 * 1024
  {
    hide ReadFrame, Frame;
    Widths();
    FrameReads(crc, p, rest);
  }

  lemma EntryBytes(e: Entry)
    ensures var b := Encode(EntryRec(e));
      && |b| == 22 + |e.data| && b[0] == 1 && NumberAt(b, 1, 8, e.term) && NumberAt(b, 9, 8, e.index)
      && b[17] == (match e.kind case Normal => 0 case Noop => 1 case Other(k) => k)
      && NumberAt(b, 18, 4, |e.data|) && b[22..] == e.data
  {
    hide NumberAt;
    var b := Encode(EntryRec(e));
    PutNumber(b, 1, 8, e.term);
    PutNumber(b, 9, 8, e.index);
    PutNumber(b, 18, 4, |e.data|);
  }

  lemma HardBytes(h: HardState)
    ensures var b := Encode(HardRec(h));
      |b| == 25 && b[0] == 2 && NumberAt(b, 1, 8, h.term) && NumberAt(b, 9, 8, h.vote) && NumberAt(b, 17, 8, h.commit)
  {
    hide NumberAt;
    var b := Encode(HardRec(h));
    PutNumber(b, 1, 8, h.term);
    PutNumber(b, 9, 8, h.vote);
    PutNumber(b, 17, 8, h.commit);
  }

  lemma TruncBytes(index: nat, term: nat)
    ensures var b := Encode(TruncRec(index, term)); |b| == 17 && b[0] == 3 && NumberAt(b, 1, 8, index) && NumberAt(b, 9, 8, term)
  {
    hide NumberAt;
    var b := Encode(TruncRec(index, term));
    PutNumber(b, 1, 8, index);
    PutNumber(b, 9, 8, term);
  }

  /** A snapshot file: index, term, length, data, and whether it cuts the log. */
  lemma SnapFileBytes(st: StoredSnap)
    ensures var b := SnapPayload(st); var n := |st.snap.data|;
      && |b| == 21 + n && NumberAt(b, 0, 8, st.snap.index) && NumberAt(b, 8, 8, st.snap.term) && NumberAt(b, 16, 4, n)
      && b[20..20 + n] == st.snap.data && b[20 + n] == (if st.trunc then 1 else 0)
  {
    hide NumberAt;
    var b := SnapPayload(st);
    PutNumber(b, 0, 8, st.snap.index);
    PutNumber(b, 8, 8, st.snap.term);
    PutNumber(b, 16, 4, |st.snap.data|);
  }

  // ----- commands and snapshots of the store -----

  /** A string: its length and its bytes. */
  predicate TextAt(b: Bytes, at: nat, s: Bytes) {
    NumberAt(b, at, 4, |s|) && at + 4 + |s| <= |b| && b[at + 4..at + 4 + |s|] == s
  }

  /** A slice that may be nil: one byte says whether it is there. */
  predicate SliceAt(b: Bytes, at: nat, o: K.OptBytes) {
    at < |b| && if o.None? then b[at] == 0 else b[at] == 1 && TextAt(b, at + 1, o.value)
  }

  function SliceSize(o: K.OptBytes): nat { if o.None? then 1 else 5 + |o.value| }

  lemma TextBytes(pre: Bytes, s: Bytes, post: Bytes)
    ensures TextAt(pre + C.EncString(s) + post, |pre|, s) && |C.EncString(s)| == 4 + |s|
  {
    hide NumberAt;
    var b, at := pre + C.EncString(s) + post, |pre|;
    assert b[at..at + 4] == Put(|s|, 4);
    PutNumber(b, at, 4, |s|);
  }

  lemma SliceBytes(pre: Bytes, o: K.OptBytes, post: Bytes)
    ensures SliceAt(pre + C.EncOpt(o) + post, |pre|, o) && |C.EncOpt(o)| == SliceSize(o)
  {
    hide TextAt, C.EncString;
    if o.Some? {
      TextBytes(pre + [1], o.value, post);
      assert pre + C.EncOpt(o) + post == (pre + [1]) + C.EncString(o.value) + post;
    }
  }

  lemma NumberBytes(pre: Bytes, x: nat, w: nat, post: Bytes)
    ensures NumberAt(pre + Put(x, w) + post, |pre|, w, x)
  {
    hide NumberAt;
    var b, at := pre + Put(x, w) + post, |pre|;
    assert b[at..at + w] == Put(x, w);
    PutNumber(b, at, w, x);
  }

  /** A command: version, client, sequence number, operation, key, value, and what
      compare-and-set expects. */
  lemma CommandBytes(c: K.Command)
    ensures var b := C.EncodeCommand(c); var v := 22 + |c.key|; var e := v + SliceSize(c.value);
      && |b| == e + SliceSize(c.wanted) && b[0] == 1 && NumberAt(b, 1, 8, c.client) && NumberAt(b, 9, 8, c.seqNo)
      && b[17] == (match c.op case OpGet => 1 case OpPut => 2 case OpDelete => 3 case OpCas => 4)
      && TextAt(b, 18, c.key) && SliceAt(b, v, c.value) && SliceAt(b, e, c.wanted)
  {
    hide NumberAt, TextAt, SliceAt, C.EncString, C.EncOpt, SliceSize;
    var b := C.EncodeCommand(c);
    var key, value, wanted := C.EncString(c.key), C.EncOpt(c.value), C.EncOpt(c.wanted);
    var client, seqNo, op := Put(c.client, 8), Put(c.seqNo, 8), [C.OpByte(c.op)];
    var head := [C.VERSION] + client + seqNo + op;
    assert b == head + key + value + wanted;
    NumberBytes([C.VERSION], c.client, 8, seqNo + op + key + value + wanted);
    assert b == [C.VERSION] + client + (seqNo + op + key + value + wanted);
    NumberBytes([C.VERSION] + client, c.seqNo, 8, op + key + value + wanted);
    assert b == [C.VERSION] + client + seqNo + (op + key + value + wanted);
    TextBytes(head, c.key, value + wanted);
    assert b == head + key + (value + wanted);
    SliceBytes(head + key, c.value, wanted);
    SliceBytes(head + key + value, c.wanted, []);
    assert b == head + key + value + wanted + [];
  }

  /** The codes of the outcomes. */
  lemma StatusCodes(b: Byte)
    ensures S.StatusByte(K.Ok) == 0 && S.StatusByte(K.NotFound) == 1 && S.StatusByte(K.CasMismatch) == 2 && S.StatusByte(K.StaleSeq) == 3
    ensures S.StatusByte(S.StatusOf(b)) == b
  {
  }

  /** A session: client, last sequence number, and the outcome, value and version
      it was answered with. */
  lemma SessionBytes(id: nat, s: K.Session)
    ensures var b := S.EncSession(id, s); var r := s.lastResult; var v := 17 + SliceSize(r.value);
      && |b| == v + 8 && NumberAt(b, 0, 8, id) && NumberAt(b, 8, 8, s.lastSeq) && b[16] == S.StatusByte(r.status)
      && SliceAt(b, 17, r.value) && NumberAt(b, v, 8, r.version)
  {
    hide NumberAt, SliceAt, C.EncOpt, SliceSize;
    var b, r := S.EncSession(id, s), s.lastResult;
    var head, value, version := Put(id, 8) + Put(s.lastSeq, 8) + [S.StatusByte(r.status)], C.EncOpt(r.value), Put(r.version, 8);
    assert b == head + value + version;
    NumberBytes([], id, 8, Put(s.lastSeq, 8) + [S.StatusByte(r.status)] + value + version);
    assert b == [] + Put(id, 8) + (Put(s.lastSeq, 8) + [S.StatusByte(r.status)] + value + version);
    NumberBytes(Put(id, 8), s.lastSeq, 8, [S.StatusByte(r.status)] + value + version);
    assert b == Put(id, 8) + Put(s.lastSeq, 8) + ([S.StatusByte(r.status)] + value + version);
    SliceBytes(head, r.value, version);
    NumberBytes(head + value, r.version, 8, []);
    assert b == head + value + version + [];
  }

  /** A key with its value and version. */
  lemma KeyBytes(k: K.Key, r: K.ValueRecord)
    ensures var b := S.EncKey(k, r); var at := 4 + |k|; var v := at + SliceSize(r.value);
      |b| == v + 8 && TextAt(b, 0, k) && SliceAt(b, at, r.value) && NumberAt(b, v, 8, r.version)
  {
    hide NumberAt, SliceAt, TextAt, C.EncOpt, C.EncString, SliceSize;
    var b := S.EncKey(k, r);
    var key, value, version := C.EncString(k), C.EncOpt(r.value), Put(r.version, 8);
    assert b == key + value + version;
    TextBytes([], k, value + version);
    assert b == [] + key + (value + version);
    SliceBytes(key, r.value, version);
    NumberBytes(key + value, r.version, 8, []);
    assert b == key + value + version + [];
  }

  /** A snapshot of the store: version, the number of sessions, the sessions, the
      number of keys, and the keys. */
  lemma SnapshotBytes(m: K.Machine, ids: seq<nat>, ks: seq<K.Key>)
    requires (forall i | 0 <= i < |ids| :: ids[i] in m.sessions) && (forall i | 0 <= i < |ks| :: ks[i] in m.data)
    ensures var b := S.SnapBytes(m, ids, ks); var sessions := S.EncSessions(m.sessions, ids); var at := 9 + |sessions|;
      && at + 8 <= |b| && b[0] == 1 && NumberAt(b, 1, 8, |ids|) && b[9..at] == sessions
      && NumberAt(b, at, 8, |ks|) && b[at + 8..] == S.EncKeys(m.data, ks)
  {
    hide NumberAt, S.EncSessions, S.EncKeys;
    var b, sessions, keys := S.SnapBytes(m, ids, ks), S.EncSessions(m.sessions, ids), S.EncKeys(m.data, ks);
    NumberBytes([C.VERSION], |ids|, 8, sessions + Put(|ks|, 8) + keys);
    assert b == [C.VERSION] + Put(|ids|, 8) + (sessions + Put(|ks|, 8) + keys);
    NumberBytes([C.VERSION] + Put(|ids|, 8) + sessions, |ks|, 8, keys);
    assert b == [C.VERSION] + Put(|ids|, 8) + sessions + Put(|ks|, 8) + keys;
  }
}
