/** The binary encodings: big-endian integers, length-prefixed strings, and
    byte slices with a flag that keeps nil apart from empty. */
module KvCodec {
  import opened RaftTypes
  import opened BigEndian
  import opened KvMachine

  const VERSION: Byte := 1

  /** The result of reading a value off the front of a buffer. */
  datatype Parsed<T> = Fail | Got(value: T, rest: Bytes)

  // ----- primitives -----

  function EncString(s: Bytes): Bytes { Put(|s|, 4) + s }

  function EncOpt(o: OptBytes): Bytes { if o.None? then [0] else [1] + EncString(o.value) }

  function ReadByte(b: Bytes): Parsed<Byte> { if |b| < 1 then Fail else Got(b[0], b[1..]) }

  function ReadInt(b: Bytes, w: nat): Parsed<nat> { if |b| < w then Fail else Got(Get(b[..w]), b[w..]) }

  function ReadBytes(b: Bytes, n: nat): Parsed<Bytes> { if |b| < n then Fail else Got(b[..n], b[n..]) }

  function ReadString(b: Bytes): Parsed<Bytes> {
    match ReadInt(b, 4)
    case Fail => Fail
    case Got(n, rest) => ReadBytes(rest, n)
  }

  function ReadOpt(b: Bytes): Parsed<OptBytes> {
    match ReadByte(b)
    case Fail => Fail
    case Got(flag, rest) =>
      if flag == 0 then Got(None, rest)
      else if flag == 1 then
        match ReadString(rest)
        case Fail => Fail
        case Got(v, rest') => Got(Some(v), rest')
      else Fail
  }

  predicate FitsOpt(o: OptBytes) { o.Some? ==> |o.value| < Pow256(4) }

  lemma ReadIntBack(x: nat, w: nat, rest: Bytes)
    requires x < Pow256(w)
    ensures ReadInt(Put(x, w) + rest, w) == Got(x, rest)
  {
    assert (Put(x, w) + rest)[..w] == Put(x, w) && (Put(x, w) + rest)[w..] == rest;
    GetPutFits(x, w);
  }

  lemma ReadIntStrict(b: Bytes, w: nat)
    requires ReadInt(b, w).Got?
    ensures ReadInt(b, w).value < Pow256(w) && b == Put(ReadInt(b, w).value, w) + ReadInt(b, w).rest
  {
    PutGet(b[..w]);
    assert b == b[..w] + b[w..];
  }

  lemma ReadStringBack(s: Bytes, rest: Bytes)
    requires |s| < Pow256(4)
    ensures ReadString(EncString(s) + rest) == Got(s, rest)
  {
    hide ReadInt;
    assert EncString(s) + rest == Put(|s|, 4) + (s + rest);
    ReadIntBack(|s|, 4, s + rest);
    assert (s + rest)[..|s|] == s && (s + rest)[|s|..] == rest;
  }

  lemma ReadStringStrict(b: Bytes)
    requires ReadString(b).Got?
    ensures |ReadString(b).value| < Pow256(4) && b == EncString(ReadString(b).value) + ReadString(b).rest
  {
    hide ReadInt;
    ReadIntStrict(b, 4);
    var n, rest := ReadInt(b, 4).value, ReadInt(b, 4).rest;
    assert rest == rest[..n] + rest[n..];
    assert b == Put(n, 4) + (rest[..n] + rest[n..]);
  }

  lemma ReadOptBack(o: OptBytes, rest: Bytes)
    requires FitsOpt(o)
    ensures ReadOpt(EncOpt(o) + rest) == Got(o, rest)
  {
    hide ReadString, EncString;
    if o.Some? {
      var b := EncOpt(o) + rest;
      assert b[1..] == EncString(o.value) + rest;
      ReadStringBack(o.value, rest);
    }
  }

  lemma ReadOptStrict(b: Bytes)
    requires ReadOpt(b).Got?
    ensures FitsOpt(ReadOpt(b).value) && b == EncOpt(ReadOpt(b).value) + ReadOpt(b).rest
  {
    hide ReadString, EncString;
    assert b == [b[0]] + b[1..];
    if b[0] == 1 {
      ReadStringStrict(b[1..]);
      assert b == [1] + (EncString(ReadString(b[1..]).value) + ReadString(b[1..]).rest);
    }
  }

  // ----- commands -----

  function OpByte(o: OpKind): Byte { match o case OpGet => 1 case OpPut => 2 case OpDelete => 3 case OpCas => 4 }

  function OpOf(b: Byte): Option<OpKind> {
    if b == 1 then Some(OpGet) else if b == 2 then Some(OpPut)
    else if b == 3 then Some(OpDelete) else if b == 4 then Some(OpCas) else None
  }

  function EncodeCommand(c: Command): Bytes {
    [VERSION] + (Put(c.client, 8) + (Put(c.seqNo, 8) + ([OpByte(c.op)]
      + (EncString(c.key) + (EncOpt(c.value) + EncOpt(c.wanted))))))
  }

  function ReadHead(b: Bytes): Parsed<(nat, nat, OpKind)> {
    match ReadByte(b)
    case Fail => Fail
    case Got(version, b1) =>
    if version != VERSION then Fail else
    match ReadInt(b1, 8)
    case Fail => Fail
    case Got(client, b2) =>
    match ReadInt(b2, 8)
    case Fail => Fail
    case Got(seqNo, b3) =>
    match ReadByte(b3)
    case Fail => Fail
    case Got(op, b4) => if OpOf(op).None? then Fail else Got((client, seqNo, OpOf(op).value), b4)
  }

  function ReadCommand(b: Bytes): Parsed<Command> {
    match ReadHead(b)
    case Fail => Fail
    case Got((client, seqNo, op), b4) =>
    match ReadString(b4)
    case Fail => Fail
    case Got(key, b5) =>
    match ReadOpt(b5)
    case Fail => Fail
    case Got(value, b6) =>
    match ReadOpt(b6)
    case Fail => Fail
    case Got(wanted, b7) => Got(Command(client, seqNo, op, key, value, wanted), b7)
  }

  /** Strict: the whole input must be one command. */
  function DecodeCommand(b: Bytes): Option<Command> {
    match ReadCommand(b)
    case Fail => None
    case Got(c, rest) => if rest == [] then Some(c) else None
  }

  predicate FitsCommand(c: Command) {
    && c.client < Pow256(8) && c.seqNo < Pow256(8) && |c.key| < Pow256(4)
    && FitsOpt(c.value) && FitsOpt(c.wanted)
  }

  lemma ReadByteBack(x: Byte, rest: Bytes)
    ensures ReadByte([x] + rest) == Got(x, rest)
  {
    assert ([x] + rest)[1..] == rest;
  }

  lemma Assoc(a: Bytes, b: Bytes, c: Bytes)
    ensures (a + b) + c == a + (b + c)
  {
  }

  lemma CommandLayout(c: Command, rest: Bytes)
    ensures EncodeCommand(c) + rest ==
      [VERSION] + (Put(c.client, 8) + (Put(c.seqNo, 8) + ([OpByte(c.op)]
        + (EncString(c.key) + (EncOpt(c.value) + (EncOpt(c.wanted) + rest))))))
  {
    hide EncString, EncOpt;
    var t6 := EncOpt(c.wanted);
    var t5 := EncOpt(c.value) + t6;
    var t4 := EncString(c.key) + t5;
    var t3 := [OpByte(c.op)] + t4;
    var t2 := Put(c.seqNo, 8) + t3;
    var t1 := Put(c.client, 8) + t2;
    Assoc([VERSION], t1, rest);
    Assoc(Put(c.client, 8), t2, rest);
    Assoc(Put(c.seqNo, 8), t3, rest);
    Assoc([OpByte(c.op)], t4, rest);
    Assoc(EncString(c.key), t5, rest);
    Assoc(EncOpt(c.value), t6, rest);
  }

  /** A command is read back off the front of any buffer that starts with it. */
  lemma ReadCommandBack(c: Command, rest: Bytes)
    requires FitsCommand(c)
    ensures ReadCommand(EncodeCommand(c) + rest) == Got(c, rest)
  {
    hide EncString, EncOpt, ReadInt, ReadString, ReadOpt, ReadByte, EncodeCommand;
    CommandLayout(c, rest);
    var b6 := EncOpt(c.wanted) + rest;
    var b5 := EncOpt(c.value) + b6;
    var b4 := EncString(c.key) + b5;
    var b3 := [OpByte(c.op)] + b4;
    var b2 := Put(c.seqNo, 8) + b3;
    var b1 := Put(c.client, 8) + b2;
    ReadByteBack(VERSION, b1);
    ReadIntBack(c.client, 8, b2);
    ReadIntBack(c.seqNo, 8, b3);
    ReadByteBack(OpByte(c.op), b4);
    ReadStringBack(c.key, b5);
    ReadOptBack(c.value, b6);
    ReadOptBack(c.wanted, rest);
  }

  /** Whatever is accepted is the encoding of what it decodes to. */
  lemma ReadCommandStrict(b: Bytes)
    requires ReadCommand(b).Got?
    ensures FitsCommand(ReadCommand(b).value) && b == EncodeCommand(ReadCommand(b).value) + ReadCommand(b).rest
  {
    hide EncString, EncOpt, ReadInt, ReadString, ReadOpt, EncodeCommand, FitsOpt;
    var c, rest := ReadCommand(b).value, ReadCommand(b).rest;
    var b1 := b[1..];
    var b2 := ReadInt(b1, 8).rest;
    var b3 := ReadInt(b2, 8).rest;
    var b4 := b3[1..];
    var b5 := ReadString(b4).rest;
    var b6 := ReadOpt(b5).rest;
    ReadIntStrict(b1, 8);
    ReadIntStrict(b2, 8);
    ReadStringStrict(b4);
    ReadOptStrict(b5);
    ReadOptStrict(b6);
    assert b == [VERSION] + b1 && b3 == [OpByte(c.op)] + b4;
    CommandLayout(c, rest);
  }

  /** Decoding inverts encoding. */
  lemma CommandRoundTrip(c: Command)
    requires FitsCommand(c)
    ensures DecodeCommand(EncodeCommand(c)) == Some(c)
  {
    hide ReadCommand, EncodeCommand;
    assert EncodeCommand(c) + [] == EncodeCommand(c);
    ReadCommandBack(c, []);
  }

  /** Encoding inverts every accepted decoding. */
  lemma CommandStrict(b: Bytes)
    requires DecodeCommand(b).Some?
    ensures FitsCommand(DecodeCommand(b).value) && EncodeCommand(DecodeCommand(b).value) == b
  {
    hide ReadCommand, EncodeCommand;
    ReadCommandStrict(b);
    var e := EncodeCommand(DecodeCommand(b).value);
    assert e + [] == e;
  }

  /** No strict prefix and no strict extension of an encoding is accepted. */
  lemma CommandUnambiguous(c: Command, b: Bytes)
    requires FitsCommand(c) && b != EncodeCommand(c) && (b <= EncodeCommand(c) || EncodeCommand(c) <= b)
    ensures DecodeCommand(b) == None
  {
    hide ReadCommand, EncodeCommand, FitsCommand;
    var e := EncodeCommand(c);
    if e <= b {
      assert b == e + b[|e|..];
      ReadCommandBack(c, b[|e|..]);
    } else if DecodeCommand(b).Some? {
      CommandStrict(b);
      var c' := DecodeCommand(b).value;
      assert e == EncodeCommand(c') + e[|b|..];
      ReadCommandBack(c', e[|b|..]);
      assert e + [] == e;
      ReadCommandBack(c, []);
    }
  }
}
