/** The state machine and the strict cursor it is decoded with, as objects
    updated in place. */
module KvStore {
  import opened RaftTypes
  import opened BigEndian
  import opened Ordering
  import opened KvMachine
  import opened KvCodec
  import opened KvSnapshot

  /** Bytes being decoded and how far the decoding has come. A read that wants
      more than is left fails and moves nothing. */
  class Decoder {
    const buf: Bytes
    var off: nat

    predicate Valid()
      reads this
    {
      off <= |buf|
    }

    function Rest(): Bytes
      requires Valid()
      reads this
    {
      buf[off..]
    }

    constructor (buf: Bytes)
      ensures this.buf == buf && Valid() && Rest() == buf
    {
      this.buf := buf;
      off := 0;
    }

    function Remaining(): (n: nat)
      requires Valid()
      reads this
      ensures n == |Rest()|
    {
      |buf| - off
    }

    method ReadOne() returns (ok: bool, b: Byte)
      requires Valid()
      modifies this`off
      ensures Valid()
      ensures var p := ReadByte(old(Rest())); ok == p.Got? && (ok ==> b == p.value && Rest() == p.rest)
    {
      if Remaining() < 1 {
        return false, 0;
      }
      b := buf[off];
      off := off + 1;
      ok := true;
    }

    method ReadNumber(w: nat) returns (ok: bool, x: nat)
      requires Valid()
      modifies this`off
      ensures Valid()
      ensures var p := ReadInt(old(Rest()), w); ok == p.Got? && (ok ==> x == p.value && Rest() == p.rest)
    {
      if Remaining() < w {
        return false, 0;
      }
      assert buf[off..off + w] == Rest()[..w];
      x := Get(buf[off..off + w]);
      off := off + w;
      ok := true;
    }

    method ReadExactly(n: nat) returns (ok: bool, b: Bytes)
      requires Valid()
      modifies this`off
      ensures Valid()
      ensures var p := ReadBytes(old(Rest()), n); ok == p.Got? && (ok ==> b == p.value && Rest() == p.rest)
    {
      if Remaining() < n {
        return false, [];
      }
      b := buf[off..off + n];
      off := off + n;
      ok := true;
    }

    method ReadText() returns (ok: bool, s: Bytes)
      requires Valid()
      modifies this`off
      ensures Valid()
      ensures var p := ReadString(old(Rest())); ok == p.Got? && (ok ==> s == p.value && Rest() == p.rest)
    {
      var okN, n := ReadNumber(4);
      if !okN {
        return false, [];
      }
      ok, s := ReadExactly(n);
    }

    method ReadSlice() returns (ok: bool, o: OptBytes)
      requires Valid()
      modifies this`off
      ensures Valid()
      ensures var p := ReadOpt(old(Rest())); ok == p.Got? && (ok ==> o == p.value && Rest() == p.rest)
    {
      var okF, flag := ReadOne();
      if !okF {
        return false, None;
      }
      if flag == 0 {
        return true, None;
      }
      if flag != 1 {
        return false, None;
      }
      var okS, s := ReadText();
      return okS, Some(s);
    }
  }

  method DecodeHead(d: Decoder) returns (ok: bool, h: (nat, nat, OpKind))
    requires d.Valid()
    modifies d`off
    ensures d.Valid()
    ensures var p := ReadHead(old(d.Rest())); ok == p.Got? && (ok ==> h == p.value && d.Rest() == p.rest)
  {
    hide ReadInt, ReadByte, OpOf;
    var ok1, version := d.ReadOne();
    if !ok1 || version != VERSION { return false, (0, 0, OpGet); }
    var ok2, client := d.ReadNumber(8);
    if !ok2 { return false, (0, 0, OpGet); }
    var ok3, seqNo := d.ReadNumber(8);
    if !ok3 { return false, (0, 0, OpGet); }
    var ok4, op := d.ReadOne();
    if !ok4 || OpOf(op).None? { return false, (0, 0, OpGet); }
    return true, (client, seqNo, OpOf(op).value);
  }

  method DecodeWith(d: Decoder) returns (ok: bool, c: Command)
    requires d.Valid()
    modifies d`off
    ensures d.Valid()
    ensures var p := ReadCommand(old(d.Rest())); ok == p.Got? && (ok ==> c == p.value && d.Rest() == p.rest)
  {
    hide ReadHead, ReadString, ReadOpt;
    c := Command(0, 0, OpGet, [], None, None);
    var ok1, head := DecodeHead(d);
    if !ok1 { return false, c; }
    var ok2, key := d.ReadText();
    if !ok2 { return false, c; }
    var ok3, value := d.ReadSlice();
    if !ok3 { return false, c; }
    var ok4, wanted := d.ReadSlice();
    return ok4, Command(head.0, head.1, head.2, key, value, wanted);
  }

  /** Decoding a committed command with the cursor. */
  method Decode(b: Bytes) returns (r: Option<Command>)
    ensures r == DecodeCommand(b)
  {
    hide ReadCommand;
    var d := new Decoder(b);
    var ok, c := DecodeWith(d);
    if !ok || d.Remaining() != 0 {
      return None;
    }
    return Some(c);
  }

  class StateMachine {
    var data: Data
    var sessions: map<nat, Session>

    function View(): Machine
      reads this
    {
      Machine(data, sessions)
    }

    constructor ()
      ensures View() == EMPTY
    {
      data, sessions := map[], map[];
    }

    function Get(key: Key): Result
      reads this
    {
      if key in data then Result(Ok, data[key].value, data[key].version) else Result(NotFound, None, 0)
    }

    /** Executes a committed command once; replays the answer of a retry. */
    method Apply(c: Command) returns (r: Result)
      modifies this
      ensures View() == Applied(old(View()), c) && r == Reply(old(View()), c)
    {
      if c.client in sessions {
        var s := sessions[c.client];
        if c.seqNo == s.lastSeq {
          return s.lastResult;
        } else if c.seqNo < s.lastSeq {
          return Result(StaleSeq, None, 0);
        }
      }
      r := Execute(c);
      sessions := sessions[c.client := Session(c.seqNo, r)];
    }

    method Execute(c: Command) returns (r: Result)
      modifies this`data
      ensures data == Stored(old(data), c) && r == Answer(old(data), c)
    {
      match c.op
      case OpGet =>
        r := Get(c.key);
      case OpPut =>
        var version := (if c.key in data then data[c.key].version else 0) + 1;
        data := data[c.key := ValueRecord(c.value, version)];
        r := Result(Ok, None, version);
      case OpDelete =>
        if c.key !in data {
          return Result(NotFound, None, 0);
        }
        data := data - {c.key};
        r := Result(Ok, None, 0);
      case OpCas =>
        r := CompareAndSet(c);
    }

    method CompareAndSet(c: Command) returns (r: Result)
      requires c.op.OpCas?
      modifies this`data
      ensures data == Stored(old(data), c) && r == Answer(old(data), c)
    {
      if c.wanted.None? {
        if c.key in data {
          return Result(CasMismatch, data[c.key].value, data[c.key].version);
        }
      } else {
        if c.key !in data {
          return Result(CasMismatch, None, 0);
        }
        if Content(data[c.key].value) != Content(c.wanted) {
          return Result(CasMismatch, data[c.key].value, data[c.key].version);
        }
      }
      var version := (if c.key in data then data[c.key].version else 0) + 1;
      data := data[c.key := ValueRecord(c.value, version)];
      r := Result(Ok, None, version);
    }

    /** The state in bytes; the order in which the maps are walked does not show. */
    method Snapshot() returns (b: Bytes)
      ensures IsSnapshot(View(), b)
    {
      hide EncSessions, EncKeys, StrictOrder;
      BelowOrders();
      BeforeOrders();
      var ids := Sort(Below, sessions.Keys);
      var ks := Sort(Before, data.Keys);
      var ss := WriteSessions(ids);
      var kk := WriteKeys(ks);
      b := [VERSION] + (Put(|ids|, 8) + (ss + (Put(|ks|, 8) + kk)));
      assert Writes(View(), ids, ks, b);
    }

    method WriteSessions(ids: seq<nat>) returns (b: Bytes)
      requires forall i | 0 <= i < |ids| :: ids[i] in sessions
      ensures b == EncSessions(sessions, ids)
    {
      hide EncSession;
      b := [];
      var i := 0;
      while i < |ids|
        invariant 0 <= i <= |ids|
        invariant b + EncSessions(sessions, ids[i..]) == EncSessions(sessions, ids)
      {
        assert ids[i..][1..] == ids[i + 1..];
        b := b + EncSession(ids[i], sessions[ids[i]]);
        i := i + 1;
      }
    }

    method WriteKeys(ks: seq<Key>) returns (b: Bytes)
      requires forall i | 0 <= i < |ks| :: ks[i] in data
      ensures b == EncKeys(data, ks)
    {
      hide EncKey;
      b := [];
      var i := 0;
      while i < |ks|
        invariant 0 <= i <= |ks|
        invariant b + EncKeys(data, ks[i..]) == EncKeys(data, ks)
      {
        assert ks[i..][1..] == ks[i + 1..];
        b := b + EncKey(ks[i], data[ks[i]]);
        i := i + 1;
      }
    }

    /** Replaces the state; a payload that is refused leaves it as it was. */
    method Restore(b: Bytes) returns (ok: bool)
      modifies this
      ensures ok == Restored(b).Some?
      ensures View() == if ok then Restored(b).value else old(View())
    {
      var m := ReadWhole(b);
      if m.None? {
        return false;
      }
      data, sessions := m.value.data, m.value.sessions;
      return true;
    }

    static method ReadWhole(b: Bytes) returns (m: Option<Machine>)
      ensures m == Restored(b)
    {
      hide ReadMachine;
      var d := new Decoder(b);
      var ok, r := ReadMachineWith(d);
      if !ok || d.Remaining() != 0 {
        return None;
      }
      return Some(r);
    }

    static method ReadMachineWith(d: Decoder) returns (ok: bool, m: Machine)
      requires d.Valid()
      modifies d`off
      ensures d.Valid()
      ensures var p := ReadMachine(old(d.Rest())); ok == p.Got? && (ok ==> m == p.value && d.Rest() == p.rest)
    {
      hide ReadSessionTable, ReadKeyTable, ReadByte;
      m := EMPTY;
      var okV, version := d.ReadOne();
      if !okV || version != VERSION {
        return false, m;
      }
      var okS, newSessions := RestoreSessionTable(d);
      if !okS {
        return false, m;
      }
      var okD, newData := RestoreKeyTable(d);
      return okD, Machine(newData, newSessions);
    }

    static method RestoreSessionTable(d: Decoder) returns (ok: bool, m: map<nat, Session>)
      requires d.Valid()
      modifies d`off
      ensures d.Valid()
      ensures var p := ReadSessionTable(old(d.Rest())); ok == p.Got? && (ok ==> m == p.value && d.Rest() == p.rest)
    {
      hide ReadInt, ReadSessions;
      var okN, n := d.ReadNumber(8);
      if !okN || n > d.Remaining() / SESSION_SIZE {
        return false, map[];
      }
      ok, m := RestoreSessions(d, n);
    }

    static method RestoreKeyTable(d: Decoder) returns (ok: bool, m: Data)
      requires d.Valid()
      modifies d`off
      ensures d.Valid()
      ensures var p := ReadKeyTable(old(d.Rest())); ok == p.Got? && (ok ==> m == p.value && d.Rest() == p.rest)
    {
      hide ReadInt, ReadKeys;
      var okN, n := d.ReadNumber(8);
      if !okN || n > d.Remaining() / KEY_SIZE {
        return false, map[];
      }
      ok, m := RestoreKeys(d, n);
    }

    static method RestoreSessions(d: Decoder, n: nat) returns (ok: bool, m: map<nat, Session>)
      requires d.Valid()
      modifies d`off
      ensures d.Valid()
      ensures var p := ReadSessions(old(d.Rest()), n, map[]); ok == p.Got? && (ok ==> m == p.value && d.Rest() == p.rest)
    {
      hide ReadInt, ReadByte, ReadOpt;
      m := map[];
      var i := 0;
      while i < n
        invariant 0 <= i <= n && d.Valid()
        invariant ReadSessions(old(d.Rest()), n, map[]) == ReadSessions(d.Rest(), n - i, m)
      {
        ghost var was := d.Rest();
        var ok1, id := d.ReadNumber(8);
        if !ok1 { return false, m; }
        var ok2, lastSeq := d.ReadNumber(8);
        if !ok2 { return false, m; }
        var ok3, status := d.ReadOne();
        if !ok3 { return false, m; }
        var ok4, value := d.ReadSlice();
        if !ok4 { return false, m; }
        var ok5, version := d.ReadNumber(8);
        if !ok5 { return false, m; }
        assert ReadSession(was) == Got((id, Session(lastSeq, Result(StatusOf(status), value, version))), d.Rest());
        m := m[id := Session(lastSeq, Result(StatusOf(status), value, version))];
        i := i + 1;
      }
      return true, m;
    }

    static method RestoreKeys(d: Decoder, n: nat) returns (ok: bool, m: Data)
      requires d.Valid()
      modifies d`off
      ensures d.Valid()
      ensures var p := ReadKeys(old(d.Rest()), n, map[]); ok == p.Got? && (ok ==> m == p.value && d.Rest() == p.rest)
    {
      hide ReadInt, ReadString, ReadOpt;
      m := map[];
      var i := 0;
      while i < n
        invariant 0 <= i <= n && d.Valid()
        invariant ReadKeys(old(d.Rest()), n, map[]) == ReadKeys(d.Rest(), n - i, m)
      {
        ghost var was := d.Rest();
        var ok1, key := d.ReadText();
        if !ok1 { return false, m; }
        var ok2, value := d.ReadSlice();
        if !ok2 { return false, m; }
        var ok3, version := d.ReadNumber(8);
        if !ok3 { return false, m; }
        assert ReadKey(was) == Got((key, ValueRecord(value, version)), d.Rest());
        m := m[key := ValueRecord(value, version)];
        i := i + 1;
      }
      return true, m;
    }
  }
}
