/** Snapshots of the state machine: sessions and keys, each in ascending order. */
module KvSnapshot {
  import opened RaftTypes
  import opened BigEndian
  import opened Ordering
  import opened KvMachine
  import opened KvCodec

  const SESSION_SIZE := 26
  const KEY_SIZE := 13

  function StatusByte(s: Status): Byte {
    match s case Ok => 0 case NotFound => 1 case CasMismatch => 2 case StaleSeq => 3 case OtherStatus(b) => b
  }

  function StatusOf(b: Byte): Status {
    if b == 0 then Ok else if b == 1 then NotFound else if b == 2 then CasMismatch else if b == 3 then StaleSeq
    else OtherStatus(b)
  }

  // ----- sessions -----

  function EncSession(id: nat, s: Session): Bytes {
    Put(id, 8) + (Put(s.lastSeq, 8) + ([StatusByte(s.lastResult.status)]
      + (EncOpt(s.lastResult.value) + Put(s.lastResult.version, 8))))
  }

  function ReadSession(b: Bytes): Parsed<(nat, Session)> {
    match ReadInt(b, 8)
    case Fail => Fail
    case Got(id, b1) =>
    match ReadInt(b1, 8)
    case Fail => Fail
    case Got(lastSeq, b2) =>
    match ReadByte(b2)
    case Fail => Fail
    case Got(status, b3) =>
    match ReadOpt(b3)
    case Fail => Fail
    case Got(value, b4) =>
    match ReadInt(b4, 8)
    case Fail => Fail
    case Got(version, b5) => Got((id, Session(lastSeq, Result(StatusOf(status), value, version))), b5)
  }

  predicate FitsSession(id: nat, s: Session) {
    && id < Pow256(8) && s.lastSeq < Pow256(8) && s.lastResult.version < Pow256(8)
    && FitsOpt(s.lastResult.value) && StatusOf(StatusByte(s.lastResult.status)) == s.lastResult.status
  }

  lemma ReadSessionBack(id: nat, s: Session, rest: Bytes)
    requires FitsSession(id, s)
    ensures ReadSession(EncSession(id, s) + rest) == Got((id, s), rest)
    ensures |EncSession(id, s)| >= SESSION_SIZE
  {
    hide ReadInt, ReadByte, ReadOpt, EncOpt;
    var r := s.lastResult;
    var t4 := Put(r.version, 8);
    var t3 := EncOpt(r.value) + t4;
    var t2 := [StatusByte(r.status)] + t3;
    var t1 := Put(s.lastSeq, 8) + t2;
    Assoc(Put(id, 8), t1, rest);
    Assoc(Put(s.lastSeq, 8), t2, rest);
    Assoc([StatusByte(r.status)], t3, rest);
    Assoc(EncOpt(r.value), t4, rest);
    ReadIntBack(id, 8, t1 + rest);
    ReadIntBack(s.lastSeq, 8, t2 + rest);
    ReadByteBack(StatusByte(r.status), t3 + rest);
    ReadOptBack(r.value, t4 + rest);
    ReadIntBack(r.version, 8, rest);
    OptSize(r.value);
  }

  lemma OptSize(o: OptBytes)
    ensures |EncOpt(o)| >= 1
  {
  }

  function EncSessions(m: map<nat, Session>, ids: seq<nat>): Bytes
    requires forall i | 0 <= i < |ids| :: ids[i] in m
  {
    if ids == [] then [] else EncSession(ids[0], m[ids[0]]) + EncSessions(m, ids[1..])
  }

  function ReadSessions(b: Bytes, n: nat, acc: map<nat, Session>): Parsed<map<nat, Session>>
    decreases n
  {
    if n == 0 then Got(acc, b)
    else match ReadSession(b)
      case Fail => Fail
      case Got((id, s), rest) => ReadSessions(rest, n - 1, acc[id := s])
  }

  // ----- keys -----

  function EncKey(k: Key, r: ValueRecord): Bytes { EncString(k) + (EncOpt(r.value) + Put(r.version, 8)) }

  function ReadKey(b: Bytes): Parsed<(Key, ValueRecord)> {
    match ReadString(b)
    case Fail => Fail
    case Got(k, b1) =>
    match ReadOpt(b1)
    case Fail => Fail
    case Got(value, b2) =>
    match ReadInt(b2, 8)
    case Fail => Fail
    case Got(version, b3) => Got((k, ValueRecord(value, version)), b3)
  }

  predicate FitsKey(k: Key, r: ValueRecord) { |k| < Pow256(4) && r.version < Pow256(8) && FitsOpt(r.value) }

  lemma ReadKeyBack(k: Key, r: ValueRecord, rest: Bytes)
    requires FitsKey(k, r)
    ensures ReadKey(EncKey(k, r) + rest) == Got((k, r), rest)
    ensures |EncKey(k, r)| >= KEY_SIZE
  {
    hide ReadInt, ReadString, ReadOpt, EncOpt;
    var t2 := Put(r.version, 8);
    var t1 := EncOpt(r.value) + t2;
    Assoc(EncString(k), t1, rest);
    Assoc(EncOpt(r.value), t2, rest);
    ReadStringBack(k, t1 + rest);
    ReadOptBack(r.value, t2 + rest);
    ReadIntBack(r.version, 8, rest);
    OptSize(r.value);
  }

  function EncKeys(m: Data, ks: seq<Key>): Bytes
    requires forall i | 0 <= i < |ks| :: ks[i] in m
  {
    if ks == [] then [] else EncKey(ks[0], m[ks[0]]) + EncKeys(m, ks[1..])
  }

  function ReadKeys(b: Bytes, n: nat, acc: Data): Parsed<Data>
    decreases n
  {
    if n == 0 then Got(acc, b)
    else match ReadKey(b)
      case Fail => Fail
      case Got((k, r), rest) => ReadKeys(rest, n - 1, acc[k := r])
  }

  // ----- the whole machine -----

  function SnapBytes(m: Machine, ids: seq<nat>, ks: seq<Key>): Bytes
    requires (forall i | 0 <= i < |ids| :: ids[i] in m.sessions) && (forall i | 0 <= i < |ks| :: ks[i] in m.data)
  {
    [VERSION] + (Put(|ids|, 8) + (EncSessions(m.sessions, ids) + (Put(|ks|, 8) + EncKeys(m.data, ks))))
  }

  /** `b` is the machine written with clients and keys in ascending order. */
  ghost predicate IsSnapshot(m: Machine, b: Bytes) {
    exists ids: seq<nat>, ks: seq<Key> :: Writes(m, ids, ks, b)
  }

  ghost predicate Writes(m: Machine, ids: seq<nat>, ks: seq<Key>, b: Bytes) {
    Lists(Below, ids, m.sessions.Keys) && Lists(Before, ks, m.data.Keys) && b == SnapBytes(m, ids, ks)
  }

  /** Identical states produce identical bytes. */
  lemma SnapshotDeterministic(m: Machine, a: Bytes, b: Bytes)
    requires IsSnapshot(m, a) && IsSnapshot(m, b)
    ensures a == b
  {
    hide SnapBytes, StrictOrder, Lists;
    var ids, ks :| Writes(m, ids, ks, a);
    var ids', ks' :| Writes(m, ids', ks', b);
    BelowOrders();
    BeforeOrders();
    ListingUnique(Below, ids, ids', m.sessions.Keys);
    ListingUnique(Before, ks, ks', m.data.Keys);
  }

  /** A count the input cannot hold is refused before anything is read. */
  function ReadSessionTable(b: Bytes): Parsed<map<nat, Session>> {
    match ReadInt(b, 8)
    case Fail => Fail
    case Got(n, rest) => if n > |rest| / SESSION_SIZE then Fail else ReadSessions(rest, n, map[])
  }

  function ReadKeyTable(b: Bytes): Parsed<Data> {
    match ReadInt(b, 8)
    case Fail => Fail
    case Got(n, rest) => if n > |rest| / KEY_SIZE then Fail else ReadKeys(rest, n, map[])
  }

  function ReadMachine(b: Bytes): Parsed<Machine> {
    match ReadByte(b)
    case Fail => Fail
    case Got(version, b1) =>
    if version != VERSION then Fail else
    match ReadSessionTable(b1)
    case Fail => Fail
    case Got(sessions, b2) =>
    match ReadKeyTable(b2)
    case Fail => Fail
    case Got(data, b3) => Got(Machine(data, sessions), b3)
  }

  function Restored(b: Bytes): Option<Machine> {
    match ReadMachine(b)
    case Fail => None
    case Got(m, rest) => if rest == [] then Some(m) else None
  }

  predicate FitsMachine(m: Machine) {
    && |m.sessions.Keys| < Pow256(8) && |m.data.Keys| < Pow256(8)
    && (forall id | id in m.sessions :: FitsSession(id, m.sessions[id]))
    && (forall k | k in m.data :: FitsKey(k, m.data[k]))
  }

  lemma {:induction false} ReadSessionsBack(m: map<nat, Session>, ids: seq<nat>, acc: map<nat, Session>, rest: Bytes)
    requires forall i | 0 <= i < |ids| :: ids[i] in m && FitsSession(ids[i], m[ids[i]])
    requires forall id | id in acc :: id in m && acc[id] == m[id]
    ensures |EncSessions(m, ids)| >= SESSION_SIZE * |ids|
    ensures var r := ReadSessions(EncSessions(m, ids) + rest, |ids|, acc);
      && r.Got? && r.rest == rest
      && (forall id :: id in r.value <==> id in acc || id in ids) && (forall id | id in r.value :: id in m && r.value[id] == m[id])
    decreases |ids|
  {
    hide EncSession, ReadSession, FitsSession;
    if ids == [] {
      assert [] + rest == rest;
    } else {
      var id := ids[0];
      var tail := EncSessions(m, ids[1..]);
      Assoc(EncSession(id, m[id]), tail, rest);
      ReadSessionBack(id, m[id], tail + rest);
      ReadSessionsBack(m, ids[1..], acc[id := m[id]], rest);
      assert ids == [id] + ids[1..];
    }
  }

  lemma {:induction false} ReadKeysBack(m: Data, ks: seq<Key>, acc: Data, rest: Bytes)
    requires forall i | 0 <= i < |ks| :: ks[i] in m && FitsKey(ks[i], m[ks[i]])
    requires forall k | k in acc :: k in m && acc[k] == m[k]
    ensures |EncKeys(m, ks)| >= KEY_SIZE * |ks|
    ensures var r := ReadKeys(EncKeys(m, ks) + rest, |ks|, acc);
      && r.Got? && r.rest == rest
      && (forall k :: k in r.value <==> k in acc || k in ks) && (forall k | k in r.value :: k in m && r.value[k] == m[k])
    decreases |ks|
  {
    hide EncKey, ReadKey, FitsKey;
    if ks == [] {
      assert [] + rest == rest;
    } else {
      var k := ks[0];
      var tail := EncKeys(m, ks[1..]);
      Assoc(EncKey(k, m[k]), tail, rest);
      ReadKeyBack(k, m[k], tail + rest);
      ReadKeysBack(m, ks[1..], acc[k := m[k]], rest);
      assert ks == [k] + ks[1..];
    }
  }

  lemma {:induction false} ListingSize<T(!new)>(lt: (T, T) -> bool, s: seq<T>, all: set<T>)
    requires StrictOrder(lt) && Lists(lt, s, all)
    ensures |s| == |all|
    decreases |s|
  {
    hide StrictOrder;
    ListsNone(lt, s, all);
    if s != [] {
      TailLists(lt, s, all);
      ListingSize(lt, s[1..], all - {s[0]});
      assert s[0] in all;
    }
  }

  lemma SessionsRead(m: Machine, ids: seq<nat>, rest: Bytes)
    requires FitsMachine(m) && Lists(Below, ids, m.sessions.Keys)
    ensures |ids| < Pow256(8) && |EncSessions(m.sessions, ids)| >= SESSION_SIZE * |ids|
    ensures ReadSessions(EncSessions(m.sessions, ids) + rest, |ids|, map[]) == Got(m.sessions, rest)
  {
    hide FitsSession, FitsKey, EncSessions, ReadSessions;
    BelowOrders();
    ListingSize(Below, ids, m.sessions.Keys);
    ReadSessionsBack(m.sessions, ids, map[], rest);
    var r := ReadSessions(EncSessions(m.sessions, ids) + rest, |ids|, map[]).value;
    assert r == m.sessions;
  }

  lemma KeysRead(m: Machine, ks: seq<Key>, rest: Bytes)
    requires FitsMachine(m) && Lists(Before, ks, m.data.Keys)
    ensures |ks| < Pow256(8) && |EncKeys(m.data, ks)| >= KEY_SIZE * |ks|
    ensures ReadKeys(EncKeys(m.data, ks) + rest, |ks|, map[]) == Got(m.data, rest)
  {
    hide FitsSession, FitsKey, EncKeys, ReadKeys;
    BeforeOrders();
    ListingSize(Before, ks, m.data.Keys);
    ReadKeysBack(m.data, ks, map[], rest);
    var r := ReadKeys(EncKeys(m.data, ks) + rest, |ks|, map[]).value;
    assert r == m.data;
  }

  /** The count guards let through any count the input can hold. */
  lemma GuardsPass(n: nat, len: nat)
    ensures len >= SESSION_SIZE * n ==> n <= len / SESSION_SIZE
    ensures len >= KEY_SIZE * n ==> n <= len / KEY_SIZE
  {
  }

  /** Restoring a snapshot gives back the machine it was taken of; in
      particular the count guards never refuse it. */
  lemma SnapshotRoundTrip(m: Machine, b: Bytes)
    requires FitsMachine(m) && IsSnapshot(m, b)
    ensures Restored(b) == Some(m)
  {
    hide FitsMachine, EncSessions, EncKeys, ReadSessions, ReadKeys, ReadInt, ReadByte;
    var ids, ks :| Writes(m, ids, ks, b);
    var t4 := EncKeys(m.data, ks);
    var t3 := Put(|ks|, 8) + t4;
    var t2 := EncSessions(m.sessions, ids) + t3;
    var t1 := Put(|ids|, 8) + t2;
    SessionsRead(m, ids, t3);
    KeysRead(m, ks, []);
    ReadByteBack(VERSION, t1);
    ReadIntBack(|ids|, 8, t2);
    GuardsPass(|ids|, |t2|);
    ReadIntBack(|ks|, 8, t4);
    GuardsPass(|ks|, |t4|);
    assert t4 + [] == t4;
  }

  // ----- what is refused -----

  /** A reader that succeeds looks no further. */
  lemma OptFurther(b: Bytes, more: Bytes)
    requires ReadOpt(b).Got?
    ensures ReadOpt(b + more) == Got(ReadOpt(b).value, ReadOpt(b).rest + more)
  {
    hide ReadString;
    assert (b + more)[1..] == b[1..] + more;
    if b[0] == 1 { StringFurther(b[1..], more); }
  }

  lemma IntFurther(b: Bytes, w: nat, more: Bytes)
    requires ReadInt(b, w).Got?
    ensures ReadInt(b + more, w) == Got(ReadInt(b, w).value, ReadInt(b, w).rest + more)
  {
    assert (b + more)[..w] == b[..w] && (b + more)[w..] == b[w..] + more;
  }

  lemma StringFurther(b: Bytes, more: Bytes)
    requires ReadString(b).Got?
    ensures ReadString(b + more) == Got(ReadString(b).value, ReadString(b).rest + more)
  {
    hide ReadInt;
    IntFurther(b, 4, more);
    var n, rest := ReadInt(b, 4).value, ReadInt(b, 4).rest;
    assert (rest + more)[..n] == rest[..n] && (rest + more)[n..] == rest[n..] + more;
  }

  lemma SessionFurther(b: Bytes, more: Bytes)
    requires ReadSession(b).Got?
    ensures ReadSession(b + more) == Got(ReadSession(b).value, ReadSession(b).rest + more)
  {
    hide ReadInt, ReadOpt;
    IntFurther(b, 8, more);
    var b1 := ReadInt(b, 8).rest;
    IntFurther(b1, 8, more);
    var b2 := ReadInt(b1, 8).rest;
    assert (b2 + more)[1..] == b2[1..] + more;
    OptFurther(b2[1..], more);
    IntFurther(ReadOpt(b2[1..]).rest, 8, more);
  }

  lemma KeyFurther(b: Bytes, more: Bytes)
    requires ReadKey(b).Got?
    ensures ReadKey(b + more) == Got(ReadKey(b).value, ReadKey(b).rest + more)
  {
    hide ReadInt, ReadOpt, ReadString;
    StringFurther(b, more);
    OptFurther(ReadString(b).rest, more);
    IntFurther(ReadOpt(ReadString(b).rest).rest, 8, more);
  }

  lemma {:induction false} SessionsFurther(b: Bytes, n: nat, acc: map<nat, Session>, more: Bytes)
    requires ReadSessions(b, n, acc).Got?
    ensures ReadSessions(b + more, n, acc) == Got(ReadSessions(b, n, acc).value, ReadSessions(b, n, acc).rest + more)
    decreases n
  {
    hide ReadSession;
    if n > 0 {
      SessionFurther(b, more);
      var (id, s) := ReadSession(b).value;
      SessionsFurther(ReadSession(b).rest, n - 1, acc[id := s], more);
    }
  }

  lemma {:induction false} KeysFurther(b: Bytes, n: nat, acc: Data, more: Bytes)
    requires ReadKeys(b, n, acc).Got?
    ensures ReadKeys(b + more, n, acc) == Got(ReadKeys(b, n, acc).value, ReadKeys(b, n, acc).rest + more)
    decreases n
  {
    hide ReadKey;
    if n > 0 {
      KeyFurther(b, more);
      var (k, r) := ReadKey(b).value;
      KeysFurther(ReadKey(b).rest, n - 1, acc[k := r], more);
    }
  }

  lemma MachineFurther(b: Bytes, more: Bytes)
    requires ReadMachine(b).Got?
    ensures ReadMachine(b + more) == Got(ReadMachine(b).value, ReadMachine(b).rest + more)
  {
    hide ReadInt, ReadSessions, ReadKeys;
    var b1 := b[1..];
    assert (b + more)[1..] == b1 + more;
    IntFurther(b1, 8, more);
    SessionsFurther(ReadInt(b1, 8).rest, ReadInt(b1, 8).value, map[], more);
    var b2 := ReadSessionTable(b1).rest;
    IntFurther(b2, 8, more);
    KeysFurther(ReadInt(b2, 8).rest, ReadInt(b2, 8).value, map[], more);
  }

  /** No strict prefix and no strict extension of a snapshot is accepted, and
      nothing of another version. */
  lemma SnapshotUnambiguous(m: Machine, b: Bytes, p: Bytes)
    requires FitsMachine(m) && IsSnapshot(m, b) && p != b
    ensures p <= b || b <= p ==> Restored(p) == None
    ensures p != [] && p[0] != 1 ==> Restored(p) == None
  {
    hide ReadSessionTable, ReadKeyTable, FitsMachine, IsSnapshot;
    SnapshotRoundTrip(m, b);
    if b <= p {
      assert p == b + p[|b|..] && p[|b|..] != [];
      MachineFurther(b, p[|b|..]);
    } else if p <= b && Restored(p).Some? {
      assert b == p + b[|p|..] && b[|p|..] != [];
      MachineFurther(p, b[|p|..]);
    }
  }
}
