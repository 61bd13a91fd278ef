/** The replicated state machine: a versioned key-value store, and the session
    table that makes retried commands take effect once. */
module KvMachine {
  import opened RaftTypes

  type Key = Bytes
  // A byte slice that may be nil; nil and empty hold the same bytes.
  type OptBytes = Option<Bytes>

  datatype OpKind = OpGet | OpPut | OpDelete | OpCas

  datatype Command = Command(client: nat, seqNo: nat, op: OpKind, key: Key, value: OptBytes, wanted: OptBytes)

  datatype Status = Ok | NotFound | CasMismatch | StaleSeq | OtherStatus(code: Byte)

  datatype Result = Result(status: Status, value: OptBytes, version: nat)

  datatype ValueRecord = ValueRecord(value: OptBytes, version: nat)

  datatype Session = Session(lastSeq: nat, lastResult: Result)

  type Data = map<Key, ValueRecord>

  datatype Machine = Machine(data: Data, sessions: map<nat, Session>)

  const EMPTY := Machine(map[], map[])

  function Content(b: OptBytes): Bytes { if b.None? then [] else b.value }

  function VersionOf(d: Data, k: Key): nat { if k in d then d[k].version else 0 }

  function Lookup(d: Data, k: Key): Result {
    if k in d then Result(Ok, d[k].value, d[k].version) else Result(NotFound, None, 0)
  }

  predicate CasHits(d: Data, c: Command) {
    if c.wanted.None? then c.key !in d else c.key in d && Content(d[c.key].value) == Content(c.wanted)
  }

  /** The store after a command that is neither a retry nor stale. */
  function Stored(d: Data, c: Command): Data {
    match c.op
    case OpGet => d
    case OpPut => d[c.key := ValueRecord(c.value, VersionOf(d, c.key) + 1)]
    case OpDelete => d - {c.key}
    case OpCas => if CasHits(d, c) then d[c.key := ValueRecord(c.value, VersionOf(d, c.key) + 1)] else d
  }

  function Answer(d: Data, c: Command): Result {
    match c.op
    case OpGet => Lookup(d, c.key)
    case OpPut => Result(Ok, None, VersionOf(d, c.key) + 1)
    case OpDelete => if c.key in d then Result(Ok, None, 0) else Result(NotFound, None, 0)
    case OpCas =>
      if CasHits(d, c) then Result(Ok, None, VersionOf(d, c.key) + 1)
      else if c.key in d then Result(CasMismatch, d[c.key].value, d[c.key].version)
      else Result(CasMismatch, None, 0)
  }

  /** A command is new if its client has no session or it is past its last one. */
  predicate IsNew(m: Machine, c: Command) {
    c.client in m.sessions ==> c.seqNo > m.sessions[c.client].lastSeq
  }

  function Applied(m: Machine, c: Command): Machine {
    if IsNew(m, c) then
      Machine(Stored(m.data, c), m.sessions[c.client := Session(c.seqNo, Answer(m.data, c))])
    else m
  }

  function Reply(m: Machine, c: Command): Result {
    if IsNew(m, c) then Answer(m.data, c)
    else if c.seqNo == m.sessions[c.client].lastSeq then m.sessions[c.client].lastResult
    else Result(StaleSeq, None, 0)
  }

  // ----- whole logs -----

  /** The machine after a log, and the answer to each of its commands. */
  function Run(m: Machine, log: seq<Command>): Machine {
    if log == [] then m else Applied(Run(m, log[..|log| - 1]), log[|log| - 1])
  }

  function ReplyTo(log: seq<Command>, i: nat): Result
    requires i < |log|
  {
    Reply(Run(EMPTY, log[..i]), log[i])
  }

  /** The first command of its client with so high a sequence number. */
  predicate IsFirst(log: seq<Command>, i: nat)
    requires i < |log|
  {
    forall j | 0 <= j < i && log[j].client == log[i].client :: log[j].seqNo < log[i].seqNo
  }

  /** The commands of a log that must take effect, in order. */
  function Effective(log: seq<Command>): seq<Command> {
    if log == [] then []
    else Effective(log[..|log| - 1]) + if IsFirst(log, |log| - 1) then [log[|log| - 1]] else []
  }

  /** Executing without any session table. */
  function Executed(d: Data, log: seq<Command>): Data {
    if log == [] then d else Stored(Executed(d, log[..|log| - 1]), log[|log| - 1])
  }

  /** A session remembers the client's highest sequence number so far, and the
      answer its first command with that number was given. */
  ghost predicate SessionOK(log: seq<Command>, c: nat, s: Session) {
    exists i :: 0 <= i < |log| && log[i].client == c && log[i].seqNo == s.lastSeq && IsFirst(log, i)
                && ReplyTo(log, i) == s.lastResult
  }

  ghost predicate SessionsOK(log: seq<Command>, m: Machine) {
    && (forall i | 0 <= i < |log| :: log[i].client in m.sessions && log[i].seqNo <= m.sessions[log[i].client].lastSeq)
    && (forall c | c in m.sessions :: SessionOK(log, c, m.sessions[c]))
  }

  lemma SameFirst(log: seq<Command>, k: nat, i: nat)
    requires i < k <= |log|
    ensures log[..k][i] == log[i] && (IsFirst(log[..k], i) <==> IsFirst(log, i))
    ensures ReplyTo(log[..k], i) == ReplyTo(log, i)
  {
    assert log[..k][..i] == log[..i];
    assert forall j | 0 <= j < i :: log[..k][j] == log[j];
  }

  lemma SessionLater(log: seq<Command>, c: nat, s: Session)
    requires log != [] && SessionOK(log[..|log| - 1], c, s)
    ensures SessionOK(log, c, s)
  {
    var n := |log| - 1;
    var init := log[..n];
    var i :| 0 <= i < |init| && init[i].client == c && init[i].seqNo == s.lastSeq && IsFirst(init, i) && ReplyTo(init, i) == s.lastResult;
    SameFirst(log, n, i);
  }

  lemma NewIsFirst(log: seq<Command>)
    requires log != [] && SessionsOK(log[..|log| - 1], Run(EMPTY, log[..|log| - 1]))
    ensures IsNew(Run(EMPTY, log[..|log| - 1]), log[|log| - 1]) <==> IsFirst(log, |log| - 1)
  {
    hide ReplyTo, Run;
    var n := |log| - 1;
    var init, m, c := log[..n], Run(EMPTY, log[..n]), log[n];
    assert forall j | 0 <= j < n :: init[j] == log[j];
    if c.client in m.sessions {
      var s := m.sessions[c.client];
      assert SessionOK(init, c.client, s);
      var i :| 0 <= i < n && init[i].client == c.client && init[i].seqNo == s.lastSeq;
      if IsFirst(log, n) { assert log[i].seqNo < c.seqNo; }
    }
  }

  lemma {:induction false} SessionsTrack(log: seq<Command>)
    ensures SessionsOK(log, Run(EMPTY, log))
    decreases |log|
  {
    hide Reply;
    if log != [] {
      var n := |log| - 1;
      var init, c := log[..n], log[n];
      var m := Run(EMPTY, init);
      SessionsTrack(init);
      NewIsFirst(log);
      SessionsStep(log, m);
    }
  }

  lemma SessionsStep(log: seq<Command>, m: Machine)
    requires log != [] && m == Run(EMPTY, log[..|log| - 1]) && SessionsOK(log[..|log| - 1], m)
    requires IsNew(m, log[|log| - 1]) <==> IsFirst(log, |log| - 1)
    ensures SessionsOK(log, Run(EMPTY, log))
  {
    hide Answer, Stored, Run, SessionOK, IsFirst;
    var n := |log| - 1;
    var init, c := log[..n], log[n];
    var m' := Applied(m, c);
    RunSnoc(log);
    forall i | 0 <= i < |log| ensures log[i].client in m'.sessions && log[i].seqNo <= m'.sessions[log[i].client].lastSeq {
      if i < n { assert init[i] == log[i]; }
    }
    forall x | x in m'.sessions ensures SessionOK(log, x, m'.sessions[x]) {
      if IsNew(m, c) && x == c.client {
        NewSession(log, m);
      } else {
        SessionLater(log, x, m.sessions[x]);
      }
    }
  }

  lemma NewSession(log: seq<Command>, m: Machine)
    requires log != [] && m == Run(EMPTY, log[..|log| - 1])
    requires IsNew(m, log[|log| - 1]) && IsFirst(log, |log| - 1)
    ensures var c := log[|log| - 1]; SessionOK(log, c.client, Session(c.seqNo, Answer(m.data, c)))
  {
    hide Answer, Run, IsFirst;
    assert ReplyTo(log, |log| - 1) == Answer(m.data, log[|log| - 1]);
  }

  lemma RunSnoc(log: seq<Command>)
    requires log != []
    ensures Run(EMPTY, log) == Applied(Run(EMPTY, log[..|log| - 1]), log[|log| - 1])
  {
  }

  /** Exactly once: whatever duplicates and stale retries a log holds, the store
      ends as if each client's commands had run once, in the order in which their
      sequence numbers first rose. */
  lemma {:induction false} ExactlyOnce(log: seq<Command>)
    ensures Run(EMPTY, log).data == Executed(map[], Effective(log))
    decreases |log|
  {
    hide Stored, Reply, Answer;
    if log != [] {
      var n := |log| - 1;
      var init := log[..n];
      ExactlyOnce(init);
      SessionsTrack(init);
      NewIsFirst(log);
      if IsFirst(log, n) {
        var e := Effective(init);
        assert (e + [log[n]])[..|e|] == e;
      } else {
        assert Effective(init) + [] == Effective(init);
      }
    }
  }

  /** What the session of a client that has sent a command holds. */
  lemma SessionAt(log: seq<Command>, i: nat, j: nat) returns (h: nat)
    requires j < i < |log| && log[j].client == log[i].client
    ensures var m := Run(EMPTY, log[..i]); var c := log[i].client;
      && c in m.sessions && h < i && log[h].client == c && IsFirst(log, h) && log[h].seqNo >= log[j].seqNo
      && m.sessions[c] == Session(log[h].seqNo, ReplyTo(log, h))
  {
    hide Stored, Answer, Run, ReplyTo;
    var pre, c := log[..i], log[i].client;
    var m := Run(EMPTY, pre);
    SessionsTrack(pre);
    assert pre[j] == log[j];
    assert SessionOK(pre, c, m.sessions[c]);
    h :| 0 <= h < |pre| && pre[h].client == c && pre[h].seqNo == m.sessions[c].lastSeq && IsFirst(pre, h)
         && ReplyTo(pre, h) == m.sessions[c].lastResult;
    SameFirst(log, i, h);
  }

  lemma NotNewer(log: seq<Command>, i: nat)
    requires i < |log| && !IsNew(Run(EMPTY, log[..i]), log[i])
    ensures Run(EMPTY, log[..i + 1]) == Run(EMPTY, log[..i])
  {
    hide Stored, Answer, Run;
    assert log[..i + 1][..i] == log[..i] && log[..i + 1][i] == log[i];
    RunSnoc(log[..i + 1]);
  }

  /** A retry of a client's latest command is answered as the command was,
      and changes nothing; an older one is refused. */
  lemma RetryReplays(log: seq<Command>, i: nat, j: nat)
    requires j < i < |log| && log[j].client == log[i].client && IsFirst(log, j)
    requires log[j].seqNo == log[i].seqNo
    ensures Run(EMPTY, log[..i + 1]) == Run(EMPTY, log[..i])
    ensures var later := exists k :: 0 <= k < i && log[k].client == log[i].client && log[k].seqNo > log[i].seqNo;
      ReplyTo(log, i) == if later then Result(StaleSeq, None, 0) else ReplyTo(log, j)
  {
    hide Stored, Answer, Run, IsFirst;
    if k :| 0 <= k < i && log[k].client == log[i].client && log[k].seqNo > log[i].seqNo {
      StaleRefused(log, i, k);
    } else {
      var h := SessionAt(log, i, j);
      FirstsAgree(log, h, j);
      NotNewer(log, i);
    }
  }

  /** A sequence number below one its client has used before is refused and
      changes nothing, whether or not it was ever seen itself. */
  lemma StaleRefused(log: seq<Command>, i: nat, k: nat)
    requires k < i < |log| && log[k].client == log[i].client && log[k].seqNo > log[i].seqNo
    ensures Run(EMPTY, log[..i + 1]) == Run(EMPTY, log[..i]) && ReplyTo(log, i) == Result(StaleSeq, None, 0)
  {
    hide Stored, Answer, Run, IsFirst;
    var h := SessionAt(log, i, k);
    NotNewer(log, i);
  }

  /** Every other command is executed: it is the first of its client with so high
      a sequence number. */
  lemma FirstRuns(log: seq<Command>, i: nat)
    requires i < |log| && IsFirst(log, i)
    ensures var m := Run(EMPTY, log[..i]);
      Run(EMPTY, log[..i + 1]).data == Stored(m.data, log[i]) && ReplyTo(log, i) == Answer(m.data, log[i])
  {
    hide Stored, Answer, Run;
    var upTo := log[..i + 1];
    assert upTo[..i] == log[..i] && upTo[i] == log[i];
    SessionsTrack(log[..i]);
    SameFirst(log, i + 1, i);
    NewIsFirst(upTo);
    RunSnoc(upTo);
  }

  lemma FirstsAgree(log: seq<Command>, h: nat, j: nat)
    requires h < |log| && j < |log| && log[h].client == log[j].client && log[h].seqNo == log[j].seqNo
    requires IsFirst(log, h) && IsFirst(log, j)
    ensures h == j
  {
  }
}
