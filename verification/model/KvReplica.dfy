/** A replica of the state machine that applies committed entries, snapshots
    itself, crashes, restarts from its snapshot, and installs other replicas'. */
module KvReplica {
  import opened RaftTypes
  import opened BigEndian
  import opened KvMachine
  import opened KvCodec
  import opened KvSnapshot
  import opened KvStore

  /** What one committed entry does to the machine. */
  function Effect(m: Machine, e: Entry): Machine {
    if e.kind.Normal? && e.data != [] then
      match DecodeCommand(e.data)
      case None => m
      case Some(c) => Applied(m, c)
    else m
  }

  /** The machine after the first `i` entries of a log. */
  function StateAt(log: Log, i: nat): Machine
    requires i <= |log|
  {
    if i == 0 then EMPTY else Effect(StateAt(log, i - 1), log[i - 1])
  }

  /** Only the applied prefix matters. */
  lemma {:induction false} StateOfPrefix(a: Log, b: Log, i: nat)
    requires i <= |a| && i <= |b| && a[..i] == b[..i]
    ensures StateAt(a, i) == StateAt(b, i)
  {
    if i > 0 {
      assert a[..i][i - 1] == b[..i][i - 1];
      assert a[..i - 1] == a[..i][..i - 1] && b[..i - 1] == b[..i][..i - 1];
      StateOfPrefix(a, b, i - 1);
    }
  }

  // ----- what the log prescribes -----

  /** The commands in a log: the data of its normal entries, in order, as far as
      there is any and it decodes. */
  function CommandsOf(log: Log): seq<Command> {
    if log == [] then []
    else
      var e := log[|log| - 1];
      CommandsOf(log[..|log| - 1])
        + if e.kind == Normal && e.data != [] && DecodeCommand(e.data).Some? then [DecodeCommand(e.data).value] else []
  }

  /** The state a log prescribes is that of running its commands in order. */
  lemma {:induction false} StateIsRun(log: Log, i: nat)
    requires i <= |log|
    ensures StateAt(log, i) == Run(EMPTY, CommandsOf(log[..i]))
    decreases i
  {
    hide Applied, DecodeCommand;
    if i > 0 {
      var pre := log[..i];
      StateIsRun(log, i - 1);
      assert pre[..i - 1] == log[..i - 1] && pre[i - 1] == log[i - 1];
      var before, now := CommandsOf(log[..i - 1]), CommandsOf(pre);
      if |now| > |before| {
        assert now[..|now| - 1] == before;
      } else {
        assert now == before;
      }
    }
  }

  /** A client command that joins the log takes effect once, after all before it. */
  lemma CommandTakesEffect(log: Log, term: nat, c: Command)
    requires FitsCommand(c)
    ensures var log' := log + [Entry(term, |log| + 1, Normal, EncodeCommand(c))];
      StateAt(log', |log'|) == Applied(StateAt(log, |log|), c)
  {
    hide Applied, DecodeCommand, EncodeCommand, FitsCommand;
    var log' := log + [Entry(term, |log| + 1, Normal, EncodeCommand(c))];
    CommandRoundTrip(c);
    NeverEmpty(c);
    assert log'[..|log|] == log[..|log|];
    StateOfPrefix(log', log, |log|);
  }

  lemma NeverEmpty(c: Command)
    ensures EncodeCommand(c) != []
  {
  }

  /** Nothing else in a log has any effect. */
  lemma NoEffect(log: Log, e: Entry)
    requires e.kind != Normal || e.data == [] || DecodeCommand(e.data) == None
    ensures StateAt(log + [e], |log| + 1) == StateAt(log, |log|)
  {
    hide Applied, DecodeCommand;
    assert (log + [e])[..|log|] == log[..|log|];
    StateOfPrefix(log + [e], log, |log|);
  }

  // ----- every reachable state can be written down -----

  predicate FitsResult(r: Result, n: nat) {
    r.version <= n && FitsOpt(r.value) && StatusOf(StatusByte(r.status)) == r.status
  }

  predicate FitsRecord(k: Key, r: ValueRecord, n: nat) {
    |k| < Pow256(4) && r.version <= n && FitsOpt(r.value)
  }

  predicate DataBounded(d: Data, n: nat) {
    |d.Keys| <= n && forall k | k in d :: FitsRecord(k, d[k], n)
  }

  /** Bounds on a machine that has applied at most `n` commands. */
  predicate Bounded(m: Machine, n: nat) {
    && DataBounded(m.data, n) && |m.sessions.Keys| <= n
    && (forall id | id in m.sessions ::
          id < Pow256(8) && m.sessions[id].lastSeq < Pow256(8) && FitsResult(m.sessions[id].lastResult, n))
  }

  lemma AnswerBounded(d: Data, c: Command, n: nat)
    requires DataBounded(d, n) && FitsCommand(c)
    ensures FitsResult(Answer(d, c), n + 1)
  {
    if c.key in d { assert FitsRecord(c.key, d[c.key], n); }
  }

  lemma KeyAdded<K, V>(m: map<K, V>, k: K, v: V)
    ensures |m[k := v].Keys| <= |m.Keys| + 1
  {
    assert m[k := v].Keys == m.Keys + {k};
  }

  lemma DataGrows(d: Data, k: Key, r: ValueRecord, n: nat)
    requires DataBounded(d, n) && FitsRecord(k, r, n + 1)
    ensures DataBounded(d[k := r], n + 1)
  {
    KeyAdded(d, k, r);
  }

  lemma DataShrinks(d: Data, k: Key, n: nat)
    requires DataBounded(d, n)
    ensures DataBounded(d - {k}, n + 1) && DataBounded(d, n + 1)
  {
    assert (d - {k}).Keys == d.Keys - {k};
  }

  lemma StoredBounded(d: Data, c: Command, n: nat)
    requires DataBounded(d, n) && FitsCommand(c)
    ensures DataBounded(Stored(d, c), n + 1)
  {
    assert VersionOf(d, c.key) <= n by { if c.key in d { assert FitsRecord(c.key, d[c.key], n); } }
    hide DataBounded, CasHits;
    DataGrows(d, c.key, ValueRecord(c.value, VersionOf(d, c.key) + 1), n);
    DataShrinks(d, c.key, n);
  }

  lemma BoundedMore(m: Machine, n: nat)
    requires Bounded(m, n)
    ensures Bounded(m, n + 1)
  {
    hide FitsOpt, StatusOf, StatusByte;
  }

  lemma AppliedBounded(m: Machine, c: Command, n: nat)
    requires Bounded(m, n) && FitsCommand(c)
    ensures Bounded(Applied(m, c), n + 1)
  {
    hide Stored, Answer, FitsOpt, StatusOf, StatusByte, DataBounded;
    BoundedMore(m, n);
    StoredBounded(m.data, c, n);
    AnswerBounded(m.data, c, n);
    KeyAdded(m.sessions, c.client, Session(c.seqNo, Answer(m.data, c)));
  }

  lemma EmptyBounded()
    ensures Bounded(EMPTY, 0)
  {
  }

  lemma {:induction false} StateBounded(log: Log, i: nat)
    requires i <= |log|
    ensures Bounded(StateAt(log, i), i)
  {
    hide Applied, DecodeCommand, FitsCommand, Bounded;
    if i == 0 {
      EmptyBounded();
    } else {
      StateBounded(log, i - 1);
      BoundedMore(StateAt(log, i - 1), i - 1);
      var e := log[i - 1];
      if e.kind.Normal? && e.data != [] && DecodeCommand(e.data).Some? {
        CommandStrict(e.data);
        AppliedBounded(StateAt(log, i - 1), DecodeCommand(e.data).value, i - 1);
      }
    }
  }

  lemma StateFits(log: Log, i: nat)
    requires i <= |log| < Pow256(8)
    ensures FitsMachine(StateAt(log, i))
  {
    hide StateAt, FitsOpt, StatusOf, StatusByte;
    StateBounded(log, i);
  }

  // ----- the replica -----

  /** A snapshot of the state at `index` of a log. */
  ghost predicate Honest(log: Log, index: nat, b: Bytes) {
    index <= |log| && IsSnapshot(StateAt(log, index), b)
  }

  lemma HonestRestores(log: Log, index: nat, b: Bytes)
    requires |log| < Pow256(8) && Honest(log, index, b)
    ensures Restored(b) == Some(StateAt(log, index)) && b != []
  {
    hide StateAt, FitsMachine;
    StateFits(log, index);
    SnapshotRoundTrip(StateAt(log, index), b);
  }

  /** Where a replica stands: what it has applied, and its newest snapshot, which
      alone survives a crash. */
  datatype Standing = Standing(applied: nat, machine: Machine, snapIndex: nat, snapData: Bytes)

  const AT_START := Standing(0, EMPTY, 0, [])

  /** The replica stands where the log says it should. */
  ghost predicate Stands(s: Standing, log: Log) {
    && s.snapIndex <= s.applied <= |log| && s.machine == StateAt(log, s.applied)
    && (s.snapIndex > 0 ==> Honest(log, s.snapIndex, s.snapData))
  }

  /** An entry already applied is skipped. */
  function Took(s: Standing, e: Entry): Standing {
    if e.index <= s.applied then s else s.(applied := e.index, machine := Effect(s.machine, e))
  }

  /** Every entry of a committed log, in order. */
  function CaughtUp(s: Standing, log: Log): Standing {
    if log == [] then s else Took(CaughtUp(s, log[..|log| - 1]), log[|log| - 1])
  }

  function Cut(s: Standing, b: Bytes): Standing { s.(snapIndex := s.applied, snapData := b) }

  /** The machine a payload replaces `m` by, unless it does not decode. */
  function Loaded(m: Machine, b: Bytes): Option<Machine> { if b == [] then Some(m) else Restored(b) }

  /** A received snapshot. */
  function Received(s: Standing, index: nat, b: Bytes): Option<Standing> {
    match Loaded(s.machine, b)
    case None => None
    case Some(m) => Some(Standing(Max(s.applied, index), m, index, b))
  }

  /** A crash loses everything but the snapshot. */
  function Restarted(s: Standing): Option<Standing> {
    if s.snapIndex == 0 then Some(Standing(0, EMPTY, 0, s.snapData))
    else match Loaded(EMPTY, s.snapData)
      case None => None
      case Some(m) => Some(Standing(s.snapIndex, m, s.snapIndex, s.snapData))
  }

  // ----- each of these keeps a replica where its log says -----

  lemma HonestPrefix(log: Log, log': Log, index: nat, b: Bytes)
    requires Honest(log, index, b) && index <= |log'| && log[..index] == log'[..index]
    ensures Honest(log', index, b)
  {
    hide IsSnapshot, StateAt;
    StateOfPrefix(log, log', index);
  }

  lemma StandsPrefix(s: Standing, log: Log, log': Log)
    requires Stands(s, log) && s.applied <= |log'| && log[..s.applied] == log'[..s.applied]
    ensures Stands(s, log')
  {
    hide Honest, StateAt;
    StateOfPrefix(log, log', s.applied);
    if s.snapIndex > 0 {
      assert log[..s.snapIndex] == log[..s.applied][..s.snapIndex] == log'[..s.snapIndex];
      assert s.snapIndex <= |log|;
      HonestPrefix(log, log', s.snapIndex, s.snapData);
    }
  }

  lemma TookStands(s: Standing, log: Log, e: Entry)
    requires Stands(s, log) && (e.index <= s.applied || (e.index == s.applied + 1 <= |log| && e == log[s.applied]))
    ensures Stands(Took(s, e), log) && Took(s, e).applied == Max(s.applied, e.index)
  {
    hide Honest, Effect;
  }

  lemma {:induction false} CaughtUpStands(s: Standing, log: Log, to: nat)
    requires Stands(s, log) && to <= |log| && forall i | 0 <= i < |log| :: log[i].index == i + 1
    ensures var c := CaughtUp(s, log[..to]); Stands(c, log) && c.applied == Max(s.applied, to) && c.snapIndex == s.snapIndex
  {
    hide Stands;
    if to > 0 {
      CaughtUpStands(s, log, to - 1);
      assert log[..to][..to - 1] == log[..to - 1];
      TookStands(CaughtUp(s, log[..to - 1]), log, log[to - 1]);
    }
  }

  lemma CutStands(s: Standing, log: Log, b: Bytes)
    requires Stands(s, log) && IsSnapshot(s.machine, b)
    ensures Stands(Cut(s, b), log)
  {
    hide IsSnapshot, StateAt;
  }

  /** A snapshot taken of some log is one of every log that begins alike, and
      receiving it gives the state that log prescribes. */
  lemma ReceivedStands(s: Standing, log: Log, index: nat, b: Bytes)
    requires |log| < Pow256(8) && s.applied <= index && Honest(log, index, b)
    ensures Received(s, index, b).Some? && Stands(Received(s, index, b).value, log)
  {
    hide IsSnapshot, StateAt, Restored;
    HonestRestores(log, index, b);
  }

  lemma RestartedStands(s: Standing, log: Log)
    requires |log| < Pow256(8) && s.snapIndex <= |log| && (s.snapIndex > 0 ==> Honest(log, s.snapIndex, s.snapData))
    ensures Restarted(s).Some? && Stands(Restarted(s).value, log)
    ensures Restarted(s).value.applied == Restarted(s).value.snapIndex == s.snapIndex
  {
    hide IsSnapshot, StateAt, Restored;
    StartState(log);
    if s.snapIndex > 0 { HonestRestores(log, s.snapIndex, s.snapData); }
  }

  lemma StartState(log: Log)
    ensures StateAt(log, 0) == EMPTY
  {
  }

  class Replica {
    var sm: StateMachine
    var applied: nat
    // Durable: the newest snapshot and the index it covers.
    var snapIndex: nat
    var snapData: Bytes

    function View(): Standing
      reads this, sm
    {
      Standing(applied, sm.View(), snapIndex, snapData)
    }

    constructor ()
      ensures fresh(sm) && View() == AT_START
    {
      sm := new StateMachine();
      applied, snapIndex, snapData := 0, 0, [];
    }

    /** Entries already applied are skipped; the next one takes effect. */
    method ApplyEntry(e: Entry)
      modifies this`applied, sm
      ensures View() == Took(old(View()), e) && sm == old(sm)
    {
      hide Applied, DecodeCommand;
      if e.index <= applied {
        return;
      }
      applied := e.index;
      if e.kind.Normal? && |e.data| > 0 {
        var c := Decode(e.data);
        if c.Some? {
          var r := sm.Apply(c.value);
        }
      }
    }

    /** Takes a snapshot of the applied state, for the log to be cut at. */
    method Compact()
      modifies this`snapIndex, this`snapData
      ensures IsSnapshot(old(View()).machine, snapData) && View() == Cut(old(View()), snapData)
    {
      hide IsSnapshot;
      snapData := sm.Snapshot();
      snapIndex := applied;
    }

    method CrashAndRestart() returns (ok: bool)
      modifies this
      ensures ok == Restarted(old(View())).Some? && (ok ==> View() == Restarted(old(View())).value) && fresh(sm)
    {
      hide Restored;
      sm := new StateMachine();
      applied := 0;
      if snapIndex > 0 {
        if |snapData| > 0 {
          var read := sm.Restore(snapData);
          if !read {
            return false;
          }
        }
        applied := snapIndex;
      }
      return true;
    }

    /** Installs a snapshot another replica took. */
    method Install(index: nat, b: Bytes) returns (ok: bool)
      modifies this, sm
      ensures ok == Received(old(View()), index, b).Some? && (ok ==> View() == Received(old(View()), index, b).value)
      ensures sm == old(sm)
    {
      hide Restored;
      snapIndex, snapData := index, b;
      if |b| > 0 {
        var read := sm.Restore(b);
        if !read {
          return false;
        }
      }
      if index > applied {
        applied := index;
      }
      return true;
    }
  }

  /** Compaction is invisible: replicas of comparable logs that stand at the same
      index hold the same store and sessions and would answer any command alike,
      however they got there. */
  lemma ReplicasAgree(a: Standing, la: Log, b: Standing, lb: Log, c: Command)
    requires Stands(a, la) && Stands(b, lb) && (la <= lb || lb <= la) && a.applied == b.applied
    ensures a.machine == b.machine == StateAt(la, a.applied)
    ensures Reply(a.machine, c) == Reply(b.machine, c)
  {
    hide Honest, StateAt, Reply;
    StateOfPrefix(la, lb, a.applied);
  }
}
