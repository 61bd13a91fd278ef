/** Batches over the write-ahead log: each is persisted in order, and synced only
    when it asks for it, before its messages leave. Whatever the messages may rely
    on survives every crash from then on. */
module DiskBatches {
  import opened RaftTypes
  import opened PlainLog
  import opened WalFraming
  import opened WalReplay
  import opened DiskRuns

  /** What one batch hands to the storage. */
  datatype Batch = Batch(snap: Option<Snapshot>, ents: Log, hard: Option<HardState>)

  /** The storage, and the hard state last handed to it. */
  datatype Host = Host(d: Disk, prev: HardState)

  predicate SameVote(a: HardState, b: HardState) { a.term == b.term && a.vote == b.vote }

  /** A stored hard state stands for another: only its commit index may lag. */
  predicate Saves(stored: HardState, now: HardState) { SameVote(stored, now) && stored.commit <= now.commit }

  /** A batch asks for a sync unless it moves the commit index alone. */
  predicate MustSync(prev: HardState, b: Batch) {
    b.ents != [] || b.snap.Some? || (b.hard.Some? && !SameVote(b.hard.value, prev))
  }

  /** What a driver does with it, in this order. */
  function Steps(prev: HardState, b: Batch): seq<Op> {
    (if b.snap.Some? then [Install(b.snap.value)] else [])
    + (if b.ents != [] then [Op.Append(b.ents)] else [])
    + (if b.hard.Some? then [SetHard(b.hard.value)] else [])
    + (if MustSync(prev, b) then [Sync] else [])
  }

  /** The hard state the messages of the batch speak for. */
  function Now(prev: HardState, b: Batch): HardState { if b.hard.Some? then b.hard.value else prev }

  function Persisted(h: Host, b: Batch): Host { Host(Final(h.d, Steps(h.prev, b)), Now(h.prev, b)) }

  datatype Event =
    | Persist(b: Batch)
    // The process dies after `done` steps of the batch, or inside installing its
    // snapshot, with `keep` records durable, and is restarted.
    | Die(b: Batch, done: nat, keep: nat)
    | DieInstalling(b: Batch, keep: nat)

  function Begun(h: Host, b: Batch, done: nat): Disk {
    var ops := Steps(h.prev, b);
    Final(h.d, if done <= |ops| then ops[..done] else ops)
  }

  function Restart(d: Disk): Host { Host(d, d.mirror.hard) }

  function Happen(h: Host, e: Event): Host {
    match e
    case Persist(b) => Persisted(h, b)
    case Die(b, done, keep) => Restart(After(Begun(h, b, done), Reopen(keep)))
    case DieInstalling(b, keep) => if b.snap.Some? then Restart(After(h.d, TornInstall(b.snap.value, keep))) else h
  }

  /** What the core hands over: contiguous entries, and no lower commit index. */
  predicate Formed(h: Host, b: Batch) {
    && (b.ents != [] ==> Contiguous(b.ents, b.ents[0].index))
    && (b.hard.Some? ==> b.hard.value.commit >= h.prev.commit)
  }

  predicate CanHappen(h: Host, e: Event) {
    && Formed(h, e.b)
    && match e
       case Persist(_) => true
       case Die(b, done, keep) => Begun(h, b, done).synced <= keep <= |Begun(h, b, done).recs|
       case DieInstalling(b, keep) =>
         b.snap.Some? && Cuts(Visible(h.d), b.snap.value) && h.d.synced <= keep <= |h.d.recs|
  }

  function Lived(h: Host, events: seq<Event>): Host
    decreases events
  {
    if events == [] then h else Lived(Happen(h, events[0]), events[1..])
  }

  predicate CanLive(h: Host, events: seq<Event>)
    decreases events
  {
    events == [] || (CanHappen(h, events[0]) && CanLive(Happen(h, events[0]), events[1..]))
  }

  const FRESH := Host(EMPTY, HardState(0, NONE, 0))

  // ----- what every event keeps -----

  /** Everything not yet synced is a hard state that moves only the commit index,
      up to where it is now. */
  predicate OnlyCommitPending(d: Disk) {
    d.synced <= |d.recs| && forall i | d.synced <= i < |d.recs| :: d.recs[i].HardRec? && Saves(d.recs[i].h, d.mirror.hard)
  }

  predicate Calm(h: Host) {
    && Inv(h.d) && OnlyCommitPending(h.d) && Saves(h.d.mirror.hard, h.prev)
    && Saves(LastHard(h.d.recs[..h.d.synced]), h.d.mirror.hard)
  }

  lemma Synced(d: Disk, prev: HardState)
    requires Inv(d) && d.synced == |d.recs| && Saves(d.mirror.hard, prev)
    ensures Calm(Host(d, prev))
  {
    hide Fold, LastHard;
    assert d.recs[..|d.recs|] == d.recs;
  }

  lemma PendingHards(d: Disk)
    requires OnlyCommitPending(d)
    ensures HardsFrom(d.recs, d.synced) && d.synced <= |d.recs|
  {
  }

  lemma {:induction false} RunJoin(d: Disk, a: seq<Op>, b: seq<Op>)
    ensures Final(d, a + b) == Final(Final(d, a), b)
    ensures AllowedRun(d, a + b) <==> AllowedRun(d, a) && AllowedRun(Final(d, a), b)
    decreases a
  {
    hide After, Allowed;
    if a == [] {
      assert a + b == b;
    } else {
      assert (a + b)[1..] == a[1..] + b;
      RunJoin(After(d, a[0]), a[1..], b);
    }
  }

  lemma OneStep(d: Disk, op: Op)
    ensures Final(d, [op]) == After(d, op) && (AllowedRun(d, [op]) <==> Allowed(d, op))
  {
    hide After, Allowed;
    assert [op][1..] == [];
    assert Final(After(d, op), []) == After(d, op);
  }

  /** The storage before the hard state is written. */
  function Logged(d: Disk, b: Batch): Disk {
    var d1 := if b.snap.Some? then Installed(d, b.snap.value) else d;
    if b.ents != [] then Appended(d1, b.ents) else d1
  }

  function Hardened(d: Disk, b: Batch): Disk { if b.hard.Some? then After(d, SetHard(b.hard.value)) else d }

  lemma LogSteps(d: Disk, b: Batch)
    requires Inv(d) && (b.ents != [] ==> Contiguous(b.ents, b.ents[0].index))
    ensures var ops := (if b.snap.Some? then [Install(b.snap.value)] else []) + (if b.ents != [] then [Op.Append(b.ents)] else []);
      Final(d, ops) == Logged(d, b) && AllowedRun(d, ops)
  {
    hide Inv, Installed, Appended, Contiguous;
    var a: seq<Op> := if b.snap.Some? then [Install(b.snap.value)] else [];
    var c: seq<Op> := if b.ents != [] then [Op.Append(b.ents)] else [];
    RunJoin(d, a, c);
    if b.snap.Some? { OneStep(d, Install(b.snap.value)); }
    if b.ents != [] { OneStep(Final(d, a), Op.Append(b.ents)); }
  }

  lemma HardSteps(d: Disk, b: Batch, sync: bool)
    ensures var ops := (if b.hard.Some? then [SetHard(b.hard.value)] else []) + (if sync then [Sync] else []);
      && AllowedRun(d, ops)
      && Final(d, ops) == if sync then After(Hardened(d, b), Sync) else Hardened(d, b)
  {
    var a: seq<Op> := if b.hard.Some? then [SetHard(b.hard.value)] else [];
    var c: seq<Op> := if sync then [Sync] else [];
    RunJoin(d, a, c);
    if b.hard.Some? { OneStep(d, SetHard(b.hard.value)); }
    if sync { OneStep(Final(d, a), Sync); }
  }

  /** A batch runs its steps, all of them allowed. */
  lemma BatchRuns(h: Host, b: Batch)
    requires Calm(h) && Formed(h, b)
    ensures AllowedRun(h.d, Steps(h.prev, b))
    ensures var d3 := Hardened(Logged(h.d, b), b);
      Persisted(h, b).d == if MustSync(h.prev, b) then After(d3, Sync) else d3
  {
    hide Inv, After, Allowed, AllowedRun, Final, Logged, Hardened, MustSync, LastHard;
    PendingHards(h.d);
    LogSteps(h.d, b);
    HardSteps(Logged(h.d, b), b, MustSync(h.prev, b));
    var l := (if b.snap.Some? then [Install(b.snap.value)] else []) + (if b.ents != [] then [Op.Append(b.ents)] else []);
    var r := (if b.hard.Some? then [SetHard(b.hard.value)] else []) + (if MustSync(h.prev, b) then [Sync] else []);
    assert Steps(h.prev, b) == l + r;
    RunJoin(h.d, l, r);
  }

  lemma LoggedHard(d: Disk, b: Batch)
    ensures Logged(d, b).mirror.hard == d.mirror.hard
  {
  }

  /** The heart of it: a batch that is not synced leaves nothing behind but a move
      of the commit index. */
  lemma BatchCalm(h: Host, b: Batch)
    requires Calm(h) && Formed(h, b)
    ensures Calm(Persisted(h, b))
  {
    hide Inv, Final, AllowedRun, Logged, LastHard, Allowed;
    BatchRuns(h, b);
    RunKeeps(h.d, Steps(h.prev, b));
    LoggedHard(h.d, b);
    var d := Persisted(h, b).d;
    InvSnap(d);
    if MustSync(h.prev, b) {
      Synced(d, Now(h.prev, b));
    } else {
      QuietLog(h.d, b);
      var n := h.d.synced;
      assert d.recs[..n] == h.d.recs[..n];
    }
  }

  lemma QuietLog(d: Disk, b: Batch)
    requires b.snap.None? && b.ents == []
    ensures Logged(d, b) == d
  {
  }

  lemma BegunKeeps(h: Host, b: Batch, done: nat)
    requires Calm(h) && Formed(h, b)
    ensures Inv(Begun(h, b, done))
  {
    hide Inv, Final, AllowedRun, Steps, LastHard;
    BatchRuns(h, b);
    var ops := Steps(h.prev, b);
    var k := if done <= |ops| then done else |ops|;
    assert ops == ops[..k] + ops[k..];
    RunJoin(h.d, ops[..k], ops[k..]);
    assert k == |ops| ==> ops[..k] == ops;
    RunKeeps(h.d, ops[..k]);
  }

  lemma RestartCalm(d: Disk, op: Op)
    requires Inv(d) && Allowed(d, op) && (op.Reopen? || op.TornInstall?)
    ensures Calm(Restart(After(d, op)))
  {
    hide Inv, LastHard, Replay, Recovered, CutMissing;
    AfterKeeps(d, op);
    InvSnap(d);
    match op {
      case Reopen(k) => ReplayLater(d, d.st.snap.index, k);
      case TornInstall(s, k) => ReplayLater(d, s.index, k);
    }
    Synced(After(d, op), After(d, op).mirror.hard);
  }

  lemma EventCalm(h: Host, e: Event)
    requires Calm(h) && CanHappen(h, e)
    ensures Calm(Happen(h, e))
  {
    hide Inv, After, LastHard, Calm, Begun, Persisted, Cuts;
    match e
    case Persist(b) => BatchCalm(h, b);
    case Die(b, done, keep) =>
      BegunKeeps(h, b, done);
      RestartCalm(Begun(h, b, done), Reopen(keep));
    case DieInstalling(b, keep) =>
      CalmDisk(h);
      RestartCalm(h.d, TornInstall(b.snap.value, keep));
  }

  lemma CalmDisk(h: Host)
    requires Calm(h)
    ensures Inv(h.d) && HardsFrom(h.d.recs, h.d.synced)
  {
  }

  lemma {:induction false} LifeCalm(h: Host, events: seq<Event>)
    requires Calm(h) && CanLive(h, events)
    ensures Calm(Lived(h, events))
    decreases events
  {
    hide Calm, Happen, CanHappen;
    if events != [] {
      EventCalm(h, events[0]);
      LifeCalm(Happen(h, events[0]), events[1..]);
    }
  }

  lemma FreshCalm()
    ensures Calm(FRESH)
  {
    EmptyInv();
  }

  // ----- what a crash after sending leaves -----

  /** What recovery rebuilds from the first `k` records keeps a term, a vote and
      a log: nothing of them is lost. */
  predicate Keeps(d: Disk, k: nat, hard: HardState, p: Plain) {
    && k <= |d.recs| && Replay(d.st.snap.index, d.recs[..k]).Some?
    && var r := Recovered(d.st, d.recs[..k]);
      && Saves(r.hard, hard) && r.snap.index == p.dummy && r.snap.term == p.dummyTerm && p.entries <= r.entries
  }

  /** The log comes back exactly: also nothing is added to it. */
  predicate KeepsExactly(d: Disk, k: nat, hard: HardState, p: Plain) {
    Keeps(d, k, hard, p) && Recovered(d.st, d.recs[..k]).entries == p.entries
  }

  /** No crash from now on loses any of this. */
  ghost predicate Safe(d: Disk, hard: HardState, p: Plain) {
    forall k | d.synced <= k <= |d.recs| :: Keeps(d, k, hard, p)
  }

  lemma HardsSame(rs: seq<Record>, k: nat, j: nat, want: HardState)
    requires k <= j <= |rs| && Saves(LastHard(rs[..k]), want)
    requires forall i | k <= i < |rs| :: rs[i].HardRec? && Saves(rs[i].h, want)
    ensures Saves(LastHard(rs[..j]), want)
  {
    if j > k { assert rs[..j][j - 1] == rs[j - 1]; }
  }

  /** With nothing pending but commit moves, what was live at any later point of
      the file is what is live now. */
  lemma LivePending(d: Disk, k: nat)
    requires Inv(d) && HardsFrom(d.recs, d.synced) && d.synced <= k <= |d.recs|
    ensures LiveAt(d, k).entries == d.mirror.entries && LiveAt(d, k).snap == d.mirror.snap
  {
    hide Inv, LiveAt;
    PendingLive(d, k);
  }

  lemma CalmKeeps(h: Host, k: nat)
    requires Calm(h) && h.d.synced <= k <= |h.d.recs|
    ensures Keeps(h.d, k, h.prev, Visible(h.d))
    ensures KeepsExactly(h.d, k, h.prev, Visible(h.d)) <==>
      h.d.mirror.entries != [] || h.d.st.trunc || NoStale(h.d.st.snap.index, h.d.recs[..k])
  {
    hide Inv, LastHard, Fold, LiveAt, NoStale, CutMissing;
    var d := h.d;
    CalmDisk(h);
    InvSnap(d);
    HardsSame(d.recs, d.synced, k, d.mirror.hard);
    LivePending(d, k);
    RecoveryExact(d, k);
    LiveHard(d, k);
    var r := Recovered(d.st, d.recs[..k]);
    assert r == LiveAt(d, k) <==> r.entries == d.mirror.entries;
  }

  lemma LiveHard(d: Disk, k: nat)
    requires k <= |d.recs|
    ensures LiveAt(d, k).hard == LastHard(d.recs[..k])
  {
  }

  /** Persist before send. Take any life of the storage: batches, synced or not,
      and deaths at any point of one. Whenever a further batch has been persisted and
      its messages are sent, every later crash gives back the term and the vote they
      speak for and the whole log they may promise; and exactly that log unless it is
      empty above a snapshot that did not cut it, and a stale record is left. */
  lemma PersistBeforeSend(events: seq<Event>, b: Batch, k: nat)
    requires CanLive(FRESH, events) && Formed(Lived(FRESH, events), b)
    ensures var h := Lived(FRESH, events); var h' := Persisted(h, b);
      h'.d.synced <= k <= |h'.d.recs| ==>
        && Keeps(h'.d, k, Now(h.prev, b), Visible(h'.d))
        && After(h'.d, Reopen(k)) == Restarted(h'.d.st, h'.d.recs[..k])
        && (KeepsExactly(h'.d, k, Now(h.prev, b), Visible(h'.d)) <==>
              h'.d.mirror.entries != [] || h'.d.st.trunc || NoStale(h'.d.st.snap.index, h'.d.recs[..k]))
  {
    hide Calm, Lived, CanLive, Final, Steps, Keeps, KeepsExactly, NoStale, Replay;
    FreshCalm();
    LifeCalm(FRESH, events);
    var h := Lived(FRESH, events);
    var h' := Persisted(h, b);
    BatchCalm(h, b);
    if h'.d.synced <= k <= |h'.d.recs| {
      CalmKeeps(h', k);
      KeptReplay(h'.d, k, Now(h.prev, b), Visible(h'.d));
    }
  }

  lemma KeptReplay(d: Disk, k: nat, hard: HardState, p: Plain)
    requires Keeps(d, k, hard, p)
    ensures Replay(d.st.snap.index, d.recs[..k]).Some?
  {
  }

  /** The same at one send, for every crash after it. */
  lemma SentIsSafe(h: Host, b: Batch)
    requires Calm(h) && Formed(h, b)
    ensures var h' := Persisted(h, b); Calm(h') && Safe(h'.d, Now(h.prev, b), Visible(h'.d))
  {
    hide Calm, Final, Steps, Keeps;
    BatchCalm(h, b);
    var h' := Persisted(h, b);
    forall k | h'.d.synced <= k <= |h'.d.recs| ensures Keeps(h'.d, k, Now(h.prev, b), Visible(h'.d)) {
      CalmKeeps(h', k);
    }
  }

  // ----- the mirror is the log the core sees -----

  /** What a batch makes of the stored log. */
  function Landed(p: Plain, b: Batch): Plain {
    var p1 := if b.snap.Some? && b.snap.value.index > p.dummy then Snapshotted(p, b.snap.value) else p;
    if b.ents != [] && p1.dummy < b.ents[0].index <= Last(p1) + 1 then Spliced(p1, b.ents) else p1
  }

  lemma BatchLands(h: Host, b: Batch)
    requires Calm(h) && Formed(h, b)
    requires b.ents != [] ==> b.ents[0].index > Landed(Visible(h.d), b.(ents := [])).dummy
    ensures Visible(Persisted(h, b).d) == Landed(Visible(h.d), b)
  {
    hide Calm, Final, Steps, Inv, Snapshotted;
    BatchRuns(h, b);
    if b.snap.Some? { MirrorInstalls(h.d, b.snap.value); }
    var d1 := if b.snap.Some? then Installed(h.d, b.snap.value) else h.d;
    MirrorAppends(d1, b.ents);
  }
}
