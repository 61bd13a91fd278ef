/** A cluster of processes with disks: each serves inputs and persists its batches
    one by one, takes snapshots, and may die at any point of that and be restarted
    from what is durable. While recovery is exact at each death, it is a run of the
    cluster model. */
module ClusterRuns {
  import opened RaftTypes
  import opened PlainLog
  import opened WalReplay
  import opened DiskRuns
  import opened DiskBatches
  import opened ClusterDisk
  import C = RaftCore
  import S = RaftSystem
  import Sa = RaftSafety

  // ----- disks that only grow -----

  /** Nothing has happened since but appends, hard states and syncs. */
  predicate Continues(d: Disk, d': Disk) {
    && d'.st == d.st && d.recs <= d'.recs && d.synced <= d'.synced
    && d'.base == d.base && d'.from == d.from && d'.early == d.early
  }

  predicate Quiet(ops: seq<Op>) { forall i | 0 <= i < |ops| :: ops[i].Append? || ops[i].SetHard? || ops[i].Sync? }

  lemma {:induction false} QuietRun(d: Disk, ops: seq<Op>)
    requires Quiet(ops) && d.synced <= |d.recs|
    ensures Continues(d, Final(d, ops)) && Final(d, ops).synced <= |Final(d, ops).recs|
    decreases ops
  {
    if ops != [] {
      QuietStep(d, ops[0]);
      QuietRun(After(d, ops[0]), ops[1..]);
    }
  }

  lemma QuietStep(d: Disk, op: Op)
    requires (op.Append? || op.SetHard? || op.Sync?) && d.synced <= |d.recs|
    ensures Continues(d, After(d, op)) && After(d, op).synced <= |After(d, op).recs|
  {
  }

  /** From one point of a batch to a later one, unless a snapshot is installed
      between them. */
  lemma BegunContinues(h: Host, b: Batch, i: nat, j: nat)
    requires i <= j <= |Steps(h.prev, b)| && (b.snap.None? || i >= 1) && Begun(h, b, i).synced <= |Begun(h, b, i).recs|
    ensures Continues(Begun(h, b, i), Begun(h, b, j))
  {
    hide Continues, Final, After;
    var ops := Steps(h.prev, b);
    assert ops[..j] == ops[..i] + ops[i..j];
    RunJoin(h.d, ops[..i], ops[i..j]);
    assert Quiet(ops[i..j]);
    QuietRun(Begun(h, b, i), ops[i..j]);
  }

  /** Recovery from the first `k` records gives back the mirror of that moment. */
  predicate Recovers(d: Disk, k: nat)
    requires k <= |d.recs|
  {
    LiveAt(d, k).entries != [] || d.st.trunc || NoStale(d.st.snap.index, d.recs[..k])
  }

  /** What is read back depends on no more than the records kept. */
  lemma ReadsSame(d: Disk, d': Disk, k: nat)
    requires Continues(d, d') && Inv(d) && d.synced <= k <= |d.recs| && d'.synced <= k
    ensures k <= |d'.recs| && After(d', Reopen(k)) == After(d, Reopen(k)) && Recovers(d', k) == Recovers(d, k)
  {
    hide Replay, Restarted, NoStale, Fold, LastHard, EarlyOK;
    ReplayAt(d, k);
    assert d'.recs[..k] == d.recs[..k];
    if d.from <= k { assert d'.recs[d.from..k] == d.recs[d.from..k]; }
  }

  // ----- processes -----

  datatype Proc = Proc(n: Node, h: Host)

  datatype World = World(procs: map<NodeId, Proc>, net: set<Message>)

  datatype Deed =
    | Serve(id: NodeId, input: S.Input, data: Bytes)
    | Snap(id: NodeId, index: nat, data: Bytes)
    // The process dies between drains, or after `done` steps of persisting the
    // batch of an input, or inside installing its snapshot, with `keep` records
    // durable, and is restarted.
    | Stop(id: NodeId, keep: nat)
    | StopServing(id: NodeId, input: S.Input, data: Bytes, done: nat, keep: nat)
    | StopInstalling(id: NodeId, input: S.Input, data: Bytes, keep: nat)

  /** What the core hands over after an input that turned `n` into `r`. */
  function BatchOf(n: Node, r: Node, prev: HardState, data: Bytes): Batch {
    var hard := if HardOf(r) == prev then None else Some(HardOf(r));
    if r.snapIndex > n.snapIndex then Batch(Some(Snapshot(r.snapIndex, C.TermAt(r, r.snapIndex), data)), [], hard)
    else Batch(None, r.log[Common(n.log, r.log)..], hard)
  }

  /** The log below a snapshot that is read back. */
  function Under(n: Node, r: Node, i: nat): Log {
    if i == n.snapIndex && i <= |n.log| then n.log[..i] else if i <= |r.log| then r.log[..i] else []
  }

  /** The node a restarted process builds. */
  function Rebuilt(cfg: Config, n: Node, r: Node, m: Mirror): Node {
    var below := Under(n, r, m.snap.index);
    if |below| == m.snap.index then Reborn(cfg, n.id, below, m) else C.Panic(n)
  }

  predicate Takes(cfg: Config, w: World, id: NodeId, input: S.Input) {
    && id in w.procs && S.Sound(cfg, w.procs[id].n)
    && (input.Receive? ==> input.m in w.net && input.m.to == id)
    && (input.Read? ==> input.ctx !in w.procs[id].n.issued)
  }

  function BatchFor(cfg: Config, p: Proc, input: S.Input, data: Bytes): Batch
    requires ValidConfig(cfg) && S.Sound(cfg, p.n)
  {
    BatchOf(p.n, S.Handle(cfg, p.n, input), p.h.prev, data)
  }

  predicate CanDo(cfg: Config, w: World, e: Deed)
    requires ValidConfig(cfg)
  {
    && e.id in w.procs && S.Sound(cfg, w.procs[e.id].n)
    && var p := w.procs[e.id];
      match e
      case Serve(id, input, _) => Takes(cfg, w, id, input)
      case Snap(_, index, _) => p.n.snapIndex < index <= p.n.committed
      case Stop(_, keep) => p.h.d.synced <= keep <= |p.h.d.recs|
      case StopServing(id, input, data, done, keep) =>
        Takes(cfg, w, id, input) &&
        var d := Begun(p.h, BatchFor(cfg, p, input, data), done); d.synced <= keep <= |d.recs|
      case StopInstalling(id, input, data, keep) =>
        Takes(cfg, w, id, input) && p.h.d.synced <= keep <= |p.h.d.recs| &&
        var b := BatchFor(cfg, p, input, data); b.snap.Some? && Cuts(Visible(p.h.d), b.snap.value)
  }

  function ProcAfter(cfg: Config, p: Proc, e: Deed): Proc
    requires ValidConfig(cfg) && S.Sound(cfg, p.n)
  {
    match e
    case Serve(_, input, data) => Proc(S.Drained(S.Handle(cfg, p.n, input)), Persisted(p.h, BatchFor(cfg, p, input, data)))
    case Snap(_, index, data) =>
      Proc(p.n.(snapIndex := index), p.h.(d := Installed(p.h.d, Snapshot(index, C.TermAt(p.n, index), data))))
    case Stop(_, keep) =>
      var h := Restart(After(p.h.d, Reopen(keep)));
      Proc(Rebuilt(cfg, p.n, p.n, h.d.mirror), h)
    case StopServing(_, input, data, done, keep) =>
      var h := Happen(p.h, Die(BatchFor(cfg, p, input, data), done, keep));
      Proc(Rebuilt(cfg, p.n, S.Handle(cfg, p.n, input), h.d.mirror), h)
    case StopInstalling(_, input, data, keep) =>
      var h := Happen(p.h, DieInstalling(BatchFor(cfg, p, input, data), keep));
      Proc(Rebuilt(cfg, p.n, S.Handle(cfg, p.n, input), h.d.mirror), h)
  }

  /** Messages leave only when the whole batch has been persisted. */
  function WorldAfter(cfg: Config, w: World, e: Deed): World
    requires ValidConfig(cfg) && e.id in w.procs && S.Sound(cfg, w.procs[e.id].n)
  {
    var p := w.procs[e.id];
    World(w.procs[e.id := ProcAfter(cfg, p, e)],
          if e.Serve? then w.net + S.Sent(S.Handle(cfg, p.n, e.input).msgs) else w.net)
  }

  /** Recovery is exact at this death. */
  predicate Clean(cfg: Config, w: World, e: Deed)
    requires ValidConfig(cfg) && CanDo(cfg, w, e)
  {
    match e
    case Stop(id, keep) => Recovers(w.procs[id].h.d, keep)
    case StopServing(id, input, data, done, keep) =>
      Recovers(Begun(w.procs[id].h, BatchFor(cfg, w.procs[id], input, data), done), keep)
    case _ => true
  }

  // ----- batches and snapshots -----

  /** What an input does in every run of the cluster model. */
  predicate Did(n: Node, r: Node) {
    && n.snapIndex <= n.committed <= |n.log| && r.snapIndex <= r.committed <= |r.log| && n.committed <= r.committed
    && Writes(n, r) && (r.snapIndex == n.snapIndex ==> n.log[..n.committed] <= r.log)
  }

  predicate Shaped(h: Host, n: Node, r: Node, b: Batch) {
    && Formed(h, b) && Now(h.prev, b) == HardOf(r)
    && if b.snap.Some? then b.ents == [] && Replaced(n, r, b.snap.value)
       else if b.ents != [] then Gained(n, r, Common(n.log, r.log), b.ents)
       else r.log == n.log && r.snapIndex == n.snapIndex
  }

  lemma SameCommon(a: Log)
    ensures Common(a, a) == |a|
  {
  }

  lemma BatchShaped(h: Host, n: Node, r: Node, data: Bytes)
    requires Stores(h, n) && Did(n, r)
    ensures Shaped(h, n, r, BatchOf(n, r, h.prev, data))
  {
    hide Common;
    SameCommon(n.log);
  }

  lemma ServeStores(h: Host, n: Node, r: Node, data: Bytes)
    requires Calm(h) && Stores(h, n) && Did(n, r)
    ensures var h' := Persisted(h, BatchOf(n, r, h.prev, data)); Calm(h') && Stores(h', S.Drained(r))
  {
    hide Calm, Persisted, Common, Writes, Visible;
    BatchShaped(h, n, r, data);
    DrainStores(h, n, r, Common(n.log, r.log), BatchOf(n, r, h.prev, data));
  }

  /** A compaction keeps the storing relation. */
  lemma CompactStores(h: Host, n: Node, index: nat, data: Bytes)
    requires Calm(h) && Stores(h, n) && n.snapIndex < index <= n.committed <= |n.log|
    ensures var h' := h.(d := Installed(h.d, Snapshot(index, C.TermAt(n, index), data)));
      Calm(h') && Stores(h', n.(snapIndex := index))
  {
    hide Calm, Installed;
    var s := Snapshot(index, C.TermAt(n, index), data);
    InstallCalm(h, s);
    MirrorInstalls(h.d, s);
    assert n.log[n.snapIndex..][index - n.snapIndex..] == n.log[index..];
  }

  // ----- what a restarted process is -----

  /** In the cluster model: the node crashed before the input, or its drain was
      torn, or it crashed after it. */
  datatype Way = Early(commit: nat) | TornAt(keep: nat, commit: nat) | Late(commit: nat)

  predicate Comes(cfg: Config, n: Node, r: Node, way: Way, x: Node) {
    match way
    case Early(c) => n.snapIndex <= |n.log| && c <= n.committed && x == S.Recovered(cfg, n, n.log, n.snapIndex, c)
    case TornAt(keep, c) => S.CanTear(n, r, keep) && c <= n.committed && x == S.Torn(cfg, n, r, keep, c)
    case Late(c) => r.snapIndex <= |r.log| && c <= r.committed && x == S.Recovered(cfg, r, r.log, r.snapIndex, c)
  }

  lemma RebornStores(cfg: Config, id: NodeId, below: Log, d: Disk)
    requires d.mirror.snap.index == |below| && d.mirror.snap.term == LastTerm(below)
    requires d.mirror.hard.commit <= |below| + |d.mirror.entries|
    ensures Stores(Restart(d), Reborn(cfg, id, below, d.mirror))
  {
    var x := Reborn(cfg, id, below, d.mirror);
    assert x.log[|below|..] == d.mirror.entries;
  }

  lemma StoredTerm(h: Host, n: Node)
    requires Stores(h, n)
    ensures h.d.mirror.snap.index == n.snapIndex && h.d.mirror.snap.term == LastTerm(n.log[..n.snapIndex])
  {
  }

  lemma CalmExact(h: Host, k: nat)
    requires Calm(h) && h.d.synced <= k <= |h.d.recs|
    ensures Recovers(h.d, k) == Exact(h.d, k)
  {
    hide Inv, LiveAt, NoStale, LastHard;
    CalmDisk(h);
    LivePending(h.d, k);
  }

  lemma SameLog(cfg: Config, n: Node, log: Log, snap: nat, commit: nat, id: NodeId, below: Log, m: Mirror)
    requires snap <= |log| && m.snap.index == |below| && S.Recovered(cfg, n, log, snap, commit) == Reborn(cfg, id, below, m)
    ensures |log| == |below| + |m.entries|
  {
    hide C.Recover;
    RecoverLog(cfg, n.id, n.term, n.vote, log, snap, commit);
    RecoverLog(cfg, id, m.hard.term, m.hard.vote, below + m.entries, m.snap.index, m.hard.commit);
  }

  /** Between drains. */
  lemma StopComes(cfg: Config, n: Node, r: Node, h: Host, k: nat) returns (way: Way)
    requires Calm(h) && Stores(h, n) && n.committed <= |n.log| && h.d.synced <= k <= |h.d.recs| && Recovers(h.d, k)
    ensures var h' := Restart(After(h.d, Reopen(k)));
      var x := Rebuilt(cfg, n, r, h'.d.mirror); Comes(cfg, n, r, way, x) && Stores(h', x) && way.Early?
  {
    hide Calm, Exact, Recovers, C.Recover, After, Stores;
    StoredTerm(h, n);
    CalmExact(h, k);
    CrashReads(cfg, h, n, k);
    StoreMarks(h, n);
    var d := After(h.d, Reopen(k));
    var m, below := d.mirror, n.log[..n.snapIndex];
    way := Early(m.hard.commit);
    SameLog(cfg, n, n.log, n.snapIndex, m.hard.commit, n.id, below, m);
    RebornStores(cfg, n.id, below, d);
  }

  lemma StoreMarks(h: Host, n: Node)
    requires Stores(h, n)
    ensures n.snapIndex <= |n.log| && n.snapIndex <= n.committed
  {
  }

  // ----- deaths inside a drain -----

  lemma InstallStep(h: Host, b: Batch)
    requires b.snap.Some?
    ensures Begun(h, b, 1) == Installed(h.d, b.snap.value)
  {
    hide Installed;
    assert Steps(h.prev, b)[..1] == [Install(b.snap.value)];
    OneStep(h.d, Install(b.snap.value));
  }

  lemma NoStep(h: Host, b: Batch)
    ensures Begun(h, b, 0) == h.d
  {
    assert Steps(h.prev, b)[..0] == [];
  }

  lemma AllSteps(h: Host, b: Batch)
    ensures Begun(h, b, |Steps(h.prev, b)|) == Persisted(h, b).d
  {
    var ops := Steps(h.prev, b);
    assert ops[..|ops|] == ops;
  }

  lemma UnderSame(n: Node, r: Node)
    requires Did(n, r)
    ensures Under(n, r, r.snapIndex) == r.log[..r.snapIndex]
  {
    hide Writes;
    if r.snapIndex == n.snapIndex {
      assert n.log[..r.snapIndex] == n.log[..n.committed][..r.snapIndex] == r.log[..r.snapIndex];
    }
  }

  /** All of the batch was durable. */
  lemma LateComes(cfg: Config, n: Node, r: Node, h: Host, data: Bytes, k: nat) returns (way: Way)
    requires Calm(h) && Stores(h, n) && Did(n, r)
    requires var h1 := Persisted(h, BatchOf(n, r, h.prev, data)); h1.d.synced <= k <= |h1.d.recs| && Recovers(h1.d, k)
    ensures var h' := Restart(After(Persisted(h, BatchOf(n, r, h.prev, data)).d, Reopen(k)));
      var x := Rebuilt(cfg, n, r, h'.d.mirror); Comes(cfg, n, r, way, x) && Stores(h', x)
  {
    hide Calm, Stores, Persisted, BatchOf, Recovers, After, C.Recover, Writes;
    ServeStores(h, n, r, data);
    var r1, h1 := S.Drained(r), Persisted(h, BatchOf(n, r, h.prev, data));
    var w := StopComes(cfg, r1, r1, h1, k);
    way := Late(w.commit);
    UnderSame(n, r);
    CrashReads(cfg, h1, r1, k);
    assert n.id == r.id by { WritesId(n, r); }
  }

  lemma WritesId(n: Node, r: Node)
    requires Writes(n, r)
    ensures n.id == r.id
  {
  }

  /** Some entries of the batch were durable. */
  lemma EntriesComes(cfg: Config, n: Node, r: Node, h: Host, data: Bytes, j: nat) returns (way: Way)
    requires Calm(h) && Stores(h, n) && Did(n, r)
    requires var b := BatchOf(n, r, h.prev, data); b.snap.None? && 1 <= j <= |b.ents|
    ensures var b := BatchOf(n, r, h.prev, data); var d := Begun(h, b, 1); var k := |h.d.recs| + j;
      && d.synced <= k <= |d.recs| && Inv(d)
      && var h' := Restart(After(d, Reopen(k)));
        var x := Rebuilt(cfg, n, r, h'.d.mirror); Comes(cfg, n, r, way, x) && Stores(h', x)
  {
    hide Calm, Stores, BatchOf, After, C.Recover, Begun, Common, Writes, Inv, Formed;
    BatchShaped(h, n, r, data);
    var b, p := BatchOf(n, r, h.prev, data), Common(n.log, r.log);
    LongerCommon(n.log, r.log, n.committed);
    TornEntriesAreTear(cfg, h, n, r, p, b, j);
    BegunKeeps(h, b, 1);
    StoredTerm(h, n);
    var d, below := After(Begun(h, b, 1), Reopen(|h.d.recs| + j)), n.log[..n.snapIndex];
    way := TornAt(p + j, d.mirror.hard.commit);
    SameLog(cfg, n, r.log[..p + j], n.snapIndex, d.mirror.hard.commit, n.id, below, d.mirror);
    RebornStores(cfg, n.id, below, d);
  }

  /** The file of a received snapshot was durable. */
  lemma SnapshotComes(cfg: Config, n: Node, r: Node, h: Host, data: Bytes, k: nat) returns (way: Way)
    requires Calm(h) && Stores(h, n) && Did(n, r)
    requires BatchOf(n, r, h.prev, data).snap.Some?
    requires var d := Installed(h.d, BatchOf(n, r, h.prev, data).snap.value); d.synced <= k <= |d.recs| && Recovers(d, k)
    ensures var h' := Restart(After(Installed(h.d, BatchOf(n, r, h.prev, data).snap.value), Reopen(k)));
      var x := Rebuilt(cfg, n, r, h'.d.mirror); Comes(cfg, n, r, way, x) && Stores(h', x)
  {
    hide Calm, Stores, BatchOf, After, C.Recover, Installed, Common, Writes, Inv, Formed, Recovers, Exact;
    BatchShaped(h, n, r, data);
    var b := BatchOf(n, r, h.prev, data);
    InstallCalm(h, b.snap.value);
    CalmExact(Host(Installed(h.d, b.snap.value), h.prev), k);
    TornSnapshotIsTear(cfg, h, n, r, b, k);
    var d := After(Installed(h.d, b.snap.value), Reopen(k));
    way := TornAt(|r.log|, d.mirror.hard.commit);
    assert r.log[..|r.log|] == r.log;
    RebornStores(cfg, n.id, r.log, d);
  }

  /** The process died inside installing it. */
  lemma InstallingComes(cfg: Config, n: Node, r: Node, h: Host, data: Bytes, k: nat) returns (way: Way)
    requires Calm(h) && Stores(h, n) && Did(n, r)
    requires var b := BatchOf(n, r, h.prev, data);
      b.snap.Some? && Cuts(Visible(h.d), b.snap.value) && h.d.synced <= k <= |h.d.recs|
    ensures var h' := Restart(After(h.d, TornInstall(BatchOf(n, r, h.prev, data).snap.value, k)));
      var x := Rebuilt(cfg, n, r, h'.d.mirror); Comes(cfg, n, r, way, x) && Stores(h', x)
  {
    hide Calm, Stores, BatchOf, After, C.Recover, Common, Writes, Inv, Formed, Cuts;
    BatchShaped(h, n, r, data);
    var s := BatchOf(n, r, h.prev, data).snap.value;
    TornInstallIsTear(cfg, h, n, r, s, k);
    var d := After(h.d, TornInstall(s, k));
    way := TornAt(|r.log|, d.mirror.hard.commit);
    assert r.log[..|r.log|] == r.log;
    RebornStores(cfg, n.id, r.log, d);
  }

  /** How many records a batch frames. */
  lemma BatchSizes(h: Host, b: Batch)
    requires Calm(h) && Formed(h, b) && (b.snap.Some? ==> b.ents == [])
    requires b.ents != [] ==> h.d.mirror.snap.index < b.ents[0].index <= Last(Visible(h.d)) + 1
    ensures var d := Persisted(h, b).d; d.synced <= |d.recs| && |d.recs| <= |Logged(h.d, b).recs| + 1
    ensures |Logged(h.d, b).recs| >= |h.d.recs|
    ensures Logged(h.d, b).recs == if b.snap.Some? then Installed(h.d, b.snap.value).recs else h.d.recs + EntryRecs(b.ents)
  {
    hide Calm, Final, Steps, Installed, Visible, MustSync;
    BatchRuns(h, b);
    BatchCalm(h, b);
    CalmBounds(Persisted(h, b));
    if b.snap.Some? { InstalledGrows(h.d, b.snap.value); }
    if b.ents != [] { LandedRecs(h.d, b.ents); }
  }

  lemma CalmBounds(h: Host)
    requires Calm(h)
    ensures Inv(h.d) && h.d.synced <= |h.d.recs|
  {
    hide Inv;
  }

  lemma InstalledGrows(d: Disk, s: Snapshot)
    ensures |Installed(d, s).recs| >= |d.recs|
  {
  }

  lemma GainedStart(h: Host, n: Node, r: Node, p: nat, ents: Log)
    requires Stores(h, n) && Gained(n, r, p, ents)
    ensures h.d.mirror.snap.index < ents[0].index <= Last(Visible(h.d)) + 1
  {
  }

  /** Death at any point of persisting a batch. */
  lemma DieComes(cfg: Config, n: Node, r: Node, h: Host, data: Bytes, done: nat, k: nat) returns (way: Way)
    requires Calm(h) && Stores(h, n) && Did(n, r)
    requires var d := Begun(h, BatchOf(n, r, h.prev, data), done); d.synced <= k <= |d.recs| && Recovers(d, k)
    ensures var h' := Restart(After(Begun(h, BatchOf(n, r, h.prev, data), done), Reopen(k)));
      var x := Rebuilt(cfg, n, r, h'.d.mirror); Comes(cfg, n, r, way, x) && Stores(h', x)
  {
    hide Calm, Stores, BatchOf, After, Rebuilt, Comes, Begun, Steps, Common, Gained, Replaced, Formed, Recovers,
         Logged, Persisted, Inv, Visible, Installed;
    var b := BatchOf(n, r, h.prev, data);
    BatchShaped(h, n, r, data);
    if b.ents != [] { GainedStart(h, n, r, Common(n.log, r.log), b.ents); }
    BatchSizes(h, b);
    var full, all := |Logged(h.d, b).recs|, |Steps(h.prev, b)|;
    var i := Min(done, all);
    BegunAt(h, b, done);
    var d := Begun(h, b, i);
    BegunKeeps(h, b, i);
    InvBounds(d);
    NoStep(h, b);
    AllSteps(h, b);
    if i == 0 {
      way := StopComes(cfg, n, r, h, k);
    } else if k > full {
      BegunContinues(h, b, i, all);
      ReadsOn(d, Persisted(h, b).d, k);
      way := LateComes(cfg, n, r, h, data, k);
    } else if b.snap.Some? {
      InstallStep(h, b);
      BegunKeeps(h, b, 1);
      InvBounds(Begun(h, b, 1));
      BegunContinues(h, b, 1, i);
      ReadsBack(Begun(h, b, 1), d, k);
      way := SnapshotComes(cfg, n, r, h, data, k);
    } else if k <= |h.d.recs| {
      BegunKeeps(h, b, 0);
      InvBounds(h.d);
      BegunContinues(h, b, 0, i);
      ReadsBack(h.d, d, k);
      way := StopComes(cfg, n, r, h, k);
    } else {
      way := EntriesComes(cfg, n, r, h, data, k - |h.d.recs|);
      InvBounds(Begun(h, b, 1));
      BegunContinues(h, b, 1, i);
      ReadsBack(Begun(h, b, 1), d, k);
    }
  }

  lemma BegunAt(h: Host, b: Batch, done: nat)
    ensures Begun(h, b, done) == Begun(h, b, Min(done, |Steps(h.prev, b)|))
  {
    hide Steps;
    var ops := Steps(h.prev, b);
    assert ops[..|ops|] == ops;
  }

  lemma ReadsBack(d: Disk, d': Disk, k: nat)
    requires Continues(d, d') && Inv(d) && d'.synced <= k <= |d.recs| && k <= |d'.recs| && Recovers(d', k)
    ensures d.synced <= k && After(d', Reopen(k)) == After(d, Reopen(k)) && Recovers(d, k)
  {
    hide Inv, After, Recovers;
    ReadsSame(d, d', k);
  }

  lemma ReadsOn(d: Disk, d': Disk, k: nat)
    requires Continues(d, d') && Inv(d) && d.synced <= k <= |d.recs| && Recovers(d, k) && |d'.recs| <= k && d'.synced <= |d'.recs|
    ensures d'.synced <= k <= |d'.recs| && After(d', Reopen(k)) == After(d, Reopen(k)) && Recovers(d', k)
  {
    hide Inv, After, Recovers;
    ReadsSame(d, d', k);
  }

  // ----- the cluster model follows -----

  predicate ProcOK(p: Proc) { Calm(p.h) && Stores(p.h, p.n) }

  /** The same nodes, each with a disk that stores it, and no message more. */
  predicate Follows(w: World, s: S.System) {
    && s.nodes.Keys == w.procs.Keys && w.net <= s.net
    && (forall id | id in w.procs :: w.procs[id].n == s.nodes[id] && ProcOK(w.procs[id]))
  }

  function FirstWorld(cfg: Config): World {
    World(map id | id in PeerSet(cfg) :: Proc(C.Recover(cfg, id, 0, NONE, [], 0, 0), FRESH), {})
  }

  lemma FirstStores(cfg: Config, id: NodeId)
    ensures ProcOK(Proc(C.Recover(cfg, id, 0, NONE, [], 0, 0), FRESH))
  {
    hide Calm;
    FreshCalm();
  }

  lemma FirstFollows(cfg: Config)
    ensures Follows(FirstWorld(cfg), S.Init(cfg))
  {
    hide ProcOK, C.Recover;
    forall id | id in PeerSet(cfg) ensures ProcOK(FirstWorld(cfg).procs[id]) { FirstStores(cfg, id); }
  }

  lemma OneFollows(w: World, s: S.System, id: NodeId, p: Proc, net: set<Message>, net': set<Message>)
    requires Follows(w, s) && id in w.procs && ProcOK(p) && net <= net'
    ensures Follows(World(w.procs[id := p], net), S.System(s.nodes[id := p.n], net'))
  {
    hide ProcOK;
  }

  lemma InputDid(cfg: Config, run: seq<S.System>, acts: seq<S.Action>, s: S.System, id: NodeId, input: S.Input)
    requires S.Reaches(cfg, run, acts, s) && S.CanInput(cfg, s, id, input)
    ensures ValidConfig(cfg) && Did(s.nodes[id], S.Handle(cfg, s.nodes[id], input))
  {
    hide S.IsRun, S.Handle, Writes;
    S.ReachesLast(cfg, run, acts, s);
    InputMoves(cfg, run, acts, |acts|, id, input);
    MovesWrite(s.nodes[id], S.Handle(cfg, s.nodes[id], input));
  }

  /** One more action of the cluster model. */
  lemma Onward(cfg: Config, run: seq<S.System>, acts: seq<S.Action>, s: S.System, a: S.Action)
    returns (run': seq<S.System>, acts': seq<S.Action>, s': S.System)
    requires S.Reaches(cfg, run, acts, s) && ValidConfig(cfg) && S.Enabled(cfg, s, a)
    ensures S.Reaches(cfg, run', acts', s') && run <= run' && s' == S.Next(cfg, s, a)
  {
    hide S.IsRun, S.Enabled, S.Next;
    s' := S.Next(cfg, s, a);
    run', acts' := run + [s'], acts + [a];
    S.RunsOn(cfg, run, acts, s, a);
  }

  /** The actions that bring a node back the way a process came back. */
  lemma WayTaken(cfg: Config, run: seq<S.System>, acts: seq<S.Action>, s: S.System, id: NodeId, input: S.Input, way: Way, x: Node)
    returns (run': seq<S.System>, acts': seq<S.Action>, s': S.System)
    requires S.Reaches(cfg, run, acts, s) && ValidConfig(cfg) && S.CanInput(cfg, s, id, input)
    requires Comes(cfg, s.nodes[id], S.Handle(cfg, s.nodes[id], input), way, x)
    ensures S.Reaches(cfg, run', acts', s') && run <= run' && s'.nodes == s.nodes[id := x] && s.net <= s'.net
  {
    hide S.Reaches, S.Handle, S.Recovered, S.Torn, S.CanTear, S.Sound;
    match way
    case Early(c) => run', acts', s' := Onward(cfg, run, acts, s, S.Crash(id, c));
    case TornAt(keep, c) => run', acts', s' := Onward(cfg, run, acts, s, S.Tear(id, input, keep, c));
    case Late(c) =>
      run', acts', s' := LateTaken(cfg, run, acts, s, id, input, c);
  }

  lemma LateTaken(cfg: Config, run: seq<S.System>, acts: seq<S.Action>, s: S.System, id: NodeId, input: S.Input, c: nat)
    returns (run': seq<S.System>, acts': seq<S.Action>, s': S.System)
    requires S.Reaches(cfg, run, acts, s) && ValidConfig(cfg) && S.CanInput(cfg, s, id, input)
    requires var r := S.Handle(cfg, s.nodes[id], input); r.snapIndex <= |r.log| && c <= r.committed
    ensures S.Reaches(cfg, run', acts', s') && run <= run' && s.net <= s'.net
    ensures var r := S.Handle(cfg, s.nodes[id], input); s'.nodes == s.nodes[id := S.Recovered(cfg, r, r.log, r.snapIndex, c)]
  {
    hide S.Reaches, S.Handle, S.Sound;
    var r := S.Handle(cfg, s.nodes[id], input);
    var run1, acts1, s1 := Onward(cfg, run, acts, s, S.Act(id, input));
    NodeMarks(cfg, run1, acts1, s1, id);
    run', acts', s' := Onward(cfg, run1, acts1, s1, S.Crash(id, c));
    assert s'.nodes == s.nodes[id := S.Recovered(cfg, S.Drained(r), r.log, r.snapIndex, c)];
  }

  lemma NodeMarks(cfg: Config, run: seq<S.System>, acts: seq<S.Action>, s: S.System, id: NodeId)
    requires S.Reaches(cfg, run, acts, s) && id in s.nodes
    ensures S.Sound(cfg, s.nodes[id]) && s.nodes[id].committed <= |s.nodes[id].log|
  {
    hide S.IsRun, S.Sound;
    S.ReachesLast(cfg, run, acts, s);
    PeersOnly(cfg, run, acts, |acts|);
    Sa.NeverPanics(cfg, run, acts, |acts|, id);
  }

  lemma {:induction false} PeersOnly(cfg: Config, run: seq<S.System>, acts: seq<S.Action>, k: nat)
    requires S.IsRun(cfg, run, acts) && k < |run|
    ensures run[k].nodes.Keys == PeerSet(cfg)
    decreases k
  {
    hide C.Recover, S.Handle, S.Recovered, S.Torn, S.CanTear, S.Sound;
    if k > 0 { PeersOnly(cfg, run, acts, k - 1); }
  }

  /** One deed of the processes is one or two actions of the cluster model. */
  lemma DeedFollowed(cfg: Config, run: seq<S.System>, acts: seq<S.Action>, s: S.System, w: World, e: Deed)
    returns (run': seq<S.System>, acts': seq<S.Action>, s': S.System)
    requires S.Reaches(cfg, run, acts, s) && ValidConfig(cfg) && Follows(w, s) && CanDo(cfg, w, e) && Clean(cfg, w, e)
    ensures S.Reaches(cfg, run', acts', s') && run <= run' && Follows(WorldAfter(cfg, w, e), s')
  {
    hide S.Reaches, S.Handle, S.Sound, Calm, Stores, Did, C.Recover, Rebuilt, Comes, Recovers, After, Begun,
         Installed, Persisted, BatchOf, Cuts, Visible, Happen;
    var p := w.procs[e.id];
    var n, h := p.n, p.h;
    match e {
      case Serve(id, input, data) =>
        InputDid(cfg, run, acts, s, id, input);
        ServeStores(h, n, S.Handle(cfg, n, input), data);
        run', acts', s' := Onward(cfg, run, acts, s, S.Act(id, input));
        OneFollows(w, s, id, ProcAfter(cfg, p, e), WorldAfter(cfg, w, e).net, s'.net);
      case Snap(id, index, data) =>
        NodeMarks(cfg, run, acts, s, id);
        CompactStores(h, n, index, data);
        run', acts', s' := Onward(cfg, run, acts, s, S.Compact(id, index));
        OneFollows(w, s, id, ProcAfter(cfg, p, e), w.net, s'.net);
      case Stop(id, keep) =>
        NodeMarks(cfg, run, acts, s, id);
        var way := StopComes(cfg, n, n, h, keep);
        StopCalm(h, keep);
        run', acts', s' := StopTaken(cfg, run, acts, s, id, way, ProcAfter(cfg, p, e).n);
        OneFollows(w, s, id, ProcAfter(cfg, p, e), w.net, s'.net);
      case StopServing(id, input, data, done, keep) =>
        InputDid(cfg, run, acts, s, id, input);
        var r := S.Handle(cfg, n, input);
        var way := DieComes(cfg, n, r, h, data, done, keep);
        DieCalm(h, n, r, data, done, keep);
        run', acts', s' := WayTaken(cfg, run, acts, s, id, input, way, ProcAfter(cfg, p, e).n);
        OneFollows(w, s, id, ProcAfter(cfg, p, e), w.net, s'.net);
      case StopInstalling(id, input, data, keep) =>
        InputDid(cfg, run, acts, s, id, input);
        var r := S.Handle(cfg, n, input);
        var way := InstallingComes(cfg, n, r, h, data, keep);
        InstallingCalm(h, n, r, data, keep);
        run', acts', s' := WayTaken(cfg, run, acts, s, id, input, way, ProcAfter(cfg, p, e).n);
        OneFollows(w, s, id, ProcAfter(cfg, p, e), w.net, s'.net);
    }
  }

  lemma StopTaken(cfg: Config, run: seq<S.System>, acts: seq<S.Action>, s: S.System, id: NodeId, way: Way, x: Node)
    returns (run': seq<S.System>, acts': seq<S.Action>, s': S.System)
    requires S.Reaches(cfg, run, acts, s) && ValidConfig(cfg) && id in s.nodes && S.Sound(cfg, s.nodes[id])
    requires way.Early? && Comes(cfg, s.nodes[id], s.nodes[id], way, x)
    ensures S.Reaches(cfg, run', acts', s') && run <= run' && s'.nodes == s.nodes[id := x] && s.net <= s'.net
  {
    hide S.Reaches, S.Recovered, S.Sound;
    run', acts', s' := Onward(cfg, run, acts, s, S.Crash(id, way.commit));
  }

  lemma StopCalm(h: Host, keep: nat)
    requires Calm(h) && h.d.synced <= keep <= |h.d.recs|
    ensures Calm(Restart(After(h.d, Reopen(keep))))
  {
    hide Calm, Inv, After;
    CalmDisk(h);
    RestartCalm(h.d, Reopen(keep));
  }

  lemma DieCalm(h: Host, n: Node, r: Node, data: Bytes, done: nat, keep: nat)
    requires Calm(h) && Stores(h, n) && Did(n, r)
    requires var d := Begun(h, BatchOf(n, r, h.prev, data), done); d.synced <= keep <= |d.recs|
    ensures var b := BatchOf(n, r, h.prev, data);
      && Calm(Happen(h, Die(b, done, keep))) && Happen(h, Die(b, done, keep)) == Restart(After(Begun(h, b, done), Reopen(keep)))
  {
    hide Calm, BatchOf, Begun, After, Did;
    BatchShaped(h, n, r, data);
    EventCalm(h, Die(BatchOf(n, r, h.prev, data), done, keep));
  }

  lemma InstallingCalm(h: Host, n: Node, r: Node, data: Bytes, keep: nat)
    requires Calm(h) && Stores(h, n) && Did(n, r) && h.d.synced <= keep <= |h.d.recs|
    requires BatchOf(n, r, h.prev, data).snap.Some? && Cuts(Visible(h.d), BatchOf(n, r, h.prev, data).snap.value)
    ensures var b := BatchOf(n, r, h.prev, data);
      && Calm(Happen(h, DieInstalling(b, keep)))
      && Happen(h, DieInstalling(b, keep)) == Restart(After(h.d, TornInstall(b.snap.value, keep)))
  {
    hide Calm, BatchOf, After, Did, Cuts;
    BatchShaped(h, n, r, data);
    EventCalm(h, DieInstalling(BatchOf(n, r, h.prev, data), keep));
  }

  // ----- whole runs -----

  predicate IsWorldRun(cfg: Config, ws: seq<World>, es: seq<Deed>) {
    && ValidConfig(cfg) && |ws| == |es| + 1 && ws[0] == FirstWorld(cfg)
    && (forall k | 0 <= k < |es| :: CanDo(cfg, ws[k], es[k]) && ws[k + 1] == WorldAfter(cfg, ws[k], es[k]))
  }

  /** At each death recovery is exact. */
  predicate AllClean(cfg: Config, ws: seq<World>, es: seq<Deed>)
    requires IsWorldRun(cfg, ws, es)
  {
    forall k | 0 <= k < |es| :: Clean(cfg, ws[k], es[k])
  }

  /** Where each moment of the processes is found in a run of the cluster model. */
  predicate Traces(ws: seq<World>, run: seq<S.System>, at: seq<nat>) {
    && |at| == |ws| && (forall k | 0 <= k < |ws| :: at[k] < |run| && Follows(ws[k], run[at[k]]))
    && (forall j, k | 0 <= j <= k < |ws| :: at[j] <= at[k])
  }

  lemma TracesOn(ws: seq<World>, run: seq<S.System>, at: seq<nat>, w: World, run': seq<S.System>)
    requires Traces(ws, run, at) && run <= run' && run != [] && Follows(w, run'[|run'| - 1])
    ensures Traces(ws + [w], run', at + [|run'| - 1])
  {
    hide Follows;
  }

  lemma DeedAt(cfg: Config, ws: seq<World>, es: seq<Deed>, k: nat)
    requires IsWorldRun(cfg, ws, es) && AllClean(cfg, ws, es) && k < |es|
    ensures CanDo(cfg, ws[k], es[k]) && Clean(cfg, ws[k], es[k]) && ws[k + 1] == WorldAfter(cfg, ws[k], es[k])
  {
    hide CanDo, Clean, WorldAfter, FirstWorld;
  }

  lemma {:induction false} TracedTo(cfg: Config, ws: seq<World>, es: seq<Deed>, k: nat)
    returns (run: seq<S.System>, acts: seq<S.Action>, at: seq<nat>)
    requires IsWorldRun(cfg, ws, es) && AllClean(cfg, ws, es) && k < |ws|
    ensures S.IsRun(cfg, run, acts) && Traces(ws[..k + 1], run, at) && at[k] == |acts|
    decreases k
  {
    hide CanDo, Clean, WorldAfter, Follows, S.Init, S.Next, S.Enabled, AllClean;
    if k == 0 {
      FirstFollows(cfg);
      run, acts, at := [S.Init(cfg)], [], [0];
    } else {
      var run0, acts0, at0 := TracedTo(cfg, ws, es, k - 1);
      DeedAt(cfg, ws, es, k - 1);
      assert Follows(ws[..k][k - 1], run0[at0[k - 1]]);
      var s';
      run, acts, s' := DeedFollowed(cfg, run0, acts0, run0[|acts0|], ws[k - 1], es[k - 1]);
      at := at0 + [|acts|];
      TracesOn(ws[..k], run0, at0, ws[k], run);
      assert ws[..k + 1] == ws[..k] + [ws[k]];
    }
  }

  /** A cluster of processes with disks is a run of the cluster model while
      recovery is exact at each death: every moment of it is a moment of one such
      run, with the same nodes, and no message on the network that is not there. */
  lemma WorldIsRun(cfg: Config, ws: seq<World>, es: seq<Deed>)
    returns (run: seq<S.System>, acts: seq<S.Action>, at: seq<nat>)
    requires IsWorldRun(cfg, ws, es) && AllClean(cfg, ws, es)
    ensures S.IsRun(cfg, run, acts) && Traces(ws, run, at) && at[|es|] == |acts|
  {
    hide CanDo, Clean, WorldAfter, Follows, S.IsRun, AllClean, Traces, FirstWorld;
    run, acts, at := TracedTo(cfg, ws, es, |es|);
    assert ws[..|es| + 1] == ws;
  }

  /** So what the processes decide is safe: at any two moments the committed logs
      of any two of them are comparable, and one term has one leader. */
  lemma ProcessesAgree(cfg: Config, ws: seq<World>, es: seq<Deed>, j: nat, x: NodeId, k: nat, y: NodeId)
    requires IsWorldRun(cfg, ws, es) && AllClean(cfg, ws, es)
    requires j < |ws| && k < |ws| && x in ws[j].procs && y in ws[k].procs
    ensures var n, m := ws[j].procs[x].n, ws[k].procs[y].n;
      && (Sa.CommittedLog(n) <= Sa.CommittedLog(m) || Sa.CommittedLog(m) <= Sa.CommittedLog(n))
      && (n.role.Leader? && m.role.Leader? && n.term == m.term ==> x == y)
  {
    hide IsWorldRun, AllClean, S.IsRun, ProcOK;
    var run, acts, at := WorldIsRun(cfg, ws, es);
    assert Follows(ws[j], run[at[j]]) && Follows(ws[k], run[at[k]]);
    Sa.StateMachineSafety(cfg, run, acts, at[j], x, at[k], y);
    if Sa.Leads(run, at[j], x) && Sa.Leads(run, at[k], y) && ws[j].procs[x].n.term == ws[k].procs[y].n.term {
      Sa.ElectionSafety(cfg, run, acts, at[j], x, at[k], y);
    }
  }
}
