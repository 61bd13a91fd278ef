/** The cluster's crashes against the disk: what a restarted process reads back
    is the node that a crash or a torn drain of the cluster model leaves, exactly
    when recovery is exact. */
module ClusterDisk {
  import opened RaftTypes
  import opened PlainLog
  import opened WalReplay
  import opened DiskRuns
  import opened DiskBatches
  import C = RaftCore
  import S = RaftSystem
  import B = RaftBacktrack
  import H = RaftHistory
  import I = RaftInvariant
  import T = RaftTear
  import F = RaftFollower
  import St = RaftSteady
  import Sp = RaftSteps
  import Ru = RaftRuns
  import So = RaftSolo
  import Sa = RaftSafety

  function HardOf(n: Node): HardState { HardState(n.term, n.vote, n.committed) }

  function LogOf(n: Node): Plain
    requires n.snapIndex <= |n.log|
  {
    Plain(n.snapIndex, C.TermAt(n, n.snapIndex), n.log[n.snapIndex..])
  }

  /** The disk holds what a drained node has decided. */
  predicate Stores(h: Host, n: Node) {
    && n.snapIndex <= |n.log| && n.snapIndex <= n.committed
    && Visible(h.d) == LogOf(n) && Saves(h.prev, HardOf(n))
  }

  /** The node a process builds from what it reads back, above the log prefix
      `below` that its snapshot stands for. */
  function Reborn(cfg: Config, id: NodeId, below: Log, m: Mirror): Node
    requires m.snap.index == |below|
  {
    C.Recover(cfg, id, m.hard.term, m.hard.vote, below + m.entries, m.snap.index, m.hard.commit)
  }

  /** What a process reads back when `k` records are durable. */
  function ReadBack(d: Disk, k: nat): Mirror { After(d, Reopen(k)).mirror }

  /** Recovery is exact: an entry is held above the snapshot, or the snapshot cut
      the log, or no stale record is left. */
  predicate Exact(d: Disk, k: nat)
    requires k <= |d.recs|
  {
    d.mirror.entries != [] || d.st.trunc || NoStale(d.st.snap.index, d.recs[..k])
  }

  lemma ReadsRecovered(d: Disk, k: nat)
    requires d.synced <= k <= |d.recs| && Replay(d.st.snap.index, d.recs[..k]).Some?
    ensures ReadBack(d, k) == Recovered(d.st, d.recs[..k])
  {
  }

  lemma RecoverLog(cfg: Config, id: NodeId, term: nat, vote: NodeId, log: Log, snap: nat, commit: nat)
    requires snap <= |log|
    ensures C.Recover(cfg, id, term, vote, log, snap, commit).log == log
  {
  }

  /** A crash between drains. The process comes back as the cluster model's
      `Crash` says if and only if recovery is exact. */
  lemma CrashIsCrash(cfg: Config, s: S.System, id: NodeId, h: Host, k: nat)
    requires ValidConfig(cfg) && id in s.nodes && s.nodes[id].id == id && S.Sound(cfg, s.nodes[id])
    requires Calm(h) && Stores(h, s.nodes[id]) && h.d.synced <= k <= |h.d.recs|
    ensures var n := s.nodes[id]; var m := ReadBack(h.d, k);
      && m.snap.index == n.snapIndex && S.Enabled(cfg, s, S.Crash(id, m.hard.commit))
      && (S.Next(cfg, s, S.Crash(id, m.hard.commit)).nodes[id] == Reborn(cfg, id, n.log[..n.snapIndex], m) <==> Exact(h.d, k))
  {
    hide Calm, C.Recover, NoStale, Exact, ReadBack;
    CrashReads(cfg, h, s.nodes[id], k);
  }

  lemma CrashReads(cfg: Config, h: Host, n: Node, k: nat)
    requires Calm(h) && Stores(h, n) && h.d.synced <= k <= |h.d.recs|
    ensures var m := ReadBack(h.d, k);
      && m.snap == h.d.mirror.snap && m.snap.index == n.snapIndex && m.hard.commit <= n.committed
      && (S.Recovered(cfg, n, n.log, n.snapIndex, m.hard.commit) == Reborn(cfg, n.id, n.log[..n.snapIndex], m) <==> Exact(h.d, k))
  {
    hide Calm, C.Recover, NoStale;
    CalmKeeps(h, k);
    SnapKept(h);
    KeptReplay(h.d, k, h.prev, Visible(h.d));
    ReadsRecovered(h.d, k);
    var m, below := ReadBack(h.d, k), n.log[..n.snapIndex];
    assert n.log == below + n.log[n.snapIndex..];
    RecoverLog(cfg, n.id, m.hard.term, m.hard.vote, below + m.entries, n.snapIndex, m.hard.commit);
    RecoverLog(cfg, n.id, n.term, n.vote, n.log, n.snapIndex, m.hard.commit);
    if below + m.entries == n.log {
      assert m.entries == n.log[n.snapIndex..];
    }
  }

  lemma SnapKept(h: Host)
    requires Calm(h)
    ensures h.d.mirror.snap == h.d.st.snap
  {
  }

  // ----- deaths while a batch is persisted -----

  /** An input gave node `n` the entries `ents` from position `p` of its log on. */
  predicate Gained(n: Node, n': Node, p: nat, ents: Log) {
    && n'.id == n.id && n'.snapIndex == n.snapIndex <= p <= |n.log|
    && ents != [] && Contiguous(ents, p + 1) && n'.log == n.log[..p] + ents
    && (p < |n.log| ==> n.log[p] != ents[0])
  }

  lemma GainedTears(n: Node, n': Node, p: nat, ents: Log, j: nat)
    requires Gained(n, n', p, ents) && 1 <= j <= |ents|
    ensures S.CanTear(n, n', p + j)
    ensures n'.log[..p + j] == n.log[..n.snapIndex] + (n.log[n.snapIndex..p] + ents[..j])
  {
    var cut := n'.log[..p + j];
    assert cut[p] == ents[0];
  }

  /** What is read back when `j` entries of a batch are durable. */
  lemma TornMirror(h: Host, b: Batch, j: nat)
    requires Calm(h) && b.snap.None? && b.ents != [] && Formed(h, b) && 1 <= j <= |b.ents|
    requires h.d.mirror.snap.index < b.ents[0].index <= Last(Visible(h.d)) + 1
    ensures var d := Begun(h, b, 1); var k := |h.d.recs| + j;
      && d.synced <= k <= |d.recs|
      && ReadBack(d, k) == h.d.mirror.(entries := Spliced(Visible(h.d), b.ents[..j]).entries)
  {
    hide Inv, LastHard, Fold, LiveAt, NoStale, Calm;
    var d, k := Begun(h, b, 1), |h.d.recs| + j;
    FirstStep(h, b);
    CalmDisk(h);
    BegunKeeps(h, b, 1);
    InvBounds(h.d);
    TornBatch(h.d, b.ents, j);
    LandedRecs(h.d, b.ents);
    RecoveryExact(d, k);
    ReadsRecovered(d, k);
    LiveSnap(d, k);
    InvSnap(h.d);
  }

  lemma LiveSnap(d: Disk, k: nat)
    requires k <= |d.recs|
    ensures LiveAt(d, k) == Mirror(LiveAt(d, k).hard, d.st.snap, LiveAt(d, k).entries)
  {
  }

  /** Death while entries are persisted, with `j` of them durable and not yet the
      hard state. The process always comes back as the cluster model's `Tear` says. */
  lemma TornEntriesAreTear(cfg: Config, h: Host, n: Node, n': Node, p: nat, b: Batch, j: nat)
    requires Calm(h) && Stores(h, n) && Gained(n, n', p, b.ents) && b.snap.None? && Formed(h, b)
    requires 1 <= j <= |b.ents|
    ensures var d := Begun(h, b, 1); var k := |h.d.recs| + j;
      && d.synced <= k <= |d.recs| && S.CanTear(n, n', p + j)
      && var m := ReadBack(d, k);
        && m.snap == h.d.mirror.snap && m.snap.index == n.snapIndex && m.hard.commit <= n.committed
        && S.Torn(cfg, n, n', p + j, m.hard.commit) == Reborn(cfg, n.id, n.log[..n.snapIndex], m)
  {
    hide C.Recover, Calm, ReadBack, Begun;
    SavedHard(h);
    TornMirror(h, b, j);
    GainedTears(n, n', p, b.ents, j);
    assert n.log[n.snapIndex..][..p - n.snapIndex] == n.log[n.snapIndex..p];
  }

  lemma SavedHard(h: Host)
    requires Calm(h)
    ensures Saves(h.d.mirror.hard, h.prev)
  {
  }

  lemma FirstStep(h: Host, b: Batch)
    requires b.snap.None? && b.ents != []
    ensures Begun(h, b, 1) == Appended(h.d, b.ents)
  {
    hide Appended;
    assert Steps(h.prev, b)[..1] == [Op.Append(b.ents)];
    OneStep(h.d, Op.Append(b.ents));
  }

  lemma LandedRecs(d: Disk, ents: Log)
    requires ents != [] && Contiguous(ents, ents[0].index) && d.mirror.snap.index < ents[0].index <= Last(Visible(d)) + 1
    ensures Appended(d, ents).recs == d.recs + EntryRecs(ents) && Appended(d, ents).synced == d.synced
  {
  }

  /** An input installed a snapshot that stands for the whole of the new log. */
  predicate Replaced(n: Node, n': Node, s: Snapshot) {
    && n'.id == n.id && n'.snapIndex == |n'.log| == s.index > n.snapIndex
    && s.term == C.TermAt(n', s.index) && n.committed < s.index
    && !(n'.log <= n.log) && (s.index <= |n.log| ==> C.TermAt(n, s.index) != s.term)
  }

  /** Had the log agreed with the snapshot, it would not have been replaced. */
  lemma ReplacedDrops(n: Node, n': Node, s: Snapshot)
    requires Replaced(n, n', s) && n.snapIndex <= |n.log|
    ensures !KeepsSuffix(LogOf(n), s)
  {
  }

  /** Death after the file of a received snapshot is durable and before the hard
      state is. The process comes back as the cluster model's `Tear` says if and
      only if recovery is exact. */
  lemma TornSnapshotIsTear(cfg: Config, h: Host, n: Node, n': Node, b: Batch, k: nat)
    requires Calm(h) && Stores(h, n) && b.snap.Some? && Replaced(n, n', b.snap.value) && b.ents == [] && Formed(h, b)
    requires var d := Installed(h.d, b.snap.value); d.synced <= k <= |d.recs|
    ensures var d := Installed(h.d, b.snap.value); var m := ReadBack(d, k);
      && S.CanTear(n, n', |n'.log|) && m.snap == b.snap.value && m.hard.commit <= n.committed
      && (S.Torn(cfg, n, n', |n'.log|, m.hard.commit) == Reborn(cfg, n.id, n'.log, m) <==> Exact(d, k))
  {
    hide Inv, C.Recover, LastHard, Calm, NoStale, Cuts, Formed;
    var s := b.snap.value;
    var d := Installed(h.d, s);
    ReplacedDrops(n, n', s);
    InstallCalm(h, s);
    var h1 := Host(d, h.prev);
    CalmKeeps(h1, k);
    KeptReplay(d, k, h.prev, Visible(d));
    ReadsRecovered(d, k);
    MirrorInstalls(h.d, s);
    var m := ReadBack(d, k);
    assert n'.log[..|n'.log|] == n'.log && n'.log + [] == n'.log;
    RecoverLog(cfg, n.id, m.hard.term, m.hard.vote, n'.log + m.entries, s.index, m.hard.commit);
    RecoverLog(cfg, n.id, n.term, n.vote, n'.log, s.index, m.hard.commit);
    if n'.log + m.entries == n'.log { assert |m.entries| == 0; }
  }

  /** Installing leaves the pending records as they are, or syncs them. */
  lemma InstallCalm(h: Host, s: Snapshot)
    requires Calm(h)
    ensures Calm(Host(Installed(h.d, s), h.prev))
  {
    hide Inv, LastHard, Snapshotted;
    CalmDisk(h);
    InstallKeeps(h.d, s);
    InvSnap(h.d);
    var d := Installed(h.d, s);
    InvSnap(d);
    if d.synced == |d.recs| {
      Synced(d, h.prev);
    } else {
      assert d.recs == h.d.recs && d.synced == h.d.synced;
    }
  }

  /** Death inside installing a snapshot that cuts the log, before the marker is
      durable: the process always comes back as `Tear` says. */
  lemma TornInstallIsTear(cfg: Config, h: Host, n: Node, n': Node, s: Snapshot, k: nat)
    requires Calm(h) && Stores(h, n) && Replaced(n, n', s) && Cuts(Visible(h.d), s) && h.d.synced <= k <= |h.d.recs|
    ensures var m := After(h.d, TornInstall(s, k)).mirror;
      && S.CanTear(n, n', |n'.log|) && m.snap == s && m.hard.commit <= n.committed
      && S.Torn(cfg, n, n', |n'.log|, m.hard.commit) == Reborn(cfg, n.id, n'.log, m)
  {
    hide Inv, C.Recover, LastHard;
    CalmDisk(h);
    CutIsAtomic(h.d, s, k);
    HardsSame(h.d.recs, h.d.synced, k, h.d.mirror.hard);
    assert n'.log[..|n'.log|] == n'.log && n'.log + [] == n'.log;
  }

  // ----- a drain that completes -----

  lemma DrainStores(h: Host, n: Node, n': Node, p: nat, b: Batch)
    requires Calm(h) && Stores(h, n) && Formed(h, b) && n'.snapIndex <= n'.committed
    requires Saves(Now(h.prev, b), HardOf(n'))
    requires if b.snap.Some? then b.ents == [] && Replaced(n, n', b.snap.value)
             else if b.ents != [] then Gained(n, n', p, b.ents)
             else n'.log == n.log && n'.snapIndex == n.snapIndex
    ensures Calm(Persisted(h, b)) && Stores(Persisted(h, b), n')
  {
    hide Calm, Final, Steps;
    BatchCalm(h, b);
    BatchLands(h, b);
    if b.snap.Some? { ReplacedDrops(n, n', b.snap.value); }
    if b.snap.None? && b.ents != [] {
      assert n.log[n.snapIndex..][..p - n.snapIndex] + b.ents == n'.log[n.snapIndex..];
      BoundarySame(n, n', p);
    }
  }

  lemma BoundarySame(n: Node, n': Node, p: nat)
    requires n'.snapIndex == n.snapIndex <= p <= |n.log| && p <= |n'.log| && n'.log[..p] == n.log[..p]
    ensures C.TermAt(n', n'.snapIndex) == C.TermAt(n, n.snapIndex)
  {
    if n.snapIndex > 0 { assert n'.log[..p][n.snapIndex - 1] == n.log[..p][n.snapIndex - 1]; }
  }

  // ----- every input writes in one of these ways -----

  /** How far two logs agree. */
  function Common(a: Log, c: Log): (p: nat)
    ensures p <= |a| && p <= |c| && a[..p] == c[..p] && (p < |a| && p < |c| ==> a[p] != c[p])
  {
    if a == [] || c == [] || a[0] != c[0] then 0
    else
      var p := 1 + Common(a[1..], c[1..]);
      assert a[..p] == [a[0]] + a[1..][..p - 1] && c[..p] == [c[0]] + c[1..][..p - 1];
      p
  }

  predicate Writes(n: Node, n': Node) {
    && n'.id == n.id
    && (|| (n'.log == n.log && n'.snapIndex == n.snapIndex)
        || Gained(n, n', Common(n.log, n'.log), n'.log[Common(n.log, n'.log)..])
        || Replaced(n, n', Snapshot(|n'.log|, LastTerm(n'.log), [])))
  }

  predicate Moves(n: Node, r: Node) {
    && r.id == n.id && n.committed <= |n.log|
    && (|| (r.log == n.log && r.snapIndex == n.snapIndex)
        || (r.snapIndex == n.snapIndex && !(r.log <= n.log) && n.log[..n.committed] <= r.log)
        || (r.snapIndex == |r.log| > n.committed && !(r.log <= n.log)
            && (|r.log| <= |n.log| ==> C.TermAt(n, |r.log|) != LastTerm(r.log))))
  }

  lemma LongerCommon(a: Log, c: Log, k: nat)
    requires k <= |a| && a[..k] <= c
    ensures Common(a, c) >= k
  {
  }

  lemma GainWrites(n: Node, r: Node)
    requires r.id == n.id && r.snapIndex == n.snapIndex <= n.committed <= |n.log| && H.WellFormed(r.log)
    requires !(r.log <= n.log) && n.log[..n.committed] <= r.log
    ensures Gained(n, r, Common(n.log, r.log), r.log[Common(n.log, r.log)..])
  {
    hide Common;
    var p := Common(n.log, r.log);
    LongerCommon(n.log, r.log, n.committed);
    assert r.log == n.log[..p] + r.log[p..];
  }

  lemma MovesWrite(n: Node, r: Node)
    requires Moves(n, r) && H.WellFormed(r.log) && n.snapIndex <= n.committed
    ensures Writes(n, r)
  {
    hide Common, Gained;
    if r.snapIndex == n.snapIndex && !(r.log <= n.log) && n.log[..n.committed] <= r.log { GainWrites(n, r); }
  }

  lemma LongerLog(log: Log, log': Log, c: nat)
    requires log <= log' && log != log' && c <= |log|
    ensures !(log' <= log) && log[..c] <= log'
  {
  }

  lemma AppendMoves(cfg: Config, b: I.Book, n: Node, nf: Node, m: Message)
    requires I.StepOK(cfg, b, nf) && T.Joined(n, nf) && n.committed <= |n.log| && m.Append? && F.IsAppendFrom(cfg, b, nf, m)
    ensures Moves(n, C.HandleAppend(nf, m))
  {
    hide I.StepOK, F.IsAppendFrom, C.MatchTerm, C.MaybeAppend, C.FindConflictByTerm;
    T.RefusedLog(nf, m);
    St.SplicedSteady(nf, m);
    var r := C.HandleAppend(nf, m);
    if r.log != n.log {
      T.AcceptedLog(cfg, b, nf, m);
      assert n.log[..n.committed] == n.log[..m.logIndex][..n.committed];
    }
  }

  lemma SnapshotMoves(n: Node, nf: Node, m: Message)
    requires T.Joined(n, nf) && n.snapIndex <= n.committed <= |n.log| && m.InstallSnapshot?
    ensures Moves(n, C.HandleSnapshot(nf, m))
  {
    var index := |m.prefix|;
    if index > n.committed && m.prefix <= n.log { assert LastTerm(m.prefix) == n.log[index - 1].term; }
  }

  lemma MessageMoves(cfg: Config, b: I.Book, n: Node, m: Message, leased: bool)
    requires I.StepOK(cfg, b, n) && n.readStates == [] && S.Sound(cfg, n) && |cfg.peers| > 1
    requires I.MsgOK(cfg, b, m) && m.to == n.id
    ensures ValidConfig(cfg) && Moves(n, C.Step(cfg, n, m, leased))
  {
    hide I.StepOK, I.MsgOK, C.Step, C.HandleAppend, C.HandleSnapshot, C.Granted, F.IsAppendFrom;
    StepFacts(cfg, b, n, m);
    St.StepSteady(cfg, n, m, leased);
    St.StepNotAlone(cfg, n, m, leased);
    var r := C.Step(cfg, n, m, leased);
    if m.VoteResp? || m.PreVoteResp? {
      T.VoteLog(cfg, n, m, leased);
      if r.log != n.log { LongerLog(n.log, r.log, n.committed); }
    } else if m.term < n.term || (n.role.Leader? && m.term == n.term) || !(m.Append? || m.InstallSnapshot?) {
      T.StaleLog(cfg, n, m, leased);
      if m.InstallSnapshot? { StaleSnapshot(cfg, n, m, leased); }
    } else {
      var nf := T.JoinOK(cfg, b, n, m);
      if m.Append? {
        AppendFrom(cfg, b, nf, m);
        AppendMoves(cfg, b, n, nf, m);
      } else {
        SnapshotMoves(n, nf, m);
      }
    }
  }

  lemma StepFacts(cfg: Config, b: I.Book, n: Node, m: Message)
    requires I.StepOK(cfg, b, n) && I.MsgOK(cfg, b, m)
    ensures ValidConfig(cfg) && n.snapIndex <= n.committed <= |n.log| && m.term >= 1
  {
  }

  lemma AppendFrom(cfg: Config, b: I.Book, nf: Node, m: Message)
    requires I.MsgOK(cfg, b, m) && m.Append? && m.term == nf.term && m.to == nf.id
    ensures F.IsAppendFrom(cfg, b, nf, m)
  {
  }

  lemma StaleSnapshot(cfg: Config, n: Node, m: Message, leased: bool)
    requires ValidConfig(cfg) && S.Sound(cfg, n) && m.term >= 1 && m.InstallSnapshot?
    requires m.term < n.term || (n.role.Leader? && m.term == n.term)
    ensures C.Step(cfg, n, m, leased).snapIndex == n.snapIndex
  {
  }

  lemma OwnMoves(cfg: Config, b: I.Book, n: Node, input: S.Input)
    requires I.StepOK(cfg, b, n) && n.readStates == [] && S.Sound(cfg, n) && |cfg.peers| > 1 && !input.Receive?
    ensures ValidConfig(cfg) && Moves(n, S.Handle(cfg, n, input))
  {
    hide I.StepOK, C.TimerFires, C.Propose, C.ReadIndex;
    Ru.StepNode(cfg, b, n);
    St.HandleSteady(cfg, n, input);
    St.NewLeaderKeepsTerm(cfg, n, input);
    var r := S.Handle(cfg, n, input);
    match input
    case Timer => T.TimerLog(cfg, n);
    case Commands(cmds) =>
      T.ProposeLog(cfg, n, cmds);
      if r.log != n.log { LongerLog(n.log, r.log, n.committed); }
    case Read(ctx) => T.ReadIndexLog(cfg, n.(issued := n.issued + {ctx}), ctx);
  }

  /** What holds of a node after any input. */
  predicate WellKept(r: Node) {
    && H.WellFormed(r.log) && r.snapIndex <= r.committed <= |r.log|
    && (forall i | 0 <= i < |r.msgs| && r.msgs[i].InstallSnapshot? :: r.msgs[i].prefix != [])
  }

  lemma SnapshotsSent(cfg: Config, b: I.Book, r: Node)
    requires I.StepOK(cfg, b, r)
    ensures forall i | 0 <= i < |r.msgs| && r.msgs[i].InstallSnapshot? :: r.msgs[i].prefix != []
  {
    hide I.BookOK, I.NodeOK, I.MsgOK;
    forall i | 0 <= i < |r.msgs| && r.msgs[i].InstallSnapshot? ensures r.msgs[i].prefix != [] {
      SnapshotHolds(cfg, b, r.msgs[i]);
    }
  }

  lemma SnapshotHolds(cfg: Config, b: I.Book, m: Message)
    requires I.MsgOK(cfg, b, m) && m.InstallSnapshot?
    ensures m.prefix != []
  {
  }

  lemma WellFormedAfter(cfg: Config, b: I.Book, n: Node, input: S.Input)
    requires I.StepOK(cfg, b, n) && n.readStates == [] && S.Sound(cfg, n) && ValidConfig(cfg)
    requires input.Receive? ==> I.MsgOK(cfg, b, input.m) && input.m.to == n.id
    requires input.Read? ==> input.ctx !in n.issued
    ensures WellKept(S.Handle(cfg, n, input))
  {
    hide I.StepOK, I.MsgOK, S.Handle, I.Growth, I.BookOK, I.NodeOK;
    var b' := Sp.HandleOK(cfg, b, n, input);
    var r := S.Handle(cfg, n, input);
    Ru.StepNode(cfg, b', r);
    Sa.ShapeAt(cfg, b', r);
    SnapshotsSent(cfg, b', r);
    Sa.BookParts(cfg, b');
    NodeProv(cfg, b', r);
    H.ProvWellFormed(cfg, b'.h, b'.h.count, r.log);
  }

  lemma NodeProv(cfg: Config, b: I.Book, n: Node)
    requires I.NodeOK(cfg, b, n)
    ensures H.Prov(b.h, b.h.count, n.log)
  {
  }

  lemma SoloMoves(n: Node, r: Node)
    requires n.log <= r.log && r.id == n.id && r.snapIndex == n.snapIndex && n.committed <= |n.log|
    ensures Moves(n, r)
  {
    if r.log != n.log { LongerLog(n.log, r.log, n.committed); }
  }

  lemma InputMoves(cfg: Config, run: seq<S.System>, acts: seq<S.Action>, k: nat, id: NodeId, input: S.Input)
    requires S.IsRun(cfg, run, acts) && k < |run| && S.CanInput(cfg, run[k], id, input)
    ensures ValidConfig(cfg) && run[k].nodes[id].snapIndex <= run[k].nodes[id].committed
    ensures run[k].nodes[id].committed <= S.Handle(cfg, run[k].nodes[id], input).committed
    ensures var r := S.Handle(cfg, run[k].nodes[id], input); Moves(run[k].nodes[id], r) && WellKept(r)
  {
    hide S.IsRun, S.Handle, Ru.BooksOK, Ru.SysOK, I.StepOK, I.MsgOK, Moves, I.NodeOK, I.BookOK, WellKept;
    Sa.Sized(cfg, run, acts);
    var n, r := run[k].nodes[id], S.Handle(cfg, run[k].nodes[id], input);
    if |cfg.peers| == 1 {
      SoleMoves(cfg, run, acts, k, id, input);
    } else {
      var books := Ru.RunOK(cfg, run, acts);
      Sa.RunLength(cfg, run, acts, books);
      Sa.StateOK(cfg, run, acts, books, k);
      Ru.IdleStep(cfg, run[k], books[k], id);
      Ru.StepNode(cfg, books[k], n);
      if input.Receive? {
        Ru.MessageTerm(cfg, run[k], books[k], input.m);
        MessageMoves(cfg, books[k], n, input.m, input.leased);
        assert r == C.Step(cfg, n, input.m, input.leased) by { Received(cfg, n, input); }
      } else {
        OwnMoves(cfg, books[k], n, input);
      }
      WellFormedAfter(cfg, books[k], n, input);
      Sa.ShapeAt(cfg, books[k], n);
      St.HandleSteady(cfg, n, input);
    }
  }

  /** In every run, an input leaves a node's log alone, or replaces its end with
      new entries, or replaces it by a snapshot: the batches treated above are all
      there are. */
  lemma InputWrites(cfg: Config, run: seq<S.System>, acts: seq<S.Action>, k: nat, id: NodeId, input: S.Input)
    requires S.IsRun(cfg, run, acts) && k < |run| && S.CanInput(cfg, run[k], id, input)
    ensures ValidConfig(cfg) && Writes(run[k].nodes[id], S.Handle(cfg, run[k].nodes[id], input))
  {
    hide S.IsRun, S.Handle, Writes, Moves;
    InputMoves(cfg, run, acts, k, id, input);
    MovesWrite(run[k].nodes[id], S.Handle(cfg, run[k].nodes[id], input));
  }

  lemma Received(cfg: Config, n: Node, input: S.Input)
    requires ValidConfig(cfg) && S.Sound(cfg, n) && input.Receive?
    ensures S.Handle(cfg, n, input) == C.Step(cfg, n, input.m, input.leased)
  {
  }

  lemma SoleMoves(cfg: Config, run: seq<S.System>, acts: seq<S.Action>, k: nat, id: NodeId, input: S.Input)
    requires S.IsRun(cfg, run, acts) && |cfg.peers| == 1 && k < |run| && S.CanInput(cfg, run[k], id, input)
    ensures ValidConfig(cfg) && run[k].nodes[id].snapIndex <= run[k].nodes[id].committed
    ensures run[k].nodes[id].committed <= S.Handle(cfg, run[k].nodes[id], input).committed
    ensures var r := S.Handle(cfg, run[k].nodes[id], input); Moves(run[k].nodes[id], r) && WellKept(r)
  {
    hide S.Handle, Moves, B.Rising, H.WellFormed, S.Init, S.Next, S.Enabled;
    So.SoloState(cfg, run, acts, k);
    var n, r := run[k].nodes[id], S.Handle(cfg, run[k].nodes[id], input);
    So.SoloHandle(cfg, n, input);
    SoloMoves(n, r);
    St.HandleSteady(cfg, n, input);
  }

  // ----- what goes wrong where recovery is not exact -----

  /** Entries 1 to 5 of term 1 are written, 2 is rewritten in term 2, and a
      snapshot at 4 of term 3 is received. Reopening puts entry 5 of term 1 above
      it: on no log whose terms rise, so on none that a run of the cluster allows. */
  lemma InexactBreaksLogs(below: Log)
    requires |below| == 4 && below[3].term == 3
    ensures var d := Final(EMPTY, PAST_RUN); var m := ReadBack(d, |d.recs|);
      && AllowedRun(EMPTY, PAST_RUN) && d.mirror.entries == [] && !Exact(d, |d.recs|)
      && m.snap.index == 4 && !B.Rising(below + m.entries)
  {
    hide Exact, AllowedRun, Final;
    PastEntryReturns();
    PastInexact();
    var d := Final(EMPTY, PAST_RUN);
    var log := below + ReadBack(d, |d.recs|).entries;
    assert log[3].term == 3 && log[4].term == 1;
  }

  lemma PastInexact()
    ensures !Exact(Final(EMPTY, PAST_RUN), |Final(EMPTY, PAST_RUN).recs|)
  {
    hide Final, AllowedRun, NoStale, LiveAt;
    PastEntryReturns();
    var d := Final(EMPTY, PAST_RUN);
    RunsRecover(PAST_RUN, |d.recs|);
  }
}
