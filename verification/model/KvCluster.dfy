/** The replicated store over whole runs of the cluster: every node applies what
    it has committed, snapshots travel as bytes, and a process that restarts or
    lags stands on one. */
module KvCluster {
  import opened RaftTypes
  import opened BigEndian
  import opened KvMachine
  import opened KvSnapshot
  import opened KvReplica
  import opened RaftSystem
  import C = RaftCore
  import S = RaftSafety
  import H = RaftHistory
  import I = RaftInvariant
  import N = RaftNext
  import Ru = RaftRuns
  import So = RaftSolo
  import St = RaftSteady
  import T = RaftTraffic
  import D = ClusterDisk

  // ----- what an input does to a node -----

  /** Only the node's own snapshot is sent. */
  predicate SendsOwn(n: Node, r: Node) {
    forall i | 0 <= i < |r.msgs| && r.msgs[i].InstallSnapshot? ::
      0 < r.snapIndex == n.snapIndex <= |r.log| && r.msgs[i].prefix == r.log[..r.snapIndex]
  }

  /** Committed entries stay, unless a received snapshot past them is installed. */
  predicate Carried(n: Node, input: Input, r: Node) {
    && n.snapIndex <= n.committed <= |n.log| && r.snapIndex <= r.committed <= |r.log| && n.committed <= r.committed
    && H.WellFormed(r.log) && SendsOwn(n, r)
    && (if r.snapIndex == n.snapIndex then n.log[..n.committed] <= r.log
        else input.Receive? && St.Installs(input.m, r) && n.committed < |r.log| && n.snapIndex < r.snapIndex)
  }

  lemma OwnSnapshot(cfg: Config, n: Node, input: Input, i: nat)
    requires ValidConfig(cfg) && Sound(cfg, n) && n.msgs == [] && n.snapIndex <= n.committed <= |n.log|
    requires input.Receive? ==> input.m.term >= 1 && T.Termed(input.m)
    requires var r := Handle(cfg, n, input);
      D.WellKept(r) && i < |r.msgs| && r.msgs[i].InstallSnapshot?
    ensures var r := Handle(cfg, n, input); 0 < r.snapIndex == n.snapIndex && r.msgs[i].prefix == r.log[..r.snapIndex]
  {
    hide Handle, Sound, H.WellFormed;
    var r := Handle(cfg, n, input);
    T.HandleSends(cfg, n, input, r.msgs[i]);
    St.HandleSteady(cfg, n, input);
  }

  lemma OwnSnapshots(cfg: Config, n: Node, input: Input)
    requires ValidConfig(cfg) && Sound(cfg, n) && n.msgs == [] && n.snapIndex <= n.committed <= |n.log|
    requires input.Receive? ==> input.m.term >= 1 && T.Termed(input.m)
    requires D.WellKept(Handle(cfg, n, input))
    ensures SendsOwn(n, Handle(cfg, n, input))
  {
    hide Handle, Sound, H.WellFormed, T.Termed;
    var r := Handle(cfg, n, input);
    forall i | 0 <= i < |r.msgs| && r.msgs[i].InstallSnapshot?
      ensures 0 < r.snapIndex == n.snapIndex <= |r.log| && r.msgs[i].prefix == r.log[..r.snapIndex]
    {
      OwnSnapshot(cfg, n, input, i);
    }
  }

  /** What `OwnSnapshots` asks of a received message holds in every run. */
  lemma InputSound(cfg: Config, run: seq<System>, acts: seq<Action>, k: nat, id: NodeId, input: Input)
    requires IsRun(cfg, run, acts) && k < |run| && CanInput(cfg, run[k], id, input)
    ensures run[k].nodes[id].msgs == [] && (input.Receive? ==> input.m.term >= 1 && T.Termed(input.m))
  {
    hide IsRun, Ru.BooksOK, Ru.SysOK, I.StepOK, I.MsgOK, Sound, H.ElectionsOK, I.BookOK, T.Termed;
    S.Sized(cfg, run, acts);
    if |cfg.peers| == 1 {
      So.SoloState(cfg, run, acts, k);
    } else {
      var books := Ru.RunOK(cfg, run, acts);
      S.RunLength(cfg, run, acts, books);
      S.StateOK(cfg, run, acts, books, k);
      Ru.IdleStep(cfg, run[k], books[k], id);
      if input.Receive? {
        Ru.MessageTerm(cfg, run[k], books[k], input.m);
        N.StateBook(cfg, run[k], books[k]);
        N.MessageTermed(cfg, books[k], input.m);
      }
    }
  }

  lemma InputCarried(cfg: Config, run: seq<System>, acts: seq<Action>, k: nat, id: NodeId, input: Input)
    requires IsRun(cfg, run, acts) && k < |run| && CanInput(cfg, run[k], id, input)
    ensures ValidConfig(cfg) && Carried(run[k].nodes[id], input, Handle(cfg, run[k].nodes[id], input))
  {
    hide IsRun, Handle, Sound, H.WellFormed, SendsOwn, T.Termed;
    D.InputMoves(cfg, run, acts, k, id, input);
    InputSound(cfg, run, acts, k, id, input);
    var n := run[k].nodes[id];
    St.HandleSteady(cfg, n, input);
    OwnSnapshots(cfg, n, input);
  }

  // ----- stores that follow a run -----

  /** A snapshot message and the bytes it carries. */
  datatype Parcel = Parcel(m: Message, data: Bytes)

  /** Where every node's store stands, or that it stopped on bytes it could not
      decode; and every snapshot ever sent. */
  datatype Shelf = Shelf(at: map<NodeId, Option<Standing>>, sent: set<Parcel>)

  function FirstShelf(cfg: Config): Shelf { Shelf(map id | id in PeerSet(cfg) :: Some(AT_START), {}) }

  function Parcels(msgs: seq<Message>, data: Bytes): set<Parcel> {
    set i | 0 <= i < |msgs| && msgs[i].InstallSnapshot? :: Parcel(msgs[i], data)
  }

  /** A drain installs the received snapshot, then applies what is committed. */
  function Served(x: Standing, n: Node, r: Node, data: Bytes): Option<Standing> {
    match if r.snapIndex > n.snapIndex then Received(x, r.snapIndex, data) else Some(x)
    case None => None
    case Some(y) => Some(CaughtUp(y, S.CommittedLog(r)))
  }

  /** A process that dies inside a drain restarts from the snapshot that is durable. */
  function Resumed(x: Standing, n: Node, r: Node, data: Bytes): Option<Standing> {
    Restarted(if r.snapIndex > n.snapIndex then x.(snapIndex := r.snapIndex, snapData := data) else x)
  }

  /** What an action does to the store of its node. `data` is the snapshot
      received with the input, or the one taken for a compaction. */
  function StoreAfter(cfg: Config, s: System, a: Action, data: Bytes, x: Standing): Option<Standing>
    requires ValidConfig(cfg) && Enabled(cfg, s, a)
  {
    match a
    case Act(id, input) => Served(x, s.nodes[id], Handle(cfg, s.nodes[id], input), data)
    case Compact(_, _) => Some(Cut(x, data))
    case Crash(_, _) => Restarted(x)
    case Tear(id, input, _, _) => Resumed(x, s.nodes[id], Handle(cfg, s.nodes[id], input), data)
  }

  function ShelfAfter(cfg: Config, s: System, a: Action, data: Bytes, sh: Shelf): Shelf
    requires ValidConfig(cfg) && Enabled(cfg, s, a) && a.id in sh.at
  {
    match sh.at[a.id]
    case None => sh
    case Some(x) =>
      Shelf(sh.at[a.id := StoreAfter(cfg, s, a, data, x)],
            if a.Act? then sh.sent + Parcels(Handle(cfg, s.nodes[a.id], a.input).msgs, x.snapData) else sh.sent)
  }

  /** A received snapshot comes with bytes that were sent with it, and a
      compaction is at the applied index with an encoding of the applied state. */
  ghost predicate Delivers(a: Action, data: Bytes, sh: Shelf) {
    && a.id in sh.at
    && ((a.Act? || a.Tear?) && a.input.Receive? && a.input.m.InstallSnapshot? ==> Parcel(a.input.m, data) in sh.sent)
    && (a.Compact? && sh.at[a.id].Some? ==>
          a.index == sh.at[a.id].value.applied && IsSnapshot(sh.at[a.id].value.machine, data))
  }

  ghost predicate IsStoreRun(cfg: Config, run: seq<System>, acts: seq<Action>, shelves: seq<Shelf>, datas: seq<Bytes>) {
    && IsRun(cfg, run, acts) && |shelves| == |run| && |datas| == |acts| && shelves[0] == FirstShelf(cfg)
    && (forall k | 0 <= k < |acts| ::
          Delivers(acts[k], datas[k], shelves[k]) && shelves[k + 1] == ShelfAfter(cfg, run[k], acts[k], datas[k], shelves[k]))
  }

  /** Indexes fit 64 bits. */
  ghost predicate Short(run: seq<System>) {
    forall k: nat, x | S.IsNode(run, k, x) :: |S.NodeAt(run, k, x).log| < Pow256(8)
  }

  // ----- the invariant -----

  ghost predicate StoreOK(x: Standing, n: Node) {
    x.snapIndex == n.snapIndex && x.applied <= n.committed <= |n.log| && Stands(x, n.log)
  }

  ghost predicate ParcelOK(p: Parcel) {
    p.m.InstallSnapshot? && |p.m.prefix| < Pow256(8) && Honest(p.m.prefix, |p.m.prefix|, p.data)
  }

  ghost predicate SentAllOK(sent: set<Parcel>) { forall p | p in sent :: ParcelOK(p) }

  /** Every snapshot message on the network has bytes. */
  ghost predicate NetOK(net: set<Message>, sent: set<Parcel>) {
    forall m | m in net && m.InstallSnapshot? :: exists p :: p in sent && p.m == m
  }

  ghost predicate StoresOK(nodes: map<NodeId, Node>, at: map<NodeId, Option<Standing>>) {
    at.Keys == nodes.Keys && forall x | x in nodes :: at[x].Some? && StoreOK(at[x].value, nodes[x])
  }

  ghost predicate ShelfOK(s: System, sh: Shelf) {
    StoresOK(s.nodes, sh.at) && SentAllOK(sh.sent) && NetOK(s.net, sh.sent)
  }

  lemma ServedOK(x: Standing, n: Node, input: Input, r: Node, data: Bytes)
    requires StoreOK(x, n) && Carried(n, input, r) && |r.log| < Pow256(8)
    requires input.Receive? && input.m.InstallSnapshot? ==> ParcelOK(Parcel(input.m, data))
    ensures Served(x, n, r, data).Some? && StoreOK(Served(x, n, r, data).value, Drained(r))
  {
    hide Stands, Honest, CaughtUp, Received, SendsOwn;
    var y := x;
    if r.snapIndex > n.snapIndex {
      ReceivedStands(x, r.log, r.snapIndex, data);
      ReceivedMarks(x, r.snapIndex, data);
      y := Received(x, r.snapIndex, data).value;
    } else {
      assert n.log[..x.applied] == n.log[..n.committed][..x.applied] == r.log[..x.applied];
      StandsMarks(x, n.log);
      StandsPrefix(x, n.log, r.log);
    }
    CaughtUpStands(y, r.log, r.committed);
  }

  lemma ReceivedMarks(x: Standing, index: nat, b: Bytes)
    requires Received(x, index, b).Some?
    ensures var y := Received(x, index, b).value; y.snapIndex == index && y.applied == Max(x.applied, index)
  {
    hide Restored;
  }

  lemma StandsMarks(x: Standing, log: Log)
    requires Stands(x, log)
    ensures x.snapIndex <= x.applied <= |log| && (x.snapIndex > 0 ==> Honest(log, x.snapIndex, x.snapData))
  {
    hide Honest, StateAt;
  }

  lemma RestartOK(cfg: Config, x: Standing, n: Node, log: Log, snap: nat, commit: nat)
    requires snap <= |log| < Pow256(8) && commit <= |log|
    requires x.snapIndex == snap && (snap > 0 ==> Honest(log, snap, x.snapData))
    ensures Restarted(x).Some? && StoreOK(Restarted(x).value, Recovered(cfg, n, log, snap, commit))
  {
    hide Stands, Honest, Restarted;
    RestartedStands(x, log);
  }

  lemma ResumedOK(cfg: Config, x: Standing, n: Node, input: Input, r: Node, data: Bytes, keep: nat, commit: nat)
    requires StoreOK(x, n) && Carried(n, input, r) && CanTear(n, r, keep) && commit <= n.committed && keep < Pow256(8)
    requires input.Receive? && input.m.InstallSnapshot? ==> ParcelOK(Parcel(input.m, data))
    ensures Resumed(x, n, r, data).Some? && StoreOK(Resumed(x, n, r, data).value, Torn(cfg, n, r, keep, commit))
  {
    hide Stands, Honest, Restarted, SendsOwn, Recovered;
    var log := r.log[..keep];
    if r.snapIndex > n.snapIndex {
      assert log == r.log;
      RestartOK(cfg, x.(snapIndex := r.snapIndex, snapData := data), n, log, r.snapIndex, commit);
    } else {
      TornKeeps(n, r, keep);
      StandsMarks(x, n.log);
      if n.snapIndex > 0 {
        assert n.log[..n.snapIndex] == n.log[..n.committed][..n.snapIndex] == log[..n.committed][..n.snapIndex] == log[..n.snapIndex];
        HonestPrefix(n.log, log, n.snapIndex, x.snapData);
      }
      RestartOK(cfg, x, n, log, n.snapIndex, commit);
    }
  }

  lemma TornKeeps(n: Node, r: Node, keep: nat)
    requires n.committed <= |n.log| && n.log[..n.committed] <= r.log && keep <= |r.log| && !(r.log[..keep] <= n.log)
    ensures n.committed <= keep && r.log[..keep][..n.committed] == n.log[..n.committed]
  {
  }

  lemma TornLog(cfg: Config, n: Node, input: Input, r: Node, keep: nat, commit: nat)
    requires Carried(n, input, r) && CanTear(n, r, keep)
    ensures keep <= |r.log| && Torn(cfg, n, r, keep, commit).log == r.log[..keep]
  {
    hide SendsOwn;
    if r.snapIndex == n.snapIndex { TornKeeps(n, r, keep); }
  }

  lemma CutOK(x: Standing, n: Node, data: Bytes)
    requires StoreOK(x, n) && IsSnapshot(x.machine, data)
    ensures StoreOK(Cut(x, data), n.(snapIndex := x.applied))
  {
    hide Stands, IsSnapshot;
    CutStands(x, n.log, data);
  }

  /** One action keeps the store of its node where the node's log says. */
  lemma StoreStep(cfg: Config, run: seq<System>, acts: seq<Action>, k: nat, data: Bytes, x: Standing)
    requires IsRun(cfg, run, acts) && Short(run) && k < |acts| && acts[k].id in run[k].nodes
    requires var a := acts[k]; var n := run[k].nodes[a.id];
      && StoreOK(x, n) && (a.Compact? ==> a.index == x.applied && IsSnapshot(x.machine, data))
      && ((a.Act? || a.Tear?) && a.input.Receive? && a.input.m.InstallSnapshot? ==> ParcelOK(Parcel(a.input.m, data)))
    ensures Enabled(cfg, run[k], acts[k]) && StoreAfter(cfg, run[k], acts[k], data, x).Some?
    ensures acts[k].id in run[k + 1].nodes
    ensures StoreOK(StoreAfter(cfg, run[k], acts[k], data, x).value, run[k + 1].nodes[acts[k].id])
  {
    hide Init, Sound, CanTear, Handle, Recovered, Torn, Carried, StoreOK, ParcelOK, Served, Resumed, IsSnapshot,
         Restarted, Cut;
    var s, a, n := run[k], acts[k], run[k].nodes[acts[k].id];
    assert run[k + 1] == Next(cfg, s, a);
    match a
    case Act(id, input) =>
      InputCarried(cfg, run, acts, k, id, input);
      var r := Handle(cfg, n, input);
      assert |r.log| < Pow256(8) by { assert S.IsNode(run, k + 1, id); assert S.NodeAt(run, k + 1, id) == Drained(r); }
      ServedOK(x, n, input, r, data);
    case Compact(id, index) => CutOK(x, n, data);
    case Crash(id, commit) =>
      assert S.IsNode(run, k, id);
      CrashOK(cfg, x, n, commit);
    case Tear(id, input, keep, commit) =>
      InputCarried(cfg, run, acts, k, id, input);
      var r := Handle(cfg, n, input);
      TornLog(cfg, n, input, r, keep, commit);
      assert keep < Pow256(8) by { assert S.IsNode(run, k + 1, id); assert |S.NodeAt(run, k + 1, id).log| == keep; }
      ResumedOK(cfg, x, n, input, r, data, keep, commit);
  }

  lemma CrashOK(cfg: Config, x: Standing, n: Node, commit: nat)
    requires StoreOK(x, n) && |n.log| < Pow256(8) && commit <= n.committed
    ensures n.snapIndex <= |n.log| && Restarted(x).Some?
    ensures StoreOK(Restarted(x).value, Recovered(cfg, n, n.log, n.snapIndex, commit))
  {
    hide Stands, Honest, Restarted, Recovered;
    StandsMarks(x, n.log);
    RestartOK(cfg, x, n, n.log, n.snapIndex, commit);
  }

  // ----- the network -----

  lemma SentOK(x: Standing, n: Node, input: Input, r: Node, m: Message)
    requires StoreOK(x, n) && Carried(n, input, r) && |r.log| < Pow256(8) && m in r.msgs && m.InstallSnapshot?
    ensures ParcelOK(Parcel(m, x.snapData))
  {
    hide Stands, Honest;
    StandsMarks(x, n.log);
    var log := r.log[..r.snapIndex];
    assert n.log[..n.snapIndex] == n.log[..n.committed][..n.snapIndex] == log[..n.snapIndex];
    HonestPrefix(n.log, log, n.snapIndex, x.snapData);
  }

  lemma ParcelsOK(x: Standing, n: Node, input: Input, r: Node)
    requires StoreOK(x, n) && Carried(n, input, r) && |r.log| < Pow256(8)
    ensures forall p | p in Parcels(r.msgs, x.snapData) :: ParcelOK(p)
  {
    hide StoreOK, Carried, ParcelOK;
    forall p | p in Parcels(r.msgs, x.snapData) ensures ParcelOK(p) { SentOK(x, n, input, r, p.m); }
  }

  lemma NetGrows(net: set<Message>, sent: set<Parcel>, msgs: seq<Message>, data: Bytes)
    requires NetOK(net, sent)
    ensures NetOK(net + Sent(msgs), sent + Parcels(msgs, data))
  {
    var all := sent + Parcels(msgs, data);
    forall m | m in net + Sent(msgs) && m.InstallSnapshot? ensures exists p :: p in all && p.m == m {
      if m in net {
        var p :| p in sent && p.m == m;
        assert p in all;
      } else {
        assert Parcel(m, data) in all;
      }
    }
  }

  lemma NetStep(cfg: Config, run: seq<System>, acts: seq<Action>, k: nat, x: Standing, sent: set<Parcel>)
    requires IsRun(cfg, run, acts) && Short(run) && k < |acts| && acts[k].id in run[k].nodes
    requires StoreOK(x, run[k].nodes[acts[k].id]) && NetOK(run[k].net, sent) && SentAllOK(sent)
    ensures Enabled(cfg, run[k], acts[k])
    ensures var a := acts[k];
      var sent' := if a.Act? then sent + Parcels(Handle(cfg, run[k].nodes[a.id], a.input).msgs, x.snapData) else sent;
      NetOK(run[k + 1].net, sent') && SentAllOK(sent')
  {
    hide Init, Sound, CanTear, Handle, Recovered, Torn, Carried, StoreOK, ParcelOK, NetOK, Parcels;
    var s, a, n := run[k], acts[k], run[k].nodes[acts[k].id];
    assert run[k + 1] == Next(cfg, s, a);
    if a.Act? {
      InputCarried(cfg, run, acts, k, a.id, a.input);
      var r := Handle(cfg, n, a.input);
      assert |r.log| < Pow256(8) by { assert S.IsNode(run, k + 1, a.id); assert S.NodeAt(run, k + 1, a.id) == Drained(r); }
      ParcelsOK(x, n, a.input, r);
      NetGrows(s.net, sent, r.msgs, x.snapData);
    }
  }

  // ----- whole runs -----

  lemma FirstOK(cfg: Config)
    ensures ShelfOK(Init(cfg), FirstShelf(cfg))
  {
    hide StoreOK, C.Recover, ParcelOK;
    forall id | id in PeerSet(cfg) ensures StoreOK(AT_START, Init(cfg).nodes[id]) {
      StartNode(cfg, id);
      StartOK(Init(cfg).nodes[id]);
    }
  }

  lemma StartNode(cfg: Config, id: NodeId)
    requires id in PeerSet(cfg)
    ensures var n := Init(cfg).nodes[id]; n.log == [] && n.snapIndex == n.committed == 0
  {
  }

  lemma StartOK(n: Node)
    requires n.log == [] && n.snapIndex == n.committed == 0
    ensures StoreOK(AT_START, n)
  {
    hide Honest;
  }

  lemma OneChanged(cfg: Config, s: System, a: Action)
    requires ValidConfig(cfg) && Enabled(cfg, s, a)
    ensures a.id in s.nodes && a.id in Next(cfg, s, a).nodes && Next(cfg, s, a).nodes == s.nodes[a.id := Next(cfg, s, a).nodes[a.id]]
  {
    hide Handle, Sound, CanTear, Recovered, Torn;
  }

  lemma OneStored(nodes: map<NodeId, Node>, at: map<NodeId, Option<Standing>>, id: NodeId, n: Node, x: Standing)
    requires StoresOK(nodes, at) && id in nodes && StoreOK(x, n)
    ensures StoresOK(nodes[id := n], at[id := Some(x)])
  {
    hide StoreOK;
  }

  lemma SentOne(sent: set<Parcel>, p: Parcel)
    requires SentAllOK(sent) && p in sent
    ensures ParcelOK(p)
  {
  }

  lemma ShelfStep(cfg: Config, run: seq<System>, acts: seq<Action>, shelves: seq<Shelf>, datas: seq<Bytes>, k: nat)
    requires IsStoreRun(cfg, run, acts, shelves, datas) && Short(run) && k < |acts| && ShelfOK(run[k], shelves[k])
    ensures ShelfOK(run[k + 1], shelves[k + 1])
  {
    hide IsRun, Init, Enabled, Next, StoreOK, SentAllOK, NetOK, StoreAfter, IsSnapshot, Parcels, Handle, Short;
    Followed(cfg, run, acts, k);
    var s, a, sh, data := run[k], acts[k], shelves[k], datas[k];
    OneChanged(cfg, s, a);
    var x := sh.at[a.id].value;
    if (a.Act? || a.Tear?) && a.input.Receive? && a.input.m.InstallSnapshot? { SentOne(sh.sent, Parcel(a.input.m, data)); }
    StoreStep(cfg, run, acts, k, data, x);
    NetStep(cfg, run, acts, k, x, sh.sent);
    OneStored(s.nodes, sh.at, a.id, run[k + 1].nodes[a.id], StoreAfter(cfg, s, a, data, x).value);
  }

  lemma Followed(cfg: Config, run: seq<System>, acts: seq<Action>, k: nat)
    requires IsRun(cfg, run, acts) && k < |acts|
    ensures |run| == |acts| + 1 && ValidConfig(cfg) && Enabled(cfg, run[k], acts[k]) && run[k + 1] == Next(cfg, run[k], acts[k])
  {
    hide Init, Enabled, Next;
  }

  /** At every moment of every run every store holds exactly what its node's log
      prescribes at the index it has applied, which is committed; it never stops on
      bytes it cannot decode; and every snapshot on the network decodes to the state
      its prefix prescribes. */
  lemma {:induction false} StoresStand(cfg: Config, run: seq<System>, acts: seq<Action>, shelves: seq<Shelf>, datas: seq<Bytes>, k: nat)
    requires IsStoreRun(cfg, run, acts, shelves, datas) && Short(run) && k < |run|
    ensures k < |shelves| && ShelfOK(run[k], shelves[k])
    decreases k
  {
    hide ShelfOK, ShelfAfter, Short, Delivers, Init, Enabled, Next;
    if k == 0 {
      FirstOK(cfg);
    } else {
      StoresStand(cfg, run, acts, shelves, datas, k - 1);
      ShelfStep(cfg, run, acts, shelves, datas, k - 1);
    }
  }

  /** The stores of any two nodes, at any two moments of a run, that have applied
      the same number of entries are equal and would answer any command alike. */
  lemma StoresAgree(cfg: Config, run: seq<System>, acts: seq<Action>, shelves: seq<Shelf>, datas: seq<Bytes>,
                    j: nat, x: NodeId, k: nat, y: NodeId, c: Command)
    requires IsStoreRun(cfg, run, acts, shelves, datas) && Short(run) && S.IsNode(run, j, x) && S.IsNode(run, k, y)
    ensures j < |shelves| && x in shelves[j].at && shelves[j].at[x].Some?
    ensures k < |shelves| && y in shelves[k].at && shelves[k].at[y].Some?
    ensures var a, b := shelves[j].at[x].value, shelves[k].at[y].value;
      a.applied == b.applied ==> a.machine == b.machine && Reply(a.machine, c) == Reply(b.machine, c)
  {
    hide Short, SentAllOK, NetOK, Stands, IsRun, Reply, Delivers, ShelfAfter;
    StoresStand(cfg, run, acts, shelves, datas, j);
    StoresStand(cfg, run, acts, shelves, datas, k);
    S.StateMachineSafety(cfg, run, acts, j, x, k, y);
    var n, m := S.NodeAt(run, j, x), S.NodeAt(run, k, y);
    var a, b := shelves[j].at[x].value, shelves[k].at[y].value;
    OnCommitted(a, n);
    OnCommitted(b, m);
    if a.applied == b.applied { ReplicasAgree(a, S.CommittedLog(n), b, S.CommittedLog(m), c); }
  }

  /** Only what is committed has been applied. */
  lemma OnCommitted(x: Standing, n: Node)
    requires StoreOK(x, n)
    ensures Stands(x, S.CommittedLog(n)) && x.applied <= |S.CommittedLog(n)|
  {
    hide Stands;
    StandsMarks(x, n.log);
    StandsPrefix(x, n.log, S.CommittedLog(n));
  }

  /** A read that is released at index `rs.index` and answered, by any node at any
      moment, from a store that has applied as much is answered from a state that
      includes every entry that any node had committed when the read was asked. */
  lemma ReadsSeeCommits(cfg: Config, run: seq<System>, acts: seq<Action>, shelves: seq<Shelf>, datas: seq<Bytes>,
                        k: nat, i: nat, l: nat, y: NodeId)
    requires IsStoreRun(cfg, run, acts, shelves, datas) && Short(run) && k < |acts| && S.IsNode(run, l, y)
    requires i < |ReleasedBy(cfg, run[k], acts[k])|
    ensures l < |shelves| && y in shelves[l].at && shelves[l].at[y].Some?
    ensures var rs := ReleasedBy(cfg, run[k], acts[k])[i]; var at := shelves[l].at[y].value;
      at.applied >= rs.index ==>
        && acts[k].id in run[k].nodes && at.applied <= |S.NodeAt(run, l, y).log|
        && at.machine == StateAt(S.NodeAt(run, l, y).log, at.applied)
        && exists j: nat ::
             && j <= k && S.AsksRead(run, acts, j, acts[k].id, run[k].nodes[acts[k].id].term, rs.context)
             && CommitsSeen(run, j, S.NodeAt(run, l, y).log[..at.applied])
  {
    hide Short, SentAllOK, NetOK, Stands, IsRun, Delivers, ShelfAfter, Enabled, ReleasedBy, StateAt, S.CommitsBelow,
         CommitsSeen, S.AsksRead;
    StoresStand(cfg, run, acts, shelves, datas, l);
    Followed(cfg, run, acts, k);
    var rs, at, n := ReleasedBy(cfg, run[k], acts[k])[i], shelves[l].at[y].value, S.NodeAt(run, l, y);
    Holds(at, n.log);
    if at.applied >= rs.index {
      S.ReadIndexSafety(cfg, run, acts, k, i);
      var j: nat :| j <= k && S.AsksRead(run, acts, j, acts[k].id, S.NodeAt(run, k, acts[k].id).term, rs.context)
        && S.CommitsBelow(run, j, rs.index);
      SeenBelow(cfg, run, acts, j, l, y, rs.index, at.applied);
    }
  }

  lemma Holds(x: Standing, log: Log)
    requires Stands(x, log)
    ensures x.applied <= |log| && x.machine == StateAt(log, x.applied)
  {
    hide Honest, StateAt;
  }

  /** Everything any node had committed by a moment is in a log. */
  ghost predicate CommitsSeen(run: seq<System>, j: nat, log: Log) {
    forall i: nat, z | i <= j && S.IsNode(run, i, z) :: S.CommittedLog(S.NodeAt(run, i, z)) <= log
  }

  lemma SeenBelow(cfg: Config, run: seq<System>, acts: seq<Action>, j: nat, l: nat, y: NodeId, index: nat, to: nat)
    requires IsRun(cfg, run, acts) && S.IsNode(run, l, y) && S.CommitsBelow(run, j, index)
    requires index <= to <= S.NodeAt(run, l, y).committed <= |S.NodeAt(run, l, y).log|
    ensures CommitsSeen(run, j, S.NodeAt(run, l, y).log[..to])
  {
    hide IsRun;
    var n := S.NodeAt(run, l, y);
    forall i: nat, z | i <= j && S.IsNode(run, i, z) ensures S.CommittedLog(S.NodeAt(run, i, z)) <= n.log[..to] {
      S.StateMachineSafety(cfg, run, acts, i, z, l, y);
      var a := S.CommittedLog(S.NodeAt(run, i, z));
      assert S.NodeAt(run, i, z).committed <= index;
      ShortPrefix(a, n.log[..n.committed], to);
      assert n.log[..n.committed][..to] == n.log[..to];
    }
  }

  lemma ShortPrefix(a: Log, c: Log, to: nat)
    requires (a <= c || c <= a) && |a| <= to <= |c|
    ensures a <= c[..to]
  {
  }

  /** Every store, at every moment of every run, holds what executing each client
      command of the applied log once gives, whatever retries the log holds. */
  lemma StoresExactlyOnce(cfg: Config, run: seq<System>, acts: seq<Action>, shelves: seq<Shelf>, datas: seq<Bytes>, k: nat, x: NodeId)
    requires IsStoreRun(cfg, run, acts, shelves, datas) && Short(run) && S.IsNode(run, k, x)
    ensures k < |shelves| && x in shelves[k].at && shelves[k].at[x].Some?
    ensures shelves[k].at[x].value.applied <= |S.NodeAt(run, k, x).log|
    ensures var at := shelves[k].at[x].value;
      at.machine.data == Executed(map[], Effective(CommandsOf(S.NodeAt(run, k, x).log[..at.applied])))
  {
    hide Short, SentAllOK, NetOK, Stands, IsRun, Delivers, ShelfAfter, StateAt, Effective, Executed, Run;
    StoresStand(cfg, run, acts, shelves, datas, k);
    var at, log := shelves[k].at[x].value, S.NodeAt(run, k, x).log;
    Holds(at, log);
    StateIsRun(log, at.applied);
    ExactlyOnce(CommandsOf(log[..at.applied]));
  }

  /** A drain that completes leaves nothing committed unapplied. */
  lemma DrainApplies(cfg: Config, run: seq<System>, acts: seq<Action>, shelves: seq<Shelf>, datas: seq<Bytes>, k: nat)
    requires IsStoreRun(cfg, run, acts, shelves, datas) && Short(run) && k < |acts| && acts[k].Act?
    ensures var x := acts[k].id;
      && S.IsNode(run, k + 1, x) && k + 1 < |shelves| && x in shelves[k + 1].at && shelves[k + 1].at[x].Some?
      && shelves[k + 1].at[x].value.applied == S.NodeAt(run, k + 1, x).committed
  {
    hide Short, SentAllOK, NetOK, IsRun, Delivers, Enabled, Next, Handle, StoreOK, Served, Parcels;
    Followed(cfg, run, acts, k);
    OneChanged(cfg, run[k], acts[k]);
    StoresStand(cfg, run, acts, shelves, datas, k);
    StoresStand(cfg, run, acts, shelves, datas, k + 1);
    var id, input := acts[k].id, acts[k].input;
    var x, n := shelves[k].at[id].value, run[k].nodes[id];
    ActResult(cfg, run[k], id, input);
    var r := Handle(cfg, n, input);
    InputCarried(cfg, run, acts, k, id, input);
    ServedApplies(x, n, r, datas[k]);
  }

  lemma ActResult(cfg: Config, s: System, id: NodeId, input: Input)
    requires ValidConfig(cfg) && Enabled(cfg, s, Act(id, input))
    ensures CanInput(cfg, s, id, input) && Next(cfg, s, Act(id, input)).nodes[id] == Drained(Handle(cfg, s.nodes[id], input))
  {
    hide Handle, Sound;
  }

  lemma ServedApplies(x: Standing, n: Node, r: Node, data: Bytes)
    requires StoreOK(x, n) && n.committed <= r.committed <= |r.log| && H.WellFormed(r.log)
    requires Served(x, n, r, data).Some? && r.snapIndex <= r.committed
    ensures Served(x, n, r, data).value.applied == r.committed
  {
    hide Stands, Restored, StateAt;
    if r.snapIndex > n.snapIndex {
      ReceivedMarks(x, r.snapIndex, data);
      CaughtUpMark(Received(x, r.snapIndex, data).value, r.log, r.committed);
    } else {
      CaughtUpMark(x, r.log, r.committed);
    }
  }

  lemma {:induction false} CaughtUpMark(x: Standing, log: Log, to: nat)
    requires to <= |log| && H.WellFormed(log)
    ensures CaughtUp(x, log[..to]).applied == Max(x.applied, to)
  {
    hide Effect;
    if to > 0 {
      assert log[..to][..to - 1] == log[..to - 1];
      CaughtUpMark(x, log, to - 1);
    }
  }
}
