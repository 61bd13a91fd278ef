/** A cluster: its nodes, and every message ever sent. Messages may be
    delivered late, repeatedly, in any order, or never. One action is one input
    to one node followed by the driver's drain (persist, send, apply), a
    compaction, or a crash between or inside those effects. */
module RaftSystem {
  import opened RaftTypes
  import opened RaftCore

  datatype System = System(nodes: map<NodeId, Node>, net: set<Message>)

  datatype Input =
    | Receive(m: Message, leased: bool)
    | Timer
    | Commands(cmds: seq<Bytes>)
    | Read(ctx: Context)

  datatype Action =
    | Act(id: NodeId, input: Input)
    // The driver snapshots its applied state and drops the log prefix.
    | Compact(id: NodeId, index: nat)
    // The process dies between drains; `commit` is the recovered commit index.
    | Crash(id: NodeId, commit: nat)
    // The process dies inside the drain of `input`: the received snapshot, or
    // the first entries of the batch, are durable; the hard state is not, and
    // no message was sent. `keep` is the durable length of the log.
    | Tear(id: NodeId, input: Input, keep: nat, commit: nat)

  /** What the core's functions expect of a node; it holds in every reachable state. */
  predicate Sound(cfg: Config, n: Node) {
    n.id in PeerSet(cfg) && n.prs.Keys == PeerSet(cfg) && n.snapIndex <= |n.log|
  }

  function Init(cfg: Config): System {
    System(map id | id in PeerSet(cfg) :: Recover(cfg, id, 0, NONE, [], 0, 0), {})
  }

  /** One input stepped into the core, before the drain. */
  function Handle(cfg: Config, n: Node, input: Input): Node
    requires ValidConfig(cfg) && Sound(cfg, n)
  {
    match input
    case Receive(m, leased) => Step(cfg, n, m, leased)
    case Timer => TimerFires(cfg, n)
    case Commands(cmds) => Propose(cfg, n, cmds)
    case Read(ctx) => ReadIndex(cfg, n.(issued := n.issued + {ctx}), ctx)
  }

  predicate CanInput(cfg: Config, s: System, id: NodeId, input: Input) {
    && id in s.nodes && Sound(cfg, s.nodes[id])
    && (input.Receive? ==> input.m in s.net && input.m.to == id)
    && (input.Read? ==> input.ctx !in s.nodes[id].issued)
  }

  predicate CanTear(n: Node, n': Node, keep: nat) {
    && keep <= |n'.log| && !(n'.log[..keep] <= n.log)
    && (n'.snapIndex > n.snapIndex ==> keep == |n'.log|)
  }

  predicate Enabled(cfg: Config, s: System, a: Action)
    requires ValidConfig(cfg)
  {
    match a
    case Act(id, input) => CanInput(cfg, s, id, input)
    case Compact(id, index) => id in s.nodes && s.nodes[id].snapIndex < index <= s.nodes[id].committed
    case Crash(id, commit) => id in s.nodes && Sound(cfg, s.nodes[id]) && commit <= s.nodes[id].committed
    case Tear(id, input, keep, commit) =>
      && CanInput(cfg, s, id, input)
      && CanTear(s.nodes[id], Handle(cfg, s.nodes[id], input), keep)
      && commit <= s.nodes[id].committed
  }

  function Drained(n: Node): Node { n.(msgs := [], readStates := []) }

  function Sent(msgs: seq<Message>): set<Message> { set i | 0 <= i < |msgs| :: msgs[i] }

  function Recovered(cfg: Config, n: Node, log: Log, snapIndex: nat, commit: nat): Node
    requires snapIndex <= |log|
  {
    Recover(cfg, n.id, n.term, n.vote, log, snapIndex, commit)
  }

  /** The node that comes back after a torn drain. */
  function Torn(cfg: Config, n: Node, n': Node, keep: nat, commit: nat): Node
    requires keep <= |n'.log| && (n'.snapIndex > n.snapIndex ==> keep == |n'.log|)
  {
    var log := n'.log[..keep];
    var snap := if n'.snapIndex > n.snapIndex then n'.snapIndex else n.snapIndex;
    if snap <= |log| then Recovered(cfg, n, log, snap, commit) else Panic(n)
  }

  function Next(cfg: Config, s: System, a: Action): System
    requires ValidConfig(cfg) && Enabled(cfg, s, a)
  {
    var n := s.nodes[a.id];
    match a
    case Act(id, input) =>
      var n' := Handle(cfg, n, input);
      System(s.nodes[id := Drained(n')], s.net + Sent(n'.msgs))
    case Compact(id, index) => s.(nodes := s.nodes[id := n.(snapIndex := index)])
    case Crash(id, commit) => s.(nodes := s.nodes[id := Recovered(cfg, n, n.log, n.snapIndex, commit)])
    case Tear(id, input, keep, commit) =>
      s.(nodes := s.nodes[id := Torn(cfg, n, Handle(cfg, n, input), keep, commit)])
  }

  predicate IsRun(cfg: Config, run: seq<System>, acts: seq<Action>) {
    && ValidConfig(cfg) && |run| == |acts| + 1 && run[0] == Init(cfg)
    && (forall k | 0 <= k < |acts| :: Enabled(cfg, run[k], acts[k]) && run[k + 1] == Next(cfg, run[k], acts[k]))
  }

  /** The reads an action hands to the driver. */
  function ReleasedBy(cfg: Config, s: System, a: Action): seq<ReadState>
    requires ValidConfig(cfg) && Enabled(cfg, s, a)
  {
    if a.Act? then Handle(cfg, s.nodes[a.id], a.input).readStates else []
  }

  /** The last state of a run. */
  predicate Reaches(cfg: Config, run: seq<System>, acts: seq<Action>, s: System) {
    IsRun(cfg, run, acts) && run[|acts|] == s
  }

  lemma RunsOn(cfg: Config, run: seq<System>, acts: seq<Action>, s: System, a: Action)
    requires Reaches(cfg, run, acts, s) && ValidConfig(cfg) && Enabled(cfg, s, a)
    ensures Reaches(cfg, run + [Next(cfg, s, a)], acts + [a], Next(cfg, s, a))
  {
    hide Enabled, Next, Init;
    var run', acts' := run + [Next(cfg, s, a)], acts + [a];
    forall k | 0 <= k < |acts'| ensures Enabled(cfg, run'[k], acts'[k]) && run'[k + 1] == Next(cfg, run'[k], acts'[k]) {
      if k < |acts| {
        assert run'[k] == run[k] && run'[k + 1] == run[k + 1] && acts'[k] == acts[k];
      }
    }
  }

  lemma ReachesLast(cfg: Config, run: seq<System>, acts: seq<Action>, s: System)
    requires Reaches(cfg, run, acts, s)
    ensures IsRun(cfg, run, acts) && |run| == |acts| + 1 && run[|acts|] == s
  {
  }
}
