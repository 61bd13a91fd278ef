/** The inputs of a process as its driver meets them: what the core makes of
    each, and what every run of the cluster guarantees about it. */
module ReadyInputs {
  import opened RaftTypes
  import opened PlainLog
  import C = RaftCore
  import S = RaftSystem
  import H = RaftHistory
  import I = RaftInvariant
  import T = RaftTear
  import St = RaftSteady
  import Ru = RaftRuns
  import So = RaftSolo
  import Sa = RaftSafety
  import D = ClusterDisk

  /** Messages by which a leader writes to the log of another node. */
  predicate Replicates(m: Message) { m.Append? || m.Heartbeat? || m.InstallSnapshot? }

  /** The node after it has taken the sender for the leader of its term. */
  function Turned(cfg: Config, n: Node, m: Message): Node {
    if n.role.Follower? && m.term == n.term then n.(lead := m.from) else C.BecomeFollower(cfg, n, m.term, m.from)
  }

  predicate Stale(n: Node, m: Message) { m.term < n.term }

  /** A leader takes nothing from another of its own term. */
  predicate Ignored(n: Node, m: Message) { n.role.Leader? && m.term == n.term }

  lemma ReplicationSteps(cfg: Config, n: Node, m: Message, leased: bool)
    requires ValidConfig(cfg) && S.Sound(cfg, n) && Replicates(m) && m.term >= 1
    ensures var r, nf := C.Step(cfg, n, m, leased), Turned(cfg, n, m);
      if Stale(n, m) then r == C.ReplyStale(n, m)
      else if Ignored(n, m) then r == n
      else if m.Append? then r == C.HandleAppend(nf, m)
      else if m.Heartbeat? then r == C.HandleHeartbeat(nf, m)
      else r == C.HandleSnapshot(nf, m)
  {
    hide C.HandleAppend, C.HandleHeartbeat, C.HandleSnapshot, C.FreshProgress;
  }

  /** The log only grows at its end, and the commit index with it. */
  predicate Grows(n: Node, r: Node) {
    && r.id == n.id && r.snapIndex == n.snapIndex && n.log <= r.log && n.committed <= r.committed <= |r.log|
    && Contiguous(r.log[|n.log|..], |n.log| + 1)
  }

  /** What a driver may rely on when it steps an input in. */
  predicate Servable(cfg: Config, n: Node, input: S.Input)
    requires ValidConfig(cfg) && S.Sound(cfg, n)
  {
    && !S.Handle(cfg, n, input).panicked && n.snapIndex <= n.committed
    && if input.Receive? && Replicates(input.m) then
         input.m.term >= 1 && (input.m.Append? ==> Contiguous(input.m.entries, input.m.logIndex + 1))
       else Grows(n, S.Handle(cfg, n, input))
  }

  // ----- every input of every run is one -----

  lemma NoPanic(cfg: Config, run: seq<S.System>, acts: seq<S.Action>, s: S.System, id: NodeId, input: S.Input)
    requires S.Reaches(cfg, run, acts, s) && ValidConfig(cfg) && S.CanInput(cfg, s, id, input) && id in PeerSet(cfg)
    ensures !S.Handle(cfg, s.nodes[id], input).panicked
  {
    hide S.IsRun, S.Handle, S.Sound;
    var a := S.Act(id, input);
    S.RunsOn(cfg, run, acts, s, a);
    var s' := S.Next(cfg, s, a);
    S.ReachesLast(cfg, run + [s'], acts + [a], s');
    Sa.NeverPanics(cfg, run + [s'], acts + [a], |acts| + 1, id);
  }

  lemma MessageGrows(cfg: Config, n: Node, m: Message, leased: bool)
    requires ValidConfig(cfg) && S.Sound(cfg, n) && m.term >= 1 && !Replicates(m) && |cfg.peers| > 1
    ensures n.log <= C.Step(cfg, n, m, leased).log
  {
    hide C.Step, C.Granted;
    St.StepNotAlone(cfg, n, m, leased);
    if m.VoteResp? || m.PreVoteResp? {
      T.VoteLog(cfg, n, m, leased);
    } else {
      T.StaleLog(cfg, n, m, leased);
    }
  }

  lemma OwnGrows(cfg: Config, n: Node, input: S.Input)
    requires ValidConfig(cfg) && S.Sound(cfg, n) && !input.Receive? && |cfg.peers| > 1 && n.readStates == []
    ensures n.log <= S.Handle(cfg, n, input).log
  {
    hide C.TimerFires, C.Propose, C.ReadIndex;
    St.NewLeaderKeepsTerm(cfg, n, input);
    match input
    case Timer => T.TimerLog(cfg, n);
    case Commands(cmds) => T.ProposeLog(cfg, n, cmds);
    case Read(ctx) => T.ReadIndexLog(cfg, n.(issued := n.issued + {ctx}), ctx);
  }

  lemma SentContiguous(cfg: Config, b: I.Book, m: Message)
    requires I.MsgOK(cfg, b, m) && m.Append? && H.ElectionsOK(cfg, b.h)
    ensures Contiguous(m.entries, m.logIndex + 1)
  {
    hide H.ElectionsOK, H.WellFormed, Contiguous, I.Superseded;
    ElectedWell(cfg, b.h, m.term);
    var log := b.h.el[m.term].log;
    if m.entries == [] {
      SliceContiguous([], 0, m.entries);
    } else {
      SliceContiguous(log, m.logIndex, m.entries);
    }
  }

  lemma SliceContiguous(log: Log, from: nat, es: Log)
    requires H.WellFormed(log) && (es == [] || (from + |es| <= |log| && es == log[from..from + |es|]))
    ensures Contiguous(es, from + 1)
    ensures es == [] ==> forall i: nat :: Contiguous(es, i)
  {
  }

  lemma ElectedWell(cfg: Config, h: H.History, t: nat)
    requires H.ElectionsOK(cfg, h) && t in h.el
    ensures H.WellFormed(h.el[t].log)
  {
    assert H.ElectionOK(cfg, h, t);
  }

  /** The facts about one message or own input in a cluster of several. */
  lemma ManyInput(cfg: Config, s: S.System, b: I.Book, id: NodeId, input: S.Input)
    requires Ru.SysOK(cfg, s, b) && ValidConfig(cfg) && |cfg.peers| > 1 && S.CanInput(cfg, s, id, input)
    ensures s.nodes[id].id == id && (input.Receive? ==> input.m.term >= 1)
    ensures input.Receive? && input.m.Append? ==> Contiguous(input.m.entries, input.m.logIndex + 1)
    ensures !(input.Receive? && Replicates(input.m)) ==> s.nodes[id].log <= S.Handle(cfg, s.nodes[id], input).log
  {
    hide Ru.SysOK, I.StepOK, I.MsgOK, S.Sound, S.Handle, H.ElectionsOK, I.BookOK, Contiguous;
    Ru.IdleStep(cfg, s, b, id);
    var n := s.nodes[id];
    if input.Receive? {
      Ru.MessageTerm(cfg, s, b, input.m);
      Elections(cfg, s, b);
      if input.m.Append? { SentContiguous(cfg, b, input.m); }
      D.Received(cfg, n, input);
      if !Replicates(input.m) { MessageGrows(cfg, n, input.m, input.leased); }
    } else {
      OwnGrows(cfg, n, input);
    }
  }

  lemma Elections(cfg: Config, s: S.System, b: I.Book)
    requires Ru.SysOK(cfg, s, b)
    ensures H.ElectionsOK(cfg, b.h)
  {
  }

  lemma SoleInput(cfg: Config, run: seq<S.System>, acts: seq<S.Action>, k: nat, id: NodeId, input: S.Input)
    requires S.IsRun(cfg, run, acts) && |cfg.peers| == 1 && k < |run| && S.CanInput(cfg, run[k], id, input)
    ensures ValidConfig(cfg) && !input.Receive? && run[k].nodes[id].id == id
    ensures run[k].nodes[id].log <= S.Handle(cfg, run[k].nodes[id], input).log
  {
    hide S.Handle, S.Init, S.Next, S.Enabled, H.WellFormed, D.B.Rising;
    So.SoloState(cfg, run, acts, k);
    So.SoloHandle(cfg, run[k].nodes[id], input);
  }

  /** In every run of the cluster a driver may step in every input that can come. */
  lemma InputServable(cfg: Config, run: seq<S.System>, acts: seq<S.Action>, k: nat, id: NodeId, input: S.Input)
    requires S.IsRun(cfg, run, acts) && k < |run| && S.CanInput(cfg, run[k], id, input)
    ensures ValidConfig(cfg) && Servable(cfg, run[k].nodes[id], input)
  {
    hide S.IsRun, S.Handle, S.Sound, Ru.BooksOK, Ru.SysOK, Contiguous, H.WellFormed;
    Sa.Sized(cfg, run, acts);
    var n, r := run[k].nodes[id], S.Handle(cfg, run[k].nodes[id], input);
    if |cfg.peers| == 1 {
      SoleInput(cfg, run, acts, k, id, input);
    } else {
      var books := Ru.RunOK(cfg, run, acts);
      Sa.RunLength(cfg, run, acts, books);
      Sa.StateOK(cfg, run, acts, books, k);
      ManyInput(cfg, run[k], books[k], id, input);
    }
    D.InputMoves(cfg, run, acts, k, id, input);
    SoundPeer(cfg, n);
    PrefixReaches(cfg, run, acts, k);
    NoPanic(cfg, run[..k + 1], acts[..k], run[k], id, input);
    if !(input.Receive? && Replicates(input.m)) {
      St.HandleSteady(cfg, n, input);
      TailRuns(n.log, r.log);
    }
  }

  lemma SoundPeer(cfg: Config, n: Node)
    requires S.Sound(cfg, n)
    ensures n.id in PeerSet(cfg)
  {
  }

  lemma PrefixReaches(cfg: Config, run: seq<S.System>, acts: seq<S.Action>, k: nat)
    requires S.IsRun(cfg, run, acts) && k < |run|
    ensures S.Reaches(cfg, run[..k + 1], acts[..k], run[k])
  {
    hide S.Init, S.Enabled, S.Next;
  }

  lemma TailRuns(log: Log, log': Log)
    requires log <= log' && H.WellFormed(log')
    ensures Contiguous(log'[|log|..], |log| + 1)
  {
  }
}
