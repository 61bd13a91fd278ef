/** What each input does, in every run of the cluster: whatever the descriptions
    of single inputs ask of a node holds of every node that a run reaches. */
module InputRuns {
  import opened RaftTypes
  import opened RaftCore
  import opened RaftSystem
  import opened RaftHistory
  import opened RaftInvariant
  import opened SentMessages
  import opened LeaderInputs
  import F = FollowerInputs
  import S = RaftSafety
  import Ru = RaftRuns
  import So = RaftSolo
  import N = RaftNext

  // ----- leaders -----

  /** The first leader elected after a term. */
  lemma {:induction false} Earliest(h: History, t: nat, some: nat) returns (first: nat)
    requires some in h.el && some > t
    ensures first in h.el && first > t && forall t2 | t2 in h.el && t2 > t :: h.el[t2].ord >= h.el[first].ord
    decreases h.el[some].ord
  {
    if t2 :| t2 in h.el && t2 > t && h.el[t2].ord < h.el[some].ord {
      first := Earliest(h, t, t2);
    } else {
      first := some;
    }
  }

  /** Whoever has acknowledged more than a leader's log did so after a later leader
      was elected, and so was not among the voters of the first of those. */
  lemma ClaimsBeyond(cfg: Config, b: Book, t: nat, f: NodeId, first: nat)
    requires GrantsOK(cfg, b.h) && ElectionsOK(cfg, b.h) && t in b.h.el && (f, t) in b.h.claims && b.h.claims[(f, t)] > |b.h.el[t].log|
    requires first in b.h.el && first > t && forall t2 | t2 in b.h.el && t2 > t :: b.h.el[t2].ord >= b.h.el[first].ord
    ensures f !in b.h.el[first].voters
  {
    hide GrantsOK, ElectionsOK, ClaimOK;
    var h := b.h;
    if f in h.el[first].voters {
      var ord, log := VoterClaim(cfg, h, f, t, first);
      ClaimTime(h, ord, log, t, h.claims[(f, t)], first);
    }
  }

  /** What a voter had acknowledged when it voted. */
  lemma VoterClaim(cfg: Config, h: History, f: NodeId, t: nat, first: nat) returns (ord: nat, log: Log)
    requires GrantsOK(cfg, h) && ElectionsOK(cfg, h) && first in h.el && f in h.el[first].voters && t < first && (f, t) in h.claims
    ensures ord <= h.el[first].ord && ClaimOK(h, ord, log, t, h.claims[(f, t)])
  {
    hide ClaimOK;
    assert ElectionOK(cfg, h, first);
    assert GrantOK(cfg, h, f, first);
    var g := h.grants[(f, first)];
    ord, log := g.ord, g.log;
  }

  lemma ClaimTime(h: History, ord: nat, log: Log, t: nat, m: nat, first: nat)
    requires ClaimOK(h, ord, log, t, m) && t in h.el && m > |h.el[t].log|
    requires first in h.el && forall t2 | t2 in h.el && t2 > t :: h.el[t2].ord >= h.el[first].ord
    ensures h.el[first].ord < ord
  {
    var t2 :| Loses(h, t2, t, m) && h.el[t2].ord < ord;
  }

  lemma NeverBeyond(cfg: Config, b: Book, n: Node)
    requires ValidConfig(cfg) && BookOK(cfg, b) && LeadsOK(b.h, n) && ProgressesOK(b.h, n) && n.prs.Keys == PeerSet(cfg)
    ensures Within(cfg, n)
  {
    hide HistOK, AsksOK;
    var over := Matching(cfg, n.prs, |n.log| + 1);
    if Majority(cfg, over) {
      BookHist(cfg, b);
      forall f | f in over ensures (f, n.term) in b.h.claims && b.h.claims[(f, n.term)] > |n.log| {
        assert ProgressOK(b.h, n, f);
      }
      var x :| x in over;
      var some :| some in b.h.el && some > n.term;
      var first := Earliest(b.h, n.term, some);
      var voters := VotersOf(cfg, b.h, first);
      var f := QuorumsMeet(cfg, voters, over);
      ClaimsBeyond(cfg, b, n.term, f, first);
    }
  }

  lemma BookHist(cfg: Config, b: Book)
    requires BookOK(cfg, b)
    ensures GrantsOK(cfg, b.h) && ElectionsOK(cfg, b.h) && HiddenOK(b)
  {
  }

  lemma VotersOf(cfg: Config, h: History, t: nat) returns (voters: set<NodeId>)
    requires ElectionsOK(cfg, h) && t in h.el
    ensures voters == h.el[t].voters && IsQuorum(cfg, voters)
  {
    assert ElectionOK(cfg, h, t);
    voters := h.el[t].voters;
  }

  lemma LeaderRises(cfg: Config, b: Book, n: Node)
    requires ElectionsOK(cfg, b.h) && LeadsOK(b.h, n) && Prov(b.h, b.h.count, n.log)
    ensures RisesTo(n)
  {
    hide ElectionsOK, Prov;
    S.TermsRise(cfg, b.h, n.log);
    forall a | 0 <= a < |n.log| ensures n.log[a].term <= n.term { TermsBound(cfg, b.h, n.term, a); }
  }

  lemma ReadsQueued(cfg: Config, b: Book, n: Node)
    requires ReadsOK(cfg, b, n)
    ensures Queued(n.readOnly) && Gated(n)
  {
    hide NotVoted, Higher;
  }

  lemma LeaderParts(cfg: Config, b: Book, n: Node)
    requires NodeOK(cfg, b, n) && n.role.Leader?
    ensures LeadsOK(b.h, n) && ProgressesOK(b.h, n) && ReadsOK(cfg, b, n) && Prov(b.h, b.h.count, n.log)
    ensures n.prs.Keys == PeerSet(cfg) && Sound(cfg, n) && n.snapIndex <= n.committed <= |n.log|
  {
  }

  /** Every leader of every run is what the descriptions of its inputs ask for. */
  lemma LeadersFit(cfg: Config, run: seq<System>, acts: seq<Action>, k: nat, x: NodeId)
    requires IsRun(cfg, run, acts) && S.Leads(run, k, x)
    ensures LeaderFit(cfg, S.NodeAt(run, k, x)) && Within(cfg, S.NodeAt(run, k, x))
  {
    hide IsRun, Ru.BooksOK, Ru.SysOK, StepOK, BookOK, NodeOK, ReadsOK, LeadsOK, ProgressesOK, Within, RisesTo, Queued, Gated, ElectionsOK;
    S.Sized(cfg, run, acts);
    var n := S.NodeAt(run, k, x);
    if |cfg.peers| == 1 {
      SoleFits(cfg, run, acts, k, x);
    } else {
      var books := Ru.RunOK(cfg, run, acts);
      S.RunLength(cfg, run, acts, books);
      S.StateOK(cfg, run, acts, books, k);
      Ru.IdleStep(cfg, run[k], books[k], x);
      Ru.StepNode(cfg, books[k], n);
      LeaderParts(cfg, books[k], n);
      S.BookParts(cfg, books[k]);
      NeverBeyond(cfg, books[k], n);
      LeaderRises(cfg, books[k], n);
      ReadsQueued(cfg, books[k], n);
      ProgressStarted(books[k].h, n);
    }
  }

  lemma ProgressStarted(h: History, n: Node)
    requires ProgressesOK(h, n)
    ensures Started(n)
  {
    forall p | p in n.prs ensures n.prs[p].next >= 1 { assert ProgressOK(h, n, p); }
  }

  lemma SoleFits(cfg: Config, run: seq<System>, acts: seq<Action>, k: nat, x: NodeId)
    requires IsRun(cfg, run, acts) && |cfg.peers| == 1 && S.Leads(run, k, x)
    ensures LeaderFit(cfg, S.NodeAt(run, k, x)) && Within(cfg, S.NodeAt(run, k, x))
  {
    hide Init, Enabled, Next;
    So.OnlyPeer(cfg);
    So.SoloState(cfg, run, acts, k);
    var n := S.NodeAt(run, k, x);
    assert Matching(cfg, n.prs, |n.log| + 1) == {};
  }

  /** The node after one more input, as the run would go on. */
  lemma After(cfg: Config, run: seq<System>, acts: seq<Action>, k: nat, x: NodeId, input: Input)
    returns (run': seq<System>, acts': seq<Action>)
    requires IsRun(cfg, run, acts) && k < |run| && CanInput(cfg, run[k], x, input)
    ensures ValidConfig(cfg) && IsRun(cfg, run', acts') && |run'| == k + 2 && x in run'[k + 1].nodes
    ensures run'[k + 1].nodes[x] == Drained(Handle(cfg, run[k].nodes[x], input))
  {
    hide Handle, Init, Sound, Recovered, Torn, CanTear;
    S.Sized(cfg, run, acts);
    PrefixRun(cfg, run, acts, k);
    var a := Act(x, input);
    RunsOn(cfg, run[..k + 1], acts[..k], run[k], a);
    run', acts' := run[..k + 1] + [Next(cfg, run[k], a)], acts[..k] + [a];
    ReachesLast(cfg, run', acts', Next(cfg, run[k], a));
  }

  lemma PrefixRun(cfg: Config, run: seq<System>, acts: seq<Action>, k: nat)
    requires IsRun(cfg, run, acts) && k < |run|
    ensures Reaches(cfg, run[..k + 1], acts[..k], run[k])
  {
    hide Init, Enabled, Next;
  }

  lemma StillWithin(cfg: Config, run: seq<System>, acts: seq<Action>, k: nat, x: NodeId, input: Input)
    requires IsRun(cfg, run, acts) && S.Leads(run, k, x) && CanInput(cfg, run[k], x, input)
    requires ValidConfig(cfg) && Handle(cfg, run[k].nodes[x], input).role == Leader
    ensures Within(cfg, Handle(cfg, run[k].nodes[x], input))
  {
    hide IsRun, Handle, Sound, LeaderFit;
    var run', acts' := After(cfg, run, acts, k, x, input);
    LeadersFit(cfg, run', acts', k + 1, x);
    SameWithin(cfg, run'[k + 1].nodes[x], Handle(cfg, run[k].nodes[x], input));
  }

  lemma SameWithin(cfg: Config, a: Node, b: Node)
    requires Within(cfg, a) && b.prs == a.prs && b.log == a.log
    ensures Within(cfg, b)
  {
  }

  /** A proposal in a run. */
  lemma ProposalInRun(cfg: Config, run: seq<System>, acts: seq<Action>, k: nat, x: NodeId, cmds: seq<Bytes>)
    returns (u: Node, s: Node, beats: seq<Message>, copies: seq<Message>)
    requires IsRun(cfg, run, acts) && S.Leads(run, k, x) && cmds != []
    ensures ValidConfig(cfg) && Sound(cfg, run[k].nodes[x]) && run[k].nodes[x].id in run[k].nodes[x].prs
    ensures var n := run[k].nodes[x];
      && u == n.(log := u.log, prs := Counted(n, n.id, |u.log|)) && Extended(n, cmds, u.log)
      && Known(Others(cfg.peers, n.id), u.prs) && Settles(cfg, u, s, beats)
      && s.prs == u.prs && s.snapIndex <= |s.log| && Copies(cfg, s, Others(cfg.peers, n.id), copies)
      && Handle(cfg, n, Commands(cmds)) == s.(msgs := s.msgs + copies)
  {
    hide IsRun, Handle, Settles, Copies, Within, Extended, Started, Known, RisesTo, Queued, Gated;
    var n := run[k].nodes[x];
    LeadersFit(cfg, run, acts, k, x);
    ProposalLog(cfg, n, cmds);
    var r := Handle(cfg, n, Commands(cmds));
    ProposalKeeps(cfg, n, cmds);
    u := n.(log := r.log, prs := Counted(n, n.id, |r.log|));
    StillWithin(cfg, run, acts, k, x, Commands(cmds));
    SameWithin(cfg, r, u);
    s, beats, copies := ProposalAppends(cfg, n, cmds, r.log);
  }

  lemma ProposalKeeps(cfg: Config, n: Node, cmds: seq<Bytes>)
    requires ValidConfig(cfg) && Sound(cfg, n) && n.role == Leader && cmds != []
    ensures var r := Handle(cfg, n, Commands(cmds)); r.role == Leader && r.prs == Counted(n, n.id, |r.log|)
  {
    hide MaybeCommit, BcastAppend, Stamp;
    var es := seq(|cmds|, i requires 0 <= i < |cmds| => (Normal, cmds[i]));
    var log := n.log + Stamp(n.term, |n.log|, es);
    var u := n.(log := log, prs := n.prs[n.id := MaybeUpdate(n.prs[n.id], |log|)]);
    MaybeCommitKeeps(cfg, u);
    KeptByCopies(cfg, MaybeCommit(cfg, u), cfg.peers);
  }

  lemma {:induction false} KeptByCopies(cfg: Config, n: Node, peers: seq<NodeId>)
    requires n.snapIndex <= |n.log|
    ensures var r := BcastAppend(cfg, n, peers); r == n.(msgs := r.msgs)
    decreases peers
  {
    hide AppendFor;
    if peers != [] { KeptByCopies(cfg, if peers[0] == n.id then n else SendAppend(cfg, n, peers[0]), peers[1..]); }
  }

  /** An acknowledgement in a run: if it raises Match, the leader commits the
      highest entry of its term that a majority then holds, if there is one it has
      not committed; otherwise nothing is committed. */
  lemma AckInRun(cfg: Config, run: seq<System>, acts: seq<Action>, k: nat, x: NodeId, m: Message, leased: bool)
    returns (s: Node, beats: seq<Message>, copies: seq<Message>)
    requires IsRun(cfg, run, acts) && S.Leads(run, k, x) && CanInput(cfg, run[k], x, Receive(m, leased))
    requires m.AppendResp? && !m.reject && m.term == run[k].nodes[x].term
    ensures ValidConfig(cfg) && m.from in run[k].nodes[x].prs
    ensures var n := run[k].nodes[x]; var u := n.(prs := Counted(n, m.from, m.logIndex)); var r := Handle(cfg, n, Receive(m, leased));
      if m.logIndex > n.prs[m.from].matched then
        && Known(Others(cfg.peers, n.id), u.prs) && Settles(cfg, u, s, beats) && s.prs == u.prs && s.snapIndex <= |s.log|
        && (if s.committed > n.committed then Copies(cfg, s, Others(cfg.peers, n.id), copies) else s == u && copies == [])
        && r == s.(msgs := s.msgs + copies) && CommitsTo(cfg, u, r.committed)
      else r == u
    ensures var n := run[k].nodes[x]; var u := n.(prs := Counted(n, m.from, m.logIndex)); var r := Handle(cfg, n, Receive(m, leased));
      CommitsTo(cfg, u, r.committed) <==> m.logIndex > n.prs[m.from].matched || CommitsTo(cfg, u, n.committed)
  {
    hide IsRun, Handle, Settles, Copies, Within, Started, Known, RisesTo, Queued, Gated, CommitsTo;
    var n := run[k].nodes[x];
    LeadersFit(cfg, run, acts, k, x);
    SenderKnown(cfg, run, acts, k, x, m, leased);
    s, beats, copies := n, [], [];
    if m.logIndex > n.prs[m.from].matched {
      AckKeeps(cfg, n, m, leased);
      StillWithin(cfg, run, acts, k, x, Receive(m, leased));
      var u := n.(prs := Counted(n, m.from, m.logIndex));
      SameWithin(cfg, Handle(cfg, n, Receive(m, leased)), u);
      var u1;
      u1, s, beats, copies := AckCommits(cfg, n, m, leased);
      SettlesCommits(cfg, u, s, beats);
    } else {
      AckCounts(cfg, n, m, leased);
    }
  }

  lemma SettlesCommits(cfg: Config, n: Node, r: Node, beats: seq<Message>)
    requires Known(Others(cfg.peers, n.id), n.prs) && Settles(cfg, n, r, beats)
    ensures CommitsTo(cfg, n, r.committed)
  {
    hide CommitsTo, Opens;
  }

  lemma AckKeeps(cfg: Config, n: Node, m: Message, leased: bool)
    requires ValidConfig(cfg) && Sound(cfg, n) && n.role == Leader && Own(n, m) && m.AppendResp? && !m.reject && m.from in n.prs
    ensures var r := Handle(cfg, n, Receive(m, leased)); r.role == Leader && r.log == n.log && r.prs == Counted(n, m.from, m.logIndex)
  {
    hide MaybeCommit, CanCommit, BcastAppend, Handle;
    AckHandled(cfg, n, m, leased);
    var u := n.(prs := Counted(n, m.from, m.logIndex));
    MaybeCommitKeeps(cfg, u);
    KeptByCopies(cfg, MaybeCommit(cfg, u), cfg.peers);
  }

  lemma SenderKnown(cfg: Config, run: seq<System>, acts: seq<Action>, k: nat, x: NodeId, m: Message, leased: bool)
    requires IsRun(cfg, run, acts) && k < |run| && CanInput(cfg, run[k], x, Receive(m, leased))
    ensures m.from in run[k].nodes[x].prs && m.term >= 1
  {
    hide IsRun, Ru.BooksOK, Ru.SysOK, StepOK, BookOK, NodeOK, MsgBodyOK;
    S.Sized(cfg, run, acts);
    if |cfg.peers| == 1 {
      NoMessages(cfg, run, acts, k, m);
    } else {
      var books := Ru.RunOK(cfg, run, acts);
      S.RunLength(cfg, run, acts, books);
      S.StateOK(cfg, run, acts, books, k);
      Ru.MessageTerm(cfg, run[k], books[k], m);
    }
  }

  lemma NoMessages(cfg: Config, run: seq<System>, acts: seq<Action>, k: nat, m: Message)
    requires IsRun(cfg, run, acts) && |cfg.peers| == 1 && k < |run|
    ensures m !in run[k].net
  {
    hide Init, Enabled, Next, So.SoloNode;
    So.SoloState(cfg, run, acts, k);
  }

  /** The answer to a heartbeat in a run. */
  lemma BeatInRun(cfg: Config, run: seq<System>, acts: seq<Action>, k: nat, x: NodeId, m: Message, leased: bool)
    returns (out: seq<Message>, a: Node)
    requires IsRun(cfg, run, acts) && S.Leads(run, k, x) && CanInput(cfg, run[k], x, Receive(m, leased))
    requires m.HeartbeatResp? && m.term == run[k].nodes[x].term
    ensures ValidConfig(cfg) && run[k].nodes[x].snapIndex <= |run[k].nodes[x].log| && Queued(run[k].nodes[x].readOnly)
    ensures var n := run[k].nodes[x]; var ro := n.readOnly; var c := m.context; var r := Handle(cfg, n, Receive(m, leased));
      && Nudged(cfg, n, m.from, out)
      && if c == [] || c !in ro.pending then r == n.(msgs := n.msgs + out)
         else
           && a == n.(msgs := n.msgs + out,
                readOnly := ro.(pending := ro.pending[c := ReadStatus(ro.pending[c].index, ro.pending[c].acks + {m.from})]))
           && if !Majority(cfg, ro.pending[c].acks + {m.from}) then r == a
              else
                && r == a.(readStates := r.readStates, readOnly := r.readOnly)
                && exists p :: 0 <= p < |ro.queue| && ro.queue[p] == c && Answered(a, p, r)
  {
    hide IsRun, Handle, Within, Started, RisesTo, Gated, Answered, Nudged;
    LeadersFit(cfg, run, acts, k, x);
    SenderKnown(cfg, run, acts, k, x, m, leased);
    out, a := BeatAnswered(cfg, run[k].nodes[x], m, leased);
  }

  // ----- followers -----

  /** What a leader sends and what a node holds are pieces of one history. */
  lemma AppendMeets(cfg: Config, b: Book, n: Node, m: Message)
    requires BookOK(cfg, b) && NodeOK(cfg, b, n) && MsgOK(cfg, b, m) && m.Append? && m.to == n.id
    ensures F.Meets(n, m) && (m.logIndex > |n.log| ==> m.logTerm > 0)
  {
    hide BookOK, NodeOK, ElectionsOK, AppendBodyOK;
    BookHist(cfg, b);
    LeaderParted(cfg, b, n);
    AppendParts(cfg, b, n, m);
    forall j | 0 <= j < |m.entries|
      ensures m.entries[j].index == m.logIndex + 1 + j && m.entries[j].term >= 1
      ensures m.logIndex + j < |n.log| && n.log[m.logIndex + j].term == m.entries[j].term ==> n.log[m.logIndex + j] == m.entries[j]
    {
      EntryMeets(cfg, b.h, m.term, n.log, m.logIndex + j);
    }
  }

  lemma LeaderParted(cfg: Config, b: Book, n: Node)
    requires NodeOK(cfg, b, n)
    ensures Prov(b.h, b.h.count, n.log) && MarksOK(b, n) && n.snapIndex <= |n.log|
  {
  }

  /** The entries are cut from the leader's log, and follow an entry of it. */
  lemma AppendParts(cfg: Config, b: Book, n: Node, m: Message)
    requires MsgOK(cfg, b, m) && m.Append? && m.to == n.id && ElectionsOK(cfg, b.h) && MarksOK(b, n) && n.snapIndex <= |n.log|
    ensures m.term in b.h.el && (m.entries != [] ==> m.logIndex + |m.entries| <= |b.h.el[m.term].log|)
    ensures forall j | 0 <= j < |m.entries| :: m.entries[j] == b.h.el[m.term].log[m.logIndex + j]
    ensures m.logIndex > |n.log| ==> m.logTerm > 0
  {
    hide MsgOK, ElectionsOK;
    AppendBody(cfg, b, m);
    LeaderProv(cfg, b.h, m.term);
    ProvWellFormed(cfg, b.h, b.h.count, b.h.el[m.term].log);
  }

  lemma AppendBody(cfg: Config, b: Book, m: Message)
    requires MsgOK(cfg, b, m) && m.Append?
    ensures m.term in b.h.el && AppendBodyOK(b, m)
  {
  }

  lemma EntryMeets(cfg: Config, h: History, t: nat, log: Log, p: nat)
    requires ElectionsOK(cfg, h) && t in h.el && p < |h.el[t].log| && Prov(h, h.count, log)
    ensures h.el[t].log[p].index == p + 1 && h.el[t].log[p].term >= 1
    ensures p < |log| && log[p].term == h.el[t].log[p].term ==> log[p] == h.el[t].log[p]
  {
    hide Prov;
    LeaderProv(cfg, h, t);
    ProvWellFormed(cfg, h, h.count, h.el[t].log);
    if p < |log| && log[p].term == h.el[t].log[p].term {
      SameTermSameLog(cfg, h, log, h.el[t].log, p);
      assert log[..p + 1][p] == h.el[t].log[..p + 1][p];
    }
  }

  lemma LeaderProv(cfg: Config, h: History, t: nat)
    requires ElectionsOK(cfg, h) && t in h.el
    ensures Prov(h, h.count, h.el[t].log)
  {
    assert ElectionOK(cfg, h, t);
  }

  /** Every append that reaches a node of a run is one the description of appends
      covers, and so is every snapshot. */
  lemma FollowersFit(cfg: Config, run: seq<System>, acts: seq<Action>, k: nat, x: NodeId, m: Message, leased: bool)
    requires IsRun(cfg, run, acts) && k < |run| && CanInput(cfg, run[k], x, Receive(m, leased))
    ensures ValidConfig(cfg) && m.term >= 1
    ensures var n := run[k].nodes[x];
      && Sound(cfg, n) && n.snapIndex <= n.committed <= |n.log|
      && (m.Append? ==> F.Meets(n, m) && (m.logIndex > |n.log| ==> m.logTerm > 0))
      && (m.InstallSnapshot? && m.prefix != [] ==> m.prefix[|m.prefix| - 1].term >= 1)
  {
    hide IsRun, Ru.BooksOK, Ru.SysOK, StepOK, BookOK, NodeOK, MsgOK, F.Meets, ElectionsOK;
    S.Sized(cfg, run, acts);
    var n := run[k].nodes[x];
    if |cfg.peers| == 1 {
      NoMessages(cfg, run, acts, k, m);
    } else {
      var books := Ru.RunOK(cfg, run, acts);
      S.RunLength(cfg, run, acts, books);
      S.StateOK(cfg, run, acts, books, k);
      Ru.IdleStep(cfg, run[k], books[k], x);
      Ru.StepNode(cfg, books[k], n);
      S.ShapeAt(cfg, books[k], n);
      Ru.MessageTerm(cfg, run[k], books[k], m);
      N.StateBook(cfg, run[k], books[k]);
      N.MessageTermed(cfg, books[k], m);
      if m.Append? { AppendMeets(cfg, books[k], n, m); }
    }
  }
}
