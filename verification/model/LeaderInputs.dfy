/** What each input does to a leader, said without the core's own functions. */
module LeaderInputs {
  import opened RaftTypes
  import opened RaftCore
  import opened RaftQuorum
  import opened RaftSystem
  import opened SentMessages

  // ----- what may be committed -----

  predicate Majority(cfg: Config, s: set<NodeId>) { 2 * |s| > |cfg.peers| }

  /** The members known to hold everything up to an index. */
  function Matching(cfg: Config, prs: map<NodeId, Progress>, i: nat): set<NodeId> {
    set p | p in PeerSet(cfg) && p in prs && prs[p].matched >= i
  }

  /** An entry of the leader's own term that is not committed and that a majority
      is known to hold. */
  predicate Committable(cfg: Config, n: Node, i: nat) {
    n.committed < i <= |n.log| && n.log[i - 1].term == n.term && Majority(cfg, Matching(cfg, n.prs, i))
  }

  /** The highest such index, if there is one; else what was committed before. */
  ghost predicate CommitsTo(cfg: Config, n: Node, c: nat) {
    if exists i: nat :: Committable(cfg, n, i) then Committable(cfg, n, c) && forall i: nat | Committable(cfg, n, i) :: i <= c
    else c == n.committed
  }

  /** Terms rise along the log, up to the node's own. */
  predicate RisesTo(n: Node) {
    && (forall a, b | 0 <= a <= b < |n.log| :: n.log[a].term <= n.log[b].term)
    && (forall a | 0 <= a < |n.log| :: n.log[a].term <= n.term)
  }

  /** No majority has acknowledged more than there is. */
  predicate Within(cfg: Config, n: Node) { !Majority(cfg, Matching(cfg, n.prs, |n.log| + 1)) }

  /** Pending reads wait in a queue, each once. */
  predicate Queued(ro: ReadOnly) {
    && (forall a | 0 <= a < |ro.queue| :: ro.queue[a] in ro.pending)
    && (forall a, b | 0 <= a < b < |ro.queue| :: ro.queue[a] != ro.queue[b])
    && (forall c | c in ro.pending :: c in ro.queue)
  }

  /** Reads that wait for a commit wait once, and not in the queue too. */
  predicate Gated(n: Node) {
    && (forall a | 0 <= a < |n.gated| :: n.gated[a] !in n.readOnly.pending)
    && (forall a, b | 0 <= a < b < |n.gated| :: n.gated[a] != n.gated[b])
  }

  /** What holds of every leader of every run. */
  predicate LeaderFit(cfg: Config, n: Node) {
    && ValidConfig(cfg) && Sound(cfg, n) && n.role == Leader && n.snapIndex <= n.committed <= |n.log|
    && Started(n) && RisesTo(n) && Queued(n.readOnly) && Gated(n)
  }

  lemma MatchingHolds(cfg: Config, n: Node, i: nat)
    requires ValidConfig(cfg) && n.prs.Keys == PeerSet(cfg)
    ensures Majority(cfg, Matching(cfg, n.prs, i)) <==> i <= QuorumIndex(cfg, n)
  {
    hide QuorumIndex;
    QuorumIndexMeaning(cfg, n, i);
    var a, b := Matching(cfg, n.prs, i), Holders(n, cfg.peers, i);
    forall x | x in a ensures x in b {
      var j :| 0 <= j < |cfg.peers| && cfg.peers[j] == x;
    }
    assert a == b;
  }

  /** The commit rule. */
  lemma CommitRule(cfg: Config, n: Node)
    requires ValidConfig(cfg) && n.prs.Keys == PeerSet(cfg) && n.snapIndex <= n.committed <= |n.log|
    requires RisesTo(n) && Within(cfg, n)
    ensures CommitsTo(cfg, n, if CanCommit(cfg, n) then QuorumIndex(cfg, n) else n.committed)
    ensures CanCommit(cfg, n) ==> n.committed < QuorumIndex(cfg, n) <= |n.log| && n.log[QuorumIndex(cfg, n) - 1].term == n.term
  {
    hide QuorumIndex, Matching, Majority;
    var q := QuorumIndex(cfg, n);
    MatchingHolds(cfg, n, |n.log| + 1);
    MatchingHolds(cfg, n, q);
    forall i: nat | Committable(cfg, n, i) ensures i <= q && CanCommit(cfg, n) && Committable(cfg, n, q) {
      MatchingHolds(cfg, n, i);
      assert n.log[i - 1].term <= n.log[q - 1].term;
    }
    if CanCommit(cfg, n) { assert Committable(cfg, n, q); }
  }

  /** A majority that claims more than there is holds back every commit. */
  lemma NoCommitBeyond(cfg: Config, n: Node)
    requires ValidConfig(cfg) && n.prs.Keys == PeerSet(cfg) && !Within(cfg, n) && n.term > 0
    ensures !CanCommit(cfg, n)
  {
    hide QuorumIndex, Matching, Majority;
    MatchingHolds(cfg, n, |n.log| + 1);
  }

  // ----- reads that are opened -----

  predicate NewContexts(ro: ReadOnly, ctxs: seq<Context>) {
    && (forall a | 0 <= a < |ctxs| :: ctxs[a] !in ro.pending)
    && (forall a, b | 0 <= a < b < |ctxs| :: ctxs[a] != ctxs[b])
  }

  /** Reads become pending in order, at the commit index, acknowledged by the node
      itself, and a round of heartbeats asks the others; a node that is alone
      answers at once. */
  ghost predicate Opens(cfg: Config, n: Node, ctxs: seq<Context>, r: Node, out: seq<Message>)
    requires Known(Others(cfg.peers, n.id), n.prs)
  {
    && r == n.(readOnly := r.readOnly, readStates := r.readStates, msgs := n.msgs + out)
    && if |cfg.peers| == 1 then
         && out == [] && r.readOnly == n.readOnly && |r.readStates| == |n.readStates| + |ctxs| && n.readStates <= r.readStates
         && (forall a | 0 <= a < |ctxs| :: r.readStates[|n.readStates| + a] == ReadState(n.committed, ctxs[a]))
       else
         && r.readStates == n.readStates && r.readOnly.queue == n.readOnly.queue + ctxs
         && (forall c :: c in r.readOnly.pending <==> c in n.readOnly.pending || c in ctxs)
         && (forall c | c in n.readOnly.pending && c !in ctxs :: r.readOnly.pending[c] == n.readOnly.pending[c])
         && (forall c | c in ctxs :: r.readOnly.pending[c] == ReadStatus(n.committed, {n.id}))
         && Rounds(n, Others(cfg.peers, n.id), ctxs, out)
  }

  lemma OneOpens(cfg: Config, n: Node, c: Context) returns (out: seq<Message>)
    requires ValidConfig(cfg) && Known(cfg.peers, n.prs) && n.prs.Keys == PeerSet(cfg) && c !in n.readOnly.pending
    ensures Known(Others(cfg.peers, n.id), n.prs)
    ensures |cfg.peers| == 1 ==> out == [] && SendReadIndex(cfg, n, c) == n.(readStates := n.readStates + [ReadState(n.committed, c)])
    ensures |cfg.peers| != 1 ==>
      && SendReadIndex(cfg, n, c) == n.(msgs := n.msgs + out,
           readOnly := ReadOnly(n.readOnly.pending[c := ReadStatus(n.committed, {n.id})], n.readOnly.queue + [c]))
      && Beats(n, Others(cfg.peers, n.id), c, out)
  {
    hide BcastHeartbeat;
    OthersKnown(cfg.peers, n.id, n.prs);
    out := [];
    if |cfg.peers| != 1 {
      var ro := RecvAck(AddRequest(n.readOnly, n.committed, c), n.id, c);
      assert {} + {n.id} == {n.id};
      assert ro.pending == n.readOnly.pending[c := ReadStatus(n.committed, {n.id})];
      var n1 := n.(readOnly := ro);
      out := BeatsSent(n1, cfg.peers, c);
      assert Beats(n, Others(cfg.peers, n.id), c, out);
    }
  }

  lemma {:induction false} AllOpen(cfg: Config, n: Node, ctxs: seq<Context>) returns (out: seq<Message>)
    requires ValidConfig(cfg) && Known(cfg.peers, n.prs) && n.prs.Keys == PeerSet(cfg) && NewContexts(n.readOnly, ctxs)
    ensures Known(Others(cfg.peers, n.id), n.prs)
    ensures Opens(cfg, n, ctxs, SendReadIndexes(cfg, n, ctxs), out)
    decreases ctxs
  {
    hide SendReadIndex, Beats, Rounds, Known;
    OthersKnown(cfg.peers, n.id, n.prs);
    if ctxs == [] {
      out := [];
      assert n.msgs + out == n.msgs;
      assert n.readOnly.queue + ctxs == n.readOnly.queue;
      NoRounds(n, Others(cfg.peers, n.id));
    } else {
      var c, rest := ctxs[0], ctxs[1..];
      var first := OneOpens(cfg, n, c);
      var n1 := SendReadIndex(cfg, n, c);
      var more := AllOpen(cfg, n1, rest);
      out := first + more;
      OpensMore(cfg, n, ctxs, n1, first, SendReadIndexes(cfg, n1, rest), more);
    }
  }

  lemma NoRounds(n: Node, to: seq<NodeId>)
    requires Known(to, n.prs)
    ensures Rounds(n, to, [], [])
  {
  }

  lemma OpensMore(cfg: Config, n: Node, ctxs: seq<Context>, n1: Node, first: seq<Message>, r: Node, more: seq<Message>)
    requires Known(Others(cfg.peers, n.id), n.prs) && ctxs != [] && NewContexts(n.readOnly, ctxs)
    requires |cfg.peers| == 1 ==> first == [] && n1 == n.(readStates := n.readStates + [ReadState(n.committed, ctxs[0])])
    requires |cfg.peers| != 1 ==>
      && n1 == n.(msgs := n.msgs + first,
           readOnly := ReadOnly(n.readOnly.pending[ctxs[0] := ReadStatus(n.committed, {n.id})], n.readOnly.queue + [ctxs[0]]))
      && Beats(n, Others(cfg.peers, n.id), ctxs[0], first)
    requires Known(Others(cfg.peers, n1.id), n1.prs) && Opens(cfg, n1, ctxs[1..], r, more)
    ensures Opens(cfg, n, ctxs, r, first + more)
  {
    hide Beats;
    var c, rest, to := ctxs[0], ctxs[1..], Others(cfg.peers, n.id);
    assert ctxs == [c] + rest;
    if |cfg.peers| == 1 {
      assert n.msgs + (first + more) == n.msgs;
    } else {
      assert n.msgs + (first + more) == n1.msgs + more;
      assert n.readOnly.queue + ctxs == n1.readOnly.queue + rest;
      SameRounds(n, n1, to, rest, more);
      RoundsMore(n, to, ctxs, first, more);
    }
  }

  lemma SameRounds(n: Node, n1: Node, to: seq<NodeId>, ctxs: seq<Context>, out: seq<Message>)
    requires Known(to, n.prs) && n1.prs == n.prs && n1.id == n.id && n1.term == n.term && n1.committed == n.committed
    requires Rounds(n1, to, ctxs, out)
    ensures Rounds(n, to, ctxs, out)
  {
    forall j | 0 <= j < |ctxs| ensures Round(n, to, ctxs, out, j) { assert Round(n1, to, ctxs, out, j); }
  }

  // ----- a commit and what follows it -----

  /** The commit index moves as the rule says; if it moves, the reads that waited
      for it are opened. */
  ghost predicate Settles(cfg: Config, n: Node, r: Node, beats: seq<Message>)
    requires Known(Others(cfg.peers, n.id), n.prs)
  {
    && CommitsTo(cfg, n, r.committed)
    && if r.committed == n.committed then r == n && beats == []
       else Opens(cfg, n.(committed := r.committed, gated := []), n.gated, r, beats)
  }

  lemma CommitSettles(cfg: Config, n: Node) returns (beats: seq<Message>)
    requires ValidConfig(cfg) && Sound(cfg, n) && n.role == Leader && n.snapIndex <= n.committed <= |n.log|
    requires RisesTo(n) && Within(cfg, n) && NewContexts(n.readOnly, n.gated)
    ensures Known(Others(cfg.peers, n.id), n.prs)
    ensures Settles(cfg, n, MaybeCommit(cfg, n), beats)
  {
    hide SendReadIndexes, QuorumIndex, CommitsTo, Rounds;
    AllKnown(cfg, n);
    OthersKnown(cfg.peers, n.id, n.prs);
    CommitRule(cfg, n);
    beats := [];
    if CanCommit(cfg, n) {
      var c := n.(committed := QuorumIndex(cfg, n));
      assert CommitTo(n, QuorumIndex(cfg, n)) == c;
      beats := AllOpen(cfg, c.(gated := []), c.gated);
    }
  }

  lemma AllKnown(cfg: Config, n: Node)
    requires n.prs.Keys == PeerSet(cfg)
    ensures Known(cfg.peers, n.prs)
  {
    forall i | 0 <= i < |cfg.peers| ensures cfg.peers[i] in n.prs { assert cfg.peers[i] in PeerSet(cfg); }
  }

  lemma OpensKeeps(cfg: Config, n: Node, ctxs: seq<Context>, r: Node, out: seq<Message>)
    requires Known(Others(cfg.peers, n.id), n.prs) && Opens(cfg, n, ctxs, r, out)
    ensures r == n.(readOnly := r.readOnly, readStates := r.readStates, msgs := r.msgs)
  {
    hide Rounds;
  }

  /** What a settled node then broadcasts. */
  lemma SettledCopies(cfg: Config, n: Node, s: Node, beats: seq<Message>) returns (copies: seq<Message>)
    requires ValidConfig(cfg) && Sound(cfg, n) && Started(n)
    requires Known(Others(cfg.peers, n.id), n.prs) && Settles(cfg, n, s, beats)
    ensures s.id == n.id && s.prs == n.prs && s.snapIndex <= |s.log|
    ensures BcastAppend(cfg, s, cfg.peers) == s.(msgs := s.msgs + copies) && Copies(cfg, s, Others(cfg.peers, s.id), copies)
  {
    hide BcastAppend, CommitsTo, Copies, Opens;
    AllKnown(cfg, n);
    if s.committed != n.committed {
      OpensKeeps(cfg, n.(committed := s.committed, gated := []), n.gated, s, beats);
    }
    copies := CopiesSent(cfg, s, cfg.peers);
  }

  // ----- proposals -----

  /** The log after a proposal: every command, in order, in an entry of its own. */
  predicate Extended(n: Node, cmds: seq<Bytes>, log: Log) {
    && n.log <= log && |log| == |n.log| + |cmds|
    && (forall i | 0 <= i < |cmds| ::
          var e := log[|n.log| + i]; e.kind == Normal && e.data == cmds[i] && e.term == n.term && e.index == |n.log| + 1 + i)
  }

  /** An acknowledgement is counted. */
  function Counted(n: Node, from: NodeId, index: nat): map<NodeId, Progress>
    requires from in n.prs
  {
    n.prs[from := Progress(if index > n.prs[from].matched then index else n.prs[from].matched,
                           if index + 1 > n.prs[from].next then index + 1 else n.prs[from].next)]
  }

  /** A proposal to a leader: its commands join the log, the leader counts itself
      as holding them, commits what that allows, and sends everyone what they lack. */
  lemma ProposalAppends(cfg: Config, n: Node, cmds: seq<Bytes>, log: Log)
    returns (s: Node, beats: seq<Message>, copies: seq<Message>)
    requires LeaderFit(cfg, n) && cmds != [] && Extended(n, cmds, log)
    requires Within(cfg, n.(log := log, prs := Counted(n, n.id, |log|)))
    ensures var u := n.(log := log, prs := Counted(n, n.id, |log|));
      && Known(Others(cfg.peers, n.id), u.prs) && Settles(cfg, u, s, beats)
      && s.prs == u.prs && s.snapIndex <= |s.log| && Copies(cfg, s, Others(cfg.peers, n.id), copies)
    ensures Handle(cfg, n, Commands(cmds)) == s.(msgs := s.msgs + copies)
  {
    hide MaybeCommit, BcastAppend, Copies, Settles, CommitsTo, Queued, Within;
    var u := n.(log := log, prs := Counted(n, n.id, |log|));
    ProposalStamped(n, cmds, log);
    Grown(cfg, n, u);
    beats := CommitSettles(cfg, u);
    s := MaybeCommit(cfg, u);
    copies := SettledCopies(cfg, u, s, beats);
    assert Handle(cfg, n, Commands(cmds)) == BcastAppend(cfg, s, cfg.peers) by { Proposed(cfg, n, cmds, log); }
  }

  lemma ProposalStamped(n: Node, cmds: seq<Bytes>, log: Log)
    requires Extended(n, cmds, log)
    ensures log == n.log + Stamp(n.term, |n.log|, seq(|cmds|, i requires 0 <= i < |cmds| => (Normal, cmds[i])))
    ensures forall i | |n.log| <= i < |log| :: log[i].term == n.term
  {
    var tail := log[|n.log|..];
    assert log == n.log + tail;
    forall i | |n.log| <= i < |log| ensures log[i].term == n.term {
      var j := i - |n.log|;
      assert log[|n.log| + j].data == cmds[j];
    }
  }

  lemma Proposed(cfg: Config, n: Node, cmds: seq<Bytes>, log: Log)
    requires ValidConfig(cfg) && Sound(cfg, n) && n.role == Leader && cmds != [] && Extended(n, cmds, log)
    ensures var s := MaybeCommit(cfg, n.(log := log, prs := Counted(n, n.id, |log|))); s.snapIndex <= |s.log|
    ensures Handle(cfg, n, Commands(cmds)) ==
      BcastAppend(cfg, MaybeCommit(cfg, n.(log := log, prs := Counted(n, n.id, |log|))), cfg.peers)
  {
    hide MaybeCommit, BcastAppend, Stamp;
    ProposalStamped(n, cmds, log);
    MaybeCommitKeeps(cfg, n.(log := log, prs := Counted(n, n.id, |log|)));
  }

  lemma Grown(cfg: Config, n: Node, u: Node)
    requires LeaderFit(cfg, n) && n.log <= u.log
    requires u == n.(log := u.log, prs := Counted(n, n.id, |u.log|))
    requires forall i | |n.log| <= i < |u.log| :: u.log[i].term == n.term
    ensures Sound(cfg, u) && Started(u) && RisesTo(u)
  {
  }

  lemma Fewer(cfg: Config, a: set<NodeId>, b: set<NodeId>)
    requires a <= b && !Majority(cfg, b)
    ensures !Majority(cfg, a)
  {
    assert b == a + (b - a);
  }

  /** A proposal to anyone else, or of nothing, changes nothing. */
  lemma ProposalIgnored(cfg: Config, n: Node, cmds: seq<Bytes>)
    requires ValidConfig(cfg) && Sound(cfg, n) && (n.role != Leader || cmds == [])
    ensures Handle(cfg, n, Commands(cmds)) == n
  {
  }

  /** Whatever else it does, this is what a proposal does to the log of any leader. */
  lemma ProposalLog(cfg: Config, n: Node, cmds: seq<Bytes>)
    requires ValidConfig(cfg) && Sound(cfg, n) && n.role == Leader
    ensures Extended(n, cmds, Handle(cfg, n, Commands(cmds)).log)
  {
    hide MaybeCommit, BcastAppend;
    if cmds != [] {
      var es := seq(|cmds|, i requires 0 <= i < |cmds| => (Normal, cmds[i]));
      var log := n.log + Stamp(n.term, |n.log|, es);
      MaybeCommitKeeps(cfg, n.(log := log, prs := n.prs[n.id := MaybeUpdate(n.prs[n.id], |log|)]));
      CopiesKeep(cfg, AppendEntry(cfg, n, es), cfg.peers);
    }
  }

  lemma {:induction false} CopiesKeep(cfg: Config, n: Node, peers: seq<NodeId>)
    requires n.snapIndex <= |n.log|
    ensures BcastAppend(cfg, n, peers).log == n.log
    decreases peers
  {
    hide AppendFor;
    if peers != [] { CopiesKeep(cfg, if peers[0] == n.id then n else SendAppend(cfg, n, peers[0]), peers[1..]); }
  }

  // ----- answers from followers -----

  predicate Own(n: Node, m: Message) { m.term == n.term && n.term > 0 }

  /** An acknowledgement that raises Match: the leader counts it and commits what a
      majority then holds; if that is more than before, everyone is sent what they
      lack, and the new commit index with it. */
  lemma AckCommits(cfg: Config, n: Node, m: Message, leased: bool)
    returns (u: Node, s: Node, beats: seq<Message>, copies: seq<Message>)
    requires LeaderFit(cfg, n) && Own(n, m) && m.AppendResp? && !m.reject && m.from in n.prs
    requires m.logIndex > n.prs[m.from].matched && Within(cfg, n.(prs := Counted(n, m.from, m.logIndex)))
    ensures u == n.(prs := Counted(n, m.from, m.logIndex))
    ensures Known(Others(cfg.peers, n.id), u.prs) && Settles(cfg, u, s, beats)
    ensures s.prs == u.prs && s.snapIndex <= |s.log|
    ensures if s.committed > n.committed then Copies(cfg, s, Others(cfg.peers, n.id), copies) else s == u && copies == []
    ensures Handle(cfg, n, Receive(m, leased)) == s.(msgs := s.msgs + copies)
  {
    hide MaybeCommit, CanCommit, BcastAppend, Copies, Settles, CommitsTo, Queued, Within, RisesTo;
    u := n.(prs := Counted(n, m.from, m.logIndex));
    assert RisesTo(u) by { SameRise(n, u); }
    beats := CommitSettles(cfg, u);
    s := MaybeCommit(cfg, u);
    SettleMoves(cfg, u, beats);
    copies := SettledCopies(cfg, u, s, beats);
    AckHandled(cfg, n, m, leased);
    if !CanCommit(cfg, u) {
      copies := [];
      assert s.msgs + copies == s.msgs;
    }
  }

  lemma SameRise(n: Node, u: Node)
    requires RisesTo(n) && u.log == n.log && u.term == n.term
    ensures RisesTo(u)
  {
  }

  lemma AckHandled(cfg: Config, n: Node, m: Message, leased: bool)
    requires ValidConfig(cfg) && Sound(cfg, n) && n.role == Leader && Own(n, m) && m.AppendResp? && !m.reject && m.from in n.prs
    ensures var s := MaybeCommit(cfg, n.(prs := Counted(n, m.from, m.logIndex))); s.snapIndex <= |s.log|
    ensures var u := n.(prs := Counted(n, m.from, m.logIndex));
      Handle(cfg, n, Receive(m, leased)) ==
        if m.logIndex > n.prs[m.from].matched && CanCommit(cfg, u) then BcastAppend(cfg, MaybeCommit(cfg, u), cfg.peers) else u
  {
    hide MaybeCommit, CanCommit, BcastAppend;
    MaybeCommitKeeps(cfg, n.(prs := Counted(n, m.from, m.logIndex)));
  }

  lemma SettleMoves(cfg: Config, u: Node, beats: seq<Message>)
    requires ValidConfig(cfg) && Sound(cfg, u) && u.role == Leader && u.snapIndex <= u.committed <= |u.log| && RisesTo(u) && Within(cfg, u)
    requires Known(Others(cfg.peers, u.id), u.prs) && Settles(cfg, u, MaybeCommit(cfg, u), beats)
    ensures CanCommit(cfg, u) <==> MaybeCommit(cfg, u).committed > u.committed
    ensures !CanCommit(cfg, u) ==> MaybeCommit(cfg, u) == u
  {
    hide SendReadIndexes, Settles, CommitsTo, QuorumIndex, Within, RisesTo;
    CommitRule(cfg, u);
    if CanCommit(cfg, u) {
      var c := u.(committed := QuorumIndex(cfg, u));
      AllKnown(cfg, u);
      SendReadIndexesKeeps(cfg, c.(gated := []), c.gated);
    }
  }

  /** Any other acknowledgement is counted, and commits nothing. */
  lemma AckCounts(cfg: Config, n: Node, m: Message, leased: bool)
    requires ValidConfig(cfg) && Sound(cfg, n) && n.role == Leader && Own(n, m) && m.AppendResp? && !m.reject
    requires m.from in n.prs && m.logIndex <= n.prs[m.from].matched
    ensures Handle(cfg, n, Receive(m, leased)) == n.(prs := Counted(n, m.from, m.logIndex))
  {
    hide CanCommit;
    AckHandled(cfg, n, m, leased);
  }

  function Larger(a: nat, b: nat): nat { if b > a then b else a }

  /** The term a node can still tell at an index; 0 where it cannot. */
  function VisibleTerm(n: Node, i: nat): nat { if 1 <= i <= |n.log| && i >= n.snapIndex then n.log[i - 1].term else 0 }

  /** Where a leader retries after a refusal: at the hint; or, if the hint has a
      term, at the last entry up to it whose term is not above that. */
  predicate RetriesAt(n: Node, m: Message, h: nat)
    requires m.AppendResp?
  {
    if m.hintTerm == 0 then h == m.rejectHint
    else
      && h <= m.rejectHint && h <= |n.log| && VisibleTerm(n, h) <= m.hintTerm
      && (forall i | h < i <= m.rejectHint && i <= |n.log| :: VisibleTerm(n, i) > m.hintTerm)
  }

  lemma {:induction false} ScanEnds(n: Node, from: nat, term: nat)
    requires from <= |n.log|
    ensures var h := ScanBack(n, from, term);
      h <= from && VisibleTerm(n, h) <= term && forall i | h < i <= from :: VisibleTerm(n, i) > term
    decreases from
  {
    if from > 0 && TermAt(n, from) > term { ScanEnds(n, from - 1, term); }
  }

  /** A refusal of what was last sent moves Next back, and the follower is sent
      what it then lacks; any other refusal is out of date and changes nothing. */
  lemma RefusalRetries(cfg: Config, n: Node, m: Message, leased: bool) returns (h: nat, copy: Message)
    requires ValidConfig(cfg) && Sound(cfg, n) && n.role == Leader && Own(n, m) && m.AppendResp? && m.reject && m.from in n.prs
    ensures RetriesAt(n, m, h)
    ensures var u := n.(prs := n.prs[m.from := Progress(n.prs[m.from].matched, h + 1)]);
      if n.prs[m.from].next == m.logIndex + 1 then
        Copy(cfg, u, m.from, copy) && Handle(cfg, n, Receive(m, leased)) == u.(msgs := n.msgs + [copy])
      else Handle(cfg, n, Receive(m, leased)) == n
  {
    hide SendAppend, Copy, ScanBack;
    h := DecrHint(n, m);
    if m.hintTerm > 0 { ScanEnds(n, Min(m.rejectHint, |n.log|), m.hintTerm); }
    var u := n.(prs := n.prs[m.from := Progress(n.prs[m.from].matched, h + 1)]);
    copy := CopySent(cfg, u, m.from);
  }

  /** The answer to a snapshot counts as an acknowledgement of its index, commits
      nothing, and the follower is sent what it then lacks. */
  lemma SnapshotCounted(cfg: Config, n: Node, m: Message, leased: bool) returns (copy: Message)
    requires ValidConfig(cfg) && Sound(cfg, n) && n.role == Leader && Own(n, m) && m.InstallSnapshotResp? && m.from in n.prs
    ensures var u := n.(prs := Counted(n, m.from, m.logIndex));
      Copy(cfg, u, m.from, copy) && Handle(cfg, n, Receive(m, leased)) == u.(msgs := n.msgs + [copy])
  {
    hide SendAppend, Copy;
    copy := CopySent(cfg, n.(prs := Counted(n, m.from, m.logIndex)), m.from);
  }

  /** The first of three nodes, leading the first term with one entry of its own. */
  function FirstOfThree(): Node {
    Node(1, 1, 1, [Entry(1, 1, Noop, [])], 0, 0, Leader, 1,
         map[1 := Progress(1, 2), 2 := Progress(0, 2), 3 := Progress(0, 2)], map[], ReadOnly(map[], []), [], [], [], {}, false)
  }

  /** So a majority may hold an entry of the leader's term that it does not commit:
      the answer to a snapshot has raised Match, and an acknowledgement of the same
      index, which does not raise it again, commits nothing either. */
  lemma AnswerDelaysCommit() returns (cfg: Config, n: Node, m: Message, m': Message)
    ensures cfg == Config([1, 2, 3], 0, false) && n == FirstOfThree() && LeaderFit(cfg, n) && Within(cfg, n)
    ensures m == InstallSnapshotResp(2, 1, 1, 1) && m' == AppendResp(2, 1, 1, 1, false, 0, 0)
    ensures var s := Drained(Handle(cfg, n, Receive(m, false)));
      && s.prs.Keys == PeerSet(cfg) && Sound(cfg, s)
      && var r := Handle(cfg, s, Receive(m', false)); r.committed == 0 && Committable(cfg, r, 1)
  {
    hide Handle;
    cfg, n := Config([1, 2, 3], 0, false), FirstOfThree();
    m, m' := InstallSnapshotResp(2, 1, 1, 1), AppendResp(2, 1, 1, 1, false, 0, 0);
    ThreePeers(cfg);
    assert Matching(cfg, n.prs, 2) == {};
    var s := Drained(Handle(cfg, n, Receive(m, false)));
    assert s == n.(prs := n.prs[2 := Progress(1, 2)]) by { var copy := SnapshotCounted(cfg, n, m, false); }
    AckCounts(cfg, s, m', false);
    var r := Handle(cfg, s, Receive(m', false));
    assert Matching(cfg, r.prs, 1) == {1, 2};
  }

  lemma ThreePeers(cfg: Config)
    requires cfg.peers == [1, 2, 3]
    ensures PeerSet(cfg) == {1, 2, 3} && ValidConfig(cfg)
  {
    assert cfg.peers[0] == 1 && cfg.peers[1] == 2 && cfg.peers[2] == 3;
  }

  /** From a stranger, and to any message that is for others, a leader does nothing. */
  lemma LeaderIgnores(cfg: Config, n: Node, m: Message, leased: bool)
    requires ValidConfig(cfg) && Sound(cfg, n) && n.role == Leader && Own(n, m)
    requires || m.Append? || m.Heartbeat? || m.InstallSnapshot? || m.VoteResp? || m.PreVoteResp?
             || ((m.AppendResp? || m.InstallSnapshotResp?) && m.from !in n.prs)
    ensures Handle(cfg, n, Receive(m, leased)) == n
  {
  }

  // ----- reads -----

  /** A follower that is behind is sent what it lacks. */
  predicate Nudged(cfg: Config, n: Node, from: NodeId, out: seq<Message>)
    requires n.snapIndex <= |n.log|
  {
    if from in n.prs && n.prs[from].matched < |n.log| then |out| == 1 && Copy(cfg, n, from, out[0]) else out == []
  }

  /** Every read up to position `p` of the queue is answered, in order, with the
      index recorded when it was opened, and is then no longer pending. */
  predicate Answered(n: Node, p: nat, r: Node)
    requires p < |n.readOnly.queue| && forall a | 0 <= a < |n.readOnly.queue| :: n.readOnly.queue[a] in n.readOnly.pending
  {
    var q := n.readOnly.queue;
    && n.readStates <= r.readStates && |r.readStates| == |n.readStates| + p + 1
    && (forall a | 0 <= a <= p :: r.readStates[|n.readStates| + a] == ReadState(n.readOnly.pending[q[a]].index, q[a]))
    && r.readOnly.queue == q[p + 1..]
    && (forall c | c in r.readOnly.pending :: c in n.readOnly.pending && c !in q[..p + 1])
    && (forall c | c in n.readOnly.pending && c !in q[..p + 1] :: c in r.readOnly.pending && r.readOnly.pending[c] == n.readOnly.pending[c])
  }

  lemma {:induction false} WalkFinds(ro: ReadOnly, from: nat, p: nat)
    requires Queued(ro) && from <= p < |ro.queue|
    ensures WalkTo(ro, from, ro.queue[p]) == p + 1
    decreases p - from
  {
    if from < p { WalkFinds(ro, from + 1, p); }
  }

  lemma {:induction false} ReleasedEach(ro: ReadOnly, ctxs: seq<Context>)
    requires forall a | 0 <= a < |ctxs| :: ctxs[a] in ro.pending
    ensures |Released(ro, ctxs)| == |ctxs|
    ensures forall a | 0 <= a < |ctxs| :: Released(ro, ctxs)[a] == ReadState(ro.pending[ctxs[a]].index, ctxs[a])
    decreases ctxs
  {
    if ctxs != [] { ReleasedEach(ro, ctxs[1..]); }
  }

  lemma ReadsAnswered(n: Node, p: nat)
    requires Queued(n.readOnly) && p < |n.readOnly.queue|
    ensures Answered(n, p, AdvanceReads(n, n.readOnly.queue[p]))
    ensures var r := AdvanceReads(n, n.readOnly.queue[p]); r == n.(readStates := r.readStates, readOnly := r.readOnly)
  {
    var ro := n.readOnly;
    WalkFinds(ro, 0, p);
    ReleasedEach(ro, ro.queue[..p + 1]);
  }

  /** The answer to a heartbeat. With the sender counted, a pending read is
      answered exactly if a majority has acknowledged it, together with all that
      were opened before it; otherwise nothing is answered and nothing leaves the
      queue. */
  lemma BeatAnswered(cfg: Config, n: Node, m: Message, leased: bool) returns (out: seq<Message>, a: Node)
    requires ValidConfig(cfg) && Sound(cfg, n) && n.role == Leader && Started(n) && Queued(n.readOnly) && Own(n, m) && m.HeartbeatResp?
    ensures Nudged(cfg, n, m.from, out)
    ensures var ro := n.readOnly; var c := m.context; var r := Handle(cfg, n, Receive(m, leased));
      if c == [] || c !in ro.pending then r == n.(msgs := n.msgs + out)
      else
        && a == n.(msgs := n.msgs + out,
             readOnly := ro.(pending := ro.pending[c := ReadStatus(ro.pending[c].index, ro.pending[c].acks + {m.from})]))
        && if !Majority(cfg, ro.pending[c].acks + {m.from}) then r == a
           else
             && r == a.(readStates := r.readStates, readOnly := r.readOnly)
             && exists p :: 0 <= p < |ro.queue| && ro.queue[p] == c && Answered(a, p, r)
  {
    hide SendAppend, Copy, AdvanceReads, Answered, Handle, Queued;
    BeatDispatched(cfg, n, m, leased);
    out := [];
    if m.from in n.prs && n.prs[m.from].matched < |n.log| {
      var copy := CopySent(cfg, n, m.from);
      out := [copy];
    }
    assert n.msgs + [] == n.msgs;
    var ro, c := n.readOnly, m.context;
    a := n;
    if c != [] && c in ro.pending {
      var acks := ro.pending[c].acks + {m.from};
      a := n.(msgs := n.msgs + out, readOnly := ro.(pending := ro.pending[c := ReadStatus(ro.pending[c].index, acks)]));
      assert a.readOnly == RecvAck(ro, m.from, c);
      if Majority(cfg, acks) {
        var p := PlaceOf(ro, c);
        StillQueued(ro, a.readOnly);
        ReadsAnswered(a, p);
      }
    }
  }

  lemma BeatDispatched(cfg: Config, n: Node, m: Message, leased: bool)
    requires ValidConfig(cfg) && Sound(cfg, n) && n.role == Leader && Own(n, m) && m.HeartbeatResp?
    ensures Handle(cfg, n, Receive(m, leased)) == HandleHeartbeatResp(cfg, n, m)
  {
    hide HandleHeartbeatResp;
  }

  lemma PlaceOf(ro: ReadOnly, c: Context) returns (p: nat)
    requires Queued(ro) && c in ro.pending
    ensures p < |ro.queue| && ro.queue[p] == c
  {
    p :| 0 <= p < |ro.queue| && ro.queue[p] == c;
  }

  lemma StillQueued(ro: ReadOnly, ro': ReadOnly)
    requires Queued(ro) && ro'.queue == ro.queue && ro'.pending.Keys == ro.pending.Keys
    ensures Queued(ro')
  {
    assert forall c | c in ro'.pending :: c in ro.pending.Keys;
    assert forall c | c in ro.pending :: c in ro'.pending.Keys;
  }

  /** A read asked of a leader waits for a commit of its term, or is opened at the
      commit index; asked of anyone else, it is dropped. */
  lemma ReadOpened(cfg: Config, n: Node, c: Context) returns (out: seq<Message>)
    requires ValidConfig(cfg) && Sound(cfg, n) && n.snapIndex <= n.committed && c !in n.readOnly.pending
    ensures Known(Others(cfg.peers, n.id), n.prs)
    ensures var i := n.(issued := n.issued + {c}); var r := Handle(cfg, n, Read(c));
      if n.role != Leader then r == i
      else if VisibleTerm(n, n.committed) != n.term then r == i.(gated := n.gated + [c])
      else Opens(cfg, i, [c], r, out)
  {
    hide SendReadIndex, Rounds;
    AllKnown(cfg, n);
    OthersKnown(cfg.peers, n.id, n.prs);
    var i := n.(issued := n.issued + {c});
    out := AllOpen(cfg, i, [c]);
    assert [c][1..] == [];
    assert SendReadIndexes(cfg, i, [c]) == SendReadIndex(cfg, i, c) by { OneRead(cfg, i, c); }
  }

  lemma OneRead(cfg: Config, n: Node, c: Context)
    requires n.prs.Keys == PeerSet(cfg)
    ensures SendReadIndexes(cfg, n, [c]) == SendReadIndex(cfg, n, c)
  {
    hide SendReadIndex;
    SendReadIndexKeeps(cfg, n, c);
    assert [c][1..] == [];
  }

  /** On its timer a leader sends every other member a heartbeat, with the newest
      read that is pending. */
  lemma LeaderBeats(cfg: Config, n: Node) returns (out: seq<Message>)
    requires ValidConfig(cfg) && Sound(cfg, n) && n.role == Leader
    ensures Known(Others(cfg.peers, n.id), n.prs)
    ensures var q := n.readOnly.queue; Beats(n, Others(cfg.peers, n.id), if q == [] then [] else q[|q| - 1], out)
    ensures Handle(cfg, n, Timer) == n.(msgs := n.msgs + out)
  {
    hide BcastHeartbeat, Beats;
    AllKnown(cfg, n);
    OthersKnown(cfg.peers, n.id, n.prs);
    out := BeatsSent(n, cfg.peers, LastPendingContext(n.readOnly));
  }
}
