/** What elections do to a node, said without the core's own functions: asking
    for votes, giving and counting them, and starting over after a restart. */
module ElectionInputs {
  import opened RaftTypes
  import opened RaftCore
  import opened RaftSystem
  import opened SentMessages
  import opened LeaderInputs
  import F = FollowerInputs

  function LastOf(log: Log): nat { if log == [] then 0 else log[|log| - 1].term }

  /** The candidate's log ends in a higher term, or in the same term no earlier. */
  predicate AsGood(n: Node, m: Message)
    requires m.Vote? || m.PreVote?
  {
    m.logTerm > LastOf(n.log) || (m.logTerm == LastOf(n.log) && m.logIndex >= |n.log|)
  }

  /** A node that has heard from a leader lately does not help another candidate. */
  predicate Loyal(n: Node, m: Message, leased: bool) { n.lead != NONE && n.vote != m.from && leased }

  // ----- votes -----

  /** A node that is loyal refuses and changes nothing; a request of an earlier term
      is dropped. */
  lemma VoteBarred(cfg: Config, n: Node, m: Message, leased: bool)
    requires ValidConfig(cfg) && Sound(cfg, n) && m.Vote? && m.term >= 1 && (Loyal(n, m, leased) || m.term < n.term)
    ensures Handle(cfg, n, Receive(m, leased)) ==
      if Loyal(n, m, leased) then n.(msgs := n.msgs + [VoteResp(n.id, m.from, n.term, true)]) else n
  {
  }

  /** Any other request. A higher term is taken over, and with it any vote and
      leader are forgotten; the vote is given exactly if it is free or already the
      candidate's and the candidate's log is as good. */
  lemma VoteAnswered(cfg: Config, n: Node, m: Message, leased: bool) returns (f: Node)
    requires ValidConfig(cfg) && Sound(cfg, n) && n.snapIndex <= |n.log|
    requires m.Vote? && m.term >= 1 && m.term >= n.term && !Loyal(n, m, leased)
    ensures f == n.(term := m.term, vote := if m.term > n.term then NONE else n.vote, role := f.role, lead := f.lead,
                    votes := f.votes, prs := f.prs, readOnly := f.readOnly, gated := f.gated)
    ensures if m.term > n.term then f.role == Follower && f.lead == NONE && F.Cleared(cfg, f) else f == n
    ensures var given := AsGood(n, m) && (m.term > n.term || n.vote == m.from || (n.vote == NONE && n.lead == NONE));
      Handle(cfg, n, Receive(m, leased)) ==
        f.(vote := if given then m.from else f.vote, msgs := n.msgs + [VoteResp(n.id, m.from, m.term, !given)])
  {
    hide BecomeFollower, F.Cleared, Handle;
    F.StepsDown(cfg, n, m.term, NONE);
    f := if m.term > n.term then BecomeFollower(cfg, n, m.term, NONE) else n;
    VoteDispatched(cfg, n, m, leased);
  }

  lemma VoteDispatched(cfg: Config, n: Node, m: Message, leased: bool)
    requires ValidConfig(cfg) && Sound(cfg, n) && m.Vote? && m.term >= 1 && m.term >= n.term && !Loyal(n, m, leased)
    ensures Handle(cfg, n, Receive(m, leased)) == HandleVote(if m.term > n.term then BecomeFollower(cfg, n, m.term, NONE) else n, m)
  {
    hide HandleVote;
  }

  /** A poll before an election changes nothing at the node asked. It says yes only
      to a later term and a log as good, and only if it is not loyal; to a term that
      is past it says its own. */
  lemma PollAnswered(cfg: Config, n: Node, m: Message, leased: bool)
    requires ValidConfig(cfg) && Sound(cfg, n) && m.PreVote? && m.term >= 1
    ensures var yes := !Loyal(n, m, leased) && m.term > n.term && AsGood(n, m);
      Handle(cfg, n, Receive(m, leased)) ==
        n.(msgs := n.msgs + [PreVoteResp(n.id, m.from, if Loyal(n, m, leased) || m.term >= n.term then m.term else n.term, !yes)])
  {
  }

  // ----- campaigns -----

  /** A candidate: one term later, its own vote given, and nothing else carried over. */
  predicate Stands(cfg: Config, n: Node, c: Node) {
    && c == n.(term := n.term + 1, vote := n.id, role := Candidate, lead := NONE, votes := map[n.id := true],
               prs := c.prs, readOnly := c.readOnly, gated := c.gated)
    && F.Cleared(cfg, c.(votes := map[]))
  }

  /** Of several nodes, one whose timer fires polls the others, or stands at once
      if there is no poll, and asks every other member. */
  lemma TimerCampaigns(cfg: Config, n: Node) returns (c: Node, out: seq<Message>)
    requires ValidConfig(cfg) && Sound(cfg, n) && n.role != Leader && |cfg.peers| > 1
    ensures Requests(c, Others(cfg.peers, n.id), cfg.preVote, out)
    ensures if cfg.preVote then c == n.(role := PreCandidate, lead := NONE, votes := map[n.id := true]) else Stands(cfg, n, c)
    ensures Handle(cfg, n, Timer) == c.(msgs := n.msgs + out)
  {
    hide AskVotes, BecomeLeader, FreshProgress, Requests;
    c := if cfg.preVote then n.(role := PreCandidate, lead := NONE, votes := map[n.id := true])
         else RecordVote(BecomeCandidate(cfg, n), n.id, true);
    assert Granted(c) == {n.id};
    if !cfg.preVote { StandsUp(cfg, n); }
    out := RequestsSent(c, cfg.peers, cfg.preVote);
  }

  lemma StandsUp(cfg: Config, n: Node)
    requires n.role != Leader
    ensures Stands(cfg, n, RecordVote(BecomeCandidate(cfg, n), n.id, true))
  {
  }

  // ----- counting -----

  /** The first ballot of a member counts. */
  function Ballots(n: Node, m: Message): map<NodeId, bool>
    requires m.VoteResp? || m.PreVoteResp?
  {
    if m.from in n.votes then n.votes else n.votes[m.from := !m.reject]
  }

  function For(votes: map<NodeId, bool>): set<NodeId> { set p | p in votes && votes[p] }

  function Against(votes: map<NodeId, bool>): set<NodeId> { set p | p in votes && !votes[p] }

  /** A new leader: an empty entry of its term ends its log, it has sent nobody
      anything yet, and it knows of no one else's log. */
  predicate Leads(cfg: Config, c: Node, l: Node) {
    && l.log == c.log + [Entry(c.term, |c.log| + 1, Noop, [])]
    && l == c.(log := l.log, role := Leader, lead := c.id, votes := map[], prs := l.prs, readOnly := ReadOnly(map[], []), gated := [])
    && l.prs.Keys == PeerSet(cfg)
    && (forall p | p in l.prs :: l.prs[p] == if p == c.id then Progress(|l.log|, |l.log| + 1) else Progress(0, |c.log| + 1))
  }

  /** A ballot for a candidate. With a majority for it, it leads and sends everyone
      what they lack; with a majority against it, it follows; otherwise it goes on
      counting. */
  lemma BallotCounted(cfg: Config, n: Node, m: Message, leased: bool) returns (l: Node, out: seq<Message>)
    requires ValidConfig(cfg) && Sound(cfg, n) && n.snapIndex <= n.committed <= |n.log| && |cfg.peers| > 1
    requires n.role == Candidate && m.VoteResp? && m.term == n.term >= 1
    ensures var v := n.(votes := Ballots(n, m)); var r := Handle(cfg, n, Receive(m, leased));
      if Majority(cfg, For(v.votes)) then
        && Leads(cfg, v, l) && Known(Others(cfg.peers, n.id), l.prs) && l.snapIndex <= |l.log|
        && Copies(cfg, l, Others(cfg.peers, n.id), out) && r == l.(msgs := n.msgs + out)
      else if Majority(cfg, Against(v.votes)) then
        && F.Cleared(cfg, r)
        && r == v.(role := Follower, lead := NONE, votes := map[], prs := r.prs, readOnly := ReadOnly(map[], []), gated := [])
      else r == v
  {
    hide BecomeLeader, BecomeFollower, BcastAppend, Copies, F.Cleared, Handle;
    BallotDispatched(cfg, n, m, leased);
    var v := n.(votes := Ballots(n, m));
    assert v == RecordVote(n, m.from, !m.reject) && Granted(v) == For(v.votes) && Rejected(v) == Against(v.votes);
    l, out := v, [];
    F.StepsDown(cfg, v, v.term, NONE);
    if Majority(cfg, For(v.votes)) {
      Crowned(cfg, v);
      l := BecomeLeader(cfg, v);
      AllKnown(cfg, l);
      OthersKnown(cfg.peers, n.id, l.prs);
      out := CopiesSent(cfg, l, cfg.peers);
    }
  }

  lemma BallotDispatched(cfg: Config, n: Node, m: Message, leased: bool)
    requires ValidConfig(cfg) && Sound(cfg, n) && m.term >= 1
    requires || (n.role == Candidate && m.VoteResp? && m.term == n.term)
             || (n.role == PreCandidate && m.PreVoteResp? && if m.reject then m.term == n.term else m.term >= n.term)
    ensures Handle(cfg, n, Receive(m, leased)) == CountVote(cfg, n, m)
  {
    hide CountVote;
  }

  /** Of several nodes, none has anything to commit on becoming leader. */
  lemma Crowned(cfg: Config, c: Node)
    requires ValidConfig(cfg) && c.id in PeerSet(cfg) && c.role != Follower && c.snapIndex <= c.committed <= |c.log| && |cfg.peers| > 1
    ensures Leads(cfg, c, BecomeLeader(cfg, c)) && Started(BecomeLeader(cfg, c))
  {
    hide QuorumIndex, SendReadIndexes;
    var l0 := Reset(cfg, c, c.term).(lead := c.id, role := Leader);
    var log := c.log + Stamp(c.term, |c.log|, [(Noop, [])]);
    assert log == c.log + [Entry(c.term, |c.log| + 1, Noop, [])];
    var u := l0.(log := log, prs := l0.prs[c.id := MaybeUpdate(l0.prs[c.id], |log|)]);
    AloneMatches(cfg, u);
  }

  lemma AloneMatches(cfg: Config, u: Node)
    requires ValidConfig(cfg) && u.prs.Keys == PeerSet(cfg) && |cfg.peers| > 1
    requires forall p | p in u.prs && p != u.id :: u.prs[p].matched == 0
    ensures !CanCommit(cfg, u)
  {
    hide QuorumIndex;
    MatchingHolds(cfg, u, 1);
    assert Matching(cfg, u.prs, 1) <= {u.id};
    Fewer(cfg, Matching(cfg, u.prs, 1), {u.id});
  }

  /** A ballot of a poll. With a majority for it, the node stands and asks for
      votes; with a majority against it, it follows. */
  lemma PollCounted(cfg: Config, n: Node, m: Message, leased: bool) returns (c: Node, out: seq<Message>)
    requires ValidConfig(cfg) && Sound(cfg, n) && |cfg.peers| > 1 && n.role == PreCandidate && m.PreVoteResp? && m.term >= 1
    requires if m.reject then m.term == n.term else m.term >= n.term
    ensures var v := n.(votes := Ballots(n, m)); var r := Handle(cfg, n, Receive(m, leased));
      if Majority(cfg, For(v.votes)) then
        Stands(cfg, v, c) && Requests(c, Others(cfg.peers, n.id), false, out) && r == c.(msgs := n.msgs + out)
      else if Majority(cfg, Against(v.votes)) then
        && F.Cleared(cfg, r)
        && r == v.(role := Follower, lead := NONE, votes := map[], prs := r.prs, readOnly := ReadOnly(map[], []), gated := [])
      else r == v
  {
    hide BecomeLeader, BecomeFollower, BecomeCandidate, AskVotes, Requests, F.Cleared, Handle;
    BallotDispatched(cfg, n, m, leased);
    var v := n.(votes := Ballots(n, m));
    assert v == RecordVote(n, m.from, !m.reject) && Granted(v) == For(v.votes) && Rejected(v) == Against(v.votes);
    F.StepsDown(cfg, v, v.term, NONE);
    StandsUp(cfg, v);
    c := RecordVote(BecomeCandidate(cfg, v), v.id, true);
    assert Granted(c) == {n.id};
    out := RequestsSent(c, cfg.peers, false);
  }

  // ----- everything else -----

  predicate IsAnswer(m: Message) { m.AppendResp? || m.HeartbeatResp? || m.InstallSnapshotResp? || m.VoteResp? || m.PreVoteResp? }

  /** The answer is to what the node is doing in its term. */
  predicate Awaited(n: Node, m: Message) {
    || (n.role == Leader && (m.AppendResp? || m.HeartbeatResp? || m.InstallSnapshotResp?))
    || (n.role == Candidate && m.VoteResp?) || (n.role == PreCandidate && m.PreVoteResp?)
  }

  /** An answer of a later term, other than a yes to a poll, makes the node follow
      in that term; one of an earlier term, or to what the node is no longer doing,
      changes nothing. */
  lemma AnswersOtherwise(cfg: Config, n: Node, m: Message, leased: bool)
    requires ValidConfig(cfg) && Sound(cfg, n) && IsAnswer(m) && m.term >= 1
    ensures var r := Handle(cfg, n, Receive(m, leased)); var yes := m.PreVoteResp? && !m.reject;
      if m.term > n.term && !yes then
        && r == n.(term := m.term, vote := NONE, role := Follower, lead := m.from, votes := map[], prs := r.prs,
                   readOnly := ReadOnly(map[], []), gated := [])
        && F.Cleared(cfg, r)
      else if m.term < n.term || !Awaited(n, m) then r == n
      else true
  {
    hide CountVote, HandleAppendResp, HandleHeartbeatResp, SendAppend, FreshProgress, F.Cleared;
    F.StepsDown(cfg, n, m.term, m.from);
  }

  /** A process that restarts remembers its term, vote, log and snapshot, and as
      much of its commit index as was durable or its snapshot stands for. */
  lemma RestartRemembers(cfg: Config, s: System, id: NodeId, commit: nat)
    requires ValidConfig(cfg) && Enabled(cfg, s, Crash(id, commit)) && s.nodes[id].snapIndex <= s.nodes[id].committed <= |s.nodes[id].log|
    ensures var s', n := Next(cfg, s, Crash(id, commit)), s.nodes[id];
      && s'.net == s.net && s'.nodes.Keys == s.nodes.Keys && (forall x | x in s.nodes && x != id :: s'.nodes[x] == s.nodes[x])
      && var r := s'.nodes[id];
        && r == Node(n.id, n.term, n.vote, n.log, n.snapIndex, Larger(n.snapIndex, commit), Follower, NONE, r.prs, map[],
                     ReadOnly(map[], []), [], [], [], {}, false)
        && F.Cleared(cfg, r)
  {
  }
}
