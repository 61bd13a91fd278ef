/** The consensus core as functions from node state to node state, one per
    operation of the core. Timers are abstracted: a tick may or may not start
    an election or a heartbeat round, and `leased` says whether the election
    timer of a node that backs a leader is still running. */
module RaftCore {
  import opened RaftTypes

  // ----- log lookups -----

  /** The term at `i`; 0 outside the range the node can still see. */
  function TermAt(n: Node, i: nat): nat {
    if i < n.snapIndex || i > |n.log| || i == 0 then 0 else n.log[i - 1].term
  }

  predicate MatchTerm(n: Node, i: nat, t: nat) { TermAt(n, i) == t }

  predicate IsUpToDate(n: Node, lastIndex: nat, lastTerm: nat) {
    || lastTerm > TermAt(n, |n.log|)
    || (lastTerm == TermAt(n, |n.log|) && lastIndex >= |n.log|)
  }

  function Panic(n: Node): Node { n.(panicked := true) }

  function CommitTo(n: Node, i: nat): Node {
    if n.committed < i then
      if i > |n.log| then Panic(n) else n.(committed := i)
    else n
  }

  /** The index of the first entry this log lacks or holds with another term; 0 if none. */
  function FindConflict(n: Node, ents: Log): nat {
    if ents == [] then 0
    else if !MatchTerm(n, ents[0].index, ents[0].term) then ents[0].index
    else FindConflict(n, ents[1..])
  }

  /** Replaces everything from the first incoming index on. */
  function Splice(n: Node, ents: Log): Node {
    if ents == [] then n
    else if 1 <= ents[0].index <= |n.log| + 1 then n.(log := n.log[..ents[0].index - 1] + ents)
    else Panic(n)
  }

  /** The log part of `maybeAppend` when the preceding entry matches. */
  function SpliceFrom(n: Node, index: nat, ents: Log): Node {
    var conflict := FindConflict(n, ents);
    if conflict == 0 then n
    else if conflict <= n.committed then Panic(n)
    else if index < conflict <= index + |ents| then Splice(n, ents[conflict - index - 1..])
    else Panic(n)
  }

  function MaybeAppend(n: Node, index: nat, commit: nat, ents: Log): Node {
    CommitTo(SpliceFrom(n, index, ents), Min(commit, index + |ents|))
  }

  // ----- progress -----

  function MaybeUpdate(pr: Progress, n: nat): Progress {
    Progress(Max(pr.matched, n), Max(pr.next, n + 1))
  }

  function MaybeDecrTo(pr: Progress, rejected: nat, hint: nat): Progress {
    if pr.next != rejected + 1 then pr else pr.(next := hint + 1)
  }

  // ----- outbound traffic -----

  function Send(n: Node, m: Message): Node { n.(msgs := n.msgs + [m]) }

  function EntriesToSend(cfg: Config, n: Node, lo: nat): Log
    requires 1 <= lo <= |n.log|
  {
    var hi := if cfg.maxEntries > 0 && |n.log| + 1 - lo > cfg.maxEntries then lo + cfg.maxEntries else |n.log| + 1;
    n.log[lo - 1..hi - 1]
  }

  /** What `sendAppend` queues for a follower at `next`: entries, a snapshot,
      or nothing when the entries are gone and there is no snapshot. */
  function AppendFor(cfg: Config, n: Node, to: NodeId, next: nat): seq<Message>
    requires n.snapIndex <= |n.log|
  {
    var prev := if next == 0 then 0 else next - 1;
    if next > |n.log| then
      [Append(n.id, to, n.term, prev, TermAt(n, prev), [], n.committed)]
    else if next <= n.snapIndex then
      if n.snapIndex == 0 then [] else [InstallSnapshot(n.id, to, n.term, n.log[..n.snapIndex])]
    else
      [Append(n.id, to, n.term, prev, TermAt(n, prev), EntriesToSend(cfg, n, next), n.committed)]
  }

  function SendAppend(cfg: Config, n: Node, to: NodeId): Node
    requires n.snapIndex <= |n.log|
  {
    if to in n.prs then n.(msgs := n.msgs + AppendFor(cfg, n, to, n.prs[to].next)) else n
  }

  function BcastAppend(cfg: Config, n: Node, peers: seq<NodeId>): Node
    requires n.snapIndex <= |n.log|
    decreases peers
  {
    if peers == [] then n
    else BcastAppend(cfg, if peers[0] == n.id then n else SendAppend(cfg, n, peers[0]), peers[1..])
  }

  function BcastHeartbeat(n: Node, peers: seq<NodeId>, ctx: Context): Node
    requires forall i | 0 <= i < |peers| :: peers[i] in n.prs
    decreases peers
  {
    if peers == [] then n
    else
      var n' := if peers[0] == n.id then n
                else Send(n, Heartbeat(n.id, peers[0], n.term, Min(n.prs[peers[0]].matched, n.committed), ctx));
      BcastHeartbeat(n', peers[1..], ctx)
  }

  // ----- linearizable reads -----

  predicate CommittedInCurrentTerm(n: Node) { TermAt(n, n.committed) == n.term }

  function AddRequest(ro: ReadOnly, index: nat, ctx: Context): ReadOnly {
    if ctx in ro.pending then ro
    else ReadOnly(ro.pending[ctx := ReadStatus(index, {})], ro.queue + [ctx])
  }

  function RecvAck(ro: ReadOnly, id: NodeId, ctx: Context): ReadOnly {
    if ctx in ro.pending then
      ro.(pending := ro.pending[ctx := ro.pending[ctx].(acks := ro.pending[ctx].acks + {id})])
    else ro
  }

  function AckCount(ro: ReadOnly, ctx: Context): nat {
    if ctx in ro.pending then |ro.pending[ctx].acks| else 0
  }

  /** How many queued contexts `advance` walks to reach `target`; 0 when it is not found. */
  function WalkTo(ro: ReadOnly, from: nat, target: Context): nat
    decreases |ro.queue| - from
  {
    if from >= |ro.queue| then 0
    else if ro.queue[from] == target && target in ro.pending then from + 1
    else WalkTo(ro, from + 1, target)
  }

  function Released(ro: ReadOnly, ctxs: seq<Context>): seq<ReadState> {
    if ctxs == [] then []
    else (if ctxs[0] in ro.pending then [ReadState(ro.pending[ctxs[0]].index, ctxs[0])] else [])
         + Released(ro, ctxs[1..])
  }

  function DropReleased(ro: ReadOnly, k: nat): ReadOnly
    requires k <= |ro.queue|
  {
    ReadOnly(map c | c in ro.pending && c !in ro.queue[..k] :: ro.pending[c], ro.queue[k..])
  }

  lemma WalkToBound(ro: ReadOnly, from: nat, target: Context)
    ensures WalkTo(ro, from, target) <= |ro.queue|
    ensures WalkTo(ro, from, target) > 0 ==>
      WalkTo(ro, from, target) > from && ro.queue[WalkTo(ro, from, target) - 1] == target && target in ro.pending
    decreases |ro.queue| - from
  {
  }

  /** Releases every request up to and including `target`, in arrival order. */
  function AdvanceReads(n: Node, target: Context): Node {
    WalkToBound(n.readOnly, 0, target);
    var k := WalkTo(n.readOnly, 0, target);
    n.(readStates := n.readStates + Released(n.readOnly, n.readOnly.queue[..k]),
       readOnly := if k == 0 then n.readOnly else DropReleased(n.readOnly, k))
  }

  function SendReadIndex(cfg: Config, n: Node, ctx: Context): Node
    requires n.prs.Keys == PeerSet(cfg)
  {
    if |cfg.peers| == 1 then n.(readStates := n.readStates + [ReadState(n.committed, ctx)])
    else
      BcastHeartbeat(n.(readOnly := RecvAck(AddRequest(n.readOnly, n.committed, ctx), n.id, ctx)), cfg.peers, ctx)
  }

  function SendReadIndexes(cfg: Config, n: Node, ctxs: seq<Context>): Node
    requires n.prs.Keys == PeerSet(cfg)
    decreases ctxs
  {
    if ctxs == [] then n
    else
      BcastHeartbeatKeeps(n.(readOnly := RecvAck(AddRequest(n.readOnly, n.committed, ctxs[0]), n.id, ctxs[0])), cfg.peers, ctxs[0]);
      SendReadIndexes(cfg, SendReadIndex(cfg, n, ctxs[0]), ctxs[1..])
  }

  lemma BcastHeartbeatKeeps(n: Node, peers: seq<NodeId>, ctx: Context)
    requires forall i | 0 <= i < |peers| :: peers[i] in n.prs
    ensures var b := BcastHeartbeat(n, peers, ctx); b == n.(msgs := b.msgs)
    decreases peers
  {
  }

  function ReleaseGated(cfg: Config, n: Node): Node
    requires n.prs.Keys == PeerSet(cfg)
  {
    if n.role.Leader? && CommittedInCurrentTerm(n) then SendReadIndexes(cfg, n.(gated := []), n.gated) else n
  }

  function LastPendingContext(ro: ReadOnly): Context {
    if ro.queue == [] then [] else ro.queue[|ro.queue| - 1]
  }

  // ----- commitment -----

  function Matches(n: Node, peers: seq<NodeId>): seq<nat>
    requires forall i | 0 <= i < |peers| :: peers[i] in n.prs
  {
    seq(|peers|, i requires 0 <= i < |peers| => n.prs[peers[i]].matched)
  }

  function InsertSorted(x: nat, s: seq<nat>): (r: seq<nat>)
    ensures |r| == |s| + 1
  {
    if s == [] || x <= s[0] then [x] + s else [s[0]] + InsertSorted(x, s[1..])
  }

  function Sorted(s: seq<nat>): (r: seq<nat>)
    ensures |r| == |s|
  {
    if s == [] then [] else InsertSorted(s[0], Sorted(s[1..]))
  }

  /** The commit candidate: with the matched indices in ascending order, the
      one at position `len - quorum`. */
  function QuorumIndex(cfg: Config, n: Node): nat
    requires |cfg.peers| > 0 && n.prs.Keys == PeerSet(cfg)
  {
    Sorted(Matches(n, cfg.peers))[|cfg.peers| - Quorum(cfg)]
  }

  predicate CanCommit(cfg: Config, n: Node)
    requires |cfg.peers| > 0 && n.prs.Keys == PeerSet(cfg)
  {
    QuorumIndex(cfg, n) > n.committed && TermAt(n, QuorumIndex(cfg, n)) == n.term
  }

  function MaybeCommit(cfg: Config, n: Node): Node
    requires |cfg.peers| > 0 && n.prs.Keys == PeerSet(cfg)
  {
    if CanCommit(cfg, n) then ReleaseGated(cfg, CommitTo(n, QuorumIndex(cfg, n))) else n
  }

  function Stamp(term: nat, from: nat, cmds: seq<(EntryKind, Bytes)>): Log {
    seq(|cmds|, i requires 0 <= i < |cmds| => Entry(term, from + 1 + i, cmds[i].0, cmds[i].1))
  }

  function AppendEntry(cfg: Config, n: Node, cmds: seq<(EntryKind, Bytes)>): Node
    requires |cfg.peers| > 0 && n.prs.Keys == PeerSet(cfg) && n.id in PeerSet(cfg)
  {
    var log := n.log + Stamp(n.term, |n.log|, cmds);
    MaybeCommit(cfg, n.(log := log, prs := n.prs[n.id := MaybeUpdate(n.prs[n.id], |log|)]))
  }

  // ----- role transitions -----

  function FreshProgress(cfg: Config, n: Node): map<NodeId, Progress> {
    map id | id in PeerSet(cfg) :: Progress(if id == n.id then |n.log| else 0, |n.log| + 1)
  }

  function Reset(cfg: Config, n: Node, term: nat): (r: Node)
  {
    n.(term := term, vote := if n.term != term then NONE else n.vote, lead := NONE, votes := map[],
       prs := FreshProgress(cfg, n), readOnly := NO_READS, gated := [])
  }

  function BecomeFollower(cfg: Config, n: Node, term: nat, lead: NodeId): Node {
    Reset(cfg, n, term).(role := Follower, lead := lead)
  }

  function BecomePreCandidate(n: Node): Node {
    if n.role.Leader? then Panic(n) else n.(role := PreCandidate, votes := map[], lead := NONE)
  }

  function BecomeCandidate(cfg: Config, n: Node): Node {
    if n.role.Leader? then Panic(n) else Reset(cfg, n, n.term + 1).(vote := n.id, role := Candidate)
  }

  function BecomeLeader(cfg: Config, n: Node): Node
    requires |cfg.peers| > 0 && n.id in PeerSet(cfg)
  {
    if n.role.Follower? then Panic(n)
    else AppendEntry(cfg, Reset(cfg, n, n.term).(lead := n.id, role := Leader), [(Noop, [])])
  }

  function RecordVote(n: Node, id: NodeId, granted: bool): Node {
    if id in n.votes then n else n.(votes := n.votes[id := granted])
  }

  function Granted(n: Node): set<NodeId> { set id | id in n.votes && n.votes[id] }

  function Rejected(n: Node): set<NodeId> { set id | id in n.votes && !n.votes[id] }

  function AskVotes(n: Node, peers: seq<NodeId>, pre: bool): Node
    decreases peers
  {
    if peers == [] then n
    else
      var n' :=
        if peers[0] == n.id then n
        else if pre then Send(n, PreVote(n.id, peers[0], n.term + 1, |n.log|, TermAt(n, |n.log|)))
        else Send(n, Vote(n.id, peers[0], n.term, |n.log|, TermAt(n, |n.log|)));
      AskVotes(n', peers[1..], pre)
  }

  /** Votes for itself, wins at once if that is a quorum, else asks the peers. */
  function SolicitVotes(cfg: Config, n: Node): Node
    requires |cfg.peers| > 0 && n.id in PeerSet(cfg)
  {
    var v := RecordVote(n, n.id, true);
    if |Granted(v)| >= Quorum(cfg) then BecomeLeader(cfg, v) else AskVotes(v, cfg.peers, false)
  }

  function SolicitPreVotes(cfg: Config, n: Node): Node
    requires |cfg.peers| > 0 && n.id in PeerSet(cfg)
  {
    var v := RecordVote(n, n.id, true);
    if |Granted(v)| >= Quorum(cfg) then SolicitVotes(cfg, BecomeCandidate(cfg, v)) else AskVotes(v, cfg.peers, true)
  }

  function Campaign(cfg: Config, n: Node): Node
    requires |cfg.peers| > 0 && n.id in PeerSet(cfg)
  {
    if cfg.preVote then SolicitPreVotes(cfg, BecomePreCandidate(n)) else SolicitVotes(cfg, BecomeCandidate(cfg, n))
  }

  // ----- message handlers -----

  function HandleVote(n: Node, m: Message): Node
    requires m.Vote?
  {
    var canVote := n.vote == m.from || (n.vote == NONE && n.lead == NONE) || m.term > n.term;
    if canVote && IsUpToDate(n, m.logIndex, m.logTerm) then
      Send(n.(vote := m.from), VoteResp(n.id, m.from, n.term, false))
    else
      Send(n, VoteResp(n.id, m.from, n.term, true))
  }

  function HandlePreVote(n: Node, m: Message): Node
    requires m.PreVote?
  {
    var grant := IsUpToDate(n, m.logIndex, m.logTerm) && m.term > n.term;
    Send(n, PreVoteResp(n.id, m.from, m.term, !grant))
  }

  /** Walks back to the first visible entry whose term is at most `term`. */
  function FindConflictByTerm(n: Node, index: nat, term: nat): (nat, nat)
    decreases index
  {
    if index == 0 then (0, 0)
    else if TermAt(n, index) <= term then (index, TermAt(n, index))
    else FindConflictByTerm(n, index - 1, term)
  }

  function HandleAppend(n: Node, m: Message): Node
    requires m.Append?
  {
    if m.logIndex < n.committed then
      Send(n, AppendResp(n.id, m.from, n.term, n.committed, false, 0, 0))
    else if MatchTerm(n, m.logIndex, m.logTerm) then
      Send(MaybeAppend(n, m.logIndex, m.commit, m.entries),
           AppendResp(n.id, m.from, n.term, m.logIndex + |m.entries|, false, 0, 0))
    else
      var (hint, hintTerm) := FindConflictByTerm(n, Min(m.logIndex, |n.log|), m.logTerm);
      Send(n, AppendResp(n.id, m.from, n.term, m.logIndex, true, hint, hintTerm))
  }

  function HandleHeartbeat(n: Node, m: Message): Node
    requires m.Heartbeat?
  {
    Send(CommitTo(n, Min(m.commit, |n.log|)), HeartbeatResp(n.id, m.from, n.term, m.context))
  }

  /** Installs a snapshot that is ahead of the commit index and whose boundary
      entry is not already held; otherwise at most moves the commit index. */
  function HandleSnapshot(n: Node, m: Message): Node
    requires m.InstallSnapshot?
  {
    var index := |m.prefix|;
    if index <= n.committed then
      Send(n, InstallSnapshotResp(n.id, m.from, n.term, n.committed))
    else if MatchTerm(n, index, LastTerm(m.prefix)) then
      var c := CommitTo(n, index);
      Send(c, InstallSnapshotResp(n.id, m.from, n.term, c.committed))
    else
      Send(n.(log := m.prefix, snapIndex := index, committed := index),
           InstallSnapshotResp(n.id, m.from, n.term, index))
  }

  /** Scans back to the last visible index whose term is at most `term`. */
  function ScanBack(n: Node, hint: nat, term: nat): nat
    decreases hint
  {
    if hint == 0 || TermAt(n, hint) <= term then hint else ScanBack(n, hint - 1, term)
  }

  function DecrHint(n: Node, m: Message): nat
    requires m.AppendResp?
  {
    if m.hintTerm > 0 then ScanBack(n, Min(m.rejectHint, |n.log|), m.hintTerm) else m.rejectHint
  }

  function HandleAppendResp(cfg: Config, n: Node, m: Message): Node
    requires |cfg.peers| > 0 && n.prs.Keys == PeerSet(cfg) && n.snapIndex <= |n.log|
    requires m.AppendResp?
  {
    if m.from !in n.prs then n
    else if m.reject then
      if n.prs[m.from].next == m.logIndex + 1 then
        SendAppend(cfg, n.(prs := n.prs[m.from := MaybeDecrTo(n.prs[m.from], m.logIndex, DecrHint(n, m))]), m.from)
      else n
    else
      var u := n.(prs := n.prs[m.from := MaybeUpdate(n.prs[m.from], m.logIndex)]);
      if n.prs[m.from].matched < m.logIndex && CanCommit(cfg, u) then
        MaybeCommitKeeps(cfg, u);
        BcastAppend(cfg, MaybeCommit(cfg, u), cfg.peers)
      else u
  }

  lemma SendReadIndexKeeps(cfg: Config, n: Node, ctx: Context)
    requires n.prs.Keys == PeerSet(cfg)
    ensures var b := SendReadIndex(cfg, n, ctx);
            b == n.(msgs := b.msgs, readStates := b.readStates, readOnly := b.readOnly)
  {
    BcastHeartbeatKeeps(n.(readOnly := RecvAck(AddRequest(n.readOnly, n.committed, ctx), n.id, ctx)), cfg.peers, ctx);
  }

  lemma SendReadIndexesKeeps(cfg: Config, n: Node, ctxs: seq<Context>)
    requires n.prs.Keys == PeerSet(cfg)
    ensures var b := SendReadIndexes(cfg, n, ctxs);
            b == n.(msgs := b.msgs, readStates := b.readStates, readOnly := b.readOnly)
    decreases ctxs
  {
    if ctxs != [] {
      SendReadIndexKeeps(cfg, n, ctxs[0]);
      SendReadIndexesKeeps(cfg, SendReadIndex(cfg, n, ctxs[0]), ctxs[1..]);
    }
  }

  /** `maybeCommit` moves the commit index and the read queues, and nothing else. */
  lemma MaybeCommitKeeps(cfg: Config, n: Node)
    requires |cfg.peers| > 0 && n.prs.Keys == PeerSet(cfg)
    ensures var b := MaybeCommit(cfg, n);
            && b.committed >= n.committed
            && b == n.(committed := b.committed, panicked := b.panicked, msgs := b.msgs,
                    readStates := b.readStates, readOnly := b.readOnly, gated := b.gated)
  {
    if CanCommit(cfg, n) {
      var c := CommitTo(n, QuorumIndex(cfg, n));
      SendReadIndexesKeeps(cfg, c.(gated := []), c.gated);
    }
  }

  function HandleHeartbeatResp(cfg: Config, n: Node, m: Message): Node
    requires m.HeartbeatResp? && n.snapIndex <= |n.log|
  {
    var s := if m.from in n.prs && n.prs[m.from].matched < |n.log| then SendAppend(cfg, n, m.from) else n;
    if m.context == [] then s
    else
      var a := s.(readOnly := RecvAck(s.readOnly, m.from, m.context));
      if AckCount(a.readOnly, m.context) < Quorum(cfg) then a else AdvanceReads(a, m.context)
  }

  function StepFollower(n: Node, m: Message): Node {
    match m
    case Append(_, _, _, _, _, _, _) => HandleAppend(n.(lead := m.from), m)
    case Heartbeat(_, _, _, _, _) => HandleHeartbeat(n.(lead := m.from), m)
    case InstallSnapshot(_, _, _, _) => HandleSnapshot(n.(lead := m.from), m)
    case _ => n
  }

  predicate IsMyVoteResp(n: Node, m: Message) {
    if n.role.PreCandidate? then m.PreVoteResp? else m.VoteResp?
  }

  function CountVote(cfg: Config, n: Node, m: Message): Node
    requires |cfg.peers| > 0 && n.id in PeerSet(cfg) && n.snapIndex <= |n.log|
    requires m.PreVoteResp? || m.VoteResp?
  {
    var v := RecordVote(n, m.from, !m.reject);
    if |Granted(v)| >= Quorum(cfg) then
      if v.role.PreCandidate? then SolicitVotes(cfg, BecomeCandidate(cfg, v))
      else
        BecomeLeaderKeeps(cfg, v);
        BcastAppend(cfg, BecomeLeader(cfg, v), cfg.peers)
    else if |Rejected(v)| >= Quorum(cfg) then BecomeFollower(cfg, v, v.term, NONE)
    else v
  }

  lemma BecomeLeaderKeeps(cfg: Config, n: Node)
    requires |cfg.peers| > 0 && n.id in PeerSet(cfg)
    ensures BecomeLeader(cfg, n).snapIndex == n.snapIndex
    ensures n.log <= BecomeLeader(cfg, n).log
  {
    if !n.role.Follower? {
      var r := Reset(cfg, n, n.term).(lead := n.id, role := Leader);
      var log := r.log + Stamp(r.term, |r.log|, [(Noop, [])]);
      MaybeCommitKeeps(cfg, r.(log := log, prs := r.prs[r.id := MaybeUpdate(r.prs[r.id], |log|)]));
    }
  }

  function StepCandidate(cfg: Config, n: Node, m: Message): Node
    requires |cfg.peers| > 0 && n.id in PeerSet(cfg) && n.snapIndex <= |n.log|
  {
    match m
    case Append(_, _, _, _, _, _, _) => HandleAppend(BecomeFollower(cfg, n, m.term, m.from), m)
    case Heartbeat(_, _, _, _, _) => HandleHeartbeat(BecomeFollower(cfg, n, m.term, m.from), m)
    case InstallSnapshot(_, _, _, _) => HandleSnapshot(BecomeFollower(cfg, n, m.term, m.from), m)
    case _ => if IsMyVoteResp(n, m) then CountVote(cfg, n, m) else n
  }

  function StepLeader(cfg: Config, n: Node, m: Message): Node
    requires |cfg.peers| > 0 && n.prs.Keys == PeerSet(cfg) && n.snapIndex <= |n.log|
  {
    match m
    case AppendResp(_, _, _, _, _, _, _) => HandleAppendResp(cfg, n, m)
    case HeartbeatResp(_, _, _, _) => HandleHeartbeatResp(cfg, n, m)
    case InstallSnapshotResp(_, _, _, _) =>
      if m.from in n.prs then
        SendAppend(cfg, n.(prs := n.prs[m.from := MaybeUpdate(n.prs[m.from], m.logIndex)]), m.from)
      else n
    case _ => n
  }

  function Dispatch(cfg: Config, n: Node, m: Message): Node
    requires |cfg.peers| > 0 && n.id in PeerSet(cfg) && n.prs.Keys == PeerSet(cfg) && n.snapIndex <= |n.log|
  {
    if m.PreVote? then HandlePreVote(n, m)
    else if m.Vote? then HandleVote(n, m)
    else match n.role
      case Follower => StepFollower(n, m)
      case Leader => StepLeader(cfg, n, m)
      case _ => StepCandidate(cfg, n, m)
  }

  predicate Sticky(n: Node, m: Message, leased: bool) {
    (m.Vote? || m.PreVote?) && n.lead != NONE && n.vote != m.from && leased
  }

  function RejectSticky(n: Node, m: Message): Node
    requires m.Vote? || m.PreVote?
  {
    if m.PreVote? then Send(n, PreVoteResp(n.id, m.from, m.term, true))
    else Send(n, VoteResp(n.id, m.from, n.term, true))
  }

  /** A message from an earlier term: requests from a stale leader or
      pre-candidate are told the current term, the rest is dropped. */
  function ReplyStale(n: Node, m: Message): Node {
    match m
    case Append(_, _, _, _, _, _, _) => Send(n, AppendResp(n.id, m.from, n.term, 0, false, 0, 0))
    case Heartbeat(_, _, _, _, _) => Send(n, HeartbeatResp(n.id, m.from, n.term, []))
    case InstallSnapshot(_, _, _, _) => Send(n, InstallSnapshotResp(n.id, m.from, n.term, 0))
    case PreVote(_, _, _, _, _) => Send(n, PreVoteResp(n.id, m.from, n.term, true))
    case _ => n
  }

  predicate KeepsTerm(m: Message) { m.PreVote? || (m.PreVoteResp? && !m.reject) }

  /** The entry point for every message from a peer. */
  function Step(cfg: Config, n: Node, m: Message, leased: bool): Node
    requires |cfg.peers| > 0 && n.id in PeerSet(cfg) && n.prs.Keys == PeerSet(cfg) && n.snapIndex <= |n.log|
  {
    if Sticky(n, m, leased) then RejectSticky(n, m)
    else if m.term == 0 || m.term == n.term then Dispatch(cfg, n, m)
    else if m.term < n.term then ReplyStale(n, m)
    else if KeepsTerm(m) then Dispatch(cfg, n, m)
    else Dispatch(cfg, BecomeFollower(cfg, n, m.term, if m.Vote? then NONE else m.from), m)
  }

  /** A proposal stepped into a non-leader, or an empty one, changes nothing. */
  function Propose(cfg: Config, n: Node, cmds: seq<Bytes>): Node
    requires |cfg.peers| > 0 && n.id in PeerSet(cfg) && n.prs.Keys == PeerSet(cfg) && n.snapIndex <= |n.log|
  {
    if !n.role.Leader? || cmds == [] then n
    else
      var es := seq(|cmds|, i requires 0 <= i < |cmds| => (Normal, cmds[i]));
      AppendEntryKeeps(cfg, n, es);
      BcastAppend(cfg, AppendEntry(cfg, n, es), cfg.peers)
  }

  lemma AppendEntryKeeps(cfg: Config, n: Node, cmds: seq<(EntryKind, Bytes)>)
    requires |cfg.peers| > 0 && n.prs.Keys == PeerSet(cfg) && n.id in PeerSet(cfg)
    ensures AppendEntry(cfg, n, cmds).snapIndex == n.snapIndex
    ensures n.log <= AppendEntry(cfg, n, cmds).log
  {
    var log := n.log + Stamp(n.term, |n.log|, cmds);
    MaybeCommitKeeps(cfg, n.(log := log, prs := n.prs[n.id := MaybeUpdate(n.prs[n.id], |log|)]));
  }

  function ReadIndex(cfg: Config, n: Node, ctx: Context): Node
    requires n.prs.Keys == PeerSet(cfg)
  {
    if !n.role.Leader? then n
    else if !CommittedInCurrentTerm(n) then n.(gated := n.gated + [ctx])
    else SendReadIndex(cfg, n, ctx)
  }

  /** One tick on which a timer fires: a heartbeat round or a campaign. */
  function TimerFires(cfg: Config, n: Node): Node
    requires |cfg.peers| > 0 && n.id in PeerSet(cfg) && n.prs.Keys == PeerSet(cfg)
  {
    if n.role.Leader? then BcastHeartbeat(n, cfg.peers, LastPendingContext(n.readOnly)) else Campaign(cfg, n)
  }

  /** Construction from durable state: `newRaft` over a recovered storage. */
  function Recover(cfg: Config, id: NodeId, term: nat, vote: NodeId, log: Log, snapIndex: nat, commit: nat): Node
    requires snapIndex <= |log|
  {
    var n := Node(id, term, vote, log, snapIndex, snapIndex, Follower, NONE, map[], map[], NO_READS, [], [], [], {}, false);
    BecomeFollower(cfg, CommitTo(n, commit), term, NONE)
  }
}
