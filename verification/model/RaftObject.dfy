/** The core as the object the driver holds: a struct whose methods update its
    fields, each doing what the corresponding function on node states says. */
module RaftObject {
  import opened RaftTypes
  import C = RaftCore

  /** The queue of linearizable reads waiting for confirmation. */
  class ReadQueue {
    var pending: map<Context, ReadStatus>
    var queue: seq<Context>

    function View(): ReadOnly
      reads this
    {
      ReadOnly(pending, queue)
    }

    constructor ()
      ensures View() == NO_READS
    {
      pending, queue := map[], [];
    }

    method AddRequest(index: nat, ctx: Context)
      modifies this
      ensures View() == C.AddRequest(old(View()), index, ctx)
    {
      if ctx !in pending {
        pending := pending[ctx := ReadStatus(index, {})];
        queue := queue + [ctx];
      }
    }

    method RecvAck(id: NodeId, ctx: Context) returns (acks: nat)
      modifies this
      ensures View() == C.RecvAck(old(View()), id, ctx) && acks == C.AckCount(View(), ctx)
    {
      if ctx !in pending {
        return 0;
      }
      pending := pending[ctx := pending[ctx].(acks := pending[ctx].acks + {id})];
      acks := |pending[ctx].acks|;
    }

    /** Releases every request up to and including `target`, in arrival order. */
    method Advance(target: Context) returns (released: seq<ReadState>)
      modifies this
      ensures var k := C.WalkTo(old(View()), 0, target);
        && k <= |old(queue)| && released == C.Released(old(View()), old(queue)[..k])
        && View() == if k == 0 then old(View()) else C.DropReleased(old(View()), k)
    {
      C.WalkToBound(View(), 0, target);
      released := [];
      var found, i := false, 0;
      ghost var was := View();
      while i < |queue| && !found
        invariant 0 <= i <= |queue| && View() == was
        invariant released == C.Released(was, queue[..i])
        invariant if found then C.WalkTo(was, 0, target) == i else C.WalkTo(was, 0, target) == C.WalkTo(was, i, target)
        decreases |queue| - i
      {
        var ctx := queue[i];
        ReleasedNext(was, i);
        i := i + 1;
        if ctx in pending {
          released := released + [ReadState(pending[ctx].index, ctx)];
          found := ctx == target;
        }
      }
      if !found {
        assert queue[..0] == [];
        return [];
      }
      var gone := queue[..i];
      queue := queue[i..];
      pending := map c | c in pending && c !in gone :: pending[c];
    }
  }

  lemma {:induction false} ReleasedJoins(ro: ReadOnly, a: seq<Context>, b: seq<Context>)
    ensures C.Released(ro, a + b) == C.Released(ro, a) + C.Released(ro, b)
    decreases a
  {
    if a == [] {
      assert a + b == b;
    } else {
      assert (a + b)[1..] == a[1..] + b;
      ReleasedJoins(ro, a[1..], b);
    }
  }

  lemma ReleasedNext(ro: ReadOnly, i: nat)
    requires i < |ro.queue|
    ensures var c := ro.queue[i];
      C.Released(ro, ro.queue[..i + 1]) ==
        C.Released(ro, ro.queue[..i]) + if c in ro.pending then [ReadState(ro.pending[c].index, c)] else []
  {
    assert ro.queue[..i + 1] == ro.queue[..i] + [ro.queue[i]];
    ReleasedJoins(ro, ro.queue[..i], [ro.queue[i]]);
    var one: seq<Context> := [ro.queue[i]];
    assert one[1..] == [];
  }

  class Raft {
    const cfg: Config
    const id: NodeId
    var term: nat
    var vote: NodeId
    var log: Log
    var snapIndex: nat
    var committed: nat
    var role: Role
    var lead: NodeId
    var prs: map<NodeId, Progress>
    var votes: map<NodeId, bool>
    var readQueue: ReadQueue
    var gated: seq<Context>
    var msgs: seq<Message>
    var readStates: seq<ReadState>
    var issued: set<Context>
    var panicked: bool

    function View(): Node
      reads this, readQueue
    {
      Node(id, term, vote, log, snapIndex, committed, role, lead, prs, votes, readQueue.View(), gated, msgs, readStates,
           issued, panicked)
    }

    /** What `newRaft` establishes and every method keeps. */
    predicate Valid()
      reads this
    {
      ValidConfig(cfg) && id in PeerSet(cfg) && prs.Keys == PeerSet(cfg) && snapIndex <= |log|
    }

    /** Recovery from what storage holds. */
    constructor (cfg: Config, id: NodeId, term: nat, vote: NodeId, log: Log, snapIndex: nat, commit: nat)
      requires ValidConfig(cfg) && id in PeerSet(cfg) && snapIndex <= |log|
      ensures Valid() && fresh(readQueue) && View() == C.Recover(cfg, id, term, vote, log, snapIndex, commit)
    {
      this.cfg, this.id, this.term, this.vote, this.log, this.snapIndex := cfg, id, term, vote, log, snapIndex;
      committed, role, lead, prs, votes := snapIndex, Follower, NONE, map[], map[];
      gated, msgs, readStates, issued, panicked := [], [], [], {}, false;
      readQueue := new ReadQueue();
      new;
      if commit > committed {
        CommitTo(commit);
      }
      BecomeFollower(term, NONE);
    }

    // ----- sending -----

    method Send(m: Message)
      modifies this`msgs
      ensures View() == C.Send(old(View()), m)
    {
      msgs := msgs + [m];
    }

    method SendAppend(to: NodeId)
      requires snapIndex <= |log|
      modifies this`msgs
      ensures View() == C.SendAppend(cfg, old(View()), to)
    {
      if to !in prs {
        return;
      }
      var next := prs[to].next;
      var prev := if next == 0 then 0 else next - 1;
      var prevTerm := C.TermAt(View(), prev);
      if next > |log| {
        Send(Append(id, to, term, prev, prevTerm, [], committed));
      } else if next <= snapIndex {
        if snapIndex != 0 {
          Send(InstallSnapshot(id, to, term, log[..snapIndex]));
        }
      } else {
        Send(Append(id, to, term, prev, prevTerm, C.EntriesToSend(cfg, View(), next), committed));
      }
    }

    method BcastAppend()
      requires snapIndex <= |log|
      modifies this`msgs
      ensures View() == C.BcastAppend(cfg, old(View()), cfg.peers)
    {
      hide C.AppendFor;
      var i := 0;
      assert cfg.peers[0..] == cfg.peers;
      while i < |cfg.peers|
        invariant 0 <= i <= |cfg.peers|
        invariant C.BcastAppend(cfg, old(View()), cfg.peers) == C.BcastAppend(cfg, View(), cfg.peers[i..])
      {
        assert cfg.peers[i..][1..] == cfg.peers[i + 1..];
        if cfg.peers[i] != id {
          SendAppend(cfg.peers[i]);
        }
        i := i + 1;
      }
    }

    method BcastHeartbeat(ctx: Context)
      requires Valid()
      modifies this`msgs
      ensures View() == C.BcastHeartbeat(old(View()), cfg.peers, ctx)
    {
      var i := 0;
      assert cfg.peers[0..] == cfg.peers;
      while i < |cfg.peers|
        invariant 0 <= i <= |cfg.peers|
        invariant C.BcastHeartbeat(old(View()), cfg.peers, ctx) == C.BcastHeartbeat(View(), cfg.peers[i..], ctx)
      {
        assert cfg.peers[i..][1..] == cfg.peers[i + 1..];
        var to := cfg.peers[i];
        if to != id {
          Send(Heartbeat(id, to, term, Min(prs[to].matched, committed), ctx));
        }
        i := i + 1;
      }
    }

    // ----- reads -----

    method SendReadIndex(ctx: Context)
      requires Valid()
      modifies this`msgs, this`readStates, readQueue
      ensures View() == C.SendReadIndex(cfg, old(View()), ctx)
    {
      if |cfg.peers| == 1 {
        readStates := readStates + [ReadState(committed, ctx)];
        return;
      }
      readQueue.AddRequest(committed, ctx);
      var acks := readQueue.RecvAck(id, ctx);
      BcastHeartbeat(ctx);
    }

    method ReleaseGated()
      requires Valid()
      modifies this`gated, this`msgs, this`readStates, readQueue
      ensures View() == C.ReleaseGated(cfg, old(View()))
    {
      hide C.SendReadIndex;
      if !role.Leader? || !C.CommittedInCurrentTerm(View()) {
        return;
      }
      var waiting := gated;
      gated := [];
      var i := 0;
      assert waiting[0..] == waiting;
      while i < |waiting|
        invariant 0 <= i <= |waiting| && gated == []
        invariant C.SendReadIndexes(cfg, old(View()).(gated := []), waiting) == C.SendReadIndexes(cfg, View(), waiting[i..])
      {
        assert waiting[i..][1..] == waiting[i + 1..];
        SendReadIndex(waiting[i]);
        i := i + 1;
      }
    }

    method StepReadIndex(ctx: Context) returns (ok: bool)
      requires Valid()
      modifies this`gated, this`msgs, this`readStates, readQueue
      ensures View() == C.ReadIndex(cfg, old(View()), ctx) && ok == role.Leader?
    {
      hide C.SendReadIndex;
      if !role.Leader? {
        return false;
      }
      if !C.CommittedInCurrentTerm(View()) {
        gated := gated + [ctx];
      } else {
        SendReadIndex(ctx);
      }
      return true;
    }

    // ----- commitment -----

    method CommitTo(i: nat)
      modifies this`committed, this`panicked
      ensures View() == C.CommitTo(old(View()), i)
    {
      if committed < i {
        if i > |log| {
          panicked := true;
        } else {
          committed := i;
        }
      }
    }

    /** The matched index that a quorum has reached: collected, sorted, and read
        off at the quorum's position. */
    method QuorumIndex() returns (i: nat)
      requires Valid()
      ensures i == C.QuorumIndex(cfg, View())
    {
      var matches: seq<nat> := [];
      var k := 0;
      while k < |cfg.peers|
        invariant 0 <= k <= |cfg.peers| && matches == C.Matches(View(), cfg.peers)[..k]
      {
        matches := matches + [prs[cfg.peers[k]].matched];
        k := k + 1;
      }
      assert matches == C.Matches(View(), cfg.peers);
      i := C.Sorted(matches)[|cfg.peers| - Quorum(cfg)];
    }

    method MaybeCommit() returns (moved: bool)
      requires Valid()
      modifies this`committed, this`panicked, this`gated, this`msgs, this`readStates, readQueue
      ensures View() == C.MaybeCommit(cfg, old(View())) && moved == C.CanCommit(cfg, old(View()))
    {
      hide C.QuorumIndex, C.ReleaseGated, C.CommitTo, C.TermAt;
      var i := QuorumIndex();
      moved := i > committed && C.TermAt(View(), i) == term;
      if moved {
        CommitTo(i);
        ReleaseGated();
      }
    }

    method AppendEntry(cmds: seq<(EntryKind, Bytes)>)
      requires Valid()
      modifies this`log, this`prs, this`committed, this`panicked, this`gated, this`msgs, this`readStates, readQueue
      ensures Valid() && View() == C.AppendEntry(cfg, old(View()), cmds)
    {
      hide C.MaybeCommit;
      var from := |log|;
      var es: Log := [];
      var i := 0;
      while i < |cmds|
        invariant 0 <= i <= |cmds| && es == C.Stamp(term, from, cmds)[..i]
      {
        es := es + [Entry(term, from + 1 + i, cmds[i].0, cmds[i].1)];
        i := i + 1;
      }
      assert es == C.Stamp(term, from, cmds);
      log := log + es;
      prs := prs[id := C.MaybeUpdate(prs[id], |log|)];
      var moved := MaybeCommit();
    }

    // ----- role transitions -----

    method Reset(newTerm: nat)
      requires ValidConfig(cfg)
      modifies this`term, this`vote, this`lead, this`votes, this`prs, this`readQueue, this`gated
      ensures fresh(readQueue) && View() == C.Reset(cfg, old(View()), newTerm) && prs.Keys == PeerSet(cfg)
    {
      hide C.FreshProgress, PeerSet, ValidConfig;
      ResetProgress();
      ClearTerm(newTerm);
      readQueue := new ReadQueue();
    }

    method ClearTerm(newTerm: nat)
      modifies this`term, this`vote, this`lead, this`votes, this`gated
      ensures term == newTerm && vote == (if newTerm != old(term) then NONE else old(vote))
      ensures lead == NONE && votes == map[] && gated == []
    {
      if term != newTerm {
        term := newTerm;
        vote := NONE;
      }
      lead, votes, gated := NONE, map[], [];
    }

    method ResetProgress()
      modifies this`prs
      ensures prs == C.FreshProgress(cfg, old(View())) && prs.Keys == PeerSet(cfg)
    {
      prs := map[];
      var last, i := |log|, 0;
      while i < |cfg.peers|
        invariant 0 <= i <= |cfg.peers|
        invariant forall p :: p in prs <==> p in cfg.peers[..i]
        invariant forall p | p in prs :: prs[p] == Progress(if p == id then last else 0, last + 1)
      {
        var p := cfg.peers[i];
        prs := prs[p := Progress(if p == id then last else 0, last + 1)];
        i := i + 1;
      }
      assert forall p :: p in cfg.peers[..i] <==> p in PeerSet(cfg);
    }

    method BecomeFollower(newTerm: nat, newLead: NodeId)
      requires ValidConfig(cfg) && id in PeerSet(cfg) && snapIndex <= |log|
      modifies this`term, this`vote, this`lead, this`votes, this`prs, this`readQueue, this`gated, this`role
      ensures Valid() && fresh(readQueue) && View() == C.BecomeFollower(cfg, old(View()), newTerm, newLead)
    {
      hide C.FreshProgress;
      Reset(newTerm);
      role := Follower;
      lead := newLead;
    }

    method BecomePreCandidate()
      modifies this`role, this`votes, this`lead, this`panicked
      ensures View() == C.BecomePreCandidate(old(View()))
    {
      if role.Leader? {
        panicked := true;
        return;
      }
      role := PreCandidate;
      votes := map[];
      lead := NONE;
    }

    method BecomeCandidate()
      requires Valid()
      modifies this`term, this`vote, this`lead, this`votes, this`prs, this`readQueue, this`gated, this`role, this`panicked
      ensures Valid() && (readQueue == old(readQueue) || fresh(readQueue))
      ensures View() == C.BecomeCandidate(cfg, old(View()))
    {
      hide C.FreshProgress;
      if role.Leader? {
        panicked := true;
        return;
      }
      Reset(term + 1);
      vote := id;
      role := Candidate;
    }

    method BecomeLeader()
      requires Valid()
      modifies this, readQueue
      ensures Valid() && (readQueue == old(readQueue) || fresh(readQueue)) && View() == C.BecomeLeader(cfg, old(View()))
    {
      hide C.FreshProgress, C.MaybeCommit;
      if role.Follower? {
        panicked := true;
        return;
      }
      Reset(term);
      lead := id;
      role := Leader;
      AppendEntry([(Noop, [])]);
    }

    // ----- elections -----

    method RecordVote(from: NodeId, granted: bool)
      modifies this`votes
      ensures View() == C.RecordVote(old(View()), from, granted)
    {
      if from !in votes {
        votes := votes[from := granted];
      }
    }

    /** Counts the ballots of one kind. */
    method Tally(granted: bool) returns (n: nat)
      ensures n == if granted then |C.Granted(View())| else |C.Rejected(View())|
    {
      n := 0;
      var left, kind := votes.Keys, {};
      while left != {}
        invariant left <= votes.Keys && n == |kind|
        invariant kind == set v | v in votes && v !in left && votes[v] == granted
        decreases |left|
      {
        var v :| v in left;
        left := left - {v};
        if votes[v] == granted {
          kind := kind + {v};
          n := n + 1;
        }
      }
      assert kind == if granted then C.Granted(View()) else C.Rejected(View());
    }

    method AskVotes(pre: bool)
      modifies this`msgs
      ensures View() == C.AskVotes(old(View()), cfg.peers, pre)
    {
      hide C.TermAt;
      var last, lastTerm, i := |log|, C.TermAt(View(), |log|), 0;
      assert cfg.peers[0..] == cfg.peers;
      while i < |cfg.peers|
        invariant 0 <= i <= |cfg.peers| && lastTerm == C.TermAt(View(), |log|)
        invariant C.AskVotes(old(View()), cfg.peers, pre) == C.AskVotes(View(), cfg.peers[i..], pre)
      {
        assert cfg.peers[i..][1..] == cfg.peers[i + 1..];
        var to := cfg.peers[i];
        if to != id {
          Send(if pre then PreVote(id, to, term + 1, last, lastTerm) else Vote(id, to, term, last, lastTerm));
        }
        TermAtSame(old(View()), View());
        i := i + 1;
      }
    }

    lemma TermAtSame(a: Node, b: Node)
      requires b == a.(msgs := b.msgs)
      ensures C.TermAt(a, |a.log|) == C.TermAt(b, |b.log|)
    {
    }

    method SolicitVotes()
      requires Valid()
      modifies this, readQueue
      ensures Valid() && (readQueue == old(readQueue) || fresh(readQueue)) && View() == C.SolicitVotes(cfg, old(View()))
    {
      hide C.BecomeLeader, C.AskVotes, C.Granted;
      RecordVote(id, true);
      var granted := Tally(true);
      if granted >= Quorum(cfg) {
        BecomeLeader();
      } else {
        AskVotes(false);
      }
    }

    method SolicitPreVotes()
      requires Valid()
      modifies this, readQueue
      ensures Valid() && (readQueue == old(readQueue) || fresh(readQueue))
      ensures View() == C.SolicitPreVotes(cfg, old(View()))
    {
      hide C.SolicitVotes, C.BecomeCandidate, C.AskVotes, C.Granted;
      RecordVote(id, true);
      var granted := Tally(true);
      if granted >= Quorum(cfg) {
        BecomeCandidate();
        SolicitVotes();
      } else {
        AskVotes(true);
      }
    }

    method Campaign()
      requires Valid()
      modifies this, readQueue
      ensures Valid() && (readQueue == old(readQueue) || fresh(readQueue)) && View() == C.Campaign(cfg, old(View()))
    {
      hide C.SolicitVotes, C.SolicitPreVotes, C.BecomeCandidate, C.BecomePreCandidate;
      if cfg.preVote {
        BecomePreCandidate();
        SolicitPreVotes();
      } else {
        BecomeCandidate();
        SolicitVotes();
      }
    }

    /** A tick on which the timer of the current role runs out. */
    method TimerFires()
      requires Valid()
      modifies this, readQueue
      ensures Valid() && (readQueue == old(readQueue) || fresh(readQueue)) && View() == C.TimerFires(cfg, old(View()))
    {
      hide C.Campaign, C.BcastHeartbeat;
      if role.Leader? {
        BcastHeartbeat(C.LastPendingContext(readQueue.View()));
      } else {
        Campaign();
      }
    }

    // ----- requests from peers -----

    method HandleVoteRequest(m: Message)
      requires m.Vote? || m.PreVote?
      modifies this`vote, this`msgs
      ensures View() == if m.PreVote? then C.HandlePreVote(old(View()), m) else C.HandleVote(old(View()), m)
    {
      hide C.IsUpToDate;
      var upToDate := C.IsUpToDate(View(), m.logIndex, m.logTerm);
      if m.PreVote? {
        Send(PreVoteResp(id, m.from, m.term, !(upToDate && m.term > term)));
      } else {
        var canVote := vote == m.from || (vote == NONE && lead == NONE) || m.term > term;
        var grant := canVote && upToDate;
        if grant {
          vote := m.from;
        }
        Send(VoteResp(id, m.from, term, !grant));
      }
    }

    method FindConflictByTerm(index: nat, logTerm: nat) returns (hint: nat, hintTerm: nat)
      ensures (hint, hintTerm) == C.FindConflictByTerm(View(), index, logTerm)
    {
      hide C.TermAt;
      hint := index;
      while hint > 0
        invariant C.FindConflictByTerm(View(), index, logTerm) == C.FindConflictByTerm(View(), hint, logTerm)
        decreases hint
      {
        hintTerm := C.TermAt(View(), hint);
        if hintTerm <= logTerm {
          return;
        }
        hint := hint - 1;
      }
      hintTerm := 0;
    }

    /** The log part of an append whose preceding entry matches. */
    method SpliceFrom(index: nat, ents: Log)
      modifies this`log, this`panicked
      ensures View() == C.SpliceFrom(old(View()), index, ents)
    {
      hide C.FindConflict;
      var conflict := C.FindConflict(View(), ents);
      if conflict == 0 {
        return;
      }
      if conflict <= committed || !(index < conflict <= index + |ents|) {
        panicked := true;
        return;
      }
      var rest := ents[conflict - index - 1..];
      if rest == [] {
        return;
      }
      if 1 <= rest[0].index <= |log| + 1 {
        log := log[..rest[0].index - 1] + rest;
      } else {
        panicked := true;
      }
    }

    method MaybeAppend(index: nat, logTerm: nat, commit: nat, ents: Log) returns (ok: bool)
      modifies this`log, this`panicked, this`committed
      ensures ok == C.MatchTerm(old(View()), index, logTerm)
      ensures View() == if ok then C.MaybeAppend(old(View()), index, commit, ents) else old(View())
    {
      hide C.SpliceFrom, C.CommitTo;
      if !C.MatchTerm(View(), index, logTerm) {
        return false;
      }
      SpliceFrom(index, ents);
      CommitTo(Min(commit, index + |ents|));
      return true;
    }

    method HandleAppend(m: Message)
      requires m.Append?
      modifies this`log, this`panicked, this`committed, this`msgs
      ensures View() == C.HandleAppend(old(View()), m)
    {
      hide C.MaybeAppend, C.MatchTerm, C.FindConflictByTerm;
      if m.logIndex < committed {
        Send(AppendResp(id, m.from, term, committed, false, 0, 0));
        return;
      }
      var ok := MaybeAppend(m.logIndex, m.logTerm, m.commit, m.entries);
      if ok {
        AppendKeeps(old(View()), m);
        Send(AppendResp(id, m.from, term, m.logIndex + |m.entries|, false, 0, 0));
        return;
      }
      var hint, hintTerm := FindConflictByTerm(Min(m.logIndex, |log|), m.logTerm);
      Send(AppendResp(id, m.from, term, m.logIndex, true, hint, hintTerm));
    }

    lemma AppendKeeps(n: Node, m: Message)
      requires m.Append?
      ensures C.MaybeAppend(n, m.logIndex, m.commit, m.entries).id == n.id
    {
      hide C.FindConflict;
    }

    method HandleHeartbeat(m: Message)
      requires m.Heartbeat?
      modifies this`panicked, this`committed, this`msgs
      ensures View() == C.HandleHeartbeat(old(View()), m)
    {
      CommitTo(Min(m.commit, |log|));
      Send(HeartbeatResp(id, m.from, term, m.context));
    }

    /** Installs a snapshot that is ahead of, and not already matched by, the log. */
    method Restore(prefix: Log) returns (installed: bool)
      modifies this`log, this`snapIndex, this`committed, this`panicked
      ensures installed == (|prefix| > old(committed) && !C.MatchTerm(old(View()), |prefix|, LastTerm(prefix)))
      ensures View() ==
        if installed then old(View()).(log := prefix, snapIndex := |prefix|, committed := |prefix|)
        else if |prefix| <= old(committed) then old(View()) else C.CommitTo(old(View()), |prefix|)
    {
      if |prefix| <= committed {
        return false;
      }
      if C.MatchTerm(View(), |prefix|, LastTerm(prefix)) {
        CommitTo(|prefix|);
        return false;
      }
      log, snapIndex, committed := prefix, |prefix|, |prefix|;
      return true;
    }

    method HandleSnapshot(m: Message)
      requires m.InstallSnapshot?
      modifies this`log, this`snapIndex, this`committed, this`panicked, this`msgs
      ensures View() == C.HandleSnapshot(old(View()), m)
    {
      hide C.MatchTerm;
      var installed := Restore(m.prefix);
      Send(InstallSnapshotResp(id, m.from, term, if installed then |log| else committed));
    }

    method StepFollower(m: Message)
      requires Valid()
      modifies this`lead, this`log, this`snapIndex, this`committed, this`panicked, this`msgs
      ensures View() == C.StepFollower(old(View()), m)
    {
      hide C.HandleAppend, C.HandleHeartbeat, C.HandleSnapshot;
      if m.Append? {
        lead := m.from;
        HandleAppend(m);
      } else if m.Heartbeat? {
        lead := m.from;
        HandleHeartbeat(m);
      } else if m.InstallSnapshot? {
        lead := m.from;
        HandleSnapshot(m);
      }
    }

    method CountVote(m: Message)
      requires Valid() && (m.PreVoteResp? || m.VoteResp?)
      modifies this, readQueue
      ensures (readQueue == old(readQueue) || fresh(readQueue)) && View() == C.CountVote(cfg, old(View()), m)
    {
      hide C.SolicitVotes, C.BecomeCandidate, C.BecomeLeader, C.BecomeFollower, C.BcastAppend, C.Granted, C.Rejected;
      RecordVote(m.from, !m.reject);
      var granted := Tally(true);
      var rejected := Tally(false);
      if granted >= Quorum(cfg) {
        if role.PreCandidate? {
          BecomeCandidate();
          SolicitVotes();
        } else {
          BecomeLeader();
          BcastAppend();
        }
      } else if rejected >= Quorum(cfg) {
        BecomeFollower(term, NONE);
      }
    }

    method StepCandidate(m: Message)
      requires Valid()
      modifies this, readQueue
      ensures (readQueue == old(readQueue) || fresh(readQueue)) && View() == C.StepCandidate(cfg, old(View()), m)
    {
      hide C.HandleAppend, C.HandleHeartbeat, C.HandleSnapshot, C.BecomeFollower, C.CountVote;
      if m.Append? {
        BecomeFollower(m.term, m.from);
        HandleAppend(m);
      } else if m.Heartbeat? {
        BecomeFollower(m.term, m.from);
        HandleHeartbeat(m);
      } else if m.InstallSnapshot? {
        BecomeFollower(m.term, m.from);
        HandleSnapshot(m);
      } else if C.IsMyVoteResp(View(), m) {
        CountVote(m);
      }
    }

    // ----- replies to a leader -----

    method DecrHint(m: Message) returns (hint: nat)
      requires m.AppendResp?
      ensures hint == C.DecrHint(View(), m)
    {
      hide C.TermAt;
      hint := m.rejectHint;
      if m.hintTerm > 0 {
        hint := Min(hint, |log|);
        ghost var from := hint;
        while hint > 0
          invariant C.ScanBack(View(), from, m.hintTerm) == C.ScanBack(View(), hint, m.hintTerm)
          decreases hint
        {
          if C.TermAt(View(), hint) <= m.hintTerm {
            return;
          }
          hint := hint - 1;
        }
      }
    }

    method HandleAppendResp(m: Message)
      requires Valid() && m.AppendResp?
      modifies this`prs, this`committed, this`panicked, this`gated, this`msgs, this`readStates, readQueue
      ensures View() == C.HandleAppendResp(cfg, old(View()), m)
    {
      hide C.MaybeCommit, C.CanCommit, C.BcastAppend, C.AppendFor, C.DecrHint;
      if m.from !in prs {
        return;
      }
      if m.reject {
        var hint := DecrHint(m);
        if prs[m.from].next == m.logIndex + 1 {
          prs := prs[m.from := C.MaybeDecrTo(prs[m.from], m.logIndex, hint)];
          SendAppend(m.from);
        }
        return;
      }
      var advanced := prs[m.from].matched < m.logIndex;
      prs := prs[m.from := C.MaybeUpdate(prs[m.from], m.logIndex)];
      if advanced {
        ghost var before := View();
        C.MaybeCommitKeeps(cfg, before);
        var moved := MaybeCommit();
        if moved {
          BcastAppend();
        } else {
          CommitStays(before);
        }
      }
    }

    lemma CommitStays(n: Node)
      requires n.prs.Keys == PeerSet(cfg) && |cfg.peers| > 0 && !C.CanCommit(cfg, n)
      ensures C.MaybeCommit(cfg, n) == n
    {
    }

    method HandleHeartbeatResp(m: Message)
      requires Valid() && m.HeartbeatResp?
      modifies this`msgs, this`readStates, readQueue
      ensures View() == C.HandleHeartbeatResp(cfg, old(View()), m)
    {
      hide C.AppendFor, C.Released, C.WalkTo, C.DropReleased, C.RecvAck;
      if m.from in prs && prs[m.from].matched < |log| {
        SendAppend(m.from);
      }
      if m.context == [] {
        return;
      }
      var acks := readQueue.RecvAck(m.from, m.context);
      if acks < Quorum(cfg) {
        return;
      }
      var released := readQueue.Advance(m.context);
      readStates := readStates + released;
    }

    method StepLeader(m: Message)
      requires Valid()
      modifies this`prs, this`committed, this`panicked, this`gated, this`msgs, this`readStates, readQueue
      ensures View() == C.StepLeader(cfg, old(View()), m)
    {
      hide C.HandleAppendResp, C.HandleHeartbeatResp, C.AppendFor;
      match m
      case AppendResp(_, _, _, _, _, _, _) => HandleAppendResp(m);
      case HeartbeatResp(_, _, _, _) => HandleHeartbeatResp(m);
      case InstallSnapshotResp(_, _, _, _) =>
        if m.from in prs {
          prs := prs[m.from := C.MaybeUpdate(prs[m.from], m.logIndex)];
          SendAppend(m.from);
        }
      case _ =>
    }

    // ----- the entry points -----

    method Dispatch(m: Message)
      requires Valid()
      modifies this, readQueue
      ensures (readQueue == old(readQueue) || fresh(readQueue)) && View() == C.Dispatch(cfg, old(View()), m)
    {
      hide C.HandleVote, C.HandlePreVote, C.StepFollower, C.StepCandidate, C.StepLeader;
      if m.PreVote? || m.Vote? {
        HandleVoteRequest(m);
        return;
      }
      match role
      case Follower => StepFollower(m);
      case Leader => StepLeader(m);
      case _ => StepCandidate(m);
    }

    method ReplyStale(m: Message)
      modifies this`msgs
      ensures View() == C.ReplyStale(old(View()), m)
    {
      match m
      case Append(_, _, _, _, _, _, _) => Send(AppendResp(id, m.from, term, 0, false, 0, 0));
      case Heartbeat(_, _, _, _, _) => Send(HeartbeatResp(id, m.from, term, []));
      case InstallSnapshot(_, _, _, _) => Send(InstallSnapshotResp(id, m.from, term, 0));
      case PreVote(_, _, _, _, _) => Send(PreVoteResp(id, m.from, term, true));
      case _ =>
    }

    lemma StickyIsVote(n: Node, m: Message, leased: bool)
      requires C.Sticky(n, m, leased)
      ensures m.Vote? || m.PreVote?
    {
    }

    method RejectSticky(m: Message)
      requires m.Vote? || m.PreVote?
      modifies this`msgs
      ensures View() == C.RejectSticky(old(View()), m)
    {
      if m.PreVote? {
        Send(PreVoteResp(id, m.from, m.term, true));
      } else {
        Send(VoteResp(id, m.from, term, true));
      }
    }

    /** Any message from a peer. `leased` says whether the election timer of a
        node that backs a leader is still running. */
    method Step(m: Message, leased: bool)
      requires Valid()
      modifies this, readQueue
      ensures (readQueue == old(readQueue) || fresh(readQueue)) && View() == C.Step(cfg, old(View()), m, leased)
    {
      hide C.Dispatch, C.ReplyStale, C.BecomeFollower, C.RejectSticky, C.Sticky, C.KeepsTerm;
      if C.Sticky(View(), m, leased) {
        StickyIsVote(View(), m, leased);
        RejectSticky(m);
        return;
      }
      if m.term != 0 && m.term < term {
        ReplyStale(m);
        return;
      }
      AdoptTerm(m);
      Dispatch(m);
    }

    /** A higher term makes the node a follower, except for a pre-vote request or
        a granted pre-vote. */
    method AdoptTerm(m: Message)
      requires Valid()
      modifies this`term, this`vote, this`lead, this`votes, this`prs, this`readQueue, this`gated, this`role
      ensures Valid() && (readQueue == old(readQueue) || fresh(readQueue))
      ensures View() == if m.term > old(term) && !C.KeepsTerm(m)
                        then C.BecomeFollower(cfg, old(View()), m.term, if m.Vote? then NONE else m.from) else old(View())
    {
      hide C.BecomeFollower;
      if m.term > term && !m.PreVote? && !(m.PreVoteResp? && !m.reject) {
        BecomeFollower(m.term, if m.Vote? then NONE else m.from);
      }
    }

    method StepPropose(cmds: seq<Bytes>) returns (ok: bool)
      requires Valid()
      modifies this, readQueue
      ensures View() == C.Propose(cfg, old(View()), cmds) && ok == old(role).Leader?
      ensures readQueue == old(readQueue)
    {
      hide C.AppendEntry, C.BcastAppend;
      if !role.Leader? {
        return false;
      }
      if cmds == [] {
        return true;
      }
      var es := seq(|cmds|, i requires 0 <= i < |cmds| => (Normal, cmds[i]));
      AppendEntry(es);
      BcastAppend();
      return true;
    }
  }
}
