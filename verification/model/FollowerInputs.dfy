/** What a leader's messages do to the nodes that receive them, said without the
    core's own functions. */
module FollowerInputs {
  import opened RaftTypes
  import opened RaftCore
  import opened RaftSystem
  import L = LeaderInputs

  predicate FromLeader(m: Message) { m.Append? || m.Heartbeat? || m.InstallSnapshot? }

  /** Nothing is left of a candidacy or a leadership. */
  predicate Cleared(cfg: Config, n: Node) {
    && n.votes == map[] && n.readOnly == ReadOnly(map[], []) && n.gated == [] && n.prs.Keys == PeerSet(cfg)
    && (forall p | p in n.prs :: n.prs[p] == Progress(if p == n.id then |n.log| else 0, |n.log| + 1))
  }

  /** `f` is `n` following the sender in the sender's term. A vote of an earlier
      term is forgotten. */
  predicate Follows(cfg: Config, n: Node, m: Message, f: Node) {
    && f == n.(term := m.term, vote := if m.term > n.term then NONE else n.vote, role := Follower, lead := m.from,
               votes := f.votes, prs := f.prs, readOnly := f.readOnly, gated := f.gated)
    && if n.role == Follower && m.term == n.term then f == n.(lead := m.from) else Cleared(cfg, f)
  }

  /** The message is taken: it is not of an earlier term, nor to another leader of
      its own. */
  predicate Taken(n: Node, m: Message) { m.term >= 1 && m.term >= n.term && !(n.role == Leader && m.term == n.term) }

  lemma Turns(cfg: Config, n: Node, m: Message, leased: bool) returns (f: Node)
    requires ValidConfig(cfg) && Sound(cfg, n) && FromLeader(m) && Taken(n, m)
    ensures Follows(cfg, n, m, f)
    ensures var r := Handle(cfg, n, Receive(m, leased));
      && (m.Append? ==> r == HandleAppend(f, m))
      && (m.Heartbeat? ==> r == HandleHeartbeat(f, m))
      && (m.InstallSnapshot? ==> r == HandleSnapshot(f, m))
  {
    hide HandleAppend, HandleHeartbeat, HandleSnapshot, FreshProgress, Cleared;
    StepsDown(cfg, n, m.term, m.from);
    f := if n.role == Follower && m.term == n.term then n.(lead := m.from)
         else BecomeFollower(cfg, n, m.term, m.from).(lead := m.from);
  }

  lemma StepsDown(cfg: Config, n: Node, term: nat, lead: NodeId)
    ensures var f := BecomeFollower(cfg, n, term, lead);
      && f == n.(term := term, vote := if term != n.term then NONE else n.vote, role := Follower, lead := lead,
                 votes := f.votes, prs := f.prs, readOnly := f.readOnly, gated := f.gated)
      && Cleared(cfg, f) && Cleared(cfg, f.(lead := lead))
  {
  }

  /** A message of an earlier term is answered with the term; nothing else changes. */
  lemma StaleTold(cfg: Config, n: Node, m: Message, leased: bool)
    requires ValidConfig(cfg) && Sound(cfg, n) && FromLeader(m) && 1 <= m.term < n.term
    ensures Handle(cfg, n, Receive(m, leased)) ==
      n.(msgs := n.msgs + [if m.Append? then AppendResp(n.id, m.from, n.term, 0, false, 0, 0)
                           else if m.Heartbeat? then HeartbeatResp(n.id, m.from, n.term, [])
                           else InstallSnapshotResp(n.id, m.from, n.term, 0)])
  {
  }

  // ----- appends -----

  /** What holds of an append and a log that meet in a run: entries of one index
      and term are one entry. */
  predicate Meets(n: Node, m: Message)
    requires m.Append?
  {
    forall j | 0 <= j < |m.entries| ::
      && m.entries[j].index == m.logIndex + 1 + j && m.entries[j].term >= 1
      && (m.logIndex + j < |n.log| && n.log[m.logIndex + j].term == m.entries[j].term ==> n.log[m.logIndex + j] == m.entries[j])
  }

  /** The entry before the new ones is the leader's. */
  predicate Connects(n: Node, m: Message)
    requires m.Append?
  {
    L.VisibleTerm(n, m.logIndex) == m.logTerm
  }

  /** A log that already holds the entries stays; any other is cut where it differs
      and ends with them. */
  predicate Joined(n: Node, m: Message, log: Log)
    requires m.Append? && m.logIndex <= |n.log|
  {
    var whole := n.log[..m.logIndex] + m.entries;
    log == if whole <= n.log then n.log else whole
  }

  /** Where a follower says the logs could agree: the last entry it can see, up to
      the one it was asked for, whose term is not above the leader's. */
  predicate Hints(n: Node, m: Message, h: nat, t: nat)
    requires m.Append?
  {
    && h <= m.logIndex && h <= |n.log| && t == L.VisibleTerm(n, h) && t <= m.logTerm
    && (forall i | h < i <= m.logIndex && i <= |n.log| :: L.VisibleTerm(n, i) > m.logTerm)
  }

  lemma {:induction false} ConflictAt(n: Node, base: nat, ents: Log) returns (j: nat)
    requires n.snapIndex <= base <= |n.log|
    requires forall i | 0 <= i < |ents| :: ents[i].index == base + 1 + i && ents[i].term >= 1
    ensures j <= |ents| && FindConflict(n, ents) == (if j == |ents| then 0 else base + 1 + j)
    ensures base + j <= |n.log| && forall i | 0 <= i < j :: n.log[base + i].term == ents[i].term
    ensures j < |ents| && base + j < |n.log| ==> n.log[base + j].term != ents[j].term
    decreases ents
  {
    if ents == [] || !MatchTerm(n, ents[0].index, ents[0].term) {
      j := 0;
    } else {
      assert base + 1 <= |n.log| && n.log[base].term == ents[0].term;
      var k := ConflictAt(n, base + 1, ents[1..]);
      j := k + 1;
    }
  }

  lemma JoinedLog(n: Node, m: Message)
    requires m.Append? && n.snapIndex <= n.committed <= m.logIndex <= |n.log| && n.committed <= |n.log| && Meets(n, m)
    ensures var r := SpliceFrom(n, m.logIndex, m.entries); r == n.(log := r.log) && Joined(n, m, r.log)
  {
    hide FindConflict, Meets;
    var base, ents := m.logIndex, m.entries;
    MeetsParts(n, m);
    var j := ConflictAt(n, base, ents);
    assert n.log[base..base + j] == ents[..j] by { MeetsSame(n, m, j); }
    CutOrHeld(n.log, base, ents, j);
    if j < |ents| {
      assert ents[j..][0].index == base + 1 + j;
    }
  }

  lemma MeetsParts(n: Node, m: Message)
    requires m.Append? && Meets(n, m)
    ensures forall i | 0 <= i < |m.entries| :: m.entries[i].index == m.logIndex + 1 + i && m.entries[i].term >= 1
  {
  }

  lemma MeetsSame(n: Node, m: Message, j: nat)
    requires m.Append? && Meets(n, m) && j <= |m.entries| && m.logIndex + j <= |n.log|
    requires forall i | 0 <= i < j :: n.log[m.logIndex + i].term == m.entries[i].term
    ensures n.log[m.logIndex..m.logIndex + j] == m.entries[..j]
  {
  }

  /** Entries agree with a log for as long as they do, and from there replace it. */
  lemma CutOrHeld(log: Log, base: nat, ents: Log, j: nat)
    requires j <= |ents| && base + j <= |log| && log[base..base + j] == ents[..j]
    requires j < |ents| && base + j < |log| ==> log[base + j].term != ents[j].term
    ensures log[..base] + ents <= log <==> j == |ents|
    ensures log[..base] + ents == log[..base + j] + ents[j..]
  {
    var whole := log[..base] + ents;
    assert log[..base + j] == log[..base] + ents[..j];
    if j < |ents| { assert whole[base + j] == ents[j]; }
  }

  lemma {:induction false} WalkEnds(n: Node, from: nat, term: nat)
    requires from <= |n.log|
    ensures var (h, t) := FindConflictByTerm(n, from, term);
      h <= from && t == L.VisibleTerm(n, h) && t <= term && forall i | h < i <= from :: L.VisibleTerm(n, i) > term
    decreases from
  {
    if from > 0 && TermAt(n, from) > term { WalkEnds(n, from - 1, term); }
  }

  /** An append. Below what is committed it is answered with the commit index; if
      it connects, its entries join the log and as much of the leader's commit index
      as they reach is taken over; if it does not, it is refused with a hint. */
  lemma AppendHandled(cfg: Config, n: Node, m: Message, leased: bool) returns (f: Node, log: Log, h: nat, t: nat)
    requires ValidConfig(cfg) && Sound(cfg, n) && n.snapIndex <= n.committed <= |n.log| && m.Append? && Taken(n, m) && Meets(n, m)
    requires m.logIndex > |n.log| ==> m.logTerm > 0
    ensures Follows(cfg, n, m, f)
    ensures var r := Handle(cfg, n, Receive(m, leased)); var last := m.logIndex + |m.entries|;
      if m.logIndex < n.committed then r == f.(msgs := n.msgs + [AppendResp(n.id, m.from, m.term, n.committed, false, 0, 0)])
      else if Connects(n, m) then
        && m.logIndex <= |n.log| && Joined(n, m, log)
        && r == f.(log := log, committed := if m.commit <= last then L.Larger(n.committed, m.commit) else L.Larger(n.committed, last),
                   msgs := n.msgs + [AppendResp(n.id, m.from, m.term, last, false, 0, 0)])
      else Hints(n, m, h, t) && r == f.(msgs := n.msgs + [AppendResp(n.id, m.from, m.term, m.logIndex, true, h, t)])
  {
    hide Follows, SpliceFrom, Joined, FindConflictByTerm;
    f := Turns(cfg, n, m, leased);
    FollowsKeeps(cfg, n, m, f);
    log, h, t := n.log, 0, 0;
    if m.logIndex >= n.committed {
      if Connects(n, m) {
        JoinedLog(f, m);
        log := SpliceFrom(f, m.logIndex, m.entries).log;
        JoinedLength(f, m, log);
        SameJoin(n, f, m, log);
      } else {
        WalkEnds(f, Min(m.logIndex, |f.log|), m.logTerm);
        var p := FindConflictByTerm(f, Min(m.logIndex, |f.log|), m.logTerm);
        h, t := p.0, p.1;
        SameHints(n, f, m, h, t);
      }
    }
  }

  lemma FollowsKeeps(cfg: Config, n: Node, m: Message, f: Node)
    requires Follows(cfg, n, m, f)
    ensures f.id == n.id && f.log == n.log && f.snapIndex == n.snapIndex && f.committed == n.committed && f.term == m.term
    ensures f.msgs == n.msgs && f.role == Follower
  {
  }

  lemma JoinedLength(n: Node, m: Message, log: Log)
    requires m.Append? && m.logIndex <= |n.log| && Joined(n, m, log)
    ensures |log| >= m.logIndex + |m.entries|
  {
  }

  lemma SameHints(n: Node, f: Node, m: Message, h: nat, t: nat)
    requires m.Append? && f.log == n.log && f.snapIndex == n.snapIndex && Hints(f, m, h, t)
    ensures Hints(n, m, h, t)
  {
    assert forall i: nat :: L.VisibleTerm(f, i) == L.VisibleTerm(n, i);
  }

  lemma SameJoin(n: Node, f: Node, m: Message, log: Log)
    requires m.Append? && m.logIndex <= |f.log| && Joined(f, m, log) && f.log == n.log
    ensures Joined(n, m, log)
  {
  }

  // ----- heartbeats and snapshots -----

  /** A heartbeat moves the commit index as far as the log goes, and is echoed. */
  lemma HeartbeatHandled(cfg: Config, n: Node, m: Message, leased: bool) returns (f: Node)
    requires ValidConfig(cfg) && Sound(cfg, n) && n.committed <= |n.log| && m.Heartbeat? && Taken(n, m)
    ensures Follows(cfg, n, m, f)
    ensures Handle(cfg, n, Receive(m, leased)) ==
      f.(committed := L.Larger(n.committed, if m.commit <= |n.log| then m.commit else |n.log|),
         msgs := n.msgs + [HeartbeatResp(n.id, m.from, m.term, m.context)])
  {
    hide Follows;
    f := Turns(cfg, n, m, leased);
    FollowsKeeps(cfg, n, m, f);
  }

  /** A snapshot that reaches no further than what is committed is answered with
      that; if the log holds its last entry only the commit index moves; otherwise
      the log becomes what the snapshot stands for. */
  lemma SnapshotHandled(cfg: Config, n: Node, m: Message, leased: bool) returns (f: Node)
    requires ValidConfig(cfg) && Sound(cfg, n) && n.snapIndex <= n.committed <= |n.log| && m.InstallSnapshot? && Taken(n, m)
    requires m.prefix != [] ==> m.prefix[|m.prefix| - 1].term >= 1
    ensures Follows(cfg, n, m, f)
    ensures var r := Handle(cfg, n, Receive(m, leased)); var i := |m.prefix|;
      if i <= n.committed then r == f.(msgs := n.msgs + [InstallSnapshotResp(n.id, m.from, m.term, n.committed)])
      else if i <= |n.log| && n.log[i - 1].term == m.prefix[i - 1].term then
        r == f.(committed := i, msgs := n.msgs + [InstallSnapshotResp(n.id, m.from, m.term, i)])
      else r == f.(log := m.prefix, snapIndex := i, committed := i, msgs := n.msgs + [InstallSnapshotResp(n.id, m.from, m.term, i)])
  {
    hide Follows;
    f := Turns(cfg, n, m, leased);
    FollowsKeeps(cfg, n, m, f);
  }
}
