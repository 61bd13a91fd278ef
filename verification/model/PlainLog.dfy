/** The replicated log as one plain sequence above a boundary, with its
    watermarks: what storage, unstable tail and pending snapshot must add up to. */
module PlainLog {
  import opened RaftTypes
  import C = RaftCore

  /** The entries above index `dummy`, whose own term is still known. */
  datatype Plain = Plain(dummy: nat, dummyTerm: nat, entries: Log)

  datatype Result<T> = Ok(value: T) | Compacted | Unavailable

  datatype Snapshot = Snapshot(index: nat, term: nat, data: Bytes)

  datatype HardState = HardState(term: nat, vote: NodeId, commit: nat)

  predicate Contiguous(ents: Log, from: nat) {
    forall i | 0 <= i < |ents| :: ents[i].index == from + i
  }

  predicate Proper(p: Plain) { Contiguous(p.entries, p.dummy + 1) }

  function Last(p: Plain): nat { p.dummy + |p.entries| }

  /** The term at `i`; 0 outside the visible range. */
  function TermOf(p: Plain, i: nat): nat {
    if i < p.dummy || i > Last(p) then 0 else if i == p.dummy then p.dummyTerm else p.entries[i - p.dummy - 1].term
  }

  function SliceOf(p: Plain, lo: nat, hi: nat): Result<Log> {
    if lo >= hi then Ok([])
    else if lo <= p.dummy then Compacted
    else
      var top := Min(hi, Last(p) + 1);
      if lo >= top then Ok([]) else Ok(p.entries[lo - p.dummy - 1..top - p.dummy - 1])
  }

  /** Everything from the first incoming index on is replaced. */
  function Spliced(p: Plain, ents: Log): Plain
    requires ents != [] && p.dummy < ents[0].index <= Last(p) + 1
  {
    p.(entries := p.entries[..ents[0].index - p.dummy - 1] + ents)
  }

  /** What is left of incoming entries once a snapshot covers a prefix of them. */
  function Uncovered(ents: Log, off: nat): Log {
    if ents != [] && ents[0].index <= off && off < ents[0].index + |ents| then ents[off + 1 - ents[0].index..] else ents
  }

  predicate KeepsSuffix(p: Plain, s: Snapshot) { p.dummy < s.index < Last(p) && TermOf(p, s.index) == s.term }

  /** A snapshot with a matching boundary keeps the suffix; any other drops it. */
  function Snapshotted(p: Plain, s: Snapshot): Plain {
    if KeepsSuffix(p, s) then Plain(s.index, s.term, p.entries[s.index - p.dummy..]) else Plain(s.index, s.term, [])
  }

  /** The index of the first entry the log lacks or holds with another term. */
  function Conflict(p: Plain, ents: Log): nat {
    if ents == [] then 0
    else if TermOf(p, ents[0].index) != ents[0].term then ents[0].index
    else Conflict(p, ents[1..])
  }

  // ----- the log with its watermarks -----

  datatype LogState = LogState(plain: Plain, committed: nat, applied: nat, panicked: bool)

  function Panic(s: LogState): LogState { s.(panicked := true) }

  predicate Ordered(s: LogState) {
    Proper(s.plain) && s.plain.dummy <= s.applied <= s.committed <= Last(s.plain)
  }

  function Committed(s: LogState, i: nat): LogState {
    if s.committed < i then if i > Last(s.plain) then Panic(s) else s.(committed := i) else s
  }

  function Applied(s: LogState, i: nat): LogState {
    if i == 0 then s else if s.committed < i || i < s.applied then Panic(s) else s.(applied := i)
  }

  function Joined(s: LogState, ents: Log): LogState {
    if ents == [] then s
    else if s.plain.dummy < ents[0].index <= Last(s.plain) + 1 then s.(plain := Spliced(s.plain, ents))
    else Panic(s)
  }

  function JoinedFrom(s: LogState, index: nat, ents: Log): LogState {
    var conflict := Conflict(s.plain, ents);
    if conflict == 0 then s
    else if conflict <= s.committed then Panic(s)
    else if index < conflict <= index + |ents| then Joined(s, ents[conflict - index - 1..])
    else Panic(s)
  }

  function MaybeAppended(s: LogState, index: nat, logTerm: nat, commit: nat, ents: Log): LogState {
    if TermOf(s.plain, index) != logTerm then s
    else Committed(JoinedFrom(s, index, ents), Min(commit, index + |ents|))
  }

  function Restored(s: LogState, snap: Snapshot): LogState {
    s.(plain := Plain(snap.index, snap.term, []), committed := snap.index, applied := Max(s.applied, snap.index))
  }

  /** A received snapshot is ignored, or moves the commit index within a log that
      matches it, or replaces the log. */
  function MaybeRestored(s: LogState, snap: Snapshot): LogState {
    if snap.index <= s.committed then s
    else if TermOf(s.plain, snap.index) == snap.term then Committed(s, snap.index)
    else Restored(s, snap)
  }

  /** The committed entries not yet handed out. */
  function Pending(s: LogState): Log {
    var lo, hi := Max(s.applied, s.plain.dummy), Min(s.committed, Last(s.plain));
    if lo < hi then s.plain.entries[lo - s.plain.dummy..hi - s.plain.dummy] else []
  }

  lemma SlicePending(s: LogState)
    ensures SliceOf(s.plain, Max(s.applied, s.plain.dummy) + 1, s.committed + 1) == Ok(Pending(s))
  {
  }

  lemma PendingLast(s: LogState)
    requires Ordered(s)
    ensures Pending(s) == [] <==> s.applied == s.committed
    ensures Pending(s) != [] ==> Pending(s)[|Pending(s)| - 1].index == s.committed
  {
  }

  lemma PendingRun(s: LogState)
    requires Ordered(s)
    ensures Contiguous(Pending(s), s.applied + 1) && |Pending(s)| == s.committed - s.applied
  {
  }

  lemma TailContiguous(u: Log, from: nat, ents: Log)
    requires ents != [] && Contiguous(u, from) && Contiguous(ents, ents[0].index) && from <= ents[0].index <= from + |u|
    ensures Contiguous(u[..ents[0].index - from] + ents, from)
  {
  }

  // ----- the plain log against the node of the cluster model -----

  predicate Shows(n: Node, s: LogState) {
    && n.snapIndex <= n.committed && n.snapIndex <= |n.log|
    && s.plain == Plain(n.snapIndex, C.TermAt(n, n.snapIndex), n.log[n.snapIndex..])
    && s.committed == n.committed && s.panicked == n.panicked
  }

  /** Only the log and its marks are shown. */
  lemma SameShown(n: Node, r: Node, s: LogState)
    requires Shows(n, s) && r.log == n.log && r.snapIndex == n.snapIndex && r.committed == n.committed && r.panicked == n.panicked
    ensures Shows(r, s)
  {
  }

  lemma MarksShown(n: Node, s: LogState)
    requires Shows(n, s)
    ensures s.committed == n.committed && s.panicked == n.panicked && n.snapIndex <= n.committed && n.snapIndex <= |n.log|
  {
  }

  lemma TermShown(n: Node, s: LogState, i: nat)
    requires Shows(n, s)
    ensures TermOf(s.plain, i) == C.TermAt(n, i) && Last(s.plain) == |n.log|
  {
  }

  lemma {:induction false} ConflictShown(n: Node, s: LogState, ents: Log)
    requires Shows(n, s)
    ensures Conflict(s.plain, ents) == C.FindConflict(n, ents)
    decreases ents
  {
    if ents != [] {
      TermShown(n, s, ents[0].index);
      ConflictShown(n, s, ents[1..]);
    }
  }

  /** Walks back to the first visible entry whose term is at most `term`. */
  function BackTo(p: Plain, index: nat, term: nat): (nat, nat)
    decreases index
  {
    if index == 0 then (0, 0)
    else if TermOf(p, index) <= term then (index, TermOf(p, index))
    else BackTo(p, index - 1, term)
  }

  lemma {:induction false} BackShown(n: Node, s: LogState, index: nat, term: nat)
    requires Shows(n, s)
    ensures BackTo(s.plain, index, term) == C.FindConflictByTerm(n, index, term)
    decreases index
  {
    if index > 0 {
      TermShown(n, s, index);
      BackShown(n, s, index - 1, term);
    }
  }

  lemma SpliceShown(n: Node, s: LogState, ents: Log)
    requires Shows(n, s) && (ents != [] ==> ents[0].index > n.committed)
    ensures Shows(C.Splice(n, ents), Joined(s, ents))
  {
    if ents != [] && ents[0].index <= |n.log| + 1 {
      var first := ents[0].index;
      var r := C.Splice(n, ents);
      assert r.log[n.snapIndex..] == n.log[n.snapIndex..first - 1] + ents;
      assert n.log[n.snapIndex..][..first - n.snapIndex - 1] == n.log[n.snapIndex..first - 1];
    }
  }

  lemma JoinShown(n: Node, s: LogState, index: nat, ents: Log)
    requires Shows(n, s) && Contiguous(ents, index + 1)
    ensures Shows(C.SpliceFrom(n, index, ents), JoinedFrom(s, index, ents))
  {
    hide C.Splice, Joined, Conflict, C.FindConflict;
    ConflictShown(n, s, ents);
    var c := C.FindConflict(n, ents);
    if c > n.committed && index < c <= index + |ents| {
      assert ents[c - index - 1..][0].index == c;
      SpliceShown(n, s, ents[c - index - 1..]);
    }
  }

  lemma CommitShown(n: Node, s: LogState, i: nat)
    requires Shows(n, s)
    ensures Shows(C.CommitTo(n, i), Committed(s, i))
  {
  }

  /** The plain log accepts, rejects and panics exactly as the cluster model's
      node does, and goes on showing it. */
  lemma MaybeAppendShown(n: Node, s: LogState, index: nat, logTerm: nat, commit: nat, ents: Log)
    requires Shows(n, s) && Contiguous(ents, index + 1)
    ensures C.MatchTerm(n, index, logTerm) <==> TermOf(s.plain, index) == logTerm
    ensures C.MatchTerm(n, index, logTerm) ==>
      Shows(C.MaybeAppend(n, index, commit, ents), MaybeAppended(s, index, logTerm, commit, ents))
  {
    hide Shows, C.SpliceFrom, JoinedFrom, C.CommitTo, Committed;
    TermShown(n, s, index);
    JoinShown(n, s, index, ents);
    CommitShown(C.SpliceFrom(n, index, ents), JoinedFrom(s, index, ents), Min(commit, index + |ents|));
  }

  /** A leader's own entries and what it then commits. */
  lemma GrowthShown(n: Node, r: Node, s: LogState)
    requires Shows(n, s) && r.snapIndex == n.snapIndex && n.log <= r.log && n.committed <= r.committed <= |r.log|
    requires r.panicked == n.panicked && Contiguous(r.log[|n.log|..], |n.log| + 1)
    ensures Shows(r, Committed(Joined(s, r.log[|n.log|..]), r.committed))
  {
    var ents := r.log[|n.log|..];
    if ents != [] {
      assert ents[0].index == |n.log| + 1;
      assert n.log[n.snapIndex..] + ents == r.log[n.snapIndex..];
      if n.snapIndex > 0 { assert r.log[n.snapIndex - 1] == n.log[n.snapIndex - 1]; }
    }
  }

  /** Installing a snapshot, as the cluster model's node does it. */
  lemma RestoreShown(n: Node, s: LogState, prefix: Log, data: Bytes)
    requires Shows(n, s) && prefix != []
    ensures Shows(n.(log := prefix, snapIndex := |prefix|, committed := |prefix|),
                  Restored(s, Snapshot(|prefix|, LastTerm(prefix), data)))
  {
  }

  /** A driver's compaction, as the cluster model's node does it. */
  lemma CompactShown(n: Node, s: LogState, i: nat, data: Bytes)
    requires Shows(n, s) && n.snapIndex < i <= n.committed <= |n.log|
    ensures Shows(n.(snapIndex := i), s.(plain := Snapshotted(s.plain, Snapshot(i, C.TermAt(n, i), data))))
  {
    TermShown(n, s, i);
    assert n.log[n.snapIndex..][i - n.snapIndex..] == n.log[i..];
  }

  // ----- what the operations keep -----

  lemma JoinedOrdered(s: LogState, ents: Log)
    requires Ordered(s) && (ents != [] ==> Contiguous(ents, ents[0].index) && ents[0].index > s.committed)
    ensures Ordered(Joined(s, ents))
    ensures forall i | s.plain.dummy <= i <= s.committed :: TermOf(Joined(s, ents).plain, i) == TermOf(s.plain, i)
    ensures Joined(s, ents).plain.entries[..s.committed - s.plain.dummy] == s.plain.entries[..s.committed - s.plain.dummy]
  {
    if ents != [] && ents[0].index <= Last(s.plain) + 1 {
      var k := ents[0].index - s.plain.dummy - 1;
      var r := s.plain.entries[..k] + ents;
      assert r[..s.committed - s.plain.dummy] == s.plain.entries[..s.committed - s.plain.dummy];
    }
  }

  /** What an operation on a log never does: move the boundary or the applied
      mark, lower the commit mark, or touch a committed entry. */
  predicate KeepsCommitted(s: LogState, r: LogState) {
    && s.committed <= r.committed && r.plain.dummy == s.plain.dummy && r.applied == s.applied
    && s.plain.dummy <= s.committed <= Last(s.plain) && r.committed <= Last(r.plain)
    && r.plain.entries[..s.committed - s.plain.dummy] == s.plain.entries[..s.committed - s.plain.dummy]
  }

  lemma JoinedFromKeeps(s: LogState, index: nat, ents: Log)
    requires Ordered(s) && Contiguous(ents, index + 1)
    ensures Ordered(JoinedFrom(s, index, ents)) && KeepsCommitted(s, JoinedFrom(s, index, ents))
  {
    hide Conflict;
    var c := Conflict(s.plain, ents);
    if c > s.committed && index < c <= index + |ents| {
      var tail := ents[c - index - 1..];
      assert tail[0].index == c;
      JoinedOrdered(s, tail);
    }
  }

  /** Appending from a leader rewrites nothing committed. */
  lemma MaybeAppendedKeeps(s: LogState, index: nat, logTerm: nat, commit: nat, ents: Log)
    requires Ordered(s) && Contiguous(ents, index + 1)
    ensures var r := MaybeAppended(s, index, logTerm, commit, ents); Ordered(r) && KeepsCommitted(s, r)
  {
    hide JoinedFrom;
    JoinedFromKeeps(s, index, ents);
  }
}
