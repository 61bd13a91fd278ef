/** What the log hands to the state machine over a whole life of the process:
    every committed entry once, in order, with jumps only over snapshots. */
module Delivery {
  import opened RaftTypes
  import opened PlainLog

  datatype Op =
    | Receive(index: nat, logTerm: nat, commit: nat, ents: Log)
    | Lead(ents: Log)
    | Commit(index: nat)
    | Install(snap: Snapshot)
    | Compact(snap: Snapshot)
    | Deliver

  datatype Output = Batch(ents: Log) | Jump(index: nat)

  /** What the callers guarantee: contiguous entries, a leader appends at its
      end, only newer snapshots are installed, and only what is applied is
      compacted, under its own term. */
  predicate Allowed(s: LogState, op: Op) {
    match op
    case Receive(index, _, _, ents) => Contiguous(ents, index + 1)
    case Lead(ents) => Contiguous(ents, Last(s.plain) + 1)
    case Commit(_) => true
    case Install(snap) => snap.index > s.committed
    case Compact(snap) => s.plain.dummy < snap.index <= s.applied && TermOf(s.plain, snap.index) == snap.term
    case Deliver => true
  }

  /** A panic ends the process: nothing happens after it. */
  function After(s: LogState, op: Op): LogState {
    if s.panicked then s else
    match op
    case Receive(index, logTerm, commit, ents) => MaybeAppended(s, index, logTerm, commit, ents)
    case Lead(ents) => Joined(s, ents)
    case Commit(i) => Committed(s, i)
    case Install(snap) => Restored(s, snap)
    case Compact(snap) => s.(plain := Snapshotted(s.plain, snap))
    case Deliver => var es := Pending(s); if es == [] then s else Applied(s, es[|es| - 1].index)
  }

  function Outputs(s: LogState, op: Op): seq<Output> {
    if s.panicked then []
    else match op
      case Deliver => if Pending(s) == [] then [] else [Batch(Pending(s))]
      case Install(snap) => [Jump(snap.index)]
      case _ => []
  }

  predicate AllowedRun(s: LogState, ops: seq<Op>)
    decreases ops
  {
    ops == [] || (Allowed(s, ops[0]) && AllowedRun(After(s, ops[0]), ops[1..]))
  }

  function Final(s: LogState, ops: seq<Op>): LogState
    decreases ops
  {
    if ops == [] then s else Final(After(s, ops[0]), ops[1..])
  }

  function AllOutputs(s: LogState, ops: seq<Op>): seq<Output>
    decreases ops
  {
    if ops == [] then [] else Outputs(s, ops[0]) + AllOutputs(After(s, ops[0]), ops[1..])
  }

  /** Where the state machine stands after outputs that have no gap, repeat or
      reordering from `pos` on; none if they have one. */
  function Position(outs: seq<Output>, pos: nat): Result<nat>
    decreases outs
  {
    if outs == [] then Ok(pos)
    else match outs[0]
      case Batch(es) => if es != [] && Contiguous(es, pos + 1) then Position(outs[1..], pos + |es|) else Unavailable
      case Jump(i) => if i > pos then Position(outs[1..], i) else Unavailable
  }

  /** `e` is committed, and is the log's entry at its index unless compacted. */
  predicate Holds(s: LogState, e: Entry) {
    && 1 <= e.index <= s.committed
    && (e.index > s.plain.dummy ==> e.index <= Last(s.plain) && s.plain.entries[e.index - s.plain.dummy - 1] == e)
  }

  predicate Delivered(outs: seq<Output>, e: Entry) {
    exists i | 0 <= i < |outs| :: outs[i].Batch? && e in outs[i].ents
  }

  // ----- one operation -----

  lemma DeliverStep(s: LogState)
    requires Ordered(s) && Pending(s) != []
    ensures Contiguous(Pending(s), s.applied + 1) && |Pending(s)| == s.committed - s.applied
    ensures After(s, Deliver).applied == if s.panicked then s.applied else s.committed
    ensures forall e | e in Pending(s) :: Holds(s, e)
  {
    var es, d := Pending(s), s.plain.dummy;
    assert es == s.plain.entries[s.applied - d..s.committed - d];
    forall i | 0 <= i < |es| ensures es[i].index == s.applied + 1 + i && Holds(s, es[i]) {
      assert es[i] == s.plain.entries[s.applied - d + i];
    }
  }

  lemma LeadStep(s: LogState, ents: Log)
    requires Ordered(s) && Contiguous(ents, Last(s.plain) + 1)
    ensures Ordered(Joined(s, ents)) && KeepsCommitted(s, Joined(s, ents))
  {
    if ents != [] { JoinedOrdered(s, ents); }
  }

  lemma AfterOrdered(s: LogState, op: Op)
    requires Ordered(s) && Allowed(s, op)
    ensures Ordered(After(s, op))
  {
    hide MaybeAppended, Joined;
    match op
    case Receive(index, logTerm, commit, ents) => MaybeAppendedKeeps(s, index, logTerm, commit, ents);
    case Lead(ents) => LeadStep(s, ents);
    case Deliver => if Pending(s) != [] { DeliverStep(s); }
    case _ =>
  }

  lemma KeptHolds(s: LogState, r: LogState, e: Entry)
    requires KeepsCommitted(s, r) && Holds(s, e)
    ensures Holds(r, e)
  {
    var c := s.committed - s.plain.dummy;
    if e.index > s.plain.dummy {
      assert r.plain.entries[..c][e.index - s.plain.dummy - 1] == s.plain.entries[..c][e.index - s.plain.dummy - 1];
    }
  }

  /** A committed entry is never replaced. */
  lemma AfterHolds(s: LogState, op: Op, e: Entry)
    requires Ordered(s) && Allowed(s, op) && Holds(s, e)
    ensures Holds(After(s, op), e)
  {
    hide MaybeAppended, Joined, KeepsCommitted;
    match op
    case Receive(index, logTerm, commit, ents) =>
      MaybeAppendedKeeps(s, index, logTerm, commit, ents);
      KeptHolds(s, MaybeAppended(s, index, logTerm, commit, ents), e);
    case Lead(ents) =>
      LeadStep(s, ents);
      KeptHolds(s, Joined(s, ents), e);
    case _ =>
  }

  lemma {:induction false} FinalHolds(s: LogState, ops: seq<Op>, e: Entry)
    requires Ordered(s) && AllowedRun(s, ops) && Holds(s, e)
    ensures Holds(Final(s, ops), e)
    decreases ops
  {
    hide After, Holds, Allowed;
    if ops != [] {
      AfterOrdered(s, ops[0]);
      AfterHolds(s, ops[0], e);
      FinalHolds(After(s, ops[0]), ops[1..], e);
    }
  }

  lemma AppliedMoves(s: LogState, op: Op)
    requires Ordered(s) && Allowed(s, op)
    ensures Position(Outputs(s, op), s.applied) == Ok(After(s, op).applied)
  {
    hide MaybeAppended, Joined;
    match op
    case Receive(index, logTerm, commit, ents) => MaybeAppendedKeeps(s, index, logTerm, commit, ents);
    case Lead(ents) => LeadStep(s, ents);
    case Deliver => if Pending(s) != [] { DeliverStep(s); }
    case _ =>
  }

  lemma {:induction false} PositionJoins(a: seq<Output>, b: seq<Output>, pos: nat)
    requires Position(a, pos).Ok?
    ensures Position(a + b, pos) == Position(b, Position(a, pos).value)
    decreases a
  {
    if a == [] {
      assert a + b == b;
    } else {
      assert (a + b)[0] == a[0] && (a + b)[1..] == a[1..] + b;
      PositionJoins(a[1..], b, if a[0].Batch? then pos + |a[0].ents| else a[0].index);
    }
  }

  // ----- whole lives -----

  /** Exactly once and in order: the outputs of any run follow on from where it
      started with no gap, repeat or reordering, and end at the applied mark;
      and the watermarks stay in order throughout. */
  lemma {:induction false} DeliveredInOrder(s: LogState, ops: seq<Op>)
    requires Ordered(s) && AllowedRun(s, ops)
    ensures Position(AllOutputs(s, ops), s.applied) == Ok(Final(s, ops).applied)
    ensures Ordered(Final(s, ops))
    decreases ops
  {
    hide After, Outputs, Allowed, Ordered;
    if ops != [] {
      AfterOrdered(s, ops[0]);
      AppliedMoves(s, ops[0]);
      DeliveredInOrder(After(s, ops[0]), ops[1..]);
      PositionJoins(Outputs(s, ops[0]), AllOutputs(After(s, ops[0]), ops[1..]), s.applied);
    }
  }

  lemma OutputsHold(s: LogState, op: Op, e: Entry)
    requires Ordered(s) && Delivered(Outputs(s, op), e)
    ensures Holds(s, e)
  {
    if Pending(s) != [] { DeliverStep(s); }
  }

  /** Whatever was delivered at any point is the final log's entry at its index,
      unless compacted away: no two deliveries can disagree. */
  lemma {:induction false} DeliveredIsFinal(s: LogState, ops: seq<Op>, e: Entry)
    requires Ordered(s) && AllowedRun(s, ops) && Delivered(AllOutputs(s, ops), e)
    ensures Holds(Final(s, ops), e)
    decreases ops
  {
    hide After, Outputs, Allowed, Holds;
    if ops != [] {
      var a, b := Outputs(s, ops[0]), AllOutputs(After(s, ops[0]), ops[1..]);
      var all: seq<Output> := a + b;
      var i :| 0 <= i < |all| && all[i].Batch? && e in all[i].ents;
      AfterOrdered(s, ops[0]);
      if i < |a| {
        assert a[i].Batch? && e in a[i].ents;
        OutputsHold(s, ops[0], e);
        FinalHolds(s, ops, e);
      } else {
        assert b[i - |a|] == all[i];
        DeliveredIsFinal(After(s, ops[0]), ops[1..], e);
      }
    }
  }

  /** A delivery holds nothing back: it hands over the log's entry at each index
      that is committed and not yet applied, and none remains. */
  lemma NothingHeldBack(s: LogState)
    requires Ordered(s) && !s.panicked
    ensures var r := After(s, Deliver); r.applied == r.committed == s.committed && r.plain == s.plain && !r.panicked
    ensures s.applied == s.committed ==> Outputs(s, Deliver) == []
    ensures s.applied < s.committed ==> var outs := Outputs(s, Deliver);
      && |outs| == 1 && outs[0].Batch? && |outs[0].ents| == s.committed - s.applied
      && forall i | 0 <= i < |outs[0].ents| :: outs[0].ents[i] == s.plain.entries[s.applied - s.plain.dummy + i]
  {
    if Pending(s) != [] { DeliverStep(s); }
  }
}
