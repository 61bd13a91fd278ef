/** Finding where a follower's log agrees with the leader's after a rejected
    append. */
module RaftBacktrack {
  import opened RaftTypes
  import opened RaftCore

  predicate Rising(log: Log) {
    && (forall i | 0 <= i < |log| :: log[i].term >= 1)
    && (forall i, j | 0 <= i <= j < |log| :: log[i].term <= log[j].term)
  }

  /** Both logs hold an entry of one term at index `i`. */
  predicate Agree(l: Node, f: Node, i: nat) {
    1 <= i <= |l.log| && i <= |f.log| && l.log[i - 1].term == f.log[i - 1].term
  }

  /** A leader and a follower of any states their logs may be in: terms rise along
      both, and the follower's snapshot, being committed, is part of the leader's log. */
  predicate Pair(l: Node, f: Node) {
    && Rising(l.log) && Rising(f.log) && l.snapIndex <= |l.log| && f.snapIndex <= |f.log|
    && (f.snapIndex > 0 ==> Agree(l, f, f.snapIndex))
  }

  /** An append after entry `prev` that the follower can see and must reject. */
  predicate Rejects(l: Node, f: Node, prev: nat) {
    l.snapIndex <= prev <= |l.log| && f.snapIndex <= prev && !MatchTerm(f, prev, TermAt(l, prev))
  }

  function Rejection(l: Node, f: Node, prev: nat): Message {
    var (hint, hintTerm) := FindConflictByTerm(f, Min(prev, |f.log|), TermAt(l, prev));
    AppendResp(f.id, l.id, f.term, prev, true, hint, hintTerm)
  }

  /** Where the leader's next index goes on that rejection. */
  function NextAfter(l: Node, f: Node, prev: nat): nat {
    MaybeDecrTo(Progress(0, prev + 1), prev, DecrHint(l, Rejection(l, f, prev))).next
  }

  /** The follower's walk stops at the last visible entry of so low a term. */
  lemma {:induction false} HintMeaning(f: Node, index: nat, term: nat)
    requires Rising(f.log) && f.snapIndex <= index <= |f.log|
    requires f.snapIndex > 0 ==> f.log[f.snapIndex - 1].term <= term
    ensures var (hint, hintTerm) := FindConflictByTerm(f, index, term);
      && f.snapIndex <= hint <= index && hintTerm == TermAt(f, hint) <= term
      && (forall p | hint <= p < index :: f.log[p].term > term)
    decreases index
  {
    if index > 0 && TermAt(f, index) > term {
      HintMeaning(f, index - 1, term);
    }
  }

  /** The leader's walk passes no entry of so low a term. */
  lemma {:induction false} ScanMeaning(l: Node, from: nat, term: nat)
    requires Rising(l.log) && from <= |l.log|
    ensures var h := ScanBack(l, from, term);
      && h <= from && (forall p | h <= p < from && p + 1 >= l.snapIndex :: l.log[p].term > term)
      && (h < from ==> h + 1 >= l.snapIndex)
      && (h == from ==> from == 0 || TermAt(l, from) <= term)
      && (h > 0 ==> TermAt(l, h) <= term)
    decreases from
  {
    if from > 0 && TermAt(l, from) > term {
      ScanMeaning(l, from - 1, term);
    }
  }

  function TermIn(log: Log, i: nat): nat
    requires i <= |log|
  {
    if i == 0 then 0 else log[i - 1].term
  }

  /** What a follower answers to an append after entry `prev` of term `term`
      that it cannot take. */
  predicate Refuses(f: Node, prev: nat, term: nat, m: Message) {
    var (hint, hintTerm) := FindConflictByTerm(f, Min(prev, |f.log|), term);
    && m.AppendResp? && m.reject && m.logIndex == prev && m.rejectHint == hint && m.hintTerm == hintTerm
    && f.snapIndex <= prev && !MatchTerm(f, prev, term)
  }

  lemma BoundaryLow(l: Node, f: Node, prev: nat)
    requires Pair(l, f) && prev <= |l.log| && f.snapIndex <= prev && !MatchTerm(f, prev, TermIn(l.log, prev))
    ensures f.snapIndex > 0 ==> f.log[f.snapIndex - 1].term <= TermIn(l.log, prev)
    ensures prev > 0
  {
    if f.snapIndex > 0 { assert l.log[f.snapIndex - 1].term <= l.log[prev - 1].term; }
  }

  /** The index a leader takes from a refusal is below the one refused, unless it
      has compacted past that one since, and at or above every agreement of its log
      with the log that refused, whether or not the leader still has that entry. */
  lemma RefusalMeaning(l: Node, f: Node, prev: nat, m: Message)
    requires Pair(l, f) && prev <= |l.log| && Refuses(f, prev, TermIn(l.log, prev), m)
    ensures DecrHint(l, m) <= prev && (l.snapIndex <= prev ==> DecrHint(l, m) < prev)
    ensures forall i: nat | Agree(l, f, i) && i <= prev :: i <= DecrHint(l, m)
  {
    hide FindConflictByTerm, ScanBack;
    var term, start := TermIn(l.log, prev), Min(prev, |f.log|);
    BoundaryLow(l, f, prev);
    HintMeaning(f, start, term);
    ScanMeaning(l, Min(m.rejectHint, |l.log|), m.hintTerm);
    forall i: nat | Agree(l, f, i) && i <= prev ensures i <= DecrHint(l, m) {
      AgreeKept(l, f, prev, i, m.rejectHint);
    }
  }

  /** An agreement lies at or below the hint, and its term at or below the hint's. */
  lemma AgreeKept(l: Node, f: Node, prev: nat, i: nat, hint: nat)
    requires Pair(l, f) && prev <= |l.log| && Agree(l, f, i) && i <= prev
    requires hint <= |f.log| && forall p | hint <= p < Min(prev, |f.log|) :: f.log[p].term > TermIn(l.log, prev)
    ensures i <= hint && l.log[i - 1].term <= f.log[hint - 1].term
  {
    assert l.log[i - 1].term <= l.log[prev - 1].term;
    assert i <= hint;
    assert f.log[i - 1].term <= f.log[hint - 1].term;
  }

  /** A rejection answered while neither log moves strictly lowers the next
      index, and never takes it to or below an index at which the two logs agree. */
  lemma BacktrackProgress(l: Node, f: Node, prev: nat)
    requires Pair(l, f) && Rejects(l, f, prev)
    ensures 1 <= NextAfter(l, f, prev) < prev + 1
    ensures forall i: nat | Agree(l, f, i) && i <= prev :: i < NextAfter(l, f, prev)
  {
    hide FindConflictByTerm, DecrHint;
    RefusalMeaning(l, f, prev, Rejection(l, f, prev));
  }

  /** Rejections cannot go on: the next index the exchange settles on is one that
      the follower accepts, or one the leader serves with a snapshot. */
  function Settled(l: Node, f: Node, next: nat): nat
    requires Pair(l, f) && 1 <= next
    decreases next
  {
    if !Rejects(l, f, next - 1) then next
    else
      BacktrackProgress(l, f, next - 1);
      Settled(l, f, NextAfter(l, f, next - 1))
  }

  lemma {:induction false} BacktrackSettles(l: Node, f: Node, next: nat)
    requires Pair(l, f) && 1 <= next <= |l.log| + 1
    ensures var n := Settled(l, f, next);
      && 1 <= n <= next && !Rejects(l, f, n - 1)
      && (forall i: nat | Agree(l, f, i) && i < next :: i < n)
    decreases next
  {
    hide NextAfter;
    if Rejects(l, f, next - 1) {
      BacktrackProgress(l, f, next - 1);
      BacktrackSettles(l, f, NextAfter(l, f, next - 1));
    }
  }
}
