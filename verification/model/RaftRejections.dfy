/** Rejections on a network that delays and repeats them: what the leader may
    conclude from one, and when it falls behind what the follower holds by now. */
module RaftRejections {
  import opened RaftTypes
  import opened RaftCore
  import opened RaftHistory
  import opened RaftInvariant
  import opened RaftSystem
  import opened RaftTear
  import opened RaftTraffic
  import opened RaftNext
  import opened RaftRuns
  import opened RaftSolo
  import opened RaftSafety
  import B = RaftBacktrack

  // ----- refusals in runs -----

  /** Action `j` delivers the append `q` to the sender of `m`, which refuses it
      with `m`. */
  predicate AnswersAt(run: seq<System>, acts: seq<Action>, j: nat, q: Message, m: Message) {
    && j < |acts| && acts[j].Act? && acts[j].id == m.from && acts[j].input.Receive? && acts[j].input.m == q
    && IsNode(run, j, m.from) && q in run[j].net && RefusedBy(NodeAt(run, j, m.from), q, m)
  }

  /** Every refusal on the network was given at some earlier moment. */
  lemma {:induction false} RefusalAnswered(cfg: Config, run: seq<System>, acts: seq<Action>, books: seq<Book>, k: nat, m: Message)
    returns (j: nat, q: Message)
    requires IsRun(cfg, run, acts) && BooksOK(cfg, run, acts, books) && k < |run| && m in run[k].net && Refusal(m)
    ensures j < k && AnswersAt(run, acts, j, q, m)
    decreases k
  {
    hide BooksOK, SysOK, Enabled, Next, Handle, RefusedBy, Init, Sound, Says;
    if k == 0 {
      NoMessagesAtFirst(cfg);
    } else if m in run[k - 1].net {
      j, q := RefusalAnswered(cfg, run, acts, books, k - 1, m);
    } else {
      var a := acts[k - 1];
      RunLength(cfg, run, acts, books);
      StateOK(cfg, run, acts, books, k - 1);
      NewMessage(cfg, run[k - 1], books[k - 1], a, m);
      SaysRefused(cfg, run[k - 1].nodes[a.id], a.input, m);
      j, q := k - 1, a.input.m;
    }
  }

  lemma SaysRefused(cfg: Config, n: Node, input: Input, m: Message)
    requires ValidConfig(cfg) && Sound(cfg, n) && Says(cfg, n, input, m) && Refusal(m)
    ensures input.Receive? && RefusedBy(n, input.m, m) && m.from == n.id
  {
    hide Handle, Sound, B.Refuses;
  }

  lemma RefusedFrom(n: Node, q: Message, m: Message)
    requires RefusedBy(n, q, m)
    ensures m.from == n.id && m.to == q.from && m.term == q.term && q.Append? && q.logIndex == m.logIndex
  {
  }

  lemma NoMessagesAtFirst(cfg: Config)
    ensures Init(cfg).net == {}
  {
  }

  /** The append that was refused is a piece of the leader's log as it is now. */
  lemma AskedAfter(cfg: Config, run: seq<System>, acts: seq<Action>, books: seq<Book>, j: nat, q: Message, k: nat, x: NodeId)
    requires IsRun(cfg, run, acts) && BooksOK(cfg, run, acts, books) && |run| == |books| && j <= k && Leads(run, k, x)
    requires q.Append? && q in run[j].net && q.term == NodeAt(run, k, x).term && Topmost(run, k, x)
    ensures var l := NodeAt(run, k, x).log; q.logIndex <= |l| && q.logTerm == B.TermIn(l, q.logIndex)
  {
    hide IsRun, BooksOK, SysOK, BookOK, NodeOK, ProgressesOK;
    var n, h := NodeAt(run, k, x), books[k].h;
    StateOK(cfg, run, acts, books, j);
    MessageTerm(cfg, run[j], books[j], q);
    SomeState(cfg, run, acts, books, j);
    BookElections(cfg, books[j]);
    BooksGrow(cfg, run, acts, books, j, k);
    MsgStable(cfg, books[j], books[k], q);
    StateAt(cfg, run, acts, books, k, x);
    LeaderAt(cfg, books[k], n);
    if t2 :| t2 in h.el && t2 > n.term { TopSeen(cfg, run, acts, books, k, x, k, t2); }
    assert !Superseded(h, n.term);
  }

  /** Node `x` leads, and a refusal of its term is on the way to it. */
  predicate Refused(run: seq<System>, k: nat, x: NodeId, m: Message) {
    && Leads(run, k, x) && m in run[k].net && Refusal(m) && m.to == x && m.term == NodeAt(run, k, x).term
  }

  lemma LogsRise(cfg: Config, run: seq<System>, acts: seq<Action>, j: nat, y: NodeId)
    requires IsRun(cfg, run, acts) && IsNode(run, j, y)
    ensures B.Rising(NodeAt(run, j, y).log)
    ensures NodeAt(run, j, y).snapIndex <= NodeAt(run, j, y).committed <= |NodeAt(run, j, y).log|
  {
    hide IsRun, B.Rising, B.Pair;
    BacktrackingApplies(cfg, run, acts, j, y, y);
    Sized(cfg, run, acts);
    if |cfg.peers| == 1 {
      Sole(cfg, run, acts, j, y, j, y);
    } else {
      var h := Both(cfg, run, acts, j, y, j, y);
    }
  }

  lemma PairAt(cfg: Config, run: seq<System>, acts: seq<Action>, k: nat, x: NodeId, j: nat, y: NodeId)
    requires IsRun(cfg, run, acts) && Leads(run, k, x) && Topmost(run, k, x) && IsNode(run, j, y) && j <= k
    ensures B.Pair(NodeAt(run, k, x), NodeAt(run, j, y))
  {
    hide IsRun, B.Rising;
    LogsRise(cfg, run, acts, k, x);
    LogsRise(cfg, run, acts, j, y);
    TopLeaderHolds(cfg, run, acts, k, x, j, y);
    var f := NodeAt(run, j, y);
    if f.snapIndex > 0 { assert CommittedLog(f)[f.snapIndex - 1] == NodeAt(run, k, x).log[f.snapIndex - 1]; }
  }

  /** Whenever a refusal reaches a leader of the highest term, however late and
      however often, the next index it yields is above every index at which the
      leader's log agrees with the follower's log as it was when it refused. */
  lemma RefusalRespectsAnswer(cfg: Config, run: seq<System>, acts: seq<Action>, k: nat, x: NodeId, m: Message)
    returns (j: nat, q: Message)
    requires IsRun(cfg, run, acts) && Refused(run, k, x, m) && Topmost(run, k, x)
    ensures j < k && AnswersAt(run, acts, j, q, m)
    ensures var l := NodeAt(run, k, x); var f := NodeAt(run, j, m.from);
      && DecrHint(l, m) <= m.logIndex && (l.snapIndex <= m.logIndex ==> DecrHint(l, m) < m.logIndex)
      && (forall i: nat | B.Agree(l, f, i) :: i < DecrHint(l, m) + 1)
  {
    hide IsRun, BooksOK, DecrHint, RefusedBy;
    Sized(cfg, run, acts);
    if |cfg.peers| == 1 {
      SilentAlone(cfg, run, acts, k);
      return;
    }
    var books := RunOK(cfg, run, acts);
    RunLength(cfg, run, acts, books);
    j, q := RefusalAnswered(cfg, run, acts, books, k, m);
    var l, f := NodeAt(run, k, x), NodeAt(run, j, m.from);
    RefusedFrom(f, q, m);
    AskedAfter(cfg, run, acts, books, j, q, k, x);
    PairAt(cfg, run, acts, k, x, j, m.from);
    RefusedFields(f, q, m);
    B.RefusalMeaning(l, f, q.logIndex, m);
    forall i: nat | B.Agree(l, f, i) ensures i < DecrHint(l, m) + 1 {
      if i > m.logIndex {
        LogMatching(cfg, run, acts, k, x, j, m.from, i - 1);
        Disagrees(l, f, i, q.logIndex);
      }
    }
  }

  lemma SilentAlone(cfg: Config, run: seq<System>, acts: seq<Action>, k: nat)
    requires IsRun(cfg, run, acts) && |cfg.peers| == 1 && k < |run|
    ensures run[k].net == {}
  {
    SoloState(cfg, run, acts, k);
  }

  lemma RefusedFields(f: Node, q: Message, m: Message)
    requires RefusedBy(f, q, m)
    ensures B.Refuses(f, q.logIndex, q.logTerm, m) && !MatchTerm(f, q.logIndex, q.logTerm) && f.snapIndex <= q.logIndex
  {
  }

  /** A shared prefix that reaches past `prev` includes it. */
  lemma Disagrees(l: Node, f: Node, i: nat, prev: nat)
    requires prev < i <= |l.log| && i <= |f.log| && l.log[..i] == f.log[..i] && f.snapIndex <= prev
    ensures MatchTerm(f, prev, B.TermIn(l.log, prev))
  {
    if prev > 0 { assert l.log[..i][prev - 1] == f.log[..i][prev - 1]; }
  }

  /** A leader takes a refusal of the entry just before its next index. */
  lemma RefusalTaken(cfg: Config, l: Node, m: Message, leased: bool)
    requires ValidConfig(cfg) && Sound(cfg, l) && l.role.Leader? && Refusal(m) && m.term == l.term && m.from in l.prs
    requires l.prs[m.from].next == m.logIndex + 1
    ensures Step(cfg, l, m, leased).prs == l.prs[m.from := l.prs[m.from].(next := DecrHint(l, m) + 1)]
  {
    hide DecrHint, AppendFor;
    assert Step(cfg, l, m, leased) == HandleAppendResp(cfg, l, m);
  }

  /** When a refusal leaves the next index above every agreement with the
      follower's log as it is now: exactly if the two logs do not agree at that
      very index. They may agree there when the follower has taken entries since it
      refused; then it accepts what the leader sends next. */
  lemma LateRefusal(cfg: Config, run: seq<System>, acts: seq<Action>, k: nat, x: NodeId, m: Message)
    requires IsRun(cfg, run, acts) && Refused(run, k, x, m) && IsNode(run, k, m.from)
    ensures var l := NodeAt(run, k, x); var f := NodeAt(run, k, m.from); var next := DecrHint(l, m) + 1;
      && ((forall i: nat | B.Agree(l, f, i) :: i < next) <==> !B.Agree(l, f, next))
      && (B.Agree(l, f, next) ==> !B.Rejects(l, f, next - 1))
  {
    hide IsRun, DecrHint;
    var l, f := NodeAt(run, k, x), NodeAt(run, k, m.from);
    var next := DecrHint(l, m) + 1;
    forall i: nat | B.Agree(l, f, i) && i >= next ensures B.Agree(l, f, next) {
      LogMatching(cfg, run, acts, k, x, k, m.from, i - 1);
      assert l.log[..i][next - 1] == f.log[..i][next - 1];
    }
    if B.Agree(l, f, next) {
      LogMatching(cfg, run, acts, k, x, k, m.from, next - 1);
      SharedAccepts(l, f, next);
    }
  }

  lemma SharedAccepts(l: Node, f: Node, next: nat)
    requires 1 <= next <= |l.log| && next <= |f.log| && l.log[..next] == f.log[..next]
    ensures !B.Rejects(l, f, next - 1)
  {
    if next > 1 { assert l.log[..next][next - 2] == f.log[..next][next - 2]; }
  }

  // ----- a refusal delivered twice -----

  lemma AckTaken(cfg: Config, l: Node, a: Message, leased: bool)
    requires ValidConfig(cfg) && Sound(cfg, l) && l.role.Leader? && a.term == l.term && a.from in l.prs
    requires a.AppendResp? && !a.reject
    ensures var r := Step(cfg, l, a, leased);
      && r.prs == l.prs[a.from := MaybeUpdate(l.prs[a.from], a.logIndex)]
      && r.log == l.log && r.snapIndex == l.snapIndex && r.role.Leader? && r.term == l.term && r.id == l.id
  {
    hide MaybeCommit, BcastAppend, CanCommit;
    assert Step(cfg, l, a, leased) == HandleAppendResp(cfg, l, a);
    var u := l.(prs := l.prs[a.from := MaybeUpdate(l.prs[a.from], a.logIndex)]);
    MaybeCommitKeeps(cfg, u);
    BcastAppendKeeps(cfg, MaybeCommit(cfg, u), cfg.peers);
  }

  lemma {:induction false} SameScan(n: Node, r: Node, hint: nat, term: nat)
    requires r.log == n.log && r.snapIndex == n.snapIndex
    ensures ScanBack(r, hint, term) == ScanBack(n, hint, term)
    decreases hint
  {
    if hint > 0 { SameScan(n, r, hint - 1, term); }
  }

  /** What a leader is after taking a message of its term. */
  function Took(cfg: Config, l: Node, m: Message): Node
    requires ValidConfig(cfg)
  {
    if Sound(cfg, l) then Step(cfg, l, m, false) else l
  }

  /** A refusal `m` is delivered, then an acknowledgement `a` of the index it
      refused, then the refusal again: it is taken again, and leaves the next index
      at or below what the leader itself has recorded as matched. */
  lemma RefusalRepeated(cfg: Config, l: Node, m: Message, a: Message)
    requires ValidConfig(cfg) && Sound(cfg, l) && l.role.Leader? && Refusal(m) && m.term == l.term && m.from in l.prs
    requires l.prs[m.from].next == m.logIndex + 1 && DecrHint(l, m) < m.logIndex
    requires a == AppendResp(m.from, m.to, m.term, m.logIndex, false, 0, 0)
    ensures var r := Took(cfg, Took(cfg, Took(cfg, l, m), a), m);
      m.from in r.prs && r.prs[m.from].next == DecrHint(l, m) + 1 <= m.logIndex <= r.prs[m.from].matched
  {
    hide Step, DecrHint;
    RefusalTaken(cfg, l, m, false);
    var l1 := Took(cfg, l, m);
    RefusalKeeps(cfg, l, m);
    AckTaken(cfg, l1, a, false);
    var l2 := Took(cfg, l1, a);
    SameHint(l, l2, m);
    RefusalTaken(cfg, l2, m, false);
  }

  lemma RefusalKeeps(cfg: Config, l: Node, m: Message)
    requires ValidConfig(cfg) && Sound(cfg, l) && l.role.Leader? && Refusal(m) && m.term == l.term && m.from in l.prs
    ensures var r := Step(cfg, l, m, false);
      r.log == l.log && r.snapIndex == l.snapIndex && r.role.Leader? && r.term == l.term && r.id == l.id
  {
    hide DecrHint, AppendFor;
    assert Step(cfg, l, m, false) == HandleAppendResp(cfg, l, m);
  }

  lemma SameHint(n: Node, r: Node, m: Message)
    requires r.log == n.log && r.snapIndex == n.snapIndex && m.AppendResp?
    ensures DecrHint(r, m) == DecrHint(n, m)
  {
    SameScan(n, r, Min(m.rejectHint, |n.log|), m.hintTerm);
  }

  /** When a refusal that is taken puts Next at or below Match: exactly if the
      follower has acknowledged anything before. The leader can tell. */
  lemma FallsBehind(cfg: Config, run: seq<System>, acts: seq<Action>, k: nat, x: NodeId, m: Message)
    requires IsRun(cfg, run, acts) && Refused(run, k, x, m) && m.from != x && m.from in NodeAt(run, k, x).prs
    requires NodeAt(run, k, x).prs[m.from].next == m.logIndex + 1 && DecrHint(NodeAt(run, k, x), m) < m.logIndex
    ensures ValidConfig(cfg)
    ensures var l := NodeAt(run, k, x); var r := Took(cfg, l, m);
      m.from in r.prs && (r.prs[m.from].next <= r.prs[m.from].matched <==> l.prs[m.from].matched > 0)
  {
    hide IsRun, DecrHint, Step;
    Sized(cfg, run, acts);
    LeaderSound(cfg, run, acts, k, x);
    RefusalTaken(cfg, NodeAt(run, k, x), m, false);
    MatchBoundsNext(cfg, run, acts, k, x, m.from);
  }

  lemma LeaderSound(cfg: Config, run: seq<System>, acts: seq<Action>, k: nat, x: NodeId)
    requires IsRun(cfg, run, acts) && ValidConfig(cfg) && Leads(run, k, x)
    ensures Sound(cfg, NodeAt(run, k, x))
  {
    hide IsRun, BooksOK;
    if |cfg.peers| == 1 {
      Sole(cfg, run, acts, k, x, k, x);
      OnlyPeer(cfg);
    } else {
      var books := RunOK(cfg, run, acts);
      RunLength(cfg, run, acts, books);
      SomeState(cfg, run, acts, books, k);
      NeverPanics(cfg, run, acts, k, x);
    }
  }
}
