/** The sequential model of one key that client histories are checked against,
    and its agreement with the state machine. */
module KvLin {
  import opened RaftTypes
  import opened KvMachine

  datatype KeyState = KeyState(present: bool, value: Bytes, version: nat)

  const ABSENT := KeyState(false, [], 0)

  datatype Outcome = Unknown | Known(res: Result)

  predicate CasMatches(st: KeyState, c: Command) {
    if c.wanted.None? then !st.present else st.present && st.value == Content(c.wanted)
  }

  function ApplyOp(st: KeyState, c: Command): KeyState {
    match c.op
    case OpPut => KeyState(true, Content(c.value), st.version + 1)
    case OpDelete => ABSENT
    case OpCas => if CasMatches(st, c) then KeyState(true, Content(c.value), st.version + 1) else st
    case OpGet => st
  }

  /** The states a command may leave behind, given what its client saw. */
  function StepKv(st: KeyState, c: Command, out: Outcome): seq<KeyState> {
    if out.Unknown? then
      var after := ApplyOp(st, c);
      if after == st then [st] else [after, st]
    else
      var res := out.res;
      match c.op
      case OpGet =>
        if st.present then
          if res.status == Ok && Content(res.value) == st.value && res.version == st.version then [st] else []
        else if res.status == NotFound then [st] else []
      case OpPut =>
        var next := KeyState(true, Content(c.value), st.version + 1);
        if res.status == Ok && res.version == next.version then [next] else []
      case OpDelete =>
        if st.present then if res.status == Ok then [ABSENT] else []
        else if res.status == NotFound then [st] else []
      case OpCas =>
        if CasMatches(st, c) then
          var next := KeyState(true, Content(c.value), st.version + 1);
          if res.status == Ok && res.version == next.version then [next] else []
        else if st.present then
          if res.status == CasMismatch && Content(res.value) == st.value && res.version == st.version then [st] else []
        else if res.status == CasMismatch then [st] else []
  }

  function Project(d: Data, k: Key): KeyState {
    if k in d then KeyState(true, Content(d[k].value), d[k].version) else ABSENT
  }

  /** What the model can see of an answer. */
  predicate LooksLike(d: Data, c: Command, res: Result) {
    var own := Answer(d, c);
    && res.status == own.status
    && ((c.op.OpPut? || (c.op.OpCas? && own.status == Ok)) ==> res.version == own.version)
    && ((c.key in d && (c.op.OpGet? || (c.op.OpCas? && own.status == CasMismatch))) ==>
          Content(res.value) == Content(own.value) && res.version == own.version)
  }

  /** The model accepts exactly the answers that look like the machine's, and
      moves exactly as the machine's key does; no other key moves. */
  lemma ModelAgrees(d: Data, c: Command, res: Result, other: Key)
    ensures StepKv(Project(d, c.key), c, Known(res)) ==
      if LooksLike(d, c, res) then [Project(Stored(d, c), c.key)] else []
    ensures LooksLike(d, c, Answer(d, c))
    ensures other != c.key ==> Project(Stored(d, c), other) == Project(d, other)
  {
  }

  /** An operation nobody saw finish may or may not have happened, and the
      model allows both and nothing else. */
  lemma UnknownAllowsBoth(d: Data, c: Command, st: KeyState)
    ensures st in StepKv(Project(d, c.key), c, Unknown) <==>
      st == Project(Stored(d, c), c.key) || st == Project(d, c.key)
  {
  }

  // ----- serial runs, key by key -----

  /** The part of a serial run that touches one key, with the machine's answers. */
  function HistoryOf(log: seq<Command>, k: Key): seq<(Command, Result)> {
    if log == [] then []
    else
      var init, c := log[..|log| - 1], log[|log| - 1];
      HistoryOf(init, k) + if c.key == k then [(c, Answer(Executed(map[], init), c))] else []
  }

  /** Where the model stands after a history; none if it rejects it. */
  function Accepted(h: seq<(Command, Result)>): Option<KeyState>
    decreases |h|
  {
    if h == [] then Some(ABSENT)
    else
      match Accepted(h[..|h| - 1])
      case None => None
      case Some(st) =>
        var next := StepKv(st, h[|h| - 1].0, Known(h[|h| - 1].1));
        if next == [] then None else Some(next[0])
  }

  /** Every serial run of the machine is accepted, key by key, and leaves the
      model in the machine's own state of that key. */
  lemma {:induction false} SerialRunAccepted(log: seq<Command>, k: Key)
    ensures Accepted(HistoryOf(log, k)) == Some(Project(Executed(map[], log), k))
    decreases |log|
  {
    hide StepKv, Stored, Answer, LooksLike;
    if log != [] {
      var init, c := log[..|log| - 1], log[|log| - 1];
      var d := Executed(map[], init);
      SerialRunAccepted(init, k);
      ModelAgrees(d, c, Answer(d, c), k);
      var h := HistoryOf(init, k);
      if c.key == k {
        assert (h + [(c, Answer(d, c))])[..|h|] == h;
      } else {
        assert h + [] == h;
      }
    }
  }
}
