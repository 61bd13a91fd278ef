/** What each command does to the store and what its client is told; and what a
    key holds after any sequence of commands. */
module KvLaws {
  import opened RaftTypes
  import opened KvMachine

  /** Every key but one is as it was. */
  ghost predicate OnlyKey(d: Data, d': Data, k: Key) {
    forall o: Key | o != k :: (o in d' <==> o in d) && (o in d ==> d'[o] == d[o])
  }

  /** A key is given a value and one version more, counting from 1, and the client
      is told the version. */
  ghost predicate Wrote(d: Data, c: Command) {
    var d', a := Stored(d, c), Answer(d, c);
    && c.key in d' && d'[c.key].value == c.value && d'[c.key].version == (if c.key in d then d[c.key].version + 1 else 1)
    && OnlyKey(d, d', c.key) && a.status == Ok && a.value == None && a.version == d'[c.key].version
  }

  /** The client is shown what the key holds, or that it holds nothing. */
  predicate Shown(d: Data, c: Command, a: Result, found: Status, missing: Status) {
    if c.key in d then a.status == found && a.value == d[c.key].value && a.version == d[c.key].version
    else a.status == missing && a.value == None && a.version == 0
  }

  lemma PutLaw(d: Data, c: Command)
    requires c.op == OpPut
    ensures Wrote(d, c)
  {
  }

  lemma GetLaw(d: Data, c: Command)
    requires c.op == OpGet
    ensures Stored(d, c) == d && Shown(d, c, Answer(d, c), Ok, NotFound)
  {
  }

  lemma DeleteLaw(d: Data, c: Command)
    requires c.op == OpDelete
    ensures c.key !in Stored(d, c) && OnlyKey(d, Stored(d, c), c.key)
    ensures var a := Answer(d, c); a.status == (if c.key in d then Ok else NotFound) && a.value == None && a.version == 0
  {
  }

  /** Compare-and-set writes if the key is absent and absence was asked for, or if
      it is present with the bytes asked for, nil and empty being the same bytes;
      otherwise nothing changes and the client is shown what is there. */
  lemma CasLaw(d: Data, c: Command)
    requires c.op == OpCas
    ensures var hit := if c.key in d then c.wanted.Some? && c.wanted.value == (if d[c.key].value.Some? then d[c.key].value.value else [])
                       else c.wanted.None?;
      if hit then Wrote(d, c) else Stored(d, c) == d && Shown(d, c, Answer(d, c), CasMismatch, CasMismatch)
  {
  }

  /** The version a client is told is the key's version afterwards, 0 if it is
      then absent; a value is told only by a read, or by a comparison that failed. */
  lemma ToldAfterwards(d: Data, c: Command)
    ensures var d', a := Stored(d, c), Answer(d, c);
      && a.version == (if c.key in d' then d'[c.key].version else 0)
      && a.value == (if (c.op == OpGet || a.status == CasMismatch) && c.key in d then d[c.key].value else None)
  {
  }

  // ----- keys over whole sequences of commands -----

  /** The commands that gave a key its values since it last came into being: those
      that wrote it after it was last deleted. */
  function Since(cmds: seq<Command>, k: Key): seq<Command> {
    if cmds == [] then []
    else
      var init, c := cmds[..|cmds| - 1], cmds[|cmds| - 1];
      if c.key != k || c.op == OpGet then Since(init, k)
      else if c.op == OpDelete then []
      else if c.op == OpPut || CasWrites(Since(init, k), c) then Since(init, k) + [c]
      else Since(init, k)
  }

  /** Compare-and-set against the last of these commands. */
  predicate CasWrites(writes: seq<Command>, c: Command) {
    if writes == [] then c.wanted.None?
    else c.wanted.Some? && Content(writes[|writes| - 1].value) == Content(c.wanted)
  }

  /** A key is present exactly if it was written since it was last deleted, holds
      what the last such command gave it, and its version is their number. */
  lemma {:induction false} LastWriteHolds(cmds: seq<Command>, k: Key)
    ensures var d, w := Executed(map[], cmds), Since(cmds, k);
      if w == [] then k !in d else k in d && d[k] == ValueRecord(w[|w| - 1].value, |w|)
    decreases |cmds|
  {
    hide Stored, Answer;
    if cmds != [] {
      var init, c := cmds[..|cmds| - 1], cmds[|cmds| - 1];
      var d := Executed(map[], init);
      LastWriteHolds(init, k);
      match c.op
      case OpPut => PutLaw(d, c);
      case OpGet => GetLaw(d, c);
      case OpDelete => DeleteLaw(d, c);
      case OpCas => CasLaw(d, c);
    }
  }
}
