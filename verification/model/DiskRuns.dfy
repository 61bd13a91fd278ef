/** The write-ahead log over a whole life of appends, syncs, snapshots, crashes
    at any byte and reopenings. */
module DiskRuns {
  import opened RaftTypes
  import opened PlainLog
  import opened WalFraming
  import opened WalReplay

  /** The newest snapshot file, the mirror in memory, every record framed so far
      and how many of them are known to be durable. `base` is what the mirror held
      above the snapshot when that snapshot became current, after `from` records;
      `early` is what it would have held above it after fewer, still unsynced ones. */
  datatype Disk =
    Disk(st: StoredSnap, mirror: Mirror, recs: seq<Record>, synced: nat, base: Log, from: nat, early: map<nat, Log>)

  datatype Op =
    | Append(ents: Log)
    | SetHard(hard: HardState)
    | Sync
    | Install(snap: Snapshot)
    // The process dies with `keep` records durable, and is restarted.
    | Reopen(keep: nat)
    // It dies inside Install, once the snapshot file is durable.
    | TornInstall(snap: Snapshot, keep: nat)

  const NO_SNAPSHOT := Snapshot(0, 0, [])

  const EMPTY := Disk(StoredSnap(NO_SNAPSHOT, false), Mirror(HardState(0, NONE, 0), NO_SNAPSHOT, []), [], 0, [], 0, map[])

  function Visible(d: Disk): Plain { Plain(d.mirror.snap.index, d.mirror.snap.term, d.mirror.entries) }

  function EntryRecs(ents: Log): seq<Record> { seq(|ents|, i requires 0 <= i < |ents| => EntryRec(ents[i])) }

  predicate Accepts(p: Plain, ents: Log) {
    ents != [] && ents[0].index + |ents| > p.dummy + 1 && ents[0].index <= Last(p) + 1
  }

  /** Entries are spliced into the mirror and one record is framed for each. */
  function Appended(d: Disk, ents: Log): Disk {
    var p := Visible(d);
    if !Accepts(p, ents) then d
    else
      var rest := Uncovered(ents, p.dummy);
      if rest == [] || !(p.dummy < rest[0].index <= Last(p) + 1) then d
      else d.(mirror := d.mirror.(entries := Spliced(p, rest).entries), recs := d.recs + EntryRecs(rest))
  }

  /** A snapshot that contradicts what is above it cuts the log for good. */
  predicate Cuts(p: Plain, s: Snapshot) { p.dummy < s.index < Last(p) && !KeepsSuffix(p, s) }

  /** What the mirror held above its snapshot when that snapshot became current,
      or would have held with only `k` records framed. */
  function Before(d: Disk, k: nat): Log { if k in d.early then d.early[k] else d.base }

  /** The mirror as it was when exactly `k` records had been framed. */
  function LiveAt(d: Disk, k: nat): Mirror
    requires k <= |d.recs|
  {
    var es := if k < d.from then Some(Before(d, k)) else Fold(d.st.snap.index, d.base, d.recs[d.from..k]);
    Mirror(LastHard(d.recs[..k]), d.st.snap, if es.Some? then es.value else [])
  }

  /** What a snapshot would have left of the mirror of an earlier moment. */
  function LeftAt(d: Disk, s: Snapshot, k: nat): Log
    requires k <= |d.recs|
  {
    Snapshotted(Visible(d).(entries := LiveAt(d, k).entries), s).entries
  }

  function Installed(d: Disk, s: Snapshot): Disk {
    var p := Visible(d);
    if s.index <= p.dummy then d
    else
      var es := Snapshotted(p, s).entries;
      if Cuts(p, s) then
        var recs := d.recs + [Marker(s)];
        Disk(StoredSnap(s, true), d.mirror.(snap := s, entries := es), recs, |recs|, es, |recs|, map[])
      else
        Disk(StoredSnap(s, false), d.mirror.(snap := s, entries := es), d.recs, d.synced, es, |d.recs|,
             map k: nat | d.synced <= k < |d.recs| :: LeftAt(d, s, k))
  }

  /** Restarting over a snapshot file and `rs` durable records. */
  function Restarted(st: StoredSnap, rs: seq<Record>): Disk
    requires Replay(st.snap.index, rs).Some?
  {
    var m := Recovered(st, rs);
    var recs := if CutMissing(st, rs) then rs + [Marker(st.snap)] else rs;
    Disk(st, m, recs, |recs|, m.entries, |recs|, map[])
  }

  predicate Durable(d: Disk, keep: nat) { d.synced <= keep <= |d.recs| && Replay(d.st.snap.index, d.recs[..keep]).Some? }

  predicate Allowed(d: Disk, op: Op) {
    match op
    case Append(ents) => ents != [] ==> Contiguous(ents, ents[0].index)
    case SetHard(_) => true
    case Sync => true
    case Install(_) => true
    case Reopen(keep) => d.synced <= keep <= |d.recs|
    case TornInstall(s, keep) => Cuts(Visible(d), s) && d.synced <= keep <= |d.recs|
  }

  function After(d: Disk, op: Op): Disk {
    match op
    case Append(ents) => Appended(d, ents)
    case SetHard(h) => d.(mirror := d.mirror.(hard := h), recs := d.recs + [HardRec(h)])
    case Sync => d.(synced := |d.recs|)
    case Install(s) => Installed(d, s)
    case Reopen(keep) => if Durable(d, keep) then Restarted(d.st, d.recs[..keep]) else d
    case TornInstall(s, keep) =>
      if keep <= |d.recs| && Replay(s.index, d.recs[..keep]).Some? then Restarted(StoredSnap(s, true), d.recs[..keep]) else d
  }

  // ----- the invariant -----

  predicate TailOK(s: nat, rs: seq<Record>) {
    forall i | 0 <= i < |rs| :: !rs[i].TruncRec? && (rs[i].EntryRec? ==> rs[i].e.index > s)
  }

  predicate Inv(d: Disk) {
    var s := d.st.snap.index;
    && d.synced <= |d.recs| && d.from <= |d.recs| && d.mirror.snap == d.st.snap
    && d.mirror.hard == LastHard(d.recs) && Contiguous(d.mirror.entries, s + 1)
    && MarkersBelow(s, d.recs) && TailOK(s, d.recs[d.from..])
    && Replay(s, d.recs[..d.from]).Some?
    && (d.base == Replay(s, d.recs[..d.from]).value || (d.base == [] && !d.st.trunc))
    && Fold(s, d.base, d.recs[d.from..]) == Some(d.mirror.entries)
    && (d.st.trunc ==> Marker(d.st.snap) in d.recs[..d.synced])
    && (forall k | d.synced <= k < d.from :: EarlyOK(d, k))
  }

  predicate HardsFrom(rs: seq<Record>, k: nat) { forall i | k <= i < |rs| :: rs[i].HardRec? }

  /** A crash that keeps fewer records than the snapshot was installed over. */
  predicate EarlyOK(d: Disk, k: nat)
    requires k < d.from <= |d.recs|
  {
    var r := Replay(d.st.snap.index, d.recs[..k]);
    && r.Some? && (Before(d, k) == r.value || (Before(d, k) == [] && !d.st.trunc))
    && (HardsFrom(d.recs[..d.from], k) ==> Before(d, k) == d.base)
  }

  /** Two starts meet as soon as one entry is appended from an empty one. */
  lemma {:induction false} FoldFresh(s: nat, start: Log, rs: seq<Record>)
    requires TailOK(s, rs) && Fold(s, [], rs).Some?
    ensures Fold(s, start, rs).Some?
    ensures Fold(s, start, rs).value == if Fold(s, [], rs).value != [] then Fold(s, [], rs).value else start
    decreases |rs|
  {
    if rs != [] {
      var init, r := rs[..|rs| - 1], rs[|rs| - 1];
      assert TailOK(s, init);
      FoldFresh(s, start, init);
    }
  }

  lemma {:induction false} FoldHards(s: nat, start: Log, rs: seq<Record>)
    requires forall i | 0 <= i < |rs| :: rs[i].HardRec?
    ensures Fold(s, start, rs) == Some(start)
    decreases |rs|
  {
    if rs != [] { FoldHards(s, start, rs[..|rs| - 1]); }
  }

  lemma {:induction false} FoldContiguous(s: nat, start: Log, rs: seq<Record>)
    requires Contiguous(start, s + 1) && Fold(s, start, rs).Some?
    ensures Contiguous(Fold(s, start, rs).value, s + 1)
    decreases |rs|
  {
    if rs != [] { FoldContiguous(s, start, rs[..|rs| - 1]); }
  }

  lemma TailPrefix(s: nat, rs: seq<Record>, k: nat)
    requires TailOK(s, rs) && k <= |rs|
    ensures TailOK(s, rs[..k])
  {
  }

  /** Replaying what a crash leaves, against the mirror of that moment. */
  lemma ReplayAt(d: Disk, k: nat)
    requires Inv(d) && d.synced <= k <= |d.recs|
    ensures var s := d.st.snap.index; var live := LiveAt(d, k).entries;
      && Replay(s, d.recs[..k]).Some?
      && (live != [] || d.st.trunc ==> Replay(s, d.recs[..k]).value == live)
  {
    var s, f := d.st.snap.index, d.from;
    var r0 := Replay(s, d.recs[..f]).value;
    if k < f {
      assert EarlyOK(d, k);
    } else {
      var tail := d.recs[f..k];
      assert d.recs[f..][..k - f] == tail;
      FoldPrefix(s, d.base, d.recs[f..], k - f);
      TailPrefix(s, d.recs[f..], k - f);
      assert d.recs[..k] == d.recs[..f] + tail;
      FoldSplit(s, [], d.recs[..f], tail);
      if d.base != r0 { FoldFresh(s, r0, tail); }
    }
  }

  lemma MarkerKept(d: Disk, k: nat)
    requires Inv(d) && d.synced <= k <= |d.recs|
    ensures !CutMissing(d.st, d.recs[..k])
  {
    if d.st.trunc {
      var i :| 0 <= i < d.synced && d.recs[..d.synced][i] == Marker(d.st.snap);
      assert d.recs[..k][i] == Marker(d.st.snap);
    }
  }

  /** Recovery refines the mirror: after a crash that keeps any `k` records at
      or past the last sync, reopening rebuilds exactly the mirror of the moment
      those records had been framed, if and only if that mirror held an entry above
      the snapshot, or the snapshot cut the log, or no stale record is left. */
  lemma RecoveryExact(d: Disk, k: nat)
    requires Inv(d) && d.synced <= k <= |d.recs|
    ensures Replay(d.st.snap.index, d.recs[..k]).Some?
    ensures Recovered(d.st, d.recs[..k]) == LiveAt(d, k) <==>
      LiveAt(d, k).entries != [] || d.st.trunc || NoStale(d.st.snap.index, d.recs[..k])
  {
    var s := d.st.snap.index;
    ReplayAt(d, k);
    MarkerKept(d, k);
    assert MarkersBelow(s, d.recs[..k]);
    EmptyReplay(s, d.recs[..k]);
  }

  /** The mirror now is the mirror after all records framed so far. */
  lemma LiveNow(d: Disk)
    requires Inv(d)
    ensures LiveAt(d, |d.recs|) == d.mirror
  {
    assert d.recs[..|d.recs|] == d.recs;
    assert d.recs[d.from..|d.recs|] == d.recs[d.from..];
  }

  // ----- every operation keeps the invariant -----

  lemma {:induction false} FoldAppend(s: nat, es: Log, rest: Log, pos: nat)
    requires pos <= |es| && rest != [] && Contiguous(rest, s + 1 + pos)
    ensures Fold(s, es, EntryRecs(rest)) == Some(es[..pos] + rest)
    decreases |rest|
  {
    var n := |rest| - 1;
    var init := rest[..n];
    assert EntryRecs(rest)[..n] == EntryRecs(init);
    if init == [] {
      assert rest == [rest[0]] && EntryRecs(init) == [];
    } else {
      FoldAppend(s, es, init, pos);
      assert (es[..pos] + init)[..pos + n] == es[..pos] + init;
      assert es[..pos] + init + [rest[n]] == es[..pos] + rest;
    }
  }

  lemma {:induction false} LastHardTail(rs: seq<Record>, more: seq<Record>)
    requires forall i | 0 <= i < |more| :: !more[i].HardRec?
    ensures LastHard(rs + more) == LastHard(rs)
    decreases |more|
  {
    if more == [] {
      assert rs + more == rs;
    } else {
      assert (rs + more)[..|rs + more| - 1] == rs + more[..|more| - 1];
      LastHardTail(rs, more[..|more| - 1]);
    }
  }

  lemma EarlyGrows(d: Disk, m: Mirror, more: seq<Record>, k: nat)
    requires k < d.from <= |d.recs| && EarlyOK(d, k)
    ensures EarlyOK(d.(mirror := m, recs := d.recs + more), k)
  {
    hide Replay;
    var recs := d.recs + more;
    assert recs[..d.from] == d.recs[..d.from] && recs[..k] == d.recs[..k];
  }

  lemma Grows(d: Disk, m: Mirror, more: seq<Record>)
    requires Inv(d) && m.snap == d.mirror.snap && m.hard == LastHard(d.recs + more)
    requires TailOK(d.st.snap.index, more) && Fold(d.st.snap.index, d.mirror.entries, more) == Some(m.entries)
    ensures Inv(d.(mirror := m, recs := d.recs + more))
  {
    hide LastHard, Fold, Contiguous, EarlyOK;
    var s, recs := d.st.snap.index, d.recs + more;
    assert recs[..d.from] == d.recs[..d.from] && recs[..d.synced] == d.recs[..d.synced];
    forall k | d.synced <= k < d.from ensures EarlyOK(d.(mirror := m, recs := recs), k) { EarlyGrows(d, m, more, k); }
    assert recs[d.from..] == d.recs[d.from..] + more;
    FoldSplit(s, d.base, d.recs[d.from..], more);
    FoldContiguous(s, d.mirror.entries, more);
  }

  lemma AppendKeeps(d: Disk, ents: Log)
    requires Inv(d) && (ents != [] ==> Contiguous(ents, ents[0].index))
    ensures Inv(Appended(d, ents))
  {
    hide Inv;
    var p := Visible(d);
    if Accepts(p, ents) {
      InvSnap(d);
      var rest := Uncovered(ents, p.dummy);
      assert Contiguous(rest, rest[0].index) && p.dummy < rest[0].index <= Last(p) + 1;
      FoldAppend(p.dummy, d.mirror.entries, rest, rest[0].index - p.dummy - 1);
      LastHardTail(d.recs, EntryRecs(rest));
      Grows(d, d.mirror.(entries := Spliced(p, rest).entries), EntryRecs(rest));
    }
  }

  lemma InvSnap(d: Disk)
    requires Inv(d)
    ensures d.mirror.snap == d.st.snap && d.mirror.hard == LastHard(d.recs)
  {
  }

  lemma SetHardKeeps(d: Disk, h: HardState)
    requires Inv(d)
    ensures Inv(After(d, SetHard(h)))
  {
    hide Inv;
    InvSnap(d);
    FoldHards(d.st.snap.index, d.mirror.entries, [HardRec(h)]);
    Grows(d, d.mirror.(hard := h), [HardRec(h)]);
  }

  lemma NothingFolds(s: nat, es: Log)
    ensures Fold(s, es, []) == Some(es) && Contiguous([], s + 1)
  {
  }

  /** Restarting re-establishes the invariant from the files alone. */
  lemma RestartKeeps(st: StoredSnap, rs: seq<Record>)
    requires Replay(st.snap.index, rs).Some? && MarkersBelow(st.snap.index, rs)
    ensures Inv(Restarted(st, rs))
  {
    hide LastHard, Fold, Contiguous;
    var s, d := st.snap.index, Restarted(st, rs);
    assert d.recs[..|d.recs|] == d.recs && d.recs[|d.recs|..] == [];
    NothingFolds(s, d.base);
    FoldContiguous(s, [], rs);
    if CutMissing(st, rs) {
      CutReplay(s, rs, st.snap.term);
      LastHardTail(rs, [Marker(st.snap)]);
      assert d.recs[|rs|] == Marker(st.snap);
    }
  }

  lemma ReplayNow(d: Disk)
    requires Inv(d)
    ensures Replay(d.st.snap.index, d.recs).Some?
    ensures d.mirror.entries != [] ==> Replay(d.st.snap.index, d.recs).value == d.mirror.entries
  {
    hide Inv, LiveAt;
    InvBounds(d);
    LiveNow(d);
    assert d.recs[..|d.recs|] == d.recs;
    ReplayAt(d, |d.recs|);
  }

  lemma InvBounds(d: Disk)
    requires Inv(d)
    ensures d.synced <= |d.recs| && MarkersBelow(d.st.snap.index, d.recs)
    ensures Contiguous(d.mirror.entries, d.st.snap.index + 1)
  {
  }

  lemma CutReplay(s: nat, rs: seq<Record>, term: nat)
    requires Replay(s, rs).Some?
    ensures Replay(s, rs + [TruncRec(s, term)]) == Some([])
  {
    assert (rs + [TruncRec(s, term)])[..|rs|] == rs;
  }

  /** A new snapshot whose records and suffix are already known. */
  lemma InstalledInv(d: Disk, d': Disk)
    requires Inv(d) && d.st.snap.index < d'.st.snap.index && d'.from == |d'.recs| && d'.base == d'.mirror.entries
    requires d'.mirror.snap == d'.st.snap && d'.mirror.hard == LastHard(d'.recs)
    requires Contiguous(d'.base, d'.st.snap.index + 1) && MarkersBelow(d'.st.snap.index, d'.recs)
    requires Replay(d'.st.snap.index, d'.recs).Some?
    requires d'.base == Replay(d'.st.snap.index, d'.recs).value || (d'.base == [] && !d'.st.trunc)
    requires d'.synced <= |d'.recs| && (d'.st.trunc ==> Marker(d'.st.snap) in d'.recs[..d'.synced])
    requires forall k | d'.synced <= k < d'.from :: EarlyOK(d', k)
    ensures Inv(d')
  {
    assert d'.recs[..|d'.recs|] == d'.recs && d'.recs[|d'.recs|..] == [];
  }

  /** Pending hard states do not change what the mirror holds. */
  lemma PendingLive(d: Disk, k: nat)
    requires Inv(d) && d.synced <= k <= |d.recs| && HardsFrom(d.recs, k)
    ensures LiveAt(d, k).entries == d.mirror.entries && LiveAt(d, k).snap == d.mirror.snap
  {
    var s := d.st.snap.index;
    if k >= d.from {
      var a, b := d.recs[d.from..k], d.recs[k..];
      assert d.recs[d.from..] == a + b;
      FoldPrefix(s, d.base, d.recs[d.from..], k - d.from);
      assert d.recs[d.from..][..k - d.from] == a;
      FoldSplit(s, d.base, a, b);
      FoldHards(s, Fold(s, d.base, a).value, b);
    } else {
      assert EarlyOK(d, k);
      FoldHards(s, d.base, d.recs[d.from..]);
    }
  }

  /** A snapshot installed over unsynced records, seen from one of them. */
  lemma EarlyInstalled(d: Disk, s: Snapshot, k: nat)
    requires Inv(d) && d.synced <= k < |d.recs| && s.index > d.mirror.snap.index && !Cuts(Visible(d), s)
    ensures EarlyOK(Installed(d, s), k)
  {
    hide Inv, Replay, LiveAt, NoStale;
    InvSnap(d);
    var b, rs, live := d.st.snap.index, d.recs[..k], LiveAt(d, k).entries;
    ReplayAt(d, k);
    ReplaySuffix(b, s.index, rs);
    assert d.recs[..|d.recs|] == d.recs;
    if HardsFrom(d.recs, k) { PendingLive(d, k); }
  }

  lemma InstallKeeps(d: Disk, s: Snapshot)
    requires Inv(d)
    ensures Inv(Installed(d, s))
  {
    hide Inv, Replay, EarlyOK, LeftAt;
    InvSnap(d);
    InvBounds(d);
    var p, d' := Visible(d), Installed(d, s);
    if s.index > p.dummy {
      ReplayNow(d);
      ReplaySuffix(p.dummy, s.index, d.recs);
      if Cuts(p, s) {
        CutReplay(s.index, d.recs, s.term);
        LastHardTail(d.recs, [Marker(s)]);
        assert d'.recs[..|d'.recs|] == d'.recs && d'.recs[|d.recs|] == Marker(s);
      } else {
        forall k | d'.synced <= k < d'.from ensures EarlyOK(d', k) { EarlyInstalled(d, s, k); }
      }
      InstalledInv(d, d');
    }
  }

  lemma MarkersLater(s: nat, s': nat, rs: seq<Record>, k: nat)
    requires MarkersBelow(s, rs) && s <= s' && k <= |rs|
    ensures MarkersBelow(s', rs[..k])
  {
  }

  /** What a crash leaves can be replayed above any later snapshot. */
  lemma ReplayLater(d: Disk, s: nat, k: nat)
    requires Inv(d) && d.synced <= k <= |d.recs| && d.st.snap.index <= s
    ensures Replay(s, d.recs[..k]).Some? && MarkersBelow(s, d.recs[..k])
  {
    hide Inv, Replay, LiveAt, MarkersBelow;
    ReplayAt(d, k);
    InvBounds(d);
    ReplaySuffix(d.st.snap.index, s, d.recs[..k]);
    MarkersLater(d.st.snap.index, s, d.recs, k);
  }

  lemma SyncKeeps(d: Disk)
    requires Inv(d)
    ensures Inv(d.(synced := |d.recs|))
  {
    assert forall r | r in d.recs[..d.synced] :: r in d.recs[..|d.recs|];
  }

  lemma AfterKeeps(d: Disk, op: Op)
    requires Inv(d) && Allowed(d, op)
    ensures Inv(After(d, op))
  {
    hide Inv, Replay, Appended, Installed, Restarted;
    InvSnap(d);
    match op
    case Append(ents) => AppendKeeps(d, ents);
    case SetHard(h) => SetHardKeeps(d, h);
    case Sync => SyncKeeps(d);
    case Install(s) => InstallKeeps(d, s);
    case Reopen(k) =>
      ReplayLater(d, d.st.snap.index, k);
      RestartKeeps(d.st, d.recs[..k]);
    case TornInstall(s, k) =>
      ReplayLater(d, s.index, k);
      RestartKeeps(StoredSnap(s, true), d.recs[..k]);
  }

  // ----- whole lives -----

  predicate AllowedRun(d: Disk, ops: seq<Op>)
    decreases ops
  {
    ops == [] || (Allowed(d, ops[0]) && AllowedRun(After(d, ops[0]), ops[1..]))
  }

  function Final(d: Disk, ops: seq<Op>): Disk
    decreases ops
  {
    if ops == [] then d else Final(After(d, ops[0]), ops[1..])
  }

  lemma {:induction false} RunKeeps(d: Disk, ops: seq<Op>)
    requires Inv(d) && AllowedRun(d, ops)
    ensures Inv(Final(d, ops))
    decreases ops
  {
    hide Inv, Allowed, After;
    if ops != [] {
      AfterKeeps(d, ops[0]);
      RunKeeps(After(d, ops[0]), ops[1..]);
    }
  }

  lemma EmptyInv()
    ensures Inv(EMPTY)
  {
  }

  /** After any life of the storage, with any crashes in it, a crash now that
      keeps `k` records loses nothing synced and rebuilds the mirror of that moment
      exactly when that mirror had entries above its snapshot, or the snapshot cut
      the log, or no stale record is left. */
  lemma RunsRecover(ops: seq<Op>, k: nat)
    requires AllowedRun(EMPTY, ops) && Final(EMPTY, ops).synced <= k <= |Final(EMPTY, ops).recs|
    ensures var d := Final(EMPTY, ops);
      && Replay(d.st.snap.index, d.recs[..k]).Some?
      && After(d, Reopen(k)) == Restarted(d.st, d.recs[..k])
      && (Recovered(d.st, d.recs[..k]) == LiveAt(d, k) <==>
            LiveAt(d, k).entries != [] || d.st.trunc || NoStale(d.st.snap.index, d.recs[..k]))
      && LiveAt(d, |d.recs|) == d.mirror
  {
    hide Inv, LiveAt, Recovered, NoStale, Restarted;
    EmptyInv();
    RunKeeps(EMPTY, ops);
    RecoveryExact(Final(EMPTY, ops), k);
    LiveNow(Final(EMPTY, ops));
  }

  /** A snapshot that contradicts the log is installed atomically: a crash before
      its file is durable leaves the old log, a crash after it leaves exactly the
      snapshot, and once it is installed every crash leaves the snapshot with what
      was written after it. The contradicted suffix never comes back. */
  lemma CutIsAtomic(d: Disk, s: Snapshot, k: nat)
    requires Inv(d) && Cuts(Visible(d), s) && d.synced <= k <= |d.recs|
    ensures Replay(d.st.snap.index, d.recs[..k]).Some?
    ensures LiveAt(d, k).entries != [] ==> Recovered(d.st, d.recs[..k]) == LiveAt(d, k)
    ensures HardsFrom(d.recs, k) ==> Recovered(d.st, d.recs[..k]).entries == d.mirror.entries
    ensures After(d, TornInstall(s, k)).mirror == Mirror(LastHard(d.recs[..k]), s, [])
    ensures var d' := Installed(d, s);
      && d'.mirror == d.mirror.(snap := s, entries := []) && d'.synced == |d'.recs|
      && Inv(d') && d'.st == StoredSnap(s, true)
  {
    hide Inv, Fold, LiveAt, NoStale, EarlyOK;
    InvSnap(d);
    InvBounds(d);
    RecoveryExact(d, k);
    if HardsFrom(d.recs, k) { PendingLive(d, k); }
    ReplayLater(d, s.index, k);
    InstallKeeps(d, s);
    assert MarkersBelow(d.st.snap.index, d.recs);
    assert Marker(s) !in d.recs[..k];
  }

  // ----- a batch cut short -----

  /** A crash in the middle of persisting a batch leaves the log spliced with the
      first entries of the batch. */
  lemma TornBatch(d: Disk, ents: Log, j: nat)
    requires Inv(d) && ents != [] && Contiguous(ents, ents[0].index) && j <= |ents|
    requires d.mirror.snap.index < ents[0].index <= Last(Visible(d)) + 1
    ensures var d' := Appended(d, ents); var k := |d.recs| + j;
      && k <= |d'.recs| && LiveAt(d', k).snap == d.mirror.snap && LiveAt(d', k).hard == d.mirror.hard
      && LiveAt(d', k).entries == if j == 0 then d.mirror.entries else Spliced(Visible(d), ents[..j]).entries
  {
    hide Fold, LastHard;
    var d', k, s := Appended(d, ents), |d.recs| + j, d.st.snap.index;
    var more := EntryRecs(ents)[..j];
    assert more == EntryRecs(ents[..j]);
    assert d'.recs == d.recs + EntryRecs(ents);
    assert d'.recs[..k] == d.recs + more;
    LastHardTail(d.recs, more);
    assert d'.recs[d.from..k] == d.recs[d.from..] + more;
    FoldSplit(s, d.base, d.recs[d.from..], more);
    if j == 0 {
      NothingFolds(s, d.mirror.entries);
    } else {
      FoldAppend(s, d.mirror.entries, ents[..j], ents[0].index - s - 1);
    }
  }

  // ----- the mirror and the in-memory storage -----

  /** The mirror takes entries exactly as the in-memory storage does. */
  lemma MirrorAppends(d: Disk, ents: Log)
    requires ents != [] ==> Contiguous(ents, ents[0].index)
    ensures var p := Visible(d);
      Visible(Appended(d, ents)) ==
        if ents == [] || ents[0].index + |ents| - 1 <= p.dummy || ents[0].index > Last(p) + 1 then p
        else Spliced(p, Uncovered(ents, p.dummy))
  {
  }

  lemma MirrorInstalls(d: Disk, s: Snapshot)
    ensures Visible(Installed(d, s)) == if s.index <= d.mirror.snap.index then Visible(d) else Snapshotted(Visible(d), s)
  {
  }

  // ----- the case where recovery is not exact -----

  function Plainly(term: nat, index: nat): Entry { Entry(term, index, Normal, []) }

  const FIRST := [Plainly(1, 1), Plainly(1, 2), Plainly(1, 3)]
  const REWRITE := [Plainly(2, 2)]
  const STALE_RUN := [Op.Append(FIRST), Op.Append(REWRITE), Sync, Install(Snapshot(2, 2, []))]

  lemma RunStep(d: Disk, op: Op, ops: seq<Op>)
    ensures Final(d, [op] + ops) == Final(After(d, op), ops)
    ensures AllowedRun(d, [op] + ops) <==> Allowed(d, op) && AllowedRun(After(d, op), ops)
  {
    assert ([op] + ops)[1..] == ops;
  }

  lemma FirstAppend()
    ensures Appended(EMPTY, FIRST) == EMPTY.(mirror := EMPTY.mirror.(entries := FIRST), recs := EntryRecs(FIRST))
  {
    assert EMPTY.recs + EntryRecs(FIRST) == EntryRecs(FIRST);
    assert EMPTY.mirror.entries[..0] + FIRST == FIRST;
  }

  lemma SecondAppend()
    ensures Appended(Appended(EMPTY, FIRST), REWRITE) ==
      EMPTY.(mirror := EMPTY.mirror.(entries := [Plainly(1, 1), Plainly(2, 2)]), recs := EntryRecs(FIRST) + EntryRecs(REWRITE))
  {
    FirstAppend();
    assert FIRST[..1] + REWRITE == [Plainly(1, 1), Plainly(2, 2)];
  }

  lemma StaleReplay()
    ensures Replay(2, EntryRecs(FIRST) + EntryRecs(REWRITE)) == Some([Plainly(1, 3)])
  {
    var a, b, c := EntryRec(Plainly(1, 1)), EntryRec(Plainly(1, 2)), EntryRec(Plainly(1, 3));
    FoldSnoc(2, [], [], a);
    FoldSnoc(2, [], [] + [a], b);
    FoldSnoc(2, [], [] + [a] + [b], c);
    assert [] + [a] + [b] + [c] == EntryRecs(FIRST);
    var none: Log := [];
    assert none[..0] + [Plainly(1, 3)] == [Plainly(1, 3)];
    FoldSnoc(2, [], EntryRecs(FIRST), EntryRec(Plainly(2, 2)));
    assert EntryRecs(REWRITE) == [EntryRec(Plainly(2, 2))];
  }

  /** Entries 1, 2, 3 are written, entry 2 is rewritten, all is synced, and the
      log is then compacted at its end: the mirror holds nothing above index 2, but
      reopening brings entry 3 back. */
  lemma StaleEntryReturns()
    ensures var d := Final(EMPTY, STALE_RUN);
      && AllowedRun(EMPTY, STALE_RUN) && d.mirror.entries == [] && d.synced == |d.recs|
      && After(d, Reopen(|d.recs|)).mirror.entries == [Plainly(1, 3)]
  {
    hide Appended;
    var op1, op2, op4 := Op.Append(FIRST), Op.Append(REWRITE), Install(Snapshot(2, 2, []));
    assert STALE_RUN == [op1] + ([op2] + ([Sync] + ([op4] + [])));
    SecondAppend();
    var d1 := After(EMPTY, op1);
    var d2 := After(d1, op2);
    var d3 := After(d2, Sync);
    RunStep(EMPTY, op1, [op2] + ([Sync] + ([op4] + [])));
    RunStep(d1, op2, [Sync] + ([op4] + []));
    RunStep(d2, Sync, [op4] + []);
    RunStep(d3, op4, []);
    StaleReplay();
    var d := After(d3, op4);
    assert d.recs[..|d.recs|] == d.recs;
  }

  const LONG := [Plainly(1, 1), Plainly(1, 2), Plainly(1, 3), Plainly(1, 4), Plainly(1, 5)]
  const PAST_RUN := [Op.Append(LONG), Op.Append(REWRITE), Sync, Install(Snapshot(4, 3, []))]

  lemma LongAppends()
    ensures Appended(Appended(EMPTY, LONG), REWRITE) ==
      EMPTY.(mirror := EMPTY.mirror.(entries := [Plainly(1, 1), Plainly(2, 2)]), recs := EntryRecs(LONG) + EntryRecs(REWRITE))
  {
    assert EMPTY.recs + EntryRecs(LONG) == EntryRecs(LONG);
    assert EMPTY.mirror.entries[..0] + LONG == LONG;
    assert LONG[..1] + REWRITE == [Plainly(1, 1), Plainly(2, 2)];
  }

  lemma {:induction false} Covered(s: nat, rs: seq<Record>)
    requires forall i | 0 <= i < |rs| :: rs[i].EntryRec? && rs[i].e.index <= s
    ensures Replay(s, rs) == Some([])
    decreases |rs|
  {
    if rs != [] { Covered(s, rs[..|rs| - 1]); }
  }

  lemma PastReplay()
    ensures Replay(4, EntryRecs(LONG) + EntryRecs(REWRITE)) == Some([Plainly(1, 5)])
  {
    var init := EntryRecs(LONG[..4]);
    Covered(4, init);
    FoldSnoc(4, [], init, EntryRec(Plainly(1, 5)));
    assert init + [EntryRec(Plainly(1, 5))] == EntryRecs(LONG);
    var none: Log := [];
    assert none[..0] + [Plainly(1, 5)] == [Plainly(1, 5)];
    FoldSnoc(4, [], EntryRecs(LONG), EntryRec(Plainly(2, 2)));
    assert EntryRecs(REWRITE) == [EntryRec(Plainly(2, 2))];
  }

  /** Entries 1 to 5 are written, entry 2 is rewritten, all is synced, and a
      snapshot past the end of what is left is installed: the mirror is empty above
      it, but reopening brings entry 5 back. */
  lemma PastEntryReturns()
    ensures var d := Final(EMPTY, PAST_RUN);
      && AllowedRun(EMPTY, PAST_RUN) && d.mirror.entries == [] && d.synced == |d.recs|
      && After(d, Reopen(|d.recs|)).mirror == Mirror(HardState(0, NONE, 0), Snapshot(4, 3, []), [Plainly(1, 5)])
  {
    hide Appended, LastHard;
    var op1, op2, op4 := Op.Append(LONG), Op.Append(REWRITE), Install(Snapshot(4, 3, []));
    assert PAST_RUN == [op1] + ([op2] + ([Sync] + ([op4] + [])));
    LongAppends();
    var d1 := After(EMPTY, op1);
    var d2 := After(d1, op2);
    var d3 := After(d2, Sync);
    RunStep(EMPTY, op1, [op2] + ([Sync] + ([op4] + [])));
    RunStep(d1, op2, [Sync] + ([op4] + []));
    RunStep(d2, Sync, [op4] + []);
    RunStep(d3, op4, []);
    PastReplay();
    var d := After(d3, op4);
    assert d.recs[..|d.recs|] == d.recs;
    NoHard(d.recs);
  }

  lemma {:induction false} NoHard(rs: seq<Record>)
    requires forall i | 0 <= i < |rs| :: !rs[i].HardRec?
    ensures LastHard(rs) == HardState(0, NONE, 0)
    decreases |rs|
  {
    if rs != [] { NoHard(rs[..|rs| - 1]); }
  }
}
