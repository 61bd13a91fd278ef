/** The hand-off between the core and its driver: an input is stepped in, then
    a batch is taken, persisted, synced if it asks for it, sent, applied and
    acknowledged. */
module ReadyLoop {
  import opened RaftTypes
  import opened PlainLog
  import opened MemStorage
  import opened SplitLog
  import opened ReadyInputs
  import T = RaftTypes
  import C = RaftCore
  import S = RaftSystem
  import St = RaftSteady
  import W = WalReplay
  import D = DiskRuns
  import K = DiskBatches

  datatype Ready = Ready(
    hard: Option<HardState>, entries: Log, snapshot: Option<Snapshot>, committed: Log,
    messages: seq<Message>, readStates: seq<ReadState>, mustSync: bool)

  /** The part of a batch that is persisted. */
  function Durables(rd: Ready): K.Batch { K.Batch(rd.snapshot, rd.entries, rd.hard) }

  class Node {
    const id: NodeId
    const log: RaftLog
    var term: nat
    var vote: NodeId
    var role: Role
    // The hard state as of the last acknowledged batch.
    var prevHard: HardState
    var msgs: seq<Message>
    var readStates: seq<ReadState>
    var pending: Option<Ready>

    constructor (id: NodeId, storage: Storage)
      requires storage.Valid()
      ensures this.id == id && role == Follower
      ensures fresh(log) && log.storage == storage && log.Valid() && log.snapshot == None && log.entries == []
      ensures var i := storage.snapshot.index;
        log.State() == Committed(LogState(storage.Stored(), i, i, false), storage.hard.commit)
      ensures term == storage.hard.term && vote == storage.hard.vote && prevHard == Hard() && pending == None
      ensures msgs == [] && readStates == []
    {
      hide Contiguous, Sits, Shown, Ordered;
      this.id, role := id, Follower;
      log := new RaftLog(storage);
      term, vote := storage.hard.term, storage.hard.vote;
      msgs, readStates, pending := [], [], None;
      new;
      if storage.hard.commit > log.committed {
        log.CommitTo(storage.hard.commit);
      }
      prevHard := Hard();
    }

    function Hard(): HardState
      reads this, log
    {
      HardState(term, vote, log.committed)
    }

    /** Where a rejected append could agree with the log. */
    method FindConflictByTerm(index: nat, bound: nat) returns (hint: nat, hintTerm: nat)
      requires log.Valid()
      ensures (hint, hintTerm) == BackTo(log.Visible(), index, bound)
    {
      hint := index;
      while hint > 0
        invariant BackTo(log.Visible(), hint, bound) == BackTo(log.Visible(), index, bound)
      {
        var t := log.Term(hint).value;
        if t <= bound {
          return hint, t;
        }
        hint := hint - 1;
      }
      return 0, 0;
    }

    predicate HasReady()
      requires log.Valid()
      reads this, log, log.storage
    {
      && pending == None
      && (|msgs| > 0 || |readStates| > 0 || |log.entries| > 0 || log.snapshot.Some?
          || log.committed + 1 > Max(log.applied + 1, log.FirstIndex()) || Hard() != prevHard)
    }

    /** The pending batch. It asks for a sync exactly when more than the commit
        index has to become durable. */
    method TakeReady() returns (rd: Ready)
      requires log.Valid()
      modifies this`pending
      ensures pending == Some(rd)
      ensures rd.entries == log.entries && rd.snapshot == log.snapshot && rd.committed == Pending(log.State())
      ensures rd.messages == msgs && rd.readStates == readStates
      ensures rd.hard == if Hard() != prevHard then Some(Hard()) else None
      ensures !rd.mustSync <==> rd.entries == [] && rd.snapshot == None && term == prevHard.term && vote == prevHard.vote
      ensures rd.mustSync == K.MustSync(prevHard, Durables(rd))
    {
      var hard := if Hard() != prevHard then Some(Hard()) else None;
      var mustSync := |log.entries| > 0 || log.snapshot.Some?
        || (hard.Some? && (hard.value.term != prevHard.term || hard.value.vote != prevHard.vote));
      rd := Ready(hard, log.entries, log.snapshot, log.NextCommitted(), msgs, readStates, mustSync);
      pending := Some(rd);
    }

    /** The pending batch is what the log still holds, and it is stored. */
    predicate Stored(rd: Ready)
      reads this, log, log.storage
    {
      && log.storage.Valid() && log.Fits() && log.storage.Stored() == log.Visible()
      && Ordered(log.State()) && !log.panicked
      && rd.entries == log.entries && rd.snapshot == log.snapshot && rd.committed == Pending(log.State())
    }

    /** Acknowledges the pending batch, once it is stored. */
    method Advance()
      requires pending.Some? ==> Stored(pending.value)
      modifies this, log
      ensures old(pending).None? ==> unchanged(this) && unchanged(log)
      ensures old(pending).Some? ==>
        && pending == None && msgs == [] && readStates == []
        && log.Valid() && log.entries == [] && log.snapshot == None && log.Visible() == old(log.Visible())
        && log.applied == log.committed == old(log.committed) && !log.panicked
        && prevHard == (if old(pending).value.hard.Some? then old(pending).value.hard.value else old(prevHard))
        && term == old(term) && vote == old(vote) && role == old(role)
    {
      hide Pending, Contiguous, KeepsSuffix, Sits, Shown;
      if pending.None? {
        return;
      }
      var rd := pending.value;
      if rd.hard.Some? {
        prevHard := rd.hard.value;
      }
      AcknowledgeLog(rd);
      msgs, readStates, pending := [], [], None;
    }

    method AcknowledgeLog(rd: Ready)
      requires Stored(rd)
      modifies log
      ensures log.Valid() && log.entries == [] && log.snapshot == None && log.Visible() == old(log.Visible())
      ensures log.applied == log.committed == old(log.committed) && !log.panicked
    {
      hide Pending, Contiguous, KeepsSuffix, Sits, Shown;
      PendingLast(log.State());
      log.Release(rd.entries, rd.snapshot);
      if |rd.committed| > 0 {
        var last := rd.committed[|rd.committed| - 1];
        log.AppliedTo(last.index);
      }
    }
  }

  /** The drive loop around one node. The storage the core reads is the mirror
      of the disk. */
  class Driver {
    const node: Node
    var disk: D.Disk
    // Everything handed to the network so far.
    var sent: seq<Message>
    // The state machine's position, and the entries it has been given.
    var applied: nat
    var appliedLog: Log

    /** Starts over a storage that has just been opened, as the core's node that is
        recovered above the log `below` its snapshot stands for. */
    constructor (id: NodeId, storage: Storage, disk: D.Disk, ghost cfg: Config, ghost below: Log)
      requires storage.Valid() && storage.hard.commit <= storage.LastIndex()
      requires disk.mirror == W.Mirror(storage.hard, storage.snapshot, storage.entries) && K.Calm(K.Restart(disk))
      ensures fresh(node) && fresh(node.log) && node.log.storage == storage && this.disk == disk && Quiet()
      ensures sent == [] && appliedLog == [] && applied == storage.snapshot.index
      ensures |below| == storage.snapshot.index && LastTerm(below) == storage.snapshot.term ==>
        Runs(C.Recover(cfg, id, storage.hard.term, storage.hard.vote, below + storage.entries, |below|, storage.hard.commit))
    {
      hide C.Recover, Shows;
      node := new Node(id, storage);
      this.disk := disk;
      sent, applied, appliedLog := [], storage.snapshot.index, [];
      new;
      if |below| == storage.snapshot.index && LastTerm(below) == storage.snapshot.term {
        RecoverShown(cfg, id, storage.hard, below, storage.Stored());
      }
    }

    static lemma RecoverShown(cfg: Config, id: NodeId, hard: HardState, below: Log, p: Plain)
      requires p.dummy == |below| && p.dummyTerm == LastTerm(below)
      ensures var n := C.Recover(cfg, id, hard.term, hard.vote, below + p.entries, |below|, hard.commit);
        && Shows(n, Committed(LogState(p, |below|, |below|, false), hard.commit))
        && n.id == id && n.term == hard.term && n.vote == hard.vote && n.role == Follower && n.msgs == [] && n.readStates == []
    {
      assert (below + p.entries)[|below|..] == p.entries;
    }

    ghost predicate Mirrors()
      reads this`disk, node, node.log, node.log.storage
    {
      disk.mirror == W.Mirror(node.log.storage.hard, node.log.storage.snapshot, node.log.storage.entries)
    }

    /** What holds before each drain: after one input, or none. */
    ghost predicate Idle()
      reads this, node, node.log, node.log.storage
    {
      && node.pending == None && node.log.Valid() && node.log.Persistable() && Ordered(node.log.State()) && !node.log.panicked
      && node.prevHard.commit <= node.log.committed
      && Mirrors() && K.Calm(K.Host(disk, node.prevHard))
      && match node.log.snapshot
         case None => applied == node.log.applied
         case Some(s) => applied <= s.index == node.log.applied
    }

    /** Drained: the storage holds the whole log, and the next input may come. */
    ghost predicate Quiet()
      reads this, node, node.log, node.log.storage
    {
      Idle() && node.log.entries == [] && node.log.snapshot == None
    }

    /** The objects are the core node `n`. */
    ghost predicate Runs(n: T.Node)
      reads this, node, node.log, node.log.storage
    {
      && node.id == n.id && node.term == n.term && node.vote == n.vote && node.role == n.role
      && node.msgs == n.msgs && node.readStates == n.readStates
      && node.log.Valid() && Shows(n, node.log.State())
    }

    // ----- inputs, each stepped in after a drain -----

    /** The sender leads the term of its message. */
    method Turn(m: Message, ghost cfg: Config, ghost n: T.Node)
      requires Quiet() && Runs(n) && m.term >= n.term
      modifies node`term, node`vote, node`role
      ensures Quiet() && Runs(Turned(cfg, n, m))
    {
      hide K.Calm, Contiguous, C.FreshProgress;
      if m.term > node.term {
        node.vote := NONE;
      }
      node.term, node.role := m.term, Follower;
    }

    /** A message by which a leader replicates, of whatever term and to a node of
        whatever role. `data` is the payload of a snapshot. */
    method Receive(m: Message, data: Bytes, ghost leased: bool, ghost cfg: Config, ghost n: T.Node)
      requires Quiet() && Runs(n) && ValidConfig(cfg) && S.Sound(cfg, n) && Replicates(m) && m.term >= 1
      requires m.Append? ==> Contiguous(m.entries, m.logIndex + 1)
      modifies node, node.log
      ensures Runs(C.Step(cfg, n, m, leased)) && (node.log.panicked || Idle())
    {
      hide K.Calm, Contiguous, C.Step, S.Sound, Shows, C.HandleAppend, C.HandleHeartbeat, C.HandleSnapshot, Turned;
      ReplicationSteps(cfg, n, m, leased);
      if m.term < node.term {
        ReplyStale(m, n);
      } else if node.role != Leader || m.term > node.term {
        Turn(m, cfg, n);
        if m.Append? {
          Follow(m, Turned(cfg, n, m));
        } else if m.Heartbeat? {
          Beat(m, Turned(cfg, n, m));
        } else {
          Install(m, data, Turned(cfg, n, m));
        }
      }
    }

    /** A stale leader is told the term. */
    method ReplyStale(m: Message, ghost n: T.Node)
      requires Quiet() && Runs(n) && Replicates(m)
      modifies node`msgs
      ensures Quiet() && Runs(C.ReplyStale(n, m))
    {
      hide K.Calm, Contiguous;
      var reply :=
        if m.Append? then AppendResp(node.id, m.from, node.term, 0, false, 0, 0)
        else if m.Heartbeat? then HeartbeatResp(node.id, m.from, node.term, [])
        else InstallSnapshotResp(node.id, m.from, node.term, 0);
      node.msgs := node.msgs + [reply];
    }

    /** A follower takes the entries, or says how far it has committed, or refuses
        them and says where the logs could agree. */
    method Follow(m: Message, ghost n: T.Node)
      requires Quiet() && Runs(n) && m.Append? && Contiguous(m.entries, m.logIndex + 1)
      modifies node, node.log
      ensures Runs(C.HandleAppend(n, m)) && (node.log.panicked || Idle())
    {
      hide K.Calm, Contiguous, MaybeAppended, Sits, Shown, C.MaybeAppend, C.FindConflictByTerm, BackTo, C.TermAt;
      var index := m.logIndex;
      ghost var s := node.log.State();
      if index < node.log.committed {
        SameShown(n, C.HandleAppend(n, m), s);
        node.msgs := node.msgs + [AppendResp(node.id, m.from, node.term, node.log.committed, false, 0, 0)];
        return;
      }
      MaybeAppendedKeeps(s, index, m.logTerm, m.commit, m.entries);
      MaybeAppendShown(n, s, index, m.logTerm, m.commit, m.entries);
      St.SpliceKeeps(n, index, m.commit, m.entries);
      var last, ok := node.log.MaybeAppend(index, m.logTerm, m.commit, m.entries);
      if ok {
        SameShown(C.MaybeAppend(n, index, m.commit, m.entries), C.HandleAppend(n, m), node.log.State());
        node.msgs := node.msgs + [AppendResp(node.id, m.from, node.term, last, false, 0, 0)];
        return;
      }
      Refused(s, index, m.logTerm, m.commit, m.entries);
      TermShown(n, s, index);
      BackShown(n, s, Min(index, Last(s.plain)), m.logTerm);
      SameShown(n, C.HandleAppend(n, m), s);
      var hint, hintTerm := node.FindConflictByTerm(Min(index, node.log.LastIndex()), m.logTerm);
      node.msgs := node.msgs + [AppendResp(node.id, m.from, node.term, index, true, hint, hintTerm)];
    }

    lemma Refused(s: LogState, index: nat, logTerm: nat, commit: nat, ents: Log)
      requires TermOf(s.plain, index) != logTerm
      ensures MaybeAppended(s, index, logTerm, commit, ents) == s
    {
    }

    /** A heartbeat: the commit index follows, as far as the log goes. */
    method Beat(m: Message, ghost n: T.Node)
      requires Quiet() && Runs(n) && m.Heartbeat?
      modifies node, node.log
      ensures Runs(C.HandleHeartbeat(n, m)) && Idle()
    {
      hide K.Calm, Contiguous, Sits, Shown;
      TermShown(n, node.log.State(), 0);
      CommitShown(n, node.log.State(), Min(m.commit, node.log.LastIndex()));
      node.log.CommitTo(Min(m.commit, node.log.LastIndex()));
      node.msgs := node.msgs + [HeartbeatResp(node.id, m.from, node.term, m.context)];
    }

    /** A snapshot from a leader is ignored, or moves the commit index, or replaces
        the log. The log was drained, so one that the log does not match is one that
        the storage does not match either: persisting it will leave exactly the log
        the core sees. */
    method Install(m: Message, data: Bytes, ghost n: T.Node)
      requires Quiet() && Runs(n) && m.InstallSnapshot?
      modifies node, node.log
      ensures Runs(C.HandleSnapshot(n, m)) && (node.log.panicked || Idle())
    {
      hide K.Calm, Contiguous, Sits, Shown, MaybeRestored, Shows;
      var s := Snapshot(|m.prefix|, LastTerm(m.prefix), data);
      SnapshotShown(n, m, node.log.State(), data);
      RestoreLog(s);
      node.msgs := node.msgs + [InstallSnapshotResp(node.id, m.from, node.term, node.log.committed)];
    }

    method RestoreLog(s: Snapshot)
      requires Quiet()
      modifies node.log
      ensures node.log.Valid() && (node.log.panicked || Idle()) && node.log.State() == MaybeRestored(old(node.log.State()), s)
    {
      hide K.Calm, Contiguous;
      if s.index <= node.log.committed {
        return;
      }
      if node.log.MatchTerm(s.index, s.term) {
        node.log.CommitTo(s.index);
        return;
      }
      var st := node.log.storage;
      assert st.entries[..|st.entries|] == st.entries;
      DrainedNeverMatches(st.Stored(), s);
      node.log.Restore(s);
    }

    lemma SnapshotShown(n: T.Node, m: Message, s: LogState, data: Bytes)
      requires Shows(n, s) && m.InstallSnapshot?
      ensures var r, t := C.HandleSnapshot(n, m), MaybeRestored(s, Snapshot(|m.prefix|, LastTerm(m.prefix), data));
        && Shows(r, t) && r == n.(log := r.log, snapIndex := r.snapIndex, committed := r.committed, panicked := r.panicked,
                                  msgs := n.msgs + [InstallSnapshotResp(n.id, m.from, n.term, t.committed)])
    {
      var index, r := |m.prefix|, C.HandleSnapshot(n, m);
      MarksShown(n, s);
      TermShown(n, s, index);
      hide Shows, C.TermAt, TermOf;
      if index <= n.committed {
        SameShown(n, r, s);
      } else if C.MatchTerm(n, index, LastTerm(m.prefix)) {
        CommitShown(n, s, index);
        SameShown(C.CommitTo(n, index), r, Committed(s, index));
        MarksShown(r, Committed(s, index));
      } else {
        RestoreShown(n, s, m.prefix, data);
        SameShown(n.(log := m.prefix, snapIndex := index, committed := index), r, Restored(s, Snapshot(index, LastTerm(m.prefix), data)));
      }
    }

    /** What the core decides on any other input, `r`: entries join the log at its
        end, and the commit index moves. */
    method Decide(r: T.Node, ghost n: T.Node)
      requires Quiet() && Runs(n) && Grows(n, r) && !r.panicked
      modifies node, node.log
      ensures Runs(r) && Idle()
    {
      hide K.Calm, Contiguous, Sits, Shown, C.TermAt, Joined, Committed;
      TermShown(n, node.log.State(), 0);
      GrowthShown(n, r, node.log.State());
      node.term, node.vote, node.role, node.msgs, node.readStates := r.term, r.vote, r.role, r.msgs, r.readStates;
      Extend(r.log[node.log.LastIndex()..], r.committed);
    }

    method Extend(ents: Log, commit: nat)
      requires Quiet() && Contiguous(ents, Last(node.log.Visible()) + 1) && commit <= Last(node.log.Visible()) + |ents|
      modifies node.log
      ensures Idle() && node.log.State() == Committed(Joined(old(node.log.State()), ents), commit)
    {
      hide K.Calm, Sits, Shown;
      JoinedOrdered(node.log.State(), ents);
      var last := node.log.Append(ents);
      node.log.CommitTo(commit);
    }

    // ----- draining -----

    /** Everything the core has decided is stored. */
    ghost predicate Durable()
      reads this, node, node.log, node.log.storage
    {
      && node.log.storage.Valid() && node.log.Fits() && Mirrors()
      && node.log.storage.Stored() == node.log.Visible() && K.Saves(node.log.storage.hard, node.Hard())
    }

    /** Messages leave only when no crash can take back what they may promise: the
        term, the vote, and every entry of the log. */
    method Send(msgs: seq<Message>)
      requires node.log.Fits() && K.Safe(disk, node.Hard(), node.log.Visible())
      modifies this`sent
      ensures sent == old(sent) + msgs
    {
      sent := sent + msgs;
    }

    /** Snapshot first, then entries, then the hard state, then a sync if the batch
        asks for one. */
    method Persist(rd: Ready)
      requires node.log.Valid() && node.log.Persistable() && Mirrors() && K.Calm(K.Host(disk, node.prevHard))
      requires node.prevHard.commit <= node.log.committed
      requires rd.entries == node.log.entries && rd.snapshot == node.log.snapshot
      requires rd.hard == if node.Hard() != node.prevHard then Some(node.Hard()) else None
      requires rd.mustSync == K.MustSync(node.prevHard, Durables(rd))
      modifies node.log.storage, this`disk
      ensures Durable() && node.log.Visible() == old(node.log.Visible())
      ensures K.Calm(K.Host(disk, node.Hard())) && K.Safe(disk, node.Hard(), node.log.Visible())
    {
      hide Contiguous, KeepsSuffix, Shown, K.Calm, K.Safe, K.Steps, D.Final, K.Logged, K.MustSync, K.Saves;
      ghost var host, b := K.Host(disk, node.prevHard), Durables(rd);
      Handed(host, b, node.log.offset);
      HardSaved(host);
      PersistLog(rd);
      if rd.hard.Some? {
        node.log.storage.SetHardState(rd.hard.value);
        disk := D.After(disk, D.SetHard(rd.hard.value));
      }
      if rd.mustSync {
        disk := D.After(disk, D.Sync);
      }
      K.BatchRuns(host, b);
      K.SentIsSafe(host, b);
      assert K.Host(disk, node.Hard()) == K.Persisted(host, b);
      assert D.Visible(disk) == node.log.storage.Stored();
      SavedItself(node.Hard());
    }

    lemma HardSaved(host: K.Host)
      requires K.Calm(host)
      ensures K.Saves(host.d.mirror.hard, host.prev)
    {
    }

    lemma SavedItself(h: HardState)
      ensures K.Saves(h, h)
    {
    }

    lemma Handed(host: K.Host, b: K.Batch, off: nat)
      requires Contiguous(b.ents, off) && (b.hard.Some? ==> host.prev.commit <= b.hard.value.commit)
      ensures K.Formed(host, b)
    {
    }

    method PersistLog(rd: Ready)
      requires node.log.Valid() && node.log.Persistable() && Mirrors()
      requires rd.entries == node.log.entries && rd.snapshot == node.log.snapshot
      modifies node.log.storage`entries, node.log.storage`snapshot, this`disk
      ensures node.log.storage.Valid() && node.log.Fits() && Mirrors()
      ensures node.log.storage.Stored() == node.log.Visible() == old(node.log.Visible())
      ensures disk == K.Logged(old(disk), Durables(rd))
    {
      hide KeepsSuffix, D.Installed, D.Appended, Contiguous;
      PersistSnapshot(rd.snapshot);
      ghost var off := node.log.offset;
      ghost var k := off - 1 - node.log.storage.snapshot.index;
      ghost var below := node.log.storage.entries[..k];
      PersistEntries(rd.entries, off);
      assert node.log.storage.entries == below + rd.entries && node.log.storage.entries[..k] == below;
    }

    /** The storage then ends at or past the first unstable entry. */
    method PersistSnapshot(snap: Option<Snapshot>)
      requires node.log.Valid() && node.log.Persistable() && Mirrors() && snap == node.log.snapshot
      modifies node.log.storage`entries, node.log.storage`snapshot, this`disk
      ensures node.log.storage.Valid() && node.log.Fits() && Mirrors()
      ensures disk == if snap.Some? then D.Installed(old(disk), snap.value) else old(disk)
      ensures node.log.Visible() == old(node.log.Visible())
      ensures var st := node.log.storage;
        && st.snapshot.index < node.log.offset <= st.LastIndex() + 1
        && (node.log.entries == [] ==> node.log.offset == st.LastIndex() + 1)
        && node.log.Visible() == Plain(st.snapshot.index, st.snapshot.term,
                                       st.entries[..node.log.offset - 1 - st.snapshot.index] + node.log.entries)
    {
      hide KeepsSuffix, D.Installed, Contiguous;
      var storage := node.log.storage;
      if snap.Some? {
        MirrorInstalled(disk, snap.value);
        Unkept(storage.Stored(), snap.value);
        var r := storage.ApplySnapshot(snap.value);
        disk := D.After(disk, D.Install(snap.value));
      }
    }

    lemma Unkept(p: Plain, s: Snapshot)
      requires !KeepsSuffix(p, s)
      ensures Snapshotted(p, s) == Plain(s.index, s.term, [])
    {
    }

    lemma AllUncovered(ents: Log, off: nat)
      requires ents != [] && ents[0].index > off
      ensures Uncovered(ents, off) == ents
    {
    }

    method PersistEntries(ents: Log, ghost off: nat)
      requires node.log.storage.Valid() && Mirrors() && Contiguous(ents, off)
      requires node.log.storage.snapshot.index < off <= node.log.storage.LastIndex() + 1
      requires ents == [] ==> off == node.log.storage.LastIndex() + 1
      modifies node.log.storage`entries, this`disk
      ensures node.log.storage.Valid() && Mirrors()
      ensures disk == if ents != [] then D.Appended(old(disk), ents) else old(disk)
      ensures var st := node.log.storage; st.entries == old(st.entries)[..off - 1 - st.snapshot.index] + ents
    {
      hide D.Appended, Uncovered;
      var storage := node.log.storage;
      if |ents| > 0 {
        assert ents[0].index == off;
        AllUncovered(ents, storage.snapshot.index);
        MirrorAppended(disk, ents);
        var r := storage.AppendEntries(ents);
        disk := D.After(disk, D.Op.Append(ents));
      } else {
        assert storage.entries[..|storage.entries|] == storage.entries;
      }
    }

    lemma MirrorInstalled(d: D.Disk, s: Snapshot)
      requires s.index > d.mirror.snap.index
      ensures D.Installed(d, s).mirror == W.Mirror(d.mirror.hard, s, Snapshotted(D.Visible(d), s).entries)
    {
    }

    lemma MirrorAppended(d: D.Disk, ents: Log)
      requires ents != [] && Contiguous(ents, ents[0].index) && d.mirror.snap.index < ents[0].index <= Last(D.Visible(d)) + 1
      ensures D.Appended(d, ents).mirror == d.mirror.(entries := Spliced(D.Visible(d), ents).entries)
    {
    }

    /** Every batch is persisted, then sent, then applied, then acknowledged.
        One batch empties the core: the log is as it was, all of it durable, and
        the state machine has been given exactly the newly committed entries. */
    method Drain()
      requires Idle()
      modifies this, node, node.log, node.log.storage
      ensures Quiet() && Durable() && !node.HasReady()
      ensures node.log.Visible() == old(node.log.Visible()) && node.log.committed == old(node.log.committed)
      ensures node.term == old(node.term) && node.vote == old(node.vote) && node.role == old(node.role)
      ensures sent == old(sent) + old(node.msgs)
      ensures appliedLog == old(appliedLog) + old(Pending(node.log.State()))
      ensures applied == node.log.applied == node.log.committed
    {
      hide K.Calm;
      ghost var first := true;
      if !node.HasReady() { QuietIsDurable(); }
      while node.HasReady()
        invariant Idle()
        invariant first ==> unchanged(this) && unchanged(node) && unchanged(node.log) && unchanged(node.log.storage)
        invariant !first ==>
          && Quiet() && Durable() && !node.HasReady()
          && node.log.Visible() == old(node.log.Visible()) && node.log.committed == old(node.log.committed)
          && node.term == old(node.term) && node.vote == old(node.vote) && node.role == old(node.role)
          && sent == old(sent) + old(node.msgs)
          && appliedLog == old(appliedLog) + old(Pending(node.log.State()))
          && applied == node.log.applied == node.log.committed
        decreases first
      {
        Batch();
        first := false;
      }
    }

    /** With no batch pending there is nothing left to persist, send or apply. */
    lemma QuietIsDurable()
      requires Idle() && !node.HasReady()
      ensures Quiet() && Durable() && node.msgs == [] && Pending(node.log.State()) == []
      ensures applied == node.log.applied == node.log.committed
    {
      var st := node.log.storage;
      assert st.entries[..|st.entries|] == st.entries;
      PendingLast(node.log.State());
      HardSaved(K.Host(disk, node.prevHard));
    }

    method Batch()
      requires Idle() && node.HasReady()
      modifies this, node, node.log, node.log.storage
      ensures Quiet() && Durable() && !node.HasReady()
      ensures node.log.Visible() == old(node.log.Visible()) && node.log.committed == old(node.log.committed)
      ensures node.term == old(node.term) && node.vote == old(node.vote) && node.role == old(node.role)
      ensures sent == old(sent) + old(node.msgs)
      ensures appliedLog == old(appliedLog) + old(Pending(node.log.State()))
      ensures applied == node.log.applied == node.log.committed
    {
      hide Contiguous, KeepsSuffix, Pending, Sits, Shown, K.Calm, K.Safe, K.MustSync, K.Saves, D.Visible;
      PendingRun(node.log.State());
      var rd := node.TakeReady();
      Persist(rd);
      Send(rd.messages);
      if rd.snapshot.Some? && rd.snapshot.value.index > applied {
        applied := rd.snapshot.value.index;
      }
      Apply(rd.committed);
      node.Advance();
    }

    method Apply(ents: Log)
      requires Contiguous(ents, applied + 1)
      modifies this`applied, this`appliedLog
      ensures appliedLog == old(appliedLog) + ents && applied == old(applied) + |ents|
    {
      var i := 0;
      while i < |ents|
        invariant 0 <= i <= |ents|
        invariant applied == old(applied) + i && appliedLog == old(appliedLog) + ents[..i]
      {
        var e := ents[i];
        if e.index > applied {
          applied := e.index;
          appliedLog := appliedLog + [e];
        }
        i := i + 1;
      }
      assert ents[..i] == ents;
    }

    // ----- one input served -----

    method StepIn(cfg: Config, n: T.Node, input: S.Input, data: Bytes)
      requires Quiet() && Runs(n) && ValidConfig(cfg) && S.Sound(cfg, n) && Servable(cfg, n, input)
      modifies node, node.log
      ensures Idle() && Runs(S.Handle(cfg, n, input))
    {
      hide K.Calm, Contiguous, S.Sound, S.Handle, Shows;
      ghost var r := S.Handle(cfg, n, input);
      if input.Receive? && Replicates(input.m) {
        Stepped(cfg, n, input);
        Receive(input.m, data, input.leased, cfg, n);
        MarksShown(r, node.log.State());
      } else {
        Decide(S.Handle(cfg, n, input), n);
      }
    }

    lemma Stepped(cfg: Config, n: T.Node, input: S.Input)
      requires ValidConfig(cfg) && S.Sound(cfg, n) && input.Receive?
      ensures S.Handle(cfg, n, input) == C.Step(cfg, n, input.m, input.leased)
    {
    }

    lemma PendingShown(r: T.Node, s: LogState)
      requires Shows(r, s) && Ordered(s)
      ensures Max(s.applied, r.snapIndex) <= r.committed <= |r.log|
      ensures Pending(s) == r.log[Max(s.applied, r.snapIndex)..r.committed]
    {
    }

    lemma DrainedShows(r: T.Node, s: LogState, t: LogState)
      requires Shows(r, s) && t.plain == s.plain && t.committed == s.committed && t.panicked == s.panicked
      ensures Shows(S.Drained(r), t)
    {
    }

    lemma AppliedMark()
      requires Idle()
      ensures Max(node.log.applied, node.log.Visible().dummy) == Max(applied, node.log.Visible().dummy)
    {
      hide K.Calm, Contiguous;
    }

    /** Serving an input of the cluster model: the process is the model's drained
        node again, all of it durable, exactly the messages the core queued are sent,
        and the state machine is given exactly the newly committed entries. */
    method Serve(cfg: Config, n: T.Node, input: S.Input, data: Bytes)
      requires Quiet() && Runs(n) && ValidConfig(cfg) && S.Sound(cfg, n) && Servable(cfg, n, input)
      modifies this, node, node.log, node.log.storage
      ensures Quiet() && Durable() && Runs(S.Drained(S.Handle(cfg, n, input)))
      ensures sent == old(sent) + S.Handle(cfg, n, input).msgs
      ensures var r := S.Handle(cfg, n, input);
        && Max(old(applied), r.snapIndex) <= r.committed <= |r.log| && applied == r.committed
        && appliedLog == old(appliedLog) + r.log[Max(old(applied), r.snapIndex)..r.committed]
    {
      hide K.Calm, Contiguous, S.Sound, S.Handle, Pending, Servable, Shows, Sits, Shown;
      ghost var r := S.Handle(cfg, n, input);
      StepIn(cfg, n, input, data);
      ghost var s := node.log.State();
      MarksShown(r, s);
      Boundary(r, s);
      PendingShown(r, s);
      AppliedMark();
      Drain();
      DrainedShows(r, s, node.log.State());
    }

    lemma Boundary(r: T.Node, s: LogState)
      requires Shows(r, s)
      ensures s.plain.dummy == r.snapIndex
    {
    }
  }
}
