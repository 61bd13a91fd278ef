# parallax-kv: what the code guarantees, proved

This project models the consensus core, the storage and the state machine of
parallax-kv in Dafny 4.11 and proves what they promise. `dafny verify
dfyconfig.toml` checks all of it. The modules, from the bottom up:

- **The core.** `RaftTypes` and `RaftCore` give the core as functions from node
  state to node state, one for each operation of `raft/`. `RaftObject` is the
  same core as an object whose methods update its fields; every method is proved
  to do what the function says. The table lists its loops and its entry points;
  the handlers behind `Step` each carry the same kind of contract.
- **The cluster.** `RaftSystem` puts nodes on a network that loses, repeats and
  reorders messages. One action is one input followed by the driver's drain, a
  compaction, a crash, or a crash in the middle of persisting a batch.
  `RaftHistory`, `RaftInvariant`, `RaftReads`, `RaftReplication`, `RaftLeader`,
  `RaftFollower`, `RaftElection`, `RaftSteps`, `RaftTear`, `RaftSteady` and
  `RaftRuns` build, beside every run, a history of elections, votes, campaigns,
  acknowledgements and read requests that explains each state. The history is a
  device of the proof and no part of the system. `RaftSolo` is the invariant of a
  cluster of one, where the log may be a term ahead of a torn hard state.
- **What each input does.** `LeaderInputs`, `FollowerInputs` and `ElectionInputs`
  describe, for every message, proposal, read, timer and restart, the node that
  results, in terms of majorities, entries and indexes and not of the core's own
  functions; `SentMessages` does so for what is sent. `InputRuns` shows that what
  they ask of a node holds of every node of every run.
- **What every run guarantees.** `RaftSafety` holds the main theorems: the
  properties of Figure 3 of the extended Raft paper (Ongaro and Ousterhout, 2014),
  durability of committed entries, progress tracking, freedom from panics, and the
  safety of reads (section 6.4 of Ongaro's dissertation). `RaftBacktrack` treats
  conflict backtracking, `RaftTraffic` what each message says about its sender,
  `RaftNext` the relation of Match and Next, `RaftRejections` rejections that are
  delayed and repeated, and `RaftQuorum` the commit rule's arithmetic.
  `RaftSuperseded` and `RaftRepeated` are runs that show why two theorems have the
  conditions they have.
- **The log.** `PlainLog` is the log as one sequence above a boundary, tied to the
  cluster's nodes; `MemStorage` and `SplitLog` are the storage and the split log
  that refine it, and `StoredLogs` says what is stored at each index; `ReadyLoop` is the hand-off between core and driver, over a disk
  that is synced only when a batch asks for it: serving an input leaves the objects
  standing for the cluster model's next node. `ReadyInputs` shows that every input of
  every run can be served so, and `Delivery` what is delivered over a lifetime.
- **The disk.** `BigEndian`, `WalFraming`, `WalReplay` and `DiskFiles` are the
  bytes of the write-ahead log and its snapshot files; `DiskRuns` is recovery over
  whole lives with crashes; `DiskBatches` is persisting before sending;
  `DiskStorage` is the storage object over files; `ByteFormats` says where each field
  of each format stands. `ClusterDisk` ties the cluster's
  crashes to the disk, and `ClusterRuns` whole clusters of processes with disks to
  runs of the cluster model.
- **The state machine.** `KvMachine`, `KvCodec`, `KvSnapshot`, `KvStore` and
  `Ordering` are the key-value machine with sessions, its encodings and its
  snapshots, and `KvLaws` what its commands do and answer; `KvReplica` shows compaction and restarts to be invisible to a replica,
  and `KvCluster` to every client of every run of the cluster; `KvLin` is the per-key
  model that client histories are checked against.
- **The run-time check.** `LeaderCheck` and `TrackedStorage` are the simulator's
  memoised leader-completeness check and the storage wrapper it relies on;
  `LeaderVerdict` and `CommitRecords` say what a verdict means and what is recorded.

## How the code is read

- A node's log is kept whole in the cluster model; compaction raises an index
  that hides a prefix from the node's own lookups. A snapshot message carries the
  log prefix it stands for. `PlainLog` connects this to the log that really forgets.
- Timers are nondeterministic: a tick either does nothing or fires. Whether the
  election timer of a node that backs a leader is still running is an input.
- Read tokens do not repeat within one process, as the server's counter ensures.
- Panics of the core set a flag that is never cleared; the flag is proved never set.
- The checksum and the digests are function parameters. Nothing is assumed of them.
- `README.md:193-195` of the repository says that ReadIndex is not gated on a commit
  of the current term. The code gates it (`raft/step.go:161-164`), and so does the
  model.

## Where the code falls short of the simple statement

- *Match.* A leader's Match and Next describe the follower's durable log unless a
  majority has already moved to a higher term. `RaftSuperseded.MatchCanBeOutdated`
  is a run in which a leader so left behind is wrong.
- *Commits.* After an acknowledgement everything of its term that a majority holds is
  committed, unless the acknowledgement did not raise Match: the answer to a snapshot
  raises Match without committing, and a later acknowledgement of the same index does
  not make up for it (`LeaderInputs.AnswerDelaysCommit`). `InputRuns.AckInRun` gives
  the exact condition.
- *Rejections.* A rejection that is delivered again after the follower has caught
  up is taken again, and puts Next at or below Match
  (`RaftRepeated.RefusalOvershoots` is a run in which it does). A rejection that is
  taken and lowers Next does so exactly if Match is above 0, which the leader can
  tell (`RaftRejections.FallsBehind`). `RaftRejections.LateRefusal` says when the new
  Next is at or below an agreement of the two logs, and that the follower then
  accepts what is sent.
- *Recovery.* Reopening the write-ahead log restores the live mirror except when
  the mirror holds nothing above a snapshot that did not cut the log, while a record
  of a higher entry is left in the file: `applyEntryRecord` skips a covered record
  together with the truncation it implied. This happens to a log compacted at its
  end (`DiskRuns.StaleEntryReturns`) and to a received snapshot past the end of a log
  that was once longer (`DiskRuns.PastEntryReturns`). `DiskRuns.RecoveryExact` gives
  the exact condition. The cluster model's crashes restore a log exactly, so the
  theorems of `RaftSafety` are about processes whose disks meet it at every crash:
  `ClusterRuns.WorldIsRun` says that this is enough, `ClusterDisk.CrashIsCrash` and
  `ClusterDisk.TornSnapshotIsTear` that it is what it takes, and
  `ClusterDisk.InexactBreaksLogs` shows a log that breaks them.
- *Frames.* A frame whose payload exceeds 64 MiB is written but read as the end of
  the log, and a snapshot file that large is passed over. A crash keeps all that was
  synced if and only if none of it is that large (`DiskStorage.CrashKeeps`).
- *Pending snapshots.* Persisting a received snapshot leaves the core's log exactly
  only if the storage does not hold the snapshot's boundary entry below a suffix
  (`SplitLog.SnapshotPersistsExactly`). The drivers ensure it by draining after
  every input (`ReadyLoop.Driver.Serve`).

## Model

| member | source | states |
|---|---|---|
| RaftSafety.ElectionSafety | raft/raft.go:208-227 | In any run, with crashes and torn writes anywhere in it, two moments at which nodes lead the same term show the same node |
| RaftSafety.OneVotePerTerm | raft/step.go:109-138 | A node observed at two moments in one term, having voted at both, has voted for the same candidate, restarts included |
| RaftSafety.LogMatching | raft/log.go:210-239 | Any two logs, of any nodes at any two moments, that hold one term at an index are equal up to that index |
| RaftSafety.StateMachineSafety | raft/log.go:241-258 | What two nodes have committed, at any two moments, is one sequence as far as the shorter reaches |
| RaftSafety.LaterLeadersHold | raft/raft.go:171-187 | Everything a leader has committed is in the log of every leader of a later term, whenever that leader is looked at |
| RaftSafety.CommittedReachesLeaders | sim/invariants.go:359-363 | The same for any committer: every leader of a term above the committer's holds what it committed; if the committer sits on a snapshot that a torn drain left, every leader of a term above all then reached |
| RaftSafety.OwnCommitTerm | raft/handlers.go:141-154 | Unless it sits on a snapshot that a torn drain left, what a node has committed was committed by a leader of a term the node has reached |
| RaftSafety.CommittedIsDurable | raft/raft.go:171-187 | What any node has committed is, at every later moment of the run, in the durable logs of a majority |
| RaftSafety.NeverPanics | raft/log.go:231-245 | No reachable state has hit "conflict at committed index", "commit out of range" or an invalid role transition; snapshot, commit and last index are in order; every node can take its next input |
| RaftSafety.NothingTakenBack | raft/raft.go:116-122 | Between any two moments of a run a node's term and snapshot never go back, and its vote within a term never changes |
| RaftSafety.MatchSoundness | raft/progress.go:3-40 | A leader's Match and Next are true of the follower's durable log (agreement up to Match, Next within 1 and last+1) unless a majority has already moved past its term |
| RaftSafety.MatchExactly | raft/progress.go:3-40 | A leader's record of a follower is true if and only if Next is within the leader's log and the two logs hold one term at the one index Match |
| RaftSuperseded.MatchCanBeOutdated | raft/handlers.go:157-174 | A concrete run of five nodes in which a leader left behind by a majority records a match that the follower's rewritten log contradicts |
| RaftSafety.ReadIndexSafety | raft/step.go:157-197 | Every read index released was asked of the same node while it led the same term, and is at least what any node had committed by the moment of asking, whether released by its own quorum, by a later context's, or after waiting at the current-term gate |
| RaftSafety.TopLeaderHolds | raft/raft.go:171-187 | What any node has ever committed is in the log of a leader whose term is the highest reached |
| RaftSafety.BacktrackingApplies | raft/handlers.go:86-115 | In every run terms rise along every log, and a leader of the highest term meets every follower in the states backtracking is proved for |
| RaftRuns.NextOK | server/drive.go:76-143 | With more than one node, every action (input and drain, compaction, crash, crash inside a drain) keeps the cluster invariant, with a history that only grows |
| RaftRuns.RunOK | sim/loop.go:84-92 | With more than one node, every run has a history explaining each of its states |
| RaftSolo.SoloGrows | raft/raft.go:266-279 | With one node, from any moment of a run to any later one the log has only grown, across crashes, compactions and torn drains |
| RaftSolo.SoloTear | server/drive.go:91-113 | One node dying in any drain, also the one in which it raises its term and wins it, loses no entry and keeps its invariant |
| RaftHistory.LeaderCompleteness | raft/raft.go:171-187 | An entry of its own term that a quorum acknowledged is in the log from which every later leader starts |
| RaftHistory.SameTermSameLog | raft/log.go:207-217 | Two logs of one history that hold one term at an index are the same up to it |
| RaftQuorum.QuorumIndexMeaning | raft/raft.go:173-181 | The index read off the sorted match list is the highest one that a quorum of peers has reached: an index is at most it exactly when a quorum matches that index |
| RaftFollower.SpliceMeaning | raft/log.go:222-239 | Splicing entries cut from the leader's log leaves the log as it was, already holding them, or exactly the leader's log up to their end |
| RaftFollower.HandleAppendOK | raft/handlers.go:75-97 | Accepting, refusing or short-cutting an append keeps the invariant, and an acknowledgement is recorded before it is sent |
| RaftFollower.HandleHeartbeatOK | raft/handlers.go:117-122 | A heartbeat moves the commit index only over entries shared with the leader |
| RaftFollower.HandleSnapshotOK | raft/handlers.go:124-154 | Installing a snapshot, or moving the commit index to it, keeps the invariant |
| RaftElection.HandleVoteOK | raft/step.go:106-138 | Granting or refusing a vote keeps the invariant |
| RaftElection.CountVoteOK | raft/handlers.go:38-55 | Counting a ballot, and winning or losing by it, keeps the invariant |
| RaftElection.CampaignOK | raft/raft.go:255-294 | Starting an election, with or without the pre-vote round, keeps the invariant |
| RaftLeader.ProposeOK | raft/step.go:140-155 | Appending proposals and broadcasting them keeps the invariant (what is appended: LeaderInputs.ProposalLog) |
| RaftLeader.HandleAppendRespOK | raft/handlers.go:156-174 | A follower's reply, including any commit it allows, keeps the invariant (what is committed: LeaderInputs.AckCommits) |
| RaftLeader.HandleHeartbeatRespOK | raft/handlers.go:196-213 | A heartbeat reply, including the batch of reads it releases, keeps the invariant (what is released: LeaderInputs.BeatAnswered) |
| RaftSteps.HandleOK | raft/step.go:3-89 | Every input to a node keeps the invariant; a read request is the only input that adds one |
| RaftSteps.CompactOK | sim/loop.go:169-209 | Compacting at a committed index keeps the invariant |
| RaftSteps.RecoverOK | raft/raft.go:56-88 | Restarting from what is durable, with any older commit index, keeps the invariant |
| RaftRuns.TearStep | server/drive.go:91-113 | With more than one node, a crash after the snapshot or some of the entries of a batch are durable, and before the hard state is, keeps the invariant |
| RaftSteady.HandleSteady | raft/raft.go:116-139 | One input never lowers a term, snapshot index or commit index and never changes a vote within a term; only an installed snapshot of its own term raises the boundary |
| RaftSteady.NewLeaderKeepsTerm | raft/raft.go:268-279 | In a cluster of more than one node no input both raises a term and wins it |
| RaftSteady.ReleaserLeads | raft/handlers.go:207-213 | Only a leader releases reads, and it keeps its term in doing so |
| LeaderInputs.ProposalLog | raft/step.go:140-155 | A proposal to any leader leaves the old log followed by exactly its commands: the i-th is a normal entry with the i-th command's data, the leader's term and the next index |
| LeaderInputs.ProposalAppends | raft/raft.go:158-169 | Beside that the leader counts itself as holding them, commits the highest entry of its term that a majority then holds, and sends every other member what it lacks; nothing else changes |
| LeaderInputs.ProposalIgnored | raft/step.go:140-155 | A proposal to anyone else, or of nothing, changes nothing |
| LeaderInputs.CommitRule | raft/raft.go:171-187 | The commit candidate is taken exactly if some entry of the leader's term above the commit index is held by a majority, and is then the highest such entry |
| LeaderInputs.AckCommits | raft/handlers.go:156-174 | An acknowledgement that raises Match: it is counted, the highest entry of the leader's term that a majority then holds is committed if it is past the commit index, and exactly then every other member is sent what it lacks, with the new commit index; reads that waited for the commit are opened in order |
| LeaderInputs.AckCounts | raft/progress.go:12-24 | An acknowledgement that does not raise Match is counted and commits nothing |
| LeaderInputs.AnswerDelaysCommit | raft/handlers.go:59-73 | A concrete leader for which a majority holds an entry of its term that stays uncommitted: the answer to a snapshot raised Match without a look at the commit index |
| LeaderInputs.NoCommitBeyond | raft/raft.go:173-187 | A majority said to hold more than the log has would hold back every commit |
| LeaderInputs.RefusalRetries | raft/handlers.go:156-194 | A refusal of what was last sent puts Next right after the last visible entry that can agree, and the follower is sent what it then lacks; any other refusal changes nothing |
| LeaderInputs.SnapshotCounted | raft/handlers.go:59-73 | The answer to a snapshot raises Match and Next and the follower is sent what it then lacks; nothing is committed |
| LeaderInputs.LeaderIgnores | raft/handlers.go:59-73 | To strangers and to messages that are for others a leader does nothing |
| LeaderInputs.BeatAnswered | raft/handlers.go:196-213 | The answer to a heartbeat: a follower that lacks entries is sent them; a pending read that a majority has acknowledged, the sender counted, is released together with all that were opened before it, in order, each with the index recorded for it, and these leave the queue; with fewer acknowledgements nothing is released and nothing leaves |
| LeaderInputs.ReadOpened | raft/step.go:157-197 | A read asked of a leader waits behind the gate while nothing of its term is committed, else is recorded at the commit index and asked of every other member, or answered at once by a node alone; asked of anyone else it is dropped |
| LeaderInputs.LeaderBeats | raft/replication.go:73-94 | On its timer a leader sends every other member a heartbeat, with the newest pending read |
| SentMessages.CopiesSent | raft/replication.go:3-71 | Every other member is sent, from its Next on, the entries the size bound allows with the term before them, or the snapshot once these are compacted, or an empty append if it lacks nothing |
| SentMessages.BeatsSent | raft/replication.go:80-94 | Every other member gets one heartbeat, its commit index being the lesser of Match and the leader's |
| SentMessages.RequestsSent | raft/raft.go:266-294 | Every other member is asked once, with the last index and term of the log and the term of the campaign |
| FollowerInputs.AppendHandled | raft/handlers.go:75-97 | An append below the commit index is answered with that; one that connects leaves exactly the entries it carries after the part of the log before them (or the log as it was, if that holds them all), moves the commit index as far as they reach, and is acknowledged; any other is refused with the last visible entry of so low a term |
| FollowerInputs.HeartbeatHandled | raft/handlers.go:117-122 | A heartbeat raises the commit index to the leader's as far as the log goes, and its context is echoed |
| FollowerInputs.SnapshotHandled | raft/handlers.go:124-154 | A snapshot within what is committed is answered with that; one whose last entry the log holds moves the commit index; any other replaces the log |
| FollowerInputs.StaleTold | raft/step.go:59-71 | A leader of an earlier term is told the term, and nothing else changes |
| ElectionInputs.VoteAnswered | raft/step.go:106-138 | A vote is given exactly if the candidate's last term is higher, or equal with a log at least as long, and the term is new, the vote already the candidate's, or none cast and no leader known; a higher term is taken over first |
| ElectionInputs.VoteBarred | raft/step.go:14-71 | A node that heard from its leader within the election timeout refuses and changes nothing, unless it voted for the candidate; a request of an earlier term is dropped |
| ElectionInputs.PollAnswered | raft/step.go:106-138 | A pre-vote changes nothing at the node asked, and is granted exactly to a later term and a log as good, unless the node is loyal to its leader |
| ElectionInputs.TimerCampaigns | raft/raft.go:238-294 | A node whose election timer fires asks for pre-votes in its term, or raises its term, votes for itself and asks for votes |
| ElectionInputs.BallotCounted | raft/handlers.go:38-55 | The first ballot of each voter counts. With a majority for it a candidate leads: fresh progress, a no-op of its term at the end of the log, and everyone is sent what they lack; with a majority against it, it follows; else it waits |
| ElectionInputs.PollCounted | raft/handlers.go:38-55 | The same for pre-votes: a majority makes the node raise its term, vote for itself and ask for votes |
| ElectionInputs.AnswersOtherwise | raft/step.go:38-89 | An answer of a later term, other than a granted pre-vote, makes the node follow in that term; one of an earlier term, or to what the node no longer does, changes nothing |
| ElectionInputs.RestartRemembers | raft/raft.go:56-88 | A restarted node has its term, vote, log and snapshot, the commit index that was durable or its snapshot's if that is higher, and nothing else |
| InputRuns.LeadersFit | raft/progress.go:3-10 | Every leader of every run meets what the descriptions of a leader's inputs ask for; no majority is ever said to hold more than its log |
| InputRuns.ProposalInRun | raft/step.go:140-155 | So in every run: a proposal appends exactly its commands, commits what that allows, and is sent to everyone |
| InputRuns.AckInRun | raft/handlers.go:156-174 | In every run, after an acknowledgement the commit index is the highest entry of the leader's term that a majority holds, if one is past it, and unchanged otherwise, if and only if the acknowledgement raised Match or there was no such entry |
| InputRuns.BeatInRun | raft/handlers.go:196-213 | In every run, the answer to a heartbeat releases exactly the reads LeaderInputs.BeatAnswered says |
| InputRuns.FollowersFit | raft/handlers.go:75-154 | Every append and snapshot that reaches a node of a run is one the descriptions cover |
| RaftBacktrack.HintMeaning | raft/handlers.go:99-115 | The follower's hint is the last visible entry of a term no higher than asked for |
| RaftBacktrack.ScanMeaning | raft/handlers.go:176-194 | The leader's walk back skips only entries of higher terms |
| RaftBacktrack.RefusalMeaning | raft/handlers.go:176-194 | The index a leader takes from a refusal is below the refused one (unless it has compacted past it since) and at or above every agreement of its log with the log that refused, compacted or not |
| RaftBacktrack.BacktrackProgress | raft/handlers.go:86-115 | In an exchange in which neither log moves, each rejection strictly lowers Next, and never to or below an index at which the logs agree |
| RaftBacktrack.BacktrackSettles | raft/progress.go:26-40 | Such an exchange ends at a Next the follower accepts or a snapshot serves, past every agreement |
| RaftTraffic.HandleSends | raft/replication.go:13-71 | Every message an input makes a node send is a vote, a heartbeat or an answer to one; or replication by a leader from its Next on, a snapshot being its own; or the answer to the replication just received, a refusal with the hint of the log at that moment |
| RaftNext.MatchBoundsNext | raft/progress.go:12-40 | In every run, once a follower has acknowledged anything to a leader, Next is at most Match plus one |
| RaftRejections.RefusalRespectsAnswer | raft/handlers.go:157-194 | In every run, however late or often a refusal reaches a leader of the highest term, the Next it yields is above every agreement with the follower's log as it was when it refused |
| RaftRejections.FallsBehind | raft/handlers.go:157-168 | In every run, a refusal that is taken and lowers Next puts it at or below Match if and only if Match is above 0 |
| RaftRejections.LateRefusal | raft/handlers.go:157-168 | In every run, that Next is above every agreement with the follower's log as it is now if and only if the logs do not agree at that very index; if they do, the follower accepts what is sent next |
| RaftRejections.RefusalRepeated | raft/progress.go:26-40 | A refusal delivered again after the refused index was acknowledged is taken again and leaves Next at or below Match |
| RaftRepeated.RefusalOvershoots | raft/handlers.go:163-168 | A concrete run of three nodes, of an election, a crash and another election: the follower refuses, is sent what it lacks, acknowledges it, and the same refusal delivered again puts Next at Match, where the logs agree |
| RaftObject.ReadQueue.Advance | raft/readonly.go:48-75 | Everything up to and including the target is released in arrival order and removed; an unknown target releases nothing |
| RaftObject.Raft.constructor | raft/raft.go:56-88 | The recovered node is the node the cluster model restarts with |
| RaftObject.Raft.BcastAppend | raft/replication.go:3-11 | The loop over peers does what the specification's broadcast does |
| RaftObject.Raft.BcastHeartbeat | raft/replication.go:73-94 | Each follower gets a heartbeat whose commit index is capped by its Match |
| RaftObject.Raft.ReleaseGated | raft/step.go:174-183 | Gated reads are released in order once an entry of the current term is committed |
| RaftObject.Raft.StepReadIndex | raft/step.go:157-172 | A non-leader refuses; a leader queues behind the gate or records the read |
| RaftObject.Raft.QuorumIndex | raft/raft.go:173-181 | Collecting the matches and sorting them yields the specification's quorum index |
| RaftObject.Raft.AppendEntry | raft/raft.go:158-169 | The loop stamps entries with term and index, appends them and counts them as matched, as the core's function does; LeaderInputs.ProposalLog says which entries these are |
| RaftObject.Raft.Tally | raft/raft.go:305-323 | The loop counts the ballots of a kind |
| RaftObject.Raft.AskVotes | raft/raft.go:280-293 | Every other peer is asked, at the campaign term |
| RaftObject.Raft.TimerFires | raft/raft.go:229-253 | A leader broadcasts heartbeats, any other role campaigns |
| RaftObject.Raft.FindConflictByTerm | raft/handlers.go:99-115 | The loop computes the specification's hint |
| RaftObject.Raft.DecrHint | raft/handlers.go:176-194 | The loop computes the index the specification retries from |
| RaftObject.Raft.ResetProgress | raft/raft.go:127-137 | The loop over peers gives the specification's fresh progress records |
| RaftObject.Raft.Step | raft/step.go:3-89 | The entry point, with every handler behind it, moves the object exactly as the function of the run theorems moves a node, which LeaderInputs, FollowerInputs and ElectionInputs describe message by message |
| RaftObject.Raft.StepPropose | raft/step.go:140-155 | A non-leader refuses; a leader appends and broadcasts, as LeaderInputs.ProposalAppends describes |
| PlainLog.MaybeAppendShown | raft/log.go:219-239 | The plain log accepts, rejects and panics exactly as the cluster model's node, and goes on showing it |
| PlainLog.RestoreShown | raft/log.go:263-271 | Restoring a snapshot on the plain log is installing it on the node |
| PlainLog.CompactShown | sim/loop.go:200-204 | Compacting the stored log is raising the node's snapshot index: nothing above it changes |
| PlainLog.ConflictShown | raft/log.go:207-217 | The first conflict found is the same on both |
| PlainLog.MaybeAppendedKeeps | raft/log.go:222-248 | An append never moves the boundary or the applied mark, never lowers the commit mark and never touches a committed entry |
| MemStorage.Storage.constructor | storage/mem/mem.go:23-26 | Empty |
| MemStorage.Storage.AppendEntries | storage/mem/mem.go:34-64 | What a snapshot covers is dropped, a conflicting suffix is cut, a gap is refused and changes nothing |
| MemStorage.Storage.SetHardState | storage/mem/mem.go:66-70 | The hard state is replaced |
| MemStorage.Storage.EntriesIn | storage/mem/mem.go:77-96 | A range of the stored log, or compacted, or unavailable |
| MemStorage.Storage.Term | storage/mem/mem.go:98-111 | Defined exactly from the boundary to the last index |
| MemStorage.Storage.ApplySnapshot | storage/mem/mem.go:123-142 | A stale snapshot is refused; only a matching boundary keeps the suffix |
| MemStorage.Storage.Compact | storage/mem/mem.go:149-167 | The prefix is dropped and its last term kept |
| StoredLogs.AppendStores | storage/mem/mem.go:34-64 | After an accepted append each of its entries past the boundary stands at its index, every entry before the first is as it was, and none follows the last |
| StoredLogs.SnapshotStores | storage/mem/mem.go:123-142 | A newer snapshot keeps exactly the entries above it, and those only if the log held its term at its index |
| SplitLog.RaftLog.constructor | raft/log.go:118-136 | The log over a storage shows exactly what is stored |
| SplitLog.RaftLog.FirstIndex | raft/log.go:138-147 | One past the boundary of the plain log |
| SplitLog.RaftLog.LastIndex | raft/log.go:149-158 | The last index of the plain log |
| SplitLog.RaftLog.Term | raft/log.go:168-186 | The term of the plain log, 0 outside its range, never an error |
| SplitLog.RaftLog.MatchTerm | raft/log.go:188-195 | Agrees with the plain log |
| SplitLog.RaftLog.IsUpToDate | raft/log.go:335-339 | The vote test over the plain log's end |
| SplitLog.RaftLog.Slice | raft/log.go:273-305 | A stored part and an unstable part join to the range of the plain log |
| SplitLog.RaftLog.NextCommitted | raft/log.go:307-327 | Exactly the committed entries not yet applied |
| SplitLog.RaftLog.FindConflict | raft/log.go:207-217 | The loop finds the first missing or conflicting entry |
| SplitLog.RaftLog.TruncateAppend | raft/log.go:86-106 | Extending, replacing or cutting the unstable tail splices the plain log |
| SplitLog.RaftLog.Append | raft/log.go:197-205 | The plain log is spliced; a gap panics |
| SplitLog.RaftLog.CommitTo | raft/log.go:241-248 | As on the plain log |
| SplitLog.RaftLog.AppliedTo | raft/log.go:250-258 | The applied mark moves within applied and committed, or panics |
| SplitLog.RaftLog.MaybeAppend | raft/log.go:219-239 | As on the plain log, with the last new index reported |
| SplitLog.RaftLog.Restore | raft/log.go:263-271 | From any log, the log sits on the snapshot, with the marks moved to it |
| SplitLog.RaftLog.MaybeCommit | raft/log.go:341-352 | The commit moves exactly to a higher index of the given term |
| SplitLog.RaftLog.StableTo | raft/log.go:59-69 | Persisted entries are let go unless they were replaced |
| SplitLog.RaftLog.StableSnapTo | raft/log.go:71-76 | A persisted snapshot is let go |
| SplitLog.RaftLog.Release | raft/node.go:134-140 | Once everything is stored, letting go of the unstable part leaves the log unchanged |
| SplitLog.SnapshotPersistsExactly | storage/mem/mem.go:130-141 | Persisting a pending snapshot and its entries leaves exactly the core's log if and only if there are such entries or the storage holds no suffix the boundary would keep |
| ReadyLoop.Node.constructor | raft/node.go:43-58 | Term, vote, commit and log come back from storage |
| ReadyLoop.Node.FindConflictByTerm | raft/handlers.go:99-115 | The loop over the split log computes the hint of the plain log |
| ReadyLoop.Node.TakeReady | raft/node.go:93-120 | The batch holds exactly what is unstable, committed and queued, and asks for a sync exactly when more than the commit index must become durable |
| ReadyLoop.Node.Advance | raft/node.go:122-149 | The log is unchanged, nothing is unstable, everything committed is applied; without a pending batch nothing happens |
| ReadyInputs.InputServable | raft/step.go:3-89 | In every run every input that can come meets what the driver relies on: no panic, contiguous entries, and a log that only grows unless a leader replicates to it |
| ReadyInputs.ReplicationSteps | raft/step.go:38-89 | A leader's message is answered as stale, ignored by a leader of its own term, or handled by a node that follows the sender |
| ReadyLoop.Driver.constructor | raft/raft.go:56-88 | Over an opened storage the objects stand for the cluster model's recovered node |
| ReadyLoop.Driver.Receive | raft/step.go:38-89 | After a drain, a leader's message, of any term and to a node of any role, turns term, vote, role, log and replies into those of the core's step, and leaves a state that can be drained |
| ReadyLoop.Driver.Decide | raft/raft.go:158-187 | After a drain, what the core decides on any other input is taken over: entries join the log at its end and the commit index moves, and the state can be drained |
| ReadyLoop.Driver.Serve | server/drive.go:76-143 | Serving any input of the cluster model takes the objects from its node to its next node, drained and durable; exactly the messages the core queued are sent, and exactly the newly committed entries are applied |
| ReadyLoop.Driver.Follow | raft/handlers.go:75-97 | A follower takes entries into the split log, or says how far it has committed, or refuses with a hint, exactly as the core's handler |
| ReadyLoop.Driver.Beat | raft/handlers.go:117-122 | The commit index follows a heartbeat within the log, and the context is echoed, exactly as in the core's handler |
| ReadyLoop.Driver.Install | raft/handlers.go:124-154 | A snapshot is ignored, fast-forwards the commit index or replaces the log, and is acknowledged, exactly as in the core's handler; if it replaces the log, the storage will keep nothing of the old one |
| ReadyLoop.Driver.Send | server/drive.go:115-119 | Messages leave only when recovery from every crash to come gives back the term, the vote and every entry of the log |
| ReadyLoop.Driver.Persist | server/drive.go:91-113 | Snapshot, entries, hard state and then a sync if the batch asks for one, over the buffered disk, leave the log unchanged and safe to promise |
| ReadyLoop.Driver.Apply | sim/loop.go:211-219 | Each entry is given to the state machine once, in order |
| ReadyLoop.Driver.Drain | server/drive.go:76-143 | One batch empties the core: the log is as it was and stored, the queued messages are sent, exactly the newly committed entries are applied, and the next input may come |
| Delivery.DeliveredInOrder | raft/log.go:250-333 | Over any run of appends, commits, snapshots and deliveries, what is delivered has no gap, repeat or reordering, jumps only over snapshots, and ends at the applied mark; applied is within boundary, commit and last throughout |
| Delivery.DeliveredIsFinal | raft/node.go:95-149 | Whatever was ever delivered is the final log's entry at its index, unless compacted |
| Delivery.NothingHeldBack | raft/log.go:307-327 | A delivery hands over the log's entry at every index that is committed and not yet applied, and none remains |
| Delivery.AfterHolds | raft/log.go:222-258 | A committed entry is never replaced |
| WalFraming.RecordRoundTrip | storage/disk/framing.go:50-125 | Decoding a record's encoding gives the record |
| WalFraming.RecordStrict | storage/disk/framing.go:63-125 | A payload is accepted only if it is the encoding of what it decodes to |
| WalFraming.FrameReads | storage/disk/framing.go:127-160 | A frame reads back exactly when its payload is non-empty and at most 64 MiB; a larger one is taken for a torn tail |
| WalFraming.TornFrame | storage/disk/framing.go:21-25 | Every strict prefix of a frame is recognised as torn, whatever the checksum |
| WalFraming.CutLogParses | storage/disk/wal.go:106-132 | A log cut at any byte parses to exactly its whole frames, up to the first whose record is over 64 MiB |
| BigEndian.GetPut | storage/disk/framing.go:53-59 | Writing and reading back an integer gives it reduced to its width |
| BigEndian.PutGet | storage/disk/framing.go:69-72 | Reading and writing back bytes gives the bytes |
| WalReplay.ReplaySuffix | storage/disk/wal.go:169-184 | Replaying above a later snapshot agrees with replaying above an earlier one wherever that reaches, and meets no gap the other did not |
| WalReplay.EmptyReplay | storage/disk/wal.go:171-198 | Nothing above the snapshot comes back exactly when every higher entry record is followed by a truncation marker |
| DiskRuns.RecoveryExact | storage/disk/wal.go:16-71 | A crash that keeps any records at or past the last sync rebuilds the mirror of that moment if and only if the mirror had an entry above the snapshot, the snapshot cut the log, or no stale record is left |
| DiskRuns.RunsRecover | storage/disk/disk.go:13-22 | The same after every life of appends, hard states, syncs, snapshots at any time, crashes and reopenings |
| DiskRuns.EarlyInstalled | storage/disk/snapshot.go:96-125 | Also a crash that keeps fewer records than a snapshot was installed over gives back what the snapshot leaves of the mirror of that moment, or nothing of it |
| DiskRuns.StaleEntryReturns | storage/disk/wal.go:173-176 | A concrete life after which reopening brings back an entry the live mirror did not hold |
| DiskRuns.CutIsAtomic | storage/disk/snapshot.go:88-139 | A snapshot that contradicts the log is installed atomically: before its file is durable a crash leaves the old log, after it exactly the snapshot, and the contradicted suffix never returns |
| DiskRuns.AfterKeeps | storage/disk/wal.go:49-69 | Every operation, every crash and the repair at reopening keep the invariant |
| DiskRuns.PastEntryReturns | storage/disk/wal.go:173-176 | Another: a snapshot past the end of a log that was once longer, under which an old entry comes back |
| DiskBatches.PersistBeforeSend | server/drive.go:91-119 | After any life of batches, synced or not, and deaths at any step of one, once a further batch is persisted every later crash gives back the term and vote its messages speak for, no later commit index, and every entry of the log; exactly the log if and only if recovery is exact |
| DiskBatches.BatchCalm | raft/node.go:113-116 | A batch, synced exactly when it asks for it, leaves nothing unsynced but moves of the commit index |
| DiskBatches.LifeCalm | server/drive.go:76-143 | The same over every life of batches and deaths |
| DiskBatches.BatchLands | server/drive.go:91-108 | A batch makes of the stored log its snapshot, then its entries spliced in |
| DiskRuns.TornBatch | storage/disk/disk.go:113-118 | A crash in mid-batch leaves the log spliced with the first entries of the batch, under the old hard state |
| ClusterDisk.CrashIsCrash | raft/raft.go:56-88 | A process that crashes between drains and reads its disk back is the node of the cluster model's crash if and only if recovery is exact, and that crash is always an allowed one |
| ClusterDisk.TornEntriesAreTear | server/drive.go:100-108 | A death while entries are persisted always comes back as the cluster model's torn drain |
| ClusterDisk.TornSnapshotIsTear | server/drive.go:94-99 | A death after a snapshot's file is durable comes back as the cluster model's torn drain if and only if recovery is exact |
| ClusterDisk.TornInstallIsTear | storage/disk/snapshot.go:111-136 | A death before the truncation marker is durable always comes back as the cluster model's torn drain |
| ClusterDisk.DrainStores | server/drive.go:91-113 | A completed drain leaves on disk what the node has decided |
| ClusterDisk.InputWrites | raft/log.go:219-271 | In every run an input leaves a log alone, replaces its end by new entries, or replaces it by a snapshot: the batches of the lemmas above are all there are |
| ClusterDisk.InexactBreaksLogs | storage/disk/wal.go:173-176 | Where recovery is not exact the log read back can have falling terms, which no run of the cluster model allows |
| ClusterRuns.WorldIsRun | server/drive.go:76-143 | A cluster of processes with disks, dying at any point of any drain or installation, is at every moment a state of one run of the cluster model, while recovery is exact at each death |
| ClusterRuns.DeedFollowed | server/drive.go:91-119 | One deed of a process (an input served, a compaction, a death and a restart) is one or two actions of the cluster model, and its disk stores its node again |
| ClusterRuns.DieComes | server/drive.go:91-113 | A process that dies after any step of persisting a batch, with any records durable, comes back as crashed before the input, torn inside it, or crashed after it |
| ClusterRuns.CompactStores | sim/loop.go:200-207 | A compaction keeps on disk what the node has decided |
| ClusterRuns.ProcessesAgree | raft/log.go:241-258 | So the committed logs of any two processes at any two moments are comparable, and one term has one leader |
| DiskRuns.MirrorAppends | storage/disk/disk.go:90-118 | The mirror takes entries exactly as the in-memory storage does |
| DiskRuns.MirrorInstalls | storage/disk/snapshot.go:96-125 | The mirror takes snapshots exactly as the in-memory storage does |
| DiskFiles.SnapRoundTrip | storage/disk/snapshot.go:36-77 | Parsing a snapshot payload gives the snapshot and its flag |
| DiskFiles.SnapFileReads | storage/disk/snapshot.go:141-147 | A written snapshot file reads back |
| DiskFiles.OversizedUnread | storage/disk/framing.go:147-149 | A snapshot file over 64 MiB is not read |
| DiskFiles.KeptIsReal | storage/disk/wal.go:116-131 | What recovery keeps of a segment is byte for byte what was there, and can be replayed |
| DiskFiles.KeptIsParsed | storage/disk/wal.go:116-131 | With no gap in the way, recovery keeps everything that parses |
| StoredLogs.DiskAppends | storage/disk/disk.go:90-118 | The write-ahead log takes an append by the same rule, and frames one record for each entry that is not covered, in order |
| StoredLogs.ReplayedMeans | storage/disk/wal.go:134-198 | Replay has an entry at an index exactly if some record wrote it there and no later one wrote at or below that index, or cut below it |
| StoredLogs.HardMeans | storage/disk/wal.go:134-165 | The hard state recovered is the last one written |
| StoredLogs.NewestMeans | storage/disk/snapshot.go:174-203 | The snapshot recovered is that of the last file that can be read |
| StoredLogs.KeptIsAll | storage/disk/wal.go:106-132 | Recovery stops before a whole record within the size bound only if it would leave a gap |
| ByteFormats.PutNumber | storage/disk/framing.go:50-62 | Every integer is written most significant byte first |
| ByteFormats.FrameBytes | storage/disk/framing.go:127-138 | A frame is the payload's length in four bytes, its checksum in four, and the payload |
| ByteFormats.FrameLimit | storage/disk/framing.go:29-32 | A whole frame is read exactly if its payload is not empty and at most 64 times 1024 times 1024 bytes |
| ByteFormats.EntryBytes | storage/disk/framing.go:50-62 | Where type, term, index, kind, length and data of an entry record stand, and its codes |
| ByteFormats.HardBytes | storage/disk/framing.go:84-92 | The same for a hard state |
| ByteFormats.TruncBytes | storage/disk/framing.go:106-115 | The same for a truncation marker |
| ByteFormats.SnapFileBytes | storage/disk/snapshot.go:36-50 | The same for a snapshot file |
| DiskStorage.Storage.AppendEntries | storage/disk/disk.go:90-118 | Mirror, buffer and records move as one; a gap is refused |
| DiskStorage.Storage.SetHardState | storage/disk/disk.go:120-125 | The hard state is mirrored and buffered |
| DiskStorage.Storage.Sync | storage/disk/wal.go:264-294 | Every buffered record becomes part of a segment: of a fresh one if the active has reached its size bound, else of the active one; with nothing buffered nothing is written |
| DiskStorage.Storage.ApplySnapshot | storage/disk/snapshot.go:88-139 | File first, then the mirror, then a synced marker if the log is contradicted; a file over 64 MiB leaves recovery at the snapshot before it |
| DiskStorage.Storage.LoadSnapshot | storage/disk/snapshot.go:174-203 | The newest intact snapshot file is loaded |
| DiskStorage.Storage.ApplyRecord | storage/disk/wal.go:134-198 | One record moves the mirror as replay says; a gap changes nothing |
| DiskStorage.Storage.ReplaySegment | storage/disk/wal.go:106-132 | The loop keeps exactly the specified records and bytes of a segment |
| DiskStorage.Storage.ReplayFiles | storage/disk/wal.go:27-47 | A torn segment ends the log and later ones are discarded |
| DiskStorage.Storage.Repair | storage/disk/wal.go:49-69 | A missing cut is made good before anything is appended |
| DiskStorage.Storage.Open | storage/disk/wal.go:13-71 | Whatever the files hold, the mirror is the replay of what is kept above the newest snapshot |
| DiskStorage.CrashKeeps | storage/disk/wal.go:272-294 | Whatever bytes of an unfinished write reach the disk, with or without a new segment, recovery keeps exactly the complete records up to the first over 64 MiB, and so all that were synced if and only if none of them is that large |
| DiskStorage.CrashAndReopen | storage/disk/wal.go:106-132 | A crash at any byte and a restart is a restart from the records that survive; from every synced one and possibly some more, if none of those is over 64 MiB |
| DiskStorage.CrashInInstall | storage/disk/snapshot.go:96-139 | A crash once the file of a snapshot that cuts the log is durable, with any bytes of the buffer and the marker written, comes back with the snapshot and nothing above it |
| DiskStorage.TornSnapFile | storage/disk/snapshot.go:174-203 | A snapshot file that is not complete is passed over |
| KvMachine.ExactlyOnce | kv/kv.go:50-71 | For any log with duplicates and stale retries the store ends as if each client's commands had run once, where their sequence numbers first rose |
| KvMachine.RetryReplays | kv/kv.go:58-67 | A retry of the latest command gets the original answer and changes nothing; a retry of an older one is refused |
| KvMachine.StaleRefused | kv/kv.go:58-67 | A sequence number below one the client has used is refused and changes nothing, also if it was never seen |
| KvMachine.FirstRuns | kv/kv.go:66-71 | Every other command is executed on the store before it and answered accordingly |
| KvLaws.PutLaw | kv/kv.go:76-101 | A put makes the key hold the value with the next version, answers with that version and no value, and touches no other key |
| KvLaws.GetLaw | kv/kv.go:103-109 | A get changes nothing and answers with what the key holds |
| KvLaws.DeleteLaw | kv/kv.go:76-101 | A delete removes the key, says whether it was there, and answers with neither value nor version |
| KvLaws.CasLaw | kv/kv.go:111-129 | A compare-and-set writes exactly if the key holds the wanted content, or is absent when absence is wanted; else it changes nothing and answers with what is there |
| KvLaws.ToldAfterwards | kv/command.go:55-63 | The version a client is told is the key's afterwards, 0 if it is then absent; a value is told by a read, or by a comparison that failed, and by nothing else |
| KvLaws.LastWriteHolds | kv/kv.go:50-101 | After any commands a key holds what the last of them that wrote it wrote, and its version counts the writes since it was last deleted |
| KvStore.StateMachine.Apply | kv/kv.go:57-71 | The session table decides between executing, replaying and refusing |
| KvStore.StateMachine.Execute | kv/kv.go:73-101 | Get, put, delete and compare-and-set, with their answers and versions |
| KvStore.StateMachine.CompareAndSet | kv/kv.go:111-129 | Nil asks for absence; otherwise contents are compared, not versions |
| KvStore.StateMachine.Snapshot | kv/kv.go:147-187 | The bytes are the state in ascending order, whatever order the maps are walked in |
| KvStore.StateMachine.Restore | kv/kv.go:189-264 | The decoded state, or an unchanged machine if the payload is refused |
| KvSnapshot.SnapshotRoundTrip | kv/kv.go:189-264 | Restoring a snapshot gives the machine it was taken of; the count guards never refuse it |
| KvSnapshot.SnapshotUnambiguous | kv/kv.go:189-264 | No strict prefix or extension of a snapshot is accepted, and nothing of another version |
| KvSnapshot.SnapshotDeterministic | kv/kv.go:147-155 | Equal states have equal snapshots |
| KvCodec.CommandRoundTrip | kv/command.go:68-126 | Decoding inverts encoding |
| KvCodec.CommandStrict | kv/command.go:87-126 | Encoding inverts every accepted decoding |
| KvCodec.CommandUnambiguous | kv/command.go:87-88 | No strict prefix or extension of an encoding is accepted |
| KvCodec.ReadOptBack | kv/codec.go:34-43 | Nil and empty come back apart |
| KvCodec.ReadOptStrict | kv/codec.go:102-127 | A flagged slice is accepted only in its own encoding |
| ByteFormats.CommandBytes | kv/command.go:64-86 | Where version, operation, client, sequence number, key and the two slices of a command stand, and the codes of the operations |
| ByteFormats.SliceBytes | kv/codec.go:34-43 | A slice is one byte 0 if nil, else the byte 1, its length in four bytes and its content |
| ByteFormats.SnapshotBytes | kv/kv.go:147-187 | A snapshot is the version, the sessions' count and the sessions, the keys' count and the keys |
| ByteFormats.SessionBytes | kv/kv.go:163-172 | Where the parts of a session stand |
| ByteFormats.KeyBytes | kv/kv.go:173-186 | Where the parts of a key's record stand |
| ByteFormats.StatusCodes | kv/command.go:40-53 | The codes of the statuses |
| KvStore.Decoder.ReadNumber | kv/codec.go:63-79 | The cursor reads an integer or reports truncation |
| KvStore.Decoder.ReadText | kv/codec.go:90-100 | The cursor reads a string or reports truncation |
| KvStore.Decoder.ReadSlice | kv/codec.go:102-127 | The cursor reads a flagged slice or refuses the flag |
| KvStore.Decode | kv/command.go:87-126 | The cursor accepts exactly the specified commands |
| Ordering.ListingUnique | kv/kv.go:163-178 | A set has one ascending listing |
| Ordering.BeforeMeans | kv/kv.go:173-178 | Keys are in byte order: shorter before its extensions, else by the first byte that differs |
| Ordering.Sort | kv/kv.go:159-178 | Any order of iteration gives the ascending listing |
| KvReplica.Replica.ApplyEntry | sim/loop.go:211-235 | An applied entry is skipped, the next takes effect: the effect KvReplica.CommandTakesEffect and KvReplica.NoEffect describe |
| KvReplica.Replica.Compact | sim/loop.go:169-209 | The snapshot taken encodes the applied state |
| KvReplica.Replica.CrashAndRestart | server/server.go:179-190 | A restart stands on the snapshot, or fails exactly if it does not decode |
| KvReplica.Replica.Install | server/drive.go:121-131 | A received snapshot replaces the state, or fails exactly if it does not decode |
| KvReplica.StateIsRun | server/drive.go:165-187 | The state a log prescribes is that of running, in order, the commands decoded from its normal non-empty entries |
| KvReplica.CommandTakesEffect | sim/loop.go:211-235 | A normal entry with the encoding of a command, appended to any log, applies the command |
| KvReplica.NoEffect | sim/loop.go:211-235 | Any other entry leaves the state as it was |
| KvReplica.CaughtUpStands | server/drive.go:132-134 | Applying committed entries leaves the state the log prescribes, which is that of running its commands (KvReplica.StateIsRun) |
| KvReplica.ReceivedStands | server/drive.go:121-131 | A snapshot taken along a log decodes, and gives the state the log prescribes at its index |
| KvReplica.RestartedStands | server/server.go:179-190 | So does the snapshot a restart finds |
| KvReplica.ReplicasAgree | kv/kv.go:5-9 | Replicas at one index of comparable logs hold the same store and sessions and answer alike, however they got there |
| KvCluster.StoresStand | server/drive.go:121-139 | At every moment of every run every store is what its node's log prescribes at the applied index, which is committed; no store stops on bytes it cannot decode; every snapshot message carries bytes that decode to the state of the log it stands for |
| KvCluster.StoresExactlyOnce | kv/kv.go:50-71 | At every moment of every run every store holds what executing each client's commands once gives, in the order of the log up to its applied index, where their sequence numbers first rose |
| KvCluster.DrainApplies | server/drive.go:121-139 | Every input served leaves the store at the node's commit index |
| KvCluster.StoresAgree | kv/kv.go:5-9 | The stores of any two nodes, at any two moments of a run, that have applied the same number of entries are equal and answer alike, through compactions, restarts, torn drains and snapshots |
| KvCluster.ReadsSeeCommits | server/drive.go:190-225 | A released read that any store answers, once it has applied the read's index, is answered from a state that includes everything any node had committed when the read was asked |
| KvReplica.StateFits | kv/kv.go:147-187 | Every state a log can produce fits the snapshot encoding |
| KvLin.ModelAgrees | sim/lin/lin.go:178-278 | The model accepts exactly the answers that look like the machine's, moves exactly as the machine's key, and no other key moves |
| KvLin.UnknownAllowsBoth | sim/lin/lin.go:212-219 | An operation nobody saw finish may or may not have happened, and nothing else |
| KvLin.SerialRunAccepted | sim/lin/lin.go:120-135 | Every serial run of the machine is accepted key by key and leaves the model in the machine's state |
| LeaderCheck.Checker.Check | sim/invariants.go:359-491 | After any checks and storage changes, the memoised check gives the verdict of folding every record of every peer from nothing and scanning every leader, whose meaning is LeaderVerdict.VerdictMeans |
| LeaderVerdict.VerdictMeans | sim/invariants.go:359-491 | The verdict is a divergence exactly if two records of one index contradict each other; it passes exactly if none do and every live leader durably holds, with the known term and digest, every index with a record that must not be after its term; else it names the first leader in peer order that lacks one and the least index it lacks |
| LeaderVerdict.LeaderMeans | sim/invariants.go:433-489 | One scan finds the least index that a leader lacks, if there is one |
| LeaderCheck.ReadOnIsRescan | sim/invariants.go:365-413 | Folding only what is past the cursors, onto what was folded before, gives exactly what folding every record from nothing gives, a divergence included |
| LeaderCheck.FoldPeersSums | sim/invariants.go:376-411 | A fold of records goes through exactly if no two contradict each other, and sums up what any of them knows with the least commit term, whatever their order |
| LeaderCheck.ReadsEvolve | sim/node.go:115-133 | Records that are added, or filled in and repeated, keep a reader up to date |
| LeaderCheck.Checker.CheckLeader | sim/invariants.go:433-489 | A skipped scan would have passed; what a scan finds is LeaderVerdict.LeaderMeans |
| LeaderCheck.Checker.DurableMarks | sim/invariants.go:262-307 | The cached view is the current one |
| LeaderCheck.Checker.FoldRecord | sim/invariants.go:376-411 | A record is added, merged or clashes; every change raises the version |
| LeaderCheck.Checker.FoldCluster | sim/invariants.go:365-413 | New records of all peers are folded from their cursors, and the reader stays up to date, also when a record clashes |
| LeaderCheck.Checker.SortIndexes | sim/invariants.go:415-428 | The cached index list is the ascending listing of what is committed |
| LeaderCheck.VerdictUnique | sim/invariants.go:428-484 | There is one verdict |
| TrackedStorage.Tracked.AppendEntries | sim/node.go:79-85 | What is stored is spliced as the storage does it and the generation raised; a gap changes nothing |
| TrackedStorage.Tracked.ApplySnapshot | sim/node.go:87-108 | The storage takes the snapshot; every newly covered index gets a record, with a term only at the boundary |
| TrackedStorage.Tracked.SetHardState | sim/node.go:110-157 | A commit that advances records each index with its term, digest and commit term as far as they are known, failing exactly if an entry is missing; any other enriches |
| TrackedStorage.Tracked.Enrich | sim/node.go:115-133 | Every record up to the commit index without a commit term is given it, and all of these are repeated at the end in order |
| TrackedStorage.EnrichedGrows | sim/node.go:115-133 | So every record filled in is also shown to a reader that has gone past it, and no record says anything else than before |
| CommitRecords.CommitRecorded | sim/node.go:135-157 | A hard state that moves the durable commit index adds one record for each index it moves past, in order, with the entry's term and digest, or the boundary's term, or the bare index, and the commit term; it adds none and fails exactly if the log ends before it |
| CommitRecords.SnapshotRecorded | sim/node.go:87-108 | A newer snapshot adds one record for each index it commits, with a term at its own index only and no commit term |
| CommitRecords.EnrichmentRecorded | sim/node.go:118-133 | Any other hard state gives its term to exactly the records up to its commit index that lack one, and repeats exactly those at the end, in order |
| CommitRecords.ShownToCheck | sim/invariants.go:262-307 | The check is shown the term and digest of the entry stored at each index above the boundary, and nothing at any other |
| TrackedStorage.StepMoves | sim/node.go:79-157 | Any mutation, taken or refused, changes what the check sees only by raising the generation, and the records only by growing |
| TrackedStorage.Tracked.Mutate | sim/node.go:79-157 | A mutation is taken or refused, and moves what is stored, the records and the generation, exactly as the value-level step says |
| TrackedStorage.TraceEvolves | sim/node.go:79-157 | Whatever the turns, each cluster a check sees has evolved from the one before them |
| TrackedStorage.Session | sim/invariants.go:359-364 | Any sequence of mutations and checks: the storages end where the value-level trace of the turns ends, each check is shown exactly the cluster of that trace at its turn, and gives the verdict of a full rescan of it |
| TrackedStorage.Tracked.AdvanceRecords | sim/node.go:135-157 | For each newly committed index the record of its entry, of the snapshot's boundary, or of the bare index; fails exactly when one is unavailable |

## Left out

- gRPC transport, protocol buffers, client library, command-line programs and flags: no logic of their own.
- The server's client waiters, leadership-loss cleanup and read deferral: bookkeeping around the properties proved here.
- File-system calls: files are byte sequences, a rename is atomic, and a crash keeps a prefix of an unfinished write.
- Corruption of bytes already written: only truncation is modelled, so nothing is assumed of CRC32C.
- The unsafe no-sync mode, which gives up durability on purpose.
- Liveness, timing and the randomised election timeout: only safety is stated.
- Wrap-around of 64-bit terms, indices, versions and counters: natural numbers, except for the widths in the encodings.
- Porcupine's search and the rest of the simulator: scheduling, workloads, fault injection and traces.
- The other run-time checks of the simulator (election safety, applied prefix, log matching): they look at single states, and the theorems on runs are stronger.
- DiskStorage.CrashKeeps: records of 4 GiB and more, whose length a frame cannot say, are excluded by precondition, as are snapshots of that size in DiskStorage.Storage.ApplySnapshot.
- DiskStorage.CrashInInstall: a snapshot over 64 MiB, whose file recovery passes over, is excluded by precondition.
- KvCluster.StoresStand: logs of 2^64 entries and more are excluded by precondition.
- RaftSafety.MatchSoundness: a sufficient condition; the exact one is RaftSafety.MatchExactly.
- RaftObject.Raft.Step: works on the log as a plain sequence; the split log is the separate object of SplitLog, and PlainLog ties the two together.
- ReadyLoop.Driver.Decide: takes over what the core has decided; the decision itself is RaftObject's. The messages by which a leader replicates are handled by the driver's own methods, replies included.
- ClusterRuns.WorldIsRun: one input hands over one batch, as draining after every input makes it.
