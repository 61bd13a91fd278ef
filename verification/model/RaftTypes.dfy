/** The values the consensus core works on: log entries, wire messages and a
    node's state. A node's log is kept whole: compaction raises `snapIndex`,
    which hides a prefix from the node's own lookups and never forgets it. A
    snapshot is represented by the log prefix it summarises. */
module RaftTypes {

  datatype Option<T> = None | Some(value: T)

  type Byte = x: int | 0 <= x < 256
  type Bytes = seq<Byte>

  /** Node identifiers are positive; `NONE` stands for "no node". */
  type NodeId = nat
  const NONE: NodeId := 0

  /** An opaque correlation token; the empty token confirms nothing. */
  type Context = Bytes

  // `Other` is a type byte the core never writes but storage would read back.
  datatype EntryKind = Normal | Noop | Other(code: Byte)

  datatype Entry = Entry(term: nat, index: nat, kind: EntryKind, data: Bytes)

  type Log = seq<Entry>

  datatype Message =
    | PreVote(from: NodeId, to: NodeId, term: nat, logIndex: nat, logTerm: nat)
    | PreVoteResp(from: NodeId, to: NodeId, term: nat, reject: bool)
    | Vote(from: NodeId, to: NodeId, term: nat, logIndex: nat, logTerm: nat)
    | VoteResp(from: NodeId, to: NodeId, term: nat, reject: bool)
    | Append(from: NodeId, to: NodeId, term: nat, logIndex: nat, logTerm: nat, entries: Log, commit: nat)
    | AppendResp(from: NodeId, to: NodeId, term: nat, logIndex: nat, reject: bool, rejectHint: nat, hintTerm: nat)
    | Heartbeat(from: NodeId, to: NodeId, term: nat, commit: nat, context: Context)
    | HeartbeatResp(from: NodeId, to: NodeId, term: nat, context: Context)
    | InstallSnapshot(from: NodeId, to: NodeId, term: nat, prefix: Log)
    | InstallSnapshotResp(from: NodeId, to: NodeId, term: nat, logIndex: nat)

  datatype ReadState = ReadState(index: nat, context: Context)

  datatype Role = Follower | PreCandidate | Candidate | Leader

  /** How far one follower is known to be replicated (`matched`), and the next
      index to send it. */
  datatype Progress = Progress(matched: nat, next: nat)

  datatype ReadStatus = ReadStatus(index: nat, acks: set<NodeId>)

  datatype ReadOnly = ReadOnly(pending: map<Context, ReadStatus>, queue: seq<Context>)

  const NO_READS := ReadOnly(map[], [])

  datatype Config = Config(peers: seq<NodeId>, maxEntries: nat, preVote: bool)

  datatype Node = Node(
    id: NodeId,
    // Durable.
    term: nat, vote: NodeId, log: Log, snapIndex: nat,
    // Volatile; a lower `committed` may be recovered after a crash.
    committed: nat,
    role: Role, lead: NodeId,
    prs: map<NodeId, Progress>, votes: map<NodeId, bool>,
    readOnly: ReadOnly, gated: seq<Context>,
    // Output queues, emptied by the driver.
    msgs: seq<Message>, readStates: seq<ReadState>,
    // Read tokens the driver has handed to this process; it never repeats one.
    issued: set<Context>,
    // Set once any of the core's panics is reached, and never cleared.
    panicked: bool)

  function Min(a: nat, b: nat): nat { if a < b then a else b }

  function Max(a: nat, b: nat): nat { if a < b then b else a }

  function PeerSet(cfg: Config): set<NodeId> { set i | 0 <= i < |cfg.peers| :: cfg.peers[i] }

  function Quorum(cfg: Config): nat { |cfg.peers| / 2 + 1 }

  /** What `Config.validate` accepts about the membership. */
  predicate ValidConfig(cfg: Config) {
    && |cfg.peers| > 0
    && (forall i | 0 <= i < |cfg.peers| :: cfg.peers[i] != NONE)
    && (forall i, j | 0 <= i < j < |cfg.peers| :: cfg.peers[i] != cfg.peers[j])
  }

  function LastTerm(log: Log): nat {
    if log == [] then 0 else log[|log| - 1].term
  }
}
