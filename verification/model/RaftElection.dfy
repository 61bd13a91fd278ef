/** Campaigns, votes and won elections. */
module RaftElection {
  import opened RaftTypes
  import opened RaftCore
  import opened RaftHistory
  import opened RaftInvariant
  import opened RaftReads
  import opened RaftReplication
  import opened RaftLeader
  import opened RaftFollower

  // ----- stepping down -----

  /** Giving up a role, possibly in a later term, keeps everything. */
  lemma BecomeFollowerOK(cfg: Config, b: Book, n: Node, term: nat, lead: NodeId)
    requires StepOK(cfg, b, n) && term >= n.term && (term == n.term || n.readStates == [])
    requires lead != NONE ==> term >= 1
    ensures StepOK(cfg, b, BecomeFollower(cfg, n, term, lead))
  {
    hide BookOK, MsgsOK, ClaimsOK, Prov, LeaderOK, CandidateOK;
    var n' := BecomeFollower(cfg, n, term, lead);
    assert n'.prs.Keys == PeerSet(cfg);
    assert ClaimsOfOK(b.h, n') && VotesOK(b.h, n') && ReadStatesOK(b, n');
    assert n'.log[..n'.committed] == n.log[..n.committed];
    assert SeenOK(b.h, n');
  }

  lemma LeadOnly(cfg: Config, b: Book, n: Node, lead: NodeId)
    requires StepOK(cfg, b, n) && n.role.Follower? && n.term >= 1
    ensures StepOK(cfg, b, n.(lead := lead))
  {
    hide BookOK, MsgsOK, ClaimsOK, Prov;
    var n' := n.(lead := lead);
    assert ClaimsOfOK(b.h, n') && VotesOK(b.h, n') && ReadStatesOK(b, n') && SeenOK(b.h, n');
  }

  /** A node that neither leads nor runs, whose role and tally alone changed. */
  lemma TallyOnly(cfg: Config, b: Book, n: Node, n': Node)
    requires StepOK(cfg, b, n) && !n.role.Leader? && (n'.role.PreCandidate? || n'.role.Follower?)
    requires n' == n.(role := n'.role, votes := n'.votes, lead := NONE) || (n' == n.(votes := n'.votes))
    ensures StepOK(cfg, b, n')
  {
    hide BookOK, MsgsOK, ClaimsOK, Prov, CandidateOK;
    assert ClaimsOfOK(b.h, n') && VotesOK(b.h, n') && ReadStatesOK(b, n') && SeenOK(b.h, n');
  }

  // ----- campaigning -----

  /** The history after node `c` starts a campaign at `t` with `log`. */
  function WithBid(h: History, c: NodeId, t: nat, log: Log): History {
    h.(bids := h.bids[(c, t) := Bid(log, h.count)], grants := h.grants[(c, t) := Grant(c, log, h.count)])
  }

  lemma BidHist(cfg: Config, h: History, n: Node)
    requires HistOK(cfg, h) && Shape(cfg, n) && VotesOK(h, n) && ClaimsOfOK(h, n) && Prov(h, h.count, n.log)
    ensures var h' := WithBid(h, n.id, n.term + 1, n.log);
      HistOK(cfg, h') && Extends(h, h') && HistFrame(h, h', n.id)
  {
    hide GrantOK, BidOK, ClaimOK, ElectionOK, CommitsOK;
    var t := n.term + 1;
    var h' := WithBid(h, n.id, t, n.log);
    assert Extends(h, h') by { BidExtends(h, n); }
    ElectionsStable(cfg, h, h');
    OwnGrant(cfg, h, n, h');
    OwnBid(cfg, h, n, h');
    GrantsStable(cfg, h, h');
    BidsStable(h, h');
    CommitsStable(cfg, h, h');
  }

  lemma BidExtends(h: History, n: Node)
    requires VotesOK(h, n)
    ensures Extends(h, WithBid(h, n.id, n.term + 1, n.log))
  {
  }

  lemma OwnGrant(cfg: Config, h: History, n: Node, h': History)
    requires ElectionsOK(cfg, h) && ElectionsOK(cfg, h') && Extends(h, h') && Shape(cfg, n) && ClaimsOfOK(h, n)
    requires Prov(h, h.count, n.log)
    requires h' == WithBid(h, n.id, n.term + 1, n.log)
    ensures GrantOK(cfg, h', n.id, n.term + 1)
  {
    ProvStable(h, h', h.count, h.count, n.log);
    forall t0 | (n.id, t0) in h'.claims && t0 < n.term + 1
      ensures ClaimsOK(h', h.count, n.log, t0, h'.claims[(n.id, t0)])
    {
      ClaimsStable(cfg, h, h', h.count, h.count, n.log, t0, h.claims[(n.id, t0)]);
    }
  }

  lemma OwnBid(cfg: Config, h: History, n: Node, h': History)
    requires HistOK(cfg, h) && Extends(h, h') && VotesOK(h, n) && Prov(h, h.count, n.log)
    requires h' == WithBid(h, n.id, n.term + 1, n.log)
    ensures BidOK(h', n.id, n.term + 1)
  {
    hide BidsOK, CommitsOK, ClaimKeysOK, ClaimsOK;
    var t := n.term + 1;
    ProvStable(h, h', h.count, h.count, n.log);
    ProvWellFormed(cfg, h, h.count, n.log);
    forall t2 | t2 in h'.el && h'.el[t2].ord < h.count && t2 >= t ensures Blocked(h', n.id, t, t2) {
      forall v | v in h'.el[t2].voters && (v, t) in h'.grants ensures h'.grants[(v, t)].cand != n.id {
        assert ElectionOK(cfg, h, t2);
        assert v != n.id;
        assert (v, t) in h.grants && GrantOK(cfg, h, v, t);
      }
    }
  }

  /** What a fresh candidate looks like. */
  function Candidacy(cfg: Config, n: Node): Node {
    RecordVote(Reset(cfg, n, n.term + 1).(vote := n.id, role := Candidate), n.id, true)
  }

  lemma CandidacyBook(cfg: Config, b: Book, n: Node)
    requires BookOK(cfg, b) && Shape(cfg, n) && VotesOK(b.h, n) && ClaimsOfOK(b.h, n) && Prov(b.h, b.h.count, n.log)
    ensures var b' := b.(h := WithBid(b.h, n.id, n.term + 1, n.log)); BookOK(cfg, b') && Frame(b, b', n.id)
  {
    hide HistOK, VotesOK, ClaimsOfOK, Prov, Reached;
    var b' := b.(h := WithBid(b.h, n.id, n.term + 1, n.log));
    BidHist(cfg, b.h, n);
    assert Reached(b.h, b.h.count, b.top);
    ReachedStable(b.h, b'.h, b.h.count, b.top);
    AsksStable(b, b');
    HiddenStable(b, b');
  }

  lemma CandidacyVotes(h: History, n: Node, n': Node)
    requires VotesOK(h, n) && n'.id == n.id && n'.term == n.term + 1 && n'.vote == n.id
    ensures VotesOK(WithBid(h, n.id, n.term + 1, n.log), n')
  {
  }

  lemma CandidacyClaims(cfg: Config, h: History, h': History, n: Node, n': Node)
    requires ClaimsOfOK(h, n) && n'.id == n.id && n'.term >= n.term && n'.log == n.log
    requires ElectionsOK(cfg, h) && ElectionsOK(cfg, h') && Extends(h, h') && h'.claims == h.claims
    ensures ClaimsOfOK(h', n')
  {
    hide ElectionsOK, ClaimsOK;
    ClaimsOfStable(cfg, h, h', n);
  }

  lemma CandidacySeen(cfg: Config, h: History, n: Node, n': Node)
    requires ElectionsOK(cfg, h) && Shape(cfg, n) && SeenOK(h, n)
    requires n' == Candidacy(cfg, n) && n'.committed <= |n'.log|
    ensures var h' := WithBid(h, n.id, n.term + 1, n.log); SeenOK(h', n') && CandidateOK(h', n')
  {
    var h' := WithBid(h, n.id, n.term + 1, n.log);
    if n.committed > 0 {
      var t: nat :| SeenBy(h, n.log[..n.committed], t) && (t <= n.term || n.committed <= n.snapIndex);
      assert ElectionOK(cfg, h, t);
      assert SeenBy(h', n'.log[..n'.committed], t) && h'.el[t].ord < h'.bids[(n'.id, n'.term)].ord;
    }
  }

  lemma CandidacyOK(cfg: Config, b: Book, n: Node) returns (b': Book)
    requires StepOK(cfg, b, n) && n.readStates == []
    ensures StepOK(cfg, b', Candidacy(cfg, n)) && Frame(b, b', n.id)
  {
    hide StepOK, HistOK, AsksOK, HiddenOK, VotesOK, ClaimsOfOK, Prov, MsgsOK, ElectionsOK, SeenOK, CandidateOK,
         HistFrame, ReadFrame, Extends;
    Parts(cfg, b, n);
    Follows(cfg, b, n);
    var n' := Candidacy(cfg, n);
    b' := b.(h := WithBid(b.h, n.id, n.term + 1, n.log));
    CandidacyBook(cfg, b, n);
    Elections(cfg, b.h);
    Elections(cfg, b'.h);
    CandidacyVotes(b.h, n, n');
    CandidacyClaims(cfg, b.h, b'.h, n, n');
    CandidacySeen(cfg, b.h, n, n');
    ProvStable(b.h, b'.h, b.h.count, b'.h.count, n.log);
    MsgsStable(cfg, b, b', n.msgs);
    assert n'.prs.Keys == PeerSet(cfg);
    Join(cfg, b', n');
  }

  lemma {:induction false} AskVotesOK(cfg: Config, b: Book, n: Node, peers: seq<NodeId>, pre: bool)
    requires StepOK(cfg, b, n) && (!pre ==> n.role.Candidate? && n.term >= 1)
    requires forall i | 0 <= i < |peers| :: peers[i] in PeerSet(cfg)
    ensures StepOK(cfg, b, AskVotes(n, peers, pre))
    decreases peers
  {
    hide StepOK, PeerSet;
    if peers != [] {
      if peers[0] == n.id {
        AskVotesOK(cfg, b, n, peers[1..], pre);
      } else {
        var m := if pre then PreVote(n.id, peers[0], n.term + 1, |n.log|, TermAt(n, |n.log|))
                 else Vote(n.id, peers[0], n.term, |n.log|, TermAt(n, |n.log|));
        AskOK(cfg, b, n, peers[0], pre, m);
        SendOK(cfg, b, n, m);
        AskVotesOK(cfg, b, Send(n, m), peers[1..], pre);
      }
    }
  }

  lemma AskOK(cfg: Config, b: Book, n: Node, to: NodeId, pre: bool, m: Message)
    requires StepOK(cfg, b, n) && to in PeerSet(cfg) && (!pre ==> n.role.Candidate? && n.term >= 1)
    requires m == if pre then PreVote(n.id, to, n.term + 1, |n.log|, TermAt(n, |n.log|))
                  else Vote(n.id, to, n.term, |n.log|, TermAt(n, |n.log|))
    ensures MsgOK(cfg, b, m)
  {
    hide BookOK, MsgsOK, ClaimsOfOK, VotesOK;
  }

  // ----- winning -----

  /** The history after candidate `n` wins with the votes it has counted. */
  function WithElection(h: History, n: Node, log: Log): History {
    WithClaim(h.(el := h.el[n.term := Election(n.id, Granted(n), n.log, log, n.committed, h.count)], count := h.count + 1),
              n.id, n.term, |log|)
  }

  /** A candidate with a quorum of votes is the first winner of its term, and
      every election won before its campaign began was for an earlier term. */
  lemma WinnerIsNew(cfg: Config, h: History, n: Node, t2: nat)
    requires ValidConfig(cfg) && ElectionsOK(cfg, h) && BidsOK(h) && VotesOK(h, n) && n.committed <= |n.log|
    requires CandidateOK(h, n)
    requires n.role.Candidate? && IsQuorum(cfg, Granted(n)) && t2 in h.el
    ensures t2 != n.term
    ensures h.el[t2].ord < h.bids[(n.id, n.term)].ord ==> t2 < n.term
  {
    assert ElectionOK(cfg, h, t2);
    var v := QuorumsMeet(cfg, Granted(n), h.el[t2].voters);
    assert BidOK(h, n.id, n.term);
  }

  lemma GrantedQuorum(cfg: Config, h: History, n: Node)
    requires GrantsOK(cfg, h) && n.committed <= |n.log| && CandidateOK(h, n) && |Granted(n)| >= Quorum(cfg)
    ensures IsQuorum(cfg, Granted(n))
  {
    hide ClaimsOK;
    forall v | v in Granted(n) ensures v in PeerSet(cfg) {
      assert GrantOK(cfg, h, v, n.term);
    }
  }

  predicate IsWinner(cfg: Config, h: History, n: Node) {
    && n.role.Candidate? && n.id in PeerSet(cfg) && n.committed <= |n.log|
    && IsQuorum(cfg, Granted(n)) && n.term !in h.el && (n.id, n.term) in h.bids
    && h.bids[(n.id, n.term)].log == n.log
    && (forall v | v in Granted(n) :: (v, n.term) in h.grants && h.grants[(v, n.term)].cand == n.id)
    && (forall t2 | t2 in h.el && h.el[t2].ord < h.bids[(n.id, n.term)].ord :: t2 < n.term)
  }

  lemma Winner(cfg: Config, h: History, n: Node)
    requires ValidConfig(cfg) && HistOK(cfg, h) && Shape(cfg, n) && VotesOK(h, n) && CandidateOK(h, n)
    requires n.role.Candidate? && |Granted(n)| >= Quorum(cfg)
    ensures IsWinner(cfg, h, n)
  {
    hide ElectionsOK, GrantsOK, BidsOK, ClaimKeysOK, CommitsOK, VotesOK;
    GrantedQuorum(cfg, h, n);
    forall t2 | t2 in h.el
      ensures t2 != n.term && (h.el[t2].ord < h.bids[(n.id, n.term)].ord ==> t2 < n.term)
    {
      WinnerIsNew(cfg, h, n, t2);
    }
  }

  lemma WonElection(cfg: Config, h: History, n: Node, log: Log, h': History)
    requires GrantsOK(cfg, h) && BidsOK(h) && IsWinner(cfg, h, n) && Extends(h, h')
    requires OwnTail(n.term, n.log, log) && |n.log| < |log|
    requires h' == WithElection(h, n, log)
    ensures ElectionOK(cfg, h', n.term)
  {
    hide ClaimsOK, Blocked;
    var t := n.term;
    assert BidOK(h, n.id, t);
    ProvStable(h, h', h.bids[(n.id, t)].ord, h.count, n.log);
    forall v | v in Granted(n) ensures h'.grants[(v, t)].ord <= h.count {
      assert GrantOK(cfg, h, v, t);
    }
    forall p | 0 <= p < |log| ensures log[p].index == p + 1 && log[p].term >= 1 {
      if p < |n.log| { assert log[p] == n.log[p]; }
    }
  }

  lemma WonBacked(cfg: Config, h: History, n: Node, log: Log, h': History)
    requires ElectionsOK(cfg, h) && CommitsOK(cfg, h) && n.committed <= |n.log| && CandidateOK(h, n)
    requires IsWinner(cfg, h, n)
    requires Extends(h, h') && n.log <= log
    ensures Backed(cfg, h', n.term, log[..n.committed])
  {
    hide ElectionsOK, Committed, Granted;
    if n.committed > 0 {
      var c := n.log[..n.committed];
      assert log[..n.committed] == c;
      var t: nat :| SeenBy(h, c, t) && h.el[t].ord < h.bids[(n.id, n.term)].ord;
      var seen := h.el[t].log[..h.el[t].commit];
      assert c <= seen && seen != [];
      var t0: nat, m: nat :| t0 <= t && CommittedBy(cfg, h, t0, m, seen);
      CommittedIndex(cfg, h, t0, m);
      assert CommittedBy(cfg, h, t0, m, c) by { PrefixOfPrefix(c, seen, h.el[t0].log[..m]); }
      assert Backed(cfg, h, n.term, c);
      BackedStable(cfg, h, h', n.term, c);
    }
  }

  lemma PrefixOfPrefix(a: Log, c: Log, d: Log)
    requires a <= c && c <= d
    ensures a <= d
  {
  }

  lemma WonExtends(cfg: Config, h: History, n: Node, log: Log)
    requires IsWinner(cfg, h, n)
    ensures Extends(h, WithElection(h, n, log)) && HistFrame(h, WithElection(h, n, log), n.id)
  {
  }

  lemma WonHist(cfg: Config, h: History, n: Node, log: Log)
    requires HistOK(cfg, h) && VotesOK(h, n) && n.committed <= |n.log| && CandidateOK(h, n) && IsWinner(cfg, h, n)
    requires OwnTail(n.term, n.log, log) && |n.log| < |log|
    ensures var h' := WithElection(h, n, log); HistOK(cfg, h') && Extends(h, h') && HistFrame(h, h', n.id)
  {
    hide GrantsOK, BidsOK, ClaimOK, ElectionOK, CommitsOK, GrantOK, BidOK, OwnTail, Backed, CandidateOK, Granted;
    var h' := WithElection(h, n, log);
    WonExtends(cfg, h, n, log);
    WonElection(cfg, h, n, log, h');
    ElectionsStable(cfg, h, h');
    LogClaims(h, n, h');
    GrantsStable(cfg, h, h');
    BidsStable(h, h');
    assert ClaimKeysOK(cfg, h');
    TailPrefix(n.term, n.log, log);
    WonBacked(cfg, h, n, log, h');
    assert NewCommitsBacked(cfg, h, h');
    CommitsStable(cfg, h, h');
  }

  lemma WonBook(cfg: Config, b: Book, n: Node, log: Log)
    requires BookOK(cfg, b) && VotesOK(b.h, n) && n.committed <= |n.log| && CandidateOK(b.h, n) && IsWinner(cfg, b.h, n)
    requires OwnTail(n.term, n.log, log) && |n.log| < |log|
    ensures var b' := b.(h := WithElection(b.h, n, log)); BookOK(cfg, b') && Frame(b, b', n.id)
  {
    hide HistOK, VotesOK, OwnTail, CandidateOK, IsWinner, Reached, HistFrame;
    var b' := b.(h := WithElection(b.h, n, log));
    WonHist(cfg, b.h, n, log);
    assert Reached(b.h, b.h.count, b.top);
    ReachedStable(b.h, b'.h, b.h.count, b.top);
    ReachedLater(b'.h, b.h.count, b'.h.count, b.top);
    AsksStable(b, b');
    WonHidden(cfg, b, n, log, b');
  }

  lemma WonHidden(cfg: Config, b: Book, n: Node, log: Log, b': Book)
    requires HistOK(cfg, b.h) && HiddenOK(b) && IsWinner(cfg, b.h, n) && BookExtends(b, b')
    requires b' == b.(h := WithElection(b.h, n, log))
    ensures HiddenOK(b')
  {
    hide ElectionsOK, GrantsOK, BidsOK, CommitsOK, Granted;
    HiddenStable(b, b');
  }

  /** The winner once it has appended its no-op, before it tries to commit. */
  function NewLeader(cfg: Config, n: Node, log: Log): Node
    requires n.id in PeerSet(cfg)
  {
    var r := Reset(cfg, n, n.term).(lead := n.id, role := Leader);
    r.(log := log, prs := r.prs[n.id := MaybeUpdate(r.prs[n.id], |log|)])
  }

  lemma WonClaims(cfg: Config, h: History, n: Node, log: Log, n': Node)
    requires ElectionsOK(cfg, h) && ClaimsOfOK(h, n) && n.log <= log
    requires ElectionsOK(cfg, WithElection(h, n, log)) && Extends(h, WithElection(h, n, log))
    requires n'.id == n.id && n'.term == n.term && n'.log == log
    ensures ClaimsOfOK(WithElection(h, n, log), n')
  {
    hide ElectionsOK, Extends, ClaimOK, Granted;
    var h' := WithElection(h, n, log);
    forall t | (n.id, t) in h'.claims
      ensures t <= n.term && t in h'.el && ClaimsOK(h', h'.count, log, t, h'.claims[(n.id, t)])
    {
      if (n.id, t) in h.claims {
        ClaimsStable(cfg, h, h', h.count, h'.count, n.log, t, h.claims[(n.id, t)]);
        ClaimsLonger(h', h'.count, n.log, log, t, h.claims[(n.id, t)]);
      }
      if t == n.term { OwnLogClaims(h', h'.count, log, t); }
    }
  }

  lemma WonLeads(cfg: Config, b: Book, n: Node, log: Log)
    requires AsksOK(b) && n.id in PeerSet(cfg) && n.term !in b.h.el && n.term >= 1 && n.log <= log
    ensures LeaderOK(cfg, b.(h := WithElection(b.h, n, log)), NewLeader(cfg, n, log))
  {
    var n' := NewLeader(cfg, n, log);
    var h' := WithElection(b.h, n, log);
    forall f | f in n'.prs ensures ProgressOK(h', n', f) {
    }
  }

  lemma WonVotes(h: History, n: Node, log: Log, n': Node)
    requires VotesOK(h, n) && n'.id == n.id && n'.term == n.term && n'.vote == n.vote && n'.role.Leader?
    ensures VotesOK(WithElection(h, n, log), n')
  {
  }

  lemma WonOK(cfg: Config, b: Book, n: Node, log: Log) returns (b': Book)
    requires StepOK(cfg, b, n) && n.role.Candidate? && |Granted(n)| >= Quorum(cfg)
    requires OwnTail(n.term, n.log, log) && |n.log| < |log|
    ensures n.id in PeerSet(cfg)
    ensures StepOK(cfg, b', NewLeader(cfg, n, log)) && Frame(b, b', n.id)
  {
    hide StepOK, HistOK, AsksOK, HiddenOK, VotesOK, ClaimsOfOK, Prov, MsgsOK, ElectionsOK, SeenOK, CandidateOK,
         LeaderOK, ReadStatesOK, IsWinner, OwnTail, HistFrame, ReadFrame, Extends;
    Parts(cfg, b, n);
    Follows(cfg, b, n);
    Winner(cfg, b.h, n);
    var n' := NewLeader(cfg, n, log);
    b' := b.(h := WithElection(b.h, n, log));
    WonBook(cfg, b, n, log);
    TailPrefix(n.term, n.log, log);
    Elections(cfg, b.h);
    Elections(cfg, b'.h);
    WonTerm(cfg, b.h, n);
    WonClaims(cfg, b.h, n, log, n');
    WonVotes(b.h, n, log, n');
    WonLeads(cfg, b, n, log);
    GrownProv(cfg, b'.h, n.term, log);
    WonSeen(b.h, n, log, n');
    ReadStatesStable(b, b', n);
    MovedReads(b', n, n');
    MsgsStable(cfg, b, b', n.msgs);
    assert n'.prs.Keys == PeerSet(cfg);
    Join(cfg, b', n');
  }

  lemma WonTerm(cfg: Config, h: History, n: Node)
    requires IsWinner(cfg, h, n) && HistOK(cfg, h)
    ensures n.term !in h.el && n.term >= 1
  {
    assert BidOK(h, n.id, n.term);
  }

  lemma WonSeen(h: History, n: Node, log: Log, n': Node)
    requires n.committed <= |n.log| && n.log <= log
    requires n'.log == log && n'.committed == n.committed && n'.term == n.term
    ensures SeenOK(WithElection(h, n, log), n')
  {
    if n.committed > 0 { assert SeenBy(WithElection(h, n, log), n'.log[..n'.committed], n.term); }
  }

  lemma BecomeLeaderOK(cfg: Config, b: Book, n: Node) returns (b': Book)
    requires StepOK(cfg, b, n) && n.role.Candidate? && |Granted(n)| >= Quorum(cfg)
    ensures ValidConfig(cfg) && n.id in PeerSet(cfg)
    ensures StepOK(cfg, b', BecomeLeader(cfg, n)) && Frame(b, b', n.id)
    ensures BecomeLeader(cfg, n).role.Leader? && BecomeLeader(cfg, n).id == n.id
  {
    hide StepOK, Frame, HistOK, AsksOK, HiddenOK, OwnTail, MaybeCommit, Granted;
    Facts(cfg, b, n);
    var log := n.log + Stamp(n.term, |n.log|, [(Noop, [])]);
    StampTail(n.term, n.log, [(Noop, [])]);
    var b1 := WonOK(cfg, b, n, log);
    var n1 := NewLeader(cfg, n, log);
    b' := MaybeCommitOK(cfg, b1, n1);
    FrameTrans(b, b1, b', n.id);
    MaybeCommitRole(cfg, n1);
  }

  lemma SolicitVotesOK(cfg: Config, b: Book, n: Node) returns (b': Book)
    requires StepOK(cfg, b, n) && !n.role.Leader? && n.readStates == []
    ensures ValidConfig(cfg) && n.id in PeerSet(cfg)
    ensures StepOK(cfg, b', SolicitVotes(cfg, BecomeCandidate(cfg, n))) && Frame(b, b', n.id)
  {
    hide StepOK, Frame, HistOK, AsksOK, HiddenOK, BecomeLeader, Granted;
    Facts(cfg, b, n);
    var v := Candidacy(cfg, n);
    var b1 := CandidacyOK(cfg, b, n);
    assert v == RecordVote(BecomeCandidate(cfg, n), n.id, true);
    if |Granted(v)| >= Quorum(cfg) {
      b' := BecomeLeaderOK(cfg, b1, v);
      FrameTrans(b, b1, b', n.id);
    } else {
      b' := b1;
      AskVotesOK(cfg, b1, v, cfg.peers, false);
    }
  }

  lemma CampaignOK(cfg: Config, b: Book, n: Node) returns (b': Book)
    requires StepOK(cfg, b, n) && !n.role.Leader? && n.readStates == []
    ensures ValidConfig(cfg) && n.id in PeerSet(cfg)
    ensures StepOK(cfg, b', Campaign(cfg, n)) && Frame(b, b', n.id)
  {
    hide StepOK, Frame, HistOK, AsksOK, HiddenOK, SolicitVotes, Granted;
    Facts(cfg, b, n);
    if cfg.preVote {
      var v := RecordVote(BecomePreCandidate(n), n.id, true);
      TallyOnly(cfg, b, n, v);
      if |Granted(v)| >= Quorum(cfg) {
        b' := SolicitVotesOK(cfg, b, v);
      } else {
        b' := b;
        FrameSelf(b, n.id);
        AskVotesOK(cfg, b, v, cfg.peers, true);
      }
    } else {
      b' := SolicitVotesOK(cfg, b, n);
    }
  }

  // ----- counting votes -----

  lemma CandidateTally(cfg: Config, b: Book, n: Node, v: NodeId, granted: bool)
    requires StepOK(cfg, b, n) && n.role.Candidate?
    requires granted ==> (v, n.term) in b.h.grants && b.h.grants[(v, n.term)].cand == n.id
    ensures StepOK(cfg, b, RecordVote(n, v, granted))
  {
    hide BookOK, MsgsOK, ClaimsOK, Prov;
    var n' := RecordVote(n, v, granted);
    assert ClaimsOfOK(b.h, n') && VotesOK(b.h, n') && ReadStatesOK(b, n') && SeenOK(b.h, n');
    if n.committed > 0 {
      var t: nat :| SeenBy(b.h, n.log[..n.committed], t) && b.h.el[t].ord < b.h.bids[(n.id, n.term)].ord;
      assert SeenBy(b.h, n'.log[..n'.committed], t);
    }
    assert CandidateOK(b.h, n');
  }

  lemma CountVoteOK(cfg: Config, b: Book, n: Node, m: Message) returns (b': Book)
    requires StepOK(cfg, b, n) && (n.role.PreCandidate? || n.role.Candidate?) && IsMyVoteResp(n, m)
    requires MsgOK(cfg, b, m) && m.to == n.id && (n.role.Candidate? ==> m.term == n.term) && n.readStates == []
    ensures ValidConfig(cfg) && Shape(cfg, n)
    ensures StepOK(cfg, b', CountVote(cfg, n, m)) && Frame(b, b', n.id)
  {
    hide StepOK, Frame, HistOK, AsksOK, HiddenOK, SolicitVotes, BecomeLeader, BcastAppend, Granted, Rejected;
    Facts(cfg, b, n);
    var v := RecordVote(n, m.from, !m.reject);
    if n.role.Candidate? {
      CandidateTally(cfg, b, n, m.from, !m.reject);
    } else {
      TallyOnly(cfg, b, n, v);
    }
    b' := b;
    FrameSelf(b, n.id);
    if |Granted(v)| >= Quorum(cfg) {
      if v.role.PreCandidate? {
        b' := SolicitVotesOK(cfg, b, v);
      } else {
        b' := BecomeLeaderOK(cfg, b, v);
        BcastAppendOK(cfg, b', BecomeLeader(cfg, v), cfg.peers);
      }
    } else if |Rejected(v)| >= Quorum(cfg) {
      BecomeFollowerOK(cfg, b, v, v.term, NONE);
    }
  }

  // ----- voting -----

  function WithGrant(h: History, n: Node, c: NodeId): History {
    h.(grants := h.grants[(n.id, n.term) := Grant(c, n.log, h.count)])
  }

  predicate IsVoteFor(cfg: Config, h: History, n: Node, c: NodeId) {
    && n.vote == NONE && c in PeerSet(cfg) && (c, n.term) in h.bids && UpToDate(h.bids[(c, n.term)].log, n.log)
  }

  lemma NoVoteYet(cfg: Config, h: History, n: Node)
    requires ValidConfig(cfg) && GrantsOK(cfg, h) && VotesOK(h, n) && n.vote == NONE
    ensures (n.id, n.term) !in h.grants
  {
    hide ClaimsOK;
    assert (n.id, n.term) in h.grants ==> GrantOK(cfg, h, n.id, n.term);
  }

  lemma NewGrant(cfg: Config, h: History, n: Node, c: NodeId, h': History)
    requires ElectionsOK(cfg, h) && ElectionsOK(cfg, h') && Extends(h, h') && Shape(cfg, n) && ClaimsOfOK(h, n)
    requires Prov(h, h.count, n.log)
    requires IsVoteFor(cfg, h, n, c) && h' == WithGrant(h, n, c)
    ensures GrantOK(cfg, h', n.id, n.term)
  {
    ProvStable(h, h', h.count, h.count, n.log);
    forall t0 | (n.id, t0) in h'.claims && t0 < n.term
      ensures ClaimsOK(h', h.count, n.log, t0, h'.claims[(n.id, t0)])
    {
      ClaimsStable(cfg, h, h', h.count, h.count, n.log, t0, h.claims[(n.id, t0)]);
    }
  }

  /** A voter of an election at this term or later has already voted in it. */
  lemma FreeVote(cfg: Config, h: History, n: Node, c: NodeId, h': History)
    requires ElectionsOK(cfg, h) && VotesOK(h, n) && (n.id, n.term) !in h.grants && h' == WithGrant(h, n, c)
    ensures forall d, t | (d, t) in h.bids :: NewVotesFree(h, h', d, t)
  {
    forall d, t | (d, t) in h.bids ensures NewVotesFree(h, h', d, t) {
      forall v, t2 | (v, t) in h'.grants && (v, t) !in h.grants && h'.grants[(v, t)].cand == d
        && t2 in h.el && t2 >= t && h.el[t2].ord < h.bids[(d, t)].ord
        ensures v !in h.el[t2].voters
      {
        assert v == n.id && t == n.term;
        assert ElectionOK(cfg, h, t2);
      }
    }
  }

  lemma GrantHist(cfg: Config, h: History, n: Node, c: NodeId)
    requires ValidConfig(cfg) && HistOK(cfg, h) && Shape(cfg, n) && VotesOK(h, n) && ClaimsOfOK(h, n)
    requires Prov(h, h.count, n.log)
    requires IsVoteFor(cfg, h, n, c)
    ensures var h' := WithGrant(h, n, c);
      (n.id, n.term) !in h.grants && HistOK(cfg, h') && Extends(h, h') && HistFrame(h, h', n.id)
  {
    hide GrantOK, BidOK, ClaimOK, ElectionOK, CommitsOK, IsVoteFor, NewVotesFree;
    var h' := WithGrant(h, n, c);
    assert n.vote == NONE by { VoteIsOpen(cfg, h, n, c); }
    NoVoteYet(cfg, h, n);
    assert Extends(h, h');
    ElectionsStable(cfg, h, h');
    NewGrant(cfg, h, n, c, h');
    GrantsStable(cfg, h, h');
    FreeVote(cfg, h, n, c, h');
    BidsStable(h, h');
    CommitsStable(cfg, h, h');
  }

  lemma VoteIsOpen(cfg: Config, h: History, n: Node, c: NodeId)
    requires IsVoteFor(cfg, h, n, c)
    ensures n.vote == NONE
  {
  }

  lemma GrantBook(cfg: Config, b: Book, n: Node, c: NodeId)
    requires ValidConfig(cfg) && BookOK(cfg, b) && Shape(cfg, n) && VotesOK(b.h, n) && ClaimsOfOK(b.h, n)
    requires Prov(b.h, b.h.count, n.log)
    requires IsVoteFor(cfg, b.h, n, c)
    ensures var b' := b.(h := WithGrant(b.h, n, c));
      (n.id, n.term) !in b.h.grants && BookOK(cfg, b') && Frame(b, b', n.id)
  {
    hide HistOK, VotesOK, ClaimsOfOK, Prov, Reached, IsVoteFor;
    var b' := b.(h := WithGrant(b.h, n, c));
    GrantHist(cfg, b.h, n, c);
    assert Reached(b.h, b.h.count, b.top);
    ReachedStable(b.h, b'.h, b.h.count, b.top);
    AsksStable(b, b');
    HiddenStable(b, b');
  }

  lemma VoteNode(cfg: Config, b: Book, b': Book, n: Node, c: NodeId)
    requires NodeOK(cfg, b, n) && ElectionsOK(cfg, b.h) && ElectionsOK(cfg, b'.h) && AsksOK(b) && BookExtends(b, b')
    requires b' == b.(h := WithGrant(b.h, n, c)) && (n.id, n.term) !in b.h.grants && c != NONE
    ensures NodeOK(cfg, b', n.(vote := c))
  {
    hide ElectionsOK, AsksOK, ClaimsOK, Extends, ReadsOK, ProgressesOK, ReadStatesOK, Prov;
    var n' := n.(vote := c);
    ProvStable(b.h, b'.h, b.h.count, b'.h.count, n.log);
    ClaimsOfStable(cfg, b.h, b'.h, n);
    assert ClaimsOfOK(b'.h, n');
    SeenOKStable(b.h, b'.h, n);
    assert SeenOK(b'.h, n');
    assert VotesOK(b'.h, n');
    ReadStatesStable(b, b', n);
    MovedReads(b', n, n');
    if n.role.Leader? {
      ReadsStable(cfg, b, b', n);
      ProgressesStable(b.h, b'.h, n);
      VoteLeader(cfg, b', n, n');
    }
    if n.role.Candidate? {
      CandidateStable(b.h, b'.h, n);
      VoteCandidate(b'.h, n, n');
    }
  }

  lemma VoteLeader(cfg: Config, b: Book, n: Node, n': Node)
    requires n' == n.(vote := n'.vote) && ReadsOK(cfg, b, n) && ProgressesOK(b.h, n)
    ensures ReadsOK(cfg, b, n') && ProgressesOK(b.h, n')
  {
    hide PendingOK, QueueOK;
    forall f | f in n'.prs ensures ProgressOK(b.h, n', f) {
      assert ProgressOK(b.h, n, f);
    }
  }

  lemma VoteCandidate(h: History, n: Node, n': Node)
    requires n' == n.(vote := n'.vote) && n.committed <= |n.log| && CandidateOK(h, n)
    ensures CandidateOK(h, n')
  {
    assert n'.log[..n'.committed] == n.log[..n.committed];
  }

  lemma CastVoteOK(cfg: Config, b: Book, n: Node, c: NodeId) returns (b': Book)
    requires StepOK(cfg, b, n) && IsVoteFor(cfg, b.h, n, c) && n.term >= 1
    ensures StepOK(cfg, b', Send(n.(vote := c), VoteResp(n.id, c, n.term, false))) && Frame(b, b', n.id)
  {
    hide StepOK, HistOK, AsksOK, HiddenOK, VotesOK, ClaimsOfOK, Prov, MsgsOK, ElectionsOK, NodeOK, UpToDate, SeenOK,
         HistFrame, ReadFrame, Extends;
    Parts(cfg, b, n);
    Follows(cfg, b, n);
    b' := b.(h := WithGrant(b.h, n, c));
    GrantBook(cfg, b, n, c);
    Elections(cfg, b.h);
    Elections(cfg, b'.h);
    VoteNode(cfg, b, b', n, c);
    MsgsStable(cfg, b, b', n.msgs);
    Join(cfg, b', n.(vote := c));
    SendOK(cfg, b', n.(vote := c), VoteResp(n.id, c, n.term, false));
  }

  lemma RepeatVoteOK(cfg: Config, b: Book, n: Node, m: Message)
    requires StepOK(cfg, b, n) && n.vote == m.from && m.from in PeerSet(cfg) && n.term >= 1
    ensures StepOK(cfg, b, Send(n.(vote := m.from), VoteResp(n.id, m.from, n.term, false)))
  {
    hide StepOK, BookOK, HistOK, ClaimsOfOK, MsgsOK, SeenOK;
    Follows(cfg, b, n);
    assert n.vote != NONE;
    SendOK(cfg, b, n, VoteResp(n.id, m.from, n.term, false));
    assert n.(vote := m.from) == n;
  }

  lemma HandleVoteOK(cfg: Config, b: Book, n: Node, m: Message) returns (b': Book)
    requires StepOK(cfg, b, n) && m.Vote? && m.term == n.term && MsgOK(cfg, b, m)
    ensures StepOK(cfg, b', HandleVote(n, m)) && Frame(b, b', n.id)
  {
    hide StepOK, Frame, HistOK, AsksOK, HiddenOK;
    Facts(cfg, b, n);
    b' := b;
    FrameSelf(b, n.id);
    var canVote := n.vote == m.from || (n.vote == NONE && n.lead == NONE) || m.term > n.term;
    if canVote && IsUpToDate(n, m.logIndex, m.logTerm) {
      if n.vote == m.from {
        RepeatVoteOK(cfg, b, n, m);
      } else {
        assert TermAt(n, |n.log|) == LastTerm(n.log);
        assert IsVoteFor(cfg, b.h, n, m.from);
        b' := CastVoteOK(cfg, b, n, m.from);
      }
    } else {
      SendOK(cfg, b, n, VoteResp(n.id, m.from, n.term, true));
    }
  }
}
