/** The messages a node queues for its peers, each said in full. */
module SentMessages {
  import opened RaftTypes
  import opened RaftCore

  /** The other members, in the order of the configuration. */
  function Others(peers: seq<NodeId>, id: NodeId): seq<NodeId> {
    if peers == [] then []
    else (if peers[0] == id then [] else [peers[0]]) + Others(peers[1..], id)
  }

  lemma {:induction false} OthersMember(peers: seq<NodeId>, id: NodeId, x: NodeId)
    ensures x in Others(peers, id) <==> x in peers && x != id
    decreases peers
  {
    if peers != [] { OthersMember(peers[1..], id, x); }
  }

  predicate Known(peers: seq<NodeId>, prs: map<NodeId, Progress>) {
    forall i | 0 <= i < |peers| :: peers[i] in prs
  }

  lemma {:induction false} OthersKnown(peers: seq<NodeId>, id: NodeId, prs: map<NodeId, Progress>)
    requires Known(peers, prs)
    ensures Known(Others(peers, id), prs)
    decreases peers
  {
    if peers != [] { OthersKnown(peers[1..], id, prs); }
  }

  // ----- heartbeats -----

  /** One heartbeat to each, with as much of the commit index as it is known to hold. */
  predicate Beats(n: Node, to: seq<NodeId>, ctx: Context, out: seq<Message>)
    requires Known(to, n.prs)
  {
    && |out| == |to|
    && (forall i | 0 <= i < |to| ::
          && out[i].Heartbeat? && out[i].from == n.id && out[i].to == to[i] && out[i].term == n.term && out[i].context == ctx
          && out[i].commit <= n.prs[to[i]].matched && out[i].commit <= n.committed
          && (out[i].commit == n.prs[to[i]].matched || out[i].commit == n.committed))
  }

  lemma {:induction false} BeatsSent(n: Node, peers: seq<NodeId>, ctx: Context) returns (out: seq<Message>)
    requires Known(peers, n.prs)
    ensures Known(Others(peers, n.id), n.prs)
    ensures BcastHeartbeat(n, peers, ctx) == n.(msgs := n.msgs + out) && Beats(n, Others(peers, n.id), ctx, out)
    decreases peers
  {
    OthersKnown(peers, n.id, n.prs);
    if peers == [] {
      out := [];
      assert n.msgs + out == n.msgs;
    } else if peers[0] == n.id {
      out := BeatsSent(n, peers[1..], ctx);
    } else {
      var m := Heartbeat(n.id, peers[0], n.term, Min(n.prs[peers[0]].matched, n.committed), ctx);
      var n' := Send(n, m);
      var rest := BeatsSent(n', peers[1..], ctx);
      out := [m] + rest;
      assert n.msgs + out == n'.msgs + rest;
      assert Beats(n, Others(peers, n.id), ctx, out);
    }
  }

  /** A round of heartbeats for each context, in order. */
  predicate Rounds(n: Node, to: seq<NodeId>, ctxs: seq<Context>, out: seq<Message>)
    requires Known(to, n.prs)
  {
    && |out| == |ctxs| * |to|
    && (forall j | 0 <= j < |ctxs| :: Round(n, to, ctxs, out, j))
  }

  predicate Round(n: Node, to: seq<NodeId>, ctxs: seq<Context>, out: seq<Message>, j: nat)
    requires Known(to, n.prs) && j < |ctxs|
  {
    j * |to| + |to| <= |out| && Beats(n, to, ctxs[j], out[j * |to|..j * |to| + |to|])
  }

  lemma RoundsMore(n: Node, to: seq<NodeId>, ctxs: seq<Context>, first: seq<Message>, rest: seq<Message>)
    requires Known(to, n.prs) && ctxs != [] && Beats(n, to, ctxs[0], first) && Rounds(n, to, ctxs[1..], rest)
    ensures Rounds(n, to, ctxs, first + rest)
  {
    hide Beats;
    var out, w := first + rest, |to|;
    assert |first| == w by { BeatsLength(n, to, ctxs[0], first); }
    assert |out| == |ctxs| * w;
    forall j | 0 <= j < |ctxs| ensures Round(n, to, ctxs, out, j) {
      if j == 0 {
        assert out[0..w] == first;
      } else {
        assert Round(n, to, ctxs[1..], rest, j - 1);
        assert j * w == (j - 1) * w + w;
        assert out[j * w..j * w + w] == rest[(j - 1) * w..(j - 1) * w + w];
      }
    }
  }

  lemma BeatsLength(n: Node, to: seq<NodeId>, ctx: Context, out: seq<Message>)
    requires Known(to, n.prs) && Beats(n, to, ctx, out)
    ensures |out| == |to|
  {
  }

  // ----- replication -----

  /** What is sent to a member to bring it up to date: from its next index on, as
      many entries as one message may hold, after the term of the entry before them;
      or, where those are compacted, the snapshot. */
  predicate Copy(cfg: Config, n: Node, to: NodeId, m: Message)
    requires to in n.prs && n.snapIndex <= |n.log|
  {
    var next := n.prs[to].next;
    && m.from == n.id && m.to == to && m.term == n.term
    && if next <= n.snapIndex then m.InstallSnapshot? && m.prefix == n.log[..n.snapIndex]
       else
         && m.Append? && m.logIndex + 1 == next && m.commit == n.committed
         && m.logTerm == (if 0 < m.logIndex <= |n.log| then n.log[m.logIndex - 1].term else 0)
         && (if next > |n.log| then m.entries == []
             else
               && m.entries != [] && m.entries <= n.log[m.logIndex..]
               && (cfg.maxEntries > 0 ==> |m.entries| <= cfg.maxEntries)
               && (cfg.maxEntries == 0 || |m.entries| < cfg.maxEntries ==> m.entries == n.log[m.logIndex..]))
  }

  predicate Copies(cfg: Config, n: Node, to: seq<NodeId>, out: seq<Message>)
    requires Known(to, n.prs) && n.snapIndex <= |n.log|
  {
    |out| == |to| && forall i | 0 <= i < |to| :: Copy(cfg, n, to[i], out[i])
  }

  predicate Started(n: Node) { forall p | p in n.prs :: n.prs[p].next >= 1 }

  lemma CopySent(cfg: Config, n: Node, to: NodeId) returns (m: Message)
    requires to in n.prs && n.prs[to].next >= 1 && n.snapIndex <= |n.log|
    ensures SendAppend(cfg, n, to) == n.(msgs := n.msgs + [m]) && Copy(cfg, n, to, m)
  {
    m := AppendFor(cfg, n, to, n.prs[to].next)[0];
    assert AppendFor(cfg, n, to, n.prs[to].next) == [m];
  }

  lemma {:induction false} CopiesSent(cfg: Config, n: Node, peers: seq<NodeId>) returns (out: seq<Message>)
    requires Known(peers, n.prs) && Started(n) && n.snapIndex <= |n.log|
    ensures Known(Others(peers, n.id), n.prs)
    ensures BcastAppend(cfg, n, peers) == n.(msgs := n.msgs + out) && Copies(cfg, n, Others(peers, n.id), out)
    decreases peers
  {
    hide SendAppend, Copy;
    OthersKnown(peers, n.id, n.prs);
    if peers == [] {
      out := [];
      assert n.msgs + out == n.msgs;
    } else if peers[0] == n.id {
      out := CopiesSent(cfg, n, peers[1..]);
    } else {
      var m := CopySent(cfg, n, peers[0]);
      var n' := SendAppend(cfg, n, peers[0]);
      var rest := CopiesSent(cfg, n', peers[1..]);
      out := [m] + rest;
      assert n.msgs + out == n'.msgs + rest;
      forall i | 0 <= i < |out| ensures Copy(cfg, n, Others(peers, n.id)[i], out[i]) {
        if i > 0 {
          assert Copy(cfg, n', Others(peers[1..], n.id)[i - 1], rest[i - 1]);
          SameCopy(cfg, n, n'.msgs, Others(peers, n.id)[i], out[i]);
        }
      }
    }
  }

  lemma SameCopy(cfg: Config, n: Node, msgs: seq<Message>, to: NodeId, m: Message)
    requires to in n.prs && n.snapIndex <= |n.log| && Copy(cfg, n.(msgs := msgs), to, m)
    ensures Copy(cfg, n, to, m)
  {
  }

  // ----- requests for votes -----

  /** A request says where the log ends; a poll is for the next term. */
  function Request(n: Node, to: NodeId, pre: bool): Message {
    var last := if n.log == [] then 0 else n.log[|n.log| - 1].term;
    if pre then PreVote(n.id, to, n.term + 1, |n.log|, last) else Vote(n.id, to, n.term, |n.log|, last)
  }

  predicate Requests(n: Node, to: seq<NodeId>, pre: bool, out: seq<Message>) {
    |out| == |to| && forall i | 0 <= i < |to| :: out[i] == Request(n, to[i], pre)
  }

  lemma NoRequests(n: Node, pre: bool)
    ensures Requests(n, [], pre, [])
  {
  }

  lemma AskedFirst(n: Node, peers: seq<NodeId>, pre: bool)
    requires peers != [] && peers[0] != n.id && n.snapIndex <= |n.log|
    ensures AskVotes(n, peers, pre) == AskVotes(Send(n, Request(n, peers[0], pre)), peers[1..], pre)
  {
  }

  lemma RequestsMore(n: Node, msgs: seq<Message>, peers: seq<NodeId>, pre: bool, rest: seq<Message>)
    requires peers != [] && peers[0] != n.id && Requests(n.(msgs := msgs), Others(peers[1..], n.id), pre, rest)
    ensures Requests(n, Others(peers, n.id), pre, [Request(n, peers[0], pre)] + rest)
  {
  }

  lemma {:induction false} RequestsSent(n: Node, peers: seq<NodeId>, pre: bool) returns (out: seq<Message>)
    requires n.snapIndex <= |n.log|
    ensures AskVotes(n, peers, pre) == n.(msgs := n.msgs + out) && Requests(n, Others(peers, n.id), pre, out)
    decreases peers
  {
    hide Requests, Request;
    if peers == [] {
      assert Requests(n, Others(peers, n.id), pre, []) by { NoRequests(n, pre); }
      out := [];
      assert n.msgs + out == n.msgs;
    } else if peers[0] == n.id {
      out := RequestsSent(n, peers[1..], pre);
      assert Others(peers, n.id) == Others(peers[1..], n.id);
    } else {
      var m := Request(n, peers[0], pre);
      var n' := Send(n, m);
      var rest := RequestsSent(n', peers[1..], pre);
      out := [m] + rest;
      assert n.msgs + out == n'.msgs + rest;
      AskedFirst(n, peers, pre);
      RequestsMore(n, n'.msgs, peers, pre, rest);
    }
  }
}
