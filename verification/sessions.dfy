/** A leader's replication session as an object that changes in place. */
module Sessions {
  import opened Types
  import opened Median
  import opened NodeSteps
  import opened Advances
  import opened Replicas

  /** The replies of one channel, handled in order until one makes the leader step down or panics. */
  ghost function EntriesRound(n: Node, sid: nat, replies: seq<AppendResponse>): Node
    requires sid in n.peers
    decreases |replies|
  {
    if replies == [] then n else
      var n' := OnEntriesReply(n, sid, replies[0]);
      if replies[0].reason.StaleLeader? || Panics(n.peers[sid], replies[0]) then n'
      else EntriesRound(n', sid, replies[1..])
  }

  ghost function HeartbeatRound(n: Node, sid: nat, replies: seq<AppendResponse>): Node
    requires sid in n.peers
    decreases |replies|
  {
    if replies == [] then n else
      var n' := OnHeartbeatReply(n, sid, replies[0]);
      if replies[0].reason.StaleLeader? || (replies[0].reason.LogMismatch? && Panics(n.peers[sid], replies[0])) then n'
      else HeartbeatRound(n', sid, replies[1..])
  }

  /** Whatever replies arrive, the leader's log and vote stay, and its commit index never falls and moves only to
      entries of its term within the log; unless a stale-term reply ends the round, its term and role stay too. */
  lemma {:induction false} RoundKeeps(n: Node, sid: nat, replies: seq<AppendResponse>)
    requires sid in n.peers
    ensures var n' := EntriesRound(n, sid, replies);
            && n'.log == n.log && n'.votedFor == n.votedFor && n'.hint == n.hint && n'.commit >= n.commit
            && (n'.commit != n.commit ==> n'.commit <= |n.log| && n.log[n'.commit - 1].term == n.term)
            && ((n'.term == n.term && n'.role == n.role) ||
                exists v :: v in replies && v.reason.StaleLeader? && n'.term == v.term && n'.role == Follower)
            && sid in n'.peers && n'.peers[sid].Keys == n.peers[sid].Keys
    decreases |replies|
  {
    if replies != [] && !(replies[0].reason.StaleLeader? || Panics(n.peers[sid], replies[0])) {
      OneReplyKeeps(n, sid, replies[0]);
      hide OnEntriesReply;
      RoundKeeps(OnEntriesReply(n, sid, replies[0]), sid, replies[1..]);
      assert forall v | v in replies[1..] :: v in replies;
    } else if replies != [] {
      OneReplyKeeps(n, sid, replies[0]);
      hide OnEntriesReply;
      assert replies[0] in replies;
    }
  }

  lemma OneReplyKeeps(n: Node, sid: nat, v: AppendResponse)
    requires sid in n.peers
    ensures var n' := OnEntriesReply(n, sid, v);
            && n'.log == n.log && n'.votedFor == n.votedFor && n'.hint == n.hint && n'.commit >= n.commit
            && (n'.commit != n.commit ==>
                  n'.commit <= |n.log| && n.log[n'.commit - 1].term == n.term && !v.reason.StaleLeader?)
            && (if v.reason.StaleLeader? then n'.term == v.term && n'.role == Follower
                else n'.term == n.term && n'.role == n.role)
            && sid in n'.peers && n'.peers[sid].Keys == n.peers[sid].Keys
  {
    hide MedianMatch;
  }

  /** A round of heartbeat replies changes next indices only, unless a stale-term reply makes the leader step down. */
  lemma {:induction false} HeartbeatRoundKeeps(n: Node, sid: nat, replies: seq<AppendResponse>)
    requires sid in n.peers
    ensures var n' := HeartbeatRound(n, sid, replies);
            && sid in n'.peers && n'.peers[sid].Keys == n.peers[sid].Keys
            && (forall p | p in n.peers[sid] :: n'.peers[sid][p].matched == n.peers[sid][p].matched)
            && (n' == n.(peers := n.peers[sid := n'.peers[sid]]) ||
                exists v :: v in replies && v.reason.StaleLeader?
                            && n' == StepDown(n.(peers := n.peers[sid := n'.peers[sid]]), v.term))
    decreases |replies|
  {
    assert n.peers[sid := n.peers[sid]] == n.peers;
    if replies != [] {
      var n1 := OnHeartbeatReply(n, sid, replies[0]);
      if replies[0].reason.StaleLeader? {
        assert replies[0] in replies;
      } else if !(replies[0].reason.LogMismatch? && Panics(n.peers[sid], replies[0])) {
        HeartbeatRoundKeeps(n1, sid, replies[1..]);
        assert forall v | v in replies[1..] :: v in replies;
        var table := HeartbeatRound(n1, sid, replies[1..]).peers[sid];
        assert n1.peers[sid := table] == n.peers[sid := table];
      }
    }
  }

  class ReplicationSession {
    const node: RaftNode
    var peers: Peers

    constructor (node: RaftNode)
      ensures this.node == node
      ensures peers == map p | p in node.membership - {node.id} :: Progress(node.commit + 1, None)
      ensures forall p :: !Stale(peers, p, node.commit)
    {
      this.node := node;
      this.peers := map p | p in node.membership - {node.id} :: Progress(node.commit + 1, None);
    }

    /** The value of the node with this session as number `sid`. */
    ghost function In(n: Node, sid: nat): Node
      reads this, node
    {
      node.In(n).(peers := n.peers[sid := peers])
    }

    /** The peers whose next index has been committed already. */
    method StalePeers() returns (stale: set<NodeId>)
      ensures forall p :: p in stale <==> Stale(peers, p, node.commit)
    {
      stale := set p | p in peers && peers[p].next <= node.commit;
    }

    /** The request for a peer, if the leader has the entry before its next index. */
    method ComposeFor(p: NodeId) returns (request: Option<AppendRequest>)
      requires p in peers
      ensures request.Some? <==> Composable(node.log, peers[p].next)
      ensures request.Some? <==> 1 <= peers[p].next - 1 <= |node.log|
      ensures request.Some? ==>
                var prev := peers[p].next - 1;
                request.value == AppendRequest(node.currentTerm, node.id, node.commit, prev, node.log[prev - 1].term,
                                               node.log[prev..])
      ensures request.Some? ==>
                forall n: Node, sid: nat :: request.value == Compose(node.id, In(n, sid), peers[p].next)
    {
      var next := peers[p].next;
      if next < 2 || GetEntry(node.log, next - 1).None? {
        return None;
      }
      var prev := GetEntry(node.log, next - 1).value;
      var entries := EntriesFrom(node.log, next);
      return Some(AppendRequest(node.currentTerm, node.id, node.commit, next - 1, prev.term, entries));
    }

    /** The match indices reported so far, in no particular order. */
    method MatchIndices() returns (matches: seq<nat>)
      ensures SameBag(matches, Values(peers, Reported(peers)))
    {
      matches := [];
      var rest := peers.Keys;
      while rest != {}
        invariant rest <= peers.Keys
        invariant SameBag(matches, Values(peers, Reported(peers) - rest))
        decreases rest
      {
        hide SameBag, Values, Reported;
        var p :| p in rest;
        ghost var done := Reported(peers) - rest;
        ReportedStep(peers, rest, p);
        rest := rest - {p};
        match peers[p].matched {
          case None =>
          case Some(x) =>
            ValuesAdd(peers, done, p, matches);
            matches := matches + [x];
        }
      }
      assert Reported(peers) - rest == Reported(peers);
    }

    /** The median of the match indices reported so far, if it names an entry of the current term. */
    method CalculateLastCommitIndex() returns (index: Option<nat>)
      ensures index == CommitTarget(node.log, node.currentTerm, peers)
      ensures forall x: nat :: index == Some(x) <==>
                Reported(peers) != {} && Middle(peers, x) && OwnEntry(node.log, node.currentTerm, x)
    {
      hide Middle;
      forall x: nat { CommitTargetExactly(node.log, node.currentTerm, peers, x); }
      var matches := MatchIndices();
      if matches == [] {
        return None;
      }
      var sorted := Sort(matches);
      SortAnyOrder(matches, Values(peers, Reported(peers)));
      var median := sorted[|sorted| / 2];
      var entry := GetEntry(node.log, median);
      if entry.Some? && entry.value.term == node.currentTerm {
        return Some(median);
      }
      return None;
    }

    /** One reply of the standby update; `over` says that it ends the loop. */
    method HandleReply(response: AppendResponse) returns (over: bool)
      modifies this, node
      ensures forall n: Node, sid: nat :: In(n, sid) == OnEntriesReply(old(In(n, sid)), sid, response)
      ensures over <==> response.reason.StaleLeader? || Panics(old(peers), response)
      ensures response.id in old(peers) ==>
                forall n: Node, sid: nat :: AnswerEffect(old(In(n, sid)), sid, false, response, In(n, sid))
    {
      hide CommitTarget, AnswerEffect, Middle;
      forall n: Node, sid: nat | response.id in peers { AnswerHasEffect(In(n, sid), sid, response); }
      var p := response.id;
      match response.reason
      case LogMismatch =>
        if p !in peers || peers[p].next == 0 {
          return true;
        }
        peers := peers[p := peers[p].(next := peers[p].next - 1)];
        return false;
      case Appended =>
        if p !in peers || peers[p].next + response.len == 0 {
          return true;
        }
        var next := peers[p].next + response.len;
        peers := peers[p := peers[p].(matched := Some(next - 1))];
        peers := peers[p := peers[p].(next := peers[p].next + next)];
        assert peers == Credit(old(peers), p, response.len);
        var ours := node.commit;
        var index := CalculateLastCommitIndex();
        if index.Some? && ours < index.value {
          node.commit := index.value;
        }
        return false;
      case StaleLeader =>
        node.AdoptTerm(response.term);
        return true;
    }

    /** The reply loop of the standby update. */
    method CountReplies(replies: seq<AppendResponse>)
      modifies this, node
      ensures forall n: Node, sid: nat :: In(n, sid) == EntriesRound(old(In(n, sid)), sid, replies)
    {
      hide OnEntriesReply;
      var k := 0;
      while k < |replies|
        invariant k <= |replies|
        invariant forall n: Node, sid: nat ::
                    EntriesRound(In(n, sid), sid, replies[k..]) == EntriesRound(old(In(n, sid)), sid, replies)
      {
        assert replies[k..][0] == replies[k] && replies[k..][1..] == replies[k + 1..];
        var over := HandleReply(replies[k]);
        if over {
          return;
        }
        k := k + 1;
      }
      assert replies[k..] == [];
    }

    /** One reply to a heartbeat; `over` says that it ends the loop. */
    method HandleHeartbeatReply(response: AppendResponse) returns (over: bool)
      modifies this, node
      ensures forall n: Node, sid: nat :: In(n, sid) == OnHeartbeatReply(old(In(n, sid)), sid, response)
      ensures over <==> response.reason.StaleLeader? || (response.reason.LogMismatch? && Panics(old(peers), response))
      ensures response.id in old(peers) ==>
                forall n: Node, sid: nat :: AnswerEffect(old(In(n, sid)), sid, true, response, In(n, sid))
    {
      hide AnswerEffect;
      forall n: Node, sid: nat | response.id in peers { AnswerHasEffect(In(n, sid), sid, response); }
      var p := response.id;
      match response.reason
      case LogMismatch =>
        if p !in peers || peers[p].next == 0 {
          return true;
        }
        peers := peers[p := peers[p].(next := peers[p].next - 1)];
        return false;
      case StaleLeader =>
        node.AdoptTerm(response.term);
        return true;
      case Appended =>
        return false;
    }

    /** The reply loop of a round of heartbeats. */
    method CountHeartbeatReplies(replies: seq<AppendResponse>)
      modifies this, node
      ensures forall n: Node, sid: nat :: In(n, sid) == HeartbeatRound(old(In(n, sid)), sid, replies)
    {
      hide OnHeartbeatReply;
      var k := 0;
      while k < |replies|
        invariant k <= |replies|
        invariant forall n: Node, sid: nat ::
                    HeartbeatRound(In(n, sid), sid, replies[k..]) == HeartbeatRound(old(In(n, sid)), sid, replies)
      {
        assert replies[k..][0] == replies[k] && replies[k..][1..] == replies[k + 1..];
        var over := HandleHeartbeatReply(replies[k]);
        if over {
          return;
        }
        k := k + 1;
      }
      assert replies[k..] == [];
    }
  }

  lemma ReportedStep(peers: Peers, rest: set<NodeId>, p: NodeId)
    requires p in rest && rest <= peers.Keys
    ensures var (done, done') := (Reported(peers) - rest, Reported(peers) - (rest - {p}));
            p !in done && done' == if peers[p].matched.Some? then done + {p} else done
    ensures peers[p].matched.Some? ==> p in Reported(peers)
  {
  }

  lemma OneMoreHolding(peers: Peers, done: set<NodeId>, p: NodeId, x: nat)
    requires p in Reported(peers) && p !in done
    ensures |(done + {p}) * Holding(peers, x)| == |done * Holding(peers, x)| + AtLeast([peers[p].matched.value], x)
  {
    if p in Holding(peers, x) {
      assert (done + {p}) * Holding(peers, x) == done * Holding(peers, x) + {p};
    } else {
      assert (done + {p}) * Holding(peers, x) == done * Holding(peers, x);
    }
  }

  lemma ValuesAdd(peers: Peers, done: set<NodeId>, p: NodeId, matches: seq<nat>)
    requires done + {p} <= Reported(peers) && p !in done && SameBag(matches, Values(peers, done))
    ensures SameBag(matches + [peers[p].matched.value], Values(peers, done + {p}))
  {
    hide Values;
    forall x: nat ensures AtLeast(matches + [peers[p].matched.value], x) == AtLeast(Values(peers, done + {p}), x) {
      AtLeastSplit(matches, [peers[p].matched.value], x);
      ValuesCount(peers, done, x);
      ValuesCount(peers, done + {p}, x);
      OneMoreHolding(peers, done, p, x);
    }
  }

  lemma SortAnyOrder(s: seq<nat>, t: seq<nat>)
    requires SameBag(s, t)
    ensures Sort(s) == Sort(t)
  {
    SortedUnique(Sort(s), Sort(t));
  }
}
