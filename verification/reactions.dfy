/** What a node does about each event in each role, field by field and message by message. */
module Reactions {
  import opened Types
  import opened Median
  import opened NodeSteps
  import opened Cluster
  import opened Answers
  import opened Replicas
  import opened Roles

  // ----- Event by event

  /** A node that waited in vain, as follower or as candidate, stands in the next term with its own vote, and asks all
      others for theirs; without others, the election is decided. */
  lemma ElectionBegins(me: NodeId, membership: set<NodeId>, n: Node)
    requires n.role.Follower? || n.role.Candidate?
    ensures var o := Handle(me, membership, n, ElectionTimeout);
            var others := membership - {me};
            && o.node == n.(term := n.term + 1, votedFor := Some(me), role := Candidate, epoch := n.epoch + 1,
                            ballot := Some(Ballot(n.epoch + 1, {}, 1, others == {})))
            && o.outputs == (if others == {} then [] else
                               [AskAll(others, VoteRequest(n.term + 1, me, |n.log|,
                                                           if n.log == [] then 0 else n.log[|n.log| - 1].term))])
  {
    var others := membership - {me};
    assert others - {} == others;
    if others != {} {
      var p :| p in others;
      assert !(others <= {});
    }
  }

  /** A candidate asks again exactly those that its session has not heard from, if any, and changes nothing. */
  lemma AskedAgain(me: NodeId, membership: set<NodeId>, n: Node)
    requires LiveBallot(n)
    ensures var o := Handle(me, membership, n, RetryTimeout);
            var (others, b) := (membership - {me}, n.ballot.value);
            && o.node == (if others == {} then n.(ballot := Some(Ballot(b.sid, b.acked, b.granted, true))) else n)
            && o.outputs == (if others - b.acked == {} then [] else
                               [AskAll(others - b.acked,
                                       VoteRequest(n.term, me, |n.log|,
                                                   if n.log == [] then 0 else n.log[|n.log| - 1].term))])
  {
    var others := membership - {me};
    if others - n.ballot.value.acked == {} {
      forall p | p in others ensures p in n.ballot.value.acked { assert p !in others - n.ballot.value.acked; }
    }
  }

  /** A decided candidate leads: a new session that expects every other node at the commit index, and a heartbeat to
      each of them. */
  lemma LeadershipBegins(me: NodeId, membership: set<NodeId>, n: Node)
    requires LiveBallot(n) && n.ballot.value.decided
    ensures var o := Handle(me, membership, n, VoteResult);
            var others := membership - {me};
            && n.epoch + 1 in o.node.peers && var table := o.node.peers[n.epoch + 1];
            && o.node == n.(role := Leader, epoch := n.epoch + 1, repl := Some(n.epoch + 1),
                            peers := n.peers[n.epoch + 1 := table])
            && table.Keys == others && (forall p | p in others :: table[p] == Progress(n.commit + 1, None))
            && o.outputs == [BeatAll(others, AppendRequest(n.term, me, n.commit, 0, 0, []))]
  {
  }

  /** A leader's heartbeats go to every peer of its table and change nothing. */
  lemma HeartbeatsGo(me: NodeId, membership: set<NodeId>, n: Node)
    requires LiveSession(n)
    ensures var o := Handle(me, membership, n, HeartbeatTimeout);
            && o.node == n
            && o.outputs == [BeatAll(n.peers[n.repl.value].Keys, AppendRequest(n.term, me, n.commit, 0, 0, []))]
  {
  }

  /** A leader appends a client's command in its term and says nothing; the others send the client to the node they take
      for the leader, if any. */
  lemma ClientAnswered(me: NodeId, membership: set<NodeId>, n: Node, x: string)
    ensures var o := Handle(me, membership, n, ClientCommand(x));
            if n.role.Leader? then
              && o.outputs == [] && |o.node.log| == |n.log| + 1
              && o.node == n.(log := o.node.log) && n.log <= o.node.log && o.node.log[|n.log|] == Entry(n.term, x)
            else
              && o.node == n
              && o.outputs == [ToClient(if n.hint.Some? then Redirect(n.hint.value) else NoLeaderYet)]
  {
  }

  /** Every request of a peer is answered at once, as `VoteAnswer` and `AppendAnswer` say, in whatever role. */
  lemma PeersAnswered(me: NodeId, membership: set<NodeId>, n: Node, a: AppendRequest, b: VoteRequest)
    ensures var o := Handle(me, membership, n, AppendRpc(a));
            |o.outputs| == 1 && o.outputs[0].AppendReply? && AppendAnswer(me, n, a, o.outputs[0].append, o.node)
    ensures var o := Handle(me, membership, n, VoteRpc(b));
            |o.outputs| == 1 && o.outputs[0].VoteReply? && VoteAnswer(me, n, b, o.outputs[0].vote, o.node)
  {
    if Follows(n.log, a) { assert RemoveAfter(n.log, a.prevIndex) == n.log[..a.prevIndex]; }
  }

  /** A node that shuts down keeps all but its role, and handles no event after that. */
  lemma ShutsDown(me: NodeId, membership: set<NodeId>, n: Node, events: seq<Event>)
    requires !n.role.Shutdown?
    ensures Serve(me, membership, n, [ShutdownSignal] + events) == Outcome(n.(role := Shutdown), [])
  {
    assert ([ShutdownSignal] + events)[1..] == events;
  }

  /** The events that a node does not listen for in its role, or that have come too early, change nothing. */
  lemma Unheeded(me: NodeId, membership: set<NodeId>, n: Node, e: Event)
    requires match e
             case ElectionTimeout => n.role.Leader?
             case RetryTimeout => !n.role.Candidate?
             case VoteReplies(_) => !n.role.Candidate?
             case VoteResult => !n.role.Candidate? || (n.ballot.Some? && !n.ballot.value.decided)
             case HeartbeatTimeout => !n.role.Leader?
             case HeartbeatReplies(_) => !n.role.Leader?
             case EntriesReplies(_) => !n.role.Leader?
             case _ => false
    ensures Handle(me, membership, n, e) == Outcome(n, [])
  {
  }

  // ----- One event after the other

  /** Events are handled one by one, each by the node that the one before left. */
  lemma {:induction false} ServedInTurn(me: NodeId, membership: set<NodeId>, n: Node, events: seq<Event>, e: Event)
    ensures var o := Serve(me, membership, n, events);
            Serve(me, membership, n, events + [e]) ==
            if o.node.role.Shutdown? then o else
              var last := Handle(me, membership, o.node, e);
              Outcome(last.node, o.outputs + last.outputs)
    decreases |events|
  {
    hide Handle;
    if events == [] {
      assert ([] + [e])[1..] == [];
      var last := Handle(me, membership, n, e);
      assert last.outputs + [] == last.outputs && [] + last.outputs == last.outputs;
    } else if !n.role.Shutdown? {
      var first := Handle(me, membership, n, events[0]);
      assert (events + [e])[0] == events[0] && (events + [e])[1..] == events[1..] + [e];
      ServedInTurn(me, membership, first.node, events[1..], e);
      var o := Serve(me, membership, first.node, events[1..]);
      assert forall more: seq<Output> :: first.outputs + (o.outputs + more) == (first.outputs + o.outputs) + more;
    }
  }
}
