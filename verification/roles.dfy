/** The role loops: what a node does about each event in each role, with the session that it has opened in that role,
    and how the loops take turns. */
module Roles {
  import opened Types
  import opened NodeSteps
  import opened Cluster
  import opened Replicas
  import opened Sessions

  /** What a node may wake up for, in an order that timers and channels choose.  The last four are for the session of
      the current role: its result, and the replies that its tasks receive. */
  datatype Event =
    | ShutdownSignal
    | AppendRpc(append: AppendRequest)
    | VoteRpc(vote: VoteRequest)
    | ClientCommand(command: string)
    | ElectionTimeout
    | RetryTimeout
    | HeartbeatTimeout
    | VoteResult
    | VoteReplies(votes: seq<VoteResponse>)
    | HeartbeatReplies(appends: seq<AppendResponse>)
    | EntriesReplies(appends: seq<AppendResponse>)

  datatype Output =
    | VoteReply(vote: VoteResponse)
    | AppendReply(append: AppendResponse)
    | ToClient(reply: ClientReply)
    | AskAll(peers: set<NodeId>, ask: VoteRequest)
    | BeatAll(peers: set<NodeId>, beat: AppendRequest)

  datatype Outcome = Outcome(node: Node, outputs: seq<Output>)

  // ----- One machine for all roles

  /** The live vote session asks the peers that it has not heard from; without peers, it is decided. */
  function Asked(me: NodeId, membership: set<NodeId>, n: Node): Outcome
    requires n.ballot.Some?
  {
    var others := membership - {me};
    var b := n.ballot.value;
    if others == {} then Outcome(n.(ballot := Some(b.(decided := true))), [])
    else if others <= b.acked then Outcome(n, [])
    else Outcome(n, [AskAll(others - b.acked, AskVote(me, n))])
  }

  /** A role begins: a candidate opens a ballot and asks for votes, a leader opens its replication session and sends
      heartbeats.  No peer is stale then, so nothing else is sent. */
  function Entered(me: NodeId, membership: set<NodeId>, n: Node): Outcome {
    match n.role
    case Candidate => Asked(me, membership, OpenBallot(me, n))
    case Leader =>
      var n' := OpenReplication(n, membership - {me});
      Outcome(n', [BeatAll(membership - {me}, Heartbeat(me, n'))])
    case _ => Outcome(n, [])
  }

  /** What a node does about one event.  The events that its role's loop does not listen for change nothing. */
  ghost function Handle(me: NodeId, membership: set<NodeId>, n: Node, e: Event): Outcome {
    match e
    case ShutdownSignal => Outcome(n.(role := Shutdown), [])
    case AppendRpc(r) => var o := OnAppendRequest(me, n, r); Outcome(o.node, [AppendReply(o.response)])
    case VoteRpc(r) => var o := OnVoteRequest(me, n, r); Outcome(o.node, [VoteReply(o.response)])
    case ClientCommand(x) =>
      if n.role.Leader? then Outcome(n.(log := n.log + [Entry(n.term, x)]), [])
      else Outcome(n, [ToClient(OnClientRequest(n))])
    case ElectionTimeout =>
      if n.role.Follower? then Entered(me, membership, n.(role := Candidate, ballot := None))
      else if n.role.Candidate? then Entered(me, membership, n)
      else Outcome(n, [])
    case RetryTimeout => if LiveBallot(n) then Asked(me, membership, n) else Outcome(n, [])
    case VoteResult =>
      if LiveBallot(n) && n.ballot.value.decided then Entered(me, membership, n.(role := Leader, repl := None))
      else Outcome(n, [])
    case VoteReplies(votes) =>
      if LiveBallot(n) then
        var o := CountRound(n, n.ballot.value, votes, |membership|);
        Outcome(o.node.(ballot := Some(o.ballot)), [])
      else Outcome(n, [])
    case HeartbeatTimeout =>
      if LiveSession(n) then Outcome(n, [BeatAll(n.peers[n.repl.value].Keys, Heartbeat(me, n))]) else Outcome(n, [])
    case HeartbeatReplies(appends) =>
      if LiveSession(n) then Outcome(HeartbeatRound(n, n.repl.value, appends), []) else Outcome(n, [])
    case EntriesReplies(appends) =>
      if LiveSession(n) then Outcome(EntriesRound(n, n.repl.value, appends), []) else Outcome(n, [])
  }

  ghost predicate LiveSession(n: Node) {
    n.role.Leader? && n.repl.Some? && n.repl.value in n.peers
  }

  /** The events in order, until the node shuts down. */
  ghost function Serve(me: NodeId, membership: set<NodeId>, n: Node, events: seq<Event>): Outcome
    decreases |events|
  {
    if events == [] || n.role.Shutdown? then Outcome(n, []) else
      var first := Handle(me, membership, n, events[0]);
      var later := Serve(me, membership, first.node, events[1..]);
      Outcome(later.node, first.outputs + later.outputs)
  }

  /** The same, for a node whose loop has yet to begin, if `entering`. */
  ghost function ServeFrom(me: NodeId, membership: set<NodeId>, n: Node, entering: bool, events: seq<Event>): Outcome {
    if entering then
      var first := Entered(me, membership, n);
      var later := Serve(me, membership, first.node, events);
      Outcome(later.node, first.outputs + later.outputs)
    else Serve(me, membership, n, events)
  }

  /** The outputs so far, and what is still to come of the rest, make up the whole. */
  ghost predicate Continues(whole: Outcome, outputs: seq<Output>, rest: Outcome) {
    whole == Outcome(rest.node, outputs + rest.outputs)
  }

  /** One event is handled, up to entering the role that it leads to. */
  ghost predicate HandledBy(me: NodeId, membership: set<NodeId>, n: Node, e: Event, outputs: seq<Output>, n': Node,
    entering: bool)
  {
    var o := if entering then Entered(me, membership, n') else Outcome(n', []);
    Handle(me, membership, n, e) == Outcome(o.node, outputs + o.outputs)
  }

  lemma OneMoreEvent(me: NodeId, membership: set<NodeId>, whole: Outcome, outputs: seq<Output>, n: Node,
    events: seq<Event>, more: seq<Output>, n': Node, entering: bool)
    requires events != [] && !n.role.Shutdown? && Continues(whole, outputs, Serve(me, membership, n, events))
    requires HandledBy(me, membership, n, events[0], more, n', entering)
    ensures Continues(whole, outputs + more, ServeFrom(me, membership, n', entering, events[1..]))
  {
    hide Handle, Entered;
    var o := if entering then Entered(me, membership, n') else Outcome(n', []);
    var later := Serve(me, membership, o.node, events[1..]);
    assert outputs + ((more + o.outputs) + later.outputs) == (outputs + more) + (o.outputs + later.outputs);
    assert [] + later.outputs == later.outputs;
  }

  /** Handling an event is what the cluster's actions for it do to the node. */
  lemma HandleIsAction(cfg: Config, s: State, a: Action)
    requires Enabled(cfg, s, a)
    ensures var (me, n, n') := (Actor(a), s.nodes[Actor(a)], NodeAfter(cfg, s, a));
            var members := cfg.members[me];
            match a
            case TakeAppend(m) => Handle(me, members, n, AppendRpc(m.body)).node == n'
            case TakeVote(m) => Handle(me, members, n, VoteRpc(m.body)).node == n'
            case ClientAppend(_, x) => Handle(me, members, n, ClientCommand(x)).node == n'
            case Stop(_) => Handle(me, members, n, ShutdownSignal).node == n'
            case NoPeers(_) => Handle(me, members, n, RetryTimeout).node == n'
            case StartBallot(_) => members - {me} != {} ==> Handle(me, members, n, ElectionTimeout).node == n'
            case Win(_) => Handle(me, members, n, VoteResult).node == OpenReplication(n', cfg.Others(me))
            case _ => true
  {
    hide CountRound, EntriesRound, HeartbeatRound;
  }

  /** Handling one reply to the session of the current role is what the cluster's action for it does to the node. */
  lemma HandleIsAnswer(cfg: Config, s: State, a: Action)
    requires Enabled(cfg, s, a)
    ensures var (me, n, n') := (Actor(a), s.nodes[Actor(a)], NodeAfter(cfg, s, a));
            var members := cfg.members[me];
            match a
            case TakeVoteAns(v) => Live(n, v) ==> Handle(me, members, n, VoteReplies([v.body])).node == n'
            case TakeAppendAns(v) =>
              LiveLeader(n, v) && v.msg.sid in n.peers ==>
                Handle(me, members, n,
                       if v.msg.heartbeat then HeartbeatReplies([v.body]) else EntriesReplies([v.body])).node == n'
            case _ => true
  {
    hide CountRound, EntriesRound, HeartbeatRound, OnEntriesReply, OnHeartbeatReply;
    var n := s.nodes[Actor(a)];
    if a.TakeVoteAns? && Live(n, a.voteAns) {
      OneVoteReply(n, n.ballot.value, a.voteAns.body, |cfg.members[Actor(a)]|);
    }
    if a.TakeAppendAns? && a.appendAns.msg.sid in n.peers { OneAppendReply(n, a.appendAns.msg.sid, a.appendAns.body); }
  }

  lemma OneVoteReply(n: Node, b: Ballot, v: VoteResponse, members: nat)
    ensures CountRound(n, b, [v], members) ==
              if StepsDown(v) then VoteRound(StepDown(n, v.term), b) else VoteRound(n, Tally(b, v, members))
  {
    assert [v][1..] == [];
  }

  lemma OneAppendReply(n: Node, sid: nat, v: AppendResponse)
    requires sid in n.peers
    ensures EntriesRound(n, sid, [v]) == OnEntriesReply(n, sid, v)
    ensures HeartbeatRound(n, sid, [v]) == OnHeartbeatReply(n, sid, v)
  {
    hide Advance, Credit;
    assert [v][1..] == [];
  }

  // ----- Follower

  method FollowerStep(node: RaftNode, ghost m: Node, e: Event) returns (outputs: seq<Output>, ghost m': Node)
    requires node.role.Follower?
    modifies node
    ensures HandledBy(node.id, node.membership, old(node.In(m)), e, outputs, node.In(m'), node.role.Candidate?)
    ensures !node.role.Leader?
  {
    outputs, m' := [], m;
    match e
    case ShutdownSignal =>
      node.role := Shutdown;
    case AppendRpc(request) =>
      var response := node.RespondToAppendEntries(request);
      outputs := [AppendReply(response)];
    case VoteRpc(request) =>
      var response := node.RespondToRequestVote(request);
      outputs := [VoteReply(response)];
    case ClientCommand(_) =>
      outputs := [ToClient(if node.leaderId.Some? then Redirect(node.leaderId.value) else NoLeaderYet)];
    case ElectionTimeout =>
      node.role := Candidate;
      m' := m.(ballot := None);
    case _ =>
  }

  method FollowerRole(node: RaftNode, ghost m: Node, events: seq<Event>)
    returns (outputs: seq<Output>, rest: seq<Event>, ghost m': Node)
    requires node.role.Follower?
    modifies node
    ensures Continues(Serve(node.id, node.membership, old(node.In(m)), events), outputs,
                      ServeFrom(node.id, node.membership, node.In(m'), node.role.Candidate?, rest))
    ensures rest == [] || !node.role.Follower?
    ensures |rest| <= |events| && (events != [] ==> |rest| < |events|) && !node.role.Leader?
  {
    hide Handle, Serve, HandledBy;
    outputs, rest, m' := [], events, m;
    ghost var whole := Serve(node.id, node.membership, node.In(m), events);
    assert Continues(whole, [], whole);
    while rest != [] && node.role.Follower?
      invariant Continues(whole, outputs, ServeFrom(node.id, node.membership, node.In(m'), node.role.Candidate?, rest))
      invariant if rest == events then node.role.Follower? else |rest| < |events|
      invariant !node.role.Leader?
      decreases |rest|
    {
      ghost var n := node.In(m');
      var more;
      more, m' := FollowerStep(node, m', rest[0]);
      OneMoreEvent(node.id, node.membership, whole, outputs, n, rest, more, node.In(m'), node.role.Candidate?);
      outputs, rest := outputs + more, rest[1..];
    }
  }

  // ----- Candidate

  /** The session stands for the ballot of `m`. */
  ghost predicate StandsFor(session: VoteSession, node: RaftNode, m: Node)
    reads session
  {
    session.node == node && m.ballot == Some(session.Value(m.epoch))
  }

  method AskPeers(session: VoteSession, ghost m: Node) returns (outputs: seq<Output>, ghost m': Node)
    requires StandsFor(session, session.node, m)
    modifies session`decided
    ensures StandsFor(session, session.node, m')
    ensures Asked(session.node.id, session.node.membership, session.node.In(m)) == Outcome(session.node.In(m'), outputs)
  {
    var node := session.node;
    outputs, m' := [], m;
    var unacked := session.UnackPeers();
    m' := m.(ballot := Some(session.Value(m.epoch)));
    if unacked.Some? {
      outputs := [AskAll(unacked.value, VoteRequest(node.currentTerm, node.id, |node.log|, LastTerm(node.log)))];
    }
  }

  method BeginBallot(node: RaftNode, ghost m: Node) returns (session: VoteSession, outputs: seq<Output>, ghost m': Node)
    requires node.role.Candidate?
    modifies node
    ensures fresh(session) && StandsFor(session, node, m') && node.role == old(node.role)
    ensures Entered(node.id, node.membership, old(node.In(m))) == Outcome(node.In(m'), outputs)
  {
    session := new VoteSession(node);
    m' := m.(epoch := m.epoch + 1, ballot := Some(session.Value(m.epoch + 1)));
    assert node.In(m') == OpenBallot(node.id, old(node.In(m)));
    outputs, m' := AskPeers(session, m');
  }

  method CandidateStep(node: RaftNode, session: VoteSession, ghost m: Node, e: Event)
    returns (outputs: seq<Output>, next: VoteSession, ghost m': Node)
    requires node.role.Candidate? && StandsFor(session, node, m)
    modifies node, session
    ensures HandledBy(node.id, node.membership, old(node.In(m)), e, outputs, node.In(m'), node.role.Leader?)
    ensures (next == session || fresh(next)) && (node.role.Candidate? ==> StandsFor(next, node, m'))
  {
    outputs, next, m' := [], session, m;
    match e
    case ShutdownSignal =>
      node.role := Shutdown;
    case VoteResult =>
      if session.decided {
        node.role := Leader;
        m' := m.(repl := None);
      }
    case VoteReplies(votes) =>
      session.CountReplies(votes);
      m' := m.(ballot := Some(session.Value(m.epoch)));
      assert VoteRound(node.In(m), session.Value(m.epoch)) ==
             CountRound(old(node.In(m)), old(session.Value(m.epoch)), votes, |node.membership|);
      RoundNode(old(node.In(m)), old(session.Value(m.epoch)), votes, |node.membership|);
    case AppendRpc(request) =>
      var response := node.RespondToAppendEntries(request);
      outputs := [AppendReply(response)];
    case VoteRpc(request) =>
      var response := node.RespondToRequestVote(request);
      outputs := [VoteReply(response)];
    case ClientCommand(_) =>
      outputs := [ToClient(if node.leaderId.Some? then Redirect(node.leaderId.value) else NoLeaderYet)];
    case RetryTimeout =>
      outputs, m' := AskPeers(session, m);
    case ElectionTimeout =>
      next, outputs, m' := BeginBallot(node, m);
    case _ =>
  }

  method CandidateRole(node: RaftNode, ghost m: Node, events: seq<Event>)
    returns (outputs: seq<Output>, rest: seq<Event>, ghost m': Node)
    requires node.role.Candidate?
    modifies node
    ensures Continues(ServeFrom(node.id, node.membership, old(node.In(m)), true, events), outputs,
                      ServeFrom(node.id, node.membership, node.In(m'), node.role.Leader?, rest))
    ensures rest == [] || !node.role.Candidate?
    ensures |rest| < |events| || (rest == events && node.role.Candidate?)
  {
    ghost var whole := ServeFrom(node.id, node.membership, node.In(m), true, events);
    var session;
    session, outputs, m' := BeginBallot(node, m);
    rest := events;
    hide Handle, Serve, HandledBy, Entered, StandsFor;
    while rest != [] && node.role.Candidate?
      invariant Continues(whole, outputs, ServeFrom(node.id, node.membership, node.In(m'), node.role.Leader?, rest))
      invariant |rest| < |events| || (rest == events && node.role.Candidate?)
      invariant fresh(session) && (node.role.Candidate? ==> StandsFor(session, node, m'))
      decreases |rest|
    {
      ghost var n := node.In(m');
      var more;
      more, session, m' := CandidateStep(node, session, m', rest[0]);
      OneMoreEvent(node.id, node.membership, whole, outputs, n, rest, more, node.In(m'), node.role.Leader?);
      outputs, rest := outputs + more, rest[1..];
    }
  }

  // ----- Leader

  /** The session keeps the live progress table of `m`. */
  ghost predicate Keeps(session: ReplicationSession, node: RaftNode, m: Node)
    reads session
  {
    session.node == node && m.repl.Some? && m.repl.value in m.peers && m.peers[m.repl.value] == session.peers
  }

  method BeginReplication(node: RaftNode, ghost m: Node)
    returns (session: ReplicationSession, outputs: seq<Output>, ghost m': Node)
    requires node.role.Leader?
    ensures fresh(session) && Keeps(session, node, m')
    ensures Entered(node.id, node.membership, node.In(m)) == Outcome(node.In(m'), outputs)
  {
    session := new ReplicationSession(node);
    m' := m.(epoch := m.epoch + 1, repl := Some(m.epoch + 1), peers := m.peers[m.epoch + 1 := session.peers]);
    outputs := [BeatAll(node.membership - {node.id}, AppendRequest(node.currentTerm, node.id, node.commit, 0, 0, []))];
    ghost var begun := OpenReplication(node.In(m), node.membership - {node.id});
    assert begun.peers[m.epoch + 1] == session.peers;
    assert begun == node.In(m');
    var stale := session.StalePeers();
    assert stale == {};
  }

  method LeaderStep(node: RaftNode, session: ReplicationSession, ghost m: Node, e: Event)
    returns (outputs: seq<Output>, ghost m': Node)
    requires node.role.Leader? && Keeps(session, node, m)
    modifies node, session
    ensures HandledBy(node.id, node.membership, old(node.In(m)), e, outputs, node.In(m'), false)
    ensures !node.role.Candidate? && Keeps(session, node, m')
  {
    outputs, m' := [], m;
    match e
    case ShutdownSignal =>
      node.role := Shutdown;
    case HeartbeatTimeout =>
      outputs := [BeatAll(session.peers.Keys, AppendRequest(node.currentTerm, node.id, node.commit, 0, 0, []))];
    case HeartbeatReplies(appends) =>
      assert session.In(m, m.repl.value) == node.In(m) by { assert m.peers[m.repl.value := session.peers] == m.peers; }
      HeartbeatRoundKeeps(node.In(m), m.repl.value, appends);
      session.CountHeartbeatReplies(appends);
      m' := m.(peers := m.peers[m.repl.value := session.peers]);
      assert node.In(m') == session.In(m, m.repl.value);
    case EntriesReplies(appends) =>
      assert session.In(m, m.repl.value) == node.In(m) by { assert m.peers[m.repl.value := session.peers] == m.peers; }
      RoundKeeps(node.In(m), m.repl.value, appends);
      session.CountReplies(appends);
      m' := m.(peers := m.peers[m.repl.value := session.peers]);
      assert node.In(m') == session.In(m, m.repl.value);
    case AppendRpc(request) =>
      var response := node.RespondToAppendEntries(request);
      outputs := [AppendReply(response)];
    case VoteRpc(request) =>
      var response := node.RespondToRequestVote(request);
      outputs := [VoteReply(response)];
    case ClientCommand(command) =>
      node.log := node.log + [Entry(node.currentTerm, command)];
    case _ =>
  }

  method LeaderRole(node: RaftNode, ghost m: Node, events: seq<Event>)
    returns (outputs: seq<Output>, rest: seq<Event>, ghost m': Node)
    requires node.role.Leader?
    modifies node
    ensures Continues(ServeFrom(node.id, node.membership, old(node.In(m)), true, events), outputs,
                      ServeFrom(node.id, node.membership, node.In(m'), false, rest))
    ensures rest == [] || !node.role.Leader?
    ensures (|rest| < |events| || (rest == events && node.role.Leader?)) && !node.role.Candidate?
  {
    ghost var whole := ServeFrom(node.id, node.membership, node.In(m), true, events);
    var session;
    session, outputs, m' := BeginReplication(node, m);
    rest := events;
    hide Handle, Serve, HandledBy, Entered, Keeps;
    while rest != [] && node.role.Leader?
      invariant Continues(whole, outputs, ServeFrom(node.id, node.membership, node.In(m'), false, rest))
      invariant |rest| < |events| || (rest == events && node.role.Leader?)
      invariant fresh(session) && Keeps(session, node, m') && !node.role.Candidate?
      decreases |rest|
    {
      ghost var n := node.In(m');
      var more;
      more, m' := LeaderStep(node, session, m', rest[0]);
      OneMoreEvent(node.id, node.membership, whole, outputs, n, rest, more, node.In(m'), false);
      outputs, rest := outputs + more, rest[1..];
    }
  }

  // ----- All roles

  lemma TurnTaken(whole: Outcome, outputs: seq<Output>, turn: Outcome, more: seq<Output>, rest: Outcome)
    requires Continues(whole, outputs, turn) && Continues(turn, more, rest)
    ensures Continues(whole, outputs + more, rest)
  {
    assert outputs + (more + rest.outputs) == (outputs + more) + rest.outputs;
  }

  /** The loops of the roles take turns until the node shuts down.  Together they handle every event once, in order. */
  method Start(node: RaftNode, ghost m: Node, events: seq<Event>) returns (outputs: seq<Output>, ghost m': Node)
    requires node.role.Follower?
    modifies node
    ensures Outcome(node.In(m'), outputs) == Serve(node.id, node.membership, old(node.In(m)), events)
  {
    ghost var whole := Serve(node.id, node.membership, node.In(m), events);
    var rest := events;
    outputs, m' := [], m;
    assert Continues(whole, [], whole);
    var entering := false;
    while !node.role.Shutdown? && (rest != [] || entering)
      invariant Continues(whole, outputs, ServeFrom(node.id, node.membership, node.In(m'), entering, rest))
      invariant entering ==> node.role.Candidate? || node.role.Leader?
      invariant node.role.Candidate? || node.role.Leader? ==> entering || rest == []
      decreases |rest|, entering
    {
      hide Serve, Handle, Entered;
      ghost var turn := ServeFrom(node.id, node.membership, node.In(m'), entering, rest);
      var more;
      match node.role {
        case Follower =>
          more, rest, m' := FollowerRole(node, m', rest);
          entering := node.role.Candidate?;
        case Candidate =>
          more, rest, m' := CandidateRole(node, m', rest);
          entering := node.role.Leader?;
        case Leader =>
          more, rest, m' := LeaderRole(node, m', rest);
          entering := false;
      }
      TurnTaken(whole, outputs, turn, more, ServeFrom(node.id, node.membership, node.In(m'), entering, rest));
      outputs := outputs + more;
    }
    assert outputs + [] == outputs;
  }

  function Requests(events: seq<Event>): nat {
    if events == [] then 0 else (if events[0].AppendRpc? || events[0].VoteRpc? then 1 else 0) + Requests(events[1..])
  }

  function Replies(outputs: seq<Output>): nat {
    if outputs == [] then 0
    else (if outputs[0].AppendReply? || outputs[0].VoteReply? then 1 else 0) + Replies(outputs[1..])
  }

  lemma {:induction false} RepliesAdd(a: seq<Output>, b: seq<Output>)
    ensures Replies(a + b) == Replies(a) + Replies(b)
  {
    if a == [] {
      assert a + b == b;
    } else {
      assert (a + b)[1..] == a[1..] + b;
      RepliesAdd(a[1..], b);
    }
  }

  /** The event brings no reply that tells the node to step down. */
  predicate Steady(e: Event) {
    match e
    case VoteReplies(votes) => forall v | v in votes :: !StepsDown(v)
    case HeartbeatReplies(appends) => forall v | v in appends :: !v.reason.StaleLeader?
    case EntriesReplies(appends) => forall v | v in appends :: !v.reason.StaleLeader?
    case _ => true
  }

  /** From one moment to a later one: no vote is taken back, the commit index stays within the log, and between steady
      events the term does not fall nor the vote in it change. */
  ghost predicate Keeping(n: Node, n': Node, steady: bool) {
    && (n.votedFor.Some? ==> n'.votedFor.Some?)
    && (n.commit <= |n.log| ==> n'.commit <= |n'.log|)
    && (steady ==> n'.term >= n.term && (n'.term == n.term && n.votedFor.Some? ==> n'.votedFor == n.votedFor))
  }

  /** Whatever events come, the role loops and their sessions never take a vote back and keep the commit index within
      the log, and only a reply that makes the node step down may lower its term; a node that has not shut down has
      answered every request of a peer exactly once. */
  lemma {:induction false} ServeKeeps(me: NodeId, membership: set<NodeId>, n: Node, events: seq<Event>)
    ensures var o := Serve(me, membership, n, events);
            && Keeping(n, o.node, forall e | e in events :: Steady(e))
            && (!o.node.role.Shutdown? ==> Replies(o.outputs) == Requests(events))
    decreases |events|
  {
    if events != [] && !n.role.Shutdown? {
      var first := Handle(me, membership, n, events[0]);
      HandleKeeps(me, membership, n, events[0]);
      hide Handle, Steady;
      ServeKeeps(me, membership, first.node, events[1..]);
      RepliesAdd(first.outputs, Serve(me, membership, first.node, events[1..]).outputs);
      assert (forall e | e in events :: Steady(e)) ==> Steady(events[0]) && forall e | e in events[1..] :: Steady(e);
    }
  }

  lemma HandleKeeps(me: NodeId, membership: set<NodeId>, n: Node, e: Event)
    ensures var o := Handle(me, membership, n, e);
            && Keeping(n, o.node, Steady(e))
            && Replies(o.outputs) == if e.AppendRpc? || e.VoteRpc? then 1 else 0
  {
    match e
    case VoteReplies(votes) =>
      if LiveBallot(n) { RoundNode(n, n.ballot.value, votes, |membership|); }
    case HeartbeatReplies(appends) =>
      if LiveSession(n) { HeartbeatRoundKeeps(n, n.repl.value, appends); }
    case EntriesReplies(appends) =>
      if LiveSession(n) { RoundKeeps(n, n.repl.value, appends); }
    case _ =>
  }
}
