/** The role loops do what the cluster's runs consist of: to handle an event is to perform actions of the cluster, the
    messages sent are the ones that those actions put in flight, and any run can go on with them. */
module Refinement {
  import opened Types
  import opened NodeSteps
  import opened Cluster
  import opened AnyRun
  import opened Replication
  import opened Replicas
  import opened Roles

  // ----- Several actions

  ghost predicate Performs(cfg: Config, s: State, acts: seq<Action>, s': State)
    decreases |acts|
  {
    if acts == [] then s' == s else Enabled(cfg, s, acts[0]) && Performs(cfg, Do(cfg, s, acts[0]), acts[1..], s')
  }

  lemma {:induction false} PerformsMore(cfg: Config, s: State, acts: seq<Action>, s': State, more: seq<Action>,
    s'': State)
    requires Performs(cfg, s, acts, s') && Performs(cfg, s', more, s'')
    ensures Performs(cfg, s, acts + more, s'')
    decreases |acts|
  {
    hide Enabled, Do;
    if acts == [] {
      assert acts + more == more;
    } else {
      assert (acts + more)[0] == acts[0] && (acts + more)[1..] == acts[1..] + more;
      PerformsMore(cfg, Do(cfg, s, acts[0]), acts[1..], s', more, s'');
    }
  }

  /** Every run can go on with actions that can be performed in its last state. */
  lemma {:induction false} RunGoesOn(cfg: Config, r: Run, acts: seq<Action>, s': State) returns (r': Run)
    requires ValidRun(cfg, r) && Performs(cfg, r.states[|r.acts|], acts, s')
    ensures ValidRun(cfg, r') && r'.acts == r.acts + acts && r.states <= r'.states && r'.states[|r'.acts|] == s'
    decreases |acts|
  {
    hide Enabled, Do, Init;
    if acts == [] {
      r' := r;
      assert r.acts + acts == r.acts;
    } else {
      var s := r.states[|r.acts|];
      var r1 := Run(r.states + [Do(cfg, s, acts[0])], r.acts + [acts[0]]);
      forall k: nat | k < |r1.acts| ensures StepAt(cfg, r1, k) {
        if k < |r.acts| { assert StepAt(cfg, r, k); }
      }
      r' := RunGoesOn(cfg, r1, acts[1..], s');
      assert r1.acts + acts[1..] == r.acts + acts;
    }
  }

  // ----- Messages

  ghost function AskedMsgs(outputs: seq<Output>, sid: nat, log: Log): set<VoteMsg> {
    set o, p | o in outputs && o.AskAll? && p in o.peers :: VoteMsg(p, sid, o.ask, log)
  }

  ghost function BeatMsgs(outputs: seq<Output>, sid: nat, log: Log): set<AppendMsg> {
    set o, p | o in outputs && o.BeatAll? && p in o.peers :: AppendMsg(p, sid, true, o.beat, log)
  }

  /** Node `i` becomes `n'` and the given requests are put in flight; nothing else changes. */
  ghost predicate Becomes(s: State, s': State, i: NodeId, n': Node, asks: set<VoteMsg>, beats: set<AppendMsg>) {
    && s'.nodes == s.nodes[i := n']
    && s'.voteMsgs == s.voteMsgs + asks && s'.appendMsgs == s.appendMsgs + beats
    && s'.voteAnswers == s.voteAnswers && s'.appendAnswers == s.appendAnswers
  }

  ghost function VoteRequests(i: NodeId, n: Node, sid: nat, peers: set<NodeId>): set<VoteMsg> {
    set p | p in peers :: Ask(i, n, sid, p)
  }

  ghost function HeartbeatRequests(i: NodeId, n: Node, sid: nat, peers: set<NodeId>): set<AppendMsg> {
    set p | p in peers :: AppendMsg(p, sid, true, Heartbeat(i, n), n.log)
  }

  ghost function SendVotes(i: NodeId, sid: nat, peers: set<NodeId>): seq<Action> {
    if peers == {} then [] else
      var p :| p in peers;
      [SendVote(i, sid, p)] + SendVotes(i, sid, peers - {p})
  }

  ghost function SendHeartbeats(i: NodeId, sid: nat, peers: set<NodeId>): seq<Action> {
    if peers == {} then [] else
      var p :| p in peers;
      [SendHeartbeat(i, sid, p)] + SendHeartbeats(i, sid, peers - {p})
  }

  lemma OneAsk(cfg: Config, s: State, i: NodeId, sid: nat, p: NodeId) returns (s': State)
    requires s.nodes.Keys == cfg.Nodes() && i in s.nodes && 1 <= sid <= s.nodes[i].epoch && p in cfg.Others(i)
    ensures Enabled(cfg, s, SendVote(i, sid, p)) && s' == Do(cfg, s, SendVote(i, sid, p))
    ensures Becomes(s, s', i, s.nodes[i], {Ask(i, s.nodes[i], sid, p)}, {})
  {
    s' := Do(cfg, s, SendVote(i, sid, p));
  }

  lemma OneBeat(cfg: Config, s: State, i: NodeId, sid: nat, p: NodeId) returns (s': State)
    requires s.nodes.Keys == cfg.Nodes() && i in s.nodes && sid in s.nodes[i].peers && p in cfg.Others(i)
    ensures Enabled(cfg, s, SendHeartbeat(i, sid, p)) && s' == Do(cfg, s, SendHeartbeat(i, sid, p))
    ensures Becomes(s, s', i, s.nodes[i], {}, {AppendMsg(p, sid, true, Heartbeat(i, s.nodes[i]), s.nodes[i].log)})
  {
    s' := Do(cfg, s, SendHeartbeat(i, sid, p));
  }

  lemma BecomesThen(s: State, s1: State, s': State, i: NodeId, n1: Node, n': Node, asks: set<VoteMsg>,
    beats: set<AppendMsg>, asks': set<VoteMsg>, beats': set<AppendMsg>)
    requires Becomes(s, s1, i, n1, asks, beats) && Becomes(s1, s', i, n', asks', beats')
    ensures Becomes(s, s', i, n', asks + asks', beats + beats')
  {
  }

  lemma {:induction false} AllAsked(cfg: Config, s: State, i: NodeId, sid: nat, peers: set<NodeId>) returns (s': State)
    requires s.nodes.Keys == cfg.Nodes() && i in s.nodes && 1 <= sid <= s.nodes[i].epoch && peers <= cfg.Others(i)
    ensures Performs(cfg, s, SendVotes(i, sid, peers), s')
    ensures Becomes(s, s', i, s.nodes[i], VoteRequests(i, s.nodes[i], sid, peers), {})
    decreases peers
  {
    hide Enabled, Do;
    if peers == {} {
      s' := s;
    } else {
      var acts := SendVotes(i, sid, peers);
      var p :| p in peers && acts == [SendVote(i, sid, p)] + SendVotes(i, sid, peers - {p});
      var s1 := OneAsk(cfg, s, i, sid, p);
      s' := AllAsked(cfg, s1, i, sid, peers - {p});
      assert acts[1..] == SendVotes(i, sid, peers - {p});
      var n := s.nodes[i];
      BecomesThen(s, s1, s', i, n, n, {Ask(i, n, sid, p)}, {}, VoteRequests(i, n, sid, peers - {p}), {});
      assert {Ask(i, n, sid, p)} + VoteRequests(i, n, sid, peers - {p}) == VoteRequests(i, n, sid, peers);
    }
  }

  lemma {:induction false} AllBeaten(cfg: Config, s: State, i: NodeId, sid: nat, peers: set<NodeId>) returns (s': State)
    requires s.nodes.Keys == cfg.Nodes() && i in s.nodes && sid in s.nodes[i].peers && peers <= cfg.Others(i)
    ensures Performs(cfg, s, SendHeartbeats(i, sid, peers), s')
    ensures Becomes(s, s', i, s.nodes[i], {}, HeartbeatRequests(i, s.nodes[i], sid, peers))
    decreases peers
  {
    hide Enabled, Do;
    if peers == {} {
      s' := s;
    } else {
      var acts := SendHeartbeats(i, sid, peers);
      var p :| p in peers && acts == [SendHeartbeat(i, sid, p)] + SendHeartbeats(i, sid, peers - {p});
      var s1 := OneBeat(cfg, s, i, sid, p);
      s' := AllBeaten(cfg, s1, i, sid, peers - {p});
      assert acts[1..] == SendHeartbeats(i, sid, peers - {p});
      var n := s.nodes[i];
      var m := AppendMsg(p, sid, true, Heartbeat(i, n), n.log);
      BecomesThen(s, s1, s', i, n, n, {}, {m}, {}, HeartbeatRequests(i, n, sid, peers - {p}));
      assert {m} + HeartbeatRequests(i, n, sid, peers - {p}) == HeartbeatRequests(i, n, sid, peers);
    }
  }

  // ----- Timers, results, clients and signals

  ghost function Asking(cfg: Config, i: NodeId, sid: nat, acked: set<NodeId>): seq<Action>
    requires i in cfg.members
  {
    if cfg.Others(i) == {} then [NoPeers(i)] else SendVotes(i, sid, cfg.Others(i) - acked)
  }

  /** The actions of the cluster for an event that is not the arrival of a message. */
  ghost function Actions(cfg: Config, i: NodeId, n: Node, e: Event): seq<Action>
    requires i in cfg.members
  {
    match e
    case ElectionTimeout =>
      if n.role.Follower? then [Timeout(i), StartBallot(i)] + Asking(cfg, i, n.epoch + 1, {})
      else if n.role.Candidate? then [StartBallot(i)] + Asking(cfg, i, n.epoch + 1, {})
      else []
    case RetryTimeout => if LiveBallot(n) then Asking(cfg, i, n.ballot.value.sid, n.ballot.value.acked) else []
    case VoteResult =>
      if LiveBallot(n) && n.ballot.value.decided then
        [Win(i), StartReplication(i)] + SendHeartbeats(i, n.epoch + 1, cfg.Others(i))
      else []
    case HeartbeatTimeout => if LiveSession(n) then SendHeartbeats(i, n.repl.value, cfg.Others(i)) else []
    case ClientCommand(x) => if n.role.Leader? then [ClientAppend(i, x)] else []
    case ShutdownSignal => [Stop(i)]
    case _ => []
  }

  /** What handling an event makes of the cluster. */
  ghost predicate DoneBy(s: State, s': State, i: NodeId, o: Outcome) {
    Becomes(s, s', i, o.node,
            if o.node.ballot.Some? then AskedMsgs(o.outputs, o.node.ballot.value.sid, o.node.log) else {},
            if o.node.repl.Some? then BeatMsgs(o.outputs, o.node.repl.value, o.node.log) else {})
  }

  lemma OneAction(cfg: Config, s: State, a: Action)
    requires Enabled(cfg, s, a) && !a.SendVote? && !a.SendHeartbeat? && !a.SendEntries?
    requires !a.TakeVote? && !a.TakeVoteAns? && !a.TakeAppend? && !a.TakeAppendAns?
    ensures Performs(cfg, s, [a], Do(cfg, s, a)) && Becomes(s, Do(cfg, s, a), Actor(a), NodeAfter(cfg, s, a), {}, {})
  {
    hide NodeAfter;
    assert [a][1..] == [];
  }

  lemma AskedOut(peers: set<NodeId>, i: NodeId, n: Node, sid: nat)
    ensures AskedMsgs([AskAll(peers, AskVote(i, n))], sid, n.log) == VoteRequests(i, n, sid, peers)
    ensures AskedMsgs([], sid, n.log) == {} && BeatMsgs([], sid, n.log) == {}
    ensures forall k: nat :: BeatMsgs([AskAll(peers, AskVote(i, n))], k, n.log) == {}
  {
    var outputs := [AskAll(peers, AskVote(i, n))];
    assert outputs[0] in outputs;
  }

  lemma BeatenOut(peers: set<NodeId>, i: NodeId, n: Node, sid: nat)
    ensures BeatMsgs([BeatAll(peers, Heartbeat(i, n))], sid, n.log) == HeartbeatRequests(i, n, sid, peers)
    ensures forall k: nat :: AskedMsgs([BeatAll(peers, Heartbeat(i, n))], k, n.log) == {}
  {
    var outputs := [BeatAll(peers, Heartbeat(i, n))];
    assert outputs[0] in outputs;
  }

  lemma AskingPerforms(cfg: Config, s: State, i: NodeId) returns (s': State)
    requires s.nodes.Keys == cfg.Nodes() && i in s.nodes && LiveBallot(s.nodes[i])
    requires 1 <= s.nodes[i].ballot.value.sid <= s.nodes[i].epoch
    ensures Performs(cfg, s, Asking(cfg, i, s.nodes[i].ballot.value.sid, s.nodes[i].ballot.value.acked), s')
    ensures DoneBy(s, s', i, Asked(i, cfg.members[i], s.nodes[i]))
  {
    hide Do;
    var n := s.nodes[i];
    var (b, others) := (n.ballot.value, cfg.Others(i));
    if others == {} {
      s' := Do(cfg, s, NoPeers(i));
      OneAction(cfg, s, NoPeers(i));
      AskedOut({}, i, n, b.sid);
    } else {
      s' := AllAsked(cfg, s, i, b.sid, others - b.acked);
      AskedOut(others - b.acked, i, n, b.sid);
      if others <= b.acked { assert others - b.acked == {}; }
    }
  }

  lemma BallotPerformed(cfg: Config, s: State, i: NodeId) returns (s': State)
    requires s.nodes.Keys == cfg.Nodes() && i in s.nodes && s.nodes[i].role.Candidate?
    ensures Performs(cfg, s, [StartBallot(i)] + Asking(cfg, i, s.nodes[i].epoch + 1, {}), s')
    ensures DoneBy(s, s', i, Entered(i, cfg.members[i], s.nodes[i]))
  {
    hide Do, Asking, Asked;
    var s1 := Do(cfg, s, StartBallot(i));
    OneAction(cfg, s, StartBallot(i));
    s' := AskingPerforms(cfg, s1, i);
    PerformsMore(cfg, s, [StartBallot(i)], s1, Asking(cfg, i, s.nodes[i].epoch + 1, {}), s');
  }

  lemma ElectionPerformed(cfg: Config, s: State, i: NodeId) returns (s': State)
    requires s.nodes.Keys == cfg.Nodes() && i in s.nodes
    ensures Performs(cfg, s, Actions(cfg, i, s.nodes[i], ElectionTimeout), s')
    ensures DoneBy(s, s', i, Handle(i, cfg.members[i], s.nodes[i], ElectionTimeout))
  {
    hide Do, Asking, Entered;
    var n := s.nodes[i];
    if n.role.Follower? {
      var s1 := Do(cfg, s, Timeout(i));
      OneAction(cfg, s, Timeout(i));
      s' := BallotPerformed(cfg, s1, i);
      var more := [StartBallot(i)] + Asking(cfg, i, n.epoch + 1, {});
      PerformsMore(cfg, s, [Timeout(i)], s1, more, s');
      assert [Timeout(i)] + more == Actions(cfg, i, n, ElectionTimeout);
    } else if n.role.Candidate? {
      s' := BallotPerformed(cfg, s, i);
    } else {
      s' := s;
      NothingDone(s, i);
    }
  }

  lemma NothingDone(s: State, i: NodeId)
    requires i in s.nodes
    ensures DoneBy(s, s, i, Outcome(s.nodes[i], []))
  {
  }

  lemma LeadPerformed(cfg: Config, s: State, i: NodeId) returns (s': State)
    requires s.nodes.Keys == cfg.Nodes() && i in s.nodes && s.nodes[i].role.Leader? && s.nodes[i].repl.None?
    ensures Performs(cfg, s, [StartReplication(i)] + SendHeartbeats(i, s.nodes[i].epoch + 1, cfg.Others(i)), s')
    ensures DoneBy(s, s', i, Entered(i, cfg.members[i], s.nodes[i]))
  {
    hide Do;
    var n := s.nodes[i];
    var s1 := Do(cfg, s, StartReplication(i));
    OneAction(cfg, s, StartReplication(i));
    s' := AllBeaten(cfg, s1, i, n.epoch + 1, cfg.Others(i));
    BeatenOut(cfg.Others(i), i, s1.nodes[i], n.epoch + 1);
    hide Performs;
    PerformsMore(cfg, s, [StartReplication(i)], s1, SendHeartbeats(i, n.epoch + 1, cfg.Others(i)), s');
  }

  lemma WinPerformed(cfg: Config, s: State, i: NodeId) returns (s': State)
    requires s.nodes.Keys == cfg.Nodes() && i in s.nodes && LiveBallot(s.nodes[i]) && s.nodes[i].ballot.value.decided
    ensures Performs(cfg, s, Actions(cfg, i, s.nodes[i], VoteResult), s')
    ensures DoneBy(s, s', i, Handle(i, cfg.members[i], s.nodes[i], VoteResult))
  {
    hide Do, Entered, Performs;
    var n := s.nodes[i];
    var s1 := Do(cfg, s, Win(i));
    OneAction(cfg, s, Win(i));
    s' := LeadPerformed(cfg, s1, i);
    var more := [StartReplication(i)] + SendHeartbeats(i, n.epoch + 1, cfg.Others(i));
    PerformsMore(cfg, s, [Win(i)], s1, more, s');
    assert [Win(i)] + more == Actions(cfg, i, n, VoteResult);
  }

  /** The event is not the arrival of a message. */
  predicate Local(e: Event) {
    || e.ShutdownSignal? || e.ClientCommand? || e.ElectionTimeout? || e.RetryTimeout? || e.HeartbeatTimeout?
    || e.VoteResult?
  }

  /** Whatever a node does about a timer, a result, a client or a signal is what those actions of the cluster do,
      and the requests that it sends are exactly those that they put in flight. */
  lemma EventPerformed(cfg: Config, s: State, i: NodeId, e: Event) returns (s': State)
    requires Basic(cfg, s) && TablesInv(cfg, s) && i in s.nodes && !s.nodes[i].role.Shutdown? && Local(e)
    ensures Performs(cfg, s, Actions(cfg, i, s.nodes[i], e), s')
    ensures DoneBy(s, s', i, Handle(i, cfg.members[i], s.nodes[i], e))
  {
    hide Do, Asking, Asked, Entered, DoneBy, VoteMsgInv, VoteAnsInv, AppendMsgInv, AppendAnsInv;
    var n := s.nodes[i];
    assert NodeInv(cfg, s, i);
    hide Basic;
    s' := s;
    NothingDone(s, i);
    match e
    case ElectionTimeout => s' := ElectionPerformed(cfg, s, i);
    case RetryTimeout => if LiveBallot(n) { s' := AskingPerforms(cfg, s, i); }
    case VoteResult => if LiveBallot(n) && n.ballot.value.decided { s' := WinPerformed(cfg, s, i); }
    case HeartbeatTimeout => if LiveSession(n) { s' := HeartbeatsPerformed(cfg, s, i); }
    case ClientCommand(x) =>
      s' := CommandPerformed(cfg, s, i, x);
    case ShutdownSignal =>
      s' := StopPerformed(cfg, s, i);
  }

  lemma HeartbeatsPerformed(cfg: Config, s: State, i: NodeId) returns (s': State)
    requires s.nodes.Keys == cfg.Nodes() && TablesInv(cfg, s) && i in s.nodes && LiveSession(s.nodes[i])
    ensures Performs(cfg, s, Actions(cfg, i, s.nodes[i], HeartbeatTimeout), s')
    ensures DoneBy(s, s', i, Handle(i, cfg.members[i], s.nodes[i], HeartbeatTimeout))
  {
    var n := s.nodes[i];
    s' := AllBeaten(cfg, s, i, n.repl.value, cfg.Others(i));
    BeatenOut(cfg.Others(i), i, n, n.repl.value);
  }

  lemma CommandPerformed(cfg: Config, s: State, i: NodeId, x: string) returns (s': State)
    requires s.nodes.Keys == cfg.Nodes() && i in s.nodes
    ensures Performs(cfg, s, Actions(cfg, i, s.nodes[i], ClientCommand(x)), s')
    ensures DoneBy(s, s', i, Handle(i, cfg.members[i], s.nodes[i], ClientCommand(x)))
  {
    hide Do;
    if s.nodes[i].role.Leader? {
      s' := Do(cfg, s, ClientAppend(i, x));
      OneAction(cfg, s, ClientAppend(i, x));
    } else {
      s' := s;
    }
  }

  lemma StopPerformed(cfg: Config, s: State, i: NodeId) returns (s': State)
    requires s.nodes.Keys == cfg.Nodes() && i in s.nodes && !s.nodes[i].role.Shutdown?
    ensures Performs(cfg, s, Actions(cfg, i, s.nodes[i], ShutdownSignal), s')
    ensures DoneBy(s, s', i, Handle(i, cfg.members[i], s.nodes[i], ShutdownSignal))
  {
    hide Do;
    s' := Do(cfg, s, Stop(i));
    OneAction(cfg, s, Stop(i));
  }

  /** So every run can go on with a node that handles such an event: the result is a run of the cluster. */
  lemma EventInRun(cfg: Config, r: Run, i: NodeId, e: Event) returns (r': Run)
    requires ValidRun(cfg, r) && i in cfg.members && Local(e)
    requires i in r.states[|r.acts|].nodes && !r.states[|r.acts|].nodes[i].role.Shutdown?
    ensures var s := r.states[|r.acts|];
            && ValidRun(cfg, r') && r.states <= r'.states && r'.acts == r.acts + Actions(cfg, i, s.nodes[i], e)
            && DoneBy(s, r'.states[|r'.acts|], i, Handle(i, cfg.members[i], s.nodes[i], e))
  {
    hide Basic, TablesInv, Performs, DoneBy, Actions, Handle, Init, StepAt;
    BasicHolds(cfg, r, |r.acts|);
    TablesHold(cfg, r, |r.acts|);
    var s' := EventPerformed(cfg, r.states[|r.acts|], i, e);
    r' := RunGoesOn(cfg, r, Actions(cfg, i, r.states[|r.acts|].nodes[i], e), s');
  }

  // ----- The arrival of a request

  /** A vote request that arrives is handled as the cluster's action does, and the reply sent is the answer that it
      puts in flight. */
  lemma VoteRequestPerformed(cfg: Config, s: State, m: VoteMsg) returns (v: VoteResponse)
    requires Enabled(cfg, s, TakeVote(m))
    ensures var o := Handle(m.to, cfg.members[m.to], s.nodes[m.to], VoteRpc(m.body));
            var s' := Do(cfg, s, TakeVote(m));
            && o.outputs == [VoteReply(v)] && s'.nodes == s.nodes[m.to := o.node]
            && s'.voteAnswers == s.voteAnswers + {VoteAns(m, v, s.nodes[m.to].log, s.hist.clock)}
            && s'.voteMsgs == s.voteMsgs && s'.appendMsgs == s.appendMsgs && s'.appendAnswers == s.appendAnswers
  {
    hide OnVoteRequest;
    v := OnVoteRequest(m.to, s.nodes[m.to], m.body).response;
  }

  /** The same for append requests. */
  lemma AppendRequestPerformed(cfg: Config, s: State, m: AppendMsg) returns (v: AppendResponse)
    requires Enabled(cfg, s, TakeAppend(m))
    ensures var o := Handle(m.to, cfg.members[m.to], s.nodes[m.to], AppendRpc(m.body));
            var s' := Do(cfg, s, TakeAppend(m));
            && o.outputs == [AppendReply(v)] && s'.nodes == s.nodes[m.to := o.node]
            && s'.appendAnswers == s.appendAnswers + {AppendAns(m, v, o.node.log, s.hist.clock)}
            && s'.voteMsgs == s.voteMsgs && s'.appendMsgs == s.appendMsgs && s'.voteAnswers == s.voteAnswers
  {
    hide OnAppendRequest;
    v := OnAppendRequest(m.to, s.nodes[m.to], m.body).response;
  }

  // ----- The arrival of a round of answers

  function VoteBodies(vs: seq<VoteAns>): (bodies: seq<VoteResponse>) {
    seq(|vs|, k requires 0 <= k < |vs| => vs[k].body)
  }

  function TakeVoteAnswers(vs: seq<VoteAns>): (acts: seq<Action>) {
    seq(|vs|, k requires 0 <= k < |vs| => TakeVoteAns(vs[k]))
  }

  /** Distinct answers in flight to requests of session `sid` of node `i`. */
  ghost predicate VoteAnswersTo(s: State, i: NodeId, sid: nat, vs: seq<VoteAns>) {
    && (forall k | 0 <= k < |vs| :: vs[k] in s.voteAnswers && vs[k].msg.body.candidate == i && vs[k].msg.sid == sid)
    && (forall j, k | 0 <= j < k < |vs| :: vs[j] != vs[k])
  }

  /** Node `i` becomes `n'` and the given answers are no longer in flight; nothing else changes. */
  ghost predicate Consumes(s: State, s': State, i: NodeId, n': Node, votes: set<VoteAns>, appends: set<AppendAns>) {
    && s'.nodes == s.nodes[i := n']
    && s'.voteAnswers == s.voteAnswers - votes && s'.appendAnswers == s.appendAnswers - appends
    && s'.voteMsgs == s.voteMsgs && s'.appendMsgs == s.appendMsgs
  }

  ghost function Elements<T>(s: seq<T>): set<T> {
    set x | x in s
  }

  lemma OneVoteTaken(cfg: Config, s: State, i: NodeId, v: VoteAns) returns (s': State)
    requires s.nodes.Keys == cfg.Nodes() && i in s.nodes && v in s.voteAnswers && v.msg.body.candidate == i
    requires Live(s.nodes[i], v)
    ensures Performs(cfg, s, [TakeVoteAns(v)], s')
    ensures var n := s.nodes[i];
            n.ballot.Some? && Consumes(s, s', i, AfterFirst(n, v.body, |cfg.members[i]|), {v}, {})
  {
    s' := Do(cfg, s, TakeVoteAns(v));
    assert [TakeVoteAns(v)][1..] == [];
  }

  /** The round says the same of a node whatever its ballot is. */
  lemma {:induction false} RoundApart(n: Node, x: Option<Ballot>, b: Ballot, replies: seq<VoteResponse>, members: nat)
    ensures var (o, o') := (CountRound(n, b, replies, members), CountRound(n.(ballot := x), b, replies, members));
            o'.ballot == o.ballot && o'.node == o.node.(ballot := x)
    decreases |replies|
  {
    hide Tally, Enough;
    if replies != [] && !StepsDown(replies[0]) {
      RoundApart(n, x, Tally(b, replies[0], members), replies[1..], members);
    }
  }

  /** The node after the first answer of a round. */
  ghost function AfterFirst(n: Node, v: VoteResponse, members: nat): Node
    requires n.ballot.Some?
  {
    if StepsDown(v) then StepDown(n, v.term) else n.(ballot := Some(Tally(n.ballot.value, v, members)))
  }

  /** The first answer either ends a round or leaves the rest of it as a round of its own. */
  lemma RoundAfterFirst(me: NodeId, membership: set<NodeId>, n: Node, replies: seq<VoteResponse>)
    requires LiveBallot(n) && replies != []
    ensures var (v, n1) := (replies[0], AfterFirst(n, replies[0], |membership|));
            var o := Handle(me, membership, n, VoteReplies(replies));
            && n1.ballot.Some?
            && if StepsDown(v) || (v.granted && Enough(n1.ballot.value.granted, |membership|)) then
                 o == Outcome(n1, []) && (StepsDown(v) || n1.ballot.value.decided)
               else LiveBallot(n1) && o == Handle(me, membership, n1, VoteReplies(replies[1..]))
  {
    if !StepsDown(replies[0]) {
      var b := Tally(n.ballot.value, replies[0], |membership|);
      RoundApart(n, Some(b), b, replies[1..], |membership|);
    }
  }

  lemma VoteTail(s: State, s': State, i: NodeId, n': Node, sid: nat, vs: seq<VoteAns>)
    requires vs != [] && VoteAnswersTo(s, i, sid, vs) && Consumes(s, s', i, n', {vs[0]}, {})
    ensures VoteAnswersTo(s', i, sid, vs[1..])
    ensures VoteBodies(vs)[0] == vs[0].body && VoteBodies(vs)[1..] == VoteBodies(vs[1..])
    ensures Elements([vs[0]]) == {vs[0]}
  {
  }

  /** The first `heeded` answers are taken, and leave the cluster as handling the whole round leaves the node; the rest
      is not taken, because the last one taken made the node step down or decided the election. */
  ghost predicate VoteRoundDone(cfg: Config, s: State, i: NodeId, vs: seq<VoteAns>, heeded: nat, s': State)
    requires i in s.nodes && i in cfg.members
  {
    && heeded <= |vs| && Performs(cfg, s, TakeVoteAnswers(vs[..heeded]), s')
    && var o := Handle(i, cfg.members[i], s.nodes[i], VoteReplies(VoteBodies(vs)));
    && o.outputs == [] && Consumes(s, s', i, o.node, Elements(vs[..heeded]), {})
    && (heeded < |vs| ==>
          && heeded > 0 && o.node.ballot.Some?
          && (StepsDown(vs[heeded - 1].body) || o.node.ballot.value.decided))
  }

  lemma OneVoteMore(cfg: Config, s: State, i: NodeId, vs: seq<VoteAns>, s1: State, more: nat, s': State)
    requires i in s.nodes && i in s1.nodes && i in cfg.members && vs != []
    requires Performs(cfg, s, [TakeVoteAns(vs[0])], s1) && Consumes(s, s1, i, s1.nodes[i], {vs[0]}, {})
    requires Handle(i, cfg.members[i], s.nodes[i], VoteReplies(VoteBodies(vs))) ==
             Handle(i, cfg.members[i], s1.nodes[i], VoteReplies(VoteBodies(vs[1..])))
    requires VoteRoundDone(cfg, s1, i, vs[1..], more, s')
    ensures VoteRoundDone(cfg, s, i, vs, more + 1, s')
  {
    hide Handle, Performs;
    PerformsMore(cfg, s, [TakeVoteAns(vs[0])], s1, TakeVoteAnswers(vs[1..][..more]), s');
    assert TakeVoteAnswers(vs[..more + 1]) == [TakeVoteAns(vs[0])] + TakeVoteAnswers(vs[1..][..more]);
    assert Elements(vs[..more + 1]) == {vs[0]} + Elements(vs[1..][..more]);
  }

  /** Handling a round of answers to the live vote session is to take as many of them as the round heeds, one by one. */
  lemma {:induction false} VoteRoundPerformed(cfg: Config, s: State, i: NodeId, vs: seq<VoteAns>)
    returns (heeded: nat, s': State)
    requires s.nodes.Keys == cfg.Nodes() && i in s.nodes && LiveBallot(s.nodes[i])
    requires VoteAnswersTo(s, i, s.nodes[i].ballot.value.sid, vs)
    ensures VoteRoundDone(cfg, s, i, vs, heeded, s')
    decreases |vs|
  {
    hide Do, Enabled, Handle, AfterFirst, Enough;
    var n := s.nodes[i];
    if vs == [] {
      heeded, s' := 0, s;
      assert VoteBodies(vs) == [];
      EmptyRound(i, cfg.members[i], n);
    } else {
      var v := vs[0];
      var s1 := OneVoteTaken(cfg, s, i, v);
      VoteTail(s, s1, i, s1.nodes[i], n.ballot.value.sid, vs);
      RoundAfterFirst(i, cfg.members[i], n, VoteBodies(vs));
      if StepsDown(v.body) || (v.body.granted && Enough(s1.nodes[i].ballot.value.granted, |cfg.members[i]|)) {
        heeded, s' := 1, s1;
        assert vs[..1] == [v] && TakeVoteAnswers([v]) == [TakeVoteAns(v)];
      } else {
        hide VoteRoundDone;
        BallotStays(n, v.body, |cfg.members[i]|);
        heeded, s' := VoteRoundPerformed(cfg, s1, i, vs[1..]);
        OneVoteMore(cfg, s, i, vs, s1, heeded, s');
        heeded := heeded + 1;
      }
    }
  }

  lemma BallotStays(n: Node, v: VoteResponse, members: nat)
    requires n.ballot.Some?
    ensures var n1 := AfterFirst(n, v, members); n1.ballot.Some? && n1.ballot.value.sid == n.ballot.value.sid
  {
  }

  lemma EmptyRound(me: NodeId, membership: set<NodeId>, n: Node)
    requires LiveBallot(n)
    ensures Handle(me, membership, n, VoteReplies([])) == Outcome(n, [])
  {
  }

  function AppendBodies(vs: seq<AppendAns>): (bodies: seq<AppendResponse>) {
    seq(|vs|, k requires 0 <= k < |vs| => vs[k].body)
  }

  function TakeAppendAnswers(vs: seq<AppendAns>): (acts: seq<Action>) {
    seq(|vs|, k requires 0 <= k < |vs| => TakeAppendAns(vs[k]))
  }

  /** Distinct answers in flight to heartbeats, or to replication requests, of session `sid` of node `i`. */
  ghost predicate AppendAnswersTo(s: State, i: NodeId, sid: nat, heartbeat: bool, vs: seq<AppendAns>) {
    && (forall k | 0 <= k < |vs| ::
          vs[k] in s.appendAnswers && vs[k].msg.body.leader == i && vs[k].msg.sid == sid
          && vs[k].msg.heartbeat == heartbeat)
    && (forall j, k | 0 <= j < k < |vs| :: vs[j] != vs[k])
  }

  ghost function AfterReply(n: Node, sid: nat, heartbeat: bool, v: AppendResponse): Node {
    if heartbeat then OnHeartbeatReply(n, sid, v) else OnEntriesReply(n, sid, v)
  }

  function RepliesTo(heartbeat: bool, replies: seq<AppendResponse>): Event {
    if heartbeat then HeartbeatReplies(replies) else EntriesReplies(replies)
  }

  /** The answer ends the round that it is in. */
  ghost predicate EndsRound(n: Node, sid: nat, heartbeat: bool, v: AppendResponse)
    requires sid in n.peers
  {
    v.reason.StaleLeader? || (Panics(n.peers[sid], v) && (v.reason.LogMismatch? || !heartbeat))
  }

  lemma OneAppendTaken(cfg: Config, s: State, i: NodeId, v: AppendAns) returns (s': State)
    requires s.nodes.Keys == cfg.Nodes() && i in s.nodes && v in s.appendAnswers && v.msg.body.leader == i
    ensures Performs(cfg, s, [TakeAppendAns(v)], s')
    ensures Consumes(s, s', i, AfterReply(s.nodes[i], v.msg.sid, v.msg.heartbeat, v.body), {}, {v})
  {
    hide OnHeartbeatReply, OnEntriesReply;
    s' := Do(cfg, s, TakeAppendAns(v));
    assert [TakeAppendAns(v)][1..] == [];
  }

  lemma AppendTail(s: State, s': State, i: NodeId, n': Node, sid: nat, heartbeat: bool, vs: seq<AppendAns>)
    requires vs != [] && AppendAnswersTo(s, i, sid, heartbeat, vs) && Consumes(s, s', i, n', {}, {vs[0]})
    ensures AppendAnswersTo(s', i, sid, heartbeat, vs[1..])
    ensures AppendBodies(vs)[0] == vs[0].body && AppendBodies(vs)[1..] == AppendBodies(vs[1..])
    ensures Elements([vs[0]]) == {vs[0]}
  {
  }

  lemma SessionStays(n: Node, sid: nat, heartbeat: bool, v: AppendResponse)
    requires sid in n.peers && !v.reason.StaleLeader?
    ensures var n1 := AfterReply(n, sid, heartbeat, v); sid in n1.peers && n1.role == n.role && n1.repl == n.repl
  {
    hide Advance, Credit, BackOff;
  }

  lemma AppendRoundAfterFirst(me: NodeId, membership: set<NodeId>, n: Node, heartbeat: bool,
    replies: seq<AppendResponse>)
    requires LiveSession(n)
    ensures var o := Handle(me, membership, n, RepliesTo(heartbeat, replies));
            if replies == [] then o == Outcome(n, [])
            else
              var n1 := AfterReply(n, n.repl.value, heartbeat, replies[0]);
              if EndsRound(n, n.repl.value, heartbeat, replies[0]) then o == Outcome(n1, [])
              else
                && LiveSession(n1) && n1.repl == n.repl
                && o == Handle(me, membership, n1, RepliesTo(heartbeat, replies[1..]))
  {
    if replies != [] && !EndsRound(n, n.repl.value, heartbeat, replies[0]) {
      SessionStays(n, n.repl.value, heartbeat, replies[0]);
    }
    hide OnHeartbeatReply, OnEntriesReply;
  }

  /** Handling a round of answers to the live replication session is to take as many of them as the round heeds. */
  lemma {:induction false} AppendRoundPerformed(cfg: Config, s: State, i: NodeId, heartbeat: bool, vs: seq<AppendAns>)
    returns (heeded: nat, s': State)
    requires s.nodes.Keys == cfg.Nodes() && i in s.nodes && LiveSession(s.nodes[i])
    requires AppendAnswersTo(s, i, s.nodes[i].repl.value, heartbeat, vs)
    ensures heeded <= |vs| && Performs(cfg, s, TakeAppendAnswers(vs[..heeded]), s')
    ensures var o := Handle(i, cfg.members[i], s.nodes[i], RepliesTo(heartbeat, AppendBodies(vs)));
            o.outputs == [] && Consumes(s, s', i, o.node, {}, Elements(vs[..heeded]))
    decreases |vs|
  {
    hide Do, Enabled, Handle, AfterReply, EndsRound;
    var n := s.nodes[i];
    AppendRoundAfterFirst(i, cfg.members[i], n, heartbeat, AppendBodies(vs));
    if vs == [] {
      heeded, s' := 0, s;
    } else {
      var v := vs[0];
      var s1 := OneAppendTaken(cfg, s, i, v);
      AppendTail(s, s1, i, s1.nodes[i], n.repl.value, heartbeat, vs);
      if EndsRound(n, n.repl.value, heartbeat, v.body) {
        heeded, s' := 1, s1;
        assert vs[..1] == [v] && TakeAppendAnswers([v]) == [TakeAppendAns(v)];
      } else {
        var more;
        more, s' := AppendRoundPerformed(cfg, s1, i, heartbeat, vs[1..]);
        heeded := more + 1;
        PerformsMore(cfg, s, [TakeAppendAns(v)], s1, TakeAppendAnswers(vs[1..][..more]), s');
        assert TakeAppendAnswers(vs[..heeded]) == [TakeAppendAns(v)] + TakeAppendAnswers(vs[1..][..more]);
        assert Elements(vs[..heeded]) == {v} + Elements(vs[1..][..more]);
      }
    }
  }
}
