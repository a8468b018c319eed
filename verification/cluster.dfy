/** The cluster as a state machine: nodes, messages in flight, and one action per atomic step of the source.

    Auxiliary fields never steer an action: `snapshot`, `voterLog`, `logAfter` and `moment` on messages, and all of
    `History`.  They record what a message was composed from and what has happened so far. */
module Cluster {
  import opened Types
  import opened NodeSteps

  /** Each node's membership map, fixed for the run.  A map may list its own node or leave it out. */
  datatype Config = Config(members: map<NodeId, set<NodeId>>) {
    ghost predicate Valid() {
      forall n | n in members :: members[n] + {n} == members.Keys
    }

    ghost function Nodes(): set<NodeId> {
      members.Keys
    }

    ghost function Others(n: NodeId): set<NodeId>
      requires n in members
    {
      members[n] - {n}
    }
  }

  // ----- Messages

  // Every answer bears the moment at which it was given, so that equal answers in flight stay apart.

  /** A vote request of session `sid`, composed from the log `snapshot`. */
  datatype VoteMsg = VoteMsg(to: NodeId, sid: nat, body: VoteRequest, snapshot: Log)

  datatype VoteAns = VoteAns(msg: VoteMsg, body: VoteResponse, voterLog: Log, moment: nat)

  datatype AppendMsg = AppendMsg(to: NodeId, sid: nat, heartbeat: bool, body: AppendRequest, snapshot: Log)

  datatype AppendAns = AppendAns(msg: AppendMsg, body: AppendResponse, logAfter: Log, moment: nat)

  // ----- History

  /** `voter` set its vote to `candidate` in `term`, whether or not it then found the candidate's log complete. */
  datatype Support = Support(voter: NodeId, term: nat, candidate: NodeId)

  /** The request was granted, by a voter whose term was `ourTerm` and whose log was `voterLog`. */
  datatype Grant = Grant(msg: VoteMsg, ourTerm: nat, voterLog: Log, moment: nat)

  /** `leader` won `term` with the given votes, its own included. */
  datatype Election = Election(term: nat, leader: NodeId, log: Log, votes: map<NodeId, Grant>)

  /** `node` was in `term` with this log at some moment. */
  datatype Held = Held(node: NodeId, term: nat, log: Log)

  datatype History = History(
    base: Log,
    supports: set<Support>,
    grants: set<Grant>,
    counted: map<(NodeId, nat), map<NodeId, Grant>>,
    elections: set<Election>,
    leaderLog: map<nat, Log>,
    held: set<Held>,
    clock: nat)

  datatype State = State(
    nodes: map<NodeId, Node>,
    voteMsgs: set<VoteMsg>,
    voteAnswers: set<VoteAns>,
    appendMsgs: set<AppendMsg>,
    appendAnswers: set<AppendAns>,
    hist: History)

  /** The grants counted so far by session `sid` of node `n`, by voter. */
  ghost function Counted(h: History, n: NodeId, sid: nat): map<NodeId, Grant> {
    if (n, sid) in h.counted then h.counted[(n, sid)] else map[]
  }

  ghost predicate LiveBallot(n: Node) {
    n.role.Candidate? && n.ballot.Some?
  }

  ghost predicate Leads(s: State, n: NodeId, term: nat) {
    n in s.nodes && s.nodes[n].role.Leader? && s.nodes[n].term == term
  }

  // ----- Initial states

  ghost function TermsOf(log: Log): set<nat> {
    set i | 0 <= i < |log| :: log[i].term
  }

  ghost predicate FreshNode(n: Node, base: Log) {
    && n.role.Follower? && n.hint.None? && n.log == base && n.commit <= |base| && n.term >= LastTerm(base)
    && n.epoch == 0 && n.ballot.None? && n.repl.None? && n.peers == map[]
  }

  /** Every node starts as a follower with the same stored log, empty in a new cluster. */
  ghost predicate Init(cfg: Config, s: State) {
    && cfg.Valid()
    && s.nodes.Keys == cfg.Nodes()
    && s.voteMsgs == {} && s.voteAnswers == {} && s.appendMsgs == {} && s.appendAnswers == {}
    && Ordered(s.hist.base)
    && (forall n | n in s.nodes :: FreshNode(s.nodes[n], s.hist.base))
    && s.hist == History(s.hist.base, {}, {}, map[], {}, map t | t in TermsOf(s.hist.base) :: s.hist.base,
                         set n | n in s.nodes :: Held(n, s.nodes[n].term, s.hist.base), 0)
  }

  // ----- Actions

  /** `StartBallot` covers the first session of a candidate and every restart.  The actions of a session (`SendVote`,
      `SendHeartbeat`, `SendEntries`, and the handling of answers) have no role guard, since the tasks of a session
      outlive its role.  `SendEntries` may use any next index from which a request can be composed.  Requests stay in
      `voteMsgs` and `appendMsgs`, so that they may be lost, delayed, reordered or repeated. */
  datatype Action =
    | Timeout(n: NodeId)
    | StartBallot(n: NodeId)
    | NoPeers(n: NodeId)
    | SendVote(n: NodeId, sid: nat, to: NodeId)
    | TakeVote(vote: VoteMsg)
    | TakeVoteAns(voteAns: VoteAns)
    | Win(n: NodeId)
    | StartReplication(n: NodeId)
    | ClientAppend(n: NodeId, command: string)
    | SendHeartbeat(n: NodeId, sid: nat, to: NodeId)
    | SendEntries(n: NodeId, sid: nat, to: NodeId, next: nat)
    | TakeAppend(append: AppendMsg)
    | TakeAppendAns(appendAns: AppendAns)
    | Stop(n: NodeId)

  /** The node an action runs on. */
  function Actor(a: Action): NodeId {
    match a
    case TakeVote(m) => m.to
    case TakeVoteAns(v) => v.msg.body.candidate
    case TakeAppend(m) => m.to
    case TakeAppendAns(v) => v.msg.body.leader
    case _ => a.n
  }

  ghost predicate Enabled(cfg: Config, s: State, a: Action) {
    && s.nodes.Keys == cfg.Nodes()
    && Actor(a) in s.nodes
    && var n := s.nodes[Actor(a)];
    match a
    case Timeout(_) => n.role.Follower?
    case StartBallot(_) => n.role.Candidate?
    case NoPeers(i) => LiveBallot(n) && cfg.Others(i) == {}
    case SendVote(i, sid, to) => 1 <= sid <= n.epoch && to in cfg.Others(i)
    case TakeVote(m) => m in s.voteMsgs && !n.role.Shutdown?
    case TakeVoteAns(v) => v in s.voteAnswers
    case Win(_) => LiveBallot(n) && n.ballot.value.decided
    case StartReplication(_) => n.role.Leader? && n.repl.None?
    case ClientAppend(_, _) => n.role.Leader?
    case SendHeartbeat(i, sid, to) => sid in n.peers && to in cfg.Others(i)
    case SendEntries(i, sid, to, next) => sid in n.peers && to in cfg.Others(i) && Composable(n.log, next)
    case TakeAppend(m) => m in s.appendMsgs && !n.role.Shutdown?
    case TakeAppendAns(v) => v in s.appendAnswers
    case Stop(_) => !n.role.Shutdown?
  }

  ghost predicate Live(n: Node, v: VoteAns) {
    LiveBallot(n) && n.ballot.value.sid == v.msg.sid
  }

  ghost predicate LiveLeader(n: Node, v: AppendAns) {
    n.role.Leader? && n.repl == Some(v.msg.sid)
  }

  /** What the reply does to the node: late replies can still make it step down, but no longer count. */
  ghost function AfterVoteAns(cfg: Config, i: NodeId, n: Node, v: VoteAns): Node
    requires i in cfg.members
  {
    if StepsDown(v.body) then StepDown(n, v.body.term)
    else if Live(n, v) then n.(ballot := Some(Tally(n.ballot.value, v.body, |cfg.members[i]|)))
    else n
  }

  /** The acting node after the action. */
  ghost function NodeAfter(cfg: Config, s: State, a: Action): Node
    requires Enabled(cfg, s, a)
  {
    var i := Actor(a);
    var n := s.nodes[i];
    match a
    case Timeout(_) => n.(role := Candidate, ballot := None)
    case StartBallot(_) => OpenBallot(i, n)
    case NoPeers(_) => n.(ballot := Some(n.ballot.value.(decided := true)))
    case SendVote(_, _, _) => n
    case TakeVote(m) => OnVoteRequest(i, n, m.body).node
    case TakeVoteAns(v) => AfterVoteAns(cfg, i, n, v)
    case Win(_) => n.(role := Leader, repl := None)
    case StartReplication(_) => OpenReplication(n, cfg.Others(i))
    case ClientAppend(_, command) => n.(log := n.log + [Entry(n.term, command)])
    case SendHeartbeat(_, _, _) => n
    case SendEntries(_, _, _, _) => n
    case TakeAppend(m) => OnAppendRequest(i, n, m.body).node
    case TakeAppendAns(v) =>
      if v.msg.heartbeat then OnHeartbeatReply(n, v.msg.sid, v.body) else OnEntriesReply(n, v.msg.sid, v.body)
    case Stop(_) => n.(role := Shutdown)
  }

  /** The request session `sid` of node `i` sends to `to`, or notes as its own vote. */
  function Ask(i: NodeId, n: Node, sid: nat, to: NodeId): VoteMsg {
    VoteMsg(to, sid, AskVote(i, n), n.log)
  }

  function GrantOf(v: VoteAns): Grant {
    Grant(v.msg, v.body.term, v.voterLog, v.moment)
  }

  // What each part of the state becomes.

  ghost function VoteMsgsAfter(cfg: Config, s: State, a: Action): set<VoteMsg>
    requires Enabled(cfg, s, a)
  {
    if a.SendVote? then s.voteMsgs + {Ask(a.n, s.nodes[a.n], a.sid, a.to)} else s.voteMsgs
  }

  ghost function VoteAnswersAfter(cfg: Config, s: State, a: Action): set<VoteAns>
    requires Enabled(cfg, s, a)
  {
    match a
    case TakeVote(m) =>
      var n := s.nodes[m.to];
      s.voteAnswers + {VoteAns(m, OnVoteRequest(m.to, n, m.body).response, n.log, s.hist.clock)}
    case TakeVoteAns(v) => s.voteAnswers - {v}
    case _ => s.voteAnswers
  }

  ghost function AppendMsgsAfter(cfg: Config, s: State, a: Action): set<AppendMsg>
    requires Enabled(cfg, s, a)
  {
    match a
    case SendHeartbeat(i, sid, to) =>
      s.appendMsgs + {AppendMsg(to, sid, true, Heartbeat(i, s.nodes[i]), s.nodes[i].log)}
    case SendEntries(i, sid, to, next) =>
      s.appendMsgs + {AppendMsg(to, sid, false, Compose(i, s.nodes[i], next), s.nodes[i].log)}
    case _ => s.appendMsgs
  }

  ghost function AppendAnswersAfter(cfg: Config, s: State, a: Action): set<AppendAns>
    requires Enabled(cfg, s, a)
  {
    match a
    case TakeAppend(m) =>
      var o := OnAppendRequest(m.to, s.nodes[m.to], m.body);
      s.appendAnswers + {AppendAns(m, o.response, o.node.log, s.hist.clock)}
    case TakeAppendAns(v) => s.appendAnswers - {v}
    case _ => s.appendAnswers
  }

  // What each part of the history becomes.

  ghost function SupportsAfter(cfg: Config, s: State, a: Action): set<Support>
    requires Enabled(cfg, s, a)
  {
    match a
    case StartBallot(i) => s.hist.supports + {Support(i, s.nodes[i].term + 1, i)}
    case TakeVote(m) =>
      var r := OnVoteRequest(m.to, s.nodes[m.to], m.body).response.reason;
      if r.IncompleteLog? || r.VoteGranted? then s.hist.supports + {Support(m.to, m.body.term, m.body.candidate)}
      else s.hist.supports
    case _ => s.hist.supports
  }

  /** The vote a live session casts for its own node. */
  function OwnGrant(i: NodeId, n: Node, sid: nat): Grant {
    Grant(Ask(i, n, sid, i), n.term, n.log, 0)
  }

  ghost function GrantsAfter(cfg: Config, s: State, a: Action): set<Grant>
    requires Enabled(cfg, s, a)
  {
    match a
    case StartBallot(i) => s.hist.grants + {OwnGrant(i, OpenBallot(i, s.nodes[i]), s.nodes[i].epoch + 1)}
    case TakeVote(m) =>
      var n := s.nodes[m.to];
      if OnVoteRequest(m.to, n, m.body).response.granted then s.hist.grants + {Grant(m, n.term, n.log, s.hist.clock)}
      else s.hist.grants
    case _ => s.hist.grants
  }

  /** The action makes a live session count a granted vote. */
  ghost predicate Counts(s: State, a: Action) {
    && a.TakeVoteAns? && Actor(a) in s.nodes
    && Live(s.nodes[Actor(a)], a.voteAns) && !StepsDown(a.voteAns.body) && a.voteAns.body.granted
  }

  ghost function CountedAfter(cfg: Config, s: State, a: Action): map<(NodeId, nat), map<NodeId, Grant>>
    requires Enabled(cfg, s, a)
  {
    if Counts(s, a) then
      var (i, v) := (Actor(a), a.voteAns);
      s.hist.counted[(i, v.msg.sid) := Counted(s.hist, i, v.msg.sid)[v.msg.to := GrantOf(v)]]
    else s.hist.counted
  }

  /** The election that node `i` wins with its live session. */
  ghost function ElectionOf(s: State, i: NodeId): Election
    requires i in s.nodes && LiveBallot(s.nodes[i])
  {
    var n := s.nodes[i];
    var sid := n.ballot.value.sid;
    Election(n.term, i, n.log, Counted(s.hist, i, sid)[i := OwnGrant(i, n, sid)])
  }

  ghost function ElectionsAfter(cfg: Config, s: State, a: Action): set<Election>
    requires Enabled(cfg, s, a)
  {
    if a.Win? then s.hist.elections + {ElectionOf(s, a.n)} else s.hist.elections
  }

  ghost function LeaderLogAfter(cfg: Config, s: State, a: Action): map<nat, Log>
    requires Enabled(cfg, s, a)
  {
    match a
    case Win(i) => s.hist.leaderLog[s.nodes[i].term := s.nodes[i].log]
    case ClientAppend(i, command) =>
      s.hist.leaderLog[s.nodes[i].term := s.nodes[i].log + [Entry(s.nodes[i].term, command)]]
    case _ => s.hist.leaderLog
  }

  ghost function Do(cfg: Config, s: State, a: Action): State
    requires Enabled(cfg, s, a)
  {
    var i := Actor(a);
    var n' := NodeAfter(cfg, s, a);
    State(
      s.nodes[i := n'],
      VoteMsgsAfter(cfg, s, a),
      VoteAnswersAfter(cfg, s, a),
      AppendMsgsAfter(cfg, s, a),
      AppendAnswersAfter(cfg, s, a),
      History(
        s.hist.base,
        SupportsAfter(cfg, s, a),
        GrantsAfter(cfg, s, a),
        CountedAfter(cfg, s, a),
        ElectionsAfter(cfg, s, a),
        LeaderLogAfter(cfg, s, a),
        s.hist.held + {Held(i, n'.term, n'.log)},
        s.hist.clock + 1))
  }

  // ----- Runs

  /** A finite run; `states[k + 1]` is reached from `states[k]` by `acts[k]`. */
  datatype Run = Run(states: seq<State>, acts: seq<Action>)

  ghost predicate StepAt(cfg: Config, r: Run, k: nat) {
    && k < |r.acts| && k + 1 < |r.states|
    && Enabled(cfg, r.states[k], r.acts[k])
    && r.states[k + 1] == Do(cfg, r.states[k], r.acts[k])
  }

  ghost predicate ValidRun(cfg: Config, r: Run) {
    && |r.states| == |r.acts| + 1
    && Init(cfg, r.states[0])
    && forall k: nat | k < |r.acts| :: StepAt(cfg, r, k)
  }

  /** No node's term falls in the step. */
  ghost predicate TermsRise(s: State, s': State) {
    forall n | n in s.nodes && n in s'.nodes :: s.nodes[n].term <= s'.nodes[n].term
  }

  ghost predicate TermsRiseAt(r: Run, k: nat) {
    k + 1 < |r.states| && TermsRise(r.states[k], r.states[k + 1])
  }

  /** Run hypothesis: no node's term ever falls. */
  ghost predicate TermMonotone(r: Run) {
    forall k: nat | k < |r.acts| :: TermsRiseAt(r, k)
  }

  ghost predicate SentByLeader(s: State, a: Action) {
    a.SendHeartbeat? || a.SendEntries? ==> a.n in s.nodes && s.nodes[a.n].role.Leader?
  }

  ghost predicate SentByLeaderAt(r: Run, k: nat) {
    k < |r.acts| && k < |r.states| && SentByLeader(r.states[k], r.acts[k])
  }

  /** Run hypothesis: only a node that is leader at that moment sends append requests. */
  ghost predicate SendersLead(r: Run) {
    forall k: nat | k < |r.acts| :: SentByLeaderAt(r, k)
  }
}
