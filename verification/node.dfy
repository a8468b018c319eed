/** One node, and what each handler of the source does to it as a function on values. */
module NodeSteps {
  import opened Types
  import opened Median

  /** A vote session: `decided` says that a result is waiting on its channel. */
  datatype Ballot = Ballot(sid: nat, acked: set<NodeId>, granted: nat, decided: bool)

  /** A node.  `epoch` numbers the sessions it has opened, since replies are routed to sessions and sessions
      outlive the role that opened them; `ballot` and `repl` are the sessions its current role listens to, and
      `peers` holds the progress table of every replication session. */
  datatype Node = Node(
    term: nat,
    votedFor: Option<NodeId>,
    role: Role,
    hint: Option<NodeId>,
    log: Log,
    commit: nat,
    epoch: nat,
    ballot: Option<Ballot>,
    repl: Option<nat>,
    peers: map<nat, Peers>)

  datatype VoteOutcome = VoteOutcome(node: Node, response: VoteResponse)

  datatype AppendOutcome = AppendOutcome(node: Node, response: AppendResponse)

  // ----- Request handlers

  function OnVoteRequest(me: NodeId, n: Node, r: VoteRequest): VoteOutcome {
    if n.term == r.term && n.votedFor.Some? then
      VoteOutcome(n, VoteResponse(n.term, false, me, AlreadyVoted))
    else if n.term > r.term then
      VoteOutcome(n, VoteResponse(n.term, false, me, StaleCandidate))
    else
      var n' := n.(term := r.term, votedFor := Some(r.candidate), role := Follower);
      if AheadOf(n.log, r.lastTerm, r.lastIndex) then
        VoteOutcome(n', VoteResponse(n.term, false, me, IncompleteLog))
      else
        VoteOutcome(n', VoteResponse(n.term, true, me, VoteGranted))
  }

  /** The follower refuses to append after `prevIndex`: it has no such entry, or one of another term. */
  predicate Mismatch(log: Log, r: AppendRequest) {
    |log| < r.prevIndex || (r.prevIndex > 0 && log[r.prevIndex - 1].term != r.prevTerm)
  }

  function OnAppendRequest(me: NodeId, n: Node, r: AppendRequest): AppendOutcome {
    if n.term > r.term then
      AppendOutcome(n, AppendResponse(n.term, false, me, 0, StaleLeader))
    else
      var n' := n.(term := r.term, hint := Some(r.leader), role := Follower);
      if Mismatch(n.log, r) then
        AppendOutcome(n', AppendResponse(n.term, false, me, 0, LogMismatch))
      else
        var log := RemoveAfter(n.log, r.prevIndex) + r.entries;
        AppendOutcome(n'.(log := log, commit := Min(r.commit, |log|)),
                      AppendResponse(n.term, true, me, |r.entries|, Appended))
  }

  /** The reply to a client that reaches a follower or a candidate. */
  function OnClientRequest(n: Node): ClientReply {
    match n.hint
    case Some(l) => Redirect(l)
    case None => NoLeaderYet
  }

  // ----- Vote sessions

  /** A vote session opens: a new term, a vote for oneself, and no peer heard from. */
  function OpenBallot(me: NodeId, n: Node): Node {
    n.(term := n.term + 1, votedFor := Some(me), epoch := n.epoch + 1,
       ballot := Some(Ballot(n.epoch + 1, {}, 1, false)))
  }

  function AskVote(me: NodeId, n: Node): VoteRequest {
    VoteRequest(n.term, me, |n.log|, LastTerm(n.log))
  }

  predicate StepsDown(v: VoteResponse) {
    v.reason.StaleCandidate? || v.reason.IncompleteLog?
  }

  /** The node adopts the term of a reply and becomes a follower. */
  function StepDown(n: Node, term: nat): Node {
    n.(term := term, role := Follower)
  }

  /** The quorum test, on the size of the membership map, which may or may not list the node itself. */
  predicate Enough(granted: nat, members: nat) {
    granted > (members + 1) / 2
  }

  /** What a reply that does not end the session does to the ballot. */
  function Tally(b: Ballot, v: VoteResponse, members: nat): Ballot {
    if v.granted then
      b.(acked := b.acked + {v.id}, granted := b.granted + 1, decided := b.decided || Enough(b.granted + 1, members))
    else
      b.(acked := b.acked + {v.id})
  }

  // ----- Replication sessions

  function OpenReplication(n: Node, others: set<NodeId>): Node {
    n.(epoch := n.epoch + 1, repl := Some(n.epoch + 1),
       peers := n.peers[n.epoch + 1 := map p | p in others :: Progress(n.commit + 1, None)])
  }

  function Heartbeat(me: NodeId, n: Node): AppendRequest {
    AppendRequest(n.term, me, n.commit, 0, 0, [])
  }

  /** A replication request can be composed only if the entry before `next` exists. */
  predicate Composable(log: Log, next: nat) {
    next >= 2 && next <= |log| + 1
  }

  function Compose(me: NodeId, n: Node, next: nat): AppendRequest
    requires Composable(n.log, next)
  {
    AppendRequest(n.term, me, n.commit, next - 1, n.log[next - 2].term, EntriesFrom(n.log, next))
  }

  predicate Stale(peers: Peers, p: NodeId, commit: nat) {
    p in peers && peers[p].next <= commit
  }

  /** Handling the reply panics, which leaves everything as it was: it comes from a peer not in the table, or it would
      subtract from zero. */
  predicate Panics(peers: Peers, v: AppendResponse) {
    match v.reason
    case StaleLeader => false
    case LogMismatch => v.id !in peers || peers[v.id].next == 0
    case Appended => v.id !in peers || peers[v.id].next + v.len == 0
  }

  /** The progress table after a mismatch. */
  function BackOff(peers: Peers, p: NodeId): Peers
    requires p in peers && peers[p].next > 0
  {
    peers[p := peers[p].(next := peers[p].next - 1)]
  }

  /** The progress table after a success: the new next index is added to the old one. */
  function Credit(peers: Peers, p: NodeId, len: nat): Peers
    requires p in peers && peers[p].next + len > 0
  {
    var next := peers[p].next + len;
    peers[p := Progress(peers[p].next + next, Some(next - 1))]
  }

  /** The commit index after the Ok arm consulted the median. */
  ghost function Advance(n: Node, peers: Peers): nat {
    match CommitTarget(n.log, n.term, peers)
    case Some(i) => if n.commit < i then i else n.commit
    case None => n.commit
  }

  /** Reply to a heartbeat. */
  function OnHeartbeatReply(n: Node, sid: nat, v: AppendResponse): Node {
    match v.reason
    case StaleLeader => StepDown(n, v.term)
    case LogMismatch =>
      if sid in n.peers && !Panics(n.peers[sid], v) then n.(peers := n.peers[sid := BackOff(n.peers[sid], v.id)]) else n
    case Appended => n
  }

  /** Reply to a replication request. */
  ghost function OnEntriesReply(n: Node, sid: nat, v: AppendResponse): Node {
    match v.reason
    case StaleLeader => StepDown(n, v.term)
    case LogMismatch =>
      if sid in n.peers && !Panics(n.peers[sid], v) then n.(peers := n.peers[sid := BackOff(n.peers[sid], v.id)]) else n
    case Appended =>
      if sid in n.peers && !Panics(n.peers[sid], v) then
        var table := Credit(n.peers[sid], v.id, v.len);
        n.(peers := n.peers[sid := table], commit := Advance(n, table))
      else n
  }
}
