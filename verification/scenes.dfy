/** Building runs of three nodes step by step. */
module Scenes {
  import opened Types
  import opened Median
  import opened NodeSteps
  import opened Cluster
  import opened AnyRun
  import opened Votes
  import opened Elections
  import opened Logs
  import opened Runs
  import opened Majorities
  import opened Replication
  import opened Truncation
  import opened Commits

  /** Three nodes, none listed in its own membership map. */
  ghost function Three(): Config {
    Config(map[0 := {1, 2}, 1 := {0, 2}, 2 := {0, 1}])
  }

  lemma ThreeFacts(c: NodeId, v: NodeId)
    requires c in Three().Nodes() && v in Three().Nodes() && c != v
    ensures v in Three().Others(c) && |Three().members[c]| == 2
  {
  }

  /** Session `sid` of `node` committed index `index`, where its log has `entry`, by the median. */
  datatype Commit = Commit(node: NodeId, sid: nat, index: nat, entry: Entry)

  ghost predicate CommitsAs(r: Run, k: nat, x: Commit) {
    && CommitsAt(r, k, x.node, x.sid) && x.index > 0 && r.states[k + 1].nodes[x.node].commit == x.index
    && Has(r.states[k + 1].nodes[x.node].log, x.index - 1, x.entry)
  }

  ghost predicate Committed(r: Run, x: Commit) {
    exists k: nat :: CommitsAs(r, k, x)
  }

  /** Some of what the nodes have been in a run, what they are now, some answers still in flight, and a commit; `rising`
      if no term has fallen, `sparing` if no accepted append has taken from its follower what it shared with the leader,
      and `plain` if no success has been credited. */
  datatype Scene = Scene(past: set<map<NodeId, Node>>, nodes: map<NodeId, Node>, pending: set<VoteAns>,
    done: Option<Commit>, rising: bool, sparing: bool, plain: bool)

  ghost predicate Visited(r: Run, nodes: map<NodeId, Node>) {
    exists k: nat | k < |r.states| :: r.states[k].nodes == nodes
  }

  ghost predicate NoCreditAt(r: Run, k: nat) {
    k < |r.acts| && k < |r.states| && !Credits(r.states[k], r.acts[k])
  }

  ghost predicate NoCredits(r: Run) {
    forall k: nat | k < |r.acts| :: NoCreditAt(r, k)
  }

  ghost function Last(r: Run): State
    requires r.states != []
  {
    r.states[|r.states| - 1]
  }

  /** A run of the three nodes, with append requests from leaders only, that has come to the scene. */
  ghost predicate At(r: Run, sc: Scene) {
    && r.states != [] && ValidRun(Three(), r) && SendersLead(r) && (sc.rising ==> TermMonotone(r))
    && sc.nodes.Keys == Three().Nodes() && Last(r).nodes == sc.nodes && sc.pending <= Last(r).voteAnswers
    && (sc.sparing ==> SparesAll(r)) && (forall ns | ns in sc.past :: Visited(r, ns))
    && (sc.plain ==> NoCredits(r)) && (sc.done.Some? ==> Committed(r, sc.done.value))
  }

  lemma Extend(cfg: Config, r: Run, a: Action) returns (r': Run)
    requires ValidRun(cfg, r) && Enabled(cfg, Last(r), a)
    ensures ValidRun(cfg, r') && r'.states == r.states + [Do(cfg, Last(r), a)] && r'.acts == r.acts + [a]
    ensures TermMonotone(r) && TermsRise(Last(r), Last(r')) ==> TermMonotone(r')
    ensures SendersLead(r) && SentByLeader(Last(r), a) ==> SendersLead(r')
    ensures SparesAll(r) && SparesStep(Last(r), a) ==> SparesAll(r')
    ensures NoCredits(r) && !Credits(Last(r), a) ==> NoCredits(r')
  {
    hide Init, Do, Enabled, TermsRise, SentByLeader, SparesStep, Credits;
    r' := Run(r.states + [Do(cfg, Last(r), a)], r.acts + [a]);
    forall k: nat | k < |r'.acts| ensures StepAt(cfg, r', k) {
      if k < |r.acts| { assert StepAt(cfg, r, k); }
    }
    if TermMonotone(r) && TermsRise(Last(r), Last(r')) {
      forall k: nat | k < |r'.acts| ensures TermsRiseAt(r', k) {
        if k < |r.acts| { assert TermsRiseAt(r, k); }
      }
    }
    if SendersLead(r) && SentByLeader(Last(r), a) {
      forall k: nat | k < |r'.acts| ensures SentByLeaderAt(r', k) {
        if k < |r.acts| { assert SentByLeaderAt(r, k); }
      }
    }
    if SparesAll(r) && SparesStep(Last(r), a) {
      forall k: nat | k < |r'.acts| ensures SparesAt(r', k) {
        if k < |r.acts| { assert SparesAt(r, k); }
      }
    }
    if NoCredits(r) && !Credits(Last(r), a) {
      forall k: nat | k < |r'.acts| ensures NoCreditAt(r', k) {
        if k < |r.acts| { assert NoCreditAt(r, k); }
      }
    }
  }

  lemma CommittedStill(r: Run, r': Run, x: Commit)
    requires Committed(r, x) && r.states <= r'.states && r.acts <= r'.acts
    ensures Committed(r', x)
  {
    var k: nat :| CommitsAs(r, k, x);
    hide Credits, LiveLeader, Reported, InPlace;
    forall j: nat | j < k + 1 && CreditAt(r', j, x.node, x.sid) ensures InPlace(r'.states[j], r'.acts[j]) {
      assert CreditAt(r, j, x.node, x.sid);
    }
    assert CommitsAs(r', k, x);
  }

  lemma VisitedStill(r: Run, r': Run, nodes: map<NodeId, Node>)
    requires Visited(r, nodes) && r.states <= r'.states
    ensures Visited(r', nodes)
  {
    var k: nat :| k < |r.states| && r.states[k].nodes == nodes;
    assert r'.states[k] == r.states[k];
  }

  /** Takes one more action. */
  lemma Go(r: Run, sc: Scene, a: Action, sc': Scene) returns (r': Run)
    requires At(r, sc) && Enabled(Three(), Last(r), a) && SentByLeader(Last(r), a)
    requires sc'.nodes == sc.nodes[Actor(a) := NodeAfter(Three(), Last(r), a)] && sc'.past == sc.past
    requires sc'.pending <= VoteAnswersAfter(Three(), Last(r), a) && sc'.done == sc.done
    requires sc'.rising ==> sc.rising && sc.nodes[Actor(a)].term <= NodeAfter(Three(), Last(r), a).term
    requires sc'.sparing ==> sc.sparing && SparesStep(Last(r), a)
    requires sc'.plain ==> sc.plain && !Credits(Last(r), a)
    ensures At(r', sc') && r'.states == r.states + [Do(Three(), Last(r), a)] && r'.acts == r.acts + [a]
  {
    hide Init, NodeAfter, VoteAnswersAfter, Three, Visited, SparesStep, SparesAll, Credits, NoCredits, Committed;
    r' := Extend(Three(), r, a);
    forall ns | ns in sc.past ensures Visited(r', ns) { VisitedStill(r, r', ns); }
    if sc.done.Some? { CommittedStill(r, r', sc.done.value); }
  }

  lemma Remembers(r: Run, sc: Scene) returns (sc': Scene)
    requires At(r, sc)
    ensures At(r, sc') && sc' == sc.(past := sc.past + {sc.nodes})
  {
    sc' := sc.(past := sc.past + {sc.nodes});
    hide Three, ValidRun, SendersLead, TermMonotone, SparesAll, NoCredits, Committed;
    var end: nat := |r.states| - 1;
    assert r.states[end].nodes == sc.nodes;
  }

  function Started(term: nat, log: Log, commit: nat): Node {
    Node(term, None, Follower, None, log, commit, 0, None, None, map[])
  }

  lemma Begin(term: nat, log: Log, commit: nat) returns (r: Run, sc: Scene)
    requires Ordered(log) && LastTerm(log) <= term && commit <= |log|
    ensures var n := Started(term, log, commit);
            sc == Scene({}, map[0 := n, 1 := n, 2 := n], {}, None, true, true, true)
    ensures At(r, sc)
  {
    var n := Started(term, log, commit);
    var nodes := map[0 := n, 1 := n, 2 := n];
    assert nodes.Keys == Three().Nodes();
    var h := History(log, {}, {}, map[], {}, map t | t in TermsOf(log) :: log,
                     set i | i in nodes :: Held(i, nodes[i].term, log), 0);
    r, sc := Run([State(nodes, {}, {}, {}, {}, h)], []), Scene({}, nodes, {}, None, true, true, true);
  }

  lemma TimesOut(r: Run, sc: Scene, c: NodeId) returns (r': Run, sc': Scene)
    requires At(r, sc) && c in sc.nodes && sc.nodes[c].role.Follower?
    ensures sc' == sc.(nodes := sc.nodes[c := sc.nodes[c].(role := Candidate, ballot := None)]) && At(r', sc')
  {
    hide ValidRun, SendersLead, TermMonotone, SparesAll, NoCredits, Committed, Three;
    sc' := sc.(nodes := sc.nodes[c := sc.nodes[c].(role := Candidate, ballot := None)]);
    r' := Go(r, sc, Timeout(c), sc');
  }

  lemma Opens(r: Run, sc: Scene, c: NodeId) returns (r': Run, sc': Scene)
    requires At(r, sc) && c in sc.nodes && sc.nodes[c].role.Candidate?
    ensures sc' == sc.(nodes := sc.nodes[c := OpenBallot(c, sc.nodes[c])]) && At(r', sc')
  {
    hide ValidRun, SendersLead, TermMonotone, SparesAll, NoCredits, Committed, Three;
    sc' := sc.(nodes := sc.nodes[c := OpenBallot(c, sc.nodes[c])]);
    r' := Go(r, sc, StartBallot(c), sc');
  }

  /** The node after it timed out and opened `ballots` ballots in a row. */
  function Standing(c: NodeId, n: Node, ballots: nat): Node {
    if ballots == 0 then n.(role := Candidate, ballot := None) else OpenBallot(c, Standing(c, n, ballots - 1))
  }

  lemma {:induction false} Stands(r: Run, sc: Scene, c: NodeId, ballots: nat) returns (r': Run, sc': Scene)
    requires At(r, sc) && c in sc.nodes && sc.nodes[c].role.Follower?
    ensures sc' == sc.(nodes := sc.nodes[c := Standing(c, sc.nodes[c], ballots)]) && At(r', sc')
    ensures Standing(c, sc.nodes[c], ballots).role.Candidate?
  {
    hide At;
    if ballots == 0 {
      r', sc' := TimesOut(r, sc, c);
    } else {
      r', sc' := Stands(r, sc, c, ballots - 1);
      r', sc' := Opens(r', sc', c);
    }
  }

  lemma Sends(r: Run, sc: Scene, c: NodeId, v: NodeId) returns (r': Run)
    requires At(r, sc) && c in sc.nodes && v in sc.nodes && c != v && sc.nodes[c].epoch >= 1
    ensures At(r', sc) && Ask(c, sc.nodes[c], sc.nodes[c].epoch, v) in Last(r').voteMsgs
  {
    hide ValidRun, SendersLead, TermMonotone, SparesAll, NoCredits, Committed, Three;
    ThreeFacts(c, v);
    assert sc.nodes[c := sc.nodes[c]] == sc.nodes;
    r' := Go(r, sc, SendVote(c, sc.nodes[c].epoch, v), sc);
  }

  lemma Takes(r: Run, sc: Scene, m: VoteMsg) returns (r': Run, sc': Scene, v: VoteAns)
    requires At(r, sc) && m in Last(r).voteMsgs && m.to in sc.nodes && !sc.nodes[m.to].role.Shutdown?
    ensures var o := OnVoteRequest(m.to, sc.nodes[m.to], m.body);
            && v == VoteAns(m, o.response, sc.nodes[m.to].log, Last(r).hist.clock)
            && sc' == sc.(nodes := sc.nodes[m.to := o.node], pending := sc.pending + {v})
    ensures At(r', sc') && v !in sc.pending
  {
    hide ValidRun, SendersLead, TermMonotone, SparesAll, NoCredits, Committed, Three;
    var o := OnVoteRequest(m.to, sc.nodes[m.to], m.body);
    v := VoteAns(m, o.response, sc.nodes[m.to].log, Last(r).hist.clock);
    sc' := sc.(nodes := sc.nodes[m.to := o.node], pending := sc.pending + {v});
    NotGivenYet(r, sc, v);
    r' := Go(r, sc, TakeVote(m), sc');
  }

  lemma NotGivenYet(r: Run, sc: Scene, v: VoteAns)
    requires At(r, sc) && v.moment == Last(r).hist.clock
    ensures v !in sc.pending
  {
    hide Three, ValidRun, SendersLead, TermMonotone, SparesAll, NoCredits, Committed, NodeInv, VoteMsgInv, AppendMsgInv;
    var end: nat := |r.states| - 1;
    BasicHolds(Three(), r, end);
    forall w | w in sc.pending ensures w.moment < Last(r).hist.clock { assert VoteAnsInv(Last(r), w); }
  }

  /** A candidate asks a peer, and the peer answers. */
  lemma Asks(r: Run, sc: Scene, c: NodeId, v: NodeId) returns (r': Run, sc': Scene, ans: VoteAns)
    requires At(r, sc) && c in sc.nodes && v in sc.nodes && c != v && sc.nodes[c].epoch >= 1
    requires !sc.nodes[v].role.Shutdown?
    ensures var o := OnVoteRequest(v, sc.nodes[v], AskVote(c, sc.nodes[c]));
            && ans.msg == Ask(c, sc.nodes[c], sc.nodes[c].epoch, v) && ans.body == o.response
            && sc' == sc.(nodes := sc.nodes[v := o.node], pending := sc.pending + {ans})
    ensures At(r', sc') && ans !in sc.pending
  {
    hide At, OnVoteRequest;
    r' := Sends(r, sc, c, v);
    r', sc', ans := Takes(r', sc, Ask(c, sc.nodes[c], sc.nodes[c].epoch, v));
  }

  /** A first granted vote reaches a candidate of three. */
  lemma CountsVote(r: Run, sc: Scene, c: NodeId, v: VoteAns) returns (r': Run, sc': Scene)
    requires At(r, sc) && c in sc.nodes && v in sc.pending && v.msg.body.candidate == c
        && v.msg.sid == sc.nodes[c].epoch
    requires v.msg.to in sc.nodes && v.msg.to != c && v.body.granted && v.body.reason.VoteGranted?
    requires sc.nodes[c].role.Candidate? && sc.nodes[c].ballot == Some(Ballot(sc.nodes[c].epoch, {}, 1, false))
    ensures var n := sc.nodes[c];
            sc' == sc.(nodes := sc.nodes[c := n.(ballot := Some(Ballot(n.epoch, {v.body.id}, 2, true)))],
                       pending := sc.pending - {v})
    ensures At(r', sc')
  {
    hide ValidRun, SendersLead, TermMonotone, SparesAll, NoCredits, Committed, Three;
    ThreeFacts(c, v.msg.to);
    var n := sc.nodes[c];
    assert {} + {v.body.id} == {v.body.id};
    assert Tally(n.ballot.value, v.body, 2) == Ballot(n.epoch, {v.body.id}, 2, true);
    sc' := sc.(nodes := sc.nodes[c := n.(ballot := Some(Ballot(n.epoch, {v.body.id}, 2, true)))],
               pending := sc.pending - {v});
    r' := Go(r, sc, TakeVoteAns(v), sc');
  }

  lemma Wins(r: Run, sc: Scene, c: NodeId) returns (r': Run, sc': Scene)
    requires At(r, sc) && c in sc.nodes && LiveBallot(sc.nodes[c]) && sc.nodes[c].ballot.value.decided
    ensures sc' == sc.(nodes := sc.nodes[c := sc.nodes[c].(role := Leader, repl := None)])
    ensures At(r', sc')
  {
    hide ValidRun, SendersLead, TermMonotone, SparesAll, NoCredits, Committed, Three;
    sc' := sc.(nodes := sc.nodes[c := sc.nodes[c].(role := Leader, repl := None)]);
    r' := Go(r, sc, Win(c), sc');
  }

  ghost predicate Electable(sc: Scene, c: NodeId, v: NodeId) {
    && c in sc.nodes && v in sc.nodes && c != v
    && var n := sc.nodes[c];
    && n.epoch >= 1 && n.role.Candidate? && n.ballot == Some(Ballot(n.epoch, {}, 1, false))
    && !sc.nodes[v].role.Shutdown? && sc.nodes[v].term < n.term && !AheadOf(sc.nodes[v].log, LastTerm(n.log), |n.log|)
  }

  ghost function ElectedBy(sc: Scene, c: NodeId, v: NodeId): Scene
    requires Electable(sc, c, v)
  {
    var (n, peer) := (sc.nodes[c], sc.nodes[v]);
    sc.(nodes := sc.nodes[v := peer.(term := n.term, votedFor := Some(c), role := Follower)]
                         [c := n.(role := Leader, repl := None, ballot := Some(Ballot(n.epoch, {v}, 2, true)))])
  }

  ghost function DecidedBy(sc: Scene, c: NodeId, v: NodeId): Scene
    requires Electable(sc, c, v)
  {
    var (n, peer) := (sc.nodes[c], sc.nodes[v]);
    sc.(nodes := sc.nodes[v := peer.(term := n.term, votedFor := Some(c), role := Follower)]
                         [c := n.(ballot := Some(Ballot(n.epoch, {v}, 2, true)))])
  }

  /** A candidate of three has a majority with the vote of node `v`. */
  lemma Decides(r: Run, sc: Scene, c: NodeId, v: NodeId) returns (r': Run, sc': Scene)
    requires At(r, sc) && Electable(sc, c, v)
    ensures sc' == DecidedBy(sc, c, v) && At(r', sc')
  {
    hide At, AheadOf;
    var ans;
    r', sc', ans := Asks(r, sc, c, v);
    r', sc' := CountsVote(r', sc', c, ans);
    assert sc.pending + {ans} - {ans} == sc.pending;
  }

  /** A candidate of three becomes leader with the vote of node `v`. */
  lemma Elects(r: Run, sc: Scene, c: NodeId, v: NodeId) returns (r': Run, sc': Scene)
    requires At(r, sc) && Electable(sc, c, v)
    ensures sc' == ElectedBy(sc, c, v) && At(r', sc')
  {
    hide At, AheadOf;
    r', sc' := Decides(r, sc, c, v);
    r', sc' := Wins(r', sc', c);
  }

  /** A leader appends a client's command. */
  lemma WritesEntry(r: Run, sc: Scene, c: NodeId, x: string) returns (r': Run, sc': Scene)
    requires At(r, sc) && c in sc.nodes && sc.nodes[c].role.Leader?
    ensures sc' == sc.(nodes := sc.nodes[c := sc.nodes[c].(log := sc.nodes[c].log + [Entry(sc.nodes[c].term, x)])])
    ensures At(r', sc')
  {
    hide ValidRun, SendersLead, TermMonotone, SparesAll, NoCredits, Committed, Three;
    sc' := sc.(nodes := sc.nodes[c := sc.nodes[c].(log := sc.nodes[c].log + [Entry(sc.nodes[c].term, x)])]);
    r' := Go(r, sc, ClientAppend(c, x), sc');
  }

  /** An answer makes the node that asked step down, perhaps to a lower term. */
  lemma StepsDownTo(r: Run, sc: Scene, v: VoteAns) returns (r': Run, sc': Scene)
    requires At(r, sc) && v in sc.pending && v.msg.body.candidate in sc.nodes && StepsDown(v.body)
    ensures var c := v.msg.body.candidate;
            sc' == sc.(nodes := sc.nodes[c := StepDown(sc.nodes[c], v.body.term)], pending := sc.pending - {v},
                       rising := sc.rising && sc.nodes[c].term <= v.body.term)
    ensures At(r', sc') && r.states <= r'.states && |r'.states| == |r.states| + 1
  {
    hide ValidRun, SendersLead, TermMonotone, SparesAll, NoCredits, Committed, Three;
    var c := v.msg.body.candidate;
    sc' := sc.(nodes := sc.nodes[c := StepDown(sc.nodes[c], v.body.term)], pending := sc.pending - {v},
               rising := sc.rising && sc.nodes[c].term <= v.body.term);
    r' := Go(r, sc, TakeVoteAns(v), sc');
  }

  /** The node after it took an append of a leader that has committed up to `commit`, which left it `log`. */
  function Followed(n: Node, term: nat, leader: NodeId, log: Log, commit: nat): Node {
    n.(term := term, hint := Some(leader), role := Follower, log := log, commit := Min(commit, |log|))
  }

  /** A leader of three opens its replication session. */
  lemma Replicates(r: Run, sc: Scene, c: NodeId) returns (r': Run, sc': Scene)
    requires At(r, sc) && c in sc.nodes && sc.nodes[c].role.Leader? && sc.nodes[c].repl.None?
    ensures sc' == sc.(nodes := sc.nodes[c := OpenReplication(sc.nodes[c], Three().Others(c))])
    ensures At(r', sc')
  {
    hide ValidRun, SendersLead, TermMonotone, SparesAll, NoCredits, Committed, Three;
    sc' := sc.(nodes := sc.nodes[c := OpenReplication(sc.nodes[c], Three().Others(c))]);
    r' := Go(r, sc, StartReplication(c), sc');
  }

  lemma SendsHeartbeat(r: Run, sc: Scene, c: NodeId, sid: nat, v: NodeId) returns (r': Run, m: AppendMsg)
    requires At(r, sc) && c in sc.nodes && v in sc.nodes && c != v && sc.nodes[c].role.Leader?
        && sid in sc.nodes[c].peers
    ensures At(r', sc) && m in Last(r').appendMsgs && m.to == v && m.body == Heartbeat(c, sc.nodes[c]) && m.heartbeat
  {
    hide ValidRun, SendersLead, TermMonotone, SparesAll, NoCredits, Committed, Three;
    ThreeFacts(c, v);
    assert sc.nodes[c := sc.nodes[c]] == sc.nodes;
    r' := Go(r, sc, SendHeartbeat(c, sid, v), sc);
    m := AppendMsg(v, sid, true, Heartbeat(c, sc.nodes[c]), sc.nodes[c].log);
  }

  lemma TakesHeartbeat(r: Run, sc: Scene, m: AppendMsg) returns (r': Run, sc': Scene)
    requires At(r, sc) && m in Last(r).appendMsgs && m.to in sc.nodes && !sc.nodes[m.to].role.Shutdown?
    requires sc.nodes[m.to].term <= m.body.term && m.body.prevIndex == 0 && m.body.entries == []
    ensures sc' == sc.(nodes := sc.nodes[m.to := Followed(sc.nodes[m.to], m.body.term, m.body.leader, [], 0)],
                       sparing := false)
    ensures At(r', sc')
  {
    hide ValidRun, SendersLead, TermMonotone, SparesAll, NoCredits, Committed, Three;
    sc' := sc.(nodes := sc.nodes[m.to := Followed(sc.nodes[m.to], m.body.term, m.body.leader, [], 0)],
               sparing := false);
    assert RemoveAfter(sc.nodes[m.to].log, 0) + [] == [];
    r' := Go(r, sc, TakeAppend(m), sc');
  }

  /** A leader's heartbeat empties the log of a peer that is not ahead of its term. */
  lemma Beats(r: Run, sc: Scene, c: NodeId, sid: nat, v: NodeId) returns (r': Run, sc': Scene)
    requires At(r, sc) && c in sc.nodes && v in sc.nodes && c != v && sc.nodes[c].role.Leader?
        && sid in sc.nodes[c].peers
    requires !sc.nodes[v].role.Shutdown? && sc.nodes[v].term <= sc.nodes[c].term
    ensures sc' == sc.(nodes := sc.nodes[v := Followed(sc.nodes[v], sc.nodes[c].term, c, [], 0)], sparing := false)
    ensures At(r', sc')
  {
    hide At;
    var m;
    r', m := SendsHeartbeat(r, sc, c, sid, v);
    r', sc' := TakesHeartbeat(r', sc, m);
  }

  /** A peer in a later term refuses a heartbeat. */
  lemma RefusesStale(r: Run, sc: Scene, m: AppendMsg) returns (r': Run, ans: AppendAns)
    requires At(r, sc) && m in Last(r).appendMsgs && m.to in sc.nodes && !sc.nodes[m.to].role.Shutdown? && m.heartbeat
    requires sc.nodes[m.to].term > m.body.term
    ensures At(r', sc) && ans in Last(r').appendAnswers && ans.msg == m
    ensures ans.body.reason.StaleLeader? && ans.body.term == sc.nodes[m.to].term
  {
    hide ValidRun, SendersLead, TermMonotone, SparesAll, NoCredits, Committed, Three;
    assert sc.nodes[m.to := sc.nodes[m.to]] == sc.nodes;
    ans := AppendAns(m, OnAppendRequest(m.to, sc.nodes[m.to], m.body).response, sc.nodes[m.to].log, Last(r).hist.clock);
    r' := Go(r, sc, TakeAppend(m), sc);
  }

  /** A refused heartbeat makes the node that sent it step down. */
  lemma StepsDownBy(r: Run, sc: Scene, ans: AppendAns) returns (r': Run, sc': Scene)
    requires At(r, sc) && ans in Last(r).appendAnswers && ans.msg.heartbeat && ans.body.reason.StaleLeader?
    requires ans.msg.body.leader in sc.nodes && sc.nodes[ans.msg.body.leader].term <= ans.body.term
    ensures var c := ans.msg.body.leader;
            sc' == sc.(nodes := sc.nodes[c := StepDown(sc.nodes[c], ans.body.term)])
    ensures At(r', sc') && r.states <= r'.states && |r'.states| == |r.states| + 1
  {
    hide ValidRun, SendersLead, TermMonotone, SparesAll, NoCredits, Committed, Three;
    var c := ans.msg.body.leader;
    sc' := sc.(nodes := sc.nodes[c := StepDown(sc.nodes[c], ans.body.term)]);
    r' := Go(r, sc, TakeAppendAns(ans), sc');
  }

  lemma SendsEntries(r: Run, sc: Scene, c: NodeId, sid: nat, v: NodeId, next: nat) returns (r': Run, m: AppendMsg)
    requires At(r, sc) && c in sc.nodes && v in sc.nodes && c != v && sc.nodes[c].role.Leader?
        && sid in sc.nodes[c].peers
    requires Composable(sc.nodes[c].log, next)
    ensures At(r', sc) && m in Last(r').appendMsgs && m.to == v
    ensures m == AppendMsg(v, sid, false, Compose(c, sc.nodes[c], next), sc.nodes[c].log)
  {
    hide ValidRun, SendersLead, TermMonotone, SparesAll, NoCredits, Committed, Three;
    ThreeFacts(c, v);
    assert sc.nodes[c := sc.nodes[c]] == sc.nodes;
    r' := Go(r, sc, SendEntries(c, sid, v, next), sc);
    m := AppendMsg(v, sid, false, Compose(c, sc.nodes[c], next), sc.nodes[c].log);
  }

  /** The log that a leader leads its term with is the one it has. */
  lemma LeadsByNow(r: Run, sc: Scene, c: NodeId)
    requires At(r, sc) && sc.rising && c in sc.nodes && sc.nodes[c].role.Leader?
    ensures sc.nodes[c].term in Last(r).hist.leaderLog && Last(r).hist.leaderLog[sc.nodes[c].term] == sc.nodes[c].log
  {
    hide ValidRun, SendersLead, TermMonotone, SparesAll, NoCredits, Committed, Three, Basic, VoteInv, ElectInv, LogInv;
    var end: nat := |r.states| - 1;
    InvHolds(Three(), r, end);
    LeaderLogNow(Three(), r.states[end], c, sc.nodes[c].term);
  }

  /** The request carries what follows `log` in the log it was composed from. */
  ghost predicate Fits(log: Log, m: AppendMsg) {
    && log != [] && log <= m.snapshot && m.body.prevIndex == |log| && m.body.prevTerm == LastTerm(log)
    && m.body.entries == m.snapshot[|log|..]
  }

  lemma TakenOver(me: NodeId, n: Node, m: AppendMsg)
    requires Fits(n.log, m) && n.term <= m.body.term
    ensures var o := OnAppendRequest(me, n, m.body);
            && o.node == Followed(n, m.body.term, m.body.leader, m.snapshot, m.body.commit)
            && o.response.reason.Appended? && o.response.id == me && o.response.len == |m.snapshot| - |n.log|
  {
    assert RemoveAfter(n.log, |n.log|) + m.snapshot[|n.log|..] == m.snapshot;
  }

  lemma SparesFull(s: State, m: AppendMsg)
    requires !m.heartbeat && m.body.term in s.hist.leaderLog && s.hist.leaderLog[m.body.term] == m.snapshot
    ensures SparesStep(s, TakeAppend(m))
  {
  }

  /** A follower with a prefix of the leader's log takes over the rest. */
  lemma TakesEntries(r: Run, sc: Scene, c: NodeId, m: AppendMsg) returns (r': Run, sc': Scene, ans: AppendAns)
    requires At(r, sc) && sc.rising && c in sc.nodes && sc.nodes[c].role.Leader? && m in Last(r).appendMsgs
    requires m.to in sc.nodes && !m.heartbeat && m.snapshot == sc.nodes[c].log && !sc.nodes[m.to].role.Shutdown?
    requires m.body.leader == c && m.body.term == sc.nodes[c].term >= sc.nodes[m.to].term && Fits(sc.nodes[m.to].log, m)
    ensures sc' == sc.(nodes := sc.nodes[m.to := Followed(sc.nodes[m.to], m.body.term, c, m.snapshot, m.body.commit)])
    ensures At(r', sc') && ans in Last(r').appendAnswers && ans.msg == m
    ensures ans.body.reason.Appended? && ans.body.id == m.to && ans.body.len == |m.snapshot| - |sc.nodes[m.to].log|
  {
    hide ValidRun, SendersLead, TermMonotone, SparesAll, NoCredits, Committed, Three, OnAppendRequest, SparesStep;
    sc' := sc.(nodes := sc.nodes[m.to := Followed(sc.nodes[m.to], m.body.term, c, m.snapshot, m.body.commit)]);
    LeadsByNow(r, sc, c);
    SparesFull(Last(r), m);
    TakenOver(m.to, sc.nodes[m.to], m);
    var o := OnAppendRequest(m.to, sc.nodes[m.to], m.body);
    ans := AppendAns(m, o.response, o.node.log, Last(r).hist.clock);
    r' := Go(r, sc, TakeAppend(m), sc');
  }

  /** A leader brings up a peer that lacks its last entries only, from the next index in its table. */
  lemma BringsUp(r: Run, sc: Scene, c: NodeId, sid: nat, v: NodeId) returns (r': Run, sc': Scene, ans: AppendAns)
    requires At(r, sc) && sc.rising && c in sc.nodes && v in sc.nodes && c != v && sc.nodes[c].role.Leader?
    requires sid in sc.nodes[c].peers && v in sc.nodes[c].peers[sid]
    requires sc.nodes[c].peers[sid][v].next == |sc.nodes[v].log| + 1
    requires !sc.nodes[v].role.Shutdown? && sc.nodes[v].term <= sc.nodes[c].term
    requires sc.nodes[v].log != [] && sc.nodes[v].log <= sc.nodes[c].log
    ensures var n := sc.nodes[c];
            sc' == sc.(nodes := sc.nodes[v := Followed(sc.nodes[v], n.term, c, n.log, n.commit)])
    ensures At(r', sc') && ans in Last(r').appendAnswers
    ensures ans.msg == AppendMsg(v, sid, false, Compose(c, sc.nodes[c], |sc.nodes[v].log| + 1), sc.nodes[c].log)
    ensures ans.body.reason.Appended? && ans.body.id == v && ans.body.len == |sc.nodes[c].log| - |sc.nodes[v].log|
  {
    hide At;
    var m;
    r', m := SendsEntries(r, sc, c, sid, v, sc.nodes[c].peers[sid][v].next);
    r', sc', ans := TakesEntries(r', sc, c, m);
  }

  // ----- A commit by the median

  /** With one report, the median is that report. */
  lemma OneReport(table: Peers, v: NodeId, x: nat)
    requires Reported(table) == {v} && table[v].matched == Some(x)
    ensures MedianMatch(table) == x
  {
    MedianRank(table, x);
    assert Holding(table, x) == {v};
    assert Holding(table, MedianMatch(table)) != {};
    var p :| p in Holding(table, MedianMatch(table));
  }

  /** The table lists the two other nodes, and `v` is the first to report: its log ends at the leader's last entry, of
      the leader's term and beyond what is committed. */
  ghost predicate FirstReport(n: Node, sid: nat, v: NodeId, ans: AppendAns) {
    && n.role.Leader? && n.repl == Some(sid) && sid in n.peers && |n.peers[sid]| == 2
    && (forall p | p in n.peers[sid] :: n.peers[sid][p].matched.None?)
    && ans.msg.to == v == ans.body.id && v in n.peers[sid] && ans.msg.sid == sid && !ans.msg.heartbeat
    && ans.body.reason.Appended? && n.peers[sid][v].next == ans.msg.body.prevIndex + 1
    && ans.msg.body.prevIndex + ans.body.len == |n.log| && LastTerm(n.log) == n.term && n.commit < |n.log|
  }

  /** The leader after it credited the report. */
  ghost function Advanced(n: Node, sid: nat, v: NodeId, ans: AppendAns): Node
    requires FirstReport(n, sid, v, ans)
  {
    n.(peers := n.peers[sid := Credit(n.peers[sid], v, ans.body.len)], commit := |n.log|)
  }

  lemma CreditsFirst(n: Node, sid: nat, v: NodeId, ans: AppendAns)
    requires FirstReport(n, sid, v, ans)
    ensures OnEntriesReply(n, sid, ans.body) == Advanced(n, sid, v, ans)
    ensures Reported(Credit(n.peers[sid], v, ans.body.len)) == {v}
  {
    var table := Credit(n.peers[sid], v, ans.body.len);
    assert Reported(table) == {v};
    OneReport(table, v, |n.log|);
  }

  lemma FirstCredit(r: Run, k: nat, c: NodeId, n: Node, sid: nat, v: NodeId, ans: AppendAns)
    requires k < |r.acts| && k < |r.states| && r.acts[k] == TakeAppendAns(ans) && ans.msg.body.leader == c
    requires c in r.states[k].nodes && r.states[k].nodes[c] == n && FirstReport(n, sid, v, ans)
    ensures CreditAt(r, k, c, sid) && LiveLeader(n, ans) && InPlace(r.states[k], r.acts[k])
  {
  }

  /** Crediting the first report commits the leader's last entry. */
  lemma FirstCommits(r: Run, k: nat, c: NodeId, n: Node, sid: nat, v: NodeId, ans: AppendAns)
    requires k < |r.acts| && k + 1 < |r.states| && r.acts[k] == TakeAppendAns(ans) && ans.msg.body.leader == c
    requires c in r.states[k].nodes && r.states[k].nodes[c] == n && FirstReport(n, sid, v, ans)
    requires c in r.states[k + 1].nodes && r.states[k + 1].nodes[c] == Advanced(n, sid, v, ans)
    requires forall j: nat | j < k :: NoCreditAt(r, j)
    ensures CommitsAs(r, k, Commit(c, sid, |n.log|, n.log[|n.log| - 1]))
  {
    FirstCredit(r, k, c, n, sid, v, ans);
    CreditsFirst(n, sid, v, ans);
    assert AllInPlace(r, k + 1, c, sid) by {
      hide FirstReport, InPlace, Credits;
      forall j: nat | j < k + 1 && CreditAt(r, j, c, sid) ensures InPlace(r.states[j], r.acts[j]) {
        assert j < k ==> NoCreditAt(r, j);
      }
    }
    hide Credits, InPlace, AllInPlace, LiveLeader, CreditAt, MedianMatch, Reported;
  }

  /** A leader credits its first report, which commits its whole log. */
  lemma CommitsFirst(r: Run, sc: Scene, c: NodeId, sid: nat, v: NodeId, ans: AppendAns) returns (r': Run, sc': Scene)
    requires At(r, sc) && sc.plain && c in sc.nodes && ans in Last(r).appendAnswers && ans.msg.body.leader == c
    requires FirstReport(sc.nodes[c], sid, v, ans)
    ensures var n := sc.nodes[c];
            sc' == sc.(nodes := sc.nodes[c := Advanced(n, sid, v, ans)], plain := false,
                       done := Some(Commit(c, sid, |n.log|, n.log[|n.log| - 1])))
    ensures At(r', sc')
  {
    hide ValidRun, SendersLead, TermMonotone, SparesAll, Three, CommitsAs, Advanced, Visited, NoCredits, NoCreditAt;
    var sc1;
    r', sc1 := TakesReport(r, sc, c, sid, v, ans);
    var n := sc.nodes[c];
    assert n.log != [];
    sc' := sc1.(done := Some(Commit(c, sid, |n.log|, n.log[|n.log| - 1])));
    hide FirstReport;
    NoCreditsBefore(r, r');
    FirstCommits(r', |r.acts|, c, n, sid, v, ans);
  }

  lemma NoCreditsBefore(r: Run, r': Run)
    requires NoCredits(r) && r.states <= r'.states && r.acts <= r'.acts
    ensures forall j: nat | j < |r.acts| :: NoCreditAt(r', j)
  {
    hide Credits;
    forall j: nat | j < |r.acts| ensures NoCreditAt(r', j) { assert NoCreditAt(r, j); }
  }

  lemma OneMoreState(r: Run)
    requires ValidRun(Three(), r)
    ensures |r.states| == |r.acts| + 1
  {
  }

  /** What handling the report does. */
  lemma ReportEffect(s: State, c: NodeId, sid: nat, v: NodeId, ans: AppendAns)
    requires s.nodes.Keys == Three().Nodes() && c in s.nodes && ans in s.appendAnswers && ans.msg.body.leader == c
    requires FirstReport(s.nodes[c], sid, v, ans)
    ensures Enabled(Three(), s, TakeAppendAns(ans)) && Actor(TakeAppendAns(ans)) == c
    ensures NodeAfter(Three(), s, TakeAppendAns(ans)) == Advanced(s.nodes[c], sid, v, ans)
    ensures Advanced(s.nodes[c], sid, v, ans).term == s.nodes[c].term
    ensures VoteAnswersAfter(Three(), s, TakeAppendAns(ans)) == s.voteAnswers
  {
    hide Three, OnEntriesReply;
    CreditsFirst(s.nodes[c], sid, v, ans);
  }

  lemma TakesReport(r: Run, sc: Scene, c: NodeId, sid: nat, v: NodeId, ans: AppendAns) returns (r': Run, sc': Scene)
    requires At(r, sc) && c in sc.nodes && ans in Last(r).appendAnswers && ans.msg.body.leader == c
    requires FirstReport(sc.nodes[c], sid, v, ans)
    ensures sc' == sc.(nodes := sc.nodes[c := Advanced(sc.nodes[c], sid, v, ans)], plain := false)
    ensures At(r', sc') && r'.acts == r.acts + [TakeAppendAns(ans)]
    ensures r.states <= r'.states && |r'.states| == |r.states| + 1 == |r.acts| + 2 && r'.states[|r.acts|] == Last(r)
  {
    OneMoreState(r);
    hide ValidRun, SendersLead, TermMonotone, SparesAll, NoCredits, Committed, Three, Enabled, NodeAfter, Advanced,
      FirstReport, VoteAnswersAfter;
    sc' := sc.(nodes := sc.nodes[c := Advanced(sc.nodes[c], sid, v, ans)], plain := false);
    ReportEffect(Last(r), c, sid, v, ans);
    r' := Go(r, sc, TakeAppendAns(ans), sc');
  }
}
