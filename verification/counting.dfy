/** Election Safety by counting votes, which holds even where terms fall.

    A node that falls back may vote again in a term it voted in before, even for the same candidate, so that voters
    cannot be counted, but votes can: a node that handles an answer in time gets a vote back only because the sender
    gave one up.  Only a late fall, of a node that had nothing coming to it, adds a vote to a term. */
module Counting {
  import opened Types
  import opened Quorum
  import opened NodeSteps
  import opened Cluster
  import opened AnyRun
  import opened Elections
  import opened Falls

  // ----- Votes cast

  /** A vote for session `sid` of `candidate` in `term`. */
  datatype Vote = Vote(term: nat, candidate: NodeId, sid: nat)

  /** The vote that a step adds: for a ballot of one's own, or by granting a request. */
  ghost function VoteFor(s: State, a: Action): Option<Vote> {
    if Actor(a) !in s.nodes then None else
    match a
    case StartBallot(i) => Some(Vote(s.nodes[i].term + 1, i, s.nodes[i].epoch + 1))
    case TakeVote(m) =>
      var o := OnVoteRequest(m.to, s.nodes[m.to], m.body);
      if o.response.granted then Some(Vote(m.body.term, m.body.candidate, m.sid)) else None
    case _ => None
  }

  ghost predicate VotesIn(s: State, a: Action, t: nat) {
    VoteFor(s, a).Some? && VoteFor(s, a).value.term == t
  }

  /** How often the first `k` steps cast the vote `x`. */
  ghost function VotesFor(r: Run, k: nat, x: Vote): nat
    requires k <= |r.acts| && k <= |r.states|
  {
    if k == 0 then 0 else
      VotesFor(r, k - 1, x) + if VoteFor(r.states[k - 1], r.acts[k - 1]) == Some(x) then 1 else 0
  }

  ghost function AllVotes(r: Run, k: nat, t: nat): nat
    requires k <= |r.acts| && k <= |r.states|
  {
    if k == 0 then 0 else
      AllVotes(r, k - 1, t) + if VotesIn(r.states[k - 1], r.acts[k - 1], t) then 1 else 0
  }

  lemma {:induction false} DistinctVotes(r: Run, k: nat, x: Vote, y: Vote)
    requires k <= |r.acts| && k <= |r.states| && x != y && x.term == y.term
    ensures VotesFor(r, k, x) + VotesFor(r, k, y) <= AllVotes(r, k, x.term)
  {
    hide VoteFor;
    if k > 0 { DistinctVotes(r, k - 1, x, y); }
  }

  lemma {:induction false} VotesGrow(r: Run, i: nat, j: nat, x: Vote)
    requires i <= j <= |r.acts| && j <= |r.states|
    ensures VotesFor(r, i, x) <= VotesFor(r, j, x)
    decreases j
  {
    hide VoteFor;
    if i < j { VotesGrow(r, i, j - 1, x); }
  }

  // ----- Votes left

  /** The answer makes the live session of node `i` fall below term `t` when it is handled. */
  ghost predicate PullsBack(n: Node, i: NodeId, v: VoteAns, t: nat) {
    && v.body.reason.IncompleteLog? && v.msg.body.candidate == i && v.body.term < t
    && LiveBallot(n) && n.ballot.value.sid == v.msg.sid
  }

  /** Node `i` may still vote in term `t`: it has not come that far, has never voted, or may yet fall back. */
  ghost predicate MayVote(s: State, i: NodeId, t: nat) {
    && i in s.nodes
    && (|| s.nodes[i].term < t
        || s.nodes[i].votedFor.None?
        || exists v :: v in s.voteAnswers && PullsBack(s.nodes[i], i, v, t))
  }

  ghost function Voters(s: State, t: nat): set<NodeId> {
    set i | i in s.nodes && MayVote(s, i, t)
  }

  /** The step answers a request of term `t` or later with an incomplete-log answer from below `t`. */
  ghost predicate GivesBack(s: State, a: Action, t: nat) {
    && a.TakeVote? && a.vote.to in s.nodes && s.nodes[a.vote.to].term < t <= a.vote.body.term
    && OnVoteRequest(a.vote.to, s.nodes[a.vote.to], a.vote.body).response.reason.IncompleteLog?
  }

  /** Who votes, or gives a vote back to a candidate, could still vote and cannot any more. */
  lemma VoterSpent(cfg: Config, s: State, a: Action, t: nat)
    requires Basic(cfg, s) && Enabled(cfg, s, a) && (VotesIn(s, a, t) || GivesBack(s, a, t))
    ensures MayVote(s, Actor(a), t) && !MayVote(Do(cfg, s, a), Actor(a), t)
  {
    var s' := Do(cfg, s, a);
    var i := Actor(a);
    SpenderMoves(cfg, s, a, t);
    hide NodeAfter, NodeInv, AppendMsgInv, AppendAnsInv, VoteFor, VotesIn, GivesBack;
    forall v | v in s'.voteAnswers ensures !PullsBack(s'.nodes[i], i, v, t) {
      if a.StartBallot? { assert VoteAnsInv(s, v) && VoteMsgInv(s, v.msg); }
    }
  }

  lemma SpenderMoves(cfg: Config, s: State, a: Action, t: nat)
    requires Enabled(cfg, s, a) && (VotesIn(s, a, t) || GivesBack(s, a, t))
    ensures var n := s.nodes[Actor(a)]; var n' := NodeAfter(cfg, s, a);
            && (n.term < t || n.votedFor.None?) && n'.term >= t && n'.votedFor.Some?
            && (if a.StartBallot? then n'.ballot.Some? && n'.ballot.value.sid == n.epoch + 1 else n'.role == Follower)
    ensures a.StartBallot? ==> VoteAnswersAfter(cfg, s, a) == s.voteAnswers
    ensures !(VotesIn(s, a, t) && GivesBack(s, a, t))
  {
  }

  lemma VoteStays(cfg: Config, s: State, a: Action)
    requires Enabled(cfg, s, a)
    ensures NodeAfter(cfg, s, a).votedFor.None? ==> s.nodes[Actor(a)].votedFor.None?
  {
  }

  lemma ActorPulled(cfg: Config, s: State, a: Action, v: VoteAns, t: nat)
    requires Basic(cfg, s) && Enabled(cfg, s, a) && v in VoteAnswersAfter(cfg, s, a)
    requires PullsBack(NodeAfter(cfg, s, a), Actor(a), v, t)
    ensures v in s.voteAnswers && PullsBack(s.nodes[Actor(a)], Actor(a), v, t)
  {
    BallotCases(cfg, s, a);
    assert v in s.voteAnswers;
    hide NodeAfter, NodeInv, AppendMsgInv, AppendAnsInv;
    assert VoteAnsInv(s, v) && VoteMsgInv(s, v.msg);
  }

  /** The step takes its node from term `t` or later to below it, where it could vote in `t` no more. */
  ghost predicate LateFall(cfg: Config, s: State, a: Action, t: nat)
    requires Enabled(cfg, s, a)
  {
    NodeAfter(cfg, s, a).term < t <= s.nodes[Actor(a)].term && !MayVote(s, Actor(a), t)
  }

  /** No step but a late fall lets its own node vote that could not before. */
  lemma ActorMayVote(cfg: Config, s: State, a: Action, t: nat)
    requires Basic(cfg, s) && Enabled(cfg, s, a) && !LateFall(cfg, s, a, t) && MayVote(Do(cfg, s, a), Actor(a), t)
    ensures MayVote(s, Actor(a), t)
  {
    var i := Actor(a);
    var n' := NodeAfter(cfg, s, a);
    VoteStays(cfg, s, a);
    hide NodeAfter, Basic, PullsBack;
    if n'.term >= t && n'.votedFor.Some? {
      var v :| v in Do(cfg, s, a).voteAnswers && PullsBack(n', i, v, t);
      ActorPulled(cfg, s, a, v, t);
    }
  }

  /** A step lets another node vote that could not before only if its own node gives its vote back. */
  lemma OtherMayVote(cfg: Config, s: State, a: Action, j: NodeId, t: nat)
    requires Basic(cfg, s) && Enabled(cfg, s, a) && j != Actor(a) && MayVote(Do(cfg, s, a), j, t)
    ensures MayVote(s, j, t) || (GivesBack(s, a, t) && j == a.vote.body.candidate)
  {
    var s' := Do(cfg, s, a);
    hide NodeAfter, NodeInv, AppendMsgInv, AppendAnsInv;
    if s.nodes[j].term >= t && s.nodes[j].votedFor.Some? {
      var v :| v in s'.voteAnswers && PullsBack(s'.nodes[j], j, v, t);
      if v !in s.voteAnswers { assert VoteMsgInv(s, a.vote); }
    }
  }

  lemma VotersMove(cfg: Config, s: State, a: Action, t: nat)
    requires Basic(cfg, s) && Enabled(cfg, s, a) && !LateFall(cfg, s, a, t)
    ensures var (voters, voters') := (Voters(s, t), Voters(Do(cfg, s, a), t));
            && (forall j | j in voters' :: j in voters || (GivesBack(s, a, t) && j == a.vote.body.candidate))
            && (VotesIn(s, a, t) || GivesBack(s, a, t) ==> Actor(a) in voters && Actor(a) !in voters')
  {
    var s' := Do(cfg, s, a);
    FrameHolds(cfg, s, a);
    hide NodeAfter, Basic, MayVote, LateFall, Enabled, Do, VotesIn, GivesBack;
    forall j | j in Voters(s', t) ensures j in Voters(s, t) || (GivesBack(s, a, t) && j == a.vote.body.candidate) {
      if j == Actor(a) { ActorMayVote(cfg, s, a, t); } else { OtherMayVote(cfg, s, a, j, t); }
    }
    if VotesIn(s, a, t) || GivesBack(s, a, t) { VoterSpent(cfg, s, a, t); }
  }

  lemma OtherStillMayVote(cfg: Config, s: State, a: Action, j: NodeId, t: nat)
    requires Enabled(cfg, s, a) && (a.TakeAppendAns? || a.TakeVoteAns?) && j != Actor(a) && MayVote(s, j, t)
    ensures MayVote(Do(cfg, s, a), j, t)
  {
    hide NodeAfter;
    if s.nodes[j].term >= t && s.nodes[j].votedFor.Some? {
      var v :| v in s.voteAnswers && PullsBack(s.nodes[j], j, v, t);
      assert v in Do(cfg, s, a).voteAnswers;
    }
  }

  /** A late fall gives its own node a vote, and takes none from the others. */
  lemma VoterGained(cfg: Config, s: State, a: Action, t: nat)
    requires Enabled(cfg, s, a) && LateFall(cfg, s, a, t)
    ensures var (voters, voters') := (Voters(s, t), Voters(Do(cfg, s, a), t));
            voters + {Actor(a)} <= voters' && Actor(a) !in voters && !VotesIn(s, a, t)
  {
    var s' := Do(cfg, s, a);
    hide NodeAfter;
    FallKind(cfg, s, a);
    FrameHolds(cfg, s, a);
    assert MayVote(s', Actor(a), t);
    hide MayVote, Enabled, Do;
    forall j | j in Voters(s, t) && j != Actor(a) ensures MayVote(s', j, t) { OtherStillMayVote(cfg, s, a, j, t); }
  }

  /** Only answers lower terms. */
  lemma FallKind(cfg: Config, s: State, a: Action)
    requires Enabled(cfg, s, a) && NodeAfter(cfg, s, a).term < s.nodes[Actor(a)].term
    ensures a.TakeAppendAns? || a.TakeVoteAns?
  {
  }

  /** In a step, the votes cast in a term and the nodes that may still vote in it stay within what they were, exactly if
      the step is not a late fall. */
  lemma VotersStep(cfg: Config, s: State, a: Action, t: nat)
    requires Basic(cfg, s) && Enabled(cfg, s, a)
    ensures |Voters(Do(cfg, s, a), t)| + (if VotesIn(s, a, t) then 1 else 0) <= |Voters(s, t)| <==>
              !LateFall(cfg, s, a, t)
  {
    hide NodeAfter, Basic, LateFall, Enabled, Do, VotesIn, Voters, OnVoteRequest, VoteAnswersAfter;
    var (voters, voters') := (Voters(s, t), Voters(Do(cfg, s, a), t));
    if LateFall(cfg, s, a, t) {
      VoterGained(cfg, s, a, t);
      SubsetSize(voters + {Actor(a)}, voters');
    } else {
      VotersMove(cfg, s, a, t);
      if VotesIn(s, a, t) {
        SpenderMoves(cfg, s, a, t);
        SubsetSize(voters', voters - {Actor(a)});
      } else if GivesBack(s, a, t) {
        SubsetSize(voters', voters - {Actor(a)} + {a.vote.body.candidate});
      } else {
        SubsetSize(voters', voters);
      }
    }
  }

  // ----- Votes counted

  /** The granted votes on their way to a session. */
  ghost function Coming(s: State, i: NodeId, sid: nat): set<VoteAns> {
    set v | v in s.voteAnswers && v.body.granted && v.msg.body.candidate == i && v.msg.sid == sid
  }

  /** The votes that a live session has counted or is about to count. */
  ghost function Weight(s: State, i: NodeId): nat {
    if i in s.nodes && LiveBallot(s.nodes[i])
    then s.nodes[i].ballot.value.granted + |Coming(s, i, s.nodes[i].ballot.value.sid)| else 0
  }

  /** The vote that the live session of node `i` is after. */
  ghost function Wanted(s: State, i: NodeId): Vote
    requires i in s.nodes && LiveBallot(s.nodes[i])
  {
    Vote(s.nodes[i].term, i, s.nodes[i].ballot.value.sid)
  }

  ghost function Gain(s: State, a: Action, x: Vote): nat {
    if VoteFor(s, a) == Some(x) then 1 else 0
  }

  /** A live session gains weight only by votes cast for it. */
  lemma WeightStep(cfg: Config, s: State, a: Action, i: NodeId)
    requires Basic(cfg, s) && Enabled(cfg, s, a) && i in s.nodes && LiveBallot(Do(cfg, s, a).nodes[i])
    ensures var s' := Do(cfg, s, a);
            var gain := Gain(s, a, Wanted(s', i));
            || Weight(s', i) <= gain
            || (LiveBallot(s.nodes[i]) && Wanted(s, i) == Wanted(s', i) && Weight(s', i) <= Weight(s, i) + gain)
  {
    if i == Actor(a) {
      if a.StartBallot? { WeightOpens(cfg, s, a); } else { WeightOwn(cfg, s, a); }
    } else {
      WeightOther(cfg, s, a, i);
    }
  }

  lemma WeightOpens(cfg: Config, s: State, a: Action)
    requires Basic(cfg, s) && Enabled(cfg, s, a) && a.StartBallot? && LiveBallot(NodeAfter(cfg, s, a))
    ensures Weight(Do(cfg, s, a), a.n) == 1 == Gain(s, a, Wanted(Do(cfg, s, a), a.n))
  {
    hide NodeAfter, NodeInv, AppendMsgInv, AppendAnsInv;
    BallotCases(cfg, s, a);
    forall v | v in s.voteAnswers ensures !(v.msg.body.candidate == a.n && v.msg.sid == s.nodes[a.n].epoch + 1) {
      assert VoteAnsInv(s, v) && VoteMsgInv(s, v.msg);
    }
    assert Coming(Do(cfg, s, a), a.n, s.nodes[a.n].epoch + 1) == {};
  }

  lemma WeightOwn(cfg: Config, s: State, a: Action)
    requires Basic(cfg, s) && Enabled(cfg, s, a) && !a.StartBallot? && LiveBallot(NodeAfter(cfg, s, a))
    ensures var i := Actor(a); var s' := Do(cfg, s, a);
            LiveBallot(s.nodes[i]) && Wanted(s, i) == Wanted(s', i) && Weight(s', i) <= Weight(s, i)
  {
    hide NodeAfter, NodeInv, AppendMsgInv, AppendAnsInv;
    var i := Actor(a);
    var s' := Do(cfg, s, a);
    BallotCases(cfg, s, a);
    var sid := s.nodes[i].ballot.value.sid;
    if a.TakeVote? { assert VoteMsgInv(s, a.vote); }
    assert Coming(s', i, sid) <= Coming(s, i, sid);
    SubsetSize(Coming(s', i, sid), Coming(s, i, sid));
    if Counts(s, a) {
      assert a.voteAns in Coming(s, i, sid);
      assert Coming(s', i, sid) <= Coming(s, i, sid) - {a.voteAns};
      SubsetSize(Coming(s', i, sid), Coming(s, i, sid) - {a.voteAns});
    }
  }

  lemma WeightOther(cfg: Config, s: State, a: Action, i: NodeId)
    requires Basic(cfg, s) && Enabled(cfg, s, a) && i in s.nodes && i != Actor(a) && LiveBallot(s.nodes[i])
    ensures var s' := Do(cfg, s, a);
            s.nodes[i] == s'.nodes[i] && Weight(s', i) <= Weight(s, i) + Gain(s, a, Wanted(s, i))
  {
    var s' := Do(cfg, s, a);
    var sid := s.nodes[i].ballot.value.sid;
    hide NodeAfter, NodeInv, AppendMsgInv, AppendAnsInv;
    if a.TakeVote? {
      assert VoteMsgInv(s, a.vote);
      var n := s.nodes[a.vote.to];
      var v := VoteAns(a.vote, OnVoteRequest(a.vote.to, n, a.vote.body).response, n.log, s.hist.clock);
      var more: set<VoteAns> := if v in Coming(s', i, sid) then {v} else {};
      assert Coming(s', i, sid) <= Coming(s, i, sid) + more;
      SubsetSize(Coming(s', i, sid), Coming(s, i, sid) + more);
    } else {
      assert Coming(s', i, sid) <= Coming(s, i, sid);
      SubsetSize(Coming(s', i, sid), Coming(s, i, sid));
    }
  }

  // ----- Over runs

  ghost predicate NoLateFallAt(cfg: Config, r: Run, k: nat, t: nat) {
    StepAt(cfg, r, k) && !LateFall(cfg, r.states[k], r.acts[k], t)
  }

  /** Run hypothesis: no step is a late fall to below term `t`. */
  ghost predicate NoLateFall(cfg: Config, r: Run, t: nat) {
    forall k: nat | k < |r.acts| :: NoLateFallAt(cfg, r, k, t)
  }

  /** Only an answer that was bound to pull the node back makes its term fall below `t`. */
  lemma ActorFalls(cfg: Config, s: State, a: Action, t: nat)
    requires Basic(cfg, s) && Enabled(cfg, s, a) && AnswersLive(s, a)
    requires NodeAfter(cfg, s, a).term < t <= s.nodes[Actor(a)].term
    ensures a.TakeVoteAns? && a.voteAns in s.voteAnswers && PullsBack(s.nodes[Actor(a)], Actor(a), a.voteAns, t)
  {
    LiveAnswerTerm(cfg, s, a);
    StepDirection(cfg, s, a);
    StepEffect(cfg, s, a);
    hide NodeAfter, Basic;
  }

  /** Where no late answer lowers a term, no step is a late fall, whatever the term. */
  lemma FallsLiveNotLate(cfg: Config, r: Run, t: nat)
    requires ValidRun(cfg, r) && FallsAreLive(r)
    ensures NoLateFall(cfg, r, t)
  {
    hide Init, Do, Enabled, NodeAfter, Basic, MayVote, PullsBack, StepsBack, AnswersLive;
    forall k: nat | k < |r.acts| ensures NoLateFallAt(cfg, r, k, t) {
      assert StepAt(cfg, r, k) && FallsLiveAt(r, k);
      BasicHolds(cfg, r, k);
      NotLate(cfg, r.states[k], r.acts[k], t);
    }
  }

  lemma NotLate(cfg: Config, s: State, a: Action, t: nat)
    requires Basic(cfg, s) && Enabled(cfg, s, a) && FallsLive(s, a)
    ensures !LateFall(cfg, s, a, t)
  {
    hide NodeAfter, Basic, AnswersLive, StepsBack;
    StepDirection(cfg, s, a);
    if LateFall(cfg, s, a, t) { ActorFalls(cfg, s, a, t); }
  }

  /** No more votes are ever cast in a term than there are nodes. */
  lemma {:induction false} VotesBounded(cfg: Config, r: Run, k: nat, t: nat)
    requires ValidRun(cfg, r) && NoLateFall(cfg, r, t) && k < |r.states|
    ensures AllVotes(r, k, t) + |Voters(r.states[k], t)| <= |cfg.Nodes()|
  {
    hide Do, Enabled, Basic, MayVote, LateFall, VotesIn;
    if k == 0 {
      SubsetSize(Voters(r.states[0], t), cfg.Nodes());
    } else {
      VotesBounded(cfg, r, k - 1, t);
      BasicHolds(cfg, r, k - 1);
      assert StepAt(cfg, r, k - 1) && NoLateFallAt(cfg, r, k - 1, t);
      VotersStep(cfg, r.states[k - 1], r.acts[k - 1], t);
    }
  }

  lemma VotesForStep(r: Run, k: nat, x: Vote)
    requires 0 < k <= |r.acts| && k <= |r.states|
    ensures VotesFor(r, k, x) == VotesFor(r, k - 1, x) + Gain(r.states[k - 1], r.acts[k - 1], x)
  {
  }

  lemma Idle(cfg: Config, s: State, i: NodeId)
    requires Init(cfg, s) && i in s.nodes
    ensures s.nodes[i].role.Follower?
  {
    assert FreshNode(s.nodes[i], s.hist.base);
  }

  /** In every run, a live session never counts more votes than were cast for it. */
  lemma {:induction false} WeightBounded(cfg: Config, r: Run, k: nat, i: NodeId)
    requires ValidRun(cfg, r) && k < |r.states| && i in r.states[k].nodes && LiveBallot(r.states[k].nodes[i])
    ensures Weight(r.states[k], i) <= VotesFor(r, k, Wanted(r.states[k], i))
  {
    hide Do, Enabled, Basic, Weight, Gain, VotesFor, Wanted;
    if k == 0 {
      Idle(cfg, r.states[0], i);
    } else {
      BasicHolds(cfg, r, k - 1);
      assert StepAt(cfg, r, k - 1);
      NodesFixed(cfg, r, k);
      NodesFixed(cfg, r, k - 1);
      WeightStep(cfg, r.states[k - 1], r.acts[k - 1], i);
      VotesForStep(r, k, Wanted(r.states[k], i));
      if LiveBallot(r.states[k - 1].nodes[i]) { WeightBounded(cfg, r, k - 1, i); }
    }
  }

  // ----- One win per term

  /** Step `k` makes node `i`, in term `t`, a leader. */
  ghost predicate WinAt(r: Run, k: nat, i: NodeId, t: nat) {
    k < |r.acts| && k < |r.states| && r.acts[k] == Win(i) && i in r.states[k].nodes && r.states[k].nodes[i].term == t
  }

  lemma DecidedWeight(cfg: Config, s: State, i: NodeId)
    requires Basic(cfg, s) && i in s.nodes && LiveBallot(s.nodes[i]) && s.nodes[i].ballot.value.decided
    ensures 2 * Weight(s, i) > |cfg.Nodes()|
  {
    assert NodeInv(cfg, s, i);
  }

  /** In every run, a session that wins was voted for more than half as often as there are nodes. */
  lemma WinBacked(cfg: Config, r: Run, k: nat, i: NodeId, t: nat)
    requires ValidRun(cfg, r) && WinAt(r, k, i, t)
    ensures LiveBallot(r.states[k].nodes[i])
    ensures Wanted(r.states[k], i).term == t && Wanted(r.states[k], i).candidate == i
    ensures 2 * VotesFor(r, k, Wanted(r.states[k], i)) > |cfg.Nodes()|
  {
    hide Init, Do, Basic, Weight, VotesFor;
    assert StepAt(cfg, r, k);
    BasicHolds(cfg, r, k);
    DecidedWeight(cfg, r.states[k], i);
    WeightBounded(cfg, r, k, i);
  }

  ghost predicate LiveIn(n: Node, sid: nat) {
    LiveBallot(n) && n.ballot.value.sid == sid
  }

  /** A session that is over does not live again. */
  lemma {:induction false} DeadStays(cfg: Config, r: Run, j: nat, k: nat, i: NodeId, sid: nat)
    requires ValidRun(cfg, r) && j <= k < |r.states| && i in r.states[j].nodes
    requires sid <= r.states[j].nodes[i].epoch && !LiveIn(r.states[j].nodes[i], sid)
    ensures i in r.states[k].nodes && sid <= r.states[k].nodes[i].epoch && !LiveIn(r.states[k].nodes[i], sid)
    decreases k
  {
    hide Init, Do, Enabled;
    if j < k {
      DeadStays(cfg, r, j, k - 1, i, sid);
      assert StepAt(cfg, r, k - 1);
      FrameHolds(cfg, r.states[k - 1], r.acts[k - 1]);
      NodeEvolvesAt(cfg, r.states[k - 1], r.acts[k - 1]);
    }
  }

  lemma NodeEvolvesAt(cfg: Config, s: State, a: Action)
    requires Enabled(cfg, s, a)
    ensures Actor(a) in s.nodes && Actor(a) in Do(cfg, s, a).nodes
    ensures Evolves(s.nodes[Actor(a)], Do(cfg, s, a).nodes[Actor(a)])
  {
    hide NodeAfter, Evolves;
    NodeEvolves(cfg, s, a);
  }

  lemma WinEnds(cfg: Config, r: Run, k: nat, i: NodeId, t: nat)
    requires ValidRun(cfg, r) && WinAt(r, k, i, t)
    ensures i in r.states[k + 1].nodes && r.states[k + 1].nodes[i].role.Leader?
    ensures LiveBallot(r.states[k].nodes[i]) && r.states[k].nodes[i].ballot.value.sid <= r.states[k + 1].nodes[i].epoch
  {
    hide Init, VoteMsgInv, VoteAnsInv, AppendMsgInv, AppendAnsInv;
    assert StepAt(cfg, r, k);
    BasicHolds(cfg, r, k);
    assert NodeInv(cfg, r.states[k], i);
  }

  lemma WinsNotTwice(cfg: Config, r: Run, j: nat, k: nat, m: NodeId, n: NodeId, t: nat)
    requires ValidRun(cfg, r) && NoLateFall(cfg, r, t) && WinAt(r, j, m, t) && WinAt(r, k, n, t)
    ensures j >= k
  {
    hide ValidRun, NoLateFall, Voters, VotesFor, AllVotes;
    if j < k {
      WinBacked(cfg, r, j, m, t);
      WinBacked(cfg, r, k, n, t);
      WinEnds(cfg, r, j, m, t);
      var (x, y) := (Wanted(r.states[j], m), Wanted(r.states[k], n));
      VotesGrow(r, j, k, x);
      VotesBounded(cfg, r, k, t);
      if x != y {
        DistinctVotes(r, k, x, y);
      } else {
        DeadStays(cfg, r, j + 1, k, m, x.sid);
      }
      assert false;
    }
  }

  /** No two steps of a run win the same term, unless a late fall crosses it. */
  lemma OneWinPerTerm(cfg: Config, r: Run, j: nat, k: nat, m: NodeId, n: NodeId, t: nat)
    requires ValidRun(cfg, r) && NoLateFall(cfg, r, t) && WinAt(r, j, m, t) && WinAt(r, k, n, t)
    ensures j == k && m == n
  {
    hide ValidRun, NoLateFall;
    WinsNotTwice(cfg, r, j, k, m, n, t);
    WinsNotTwice(cfg, r, k, j, n, m, t);
  }

  /** Whoever leads after a step led before it, or wins its term in it. */
  lemma LedBefore(cfg: Config, s: State, a: Action, i: NodeId, t: nat)
    requires Enabled(cfg, s, a) && Leads(Do(cfg, s, a), i, t)
    ensures Leads(s, i, t) || (a == Win(i) && i in s.nodes && s.nodes[i].term == t)
  {
    if i == Actor(a) { LeaderCases(cfg, s, a); }
    hide NodeAfter;
  }

  /** Whoever leads a term won it before. */
  lemma {:induction false} LeaderWon(cfg: Config, r: Run, k: nat, i: NodeId, t: nat) returns (j: nat)
    requires ValidRun(cfg, r) && k < |r.states| && Leads(r.states[k], i, t)
    ensures j < k && WinAt(r, j, i, t)
  {
    hide Do, Enabled, Leads;
    if k == 0 {
      NobodyLeads(cfg, r.states[0], i, t);
    } else {
      assert StepAt(cfg, r, k - 1);
      LedBefore(cfg, r.states[k - 1], r.acts[k - 1], i, t);
      if Leads(r.states[k - 1], i, t) { j := LeaderWon(cfg, r, k - 1, i, t); } else { j := k - 1; }
    }
  }

  lemma NobodyLeads(cfg: Config, s: State, i: NodeId, t: nat)
    requires Init(cfg, s)
    ensures !Leads(s, i, t)
  {
    if i in s.nodes { Idle(cfg, s, i); }
  }

  // ----- Election Safety

  /** At most one node ever leads a term, unless a late fall crosses it. */
  lemma ElectionSafetyIn(cfg: Config, r: Run, i: nat, j: nat, m: NodeId, n: NodeId, term: nat)
    requires ValidRun(cfg, r) && NoLateFall(cfg, r, term) && i < |r.states| && j < |r.states|
    requires Leads(r.states[i], m, term) && Leads(r.states[j], n, term)
    ensures m == n
  {
    hide ValidRun, NoLateFall, Leads;
    var x := LeaderWon(cfg, r, i, m, term);
    var y := LeaderWon(cfg, r, j, n, term);
    OneWinPerTerm(cfg, r, x, y, m, n, term);
  }

  /** At most one node ever leads a term, if no late answer lowers a term. */
  lemma ElectionSafety(cfg: Config, r: Run, i: nat, j: nat, m: NodeId, n: NodeId, term: nat)
    requires ValidRun(cfg, r) && FallsAreLive(r) && i < |r.states| && j < |r.states|
    requires Leads(r.states[i], m, term) && Leads(r.states[j], n, term)
    ensures m == n
  {
    hide ValidRun, FallsAreLive, Leads, NoLateFall;
    FallsLiveNotLate(cfg, r, term);
    ElectionSafetyIn(cfg, r, i, j, m, n, term);
  }

  /** At most one node ever leads a term, if no term ever falls. */
  lemma ElectionSafetyMonotone(cfg: Config, r: Run, i: nat, j: nat, m: NodeId, n: NodeId, term: nat)
    requires ValidRun(cfg, r) && TermMonotone(r) && i < |r.states| && j < |r.states|
    requires Leads(r.states[i], m, term) && Leads(r.states[j], n, term)
    ensures m == n
  {
    hide ValidRun, FallsAreLive, Leads, TermMonotone;
    MonotoneFallsLive(cfg, r);
    ElectionSafety(cfg, r, i, j, m, n, term);
  }

  /** At most one node ever leads a term, if only live sessions handle answers. */
  lemma ElectionSafetyLive(cfg: Config, r: Run, i: nat, j: nat, m: NodeId, n: NodeId, term: nat)
    requires ValidRun(cfg, r) && LiveAnswersOnly(r) && i < |r.states| && j < |r.states|
    requires Leads(r.states[i], m, term) && Leads(r.states[j], n, term)
    ensures m == n
  {
    hide ValidRun, FallsAreLive, Leads, LiveAnswersOnly;
    LiveAnswersFallLive(r);
    ElectionSafety(cfg, r, i, j, m, n, term);
  }
}
