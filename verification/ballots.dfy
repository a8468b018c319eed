/** What the answers to vote requests do to the ballot of their session, and whom a session has heard from. */
module Ballots {
  import opened Types
  import opened NodeSteps
  import opened Cluster
  import opened AnyRun
  import opened Roles
  import opened Reactions

  // ----- One answer

  /** What the answer `v` to a request of session `sid` makes of its node.  A stale term or an incomplete log makes
      it a follower in the term of the answer, whether or not the session is live.  Otherwise a live session has now
      heard from the sender, counts the vote if it was granted, and is decided by the one that makes a strict
      majority, or half a node more than that if the map lists its own node; a session that is over does nothing. */
  ghost predicate BallotEffect(cfg: Config, i: NodeId, n: Node, sid: nat, v: VoteResponse, n': Node)
    requires i in cfg.members
  {
    if v.reason.StaleCandidate? || v.reason.IncompleteLog? then n' == n.(term := v.term, role := Follower)
    else if n.role.Candidate? && n.ballot.Some? && n.ballot.value.sid == sid then
      var b := n.ballot.value;
      var granted := b.granted + if v.granted then 1 else 0;
      var decides := v.granted && 2 * granted > |cfg.Nodes()| + (if i in cfg.members[i] then 1 else 0);
      n' == n.(ballot := Some(Ballot(sid, b.acked + {v.id}, granted, b.decided || decides)))
    else n' == n
  }

  lemma VoteHasEffect(cfg: Config, i: NodeId, n: Node, v: VoteAns)
    requires cfg.Valid() && i in cfg.members
    ensures BallotEffect(cfg, i, n, v.msg.sid, v.body, AfterVoteAns(cfg, i, n, v))
  {
    hide BallotEffect, AfterVoteAns, Enough;
    if n.ballot.Some? {
      EnoughExactly(cfg, i, n.ballot.value.granted + 1);
      TestedVote(cfg, i, n, v);
    } else {
      WithoutBallot(cfg, i, n, v);
    }
  }

  lemma TestedVote(cfg: Config, i: NodeId, n: Node, v: VoteAns)
    requires i in cfg.members && n.ballot.Some?
    requires var granted := n.ballot.value.granted + 1;
             Enough(granted, |cfg.members[i]|) <==> 2 * granted > |cfg.Nodes()| + (if i in cfg.members[i] then 1 else 0)
    ensures BallotEffect(cfg, i, n, v.msg.sid, v.body, AfterVoteAns(cfg, i, n, v))
  {
    hide Enough;
  }

  lemma WithoutBallot(cfg: Config, i: NodeId, n: Node, v: VoteAns)
    requires i in cfg.members && n.ballot.None?
    ensures BallotEffect(cfg, i, n, v.msg.sid, v.body, AfterVoteAns(cfg, i, n, v))
  {
  }

  /** In every run every answer to a vote request has its effect, on the node whose request it answers and no other. */
  lemma VotesTakeEffect(cfg: Config, r: Run, k: nat, v: VoteAns)
    requires ValidRun(cfg, r) && k < |r.acts| && r.acts[k] == TakeVoteAns(v)
    ensures var (i, s, s') := (v.msg.body.candidate, r.states[k], r.states[k + 1]);
            && i in s.nodes && i in s'.nodes && i in cfg.members && v.body.id == v.msg.to
            && BallotEffect(cfg, i, s.nodes[i], v.msg.sid, v.body, s'.nodes[i])
            && s'.nodes == s.nodes[i := s'.nodes[i]]
  {
    hide Init, BallotEffect, NodeInv, VoteMsgInv, AppendMsgInv, AppendAnsInv, AfterVoteAns;
    assert StepAt(cfg, r, k);
    BasicHolds(cfg, r, k);
    assert VoteAnsInv(r.states[k], v);
    var i := v.msg.body.candidate;
    VoteHasEffect(cfg, i, r.states[k].nodes[i], v);
    hide Basic;
  }

  // ----- Whom a session has heard from

  /** In step `k` session `sid` of node `i`, which is live, heeds an answer of `p`. */
  ghost predicate HearsAt(r: Run, k: nat, i: NodeId, sid: nat, p: NodeId) {
    && k < |r.acts| && k < |r.states| && r.acts[k].TakeVoteAns? && i in r.states[k].nodes
    && var v := r.acts[k].voteAns;
       && v.msg.to == p && v.msg.body.candidate == i && v.msg.sid == sid
       && Live(r.states[k].nodes[i], v) && !StepsDown(v.body)
  }

  /** Before step `k`. */
  ghost predicate Heard(r: Run, k: nat, i: NodeId, sid: nat, p: NodeId) {
    exists j: nat | j < k :: HearsAt(r, j, i, sid, p)
  }

  /** No session is heard of before it opens. */
  lemma {:induction false} UnopenedUnheard(cfg: Config, r: Run, j: nat, k: nat, i: NodeId, sid: nat, p: NodeId)
    requires ValidRun(cfg, r) && j < k < |r.states| && HearsAt(r, j, i, sid, p)
    ensures i in r.states[k].nodes && sid <= r.states[k].nodes[i].epoch
    decreases k
  {
    hide Init, Do, Enabled, HearsAt, Basic;
    BasicHolds(cfg, r, j);
    OpenWhenHeard(cfg, r, j, i, sid, p);
    NodesFixed(cfg, r, j);
    NodesFixed(cfg, r, k - 1);
    NodesFixed(cfg, r, k);
    assert StepAt(cfg, r, k - 1);
    EpochGrows(cfg, r.states[k - 1], r.acts[k - 1], i);
    if j < k - 1 { UnopenedUnheard(cfg, r, j, k - 1, i, sid, p); }
  }

  lemma OpenWhenHeard(cfg: Config, r: Run, j: nat, i: NodeId, sid: nat, p: NodeId)
    requires j < |r.states| && Basic(cfg, r.states[j]) && HearsAt(r, j, i, sid, p)
    ensures i in r.states[j].nodes && sid <= r.states[j].nodes[i].epoch
  {
    assert NodeInv(cfg, r.states[j], i);
  }

  lemma EpochGrows(cfg: Config, s: State, a: Action, i: NodeId)
    requires Enabled(cfg, s, a) && i in s.nodes && i in Do(cfg, s, a).nodes
    ensures s.nodes[i].epoch <= Do(cfg, s, a).nodes[i].epoch
  {
    FrameHolds(cfg, s, a);
    NodeEvolves(cfg, s, a);
    hide NodeAfter;
  }

  /** How a step changes whom the live session has heard from. */
  lemma HearingStep(cfg: Config, s: State, a: Action, i: NodeId)
    requires Enabled(cfg, s, a) && i in s.nodes && i in Do(cfg, s, a).nodes && LiveBallot(Do(cfg, s, a).nodes[i])
    ensures var (n, n') := (s.nodes[i], Do(cfg, s, a).nodes[i]);
            var b := n'.ballot.value;
            || (b.sid == n.epoch + 1 && b.acked == {} && !a.TakeVoteAns?)
            || (&& LiveBallot(n) && n.ballot.value.sid == b.sid
                && b.acked == n.ballot.value.acked +
                     if a.TakeVoteAns? && Actor(a) == i && Live(n, a.voteAns) && !StepsDown(a.voteAns.body)
                     then {a.voteAns.body.id} else {})
  {
  }

  lemma HeardMoves(cfg: Config, r: Run, k: nat, i: NodeId, p: NodeId)
    requires ValidRun(cfg, r) && k + 1 < |r.states| && i in r.states[k].nodes && i in r.states[k + 1].nodes
    requires LiveBallot(r.states[k + 1].nodes[i])
    ensures var (n, b) := (r.states[k].nodes[i], r.states[k + 1].nodes[i].ballot.value);
            || (b.sid == n.epoch + 1 && b.acked == {} && !r.acts[k].TakeVoteAns?)
            || (&& LiveBallot(n) && n.ballot.value.sid == b.sid
                && (p in b.acked <==> p in n.ballot.value.acked || HearsAt(r, k, i, b.sid, p)))
  {
    hide Init, Do, Enabled, HearsAt, Basic;
    var (s, a, b) := (r.states[k], r.acts[k], r.states[k + 1].nodes[i].ballot.value);
    assert StepAt(cfg, r, k);
    HearingStep(cfg, s, a, i);
    if a.TakeVoteAns? {
      BasicHolds(cfg, r, k);
      AnswererKnown(cfg, s, a);
      if LiveBallot(s.nodes[i]) && s.nodes[i].ballot.value.sid == b.sid { HeardNow(r, k, i, b.sid, p); }
    } else {
      NotHeardNow(r, k, i, b.sid, p);
    }
  }

  /** In every run the acknowledged peers of a live session are exactly those that it has heard from. */
  lemma {:induction false} AckedExactly(cfg: Config, r: Run, k: nat, i: NodeId, p: NodeId)
    requires ValidRun(cfg, r) && k < |r.states| && i in r.states[k].nodes && LiveBallot(r.states[k].nodes[i])
    ensures var b := r.states[k].nodes[i].ballot.value;
            p in b.acked <==> Heard(r, k, i, b.sid, p)
  {
    hide Init, StepAt, HearsAt, Heard;
    NodesFixed(cfg, r, k);
    if k == 0 {
      NobodyStands(cfg, r.states[0], i);
    } else {
      NodesFixed(cfg, r, k - 1);
      var (n, b) := (r.states[k - 1].nodes[i], r.states[k].nodes[i].ballot.value);
      HeardMoves(cfg, r, k - 1, i, p);
      if b.sid == n.epoch + 1 && b.acked == {} && !r.acts[k - 1].TakeVoteAns? {
        NewUnheard(cfg, r, k, i, b.sid, p);
      } else {
        AckedExactly(cfg, r, k - 1, i, p);
        HeardStep(r, k, i, b.sid, p);
      }
    }
  }

  lemma NobodyStands(cfg: Config, s: State, i: NodeId)
    requires Init(cfg, s) && i in s.nodes
    ensures !LiveBallot(s.nodes[i])
  {
    assert FreshNode(s.nodes[i], s.hist.base);
  }

  lemma NewUnheard(cfg: Config, r: Run, k: nat, i: NodeId, sid: nat, p: NodeId)
    requires ValidRun(cfg, r) && 0 < k < |r.states| && i in r.states[k - 1].nodes
    requires sid == r.states[k - 1].nodes[i].epoch + 1 && !r.acts[k - 1].TakeVoteAns?
    ensures !Heard(r, k, i, sid, p)
  {
    hide ValidRun;
    if Heard(r, k, i, sid, p) {
      var j: nat :| j < k && HearsAt(r, j, i, sid, p);
      if j < k - 1 { UnopenedUnheard(cfg, r, j, k - 1, i, sid, p); }
    }
  }

  lemma HeardStep(r: Run, k: nat, i: NodeId, sid: nat, p: NodeId)
    requires k > 0
    ensures Heard(r, k, i, sid, p) <==> Heard(r, k - 1, i, sid, p) || HearsAt(r, k - 1, i, sid, p)
  {
    hide HearsAt;
  }

  lemma AnswererKnown(cfg: Config, s: State, a: Action)
    requires Basic(cfg, s) && Enabled(cfg, s, a) && a.TakeVoteAns?
    ensures a.voteAns.body.id == a.voteAns.msg.to
  {
    assert VoteAnsInv(s, a.voteAns);
  }

  lemma HeardNow(r: Run, j: nat, i: NodeId, sid: nat, p: NodeId)
    requires j < |r.acts| && j < |r.states| && i in r.states[j].nodes && r.acts[j].TakeVoteAns?
    requires LiveBallot(r.states[j].nodes[i]) && r.states[j].nodes[i].ballot.value.sid == sid
    requires r.acts[j].voteAns.body.id == r.acts[j].voteAns.msg.to
    ensures HearsAt(r, j, i, sid, p) <==>
            Actor(r.acts[j]) == i && Live(r.states[j].nodes[i], r.acts[j].voteAns) && !StepsDown(r.acts[j].voteAns.body)
            && p == r.acts[j].voteAns.body.id
  {
  }

  lemma NotHeardNow(r: Run, j: nat, i: NodeId, sid: nat, p: NodeId)
    requires j < |r.acts| && !r.acts[j].TakeVoteAns?
    ensures !HearsAt(r, j, i, sid, p)
  {
  }

  /** In every run a candidate's retry asks exactly the other nodes that its session has not heard from, however
      those that it has heard from voted. */
  lemma RetryAsksUnheard(cfg: Config, r: Run, k: nat, i: NodeId, p: NodeId)
    requires ValidRun(cfg, r) && k < |r.states| && i in r.states[k].nodes && i in cfg.members
    requires LiveBallot(r.states[k].nodes[i])
    ensures var n := r.states[k].nodes[i];
            var o := Handle(i, cfg.members[i], n, RetryTimeout);
            (exists x :: x in o.outputs && x.AskAll? && p in x.peers) <==>
            p in cfg.Others(i) && !Heard(r, k, i, n.ballot.value.sid, p)
  {
    hide ValidRun, Heard, Handle;
    AckedExactly(cfg, r, k, i, p);
    var n := r.states[k].nodes[i];
    AskedAgain(i, cfg.members[i], n);
    var o := Handle(i, cfg.members[i], n, RetryTimeout);
    if p in cfg.Others(i) - n.ballot.value.acked { assert o.outputs[0] in o.outputs; }
  }
}
