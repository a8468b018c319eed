/** When terms fall, in every run. */
module Falls {
  import opened Types
  import opened NodeSteps
  import opened Cluster
  import opened AnyRun

  /** In the step, node `n` handles a reply that tells it to step down to a term below its own. */
  ghost predicate StepsBack(s: State, a: Action, n: NodeId) {
    && Actor(a) == n && n in s.nodes
    && match a
       case TakeVoteAns(v) => StepsDown(v.body) && v.body.term < s.nodes[n].term
       case TakeAppendAns(v) => v.body.reason.StaleLeader? && v.body.term < s.nodes[n].term
       case _ => false
  }

  /** A node's term falls exactly when it steps down to a lower one. */
  lemma TermFalls(cfg: Config, r: Run, k: nat, n: NodeId)
    requires ValidRun(cfg, r) && k < |r.acts| && n in r.states[k].nodes
    ensures n in r.states[k + 1].nodes
    ensures r.states[k + 1].nodes[n].term < r.states[k].nodes[n].term <==> StepsBack(r.states[k], r.acts[k], n)
  {
    hide Init;
    assert StepAt(cfg, r, k);
    StepDirection(cfg, r.states[k], r.acts[k]);
    FrameHolds(cfg, r.states[k], r.acts[k]);
    hide Do, Enabled, NodeAfter;
  }

  lemma StepDirection(cfg: Config, s: State, a: Action)
    requires Enabled(cfg, s, a)
    ensures NodeAfter(cfg, s, a).term < s.nodes[Actor(a)].term <==> StepsBack(s, a, Actor(a))
  {
  }

  /** Only replies to sessions that are still live are handled in step `k`. */
  ghost predicate AnswersLive(s: State, a: Action) {
    && Actor(a) in s.nodes
    && (a.TakeVoteAns? ==> Live(s.nodes[Actor(a)], a.voteAns))
    && (a.TakeAppendAns? ==> LiveLeader(s.nodes[Actor(a)], a.appendAns))
  }

  /** In a live session, a stale-term reply strictly raises the term; an incomplete-log reply never does, and lowers it
      exactly when the voter had been behind the candidate's term. */
  lemma LiveTermDirection(cfg: Config, r: Run, k: nat)
    requires ValidRun(cfg, r) && k < |r.acts| && AnswersLive(r.states[k], r.acts[k])
    ensures Actor(r.acts[k]) in r.states[k + 1].nodes
    ensures var before := r.states[k].nodes[Actor(r.acts[k])].term;
            var after := r.states[k + 1].nodes[Actor(r.acts[k])].term;
            match r.acts[k]
            case TakeVoteAns(v) =>
              && (v.body.reason.StaleCandidate? ==> after > before)
              && (v.body.reason.IncompleteLog? ==>
                    after <= before && (after < before <==> v.body.term < v.msg.body.term))
              && (!StepsDown(v.body) ==> after == before)
            case TakeAppendAns(v) => if v.body.reason.StaleLeader? then after > before else after == before
            case _ => after >= before
  {
    hide Init, NodeInv;
    BasicHolds(cfg, r, k);
    assert StepAt(cfg, r, k);
    LiveAnswerTerm(cfg, r.states[k], r.acts[k]);
    StepDirection(cfg, r.states[k], r.acts[k]);
    StepEffect(cfg, r.states[k], r.acts[k]);
    FrameHolds(cfg, r.states[k], r.acts[k]);
    hide Do, Enabled, NodeAfter, Basic;
  }

  lemma LiveAnswerTerm(cfg: Config, s: State, a: Action)
    requires Basic(cfg, s) && Enabled(cfg, s, a) && AnswersLive(s, a)
    ensures a.TakeVoteAns? ==> a.voteAns.msg.body.term == s.nodes[Actor(a)].term && VoteAnsInv(s, a.voteAns)
    ensures a.TakeAppendAns? ==> a.appendAns.msg.body.term == s.nodes[Actor(a)].term && AppendAnsInv(s, a.appendAns)
  {
    if a.TakeVoteAns? { assert VoteAnsInv(s, a.voteAns) && VoteMsgInv(s, a.voteAns.msg); }
    if a.TakeAppendAns? { assert AppendAnsInv(s, a.appendAns) && AppendMsgInv(s, a.appendAns.msg); }
  }

  lemma StepEffect(cfg: Config, s: State, a: Action)
    requires Enabled(cfg, s, a)
    ensures a.TakeVoteAns? ==>
              NodeAfter(cfg, s, a).term == if StepsDown(a.voteAns.body) then a.voteAns.body.term
                else s.nodes[Actor(a)].term
    ensures a.TakeAppendAns? ==>
              NodeAfter(cfg, s, a).term == if a.appendAns.body.reason.StaleLeader? then a.appendAns.body.term
                else s.nodes[Actor(a)].term
  {
  }

  // ----- Hypotheses on falling terms

  /** If the step lowers a term, then by an answer to a session that is still live. */
  ghost predicate FallsLive(s: State, a: Action) {
    StepsBack(s, a, Actor(a)) ==> AnswersLive(s, a)
  }

  ghost predicate FallsLiveAt(r: Run, k: nat) {
    k < |r.acts| && k < |r.states| && FallsLive(r.states[k], r.acts[k])
  }

  /** Run hypothesis: no late answer lowers a term. */
  ghost predicate FallsAreLive(r: Run) {
    forall k: nat | k < |r.acts| :: FallsLiveAt(r, k)
  }

  ghost predicate AnswersLiveAt(r: Run, k: nat) {
    k < |r.acts| && k < |r.states| && AnswersLive(r.states[k], r.acts[k])
  }

  /** Run hypothesis: only live sessions handle answers. */
  ghost predicate LiveAnswersOnly(r: Run) {
    forall k: nat | k < |r.acts| :: AnswersLiveAt(r, k)
  }

  lemma LiveAnswersFallLive(r: Run)
    requires LiveAnswersOnly(r)
    ensures FallsAreLive(r)
  {
    forall k: nat | k < |r.acts| ensures FallsLiveAt(r, k) { assert AnswersLiveAt(r, k); }
  }

  /** Where no term falls, no late answer lowers one. */
  lemma MonotoneFallsLive(cfg: Config, r: Run)
    requires ValidRun(cfg, r) && TermMonotone(r)
    ensures FallsAreLive(r)
  {
    hide Init, StepsBack;
    forall k: nat | k < |r.acts| ensures FallsLiveAt(r, k) {
      assert StepAt(cfg, r, k) && TermsRiseAt(r, k);
      TermFalls(cfg, r, k, Actor(r.acts[k]));
    }
  }
}
