/** How terms move, in every run; and who a node redirects its clients to. */
module Terms {
  import opened Types
  import opened NodeSteps
  import opened Cluster
  import opened AnyRun
  import opened Elections
  import opened Counting
  import opened Runs
  import opened Majorities

  /** In a term-monotone run a node's term never falls between any two moments. */
  lemma {:induction false} TermsNeverFall(cfg: Config, r: Run, i: nat, j: nat, n: NodeId)
    requires ValidRun(cfg, r) && TermMonotone(r) && i <= j < |r.states| && n in r.states[i].nodes
    ensures n in r.states[j].nodes && r.states[i].nodes[n].term <= r.states[j].nodes[n].term
    decreases j
  {
    hide Init, StepAt;
    if i < j {
      TermsNeverFall(cfg, r, i, j - 1, n);
      NodesFixed(cfg, r, j - 1);
      NodesFixed(cfg, r, j);
      assert TermsRiseAt(r, j - 1);
    }
  }

  // ----- Commit index

  /** In every state of every run the commit index is within the log. */
  lemma CommitWithinLog(cfg: Config, r: Run, k: nat, n: NodeId)
    requires ValidRun(cfg, r) && k < |r.states| && n in r.states[k].nodes
    ensures r.states[k].nodes[n].commit <= |r.states[k].nodes[n].log|
  {
    hide Init, StepAt, VoteMsgInv, VoteAnsInv, AppendMsgInv, AppendAnsInv;
    BasicHolds(cfg, r, k);
    assert NodeInv(cfg, r.states[k], n);
  }

  // ----- Leader hint

  /** In step `k`, node `n` takes an append of `term` from `leader` as current. */
  ghost predicate Hears(r: Run, k: nat, n: NodeId, term: nat, leader: NodeId) {
    && k < |r.acts| && k < |r.states| && n in r.states[k].nodes
    && r.acts[k].TakeAppend? && r.acts[k].append.to == n
    && r.acts[k].append.body.term == term && r.acts[k].append.body.leader == leader && r.states[k].nodes[n].term <= term
  }

  /** The hint is the leader last heard; before anything is heard there is none. */
  ghost predicate LastHeard(r: Run, k: nat, n: NodeId, hint: Option<NodeId>, j: nat, term: nat) {
    match hint
    case None => forall i: nat, t: nat, l | i < k :: !Hears(r, i, n, t, l)
    case Some(l) => j < k && Hears(r, j, n, term, l) && forall i: nat, t: nat, m | j < i < k :: !Hears(r, i, n, t, m)
  }

  lemma HintStep(cfg: Config, s: State, a: Action, n: NodeId)
    requires Enabled(cfg, s, a) && n in s.nodes
    ensures var s' := Do(cfg, s, a);
            n in s'.nodes && s'.nodes[n].hint ==
              if a.TakeAppend? && a.append.to == n && s.nodes[n].term <= a.append.body.term
                then Some(a.append.body.leader)
              else s.nodes[n].hint
  {
  }

  lemma NothingHeard(cfg: Config, r: Run, n: NodeId)
    requires |r.states| > 0 && Init(cfg, r.states[0]) && n in r.states[0].nodes
    ensures LastHeard(r, 0, n, r.states[0].nodes[n].hint, 0, 0)
  {
    assert FreshNode(r.states[0].nodes[n], r.states[0].hist.base);
  }

  lemma HeardNothingNew(r: Run, k: nat, n: NodeId, hint: Option<NodeId>, j: nat, term: nat)
    requires LastHeard(r, k, n, hint, j, term) && forall t: nat, l :: !Hears(r, k, n, t, l)
    ensures LastHeard(r, k + 1, n, hint, j, term)
  {
    hide Hears;
  }

  lemma HeardAnew(r: Run, k: nat, n: NodeId, term: nat, leader: NodeId)
    requires Hears(r, k, n, term, leader)
    ensures LastHeard(r, k + 1, n, Some(leader), k, term)
  {
    hide Hears;
  }

  lemma {:induction false} HintIsLastHeard(cfg: Config, r: Run, k: nat, n: NodeId) returns (j: nat, term: nat)
    requires ValidRun(cfg, r) && k < |r.states| && n in r.states[k].nodes
    ensures LastHeard(r, k, n, r.states[k].nodes[n].hint, j, term)
  {
    hide Init, Do, Enabled, LastHeard;
    if k == 0 {
      j, term := 0, 0;
      NothingHeard(cfg, r, n);
    } else {
      NodesFixed(cfg, r, k - 1);
      NodesFixed(cfg, r, k);
      assert StepAt(cfg, r, k - 1);
      var (s, a) := (r.states[k - 1], r.acts[k - 1]);
      HintStep(cfg, s, a, n);
      j, term := HintIsLastHeard(cfg, r, k - 1, n);
      if a.TakeAppend? && a.append.to == n && s.nodes[n].term <= a.append.body.term {
        HeardAnew(r, k - 1, n, a.append.body.term, a.append.body.leader);
        j, term := k - 1, a.append.body.term;
      } else {
        HeardNothingNew(r, k - 1, n, s.nodes[n].hint, j, term);
      }
    }
  }

  /** The node took over the term of what it heard. */
  lemma HeardTerm(cfg: Config, r: Run, k: nat, n: NodeId, term: nat, leader: NodeId)
    requires ValidRun(cfg, r) && Hears(r, k, n, term, leader)
    ensures n in r.states[k + 1].nodes && r.states[k + 1].nodes[n].term == term
  {
    hide Init;
    assert StepAt(cfg, r, k);
  }

  /** A redirect names the one leader of the largest term in which the redirecting node took an append; a node that
      answers that there is no leader has taken none. */
  lemma LeaderHint(cfg: Config, r: Run, k: nat, n: NodeId)
    requires ValidRun(cfg, r) && TermMonotone(r) && SendersLead(r) && k < |r.states| && n in r.states[k].nodes
    ensures match OnClientRequest(r.states[k].nodes[n])
            case NoLeaderYet => forall i: nat, t: nat, l | i < k :: !Hears(r, i, n, t, l)
            case Redirect(leader) =>
              exists j: nat, term: nat ::
                && j < k && Hears(r, j, n, term, leader)
                && (forall i: nat, t: nat, l | i < k && Hears(r, i, n, t, l) :: t <= term)
                && LedBy(r, leader, term)
  {
    hide StepAt, ValidRun, Hears, LedBy, TermMonotone, SendersLead;
    var j, term := HintIsLastHeard(cfg, r, k, n);
    match r.states[k].nodes[n].hint
    case None =>
    case Some(leader) =>
      forall i: nat, t: nat, l | i < k && Hears(r, i, n, t, l) ensures t <= term {
        EarlierTerm(cfg, r, i, j, n, t, l, term, leader);
      }
      HeardLeads(cfg, r, j, n, term, leader);
  }

  /** `leader`, and nobody else, led `term` at some moment of the run. */
  ghost predicate LedBy(r: Run, leader: NodeId, term: nat) {
    && (exists i: nat :: i < |r.states| && Leads(r.states[i], leader, term))
    && (forall i: nat, m | i < |r.states| && Leads(r.states[i], m, term) :: m == leader)
  }

  lemma EarlierTerm(cfg: Config, r: Run, i: nat, j: nat, n: NodeId, t: nat, l: NodeId, term: nat, leader: NodeId)
    requires ValidRun(cfg, r) && TermMonotone(r) && i <= j && Hears(r, i, n, t, l) && Hears(r, j, n, term, leader)
    ensures t <= term
  {
    hide StepAt, Init, TermMonotone;
    if i < j {
      HeardTerm(cfg, r, i, n, t, l);
      TermsNeverFall(cfg, r, i + 1, j, n);
    }
  }

  lemma HeardLeads(cfg: Config, r: Run, j: nat, n: NodeId, term: nat, leader: NodeId)
    requires ValidRun(cfg, r) && TermMonotone(r) && SendersLead(r) && Hears(r, j, n, term, leader)
    ensures LedBy(r, leader, term)
  {
    hide Init, Do, TermMonotone, SendersLead, Won, NodeAfter, Leads, SenderInv;
    assert StepAt(cfg, r, j);
    SendersHold(cfg, r, j);
    SenderWon(r.states[j], r.acts[j].append);
    var i := LeadMoment(cfg, r, j, term, leader);
    forall k: nat, m | k < |r.states| && Leads(r.states[k], m, term) ensures m == leader {
      ElectionSafetyMonotone(cfg, r, k, i, m, leader, term);
    }
  }
}
