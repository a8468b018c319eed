/** Log Matching and append-only leaders, even where terms fall: no ordering of terms within a log is needed. */
module Tracing {
  import opened Types
  import opened NodeSteps
  import opened Cluster
  import opened AnyRun
  import opened Elections
  import opened Logs
  import opened Falls
  import opened Counting

  // ----- No term ever lies below the initial log

  ghost predicate FloorInv(s: State) {
    var floor := LastTerm(s.hist.base);
    && (forall i | i in s.nodes :: s.nodes[i].term >= floor && (LiveBallot(s.nodes[i]) ==> s.nodes[i].term > floor))
    && (forall m | m in s.voteMsgs :: m.body.term >= floor)
    && (forall v | v in s.voteAnswers :: v.body.term >= floor)
    && (forall m | m in s.appendMsgs :: m.body.term >= floor)
    && (forall v | v in s.appendAnswers :: v.body.term >= floor)
  }

  lemma FloorNode(cfg: Config, s: State, a: Action)
    requires Enabled(cfg, s, a) && FloorInv(s)
    ensures var n' := NodeAfter(cfg, s, a);
            n'.term >= LastTerm(s.hist.base) && (LiveBallot(n') ==> n'.term > LastTerm(s.hist.base))
  {
    hide Advance, Credit, BackOff, AheadOf, Mismatch;
  }

  lemma FloorStep(cfg: Config, s: State, a: Action)
    requires Enabled(cfg, s, a) && FloorInv(s)
    ensures FloorInv(Do(cfg, s, a))
  {
    FloorNode(cfg, s, a);
    hide NodeAfter;
  }

  lemma {:induction false} FloorHolds(cfg: Config, r: Run, k: nat)
    requires ValidRun(cfg, r) && k < |r.states|
    ensures FloorInv(r.states[k])
  {
    hide Do, Enabled, FloorInv;
    if k == 0 {
      FloorInit(cfg, r.states[0]);
    } else {
      FloorHolds(cfg, r, k - 1);
      assert StepAt(cfg, r, k - 1);
      FloorStep(cfg, r.states[k - 1], r.acts[k - 1]);
    }
  }

  lemma FloorInit(cfg: Config, s: State)
    requires Init(cfg, s)
    ensures FloorInv(s)
  {
    forall i | i in s.nodes ensures s.nodes[i].term >= LastTerm(s.hist.base) && !LiveBallot(s.nodes[i]) {
      assert FreshNode(s.nodes[i], s.hist.base);
    }
  }

  // ----- The terms that have been led

  /** Every term that has a leader's log is one of the initial log, or was won. */
  ghost predicate LedTerms(r: Run, k: nat) {
    && k < |r.states|
    && (forall t | t in r.states[k].hist.leaderLog ::
          t in TermsOf(r.states[k].hist.base) || exists j: nat, i | j < k :: WinAt(r, j, i, t))
  }

  lemma NewTerms(cfg: Config, s: State, a: Action, t: nat)
    requires Enabled(cfg, s, a) && LeadersLead(s) && t in Do(cfg, s, a).hist.leaderLog
    ensures t in s.hist.leaderLog || (a.Win? && a.n in s.nodes && s.nodes[a.n].term == t)
  {
    if a.ClientAppend? { assert LeadsWith(s, a.n); }
    hide NodeAfter;
  }

  lemma {:induction false} LedTermsHold(cfg: Config, r: Run, k: nat)
    requires ValidRun(cfg, r) && k < |r.states| && forall j: nat | j < k :: LeadersLead(r.states[j])
    ensures LedTerms(r, k)
  {
    hide Do, Enabled, LeadersLead, WinAt;
    if k > 0 {
      LedTermsHold(cfg, r, k - 1);
      assert StepAt(cfg, r, k - 1);
      HistoryBase(cfg, r.states[k - 1], r.acts[k - 1]);
      forall t | t in r.states[k].hist.leaderLog
        ensures t in TermsOf(r.states[k].hist.base) || exists j: nat, i | j < k :: WinAt(r, j, i, t)
      {
        NewTerms(cfg, r.states[k - 1], r.acts[k - 1], t);
        if t in r.states[k - 1].hist.leaderLog {
          if t !in TermsOf(r.states[k].hist.base) {
            var j: nat, i :| j < k - 1 && WinAt(r, j, i, t);
            assert j < k && WinAt(r, j, i, t);
          }
        } else {
          WinNow(r, k - 1, t);
        }
      }
    }
  }

  lemma WinNow(r: Run, k: nat, t: nat)
    requires k < |r.acts| && k < |r.states| && r.acts[k].Win? && r.acts[k].n in r.states[k].nodes
    requires r.states[k].nodes[r.acts[k].n].term == t
    ensures WinAt(r, k, r.acts[k].n, t)
  {
  }

  lemma HistoryBase(cfg: Config, s: State, a: Action)
    requires Enabled(cfg, s, a)
    ensures Do(cfg, s, a).hist.base == s.hist.base
  {
    hide NodeAfter;
  }

  // ----- Tracing, step by step

  /** A leader's log is the one on record for its term. */
  ghost predicate LeadsWith(s: State, i: NodeId)
    requires i in s.nodes
  {
    s.nodes[i].role.Leader? ==>
      s.nodes[i].term in s.hist.leaderLog && s.nodes[i].log == s.hist.leaderLog[s.nodes[i].term]
  }

  ghost predicate LeadersLead(s: State) {
    forall i | i in s.nodes :: LeadsWith(s, i)
  }

  /** Every log that a node ever held is traced to the leaders of its entries' terms. */
  ghost predicate AllTraced(s: State) {
    forall h | h in s.hist.held :: Traced(s.hist.leaderLog, h.log)
  }

  lemma TracedGrows(l: map<nat, Log>, l': map<nat, Log>, log: Log)
    requires Traced(l, log) && Grows(l, l')
    ensures Traced(l', log)
  {
    forall i | 0 <= i < |log| ensures TracedAt(l', log, i) { assert TracedAt(l, log, i); }
  }

  lemma TracedAppend(l: map<nat, Log>, log: Log, e: Entry)
    requires e.term in l && l[e.term] == log && Traced(l, log)
    ensures var l' := l[e.term := log + [e]]; Grows(l, l') && Traced(l', log + [e])
  {
    var l' := l[e.term := log + [e]];
    assert log <= log + [e];
    TracedGrows(l, l', log);
    forall i | 0 <= i < |log| + 1 ensures TracedAt(l', log + [e], i) {
      if i < |log| {
        assert TracedAt(l', log, i);
        assert (log + [e])[..i + 1] == log[..i + 1];
      }
    }
  }

  /** The step wins no term that has been led, and writes for no other leader. */
  ghost predicate LeadsAlone(s: State, a: Action) {
    && (a.Win? && a.n in s.nodes ==> s.nodes[a.n].term !in s.hist.leaderLog)
    && (a.ClientAppend? && a.n in s.nodes ==> forall j | Leads(s, j, s.nodes[a.n].term) :: j == a.n)
  }

  lemma LeaderLogsStep(cfg: Config, s: State, a: Action)
    requires Enabled(cfg, s, a) && LeadersLead(s) && LeadsAlone(s, a)
    ensures Grows(s.hist.leaderLog, LeaderLogAfter(cfg, s, a))
  {
    if a.ClientAppend? { assert LeadsWith(s, a.n); }
  }

  lemma WritesAlone(s: State, a: Action, j: NodeId)
    requires LeadsAlone(s, a) && a.ClientAppend? && a.n in s.nodes && j != a.n
    ensures !Leads(s, j, s.nodes[a.n].term)
  {
  }

  lemma LeadsWithStep(cfg: Config, s: State, a: Action, j: NodeId)
    requires Enabled(cfg, s, a) && LeadersLead(s) && LeadsAlone(s, a) && j in s.nodes
    ensures j in Do(cfg, s, a).nodes && LeadsWith(Do(cfg, s, a), j)
  {
    assert LeadsWith(s, j);
    FrameHolds(cfg, s, a);
    if j == Actor(a) {
      if NodeAfter(cfg, s, a).role.Leader? {
        LeaderCases(cfg, s, a);
        LogCases(cfg, s, a);
        LeaderTakesNothing(cfg, s, a);
      }
    } else if a.ClientAppend? {
      WritesAlone(s, a, j);
    }
    hide NodeAfter, LeadersLead, LeadsAlone;
  }

  lemma LeaderTakesNothing(cfg: Config, s: State, a: Action)
    requires Enabled(cfg, s, a) && NodeAfter(cfg, s, a).role.Leader?
    ensures a.TakeAppend? ==> NodeAfter(cfg, s, a).log == s.nodes[Actor(a)].log
  {
  }

  /** What the acting node holds after the step is traced. */
  lemma ActorTraced(cfg: Config, s: State, a: Action)
    requires Basic(cfg, s) && Enabled(cfg, s, a) && LeadersLead(s) && LeadsAlone(s, a) && AllTraced(s)
    ensures Traced(LeaderLogAfter(cfg, s, a), NodeAfter(cfg, s, a).log)
  {
    var n := s.nodes[Actor(a)];
    var (l, l') := (s.hist.leaderLog, LeaderLogAfter(cfg, s, a));
    LeaderLogsStep(cfg, s, a);
    LogCases(cfg, s, a);
    hide NodeAfter, Traced, Grows, Mismatch, LeadsAlone, VoteMsgInv, VoteAnsInv, AppendAnsInv;
    assert Traced(l, n.log) by { HeldNow(cfg, s, Actor(a)); }
    if a.ClientAppend? {
      assert LeadsWith(s, a.n);
      TracedAppend(l, n.log, Entry(n.term, a.command));
    } else if a.TakeAppend? && n.term <= a.append.body.term && !Mismatch(n.log, a.append.body) {
      assert AppendMsgInv(s, a.append);
      assert Traced(l, a.append.snapshot);
      AcceptedLog(l, n.log, a.append);
      if a.append.heartbeat { TracedEmpty(l'); } else { TracedGrows(l, l', a.append.snapshot); }
    } else {
      TracedGrows(l, l', n.log);
    }
  }

  lemma TracedEmpty(l: map<nat, Log>)
    ensures Traced(l, [])
  {
  }

  lemma AllTracedStep(cfg: Config, s: State, a: Action)
    requires Basic(cfg, s) && Enabled(cfg, s, a) && LeadersLead(s) && LeadsAlone(s, a) && AllTraced(s)
    ensures AllTraced(Do(cfg, s, a))
  {
    var s' := Do(cfg, s, a);
    hide NodeAfter, Basic, LeadersLead, LeadsAlone, Traced, Grows, LeaderLogAfter, Enabled;
    FrameHolds(cfg, s, a);
    ActorTraced(cfg, s, a);
    LeaderLogsStep(cfg, s, a);
    forall h | h in s'.hist.held ensures Traced(s'.hist.leaderLog, h.log) {
      if h in s.hist.held { TracedGrows(s.hist.leaderLog, s'.hist.leaderLog, h.log); }
    }
  }

  lemma LeadersLeadStep(cfg: Config, s: State, a: Action)
    requires Enabled(cfg, s, a) && LeadersLead(s) && LeadsAlone(s, a)
    ensures LeadersLead(Do(cfg, s, a))
  {
    var s' := Do(cfg, s, a);
    FrameHolds(cfg, s, a);
    hide NodeAfter, LeadersLead, LeadsAlone, LeadsWith, Do, Enabled;
    forall j | j in s'.nodes ensures LeadsWith(s', j) { LeadsWithStep(cfg, s, a, j); }
    AllLead(s');
  }

  lemma AllLead(s: State)
    requires forall j | j in s.nodes :: LeadsWith(s, j)
    ensures LeadersLead(s)
  {
  }

  // ----- Tracing, over runs without late falls

  /** Run hypothesis: no step is a late fall, whatever the term. */
  ghost predicate NoLateFalls(cfg: Config, r: Run) {
    forall t: nat :: NoLateFall(cfg, r, t)
  }

  lemma FallsLiveNoneLate(cfg: Config, r: Run)
    requires ValidRun(cfg, r) && FallsAreLive(r)
    ensures NoLateFalls(cfg, r)
  {
    hide ValidRun, FallsAreLive, NoLateFall;
    forall t: nat ensures NoLateFall(cfg, r, t) { FallsLiveNotLate(cfg, r, t); }
  }

  lemma MonotoneNoneLate(cfg: Config, r: Run)
    requires ValidRun(cfg, r) && TermMonotone(r)
    ensures NoLateFalls(cfg, r)
  {
    hide ValidRun, FallsAreLive, TermMonotone, NoLateFalls;
    MonotoneFallsLive(cfg, r);
    FallsLiveNoneLate(cfg, r);
  }

  lemma InitialTerms(cfg: Config, r: Run, k: nat, t: nat)
    requires ValidRun(cfg, r) && k < |r.states| && t in TermsOf(r.states[k].hist.base)
    ensures t <= LastTerm(r.states[k].hist.base)
  {
    hide Do, Enabled;
    OrderedBase(cfg, r, k);
    BaseTerms(r.states[k].hist.base);
  }

  lemma {:induction false} OrderedBase(cfg: Config, r: Run, k: nat)
    requires ValidRun(cfg, r) && k < |r.states|
    ensures Ordered(r.states[k].hist.base)
  {
    hide Do, Enabled, Ordered;
    if k > 0 {
      OrderedBase(cfg, r, k - 1);
      assert StepAt(cfg, r, k - 1);
      HistoryBase(cfg, r.states[k - 1], r.acts[k - 1]);
    }
  }

  /** A step of such a run wins no term twice, and writes for one leader. */
  lemma StepsAlone(cfg: Config, r: Run, k: nat)
    requires ValidRun(cfg, r) && NoLateFalls(cfg, r) && k < |r.acts| && LedTerms(r, k)
    ensures StepAt(cfg, r, k) && LeadsAlone(r.states[k], r.acts[k])
  {
    hide Init, Do, NodeAfter, NoLateFall, TermsOf, LastTerm;
    assert StepAt(cfg, r, k);
    var (s, a) := (r.states[k], r.acts[k]);
    if a.Win? && s.nodes[a.n].term in s.hist.leaderLog {
      var t := s.nodes[a.n].term;
      FloorHolds(cfg, r, k);
      if t in TermsOf(s.hist.base) {
        InitialTerms(cfg, r, k, t);
      } else {
        var j: nat, i :| j < k && WinAt(r, j, i, t);
        OneWinPerTerm(cfg, r, j, k, i, a.n, t);
      }
      assert false;
    }
    if a.ClientAppend? {
      forall j | Leads(s, j, s.nodes[a.n].term) ensures j == a.n {
        ElectionSafetyIn(cfg, r, k, k, j, a.n, s.nodes[a.n].term);
      }
    }
  }

  lemma {:induction false} TraceHolds(cfg: Config, r: Run, k: nat)
    requires ValidRun(cfg, r) && NoLateFalls(cfg, r) && k < |r.states|
    ensures AllTraced(r.states[k]) && forall j: nat | j <= k :: LeadersLead(r.states[j])
  {
    hide Init, Do, Enabled, Basic, NoLateFalls, AllTraced, LeadersLead, LeadsAlone, LedTerms;
    if k == 0 {
      TraceInit(cfg, r.states[0]);
    } else {
      TraceHolds(cfg, r, k - 1);
      LedTermsHold(cfg, r, k - 1);
      StepsAlone(cfg, r, k - 1);
      BasicHolds(cfg, r, k - 1);
      AllTracedStep(cfg, r.states[k - 1], r.acts[k - 1]);
      LeadersLeadStep(cfg, r.states[k - 1], r.acts[k - 1]);
    }
  }

  lemma TraceInit(cfg: Config, s: State)
    requires Init(cfg, s)
    ensures AllTraced(s) && LeadersLead(s)
  {
    var base := s.hist.base;
    forall i | 0 <= i < |base| ensures TracedAt(s.hist.leaderLog, base, i) {}
    forall i | i in s.nodes ensures LeadsWith(s, i) { assert FreshNode(s.nodes[i], base); }
  }

  lemma {:induction false} LeaderLogsGrow(cfg: Config, r: Run, i: nat, j: nat)
    requires ValidRun(cfg, r) && NoLateFalls(cfg, r) && i <= j < |r.states|
    ensures Grows(r.states[i].hist.leaderLog, r.states[j].hist.leaderLog)
    decreases j
  {
    hide Do, Enabled, NoLateFalls, AllTraced, LeadersLead, LeadsAlone, LedTerms;
    if i < j {
      LeaderLogsGrow(cfg, r, i, j - 1);
      TraceHolds(cfg, r, j - 1);
      LedTermsHold(cfg, r, j - 1);
      StepsAlone(cfg, r, j - 1);
      GrowsNow(cfg, r.states[j - 1], r.acts[j - 1]);
      GrowsOn(r.states[i].hist.leaderLog, r.states[j - 1].hist.leaderLog, r.states[j].hist.leaderLog);
    }
  }

  lemma GrowsNow(cfg: Config, s: State, a: Action)
    requires Enabled(cfg, s, a) && LeadersLead(s) && LeadsAlone(s, a)
    ensures Grows(s.hist.leaderLog, Do(cfg, s, a).hist.leaderLog)
  {
    hide NodeAfter, LeadersLead, LeadsAlone, LeaderLogAfter, Grows;
    LeaderLogsStep(cfg, s, a);
  }

  lemma GrowsOn(a: map<nat, Log>, b: map<nat, Log>, c: map<nat, Log>)
    requires Grows(a, b) && Grows(b, c)
    ensures Grows(a, c)
  {
    forall t | t in a ensures t in c && a[t] <= c[t] {
      assert a[t] <= b[t] && b[t] <= c[t];
    }
  }

  // ----- The theorems

  /** Any log that a node has at a moment of the run is traced at every later one. */
  lemma LogTraced(cfg: Config, r: Run, i: nat, top: nat, m: NodeId)
    requires ValidRun(cfg, r) && NoLateFalls(cfg, r) && i <= top < |r.states| && m in r.states[i].nodes
    ensures Traced(r.states[top].hist.leaderLog, r.states[i].nodes[m].log)
  {
    hide ValidRun, NoLateFalls, Basic, Traced;
    BasicHolds(cfg, r, i);
    HeldNow(cfg, r.states[i], m);
    HistoryGrows(cfg, r, i, top);
    TraceHolds(cfg, r, top);
  }

  /** Any two logs of any two moments are identical up to an index at which their terms are equal. */
  lemma LogMatching(cfg: Config, r: Run, i: nat, j: nat, m: NodeId, n: NodeId)
    requires ValidRun(cfg, r) && NoLateFalls(cfg, r) && i < |r.states| && j < |r.states|
    requires m in r.states[i].nodes && n in r.states[j].nodes
    ensures Matching(r.states[i].nodes[m].log, r.states[j].nodes[n].log)
  {
    hide ValidRun, NoLateFalls, Traced, Matching;
    var top := if i <= j then j else i;
    LogTraced(cfg, r, i, top, m);
    LogTraced(cfg, r, j, top, n);
    TracedMatch(r.states[top].hist.leaderLog, r.states[i].nodes[m].log, r.states[j].nodes[n].log);
  }

  /** Between two moments at which a node leads the same term, its log only grows. */
  lemma LeaderAppendOnly(cfg: Config, r: Run, i: nat, j: nat, n: NodeId, term: nat)
    requires ValidRun(cfg, r) && NoLateFalls(cfg, r) && i <= j < |r.states|
    requires Leads(r.states[i], n, term) && Leads(r.states[j], n, term)
    ensures r.states[i].nodes[n].log <= r.states[j].nodes[n].log
  {
    hide ValidRun, NoLateFalls, AllTraced;
    TraceHolds(cfg, r, j);
    LeaderLogsGrow(cfg, r, i, j);
    assert LeadersLead(r.states[i]) && LeadersLead(r.states[j]);
    assert LeadsWith(r.states[i], n) && LeadsWith(r.states[j], n);
  }
}
