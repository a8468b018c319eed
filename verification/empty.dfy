/** A cluster whose logs start empty: no entry ever reaches a second node, so nothing is ever committed. */
module EmptyCluster {
  import opened Types
  import opened Median
  import opened NodeSteps
  import opened Cluster
  import opened AnyRun
  import opened Elections
  import opened Logs
  import opened Counting
  import opened Tracing

  /** Every entry is in the log of the node that won its term. */
  ghost predicate Authored(h: History, n: NodeId, log: Log) {
    forall x | 0 <= x < |log| :: Won(h, log[x].term, n)
  }

  ghost predicate AloneInv(s: State) {
    && (forall i | i in s.nodes :: s.nodes[i].commit == 0)
    && (forall h | h in s.hist.held :: Authored(s.hist, h.node, h.log))
    && (forall v | v in s.appendAnswers && v.body.reason.Appended? :: v.msg.heartbeat)
  }

  lemma AuthoredLasts(h: History, h': History, n: NodeId, log: Log)
    requires Authored(h, n, log) && h.elections <= h'.elections
    ensures Authored(h', n, log)
  {
    forall x | 0 <= x < |log| ensures Won(h', log[x].term, n) { WonLasts(h, h', log[x].term, n); }
  }

  /** No term has two winners, and leaders have won theirs. */
  ghost predicate WinnersInv(s: State) {
    && (forall t, m, n | Won(s.hist, t, m) && Won(s.hist, t, n) :: m == n)
    && (forall i | i in s.nodes && s.nodes[i].role.Leader? :: Won(s.hist, s.nodes[i].term, i))
  }

  lemma OneWinner(s: State, t: nat, m: NodeId, n: NodeId)
    requires WinnersInv(s)
    ensures Won(s.hist, t, m) && Won(s.hist, t, n) ==> m == n
  {
    hide Won;
  }

  lemma {:induction false} ElectionWon(cfg: Config, r: Run, k: nat, e: Election) returns (j: nat)
    requires ValidRun(cfg, r) && k < |r.states| && e in r.states[k].hist.elections
    ensures j < k && WinAt(r, j, e.leader, e.term)
  {
    hide NodeAfter;
    assert k > 0;
    assert StepAt(cfg, r, k - 1);
    if e in r.states[k - 1].hist.elections { j := ElectionWon(cfg, r, k - 1, e); } else { j := k - 1; }
  }

  lemma WinRecorded(cfg: Config, r: Run, j: nat, k: nat, i: NodeId, t: nat)
    requires ValidRun(cfg, r) && WinAt(r, j, i, t) && j < k < |r.states|
    ensures Won(r.states[k].hist, t, i)
  {
    hide Init, NodeAfter, Won;
    assert StepAt(cfg, r, j);
    WonNow(cfg, r.states[j], r.acts[j]);
    HistoryGrows(cfg, r, j + 1, k);
    WonLasts(r.states[j + 1].hist, r.states[k].hist, t, i);
  }

  lemma WonNow(cfg: Config, s: State, a: Action)
    requires Enabled(cfg, s, a) && a.Win?
    ensures Won(Do(cfg, s, a).hist, s.nodes[a.n].term, a.n)
  {
    assert ElectionOf(s, a.n) in Do(cfg, s, a).hist.elections;
  }

  lemma WinnersHold(cfg: Config, r: Run, k: nat)
    requires ValidRun(cfg, r) && NoLateFalls(cfg, r) && k < |r.states|
    ensures WinnersInv(r.states[k])
  {
    hide ValidRun, NoLateFall, WinAt;
    var s := r.states[k];
    forall t, m, n | Won(s.hist, t, m) && Won(s.hist, t, n) ensures m == n {
      var e :| e in s.hist.elections && e.term == t && e.leader == m;
      var f :| f in s.hist.elections && f.term == t && f.leader == n;
      var x := ElectionWon(cfg, r, k, e);
      var y := ElectionWon(cfg, r, k, f);
      OneWinPerTerm(cfg, r, x, y, m, n, t);
    }
    forall i | i in s.nodes && s.nodes[i].role.Leader? ensures Won(s.hist, s.nodes[i].term, i) {
      assert Leads(s, i, s.nodes[i].term);
      var j := LeaderWon(cfg, r, k, i, s.nodes[i].term);
      WinRecorded(cfg, r, j, k, i, s.nodes[i].term);
    }
  }

  /** The request would have to start at an entry that both nodes hold, but no entry has two authors. */
  lemma AlwaysRefused(s: State, m: AppendMsg)
    requires WinnersInv(s) && AppendMsgInv(s, m) && !m.heartbeat
    requires Authored(s.hist, m.to, s.nodes[m.to].log) && Authored(s.hist, m.body.leader, m.snapshot)
    ensures Mismatch(s.nodes[m.to].log, m.body)
  {
    var log := s.nodes[m.to].log;
    var p := m.body.prevIndex;
    hide Won;
    assert Won(s.hist, m.snapshot[p - 1].term, m.body.leader);
    if p <= |log| {
      assert Won(s.hist, log[p - 1].term, m.to);
      OneWinner(s, log[p - 1].term, m.to, m.body.leader);
    }
  }

  lemma HeldAuthored(s: State, h: Held)
    requires AloneInv(s) && h in s.hist.held
    ensures Authored(s.hist, h.node, h.log)
  {
  }

  lemma Refused(cfg: Config, s: State, m: AppendMsg)
    requires Basic(cfg, s) && WinnersInv(s) && AloneInv(s) && m in s.appendMsgs
    ensures AppendMsgInv(s, m) && (!m.heartbeat ==> Mismatch(s.nodes[m.to].log, m.body))
  {
    assert AppendMsgInv(s, m);
    hide WinnersInv, AloneInv, Authored, NodeInv, VoteMsgInv, VoteAnsInv, AppendAnsInv, Mismatch;
    if !m.heartbeat {
      HeldNow(cfg, s, m.to);
      HeldAuthored(s, Held(m.to, s.nodes[m.to].term, s.nodes[m.to].log));
      SentHeld(s, m);
      HeldAuthored(s, Held(m.body.leader, m.body.term, m.snapshot));
      AlwaysRefused(s, m);
    }
  }

  /** What the acting node holds after the step it held before, wrote as leader, or lost to a heartbeat. */
  lemma AloneNode(cfg: Config, s: State, a: Action)
    requires Enabled(cfg, s, a) && AloneInv(s)
    requires a.TakeAppend? && !a.append.heartbeat ==> Mismatch(s.nodes[a.append.to].log, a.append.body)
    requires a.TakeAppend? ==> AppendMsgInv(s, a.append)
    ensures var n := s.nodes[Actor(a)]; var n' := NodeAfter(cfg, s, a);
            && n'.commit == 0
            && (n'.log == n.log || n'.log == [] || (a.ClientAppend? && n'.log == n.log + [Entry(n.term, a.command)]))
  {
    hide MedianMatch, Won, Authored;
  }

  lemma AloneHeld(cfg: Config, s: State, a: Action)
    requires Enabled(cfg, s, a) && WinnersInv(s)
    requires Authored(s.hist, Actor(a), s.nodes[Actor(a)].log)
    requires var n := s.nodes[Actor(a)]; var n' := NodeAfter(cfg, s, a);
             n'.log == n.log || n'.log == [] || (a.ClientAppend? && n'.log == n.log + [Entry(n.term, a.command)])
    ensures Authored(Do(cfg, s, a).hist, Actor(a), NodeAfter(cfg, s, a).log)
  {
    var n := s.nodes[Actor(a)];
    assert a.ClientAppend? ==> Won(s.hist, n.term, Actor(a));
    FrameHolds(cfg, s, a);
    hide NodeAfter, Won;
    assert Authored(s.hist, Actor(a), NodeAfter(cfg, s, a).log);
    AuthoredLasts(s.hist, Do(cfg, s, a).hist, Actor(a), NodeAfter(cfg, s, a).log);
  }

  lemma AloneAnswer(cfg: Config, s: State, a: Action, v: AppendAns)
    requires Enabled(cfg, s, a) && AloneInv(s) && v in Do(cfg, s, a).appendAnswers && v.body.reason.Appended?
    requires a.TakeAppend? && !a.append.heartbeat ==> Mismatch(s.nodes[a.append.to].log, a.append.body)
    ensures v.msg.heartbeat
  {
    hide NodeAfter;
  }

  lemma AloneParts(s: State)
    requires forall i | i in s.nodes :: s.nodes[i].commit == 0
    requires forall h | h in s.hist.held :: Authored(s.hist, h.node, h.log)
    requires forall v | v in s.appendAnswers && v.body.reason.Appended? :: v.msg.heartbeat
    ensures AloneInv(s)
  {
  }

  lemma AloneHeldStep(s: State, s': State, i: NodeId)
    requires Frame(s, s', i) && AloneInv(s) && Authored(s'.hist, i, s'.nodes[i].log)
    ensures forall h | h in s'.hist.held :: Authored(s'.hist, h.node, h.log)
  {
    hide Authored;
    forall h | h in s'.hist.held ensures Authored(s'.hist, h.node, h.log) {
      if h in s.hist.held { AuthoredLasts(s.hist, s'.hist, h.node, h.log); }
    }
  }

  lemma AloneStep(cfg: Config, s: State, a: Action)
    requires Basic(cfg, s) && WinnersInv(s) && Enabled(cfg, s, a) && AloneInv(s)
    ensures AloneInv(Do(cfg, s, a))
  {
    hide Basic, WinnersInv, Authored, NodeAfter, Mismatch, AppendMsgInv, AloneInv, VoteMsgsAfter, AppendMsgsAfter,
      AppendAnswersAfter, VoteAnswersAfter, SupportsAfter, GrantsAfter, CountedAfter, ElectionsAfter, LeaderLogAfter;
    var s' := Do(cfg, s, a);
    HeldNow(cfg, s, Actor(a));
    FrameHolds(cfg, s, a);
    if a.TakeAppend? { Refused(cfg, s, a.append); }
    hide Enabled;
    AloneNode(cfg, s, a);
    HeldAuthored(s, Held(Actor(a), s.nodes[Actor(a)].term, s.nodes[Actor(a)].log));
    AloneHeld(cfg, s, a);
    AloneHeldStep(s, s', Actor(a));
    AloneCommits(s, s', Actor(a));
    forall v | v in s'.appendAnswers && v.body.reason.Appended? ensures v.msg.heartbeat { AloneAnswer(cfg, s, a, v); }
    AloneParts(s');
  }

  lemma AloneCommits(s: State, s': State, i: NodeId)
    requires Frame(s, s', i) && AloneInv(s) && s'.nodes[i].commit == 0
    ensures forall j | j in s'.nodes :: s'.nodes[j].commit == 0
  {
    hide Authored;
  }

  lemma {:induction false} AloneHolds(cfg: Config, r: Run, k: nat)
    requires ValidRun(cfg, r) && NoLateFalls(cfg, r) && k < |r.states| && r.states[0].hist.base == []
    ensures AloneInv(r.states[k])
  {
    hide Do, Enabled, NoLateFalls, AloneInv, Basic, WinnersInv;
    if k == 0 {
      AloneInit(cfg, r.states[0]);
    } else {
      AloneHolds(cfg, r, k - 1);
      BasicHolds(cfg, r, k - 1);
      WinnersHold(cfg, r, k - 1);
      assert StepAt(cfg, r, k - 1);
      AloneStep(cfg, r.states[k - 1], r.acts[k - 1]);
    }
  }

  lemma AloneInit(cfg: Config, s: State)
    requires Init(cfg, s) && s.hist.base == []
    ensures AloneInv(s)
  {
    forall i | i in s.nodes ensures s.nodes[i].commit == 0 { assert FreshNode(s.nodes[i], s.hist.base); }
    forall h | h in s.hist.held ensures Authored(s.hist, h.node, h.log) { assert |h.log| == 0; }
  }

  /** From empty logs, with any next index a request can be composed from, no replication request is ever accepted,
      every entry stays with the node that won its term, and every commit index stays zero. */
  lemma NothingReplicates(cfg: Config, r: Run, k: nat, n: NodeId)
    requires ValidRun(cfg, r) && NoLateFalls(cfg, r) && k < |r.states| && n in r.states[k].nodes
        && r.states[0].hist.base == []
    ensures r.states[k].nodes[n].commit == 0
    ensures forall v | v in r.states[k].appendAnswers && v.body.reason.Appended? :: v.msg.heartbeat
    ensures forall x | 0 <= x < |r.states[k].nodes[n].log| :: Won(r.states[k].hist, r.states[k].nodes[n].log[x].term, n)
  {
    hide Init, StepAt, NoLateFalls, VoteMsgInv, VoteAnsInv, AppendMsgInv, AppendAnsInv, Won;
    AloneHolds(cfg, r, k);
    BasicHolds(cfg, r, k);
    HeldNow(cfg, r.states[k], n);
    HeldAuthored(r.states[k], Held(n, r.states[k].nodes[n].term, r.states[k].nodes[n].log));
  }
}
