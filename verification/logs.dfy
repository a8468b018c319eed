/** Logs: every log is traced to the leaders that wrote it, which gives Log Matching, ordered terms and append-only
    leaders. */
module Logs {
  import opened Types
  import opened NodeSteps
  import opened Cluster
  import opened AnyRun
  import opened Votes
  import opened Elections

  // ----- Tracing a log to the leaders' logs

  /** Up to its entry at `i`, the log agrees with that of the leader of the entry's term. */
  ghost predicate TracedAt(leaderLog: map<nat, Log>, log: Log, i: nat)
    requires i < |log|
  {
    var t := log[i].term;
    t in leaderLog && i < |leaderLog[t]| && log[..i + 1] == leaderLog[t][..i + 1]
  }

  ghost predicate Traced(leaderLog: map<nat, Log>, log: Log) {
    forall i | 0 <= i < |log| :: TracedAt(leaderLog, log, i)
  }

  /** A log that a node in `term` may hold. */
  ghost predicate Good(leaderLog: map<nat, Log>, log: Log, term: nat) {
    Ordered(log) && LastTerm(log) <= term && Traced(leaderLog, log)
  }

  lemma TracedMatch(leaderLog: map<nat, Log>, a: Log, b: Log)
    requires Traced(leaderLog, a) && Traced(leaderLog, b)
    ensures Matching(a, b)
  {
    forall i | 0 <= i < |a| && i < |b| && a[i].term == b[i].term ensures a[..i + 1] == b[..i + 1] {
      assert TracedAt(leaderLog, a, i) && TracedAt(leaderLog, b, i);
    }
  }

  /** Leaders' logs only grow. */
  ghost predicate Grows(l: map<nat, Log>, l': map<nat, Log>) {
    forall t | t in l :: t in l' && l[t] <= l'[t]
  }

  lemma GoodGrows(l: map<nat, Log>, l': map<nat, Log>, log: Log, term: nat, term': nat)
    requires Good(l, log, term) && Grows(l, l') && term <= term'
    ensures Good(l', log, term')
  {
    forall i | 0 <= i < |log| ensures TracedAt(l', log, i) {
      assert TracedAt(l, log, i);
    }
  }

  lemma LastBounds(log: Log, i: nat)
    requires Ordered(log) && i < |log|
    ensures log[i].term <= LastTerm(log)
  {
  }

  lemma GoodAppend(l: map<nat, Log>, log: Log, term: nat, e: Entry)
    requires term > 0 && e.term == term && term in l && l[term] == log && Good(l, log, term)
    ensures var l' := l[term := log + [e]]; Grows(l, l') && Good(l', log + [e], term)
  {
    var l' := l[term := log + [e]];
    assert log <= log + [e];
    GoodGrows(l, l', log, term, term);
    forall i | 0 <= i < |log| + 1 ensures TracedAt(l', log + [e], i) {
      if i < |log| {
        assert TracedAt(l', log, i);
        assert (log + [e])[..i + 1] == log[..i + 1];
      }
    }
    forall i | 0 <= i < |log| ensures log[i].term <= term { LastBounds(log, i); }
  }

  lemma BaseTerms(log: Log)
    requires Ordered(log)
    ensures forall t | t in TermsOf(log) :: t <= LastTerm(log)
  {
    forall i | 0 <= i < |log| ensures log[i].term <= LastTerm(log) { LastBounds(log, i); }
  }

  // ----- What an accepted append leaves behind

  /** An accepted replication request leaves the follower with the sender's log, however late it arrives;
      an accepted heartbeat leaves it with nothing. */
  lemma AcceptedLog(l: map<nat, Log>, log: Log, m: AppendMsg)
    requires Traced(l, log) && Traced(l, m.snapshot) && !Mismatch(log, m.body)
    requires if m.heartbeat then m.body.prevIndex == 0 && m.body.entries == []
             else && 1 <= m.body.prevIndex <= |m.snapshot|
                  && m.body.prevTerm == m.snapshot[m.body.prevIndex - 1].term
                  && m.body.entries == m.snapshot[m.body.prevIndex..]
    ensures RemoveAfter(log, m.body.prevIndex) + m.body.entries == if m.heartbeat then [] else m.snapshot
  {
    if !m.heartbeat {
      TracedMatch(l, log, m.snapshot);
      var p := m.body.prevIndex;
      assert log[p - 1].term == m.snapshot[p - 1].term;
      assert log[..p] == m.snapshot[..p];
      assert m.snapshot == m.snapshot[..p] + m.snapshot[p..];
    }
  }

  // ----- The invariant

  ghost predicate Elected(h: History, term: nat) {
    exists e :: e in h.elections && e.term == term
  }

  /** The winner's log is older than its term and a prefix of what it leads the term with. */
  ghost predicate WinLogInv(s: State, e: Election) {
    var l := s.hist.leaderLog;
    e.term > LastTerm(s.hist.base) && e.term in l && e.log <= l[e.term] && LastTerm(e.log) < e.term
  }

  ghost predicate NodeLogInv(s: State, i: NodeId)
    requires i in s.nodes
  {
    var n := s.nodes[i];
    && n.term >= LastTerm(s.hist.base)
    && (LiveBallot(n) ==> n.term > LastTerm(s.hist.base))
    && (n.role.Leader? ==> n.term > 0 && n.term in s.hist.leaderLog && n.log == s.hist.leaderLog[n.term])
  }

  /** The last term a leader's log of term `t` may reach; terms up to the last of the initial log were led with it. */
  function Bound(base: Log, t: nat): nat {
    if t < LastTerm(base) then LastTerm(base) else t
  }

  ghost predicate LogInv(s: State) {
    var l := s.hist.leaderLog;
    && Ordered(s.hist.base)
    && (forall i | i in s.nodes :: NodeLogInv(s, i))
    && (forall t | t in l :: Good(l, l[t], Bound(s.hist.base, t)) && (t in TermsOf(s.hist.base) || Elected(s.hist, t)))
    && (forall e | e in s.hist.elections :: WinLogInv(s, e))
    && (forall h | h in s.hist.held :: Good(l, h.log, h.term))
  }

  // ----- What a step does to the acting node's log

  lemma LogCases(cfg: Config, s: State, a: Action)
    requires Enabled(cfg, s, a)
    ensures var n := s.nodes[Actor(a)]; var n' := NodeAfter(cfg, s, a);
            if a.ClientAppend? then
              n.role.Leader? && n'.log == n.log + [Entry(n.term, a.command)] && n'.term == n.term
            else if a.TakeAppend? && n.term <= a.append.body.term && !Mismatch(n.log, a.append.body) then
              && n'.log == RemoveAfter(n.log, a.append.body.prevIndex) + a.append.body.entries
              && n'.term == a.append.body.term
            else n'.log == n.log
  {
  }

  lemma LiveTerm(cfg: Config, s: State, a: Action)
    requires Enabled(cfg, s, a) && LiveBallot(NodeAfter(cfg, s, a))
    ensures var n := s.nodes[Actor(a)]; var n' := NodeAfter(cfg, s, a);
            n'.term == n.term + 1 || (LiveBallot(n) && n'.term == n.term)
  {
  }

  // ----- Preservation

  /** A leader's log is new in its term, or grows by one entry; no other step touches the leaders' logs. */
  lemma LeaderLogStep(cfg: Config, s: State, a: Action)
    requires Enabled(cfg, s, a) && LogInv(s) && s.nodes[Actor(a)].term <= NodeAfter(cfg, s, a).term
    requires Held(Actor(a), s.nodes[Actor(a)].term, s.nodes[Actor(a)].log) in s.hist.held
    requires a.Win? ==> !Elected(s.hist, s.nodes[a.n].term)
    ensures var (l, l') := (s.hist.leaderLog, LeaderLogAfter(cfg, s, a));
            && Grows(l, l')
            && (forall t | t in l' && t !in l :: a.Win? && t == s.nodes[a.n].term)
            && (forall t | t in l' :: Good(l', l'[t], Bound(s.hist.base, t)))
            && (a.Win? ==> s.nodes[a.n].term !in l && LastTerm(s.nodes[a.n].log) < s.nodes[a.n].term)
  {
    var n := s.nodes[Actor(a)];
    var (l, l') := (s.hist.leaderLog, LeaderLogAfter(cfg, s, a));
    assert NodeLogInv(s, Actor(a)) && Good(l, n.log, n.term);
    hide NodeAfter, NodeLogInv, WinLogInv, Good, Grows;
    if a.ClientAppend? {
      LeaderFacts(s, a.n);
      GoodAppend(l, n.log, n.term, Entry(n.term, a.command));
    } else if a.Win? {
      NewTerm(s, a.n);
      GrowsByNew(l, n.term, n.log);
    } else {
      GrowsSame(l);
    }
    forall t | t in l' ensures Good(l', l'[t], Bound(s.hist.base, t)) {
      if t in l && l'[t] == l[t] { GoodGrows(l, l', l[t], Bound(s.hist.base, t), Bound(s.hist.base, t)); }
      else if a.Win? { GoodGrows(l, l', n.log, n.term, n.term); }
    }
  }

  lemma LeaderFacts(s: State, i: NodeId)
    requires i in s.nodes && NodeLogInv(s, i) && s.nodes[i].role.Leader?
    ensures var n := s.nodes[i]; n.term > 0 && n.term in s.hist.leaderLog && n.log == s.hist.leaderLog[n.term]
  {
  }

  lemma GrowsSame(l: map<nat, Log>)
    ensures Grows(l, l)
  {
  }

  lemma GrowsByNew(l: map<nat, Log>, t: nat, log: Log)
    requires t !in l
    ensures Grows(l, l[t := log])
  {
  }

  /** A term about to be won for the first time has no entries anywhere yet. */
  lemma NewTerm(s: State, i: NodeId)
    requires LogInv(s) && i in s.nodes && LiveBallot(s.nodes[i]) && !Elected(s.hist, s.nodes[i].term)
    requires Good(s.hist.leaderLog, s.nodes[i].log, s.nodes[i].term)
    ensures s.nodes[i].term !in s.hist.leaderLog && LastTerm(s.nodes[i].log) < s.nodes[i].term
  {
    var n := s.nodes[i];
    assert NodeLogInv(s, i);
    BaseTerms(s.hist.base);
    if n.log != [] { assert TracedAt(s.hist.leaderLog, n.log, |n.log| - 1); }
  }

  lemma AcceptedGood(l: map<nat, Log>, l': map<nat, Log>, log: Log, s: State, m: AppendMsg)
    requires AppendMsgInv(s, m) && Traced(l, log) && Good(l, m.snapshot, m.body.term) && Grows(l, l')
    requires !Mismatch(log, m.body)
    ensures Good(l', RemoveAfter(log, m.body.prevIndex) + m.body.entries, m.body.term)
  {
    AcceptedLog(l, log, m);
    hide Grows;
    if !m.heartbeat { GoodGrows(l, l', m.snapshot, m.body.term, m.body.term); }
  }

  lemma NewHeld(cfg: Config, s: State, a: Action)
    requires Basic(cfg, s) && Enabled(cfg, s, a) && LogInv(s) && s.nodes[Actor(a)].term <= NodeAfter(cfg, s, a).term
    requires Grows(s.hist.leaderLog, LeaderLogAfter(cfg, s, a))
    requires forall t | t in LeaderLogAfter(cfg, s, a) ::
        Good(LeaderLogAfter(cfg, s, a), LeaderLogAfter(cfg, s, a)[t], Bound(s.hist.base, t))
    ensures Good(LeaderLogAfter(cfg, s, a), NodeAfter(cfg, s, a).log, NodeAfter(cfg, s, a).term)
  {
    var n := s.nodes[Actor(a)];
    var (l, l') := (s.hist.leaderLog, LeaderLogAfter(cfg, s, a));
    LogCases(cfg, s, a);
    hide NodeAfter, Good, Grows, NodeLogInv, WinLogInv, NodeInv, VoteMsgInv, VoteAnsInv, AppendAnsInv, AppendMsgInv,
      Mismatch;
    assert Good(l, n.log, n.term) by { ActorInv(cfg, s, a); OwnHeld(cfg, s, a); }
    if a.ClientAppend? {
      assert n.term in l';
    } else if a.TakeAppend? && n.term <= a.append.body.term && !Mismatch(n.log, a.append.body) {
      assert Good(l, a.append.snapshot, a.append.body.term) by { SentHeld(s, a.append); }
      AcceptedGood(l, l', n.log, s, a.append) by { GoodTraced(l, n.log, n.term); }
    } else {
      GoodGrows(l, l', n.log, n.term, NodeAfter(cfg, s, a).term);
    }
  }

  lemma GoodTraced(l: map<nat, Log>, log: Log, term: nat)
    requires Good(l, log, term)
    ensures Traced(l, log)
  {
  }

  lemma OwnHeld(cfg: Config, s: State, a: Action)
    requires Enabled(cfg, s, a) && NodeInv(cfg, s, Actor(a))
    ensures Held(Actor(a), s.nodes[Actor(a)].term, s.nodes[Actor(a)].log) in s.hist.held
  {
  }

  lemma SentHeld(s: State, m: AppendMsg)
    requires AppendMsgInv(s, m)
    ensures Held(m.body.leader, m.body.term, m.snapshot) in s.hist.held
  {
  }

  /** Two leaders of one term are one node. */
  lemma OneLeader(cfg: Config, s: State, i: NodeId, j: NodeId)
    requires ElectInv(cfg, s) && i in s.nodes && j in s.nodes
    requires s.nodes[i].role.Leader? && s.nodes[j].role.Leader? && s.nodes[i].term == s.nodes[j].term
    ensures i == j
  {
    var e :| e in s.hist.elections && e.term == s.nodes[i].term && e.leader == i;
    var f :| f in s.hist.elections && f.term == s.nodes[j].term && f.leader == j;
  }

  lemma OtherLeaderLog(cfg: Config, s: State, a: Action, j: NodeId)
    requires Enabled(cfg, s, a) && ElectInv(cfg, s) && j in s.nodes && j != Actor(a) && NodeLogInv(s, j)
    requires a.Win? ==> s.nodes[a.n].term !in s.hist.leaderLog
    ensures NodeLogInv(Do(cfg, s, a), j)
  {
    hide NodeAfter, ElectInv, SupportsAfter, GrantsAfter, CountedAfter, VoteMsgsAfter, VoteAnswersAfter,
      AppendMsgsAfter, AppendAnswersAfter;
    FrameHolds(cfg, s, a);
    if a.ClientAppend? && s.nodes[j].role.Leader? && s.nodes[j].term == s.nodes[a.n].term { OneLeader(cfg, s, a.n, j); }
  }

  lemma OwnLeaderLog(cfg: Config, s: State, a: Action)
    requires Enabled(cfg, s, a) && NodeLogInv(s, Actor(a)) && s.nodes[Actor(a)].term <= NodeAfter(cfg, s, a).term
    ensures NodeLogInv(Do(cfg, s, a), Actor(a))
  {
    var n' := NodeAfter(cfg, s, a);
    if LiveBallot(n') { LiveTerm(cfg, s, a); }
    if n'.role.Leader? {
      LeaderCases(cfg, s, a);
      LeaderKeepsLog(cfg, s, a);
    }
    hide NodeAfter;
  }

  /** A node that is leader after a step did not take an append in it. */
  lemma LeaderKeepsLog(cfg: Config, s: State, a: Action)
    requires Enabled(cfg, s, a) && NodeAfter(cfg, s, a).role.Leader?
    ensures a.ClientAppend? || NodeAfter(cfg, s, a).log == s.nodes[Actor(a)].log
    ensures a.ClientAppend? ==>
        NodeAfter(cfg, s, a).log == s.nodes[Actor(a)].log + [Entry(s.nodes[Actor(a)].term, a.command)]
  {
  }

  lemma WinLogStep(cfg: Config, s: State, a: Action, e: Election)
    requires Enabled(cfg, s, a) && LogInv(s) && e in Do(cfg, s, a).hist.elections
    requires Grows(s.hist.leaderLog, LeaderLogAfter(cfg, s, a))
    requires a.Win? ==> s.nodes[a.n].term !in s.hist.leaderLog && LastTerm(s.nodes[a.n].log) < s.nodes[a.n].term
    ensures WinLogInv(Do(cfg, s, a), e)
  {
    hide NodeAfter, Good;
    if e in s.hist.elections {
      assert WinLogInv(s, e);
    } else {
      assert NodeLogInv(s, a.n);
    }
  }

  lemma ElectedGrows(h: History, h': History, t: nat)
    requires Elected(h, t) && h.elections <= h'.elections
    ensures Elected(h', t)
  {
    var e :| e in h.elections && e.term == t;
    assert e in h'.elections;
  }

  lemma LeadersKeep(cfg: Config, s: State, a: Action)
    requires Basic(cfg, s) && Enabled(cfg, s, a) && VoteInv(s) && ElectInv(cfg, s) && LogInv(s)
    requires s.nodes[Actor(a)].term <= NodeAfter(cfg, s, a).term
    ensures var (l, l') := (s.hist.leaderLog, LeaderLogAfter(cfg, s, a));
            && Grows(l, l')
            && (forall t | t in l' && t !in l :: a.Win? && t == s.nodes[a.n].term)
            && (forall t | t in l' :: Good(l', l'[t], Bound(s.hist.base, t)))
            && (a.Win? ==> s.nodes[a.n].term !in l && LastTerm(s.nodes[a.n].log) < s.nodes[a.n].term)
  {
    hide NodeAfter, Basic, VoteInv, ElectInv, LogInv, NodeInv, LeaderLogAfter, Grows, Good;
    ActorInv(cfg, s, a);
    OwnHeld(cfg, s, a);
    if a.Win? { WinStep(cfg, s, a); }
    LeaderLogStep(cfg, s, a);
  }

  lemma ElectedStep(cfg: Config, s: State, a: Action, t: nat)
    requires Enabled(cfg, s, a) && LogInv(s) && t in Do(cfg, s, a).hist.leaderLog
    requires t in s.hist.leaderLog || (a.Win? && t == s.nodes[a.n].term)
    ensures t in TermsOf(s.hist.base) || Elected(Do(cfg, s, a).hist, t)
  {
    hide NodeAfter, Good, NodeLogInv, WinLogInv;
    if t in s.hist.leaderLog {
      if Elected(s.hist, t) { ElectedGrows(s.hist, Do(cfg, s, a).hist, t); }
    } else {
      assert ElectionOf(s, a.n) in Do(cfg, s, a).hist.elections;
    }
  }

  lemma NodeLogStep(cfg: Config, s: State, a: Action, j: NodeId)
    requires Enabled(cfg, s, a) && ElectInv(cfg, s) && LogInv(s) && s.nodes[Actor(a)].term <= NodeAfter(cfg, s, a).term
    requires a.Win? ==> s.nodes[a.n].term !in s.hist.leaderLog
    requires j in s.nodes
    ensures NodeLogInv(Do(cfg, s, a), j)
  {
    assert NodeLogInv(s, j);
    hide NodeAfter, ElectInv, LogInv, NodeLogInv;
    if j == Actor(a) { OwnLeaderLog(cfg, s, a); } else { OtherLeaderLog(cfg, s, a, j); }
  }

  lemma HeldStep(cfg: Config, s: State, a: Action, h: Held)
    requires Basic(cfg, s) && Enabled(cfg, s, a) && LogInv(s) && s.nodes[Actor(a)].term <= NodeAfter(cfg, s, a).term
    requires Grows(s.hist.leaderLog, LeaderLogAfter(cfg, s, a))
    requires forall t | t in LeaderLogAfter(cfg, s, a) ::
        Good(LeaderLogAfter(cfg, s, a), LeaderLogAfter(cfg, s, a)[t], Bound(s.hist.base, t))
    requires h in Do(cfg, s, a).hist.held
    ensures Good(LeaderLogAfter(cfg, s, a), h.log, h.term)
  {
    hide NodeAfter, Basic, NodeLogInv, WinLogInv, Good, Grows, LeaderLogAfter;
    if h in s.hist.held {
      GoodGrows(s.hist.leaderLog, LeaderLogAfter(cfg, s, a), h.log, h.term, h.term);
    } else {
      NewHeld(cfg, s, a);
    }
  }

  lemma LogStep(cfg: Config, s: State, a: Action)
    requires Basic(cfg, s) && Enabled(cfg, s, a) && VoteInv(s) && ElectInv(cfg, s) && LogInv(s)
        && TermsRise(s, Do(cfg, s, a))
    ensures LogInv(Do(cfg, s, a)) && Grows(s.hist.leaderLog, Do(cfg, s, a).hist.leaderLog)
  {
    var s' := Do(cfg, s, a);
    assert s.nodes[Actor(a)].term <= s'.nodes[Actor(a)].term;
    hide NodeAfter, Basic, VoteInv, ElectInv, LogInv, TermsRise, Good, Grows, NodeLogInv, WinLogInv, LeaderLogAfter,
      Elected,
      Ordered, SupportsAfter, GrantsAfter, CountedAfter, ElectionsAfter, Enabled;
    assert Ordered(s'.hist.base) by { LogInvBase(s); }
    LeadersKeep(cfg, s, a);
    forall t | t in s'.hist.leaderLog ensures Good(s'.hist.leaderLog, s'.hist.leaderLog[t], Bound(s'.hist.base, t)) {}
    forall t | t in s'.hist.leaderLog
      ensures t in TermsOf(s'.hist.base) || Elected(s'.hist, t) { ElectedStep(cfg, s, a, t); }
    forall j | j in s'.nodes ensures NodeLogInv(s', j) { NodeLogStep(cfg, s, a, j); }
    forall e | e in s'.hist.elections ensures WinLogInv(s', e) { WinLogStep(cfg, s, a, e); }
    forall h | h in s'.hist.held ensures Good(s'.hist.leaderLog, h.log, h.term) { HeldStep(cfg, s, a, h); }
    LogInvOf(s');
  }

  lemma LogInvBase(s: State)
    requires LogInv(s)
    ensures Ordered(s.hist.base)
  {
  }

  lemma LogInvOf(s: State)
    requires Ordered(s.hist.base)
    requires forall i | i in s.nodes :: NodeLogInv(s, i)
    requires forall t | t in s.hist.leaderLog :: Good(s.hist.leaderLog, s.hist.leaderLog[t], Bound(s.hist.base, t))
    requires forall t | t in s.hist.leaderLog :: t in TermsOf(s.hist.base) || Elected(s.hist, t)
    requires forall e | e in s.hist.elections :: WinLogInv(s, e)
    requires forall h | h in s.hist.held :: Good(s.hist.leaderLog, h.log, h.term)
    ensures LogInv(s)
  {
  }

  lemma LogInit(cfg: Config, s: State)
    requires Init(cfg, s)
    ensures LogInv(s)
  {
    var l := s.hist.leaderLog;
    var base := s.hist.base;
    forall i | 0 <= i < |base| ensures TracedAt(l, base, i) {}
    forall i | i in s.nodes ensures NodeLogInv(s, i) { assert FreshNode(s.nodes[i], base); }
    BaseTerms(base);
  }
}
