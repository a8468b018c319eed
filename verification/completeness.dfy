/** Leader Completeness, for runs in which accepted appends keep what the leader has. */
module Completeness {
  import opened Types
  import opened Quorum
  import opened NodeSteps
  import opened Cluster
  import opened AnyRun
  import opened Votes
  import opened Elections
  import opened Logs

  /** `p` ends with an entry of the term in which `h` held it. */
  ghost predicate Marks(h: Held, p: Log) {
    p != [] && p <= h.log && LastTerm(p) == h.term
  }

  /** Everyone elected after `t` and before `upto` had `p`. */
  ghost predicate Complete(h: History, t: nat, p: Log, upto: nat) {
    forall e | e in h.elections && t < e.term < upto :: p <= e.log
  }

  /** The grant can still elect, or has elected, its candidate's term. */
  ghost predicate Useful(h: History, g: Grant) {
    forall e | e in h.elections && e.term == g.msg.body.term :: g.msg.to in e.votes
  }

  /** What a node held in `h.term` it still holds, if every leader since had it. */
  ghost predicate KeptNow(s: State, h: Held, p: Log) {
    && h.node in s.nodes
    && h.term <= s.nodes[h.node].term
    && (Complete(s.hist, h.term, p, s.nodes[h.node].term + 1) ==> p <= s.nodes[h.node].log)
  }

  /** What a node held in `h.term` it still held when it granted a later vote. */
  ghost predicate KeptAtGrant(s: State, h: Held, g: Grant, p: Log) {
    h.node == g.msg.to && h.term < g.msg.body.term && Complete(s.hist, h.term, p, g.msg.body.term) && Useful(s.hist, g)
    ==> p <= g.voterLog
  }

  /** One of the nodes `who` held `p`, in the term that `p` ends in. */
  ghost predicate Carried(who: set<NodeId>, h: Held, p: Log) {
    h.node in who && Marks(h, p)
  }

  ghost predicate CompleteInv(s: State, who: set<NodeId>, p: Log) {
    && (forall h | h in s.hist.held && Carried(who, h, p) :: KeptNow(s, h, p))
    && (forall h, g | h in s.hist.held && g in s.hist.grants && Carried(who, h, p) :: KeptAtGrant(s, h, g, p))
  }

  // ----- The hypothesis on one step

  /** An append accepted in the step does not take `p` from a node in `who` if the leader led its term with it. */
  ghost predicate KeepsLed(cfg: Config, s: State, a: Action, who: set<NodeId>, p: Log)
    requires Enabled(cfg, s, a)
  {
    && a.TakeAppend? && a.append.to in who && s.nodes[a.append.to].term <= a.append.body.term
    && a.append.body.term in s.hist.leaderLog
    && p <= s.nodes[a.append.to].log && p <= s.hist.leaderLog[a.append.body.term]
    ==> p <= NodeAfter(cfg, s, a).log
  }

  // ----- Preservation

  lemma CompleteShrinks(h: History, h': History, t: nat, p: Log, upto: nat, upto': nat)
    requires Complete(h', t, p, upto') && h.elections <= h'.elections && upto <= upto'
    ensures Complete(h, t, p, upto)
  {
  }

  /** The prefix `p` is in the log that the sender of an append led its term with. */
  lemma LedWith(s: State, h: Held, p: Log, m: AppendMsg)
    requires LogInv(s) && h in s.hist.held && Marks(h, p) && Won(s.hist, m.body.term, m.body.leader)
    requires h.term <= m.body.term && Complete(s.hist, h.term, p, m.body.term + 1)
    ensures m.body.term in s.hist.leaderLog && p <= s.hist.leaderLog[m.body.term]
  {
    var e :| e in s.hist.elections && e.term == m.body.term && e.leader == m.body.leader;
    assert WinLogInv(s, e);
    if h.term == m.body.term {
      assert Good(s.hist.leaderLog, h.log, h.term);
      assert TracedAt(s.hist.leaderLog, h.log, |p| - 1);
      assert p == h.log[..|p|];
    }
  }

  /** If the acting node keeps `p` in the step, what was true of the past stays true. */
  lemma KeptNowKeep(s: State, s': State, i: NodeId, h: Held, p: Log)
    requires Frame(s, s', i) && s.nodes[i].term <= s'.nodes[i].term && KeptNow(s, h, p)
    requires h.node == i && p <= s.nodes[i].log && Complete(s.hist, h.term, p, s'.nodes[i].term + 1) ==>
        p <= s'.nodes[i].log
    ensures KeptNow(s', h, p)
  {
    var (t, t') := (s.nodes[h.node].term, s'.nodes[h.node].term);
    if Complete(s'.hist, h.term, p, t' + 1) {
      CompleteShrinks(s.hist, s'.hist, h.term, p, t + 1, t' + 1);
      CompleteShrinks(s.hist, s'.hist, h.term, p, t' + 1, t' + 1);
    }
  }

  lemma OwnLogKeeps(cfg: Config, s: State, a: Action, who: set<NodeId>, h: Held, p: Log)
    requires Enabled(cfg, s, a) && LogInv(s) && KeepsLed(cfg, s, a, who, p)
    requires a.TakeAppend? ==> Won(s.hist, a.append.body.term, a.append.body.leader)
    requires h in s.hist.held && Carried(who, h, p) && h.node == Actor(a) && KeptNow(s, h, p)
    requires p <= s.nodes[Actor(a)].log && Complete(s.hist, h.term, p, NodeAfter(cfg, s, a).term + 1)
    ensures p <= NodeAfter(cfg, s, a).log
  {
    var n := s.nodes[Actor(a)];
    var n' := NodeAfter(cfg, s, a);
    LogCases(cfg, s, a);
    hide NodeAfter, LogInv, Mismatch, Marks, Won;
    if a.ClientAppend? {
      assert n.log <= n'.log;
    } else if a.TakeAppend? && n.term <= a.append.body.term && n'.log != n.log {
      LedWith(s, h, p, a.append);
    }
  }

  lemma KeptNowStep(cfg: Config, s: State, a: Action, who: set<NodeId>, h: Held, p: Log)
    requires Enabled(cfg, s, a) && LogInv(s) && KeepsLed(cfg, s, a, who, p)
    requires a.TakeAppend? ==> Won(s.hist, a.append.body.term, a.append.body.leader)
    requires s.nodes[Actor(a)].term <= NodeAfter(cfg, s, a).term
    requires h in Do(cfg, s, a).hist.held && Carried(who, h, p) && (h in s.hist.held ==> KeptNow(s, h, p))
    ensures KeptNow(Do(cfg, s, a), h, p)
  {
    var i := Actor(a);
    FrameHolds(cfg, s, a);
    if h in s.hist.held {
      hide NodeAfter, LogInv, KeepsLed, Carried, Frame, Complete, KeptNow, Won;
      if h.node == i && p <= s.nodes[i].log && Complete(s.hist, h.term, p, NodeAfter(cfg, s, a).term + 1) {
        OwnLogKeeps(cfg, s, a, who, h, p);
      }
      KeptNowKeep(s, Do(cfg, s, a), i, h, p);
    } else {
      hide NodeAfter, LogInv, KeepsLed;
    }
  }

  /** Whoever has not voted in a term did not elect its leader. */
  lemma NotAnElector(cfg: Config, s: State, a: Action)
    requires Enabled(cfg, s, a) && VoteInv(s) && Casts(cfg, s, a)
    requires forall e | e in s.hist.elections :: ElectionInv(cfg, s, e)
    ensures forall e | e in s.hist.elections && e.term == Cast(cfg, s, a).term :: Actor(a) !in e.votes
  {
    hide NodeAfter, Casts, Cast;
    forall e | e in s.hist.elections && e.term == Cast(cfg, s, a).term ensures Actor(a) !in e.votes {
      assert ElectionInv(cfg, s, e);
      forall v | v in e.votes
        ensures Support(v, e.term, e.leader) in s.hist.supports { assert GrantInv(s, e.votes[v]); }
      var x := Support(Actor(a), e.term, e.leader);
      if x in s.hist.supports { CastIsFirst(cfg, s, a, x); }
    }
  }

  lemma CompleteUpTo(h: History, t: nat, p: Log, upto: nat, now: nat)
    requires Complete(h, t, p, upto) && now <= upto && forall e | e in h.elections :: e.term != upto
    ensures Complete(h, t, p, now + 1)
  {
  }

  /** A grant that can still elect is cast in a term without an elected leader. */
  lemma UnledTerm(cfg: Config, s: State, a: Action)
    requires Enabled(cfg, s, a) && VoteInv(s) && Casts(cfg, s, a) && Useful(s.hist, CastGrant(cfg, s, a))
    requires forall e | e in s.hist.elections :: ElectionInv(cfg, s, e)
    ensures forall e | e in s.hist.elections :: e.term != Cast(cfg, s, a).term
  {
    CastEffect(cfg, s, a);
    hide NodeAfter, VoteInv, ElectionInv, CastGrant, Cast, Casts;
    NotAnElector(cfg, s, a);
  }

  lemma NewGrantKept(cfg: Config, s: State, a: Action, h: Held, p: Log)
    requires Enabled(cfg, s, a) && VoteInv(s) && ElectInv(cfg, s)
    requires Casts(cfg, s, a) && h in s.hist.held && Marks(h, p) && h.node == Actor(a) && KeptNow(s, h, p)
    requires h.term < Cast(cfg, s, a).term && Complete(s.hist, h.term, p, Cast(cfg, s, a).term)
    requires Useful(s.hist, CastGrant(cfg, s, a))
    ensures p <= CastGrant(cfg, s, a).voterLog
  {
    CastEffect(cfg, s, a);
    assert CastGrant(cfg, s, a).voterLog == s.nodes[Actor(a)].log;
    hide NodeAfter, VoteInv, Casts, Cast, CastGrant, Complete, Useful, Marks, BallotInv, ElectionInv, SupportsAfter,
      GrantsAfter, Enabled;
    UnledTerm(cfg, s, a);
    CompleteUpTo(s.hist, h.term, p, Cast(cfg, s, a).term, s.nodes[Actor(a)].term);
  }

  lemma KeptAtGrantStep(cfg: Config, s: State, a: Action, who: set<NodeId>, h: Held, g: Grant, p: Log)
    requires Enabled(cfg, s, a) && VoteInv(s) && VoteInv(Do(cfg, s, a)) && ElectInv(cfg, s) && CompleteInv(s, who, p)
    requires h in Do(cfg, s, a).hist.held && g in Do(cfg, s, a).hist.grants && Carried(who, h, p)
    ensures KeptAtGrant(Do(cfg, s, a), h, g, p)
  {
    hide NodeAfter, ElectInv;
    var s' := Do(cfg, s, a);
    assert GrantInv(s', g) && SupportInv(s', Support(g.msg.to, g.msg.body.term, g.msg.body.candidate));
    hide VoteInv;
    FrameHolds(cfg, s, a);
    CastEffect(cfg, s, a);
    if h.node == g.msg.to && h.term < g.msg.body.term && Complete(s'.hist, h.term, p, g.msg.body.term)
      && Useful(s'.hist, g) {
      CompleteShrinks(s.hist, s'.hist, h.term, p, g.msg.body.term, g.msg.body.term);
      assert h in s.hist.held;
      if g in s.hist.grants {
        assert KeptAtGrant(s, h, g, p);
      } else {
        CompleteInvAt(s, who, h, p);
        NewGrantKept(cfg, s, a, h, p);
      }
    }
  }

  lemma CompleteInvOf(s: State, who: set<NodeId>, p: Log)
    requires forall h | h in s.hist.held && Carried(who, h, p) :: KeptNow(s, h, p)
    requires forall h, g | h in s.hist.held && g in s.hist.grants && Carried(who, h, p) :: KeptAtGrant(s, h, g, p)
    ensures CompleteInv(s, who, p)
  {
  }

  lemma CompleteInvAt(s: State, who: set<NodeId>, h: Held, p: Log)
    requires CompleteInv(s, who, p) && h in s.hist.held && Carried(who, h, p)
    ensures KeptNow(s, h, p)
  {
  }

  lemma CompleteStep(cfg: Config, s: State, a: Action, who: set<NodeId>, p: Log)
    requires Enabled(cfg, s, a) && VoteInv(s) && VoteInv(Do(cfg, s, a)) && ElectInv(cfg, s) && LogInv(s)
    requires CompleteInv(s, who, p) && SenderInv(s) && TermsRise(s, Do(cfg, s, a)) && KeepsLed(cfg, s, a, who, p)
    ensures CompleteInv(Do(cfg, s, a), who, p)
  {
    var s' := Do(cfg, s, a);
    assert s.nodes[Actor(a)].term <= s'.nodes[Actor(a)].term;
    assert a.TakeAppend? ==> a.append in s.appendMsgs;
    hide NodeAfter, VoteInv, ElectInv, LogInv, CompleteInv, TermsRise, KeepsLed, SenderInv, KeptNow, KeptAtGrant,
      Carried, Enabled, Won, SupportsAfter, GrantsAfter, CountedAfter, ElectionsAfter, LeaderLogAfter, VoteMsgsAfter,
      VoteAnswersAfter, AppendAnswersAfter, AppendMsgsAfter;
    if a.TakeAppend? { SenderWon(s, a.append); }
    forall h | h in s'.hist.held && Carried(who, h, p) ensures KeptNow(s', h, p) {
      if h in s.hist.held { CompleteInvAt(s, who, h, p); }
      KeptNowStep(cfg, s, a, who, h, p);
    }
    forall h, g | h in s'.hist.held && g in s'.hist.grants && Carried(who, h, p) ensures KeptAtGrant(s', h, g, p) {
      KeptAtGrantStep(cfg, s, a, who, h, g, p);
    }
    CompleteInvOf(s', who, p);
  }

  lemma CompleteInit(cfg: Config, s: State, who: set<NodeId>, p: Log)
    requires Init(cfg, s)
    ensures CompleteInv(s, who, p)
  {
  }

  // ----- The theorem on one state

  /** Of two prefixes of an ordered log, the one that ends in the lower term is the shorter. */
  lemma LowerEnd(f: Log, m: Log, full: Log)
    requires f <= full && m <= full && Ordered(full) && m != [] && LastTerm(f) < LastTerm(m)
    ensures f <= m
  {
    assert m[|m| - 1] == full[|m| - 1];
    assert f != [] ==> f[|f| - 1] == full[|f| - 1];
  }

  /** A non-empty traced log is a prefix of the log of its last entry's leader. */
  lemma WholeTraced(l: map<nat, Log>, log: Log)
    requires Traced(l, log) && log != []
    ensures LastTerm(log) in l && log <= l[LastTerm(log)]
  {
    assert TracedAt(l, log, |log| - 1);
    assert log == log[..|log|];
  }

  /** Logs that end in the same term are prefixes of one log. */
  lemma SameEnd(l: map<nat, Log>, v: Log, m: Log)
    requires Traced(l, v) && Traced(l, m) && v != [] && m != [] && LastTerm(v) == LastTerm(m) && |v| <= |m|
    ensures v <= m
  {
    WholeTraced(l, v);
    WholeTraced(l, m);
  }

  /** A log that ends in a term contains the log its leader was elected with. */
  lemma ContainsWinLog(s: State, m: Log, f: Election)
    requires LogInv(s) && Traced(s.hist.leaderLog, m) && m != [] && f in s.hist.elections && f.term == LastTerm(m)
    ensures f.log <= m
  {
    var l := s.hist.leaderLog;
    assert WinLogInv(s, f) && Good(l, l[f.term], Bound(s.hist.base, f.term));
    WholeTraced(l, m);
    hide LogInv, Traced;
    LowerEnd(f.log, m, l[f.term]);
  }

  /** A term beyond the initial log that has entries was won in an election. */
  lemma LateLeader(s: State, t: nat)
    requires LogInv(s) && t in s.hist.leaderLog && t > LastTerm(s.hist.base)
    ensures Elected(s.hist, t)
  {
    BaseTerms(s.hist.base);
  }

  /** A candidate's log `m` that a voter's log `v` is not ahead of has what `v` has from term `t` on, if every leader
      elected in between had it. */
  lemma MoreComplete(s: State, v: Log, m: Log, p: Log, upto: nat)
    requires LogInv(s) && Good(s.hist.leaderLog, v, upto) && Traced(s.hist.leaderLog, m) && LastTerm(m) < upto
    requires p != [] && p <= v && !AheadOf(v, LastTerm(m), |m|)
    requires Complete(s.hist, LastTerm(p), p, upto) && LastTerm(s.hist.base) <= LastTerm(p)
    ensures p <= m
  {
    LastBounds(v, |p| - 1);
    assert LastTerm(p) == v[|p| - 1].term;
    assert LastTerm(v) > 0 by { assert v[|v| - 1].term > 0; }
    hide LogInv, Complete;
    if LastTerm(v) == LastTerm(m) {
      SameEnd(s.hist.leaderLog, v, m);
    } else {
      WholeTraced(s.hist.leaderLog, m);
      LateLeader(s, LastTerm(m));
      var f :| f in s.hist.elections && f.term == LastTerm(m);
      ContainsWinLog(s, m, f);
      CompleteAt(s.hist, LastTerm(p), p, upto, f);
    }
  }

  lemma CompleteAt(h: History, t: nat, p: Log, upto: nat, e: Election)
    requires Complete(h, t, p, upto) && e in h.elections && t < e.term < upto
    ensures p <= e.log
  {
  }

  /** Each of the `holders` held `p` while it was in term `t`. */
  ghost predicate HeldBy(h: History, t: nat, p: Log, holders: map<NodeId, Held>) {
    forall q | q in holders :: holders[q] in h.held && holders[q].node == q && holders[q].term == t
      && Marks(holders[q], p)
  }

  /** The election of a term later than `t` chose a node that has `p`, if a strict majority held `p` in term `t`. */
  lemma {:induction false} WinnerHas(cfg: Config, s: State, e: Election, t: nat, p: Log, holders: map<NodeId, Held>)
    requires VoteInv(s) && ElectInv(cfg, s) && LogInv(s) && CompleteInv(s, holders.Keys, p)
    requires Majority(holders.Keys, cfg.Nodes()) && LastTerm(s.hist.base) <= t && HeldBy(s.hist, t, p, holders)
    requires e in s.hist.elections && e.term > t
    ensures p <= e.log
    decreases e.term
  {
    forall f | f in s.hist.elections && t < f.term < e.term ensures p <= f.log { WinnerHas(cfg, s, f, t, p, holders); }
    assert Complete(s.hist, t, p, e.term);
    assert ElectionInv(cfg, s, e);
    var u := MajoritiesMeet(holders.Keys, e.votes.Keys, cfg.Nodes());
    VoterHas(cfg, s, e, holders.Keys, u, holders[u], p);
  }

  /** The voter that held `p` passes it on to the winner it voted for. */
  lemma VoterHas(cfg: Config, s: State, e: Election, who: set<NodeId>, u: NodeId, h: Held, p: Log)
    requires VoteInv(s) && ElectInv(cfg, s) && LogInv(s) && CompleteInv(s, who, p)
    requires e in s.hist.elections && u in e.votes && u in who
    requires h in s.hist.held && h.node == u && h.term < e.term && Marks(h, p) && Complete(s.hist, h.term, p, e.term)
    requires LastTerm(s.hist.base) <= h.term
    ensures p <= e.log
  {
    var g := e.votes[u];
    assert ElectionInv(cfg, s, e) && GrantInv(s, g) && WinLogInv(s, e);
    assert Useful(s.hist, g);
    assert KeptAtGrant(s, h, g, p);
    assert Good(s.hist.leaderLog, g.voterLog, g.ourTerm);
    assert Good(s.hist.leaderLog, e.log, e.term);
    hide VoteInv, ElectInv, CompleteInv, LogInv, Useful, Complete, Traced, Ordered;
    MoreComplete(s, g.voterLog, e.log, p, e.term) by { GoodTraced(s.hist.leaderLog, e.log, e.term); }
  }
}
