/** The election and log theorems, over whole runs. */
module Runs {
  import opened Types
  import opened Cluster
  import opened AnyRun
  import opened Votes
  import opened Elections
  import opened Logs

  // ----- Every state of a term-monotone run meets the invariants

  ghost predicate Inv(cfg: Config, s: State) {
    Basic(cfg, s) && VoteInv(s) && ElectInv(cfg, s) && LogInv(s)
  }

  lemma InvParts(cfg: Config, s: State)
    requires Inv(cfg, s)
    ensures Basic(cfg, s) && VoteInv(s) && ElectInv(cfg, s) && LogInv(s)
  {
  }

  lemma InvStep(cfg: Config, s: State, a: Action)
    requires Inv(cfg, s) && Enabled(cfg, s, a) && TermsRise(s, Do(cfg, s, a))
    ensures Inv(cfg, Do(cfg, s, a)) && Grows(s.hist.leaderLog, Do(cfg, s, a).hist.leaderLog)
  {
    hide Basic, VoteInv, ElectInv, LogInv, Do, Enabled, TermsRise, Grows;
    BasicStep(cfg, s, a);
    VoteStep(cfg, s, a);
    ElectStep(cfg, s, a);
    LogStep(cfg, s, a);
  }

  lemma InvInit(cfg: Config, s: State)
    requires Init(cfg, s)
    ensures Inv(cfg, s)
  {
    hide Basic, VoteInv, ElectInv, LogInv, Init;
    BasicInit(cfg, s);
    VoteInit(cfg, s);
    ElectInit(cfg, s);
    LogInit(cfg, s);
  }

  lemma {:induction false} InvHolds(cfg: Config, r: Run, k: nat)
    requires ValidRun(cfg, r) && TermMonotone(r) && k < |r.states|
    ensures Inv(cfg, r.states[k])
  {
    hide Init, Do, Enabled, Inv, TermsRise;
    if k == 0 {
      InvInit(cfg, r.states[0]);
    } else {
      InvHolds(cfg, r, k - 1);
      assert StepAt(cfg, r, k - 1) && TermsRiseAt(r, k - 1);
      InvStep(cfg, r.states[k - 1], r.acts[k - 1]);
    }
  }

  lemma ElectionLasts(cfg: Config, r: Run, i: nat, j: nat, e: Election)
    requires ValidRun(cfg, r) && i <= j < |r.states| && e in r.states[i].hist.elections
    ensures e in r.states[j].hist.elections
  {
    hide ValidRun;
    HistoryGrows(cfg, r, i, j);
  }

  // ----- One vote per term

  /** In step `k` a node casts the vote `x`: it opens a ballot, or answers a request whose term it takes over. */
  ghost predicate CastsAt(cfg: Config, r: Run, k: nat, x: Support) {
    StepAt(cfg, r, k) && Casts(cfg, r.states[k], r.acts[k]) && Cast(cfg, r.states[k], r.acts[k]) == x
  }

  /** No node votes twice in a term, its own ballots and the votes it refuses only afterwards included. */
  lemma OneVotePerTerm(cfg: Config, r: Run, i: nat, j: nat, x: Support, y: Support)
    requires ValidRun(cfg, r) && TermMonotone(r) && CastsAt(cfg, r, i, x) && CastsAt(cfg, r, j, y)
    requires x.voter == y.voter && x.term == y.term
    ensures i == j && x == y
  {
    if i < j {
      VoteIsLast(cfg, r, i, j, x, y);
    } else if j < i {
      VoteIsLast(cfg, r, j, i, y, x);
    }
  }

  lemma VoteIsLast(cfg: Config, r: Run, i: nat, j: nat, x: Support, y: Support)
    requires ValidRun(cfg, r) && TermMonotone(r) && i < j && CastsAt(cfg, r, i, x) && CastsAt(cfg, r, j, y)
    ensures x.voter != y.voter || x.term != y.term
  {
    var (s, a) := (r.states[i], r.acts[i]);
    CastEffect(cfg, s, a);
    assert x in r.states[i + 1].hist.supports;
    assert y.voter == Actor(r.acts[j]) by { CastEffect(cfg, r.states[j], r.acts[j]); }
    hide Init, Do, NodeAfter, Basic, VoteInv, LogInv, ElectInv, TermMonotone, Casts, Cast, ValidRun;
    HistoryGrows(cfg, r, i + 1, j);
    InvHolds(cfg, r, j);
    CastIsFirst(cfg, r.states[j], r.acts[j], x);
  }

  // ----- Ordered logs

  /** Terms are positive and non-decreasing along every log and every request, and at most the holder's or sender's. */
  lemma OrderedLogs(cfg: Config, r: Run, k: nat)
    requires ValidRun(cfg, r) && TermMonotone(r) && k < |r.states|
    ensures forall n | n in r.states[k].nodes ::
              Ordered(r.states[k].nodes[n].log) && LastTerm(r.states[k].nodes[n].log) <= r.states[k].nodes[n].term
    ensures forall m | m in r.states[k].appendMsgs ::
              Ordered(m.body.entries) && LastTerm(m.body.entries) <= m.body.term
              && (m.body.entries != [] ==> m.body.prevTerm <= m.body.entries[0].term)
  {
    hide Init, StepAt, VoteInv, ElectInv, TermMonotone, ValidRun, Traced, NodeLogInv, WinLogInv, VoteMsgInv,
      VoteAnsInv, AppendAnsInv, AppendMsgInv, Ordered;
    InvHolds(cfg, r, k);
    var s := r.states[k];
    forall n | n in s.nodes ensures Ordered(s.nodes[n].log) && LastTerm(s.nodes[n].log) <= s.nodes[n].term {
      HeldNow(cfg, s, n);
      assert Good(s.hist.leaderLog, s.nodes[n].log, s.nodes[n].term);
    }
    forall m | m in s.appendMsgs
      ensures Ordered(m.body.entries) && LastTerm(m.body.entries) <= m.body.term
              && (m.body.entries != [] ==> m.body.prevTerm <= m.body.entries[0].term)
    {
      SentHeld(s, m);
      assert Good(s.hist.leaderLog, m.snapshot, m.body.term);
      OrderedRequest(s, m);
    }
  }

  lemma OrderedRequest(s: State, m: AppendMsg)
    requires AppendMsgInv(s, m) && Ordered(m.snapshot) && LastTerm(m.snapshot) <= m.body.term
    ensures Ordered(m.body.entries) && LastTerm(m.body.entries) <= m.body.term
    ensures m.body.entries != [] ==> m.body.prevTerm <= m.body.entries[0].term
  {
  }

  lemma LeaderLogNow(cfg: Config, s: State, n: NodeId, term: nat)
    requires LogInv(s) && Leads(s, n, term)
    ensures term in s.hist.leaderLog && s.nodes[n].log == s.hist.leaderLog[term]
  {
    assert NodeLogInv(s, n);
  }

  lemma {:induction false} SendersHold(cfg: Config, r: Run, k: nat)
    requires ValidRun(cfg, r) && TermMonotone(r) && SendersLead(r) && k < |r.states|
    ensures SenderInv(r.states[k])
  {
    hide Do, Enabled, Inv, ElectInv, Won, TermMonotone, SentByLeader;
    if k > 0 {
      SendersHold(cfg, r, k - 1);
      InvHolds(cfg, r, k - 1);
      InvParts(cfg, r.states[k - 1]);
      assert StepAt(cfg, r, k - 1) && SentByLeaderAt(r, k - 1);
      SenderStep(cfg, r.states[k - 1], r.acts[k - 1]);
    }
  }
}
