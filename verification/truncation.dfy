/** Which accepted append requests remove entries that the sending leader has, on which Leader Completeness hinges. */
module Truncation {
  import opened Types
  import opened Quorum
  import opened NodeSteps
  import opened Cluster
  import opened AnyRun
  import opened Votes
  import opened Elections
  import opened Logs
  import opened Runs
  import opened Tracing
  import opened Majorities
  import opened CatchUp

  /** Accepted, the request leaves its follower the entry at (0-based) position `x`, if the sender has it. */
  predicate Covers(m: AppendMsg, x: nat) {
    !m.heartbeat && x < |m.snapshot|
  }

  /** An accepted request leaves the follower all it shares with the leader: a heartbeat only if they share nothing, a
      replication request if it was composed when the leader's log already covered what they share. */
  ghost predicate Spares(log: Log, led: Log, m: AppendMsg) {
    if m.heartbeat then Common(log, led) == 0 else Common(log, led) <= |m.snapshot|
  }

  lemma SharedIsCommon(log: Log, led: Log, k: nat)
    requires Matching(log, led) && k < |log| && k < |led| && log[k] == led[k]
    ensures k < Common(log, led)
  {
    CommonAtLeast(log, led, k + 1);
  }

  /** Between logs that match, a request covers every shared entry exactly if it covers the common prefix. */
  lemma SparesIff(log: Log, led: Log, m: AppendMsg)
    requires Matching(log, led)
    ensures (forall x: nat, entry | Has(log, x, entry) && Has(led, x, entry) :: Covers(m, x)) <==> Spares(log, led, m)
  {
    if Spares(log, led, m) {
      forall x: nat, entry | Has(log, x, entry) && Has(led, x, entry) ensures Covers(m, x) {
        SharedIsCommon(log, led, x);
      }
    } else {
      var x := if m.heartbeat then 0 else |m.snapshot|;
      CommonEntry(log, led, x);
      assert Has(log, x, log[x]) && Has(led, x, log[x]) && !Covers(m, x);
    }
  }

  // ----- Heartbeats

  ghost predicate Emptied(v: AppendAns) {
    v.msg.heartbeat ==> v.body.reason.StaleLeader? || (v.body.reason.Appended? && v.logAfter == [])
  }

  lemma EmptiedStep(cfg: Config, s: State, a: Action)
    requires Basic(cfg, s) && Enabled(cfg, s, a) && forall v | v in s.appendAnswers :: Emptied(v)
    ensures forall v | v in Do(cfg, s, a).appendAnswers :: Emptied(v)
  {
    hide NodeAfter, NodeInv, VoteMsgInv, VoteAnsInv, AppendAnsInv;
    if a.TakeAppend? { assert AppendMsgInv(s, a.append); }
  }

  /** In every run a heartbeat is refused only for its term, so its back-off arm is never taken, and accepted it leaves
      its follower with an empty log. */
  lemma {:induction false} HeartbeatsEmpty(cfg: Config, r: Run, k: nat)
    requires ValidRun(cfg, r) && k < |r.states|
    ensures forall v | v in r.states[k].appendAnswers :: Emptied(v)
  {
    hide Do, Enabled, Basic, Emptied;
    if k > 0 {
      HeartbeatsEmpty(cfg, r, k - 1);
      BasicHolds(cfg, r, k - 1);
      assert StepAt(cfg, r, k - 1);
      EmptiedStep(cfg, r.states[k - 1], r.acts[k - 1]);
    }
  }

  // ----- What a leader had when it composed a request is in the log that it leads its term with

  ghost predicate SnapshotInv(s: State) {
    forall m | m in s.appendMsgs :: m.body.term in s.hist.leaderLog && m.snapshot <= s.hist.leaderLog[m.body.term]
  }

  lemma SnapshotStep(cfg: Config, s: State, a: Action)
    requires Enabled(cfg, s, a) && LogInv(s) && SnapshotInv(s) && SentByLeader(s, a)
    requires Grows(s.hist.leaderLog, Do(cfg, s, a).hist.leaderLog)
    ensures SnapshotInv(Do(cfg, s, a))
  {
    hide NodeAfter, LogInv, VoteMsgsAfter, VoteAnswersAfter, AppendAnswersAfter, SupportsAfter, GrantsAfter,
      CountedAfter,
      ElectionsAfter, LeaderLogAfter;
    var s' := Do(cfg, s, a);
    if a.SendHeartbeat? || a.SendEntries? { LeaderLogNow(cfg, s, a.n, s.nodes[a.n].term); }
    forall m | m in s'.appendMsgs
      ensures m.body.term in s'.hist.leaderLog && m.snapshot <= s'.hist.leaderLog[m.body.term] {
      SnapshotGrows(s.hist.leaderLog, s'.hist.leaderLog, m.body.term, m.snapshot);
    }
  }

  lemma SnapshotGrows(l: map<nat, Log>, l': map<nat, Log>, term: nat, log: Log)
    requires Grows(l, l') && term in l && log <= l[term]
    ensures term in l' && log <= l'[term]
  {
  }

  lemma {:induction false} SnapshotHolds(cfg: Config, r: Run, k: nat)
    requires ValidRun(cfg, r) && TermMonotone(r) && SendersLead(r) && k < |r.states|
    ensures SnapshotInv(r.states[k])
  {
    hide Do, Enabled, Inv, LogInv, TermMonotone, SentByLeader, SnapshotInv;
    if k == 0 {
      NoneSentYet(cfg, r.states[0]);
    } else {
      SnapshotHolds(cfg, r, k - 1);
      InvHolds(cfg, r, k - 1);
      InvParts(cfg, r.states[k - 1]);
      MonotoneNoneLate(cfg, r);
      LeaderLogsGrow(cfg, r, k - 1, k);
      assert StepAt(cfg, r, k - 1) && SentByLeaderAt(r, k - 1);
      SnapshotStep(cfg, r.states[k - 1], r.acts[k - 1]);
    }
  }

  lemma NoneSentYet(cfg: Config, s: State)
    requires Init(cfg, s)
    ensures SnapshotInv(s)
  {
  }

  // ----- The hypothesis of Leader Completeness, append by append

  /** The follower accepts the request. */
  ghost predicate Accepts(s: State, m: AppendMsg) {
    m.to in s.nodes && s.nodes[m.to].term <= m.body.term && !Mismatch(s.nodes[m.to].log, m.body)
  }

  /** The log with which the sender of the request leads its term, as far as it is written. */
  ghost function LedLog(s: State, m: AppendMsg): Log {
    if m.body.term in s.hist.leaderLog then s.hist.leaderLog[m.body.term] else []
  }

  /** An append that a node in `who` accepts in the step covers the entry, if both follower and leader have it. */
  ghost predicate SparesEntryStep(s: State, a: Action, who: set<NodeId>, x: nat, entry: Entry) {
    && a.TakeAppend? && a.append.to in who && Accepts(s, a.append)
    && Has(s.nodes[a.append.to].log, x, entry) && Has(LedLog(s, a.append), x, entry)
    ==> Covers(a.append, x)
  }

  ghost predicate SparesEntryAt(r: Run, k: nat, who: set<NodeId>, x: nat, entry: Entry) {
    k < |r.acts| && k < |r.states| && SparesEntryStep(r.states[k], r.acts[k], who, x, entry)
  }

  ghost predicate SparesEntry(r: Run, who: set<NodeId>, x: nat, entry: Entry) {
    forall k: nat | k < |r.acts| :: SparesEntryAt(r, k, who, x, entry)
  }

  /** An append accepted in the step spares what its follower shares with the leader. */
  ghost predicate SparesStep(s: State, a: Action) {
    a.TakeAppend? && Accepts(s, a.append) ==> Spares(s.nodes[a.append.to].log, LedLog(s, a.append), a.append)
  }

  ghost predicate SparesAt(r: Run, k: nat) {
    k < |r.acts| && k < |r.states| && SparesStep(r.states[k], r.acts[k])
  }

  ghost predicate SparesAll(r: Run) {
    forall k: nat | k < |r.acts| :: SparesAt(r, k)
  }

  lemma LedPart(cfg: Config, r: Run, j: nat, k: nat, n: NodeId, term: nat)
    requires ValidRun(cfg, r) && TermMonotone(r) && j <= k < |r.states| && Leads(r.states[j], n, term)
    ensures term in r.states[k].hist.leaderLog && r.states[j].nodes[n].log <= r.states[k].hist.leaderLog[term]
  {
    hide ValidRun, Init, StepAt, Basic, VoteInv, ElectInv, LogInv, TermMonotone, Leads, NoLateFalls;
    InvHolds(cfg, r, j);
    MonotoneNoneLate(cfg, r);
    LeaderLogsGrow(cfg, r, j, k);
    LeaderLogNow(cfg, r.states[j], n, term);
  }

  /** The leader had the entry at some moment exactly if it is in the log that it leads its term with. */
  lemma LeaderHadIff(cfg: Config, r: Run, k: nat, m: AppendMsg, x: nat, entry: Entry)
    requires ValidRun(cfg, r) && TermMonotone(r) && SendersLead(r) && k < |r.states| && m in r.states[k].appendMsgs
    ensures LeaderHad(r, k, m.body.leader, m.body.term, x, entry) <==> Has(LedLog(r.states[k], m), x, entry)
  {
    hide ValidRun, TermMonotone, SendersLead, Won, SenderInv;
    SendersHold(cfg, r, k);
    SenderWon(r.states[k], m);
    if LeaderHad(r, k, m.body.leader, m.body.term, x, entry) {
      var j: nat :| j <= k && j < |r.states| && Leads(r.states[j], m.body.leader, m.body.term)
        && Has(r.states[j].nodes[m.body.leader].log, x, entry);
      LedPart(cfg, r, j, k, m.body.leader, m.body.term);
    }
    var j := LeadMoment(cfg, r, k, m.body.term, m.body.leader);
    assert Has(LedLog(r.states[k], m), x, entry) ==> Has(r.states[j].nodes[m.body.leader].log, x, entry);
  }

  lemma RequestFacts(cfg: Config, s: State, m: AppendMsg)
    requires Inv(cfg, s) && m in s.appendMsgs
    ensures AppendMsgInv(s, m) && Traced(s.hist.leaderLog, s.nodes[m.to].log) && Traced(s.hist.leaderLog, m.snapshot)
    ensures Traced(s.hist.leaderLog, LedLog(s, m))
  {
    hide VoteInv, ElectInv, Traced, Ordered, NodeLogInv, WinLogInv, VoteMsgInv, VoteAnsInv, AppendAnsInv, NodeInv;
    assert AppendMsgInv(s, m);
    HeldNow(cfg, s, m.to);
    SentHeld(s, m);
    TracedEmpty(s.hist.leaderLog);
    assert Good(s.hist.leaderLog, s.nodes[m.to].log, s.nodes[m.to].term);
    assert Good(s.hist.leaderLog, m.snapshot, m.body.term);
  }

  /** Accepted, the request leaves the sender's log or, if it is a heartbeat, nothing. */
  lemma TakenLog(cfg: Config, s: State, a: Action)
    requires Inv(cfg, s) && Enabled(cfg, s, a) && a.TakeAppend?
    ensures a.append in s.appendMsgs && a.append.to in s.nodes
    ensures NodeAfter(cfg, s, a).log ==
              if !Accepts(s, a.append) then s.nodes[a.append.to].log
              else if a.append.heartbeat then [] else a.append.snapshot
  {
    hide NodeAfter, Inv, Traced, Mismatch;
    assert a.append in s.appendMsgs && a.append.to in s.nodes;
    LogCases(cfg, s, a);
    RequestFacts(cfg, s, a.append);
    hide Enabled;
    if Accepts(s, a.append) { AcceptedLog(s.hist.leaderLog, s.nodes[a.append.to].log, a.append); }
  }

  lemma KeepsEntryExactlyAt(cfg: Config, r: Run, k: nat, who: set<NodeId>, x: nat, entry: Entry)
    requires ValidRun(cfg, r) && TermMonotone(r) && SendersLead(r) && k < |r.acts|
    ensures KeepsEntryAt(cfg, r, k, who, x, entry) <==> SparesEntryAt(r, k, who, x, entry)
  {
    hide Init, Enabled, Do, NodeAfter, TermMonotone, SendersLead, Inv, LeaderHad, Mismatch;
    assert StepAt(cfg, r, k);
    if r.acts[k].TakeAppend? {
      InvHolds(cfg, r, k);
      SnapshotHolds(cfg, r, k);
      TakenLog(cfg, r.states[k], r.acts[k]);
      LeaderHadIff(cfg, r, k, r.acts[k].append, x, entry);
    }
  }

  /** The hypothesis on one entry fails exactly at an accepted heartbeat, or an accepted replication request composed
      before the leader wrote the entry, that finds the entry on both sides. */
  lemma KeepsEntryExactly(cfg: Config, r: Run, who: set<NodeId>, x: nat, entry: Entry)
    requires ValidRun(cfg, r) && TermMonotone(r) && SendersLead(r)
    ensures KeepsEntry(cfg, r, who, x, entry) <==> SparesEntry(r, who, x, entry)
  {
    hide ValidRun, TermMonotone, SendersLead;
    assert KeepsEntry(cfg, r, who, x, entry) <==>
           forall k: nat | k < |r.acts| :: KeepsEntryAt(cfg, r, k, who, x, entry);
    hide KeepsEntry, KeepsEntryAt, SparesEntryAt;
    forall k: nat | k < |r.acts|
      ensures KeepsEntryAt(cfg, r, k, who, x, entry) <==> SparesEntryAt(r, k, who, x, entry)
    {
      KeepsEntryExactlyAt(cfg, r, k, who, x, entry);
    }
  }

  // ----- The hypothesis for all entries at once

  /** Run hypothesis: no accepted append takes any entry from any node although the sending leader has it. */
  ghost predicate KeepsShared(cfg: Config, r: Run) {
    forall x: nat, entry :: KeepsEntry(cfg, r, cfg.Nodes(), x, entry)
  }

  lemma SparesEveryEntry(cfg: Config, r: Run, k: nat)
    requires ValidRun(cfg, r) && TermMonotone(r) && SendersLead(r) && k < |r.acts|
    ensures SparesAt(r, k) <==> forall x: nat, entry :: SparesEntryAt(r, k, cfg.Nodes(), x, entry)
  {
    hide Init, Do, NodeAfter, TermMonotone, SendersLead, Inv, Accepts;
    assert StepAt(cfg, r, k);
    InvHolds(cfg, r, k);
    SparesEveryStep(cfg, r.states[k], r.acts[k]);
    hide ValidRun, SparesStep, SparesEntryStep;
    if SparesAt(r, k) {
      forall x: nat, entry ensures SparesEntryAt(r, k, cfg.Nodes(), x, entry) {
        assert SparesEntryStep(r.states[k], r.acts[k], cfg.Nodes(), x, entry);
      }
    } else {
      var x: nat, entry :| !SparesEntryStep(r.states[k], r.acts[k], cfg.Nodes(), x, entry);
      assert !SparesEntryAt(r, k, cfg.Nodes(), x, entry);
    }
  }

  lemma SparesEveryStep(cfg: Config, s: State, a: Action)
    requires Inv(cfg, s) && Enabled(cfg, s, a)
    ensures SparesStep(s, a) <==> forall x: nat, entry :: SparesEntryStep(s, a, cfg.Nodes(), x, entry)
  {
    hide Inv, Mismatch, Traced, Spares, Covers, Has, Matching;
    if a.TakeAppend? && Accepts(s, a.append) {
      var (log, led) := (s.nodes[a.append.to].log, LedLog(s, a.append));
      RequestFacts(cfg, s, a.append);
      TracedMatch(s.hist.leaderLog, log, led);
      SparesIff(log, led, a.append);
      if !Spares(log, led, a.append) {
        var x: nat, entry :| Has(log, x, entry) && Has(led, x, entry) && !Covers(a.append, x);
        assert !SparesEntryStep(s, a, cfg.Nodes(), x, entry);
      }
    }
  }

  /** No entry is taken that the sending leader has exactly if every accepted heartbeat finds nothing shared with the
      leader, and every accepted replication request was composed from a log that covers what is shared. */
  lemma KeepsSharedExactly(cfg: Config, r: Run)
    requires ValidRun(cfg, r) && TermMonotone(r) && SendersLead(r)
    ensures KeepsShared(cfg, r) <==> SparesAll(r)
  {
    hide ValidRun, TermMonotone, SendersLead, KeepsEntry, SparesEntryAt, SparesAt;
    if KeepsShared(cfg, r) {
      forall k: nat | k < |r.acts| ensures SparesAt(r, k) {
        forall x: nat, entry ensures SparesEntryAt(r, k, cfg.Nodes(), x, entry) {
          KeepsEntryExactly(cfg, r, cfg.Nodes(), x, entry);
        }
        SparesEveryEntry(cfg, r, k);
      }
    }
    if SparesAll(r) {
      forall x: nat, entry ensures KeepsEntry(cfg, r, cfg.Nodes(), x, entry) {
        forall k: nat | k < |r.acts| ensures SparesEntryAt(r, k, cfg.Nodes(), x, entry) { SparesEveryEntry(cfg, r, k); }
        KeepsEntryExactly(cfg, r, cfg.Nodes(), x, entry);
      }
    }
  }

  /** Leader Completeness in terms of single appends: if every one that a node of `at` accepts covers the entry, where
      both it and the leader have it, then the entry, which each node of the strict majority `at` held while in the
      entry's term, is in the log of every leader of a later term. */
  lemma SparingLeadersComplete(cfg: Config, r: Run, at: map<NodeId, nat>, x: nat, entry: Entry, k: nat, n: NodeId,
    term: nat)
    requires ValidRun(cfg, r) && TermMonotone(r) && SendersLead(r) && SparesEntry(r, at.Keys, x, entry)
    requires Majority(at.Keys, cfg.Nodes()) && AllHeldIn(r, at, x, entry)
    requires k < |r.states| && Leads(r.states[k], n, term) && term > entry.term
    ensures x < |r.states[k].nodes[n].log| && r.states[k].nodes[n].log[x] == entry
  {
    hide ValidRun, TermMonotone, SendersLead, SparesEntry, Majority, AllHeldIn, KeepsEntry;
    KeepsEntryExactly(cfg, r, at.Keys, x, entry);
    LeaderCompleteness(cfg, r, at, x, entry, k, n, term);
  }
}
