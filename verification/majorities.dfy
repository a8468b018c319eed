/** What stands behind a win: the votes counted, the logs of the voters, and the entries they held. */
module Majorities {
  import opened Types
  import opened Quorum
  import opened NodeSteps
  import opened Cluster
  import opened AnyRun
  import opened Votes
  import opened Elections
  import opened Logs
  import opened Completeness
  import opened Runs
  import opened Tracing

  // ----- The vote counter

  /** The peers whose grant session `sid` of node `n` handled, while live, in the first `k` steps. */
  ghost function Handled(r: Run, k: nat, n: NodeId, sid: nat): set<NodeId>
    requires k < |r.states| && k <= |r.acts|
  {
    if k == 0 then {} else
      Handled(r, k - 1, n, sid) +
      if Counts(r.states[k - 1], r.acts[k - 1]) && Actor(r.acts[k - 1]) == n && r.acts[k - 1].voteAns.msg.sid == sid
      then {r.acts[k - 1].voteAns.msg.to} else {}
  }

  lemma CountedOnce(cfg: Config, s: State, a: Action, n: NodeId, sid: nat)
    requires Enabled(cfg, s, a)
    ensures Counted(Do(cfg, s, a).hist, n, sid).Keys ==
            Counted(s.hist, n, sid).Keys + if Counts(s, a) && Actor(a) == n && a.voteAns.msg.sid == sid
              then {a.voteAns.msg.to} else {}
  {
    hide NodeAfter;
  }

  lemma {:induction false} CountedIsHandled(cfg: Config, r: Run, k: nat, n: NodeId, sid: nat)
    requires ValidRun(cfg, r) && k < |r.states|
    ensures Counted(r.states[k].hist, n, sid).Keys == Handled(r, k, n, sid)
  {
    hide Do, Enabled;
    if k > 0 {
      CountedIsHandled(cfg, r, k - 1, n, sid);
      assert StepAt(cfg, r, k - 1);
      CountedOnce(cfg, r.states[k - 1], r.acts[k - 1], n, sid);
    }
  }

  /** A live session's counter is one more than the number of distinct peers whose grant it has handled, over all rounds
      of requests; none of them is its own node. */
  lemma VoteCounterExact(cfg: Config, r: Run, k: nat, n: NodeId)
    requires ValidRun(cfg, r) && TermMonotone(r) && k < |r.states| && n in r.states[k].nodes
        && LiveBallot(r.states[k].nodes[n])
    ensures var b := r.states[k].nodes[n].ballot.value;
            && b.granted == 1 + |Handled(r, k, n, b.sid)|
            && n !in Handled(r, k, n, b.sid)
  {
    hide Init, StepAt, Basic, VoteInv, LogInv, TermMonotone, ElectionInv, Handled;
    InvHolds(cfg, r, k);
    assert BallotInv(r.states[k], n);
    var b := r.states[k].nodes[n].ballot.value;
    CountedIsHandled(cfg, r, k, n, b.sid);
    assert |Counted(r.states[k].hist, n, b.sid)| == |Counted(r.states[k].hist, n, b.sid).Keys|;
  }

  // ----- The election restriction

  /** Before step `k`, node `v` granted its vote for `term` to `n`, which had asked with the log `log`; at that moment
      the voter's log was not ahead of it. */
  ghost predicate GrantedBefore(cfg: Config, r: Run, k: nat, v: NodeId, n: NodeId, term: nat, log: Log) {
    exists j: nat | j < k :: GrantsAt(cfg, r, j, v, n, term, log)
  }

  ghost predicate GrantsAt(cfg: Config, r: Run, j: nat, v: NodeId, n: NodeId, term: nat, log: Log) {
    && StepAt(cfg, r, j)
    && var a := r.acts[j];
    && a.TakeVote? && a.vote.to == v && a.vote.body.candidate == n && a.vote.body.term == term && a.vote.snapshot == log
    && OnVoteRequest(v, r.states[j].nodes[v], a.vote.body).response.granted
    && !AheadOf(r.states[j].nodes[v].log, LastTerm(log), |log|)
  }

  lemma NewGrantAt(cfg: Config, r: Run, k: nat, g: Grant)
    requires StepAt(cfg, r, k) && Basic(cfg, r.states[k]) && g in r.states[k + 1].hist.grants
        && g !in r.states[k].hist.grants
    requires g.msg.to != g.msg.body.candidate
    ensures GrantsAt(cfg, r, k, g.msg.to, g.msg.body.candidate, g.msg.body.term, g.msg.snapshot)
  {
    hide NodeAfter, AppendMsgInv, AppendAnsInv, NodeInv, VoteAnsInv;
    assert VoteMsgInv(r.states[k], g.msg);
  }

  lemma {:induction false} GrantMoment(cfg: Config, r: Run, k: nat, g: Grant)
    requires ValidRun(cfg, r) && k < |r.states| && g in r.states[k].hist.grants && g.msg.to != g.msg.body.candidate
    ensures GrantedBefore(cfg, r, k, g.msg.to, g.msg.body.candidate, g.msg.body.term, g.msg.snapshot)
  {
    hide Do, Enabled, Basic, GrantsAt;
    if k > 0 {
      assert StepAt(cfg, r, k - 1);
      if g in r.states[k - 1].hist.grants {
        GrantMoment(cfg, r, k - 1, g);
        var j: nat :| j < k - 1 && GrantsAt(cfg, r, j, g.msg.to, g.msg.body.candidate, g.msg.body.term, g.msg.snapshot);
        assert j < k;
      } else {
        BasicHolds(cfg, r, k - 1);
        NewGrantAt(cfg, r, k - 1, g);
      }
    }
  }

  /** A node that wins had, unchanged since it asked, a log at least as complete as those of a strict majority of nodes,
      itself included, each compared at the moment it granted. */
  lemma ElectionRestriction(cfg: Config, r: Run, k: nat, n: NodeId)
    requires ValidRun(cfg, r) && TermMonotone(r) && k < |r.acts| && r.acts[k] == Win(n)
    ensures exists voters: set<NodeId> ::
              && Majority(voters, cfg.Nodes()) && n in voters
              && forall v | v in voters && v != n ::
                   n in r.states[k].nodes
                     && GrantedBefore(cfg, r, k, v, n, r.states[k].nodes[n].term, r.states[k].nodes[n].log)
  {
    hide Init, Basic, VoteInv, LogInv, TermMonotone, GrantedBefore, Do;
    InvHolds(cfg, r, k);
    assert StepAt(cfg, r, k);
    var s := r.states[k];
    WinStep(cfg, s, r.acts[k]);
    WinnerGrants(cfg, s, n);
    var voters := ElectionOf(s, n).votes.Keys;
    forall v | v in voters && v != n ensures GrantedBefore(cfg, r, k, v, n, s.nodes[n].term, s.nodes[n].log) {
      GrantMoment(cfg, r, k, ElectionOf(s, n).votes[v]);
    }
  }

  /** The grants in hand are the winner's own kind: for its term, and asked with the log it still has. */
  lemma WinnerGrants(cfg: Config, s: State, n: NodeId)
    requires n in s.nodes && LiveBallot(s.nodes[n]) && ElectionInv(cfg, s, ElectionOf(s, n))
    ensures var e := ElectionOf(s, n);
            && Majority(e.votes.Keys, cfg.Nodes()) && n in e.votes
            && forall v | v in e.votes ::
                 && e.votes[v] in s.hist.grants && e.votes[v].msg.to == v && e.votes[v].msg.body.candidate == n
                 && e.votes[v].msg.body.term == s.nodes[n].term && e.votes[v].msg.snapshot == s.nodes[n].log
  {
  }

  // ----- Leader Completeness

  /** The log has the entry at (0-based) position `x`. */
  predicate Has(log: Log, x: nat, entry: Entry) {
    x < |log| && log[x] == entry
  }

  /** The append accepted in step `k`, if any, does not take the entry from a node in `who` if the sending leader had it
      at some moment of leading the request's term. */
  ghost predicate KeepsEntryAt(cfg: Config, r: Run, k: nat, who: set<NodeId>, x: nat, entry: Entry) {
    && StepAt(cfg, r, k)
    && var a := r.acts[k];
       (&& a.TakeAppend? && a.append.to in who && r.states[k].nodes[a.append.to].term <= a.append.body.term
        && Has(r.states[k].nodes[a.append.to].log, x, entry)
        && LeaderHad(r, k, a.append.body.leader, a.append.body.term, x, entry)
        ==> Has(NodeAfter(cfg, r.states[k], a).log, x, entry))
  }

  /** By step `k`, `leader` had the entry at some moment at which it led `term`. */
  ghost predicate LeaderHad(r: Run, k: nat, leader: NodeId, term: nat, x: nat, entry: Entry) {
    exists j: nat | j <= k && j < |r.states| ::
      Leads(r.states[j], leader, term) && Has(r.states[j].nodes[leader].log, x, entry)
  }

  /** Run hypothesis: no accepted append takes the entry from a node in `who` although the sending leader has it. */
  ghost predicate KeepsEntry(cfg: Config, r: Run, who: set<NodeId>, x: nat, entry: Entry) {
    forall k: nat | k < |r.acts| :: KeepsEntryAt(cfg, r, k, who, x, entry)
  }

  /** The step writes to the log of the leader of `term`. */
  ghost predicate Writes(s: State, a: Action, term: nat) {
    (a.Win? || a.ClientAppend?) && a.n in s.nodes && s.nodes[a.n].term == term
  }

  lemma WritesLeaderLog(cfg: Config, s: State, a: Action, term: nat, n: NodeId)
    requires Enabled(cfg, s, a) && Writes(s, a, term) && ElectInv(cfg, Do(cfg, s, a))
        && Won(Do(cfg, s, a).hist, term, n)
    ensures var s' := Do(cfg, s, a);
            Leads(s', n, term) && term in s'.hist.leaderLog && s'.nodes[n].log == s'.hist.leaderLog[term]
  {
    var s' := Do(cfg, s, a);
    assert Leads(s', a.n, term) && s'.nodes[a.n].log == s'.hist.leaderLog[term];
    hide NodeAfter, BallotInv, ElectionInv;
    var e :| e in s'.hist.elections && e.term == term && e.leader == n;
    var f :| f in s'.hist.elections && f.term == term && f.leader == a.n;
  }

  lemma LeavesLeaderLog(cfg: Config, s: State, a: Action, term: nat, n: NodeId)
    requires Enabled(cfg, s, a) && !Writes(s, a, term) && Won(Do(cfg, s, a).hist, term, n)
    ensures var (l, l') := (s.hist.leaderLog, Do(cfg, s, a).hist.leaderLog);
            Won(s.hist, term, n) && (term in l' <==> term in l) && (term in l ==> l'[term] == l[term])
  {
    var s' := Do(cfg, s, a);
    hide NodeAfter;
    var e :| e in s'.hist.elections && e.term == term && e.leader == n;
    assert e in s.hist.elections;
  }

  /** The moment at which the leader of a term had the whole log that it led the term with. */
  lemma {:induction false} LeadMoment(cfg: Config, r: Run, k: nat, term: nat, n: NodeId) returns (j: nat)
    requires ValidRun(cfg, r) && TermMonotone(r) && k < |r.states| && Won(r.states[k].hist, term, n)
    ensures j <= k && Leads(r.states[j], n, term) && term in r.states[k].hist.leaderLog
    ensures r.states[j].nodes[n].log == r.states[k].hist.leaderLog[term]
  {
    hide Inv, ElectInv, TermMonotone, Do, Enabled, Leads, Writes;
    assert k > 0;
    assert StepAt(cfg, r, k - 1);
    if Writes(r.states[k - 1], r.acts[k - 1], term) {
      InvHolds(cfg, r, k);
      InvParts(cfg, r.states[k]);
      WritesLeaderLog(cfg, r.states[k - 1], r.acts[k - 1], term, n);
      j := k;
    } else {
      LeavesLeaderLog(cfg, r.states[k - 1], r.acts[k - 1], term, n);
      j := LeadMoment(cfg, r, k - 1, term, n);
    }
  }

  /** A traced log that has the last entry of a traced log's prefix has the whole prefix. */
  lemma HasPrefix(l: map<nat, Log>, full: Log, p: Log, log: Log, x: nat, entry: Entry)
    requires Traced(l, full) && Traced(l, log) && p <= full && |p| == x + 1 && p[x] == entry && Has(log, x, entry)
    ensures p <= log
  {
    TracedMatch(l, full, log);
    assert full[x] == p[x];
  }

  /** The run hypothesis gives the hypothesis on each step. */
  lemma KeepsLedAt(cfg: Config, r: Run, k: nat, who: set<NodeId>, x: nat, entry: Entry, p: Log)
    requires ValidRun(cfg, r) && TermMonotone(r) && k < |r.acts| && SenderInv(r.states[k])
    requires KeepsEntryAt(cfg, r, k, who, x, entry) && |p| == x + 1 && p[x] == entry
    ensures StepAt(cfg, r, k) && KeepsLed(cfg, r.states[k], r.acts[k], who, p)
  {
    hide Init, NodeAfter, Do, TermMonotone, NoLateFalls, Won, SenderInv;
    assert StepAt(cfg, r, k);
    var (s, a) := (r.states[k], r.acts[k]);
    if a.TakeAppend? && a.append.to in who && s.nodes[a.append.to].term <= a.append.body.term
      && a.append.body.term in s.hist.leaderLog
      && p <= s.nodes[a.append.to].log && p <= s.hist.leaderLog[a.append.body.term] {
      var v := a.append.to;
      SenderWon(s, a.append);
      var j := LeadMoment(cfg, r, k, a.append.body.term, a.append.body.leader);
      assert Has(r.states[j].nodes[a.append.body.leader].log, x, entry);
      assert Has(s.nodes[v].log, x, entry) && Has(NodeAfter(cfg, s, a).log, x, entry);
      NodeAfterState(cfg, r, k);
      MonotoneNoneLate(cfg, r);
      LogTraced(cfg, r, k, k + 1, v);
      LogTraced(cfg, r, k + 1, k + 1, v);
      HasPrefix(r.states[k + 1].hist.leaderLog, s.nodes[v].log, p, NodeAfter(cfg, s, a).log, x, entry);
    }
  }

  lemma NodeAfterState(cfg: Config, r: Run, k: nat)
    requires StepAt(cfg, r, k)
    ensures Actor(r.acts[k]) in r.states[k + 1].nodes
    ensures r.states[k + 1].nodes[Actor(r.acts[k])] == NodeAfter(cfg, r.states[k], r.acts[k])
  {
    hide NodeAfter;
  }

  lemma KeepsEntryStep(cfg: Config, r: Run, k: nat, who: set<NodeId>, x: nat, entry: Entry)
    requires KeepsEntry(cfg, r, who, x, entry) && k < |r.acts|
    ensures KeepsEntryAt(cfg, r, k, who, x, entry)
  {
  }

  lemma {:induction false} CompleteHolds(cfg: Config, r: Run, k: nat, who: set<NodeId>, x: nat, entry: Entry, p: Log)
    requires ValidRun(cfg, r) && TermMonotone(r) && SendersLead(r) && KeepsEntry(cfg, r, who, x, entry)
    requires k < |r.states| && |p| == x + 1 && p[x] == entry
    ensures CompleteInv(r.states[k], who, p)
    decreases k
  {
    hide Init, Do, Enabled, Inv, TermsRise, CompleteInv, KeepsEntry, KeepsEntryAt, Basic, VoteInv, ElectInv, LogInv,
      KeepsLed, SentByLeader;
    if k == 0 {
      CompleteInit(cfg, r.states[0], who, p);
    } else {
      CompleteHolds(cfg, r, k - 1, who, x, entry, p);
      SendersHold(cfg, r, k - 1);
      KeepsEntryStep(cfg, r, k - 1, who, x, entry);
      KeepsLedAt(cfg, r, k - 1, who, x, entry, p);
      InvHolds(cfg, r, k - 1);
      InvHolds(cfg, r, k);
      InvParts(cfg, r.states[k - 1]);
      InvParts(cfg, r.states[k]);
      assert TermsRiseAt(r, k - 1);
      CompleteStep(cfg, r.states[k - 1], r.acts[k - 1], who, p);
    }
  }

  /** At moment `at`, node `v` was in the term of `entry` and held it at (0-based) position `x`. */
  ghost predicate HeldIn(r: Run, at: nat, v: NodeId, x: nat, entry: Entry) {
    && at < |r.states| && v in r.states[at].nodes
    && var n := r.states[at].nodes[v];
       n.term == entry.term && x < |n.log| && n.log[x] == entry
  }

  /** What `v` held at `at` is on record, and does not predate the initial log. */
  lemma HeldOnRecord(cfg: Config, r: Run, at: nat, v: NodeId, x: nat, entry: Entry)
    requires ValidRun(cfg, r) && TermMonotone(r) && HeldIn(r, at, v, x, entry)
    ensures Held(v, entry.term, r.states[at].nodes[v].log) in r.states[|r.states| - 1].hist.held
    ensures LastTerm(r.states[|r.states| - 1].hist.base) <= entry.term
  {
    hide Init, StepAt, Basic, VoteInv, ElectInv, TermMonotone, ValidRun, Good, WinLogInv;
    InvHolds(cfg, r, at);
    HeldNow(cfg, r.states[at], v);
    assert NodeLogInv(r.states[at], v);
    HistoryGrows(cfg, r, at, |r.states| - 1);
  }

  /** Two nodes that held the entry at the same place held the same log up to it. */
  lemma SamePrefix(cfg: Config, r: Run, i: nat, u: NodeId, j: nat, v: NodeId, x: nat, entry: Entry)
    requires ValidRun(cfg, r) && TermMonotone(r) && HeldIn(r, i, u, x, entry) && HeldIn(r, j, v, x, entry)
    ensures Marks(Held(v, entry.term, r.states[j].nodes[v].log), r.states[i].nodes[u].log[..x + 1])
  {
    hide ValidRun, TermMonotone;
    MonotoneNoneLate(cfg, r);
    LogMatching(cfg, r, i, j, u, v);
  }

  /** A leader's log contains the log it was elected with. */
  lemma LeaderExtendsWin(cfg: Config, s: State, n: NodeId, term: nat) returns (e: Election)
    requires ElectInv(cfg, s) && LogInv(s) && Leads(s, n, term)
    ensures e in s.hist.elections && e.term == term && e.log <= s.nodes[n].log
  {
    hide BallotInv, ElectionInv, Good;
    LeaderLogNow(cfg, s, n, term);
    e :| e in s.hist.elections && e.term == term && e.leader == n;
    assert WinLogInv(s, e);
  }

  /** The nodes of a majority that held the entry held one common log `p` up to it. */
  lemma CommonPrefix(cfg: Config, r: Run, at: map<NodeId, nat>, x: nat, entry: Entry)
    returns (p: Log, holders: map<NodeId, Held>)
    requires ValidRun(cfg, r) && TermMonotone(r) && Majority(at.Keys, cfg.Nodes()) && AllHeldIn(r, at, x, entry)
    ensures |p| == x + 1 && p[x] == entry && holders.Keys == at.Keys
    ensures LastTerm(r.states[|r.states| - 1].hist.base) <= entry.term
    ensures HeldBy(r.states[|r.states| - 1].hist, entry.term, p, holders)
  {
    var u := MajoritiesMeet(at.Keys, at.Keys, cfg.Nodes());
    hide ValidRun, TermMonotone, Majority, Marks, AllHeldIn;
    HeldAt(r, at, x, entry, u);
    HeldOnRecord(cfg, r, at[u], u, x, entry);
    p := LogAt(r, at[u], u)[..x + 1];
    holders := HoldersOf(r, at, entry.term);
    assert p[x] == entry;
    hide HeldIn, HoldersOf, LogAt, HoldsMark;
    forall v | v in holders ensures HoldsMark(r, holders, v, entry.term, p) {
      HolderMarks(cfg, r, at, x, entry, u, v, p, holders);
    }
    HoldersAll(r, entry.term, p, holders);
  }

  lemma HolderMarks(cfg: Config, r: Run, at: map<NodeId, nat>, x: nat, entry: Entry, u: NodeId, v: NodeId, p: Log,
                    holders: map<NodeId, Held>)
    requires ValidRun(cfg, r) && TermMonotone(r) && AllHeldIn(r, at, x, entry) && u in at && v in at
    requires |LogAt(r, at[u], u)| > x && p == LogAt(r, at[u], u)[..x + 1] && holders == HoldersOf(r, at, entry.term)
    ensures HoldsMark(r, holders, v, entry.term, p)
  {
    hide ValidRun, TermMonotone, AllHeldIn, Marks;
    HeldAt(r, at, x, entry, u);
    HeldAt(r, at, x, entry, v);
    Holder(cfg, r, at[u], u, at[v], v, x, entry);
  }

  lemma HoldersAll(r: Run, t: nat, p: Log, holders: map<NodeId, Held>)
    requires |r.states| > 0 && forall v | v in holders :: HoldsMark(r, holders, v, t, p)
    ensures HeldBy(r.states[|r.states| - 1].hist, t, p, holders)
  {
  }

  ghost predicate HoldsMark(r: Run, holders: map<NodeId, Held>, v: NodeId, t: nat, p: Log) {
    && |r.states| > 0 && v in holders && holders[v] in r.states[|r.states| - 1].hist.held
    && holders[v].node == v && holders[v].term == t && Marks(holders[v], p)
  }

  ghost function HoldersOf(r: Run, at: map<NodeId, nat>, t: nat): (holders: map<NodeId, Held>)
    ensures holders.Keys == at.Keys
    ensures forall v | v in at :: holders[v] == Held(v, t, LogAt(r, at[v], v))
  {
    map v | v in at :: Held(v, t, LogAt(r, at[v], v))
  }

  /** Every node of `at` held the entry at the moment given for it. */
  ghost predicate AllHeldIn(r: Run, at: map<NodeId, nat>, x: nat, entry: Entry) {
    forall v | v in at :: HeldIn(r, at[v], v, x, entry)
  }

  lemma HeldAt(r: Run, at: map<NodeId, nat>, x: nat, entry: Entry, v: NodeId)
    requires AllHeldIn(r, at, x, entry) && v in at
    ensures HeldIn(r, at[v], v, x, entry)
  {
  }

  ghost function LogAt(r: Run, k: nat, v: NodeId): Log {
    if k < |r.states| && v in r.states[k].nodes then r.states[k].nodes[v].log else []
  }

  lemma Holder(cfg: Config, r: Run, i: nat, u: NodeId, j: nat, v: NodeId, x: nat, entry: Entry)
    requires ValidRun(cfg, r) && TermMonotone(r) && HeldIn(r, i, u, x, entry) && HeldIn(r, j, v, x, entry)
    ensures var h := Held(v, entry.term, LogAt(r, j, v));
            h in r.states[|r.states| - 1].hist.held && Marks(h, r.states[i].nodes[u].log[..x + 1])
  {
    hide ValidRun, TermMonotone, Marks;
    HeldOnRecord(cfg, r, j, v, x, entry);
    SamePrefix(cfg, r, i, u, j, v, x, entry);
  }

  /** A leader's election is on record to the end of the run, and its log contains the one it was elected with. */
  lemma ElectionBehind(cfg: Config, r: Run, k: nat, n: NodeId, term: nat) returns (e: Election)
    requires ValidRun(cfg, r) && TermMonotone(r) && k < |r.states| && Leads(r.states[k], n, term)
    ensures e in r.states[|r.states| - 1].hist.elections && e.term == term && e.log <= r.states[k].nodes[n].log
  {
    hide Inv, TermMonotone, ValidRun, ElectInv, LogInv, Basic, VoteInv;
    InvHolds(cfg, r, k);
    InvParts(cfg, r.states[k]);
    e := LeaderExtendsWin(cfg, r.states[k], n, term);
    ElectionLasts(cfg, r, k, |r.states| - 1, e);
  }

  lemma WinnerHasMark(cfg: Config, r: Run, e: Election, t: nat, x: nat, entry: Entry, p: Log,
    holders: map<NodeId, Held>)
    requires ValidRun(cfg, r) && TermMonotone(r) && SendersLead(r) && KeepsEntry(cfg, r, holders.Keys, x, entry)
    requires |p| == x + 1 && p[x] == entry
    requires e in r.states[|r.states| - 1].hist.elections && e.term > t
    requires Majority(holders.Keys, cfg.Nodes()) && HeldBy(r.states[|r.states| - 1].hist, t, p, holders)
    requires LastTerm(r.states[|r.states| - 1].hist.base) <= t
    ensures p <= e.log
  {
    assert |r.states| == |r.acts| + 1;
    hide Inv, TermMonotone, ValidRun, ElectInv, LogInv, Basic, VoteInv, KeepsEntry, SendersLead, CompleteInv,
      Majority, HeldBy;
    InvHolds(cfg, r, |r.states| - 1);
    InvParts(cfg, r.states[|r.states| - 1]);
    CompleteHolds(cfg, r, |r.states| - 1, holders.Keys, x, entry, p);
    WinnerHas(cfg, r.states[|r.states| - 1], e, t, p, holders);
  }

  /** Leader Completeness: an entry that each node of a strict majority held, at some moment at which it was in the
      entry's term, is in the log of every leader of a later term. */
  lemma LeaderCompleteness(cfg: Config, r: Run, at: map<NodeId, nat>, x: nat, entry: Entry, k: nat, n: NodeId,
    term: nat)
    requires ValidRun(cfg, r) && TermMonotone(r) && SendersLead(r) && KeepsEntry(cfg, r, at.Keys, x, entry)
    requires k < |r.states| && Majority(at.Keys, cfg.Nodes()) && AllHeldIn(r, at, x, entry)
    requires Leads(r.states[k], n, term) && term > entry.term
    ensures x < |r.states[k].nodes[n].log| && r.states[k].nodes[n].log[x] == entry
  {
    hide TermMonotone, ValidRun, KeepsEntry, SendersLead, Majority, HeldBy, AllHeldIn;
    var p, holders := CommonPrefix(cfg, r, at, x, entry);
    var e := ElectionBehind(cfg, r, k, n, term);
    WinnerHasMark(cfg, r, e, entry.term, x, entry, p, holders);
  }
}
