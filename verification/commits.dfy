/** What a leader commits by the median stays: it is in the log of every leader of a later term. */
module Commits {
  import opened Types
  import opened Quorum
  import opened Median
  import opened NodeSteps
  import opened Cluster
  import opened AnyRun
  import opened Votes
  import opened Elections
  import opened Logs
  import opened Tracing
  import opened Runs
  import opened Majorities
  import opened Answers
  import opened Replication
  import opened Truncation

  // ----- Where a match index comes from

  /** In step `j`, session `sid` of node `i` credits a success. */
  ghost predicate CreditAt(r: Run, j: nat, i: NodeId, sid: nat) {
    && j < |r.acts| && j < |r.states| && Credits(r.states[j], r.acts[j])
    && Actor(r.acts[j]) == i && r.acts[j].appendAns.msg.sid == sid
  }

  /** The peer's next index is the one that the credited request was composed from. */
  ghost predicate InPlace(s: State, a: Action)
    requires Credits(s, a)
  {
    var v := a.appendAns;
    v.msg.to in s.nodes[Actor(a)].peers[v.msg.sid]
    && s.nodes[Actor(a)].peers[v.msg.sid][v.msg.to].next == v.msg.body.prevIndex + 1
  }

  /** Every success that the session credits in the first `k` steps is credited in place. */
  ghost predicate AllInPlace(r: Run, k: nat, i: NodeId, sid: nat) {
    forall j: nat | j < k && CreditAt(r, j, i, sid) :: InPlace(r.states[j], r.acts[j])
  }

  /** Before step `k`, peer `p` reported a log as long as `x`, equal to the log the request of session `sid` was
      composed from. */
  ghost predicate Source(r: Run, k: nat, i: NodeId, sid: nat, p: NodeId, x: nat, v: AppendAns) {
    && v.msg.to == p && v.msg.sid == sid && v.msg.body.leader == i
    && v.body.reason.Appended? && x == |v.logAfter| && v.logAfter == v.msg.snapshot
    && AnsweredBefore(r, k, v)
  }

  ghost predicate Matched(s: State, i: NodeId, sid: nat, p: NodeId, x: nat) {
    && i in s.nodes && sid in s.nodes[i].peers && p in s.nodes[i].peers[sid]
    && s.nodes[i].peers[sid][p].matched == Some(x)
  }

  /** A match index is new only when a success is credited. */
  lemma MatchMoves(cfg: Config, s: State, a: Action, i: NodeId, sid: nat, p: NodeId, x: nat)
    requires Enabled(cfg, s, a) && Matched(Do(cfg, s, a), i, sid, p, x)
    requires a.TakeAppendAns? ==> a.appendAns.body.id == a.appendAns.msg.to
    ensures || Matched(s, i, sid, p, x)
            || (&& Credits(s, a) && Actor(a) == i && a.appendAns.msg.sid == sid && a.appendAns.msg.to == p
                && p in s.nodes[i].peers[sid] && x + 1 == s.nodes[i].peers[sid][p].next + a.appendAns.body.len)
  {
    hide Advance;
  }

  lemma CreditedSource(cfg: Config, r: Run, k: nat, i: NodeId, sid: nat, p: NodeId, x: nat)
    requires ValidRun(cfg, r) && NoLateFalls(cfg, r) && CreditAt(r, k, i, sid) && InPlace(r.states[k], r.acts[k])
    requires r.acts[k].appendAns.msg.to == p
    requires x + 1 == r.states[k].nodes[i].peers[sid][p].next + r.acts[k].appendAns.body.len
    ensures Source(r, k, i, sid, p, x, r.acts[k].appendAns)
  {
    hide Init, NodeInv, VoteMsgInv, VoteAnsInv, NoLateFalls, AppendAnsweredAt;
    var v := r.acts[k].appendAns;
    assert StepAt(cfg, r, k);
    BasicHolds(cfg, r, k);
    assert v in r.states[k].appendAnswers;
    assert AppendAnsInv(r.states[k], v) && AppendMsgInv(r.states[k], v.msg);
    hide Do, Enabled, Basic;
    AnswersMatch(cfg, r, k);
    AppendAnswerGiven(cfg, r, k, v);
  }

  lemma AnswerId(cfg: Config, s: State, a: Action)
    requires Basic(cfg, s) && Enabled(cfg, s, a) && a.TakeAppendAns?
    ensures a.appendAns.body.id == a.appendAns.msg.to
  {
    assert AppendAnsInv(s, a.appendAns);
  }

  /** Behind every match index of a session that credits in place stands a report of that length. */
  lemma {:induction false} MatchSource(cfg: Config, r: Run, k: nat, i: NodeId, sid: nat, p: NodeId, x: nat)
    returns (v: AppendAns)
    requires ValidRun(cfg, r) && NoLateFalls(cfg, r) && k < |r.states| && AllInPlace(r, k, i, sid)
    requires Matched(r.states[k], i, sid, p, x)
    ensures Source(r, k, i, sid, p, x, v)
  {
    hide Do, Enabled, Basic, NoLateFalls, Matched, InPlace, AppendAnsweredAt, Panics;
    if k == 0 {
      NothingMatched(cfg, r.states[0], i, sid, p, x);
    } else {
      assert StepAt(cfg, r, k - 1);
      BasicHolds(cfg, r, k - 1);
      if r.acts[k - 1].TakeAppendAns? { AnswerId(cfg, r.states[k - 1], r.acts[k - 1]); }
      MatchMoves(cfg, r.states[k - 1], r.acts[k - 1], i, sid, p, x);
      if Matched(r.states[k - 1], i, sid, p, x) {
        v := MatchSource(cfg, r, k - 1, i, sid, p, x);
      } else {
        assert CreditAt(r, k - 1, i, sid);
        v := r.acts[k - 1].appendAns;
        CreditedSource(cfg, r, k - 1, i, sid, p, x);
      }
      var j: nat :| j < k - 1 && AppendAnsweredAt(r, j, v);
      assert j < k && AppendAnsweredAt(r, j, v);
    }
  }

  lemma NothingMatched(cfg: Config, s: State, i: NodeId, sid: nat, p: NodeId, x: nat)
    requires Init(cfg, s)
    ensures !Matched(s, i, sid, p, x)
  {
    if i in s.nodes { assert FreshNode(s.nodes[i], s.hist.base); }
  }

  // ----- Whoever stands behind the median held the entry

  /** In step `k`, the live session `sid` of leader `i` moves the commit index, with enough peers reported, and has
      credited every success in place. */
  ghost predicate CommitsAt(r: Run, k: nat, i: NodeId, sid: nat) {
    && CreditAt(r, k, i, sid) && LiveLeader(r.states[k].nodes[i], r.acts[k].appendAns) && AllInPlace(r, k + 1, i, sid)
    && k + 1 < |r.states| && i in r.states[k + 1].nodes && sid in r.states[k + 1].nodes[i].peers
    && r.states[k + 1].nodes[i].commit != r.states[k].nodes[i].commit
    && var table := r.states[k + 1].nodes[i].peers[sid]; EnoughReports(|Reported(table)|, |table| + 1)
  }

  /** The peers whose match index reaches what the step commits, and the leader. */
  ghost function Backers(r: Run, k: nat, i: NodeId, sid: nat): set<NodeId>
    requires CommitsAt(r, k, i, sid)
  {
    var n := r.states[k + 1].nodes[i];
    Holding(n.peers[sid], n.commit) + {i}
  }

  lemma CommitEntry(cfg: Config, r: Run, k: nat, i: NodeId, sid: nat)
    requires ValidRun(cfg, r) && CommitsAt(r, k, i, sid)
    ensures var (n, n') := (r.states[k].nodes[i], r.states[k + 1].nodes[i]);
            && n'.log == n.log && n'.term == n.term && n.role.Leader?
            && 0 < n'.commit <= |n.log| && n.log[n'.commit - 1].term == n.term
            && Reported(n'.peers[sid]) != {} && n'.commit == MedianMatch(n'.peers[sid])
  {
    hide Init, MedianMatch, AllInPlace;
    assert StepAt(cfg, r, k);
    CommitMove(cfg, r.states[k], r.acts[k]);
    CommitKeeps(cfg, r.states[k], r.acts[k]);
    NodeAfterState(cfg, r, k);
    hide Do, Enabled, NodeAfter;
  }

  lemma CommitKeeps(cfg: Config, s: State, a: Action)
    requires Enabled(cfg, s, a) && Credits(s, a)
    ensures NodeAfter(cfg, s, a).log == s.nodes[Actor(a)].log && NodeAfter(cfg, s, a).term == s.nodes[Actor(a)].term
  {
    hide Advance;
  }

  lemma BackersMajority(cfg: Config, r: Run, k: nat, i: NodeId, sid: nat)
    requires ValidRun(cfg, r) && CommitsAt(r, k, i, sid)
    ensures Majority(Backers(r, k, i, sid), cfg.Nodes())
  {
    hide ValidRun, MedianMatch, CreditAt, AllInPlace, LiveLeader, Reported, Holding;
    CommitEntry(cfg, r, k, i, sid);
    TablesHold(cfg, r, k + 1);
    NodesFixed(cfg, r, k + 1);
    ConfigValid(cfg, r);
    OthersAndSelf(cfg, i);
    var table := r.states[k + 1].nodes[i].peers[sid];
    MedianRank(table, 0);
    BackersCount(cfg, i, table, r.states[k + 1].nodes[i].commit);
  }

  lemma BackersCount(cfg: Config, i: NodeId, table: Peers, x: nat)
    requires table.Keys + {i} == cfg.Nodes() && i !in table && 2 * (|Holding(table, x)| + 1) > |table| + 1
    ensures Majority(Holding(table, x) + {i}, cfg.Nodes())
  {
    assert |Holding(table, x) + {i}| == |Holding(table, x)| + 1;
    assert |table.Keys + {i}| == |table| + 1;
  }

  /** A request of the live session carries the leader's term, and was composed from a part of its log. */
  lemma LiveRequest(cfg: Config, r: Run, k: nat, i: NodeId, sid: nat, m: AppendMsg)
    requires ValidRun(cfg, r) && TermMonotone(r) && SendersLead(r) && k < |r.states| && m in r.states[k].appendMsgs
    requires m.body.leader == i && m.sid == sid
    requires i in r.states[k].nodes && r.states[k].nodes[i].role.Leader? && r.states[k].nodes[i].repl == Some(sid)
    ensures m.body.term == r.states[k].nodes[i].term && m.snapshot <= r.states[k].nodes[i].log
  {
    hide ValidRun, TermMonotone, SendersLead, LogInv, VoteInv, ElectInv, NodeInv, VoteMsgInv, VoteAnsInv, AppendAnsInv;
    InvHolds(cfg, r, k);
    SnapshotHolds(cfg, r, k);
    assert AppendMsgInv(r.states[k], m);
    LeaderLogNow(cfg, r.states[k], i, r.states[k].nodes[i].term);
  }

  /** A request that was taken has been sent. */
  lemma TakenSent(cfg: Config, r: Run, j: nat, k: nat, v: AppendAns)
    requires ValidRun(cfg, r) && AppendAnsweredAt(r, j, v) && j <= k < |r.states|
    ensures v.msg in r.states[k].appendMsgs
  {
    hide Init, Do;
    assert StepAt(cfg, r, j);
    HistoryGrows(cfg, r, j, k);
  }

  ghost predicate HeldEver(r: Run, v: NodeId, x: nat, entry: Entry) {
    exists j: nat :: HeldIn(r, j, v, x, entry)
  }

  lemma BackerHeld(cfg: Config, r: Run, k: nat, i: NodeId, sid: nat, p: NodeId)
    requires ValidRun(cfg, r) && TermMonotone(r) && SendersLead(r)
    requires CommitsAt(r, k, i, sid) && p in Backers(r, k, i, sid)
    ensures var n' := r.states[k + 1].nodes[i];
            0 < n'.commit <= |n'.log| && HeldEver(r, p, n'.commit - 1, n'.log[n'.commit - 1])
  {
    CommitEntry(cfg, r, k, i, sid);
    var n := r.states[k].nodes[i];
    var c := r.states[k + 1].nodes[i].commit;
    hide ValidRun, TermMonotone, SendersLead, MedianMatch, Credits, AllInPlace, Reported, NoLateFalls;
    if p == i {
      assert HeldIn(r, k, i, c - 1, n.log[c - 1]);
    } else {
      var x := r.states[k + 1].nodes[i].peers[sid][p].matched.value;
      MonotoneNoneLate(cfg, r);
      var v := MatchSource(cfg, r, k + 1, i, sid, p, x);
      var j: nat :| j < k + 1 && AppendAnsweredAt(r, j, v);
      TakenSent(cfg, r, j, k, v);
      LiveRequest(cfg, r, k, i, sid, v.msg);
      assert HeldIn(r, j + 1, p, c - 1, n.log[c - 1]);
    }
  }

  ghost function MomentsOf(r: Run, who: set<NodeId>, x: nat, entry: Entry): (at: map<NodeId, nat>)
    requires forall p | p in who :: HeldEver(r, p, x, entry)
    ensures at.Keys == who && AllHeldIn(r, at, x, entry)
  {
    map p | p in who :: MomentOf(r, p, x, entry)
  }

  ghost function MomentOf(r: Run, p: NodeId, x: nat, entry: Entry): (j: nat)
    requires HeldEver(r, p, x, entry)
    ensures HeldIn(r, j, p, x, entry)
  {
    var j: nat :| HeldIn(r, j, p, x, entry);
    j
  }

  /** An entry that a leader commits by the median is in the log of every leader of a later term, if the session is live
      and credits in place, enough peers have reported, and no accepted append takes the entry from those behind it. */
  lemma CommittedLasts(cfg: Config, r: Run, k: nat, i: NodeId, sid: nat, j: nat, n: NodeId, term: nat)
    requires ValidRun(cfg, r) && TermMonotone(r) && SendersLead(r) && CommitsAt(r, k, i, sid)
    requires var n' := r.states[k + 1].nodes[i];
             0 < n'.commit <= |n'.log| ==>
               KeepsEntry(cfg, r, Backers(r, k, i, sid), n'.commit - 1, n'.log[n'.commit - 1])
    requires j < |r.states| && Leads(r.states[j], n, term) && term > r.states[k].nodes[i].term
    ensures var n' := r.states[k + 1].nodes[i];
            && 0 < n'.commit <= |n'.log| && n'.commit <= |r.states[j].nodes[n].log|
            && r.states[j].nodes[n].log[n'.commit - 1] == n'.log[n'.commit - 1]
  {
    hide ValidRun, TermMonotone, SendersLead, CreditAt, KeepsEntry, Majority, HeldEver, AllHeldIn, HeldIn, MedianMatch,
      AllInPlace, LiveLeader, Backers, Leads, Reported;
    CommitEntry(cfg, r, k, i, sid);
    var n' := r.states[k + 1].nodes[i];
    var (x, entry) := (n'.commit - 1, n'.log[n'.commit - 1]);
    BackersMajority(cfg, r, k, i, sid);
    forall p | p in Backers(r, k, i, sid) ensures HeldEver(r, p, x, entry) { BackerHeld(cfg, r, k, i, sid, p); }
    var at := MomentsOf(r, Backers(r, k, i, sid), x, entry);
    LeaderCompleteness(cfg, r, at, x, entry, j, n, term);
  }
}
