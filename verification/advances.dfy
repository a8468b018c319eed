/** What the answers to append requests do to the progress table of their session and to the commit index. */
module Advances {
  import opened Types
  import opened Median
  import opened NodeSteps
  import opened Cluster
  import opened AnyRun
  import opened Answers
  import opened Replication

  // ----- One answer

  /** The commit index moves to the index of the median's rank in the table if that is higher and the log has an
      entry of the leader's term there, and stays otherwise. */
  ghost predicate CommitRule(n: Node, table: Peers, commit': nat) {
    exists x: nat :: Middle(table, x) && commit' == if n.commit < x && OwnEntry(n.log, n.term, x) then x else n.commit
  }

  /** Nothing but one entry of one progress table changes, and the commit index. */
  ghost predicate EntryBecomes(n: Node, sid: nat, p: NodeId, e: Progress, n': Node) {
    && sid in n.peers
    && var table: Peers := n.peers[sid][p := e];
       n' == n.(peers := n.peers[sid := table], commit := n'.commit)
  }

  /** What the answer `v` to a request of session `sid` makes of a leader.  A mismatch lowers the next index of its
      sender by one.  The success of a replication request sets the match index, adds the new next index to the old
      one, and applies the commit rule; that of a heartbeat does nothing.  What would take an index below zero does
      nothing. */
  ghost predicate AnswerEffect(n: Node, sid: nat, heartbeat: bool, v: AppendResponse, n': Node)
    requires sid in n.peers && v.id in n.peers[sid]
  {
    var was := n.peers[sid][v.id];
    match v.reason
    case StaleLeader => n' == n.(term := v.term, role := Follower)
    case LogMismatch =>
      if was.next == 0 then n' == n
      else EntryBecomes(n, sid, v.id, Progress(was.next - 1, was.matched), n') && n'.commit == n.commit
    case Appended =>
      if heartbeat || was.next + v.len == 0 then n' == n
      else
        && EntryBecomes(n, sid, v.id, Progress(was.next + was.next + v.len, Some(was.next + v.len - 1)), n')
        && CommitRule(n, n'.peers[sid], n'.commit)
  }

  lemma AnswerHasEffect(n: Node, sid: nat, v: AppendResponse)
    requires sid in n.peers && v.id in n.peers[sid]
    ensures AnswerEffect(n, sid, false, v, OnEntriesReply(n, sid, v))
    ensures AnswerEffect(n, sid, true, v, OnHeartbeatReply(n, sid, v))
  {
    hide Advance, Middle;
    if v.reason.Appended? && n.peers[sid][v.id].next + v.len > 0 {
      var table := Credit(n.peers[sid], v.id, v.len);
      assert v.id in Reported(table);
      AdvanceExactly(n, table);
    }
  }

  lemma AdvanceExactly(n: Node, table: Peers)
    requires Reported(table) != {}
    ensures CommitRule(n, table, Advance(n, table))
  {
    hide Middle, MedianMatch;
    MedianIsMiddle(table, MedianMatch(table));
  }

  /** The commit rule has one outcome. */
  lemma CommitRuleExactly(n: Node, table: Peers, commit': nat, x: nat)
    requires Reported(table) != {} && CommitRule(n, table, commit')
    ensures commit' >= n.commit
    ensures commit' == x > n.commit <==> Middle(table, x) && x > n.commit && OwnEntry(n.log, n.term, x)
    ensures Reported(table) == table.Keys ==>
              (commit' == x > n.commit <==>
               LargestHeld(table, |table| + 1, x) && x > n.commit && OwnEntry(n.log, n.term, x))
  {
    hide Middle, LargestHeld, OwnEntry, MedianMatch;
    var y: nat :| Middle(table, y) && commit' == if n.commit < y && OwnEntry(n.log, n.term, y) then y else n.commit;
    MedianIsMiddle(table, x);
    MedianIsMiddle(table, y);
    if Reported(table) == table.Keys { MiddleIsLargest(table, x); }
  }

  // ----- In every run

  ghost predicate SessionKnown(cfg: Config, s: State, m: AppendMsg) {
    && m.body.leader in s.nodes && m.sid in s.nodes[m.body.leader].peers
    && m.body.leader in cfg.members && m.to in cfg.Others(m.body.leader)
  }

  lemma SessionsKnownStep(cfg: Config, s: State, a: Action, m: AppendMsg)
    requires Enabled(cfg, s, a) && m in Do(cfg, s, a).appendMsgs
    requires m in s.appendMsgs ==> SessionKnown(cfg, s, m)
    ensures SessionKnown(cfg, Do(cfg, s, a), m)
  {
    hide Advance, Credit, BackOff;
  }

  lemma {:induction false} SessionsKnown(cfg: Config, r: Run, k: nat, m: AppendMsg)
    requires ValidRun(cfg, r) && k < |r.states| && m in r.states[k].appendMsgs
    ensures SessionKnown(cfg, r.states[k], m)
  {
    hide Init, Do, Enabled, SessionKnown;
    if k == 0 {
      NothingInFlight(cfg, r.states[0]);
    } else {
      if m in r.states[k - 1].appendMsgs { SessionsKnown(cfg, r, k - 1, m); }
      assert StepAt(cfg, r, k - 1);
      SessionsKnownStep(cfg, r.states[k - 1], r.acts[k - 1], m);
    }
  }

  /** The answer that is handled in step `k`, by a node and a session that exist, and what it does to them. */
  ghost predicate HandledAt(r: Run, k: nat, v: AppendAns) {
    && k + 1 < |r.states| && v.body.id == v.msg.to
    && v.msg.body.leader in r.states[k].nodes && v.msg.body.leader in r.states[k + 1].nodes
    && var (n, n') := (r.states[k].nodes[v.msg.body.leader], r.states[k + 1].nodes[v.msg.body.leader]);
       && v.msg.sid in n.peers && v.msg.to in n.peers[v.msg.sid]
       && AnswerEffect(n, v.msg.sid, v.msg.heartbeat, v.body, n')
       && r.states[k + 1].nodes == r.states[k].nodes[v.msg.body.leader := n']
  }

  /** In every run every answer has its effect, on the node and session whose request it answers, and on no others. */
  lemma AnswersTakeEffect(cfg: Config, r: Run, k: nat, v: AppendAns)
    requires ValidRun(cfg, r) && k < |r.acts| && r.acts[k] == TakeAppendAns(v)
    ensures HandledAt(r, k, v)
  {
    hide Init, NodeInv, VoteMsgInv, VoteAnsInv, AppendMsgInv, AnswerEffect;
    assert StepAt(cfg, r, k);
    BasicHolds(cfg, r, k);
    assert AppendAnsInv(r.states[k], v);
    SessionsKnown(cfg, r, k, v.msg);
    TablesHold(cfg, r, k);
    hide Basic, TablesInv;
    var n := r.states[k].nodes[v.msg.body.leader];
    assert v.msg.to in n.peers[v.msg.sid] by { TableLists(cfg, r.states[k], v.msg.body.leader, v.msg.sid); }
    AnswerHasEffect(n, v.msg.sid, v.body);
    hide OnEntriesReply, OnHeartbeatReply;
  }

  lemma TableLists(cfg: Config, s: State, i: NodeId, sid: nat)
    requires TablesInv(cfg, s) && i in s.nodes && i in cfg.members && sid in s.nodes[i].peers
    ensures s.nodes[i].peers[sid].Keys == cfg.Others(i)
  {
  }

  /** The leader `i` of step `k`, before and after it credits a success to session `sid`. */
  ghost predicate CreditedTable(r: Run, k: nat, i: NodeId, sid: nat, p: NodeId) {
    && k + 1 < |r.states| && i in r.states[k].nodes && i in r.states[k + 1].nodes
    && sid in r.states[k + 1].nodes[i].peers
    && p in Reported(r.states[k + 1].nodes[i].peers[sid])
    && CommitRule(r.states[k].nodes[i], r.states[k + 1].nodes[i].peers[sid], r.states[k + 1].nodes[i].commit)
  }

  lemma CreditFollowsRule(cfg: Config, r: Run, k: nat, v: AppendAns)
    requires ValidRun(cfg, r) && k < |r.acts| && r.acts[k] == TakeAppendAns(v) && Credits(r.states[k], r.acts[k])
    ensures CreditedTable(r, k, v.msg.body.leader, v.msg.sid, v.msg.to)
  {
    hide ValidRun, CommitRule;
    AnswersTakeEffect(cfg, r, k, v);
  }

  lemma TableSize(cfg: Config, r: Run, k: nat, i: NodeId, sid: nat)
    requires ValidRun(cfg, r) && k < |r.states| && i in r.states[k].nodes && sid in r.states[k].nodes[i].peers
    ensures |r.states[k].nodes[i].peers[sid]| + 1 == |cfg.Nodes()|
  {
    hide ValidRun, TablesInv;
    TablesHold(cfg, r, k);
    NodesFixed(cfg, r, k);
    ConfigValid(cfg, r);
    OthersAndSelf(cfg, i);
    var table := r.states[k].nodes[i].peers[sid];
    TableLists(cfg, r.states[k], i, sid);
    assert |table.Keys + {i}| == |table.Keys| + 1;
  }

  /** In every run, whether the commit index moves when a success is credited, and where to: to the index of the
      median's rank, which is the largest that a strict majority holds once every peer has reported, if it is higher
      and the leader has an entry of its term there. */
  lemma CommitsExactly(cfg: Config, r: Run, k: nat, v: AppendAns, x: nat)
    requires ValidRun(cfg, r) && k < |r.acts| && r.acts[k] == TakeAppendAns(v) && Credits(r.states[k], r.acts[k])
    ensures CreditedTable(r, k, v.msg.body.leader, v.msg.sid, v.msg.to)
    ensures var (n, n') := (r.states[k].nodes[v.msg.body.leader], r.states[k + 1].nodes[v.msg.body.leader]);
            var table := n'.peers[v.msg.sid];
            && n'.commit >= n.commit
            && (n'.commit == x > n.commit <==> Middle(table, x) && x > n.commit && OwnEntry(n.log, n.term, x))
            && (Reported(table) == table.Keys ==>
                  (n'.commit == x > n.commit <==>
                   LargestHeld(table, |cfg.Nodes()|, x) && x > n.commit && OwnEntry(n.log, n.term, x)))
  {
    hide ValidRun, Middle, LargestHeld, CommitRule, OwnEntry, Credits, Reported;
    CreditFollowsRule(cfg, r, k, v);
    TableSize(cfg, r, k + 1, v.msg.body.leader, v.msg.sid);
    var (n, n') := (r.states[k].nodes[v.msg.body.leader], r.states[k + 1].nodes[v.msg.body.leader]);
    assert Reported(n'.peers[v.msg.sid]) != {};
    CommitRuleExactly(n, n'.peers[v.msg.sid], n'.commit, x);
  }
}
