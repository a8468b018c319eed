/** When a replication session finds a peer to update: only if the commit index rose since the session opened. */
module Staleness {
  import opened Types
  import opened Median
  import opened NodeSteps
  import opened Cluster
  import opened AnyRun
  import opened Truncation

  /** Step `j` opens session `sid` of node `i`. */
  ghost predicate OpensAt(r: Run, j: nat, i: NodeId, sid: nat) {
    && j < |r.acts| && j < |r.states| && r.acts[j] == StartReplication(i)
    && i in r.states[j].nodes && sid == r.states[j].nodes[i].epoch + 1
  }

  /** The table of a new session. */
  ghost function FreshTable(others: set<NodeId>, commit: nat): Peers {
    map p | p in others :: Progress(commit + 1, None)
  }

  ghost predicate SendsFor(a: Action, i: NodeId, sid: nat) {
    a.SendEntries? && a.n == i && a.sid == sid
  }

  /** The session has sent no replication request between the two moments. */
  ghost predicate Quiet(r: Run, j: nat, k: nat, i: NodeId, sid: nat) {
    forall l: nat | j < l < k && l < |r.acts| :: !SendsFor(r.acts[l], i, sid)
  }

  /** The session has its table as yet, and nothing but heartbeats on their way. */
  ghost predicate Untouched(s: State, i: NodeId, sid: nat, table: Peers) {
    && i in s.nodes && sid in s.nodes[i].peers && s.nodes[i].peers[sid] == table
    && forall m | m in s.appendMsgs && m.body.leader == i && m.sid == sid :: m.heartbeat
  }

  lemma OpenedUntouched(cfg: Config, s: State, a: Action)
    requires Basic(cfg, s) && Enabled(cfg, s, a) && a.StartReplication?
    ensures Untouched(Do(cfg, s, a), a.n, s.nodes[a.n].epoch + 1, FreshTable(cfg.Others(a.n), s.nodes[a.n].commit))
    ensures Do(cfg, s, a).nodes[a.n].commit == s.nodes[a.n].commit
  {
    hide NodeInv, VoteMsgInv, VoteAnsInv, AppendAnsInv;
    forall m | m in s.appendMsgs ensures m.body.leader == a.n ==> m.sid != s.nodes[a.n].epoch + 1 {
      assert AppendMsgInv(s, m);
    }
  }

  /** What the step does to the table of session `sid`. */
  lemma TableMoves(cfg: Config, s: State, a: Action, sid: nat)
    requires Enabled(cfg, s, a) && sid in s.nodes[Actor(a)].peers && sid <= s.nodes[Actor(a)].epoch
    ensures var n' := NodeAfter(cfg, s, a);
            && sid in n'.peers
            && (n'.peers[sid] == s.nodes[Actor(a)].peers[sid] ||
                (a.TakeAppendAns? && a.appendAns.msg.sid == sid
                 && (a.appendAns.msg.heartbeat ==> a.appendAns.body.reason.LogMismatch?)))
  {
    hide Advance, Credit, BackOff;
  }

  lemma NewAppends(cfg: Config, s: State, a: Action, m: AppendMsg)
    requires Enabled(cfg, s, a) && m in AppendMsgsAfter(cfg, s, a)
    ensures m in s.appendMsgs || m.heartbeat || SendsFor(a, m.body.leader, m.sid)
  {
  }

  lemma TableStays(cfg: Config, s: State, a: Action, i: NodeId, sid: nat, table: Peers)
    requires Basic(cfg, s) && Enabled(cfg, s, a) && (forall v | v in s.appendAnswers :: Emptied(v))
    requires Untouched(s, i, sid, table) && i == Actor(a)
    ensures sid in NodeAfter(cfg, s, a).peers && NodeAfter(cfg, s, a).peers[sid] == table
  {
    hide NodeAfter, VoteMsgInv, VoteAnsInv, AppendMsgInv;
    assert NodeInv(cfg, s, i);
    TableMoves(cfg, s, a, sid);
    if a.TakeAppendAns? { assert AppendAnsInv(s, a.appendAns) && Emptied(a.appendAns); }
  }

  lemma UntouchedStep(cfg: Config, s: State, a: Action, i: NodeId, sid: nat, table: Peers)
    requires Basic(cfg, s) && Enabled(cfg, s, a) && (forall v | v in s.appendAnswers :: Emptied(v))
    requires Untouched(s, i, sid, table) && !SendsFor(a, i, sid)
    ensures Untouched(Do(cfg, s, a), i, sid, table)
  {
    var s' := Do(cfg, s, a);
    hide NodeAfter, Basic, Emptied, SendsFor, AppendMsgsAfter, Enabled;
    if i == Actor(a) { TableStays(cfg, s, a, i, sid, table); }
    FrameHolds(cfg, s, a);
    forall m | m in s'.appendMsgs && m.body.leader == i && m.sid == sid ensures m.heartbeat {
      NewAppends(cfg, s, a, m);
    }
  }

  lemma {:induction false} UntouchedHolds(cfg: Config, r: Run, j: nat, k: nat, i: NodeId, sid: nat)
    requires ValidRun(cfg, r) && OpensAt(r, j, i, sid) && j < k < |r.states| && Quiet(r, j, k, i, sid)
    requires i in cfg.members
    ensures Untouched(r.states[k], i, sid, FreshTable(cfg.Others(i), r.states[j].nodes[i].commit))
    decreases k
  {
    hide Init, Do, Enabled, Basic, Untouched, Emptied, SendsFor;
    assert StepAt(cfg, r, k - 1);
    BasicHolds(cfg, r, k - 1);
    if k == j + 1 {
      OpenedUntouched(cfg, r.states[j], r.acts[j]);
    } else {
      UntouchedHolds(cfg, r, j, k - 1, i, sid);
      HeartbeatsEmpty(cfg, r, k - 1);
      assert !SendsFor(r.acts[k - 1], i, sid);
      UntouchedStep(cfg, r.states[k - 1], r.acts[k - 1], i, sid,
                    FreshTable(cfg.Others(i), r.states[j].nodes[i].commit));
    }
  }

  /** In every run: when the standby update of a session looks for stale peers, every peer is stale if the node's commit
      index rose since the session opened, and none is if it did not. */
  lemma StaleIffRisen(cfg: Config, r: Run, j: nat, k: nat, i: NodeId, sid: nat, p: NodeId)
    requires ValidRun(cfg, r) && OpensAt(r, j, i, sid) && j < k < |r.states| && Quiet(r, j, k, i, sid)
    requires i in cfg.members && p in cfg.Others(i)
    ensures i in r.states[k].nodes && sid in r.states[k].nodes[i].peers
    ensures Stale(r.states[k].nodes[i].peers[sid], p, r.states[k].nodes[i].commit) <==>
              r.states[k].nodes[i].commit > r.states[j].nodes[i].commit
  {
    hide ValidRun, Quiet;
    UntouchedHolds(cfg, r, j, k, i, sid);
  }

  // ----- A session that looks for stale peers as it opens

  /** The request that step `l` sends, if any, goes to a peer that was stale when its session opened. */
  ghost predicate ToStaleAt(r: Run, l: nat) {
    l < |r.acts| &&
    (r.acts[l].SendEntries? ==>
       exists j: nat | j < l && j + 1 < |r.states| :: OpenedStale(r, j, r.acts[l].n, r.acts[l].sid, r.acts[l].to))
  }

  /** Step `j` opens the session, and peer `p` is stale right after. */
  ghost predicate OpenedStale(r: Run, j: nat, i: NodeId, sid: nat, p: NodeId) {
    && OpensAt(r, j, i, sid) && j + 1 < |r.states|
    && i in r.states[j + 1].nodes && sid in r.states[j + 1].nodes[i].peers
    && Stale(r.states[j + 1].nodes[i].peers[sid], p, r.states[j + 1].nodes[i].commit)
  }

  /** Run hypothesis: every session opens and looks for stale peers in one step. */
  ghost predicate StartsAtOnce(r: Run) {
    forall l: nat | l < |r.acts| :: ToStaleAt(r, l)
  }

  lemma NoneStaleAtOpening(cfg: Config, r: Run, j: nat, i: NodeId, sid: nat, p: NodeId)
    requires ValidRun(cfg, r)
    ensures !OpenedStale(r, j, i, sid, p)
  {
    hide Init, Basic, Untouched;
    if OpenedStale(r, j, i, sid, p) {
      assert StepAt(cfg, r, j);
      BasicHolds(cfg, r, j);
      OpenedUntouched(cfg, r.states[j], r.acts[j]);
      TableOf(r.states[j + 1], i, sid, FreshTable(cfg.Others(i), r.states[j].nodes[i].commit));
    }
  }

  lemma TableOf(s: State, i: NodeId, sid: nat, table: Peers)
    requires Untouched(s, i, sid, table)
    ensures i in s.nodes && sid in s.nodes[i].peers && s.nodes[i].peers[sid] == table
  {
  }

  ghost predicate OnlyHeartbeats(s: State, first: State) {
    && (forall m | m in s.appendMsgs :: m.heartbeat)
    && (forall i | i in s.nodes && i in first.nodes :: s.nodes[i].commit <= first.nodes[i].commit)
  }

  lemma OnlyHeartbeatsStep(cfg: Config, s: State, a: Action, first: State)
    requires Basic(cfg, s) && Enabled(cfg, s, a) && OnlyHeartbeats(s, first) && !a.SendEntries?
    ensures OnlyHeartbeats(Do(cfg, s, a), first)
  {
    var s' := Do(cfg, s, a);
    hide NodeAfter, Basic, AppendMsgsAfter, Enabled;
    CommitStays(cfg, s, a, first);
    FrameHolds(cfg, s, a);
    forall m | m in s'.appendMsgs ensures m.heartbeat { NewAppends(cfg, s, a, m); }
  }

  lemma CommitStays(cfg: Config, s: State, a: Action, first: State)
    requires Basic(cfg, s) && Enabled(cfg, s, a) && OnlyHeartbeats(s, first)
    ensures NodeAfter(cfg, s, a).commit <= s.nodes[Actor(a)].commit
  {
    hide NodeInv, VoteMsgInv, VoteAnsInv, Advance;
    if a.TakeAppend? { assert AppendMsgInv(s, a.append); }
    if a.TakeAppendAns? { assert AppendAnsInv(s, a.appendAns); }
  }

  /** If every session looks for stale peers as it opens, then no replication request is ever sent and no commit index
      ever rises, whatever the nodes start with. */
  lemma {:induction false} NothingSent(cfg: Config, r: Run, k: nat)
    requires ValidRun(cfg, r) && StartsAtOnce(r) && k < |r.states|
    ensures OnlyHeartbeats(r.states[k], r.states[0])
    ensures forall l: nat | l < k :: !r.acts[l].SendEntries?
  {
    hide Do, Enabled, Basic, OpenedStale, OnlyHeartbeats;
    if k == 0 {
      NothingSentYet(cfg, r.states[0]);
    } else {
      NothingSent(cfg, r, k - 1);
      BasicHolds(cfg, r, k - 1);
      assert StepAt(cfg, r, k - 1) && ToStaleAt(r, k - 1);
      if r.acts[k - 1].SendEntries? {
        var a := r.acts[k - 1];
        var j: nat :| j < k - 1 && j + 1 < |r.states| && OpenedStale(r, j, a.n, a.sid, a.to);
        NoneStaleAtOpening(cfg, r, j, a.n, a.sid, a.to);
      }
      OnlyHeartbeatsStep(cfg, r.states[k - 1], r.acts[k - 1], r.states[0]);
    }
  }

  lemma NothingSentYet(cfg: Config, s: State)
    requires Init(cfg, s)
    ensures OnlyHeartbeats(s, s)
  {
  }
}
