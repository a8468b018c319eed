/** What a replication session may conclude from a successful reply. */
module Replication {
  import opened Types
  import opened Quorum
  import opened Median
  import opened NodeSteps
  import opened Cluster
  import opened AnyRun
  import opened Logs
  import opened Tracing
  import opened Answers

  // ----- Progress tables

  ghost predicate TablesInv(cfg: Config, s: State) {
    forall i, sid | i in s.nodes && i in cfg.members && sid in s.nodes[i].peers ::
      s.nodes[i].peers[sid].Keys == cfg.Others(i)
  }

  lemma TablesStep(cfg: Config, s: State, a: Action)
    requires Enabled(cfg, s, a) && TablesInv(cfg, s)
    ensures TablesInv(cfg, Do(cfg, s, a))
  {
    hide Advance;
  }

  /** Every progress table ever opened lists exactly the other nodes of the membership map. */
  lemma {:induction false} TablesHold(cfg: Config, r: Run, k: nat)
    requires ValidRun(cfg, r) && k < |r.states|
    ensures TablesInv(cfg, r.states[k])
  {
    hide Do, Enabled;
    if k > 0 {
      TablesHold(cfg, r, k - 1);
      assert StepAt(cfg, r, k - 1);
      TablesStep(cfg, r.states[k - 1], r.acts[k - 1]);
    }
  }

  // ----- match_index

  /** The follower gave the answer before step `k`. */
  ghost predicate AnsweredBefore(r: Run, k: nat, v: AppendAns) {
    exists j: nat | j < k :: AppendAnsweredAt(r, j, v)
  }

  /** A successful reply to a replication request says that the follower then had the sender's log of when it composed
      the request. */
  ghost predicate AnswerMatches(v: AppendAns) {
    v.body.reason.Appended? ==> v.logAfter == if v.msg.heartbeat then [] else v.msg.snapshot
  }

  lemma AnswersStep(cfg: Config, s: State, a: Action)
    requires Basic(cfg, s) && AllTraced(s) && Enabled(cfg, s, a) && forall v | v in s.appendAnswers :: AnswerMatches(v)
    ensures forall v | v in Do(cfg, s, a).appendAnswers :: AnswerMatches(v)
  {
    hide NodeAfter, VoteMsgInv, VoteAnsInv, AppendAnsInv, Traced;
    if a.TakeAppend? {
      var m := a.append;
      assert AppendMsgInv(s, m);
      HeldNow(cfg, s, m.to);
      hide Basic;
      assert Traced(s.hist.leaderLog, s.nodes[m.to].log) && Traced(s.hist.leaderLog, m.snapshot);
      if !Mismatch(s.nodes[m.to].log, m.body) { AcceptedLog(s.hist.leaderLog, s.nodes[m.to].log, m); }
    }
  }

  lemma {:induction false} AnswersMatch(cfg: Config, r: Run, k: nat)
    requires ValidRun(cfg, r) && NoLateFalls(cfg, r) && k < |r.states|
    ensures forall v | v in r.states[k].appendAnswers :: AnswerMatches(v)
  {
    hide Do, Enabled, Basic, NoLateFalls, AnswerMatches, AllTraced, LeadersLead;
    if k > 0 {
      AnswersMatch(cfg, r, k - 1);
      BasicHolds(cfg, r, k - 1);
      TraceHolds(cfg, r, k - 1);
      assert StepAt(cfg, r, k - 1);
      AnswersStep(cfg, r.states[k - 1], r.acts[k - 1]);
    }
  }

  /** The action handles a reply that reports success of a replication request, and credits it. */
  ghost predicate Credits(s: State, a: Action) {
    && a.TakeAppendAns? && a.appendAns.body.reason.Appended? && !a.appendAns.msg.heartbeat
    && a.appendAns.body.id == a.appendAns.msg.to
    && Actor(a) in s.nodes && a.appendAns.msg.sid in s.nodes[Actor(a)].peers
    && !Panics(s.nodes[Actor(a)].peers[a.appendAns.msg.sid], a.appendAns.body)
  }

  lemma CreditedEntry(cfg: Config, s: State, a: Action)
    requires Enabled(cfg, s, a) && Credits(s, a)
    ensures var v := a.appendAns;
            var next := s.nodes[Actor(a)].peers[v.msg.sid][v.msg.to].next;
            var n' := Do(cfg, s, a).nodes[Actor(a)];
            && v.msg.sid in n'.peers && v.msg.to in n'.peers[v.msg.sid]
            && n'.peers[v.msg.sid][v.msg.to] == Progress(next + next + v.body.len, Some(next + v.body.len - 1))
  {
  }

  /** The recorded match index is the follower's last index right after it accepted exactly if the peer's next index is
      the one the request was composed from, and then the new next index exceeds the follower's next entry by the old
      one; and the follower's log was then the sender's log of when it composed the request. */
  lemma MatchIndexSound(cfg: Config, r: Run, k: nat)
    requires ValidRun(cfg, r) && NoLateFalls(cfg, r) && k < |r.acts| && Credits(r.states[k], r.acts[k])
    ensures var v := r.acts[k].appendAns;
            var i := Actor(r.acts[k]);
            && i in r.states[k + 1].nodes && v.msg.sid in r.states[k + 1].nodes[i].peers
            && v.msg.to in r.states[k + 1].nodes[i].peers[v.msg.sid]
            && var before := r.states[k].nodes[i].peers[v.msg.sid][v.msg.to];
               var after := r.states[k + 1].nodes[i].peers[v.msg.sid][v.msg.to];
            && (after.matched == Some(|v.logAfter|) <==> before.next == v.msg.body.prevIndex + 1)
            && (before.next == v.msg.body.prevIndex + 1 ==> after.next == |v.logAfter| + 1 + before.next)
            && v.logAfter == v.msg.snapshot && AnsweredBefore(r, k, v) && AppendSentBefore(r, k, v.msg)
  {
    hide Init, NodeInv, VoteMsgInv, VoteAnsInv, AppendMsgInv, NoLateFalls, AppendAnsweredAt, AppendSentAt;
    var v := r.acts[k].appendAns;
    assert StepAt(cfg, r, k);
    BasicHolds(cfg, r, k);
    assert AppendAnsInv(r.states[k], v);
    CreditedEntry(cfg, r.states[k], r.acts[k]);
    AnswersMatch(cfg, r, k);
    assert AnswerMatches(v);
    AppendAnswerGiven(cfg, r, k, v);
    var j := AppendRequestSent(cfg, r, k, v.msg);
    hide Do, Enabled, Basic;
  }

  // ----- Commit advance

  /** The nodes whose log agrees with that of node `n` up to index `x`. */
  ghost function Agreeing(s: State, n: NodeId, x: nat): set<NodeId>
    requires n in s.nodes
  {
    set v | v in s.nodes && SameUpTo(s.nodes[v].log, s.nodes[n].log, x)
  }

  /** The log of every peer with a match index is identical to the leader's up to it. */
  ghost predicate Backed(s: State, n: NodeId, table: Peers)
    requires n in s.nodes
  {
    forall p | p in Reported(table) :: p in s.nodes && SameUpTo(s.nodes[p].log, s.nodes[n].log, table[p].matched.value)
  }

  lemma HoldersAgree(s: State, n: NodeId, table: Peers, x: nat)
    requires n in s.nodes && Backed(s, n, table) && x <= |s.nodes[n].log| && n !in table
    ensures Holding(table, x) + {n} <= Agreeing(s, n, x) && |Holding(table, x) + {n}| == |Holding(table, x)| + 1
  {
    forall p | p in Holding(table, x) ensures p in Agreeing(s, n, x) {
      var m := table[p].matched.value;
      assert p in Reported(table) && SameUpTo(s.nodes[p].log, s.nodes[n].log, m);
      assert s.nodes[p].log[..x] == s.nodes[p].log[..m][..x];
      assert s.nodes[n].log[..x] == s.nodes[n].log[..m][..x];
    }
  }

  lemma MajorityAbove(small: set<NodeId>, large: set<NodeId>, nodes: set<NodeId>)
    requires small <= large <= nodes && 2 * |small| > |nodes|
    ensures Majority(large, nodes)
  {
    SubsetSize(small, large);
  }

  lemma MedianBacked(s: State, n: NodeId, table: Peers)
    requires n in s.nodes && n !in table && table.Keys + {n} == s.nodes.Keys
    requires Backed(s, n, table) && Reported(table) != {} && EnoughReports(|Reported(table)|, |table| + 1)
    requires MedianMatch(table) <= |s.nodes[n].log|
    ensures Majority(Agreeing(s, n, MedianMatch(table)), s.nodes.Keys)
  {
    var x := MedianMatch(table);
    HoldersAgree(s, n, table, x);
    MedianRank(table, x);
    assert Agreeing(s, n, x) <= s.nodes.Keys;
    hide Backed, MedianMatch, Agreeing, Holding, Reported;
    assert |s.nodes.Keys| == |table| + 1 by { assert |table.Keys + {n}| == |table| + 1; }
    MajorityAbove(Holding(table, x) + {n}, Agreeing(s, n, x), s.nodes.Keys);
  }

  lemma OthersAndSelf(cfg: Config, n: NodeId)
    requires cfg.Valid() && n in cfg.members
    ensures cfg.Others(n) + {n} == cfg.Nodes() && n !in cfg.Others(n)
  {
  }

  lemma CommitMove(cfg: Config, s: State, a: Action)
    requires Enabled(cfg, s, a) && Credits(s, a)
    ensures var n := s.nodes[Actor(a)]; var n' := NodeAfter(cfg, s, a);
            && a.appendAns.msg.sid in n'.peers
            && var table := n'.peers[a.appendAns.msg.sid];
               n'.commit != n.commit ==>
                 && n.commit < n'.commit <= |n'.log| && n'.log[n'.commit - 1].term == n'.term
                 && table != map[] && Reported(table) != {} && n'.commit == MedianMatch(table)
  {
    hide MedianMatch;
  }

  /** In the step, node `i` moves its commit index to an entry of its own term that a strict majority holds. */
  ghost predicate AdvancesSoundly(cfg: Config, s: State, s': State, i: NodeId) {
    && i in s.nodes && i in s'.nodes
    && var before := s.nodes[i];
       var after := s'.nodes[i];
    && before.commit < after.commit <= |after.log|
    && after.log[after.commit - 1].term == after.term
    && Majority(Agreeing(s', i, after.commit), cfg.Nodes())
  }

  lemma AdvanceStep(cfg: Config, s: State, a: Action, s': State, i: NodeId, table: Peers)
    requires Enabled(cfg, s, a) && Credits(s, a) && i == Actor(a) && s'.nodes == s.nodes[i := NodeAfter(cfg, s, a)]
    requires a.appendAns.msg.sid in s'.nodes[i].peers && table == s'.nodes[i].peers[a.appendAns.msg.sid]
    requires i !in table && table.Keys + {i} == s'.nodes.Keys && Backed(s', i, table)
    requires EnoughReports(|Reported(table)|, |table| + 1)
    requires s'.nodes[i].commit != s.nodes[i].commit
    ensures AdvancesSoundly(cfg, s, s', i)
  {
    hide NodeAfter, Backed, MedianMatch, Agreeing, Credits, Majority, Reported;
    assert s'.nodes.Keys == cfg.Nodes();
    hide Enabled;
    CommitMove(cfg, s, a);
    MedianBacked(s', i, table);
  }

  /** If after crediting a reply enough peers have reported, all of them for example, and every match index is backed by
      an identical log prefix, then a commit index that the reply moves is higher than before, names an entry of the
      node's current term, and is held with an identical prefix by a strict majority of the cluster. */
  lemma CommitAdvanceSound(cfg: Config, r: Run, k: nat, i: NodeId, table: Peers)
    requires ValidRun(cfg, r) && k < |r.acts| && Credits(r.states[k], r.acts[k]) && i == Actor(r.acts[k])
    requires i in r.states[k + 1].nodes && r.acts[k].appendAns.msg.sid in r.states[k + 1].nodes[i].peers
    requires table == r.states[k + 1].nodes[i].peers[r.acts[k].appendAns.msg.sid] && Backed(r.states[k + 1], i, table)
    requires EnoughReports(|Reported(table)|, |table| + 1)
    requires r.states[k + 1].nodes[i].commit != r.states[k].nodes[i].commit
    ensures AdvancesSoundly(cfg, r.states[k], r.states[k + 1], i)
  {
    assert StepAt(cfg, r, k);
    TablesHold(cfg, r, k + 1);
    OthersAndSelf(cfg, i);
    NodesFixed(cfg, r, k + 1);
    hide NodeAfter, Backed, Credits, AdvancesSoundly, Enabled, ValidRun;
    AdvanceStep(cfg, r.states[k], r.acts[k], r.states[k + 1], i, table);
  }
}
