/** What every step of every run keeps, whatever happens to the terms. */
module AnyRun {
  import opened Types
  import opened Quorum
  import opened Median
  import opened NodeSteps
  import opened Cluster

  // ----- The invariant

  /** A ballot counts its own vote, and one with a pending result counts a strict majority. */
  ghost predicate BallotSound(cfg: Config, b: Ballot) {
    b.granted >= 1 && (b.decided ==> 2 * b.granted > |cfg.Nodes()|)
  }

  ghost predicate NodeInv(cfg: Config, s: State, i: NodeId)
    requires i in s.nodes
  {
    var n := s.nodes[i];
    && n.commit <= |n.log|
    && Held(i, n.term, n.log) in s.hist.held
    && (n.ballot.Some? ==> 1 <= n.ballot.value.sid <= n.epoch && BallotSound(cfg, n.ballot.value))
    && (n.repl.Some? ==> n.repl.value <= n.epoch)
    && (forall k | k in n.peers :: k <= n.epoch)
  }

  /** A vote request says what its sender's log was; one of a live session says what it still is. */
  ghost predicate VoteMsgInv(s: State, m: VoteMsg) {
    var i := m.body.candidate;
    && i in s.nodes && m.to in s.nodes && m.to != i
    && m.sid <= s.nodes[i].epoch
    && Held(i, m.body.term, m.snapshot) in s.hist.held
    && m.body.lastIndex == |m.snapshot| && m.body.lastTerm == LastTerm(m.snapshot)
    && (LiveBallot(s.nodes[i]) && s.nodes[i].ballot.value.sid == m.sid ==> m == Ask(i, s.nodes[i], m.sid, m.to))
  }

  ghost predicate VoteAnsInv(s: State, v: VoteAns) {
    && v.msg in s.voteMsgs
    && v.body.id == v.msg.to
    && (v.body.granted <==> v.body.reason.VoteGranted?)
    && (v.body.reason.StaleCandidate? ==> v.body.term > v.msg.body.term)
    && (v.body.reason.IncompleteLog? || v.body.granted ==> v.body.term <= v.msg.body.term)
    && (v.body.granted ==> GrantOf(v) in s.hist.grants)
    && v.moment < s.hist.clock
  }

  ghost predicate AppendMsgInv(s: State, m: AppendMsg) {
    var i := m.body.leader;
    && i in s.nodes && m.to in s.nodes && m.to != i
    && m.sid <= s.nodes[i].epoch
    && Held(i, m.body.term, m.snapshot) in s.hist.held
    && (m.heartbeat ==> m.body.prevIndex == 0 && m.body.entries == [])
    && (!m.heartbeat ==>
          && 1 <= m.body.prevIndex <= |m.snapshot|
          && m.body.prevTerm == m.snapshot[m.body.prevIndex - 1].term
          && m.body.entries == m.snapshot[m.body.prevIndex..])
    && (s.nodes[i].role.Leader? && s.nodes[i].repl == Some(m.sid) ==> m.body.term == s.nodes[i].term)
  }

  ghost predicate AppendAnsInv(s: State, v: AppendAns) {
    && v.msg in s.appendMsgs
    && v.body.id == v.msg.to
    && (v.body.success <==> v.body.reason.Appended?)
    && (v.body.reason.StaleLeader? ==> v.body.term > v.msg.body.term)
    && (v.body.reason.Appended? ==>
          v.body.len == |v.msg.body.entries| && |v.logAfter| == v.msg.body.prevIndex + v.body.len)
    && v.moment < s.hist.clock
  }

  ghost predicate Basic(cfg: Config, s: State) {
    && cfg.Valid()
    && s.nodes.Keys == cfg.Nodes()
    && (forall i | i in s.nodes :: NodeInv(cfg, s, i))
    && (forall m | m in s.voteMsgs :: VoteMsgInv(s, m))
    && (forall v | v in s.voteAnswers :: VoteAnsInv(s, v))
    && (forall m | m in s.appendMsgs :: AppendMsgInv(s, m))
    && (forall v | v in s.appendAnswers :: AppendAnsInv(s, v))
    && (forall h | h in s.hist.held :: h.node in s.nodes)
  }

  // ----- What a step changes

  /** Only the acting node changes; requests and history only grow. */
  ghost predicate Frame(s: State, s': State, i: NodeId) {
    && i in s.nodes && i in s'.nodes
    && s'.nodes == s.nodes[i := s'.nodes[i]]
    && s.voteMsgs <= s'.voteMsgs && s.appendMsgs <= s'.appendMsgs
    && s.hist.base == s'.hist.base
    && s.hist.supports <= s'.hist.supports && s.hist.grants <= s'.hist.grants
    && s.hist.elections <= s'.hist.elections
    && s'.hist.clock == s.hist.clock + 1
    && s'.hist.held == s.hist.held + {Held(i, s'.nodes[i].term, s'.nodes[i].log)}
  }

  lemma FrameHolds(cfg: Config, s: State, a: Action)
    requires Enabled(cfg, s, a)
    ensures Frame(s, Do(cfg, s, a), Actor(a))
  {
    hide NodeAfter;
  }

  /** Sessions are opened once: one that is live after a step and is not new was live before it, in the same term. */
  ghost predicate Evolves(n: Node, n': Node) {
    && n.epoch <= n'.epoch
    && (LiveBallot(n') && n'.ballot.value.sid <= n.epoch ==>
          LiveBallot(n) && n.ballot.value.sid == n'.ballot.value.sid && n.term == n'.term && n.log == n'.log)
    && (n'.role.Leader? && n'.repl.Some? && n'.repl.value <= n.epoch ==>
          n.role.Leader? && n.repl == n'.repl && n.term == n'.term)
  }

  lemma NodeEvolves(cfg: Config, s: State, a: Action)
    requires Enabled(cfg, s, a)
    ensures Evolves(s.nodes[Actor(a)], NodeAfter(cfg, s, a))
  {
  }

  // ----- Its preservation, node by node

  /** Passing the quorum test means a strict majority, whether or not the map lists the node itself. */
  lemma EnoughIsMajority(cfg: Config, i: NodeId, granted: nat)
    requires cfg.Valid() && i in cfg.members && Enough(granted, |cfg.members[i]|)
    ensures 2 * granted > |cfg.Nodes()|
  {
    var m := cfg.members[i];
    if i in m {
      assert m + {i} == m;
    }
  }

  /** The quorum test asks for a strict majority if the map leaves its own node out, and for half a node more if not. */
  lemma EnoughExactly(cfg: Config, i: NodeId, granted: nat)
    requires cfg.Valid() && i in cfg.members
    ensures Enough(granted, |cfg.members[i]|) <==> 2 * granted > |cfg.Nodes()| + (if i in cfg.members[i] then 1 else 0)
  {
    var m := cfg.members[i];
    if i in m {
      assert m + {i} == m;
    } else {
      assert |m + {i}| == |m| + 1;
    }
  }

  /** Two sets of voters that pass the quorum tests of two nodes share a voter, whatever the maps say of their own
      nodes. */
  lemma QuorumsMeet(cfg: Config, i: NodeId, a: set<NodeId>, j: NodeId, b: set<NodeId>) returns (x: NodeId)
    requires cfg.Valid() && i in cfg.members && j in cfg.members && a <= cfg.Nodes() && b <= cfg.Nodes()
    requires Enough(|a|, |cfg.members[i]|) && Enough(|b|, |cfg.members[j]|)
    ensures x in a && x in b
  {
    EnoughIsMajority(cfg, i, |a|);
    EnoughIsMajority(cfg, j, |b|);
    x := MajoritiesMeet(a, b, cfg.Nodes());
  }

  /** The median is used as a commit index only where the log has an entry. */
  lemma CommitStep(cfg: Config, s: State, a: Action)
    requires Enabled(cfg, s, a) && s.nodes[Actor(a)].commit <= |s.nodes[Actor(a)].log|
    ensures NodeAfter(cfg, s, a).commit <= |NodeAfter(cfg, s, a).log|
  {
    hide MedianMatch;
  }

  lemma SessionsStep(cfg: Config, s: State, a: Action)
    requires Enabled(cfg, s, a)
    ensures var n := s.nodes[Actor(a)]; var n' := NodeAfter(cfg, s, a);
            && n.epoch <= n'.epoch
            && (n'.ballot.Some? ==>
                  n'.ballot.value.sid == n'.epoch > 0 || (n.ballot.Some? && n.ballot.value.sid == n'.ballot.value.sid))
            && (n'.repl.Some? ==> n'.repl.value == n'.epoch || n'.repl == n.repl)
            && n'.peers.Keys <= n.peers.Keys + {n'.epoch}
  {
    hide Advance, Credit, BackOff;
  }

  /** A ballot can change only by opening, by counting a reply, or for want of peers. */
  lemma BallotMoves(cfg: Config, s: State, a: Action)
    requires Enabled(cfg, s, a)
    ensures var n := s.nodes[Actor(a)]; var n' := NodeAfter(cfg, s, a);
            || n'.ballot == n.ballot
            || n'.ballot.None?
            || (a.StartBallot? && n'.ballot == Some(Ballot(n.epoch + 1, {}, 1, false)))
            || (a.NoPeers? && cfg.Others(a.n) == {})
            || (a.TakeVoteAns? && LiveBallot(n)
              && n'.ballot == Some(Tally(n.ballot.value, a.voteAns.body, |cfg.members[Actor(a)]|)))
  {
  }

  lemma BallotStep(cfg: Config, s: State, a: Action)
    requires cfg.Valid() && Enabled(cfg, s, a) && NodeInv(cfg, s, Actor(a)) && NodeAfter(cfg, s, a).ballot.Some?
    ensures BallotSound(cfg, NodeAfter(cfg, s, a).ballot.value)
  {
    BallotMoves(cfg, s, a);
    hide NodeAfter;
    var i := Actor(a);
    if a.NoPeers? {
      assert cfg.members[i] + {i} == {i};
    } else if a.TakeVoteAns? && LiveBallot(s.nodes[i]) {
      var granted := s.nodes[i].ballot.value.granted + 1;
      if Enough(granted, |cfg.members[i]|) { EnoughIsMajority(cfg, i, granted); }
    }
  }

  lemma NodeStep(cfg: Config, s: State, a: Action, j: NodeId)
    requires cfg.Valid() && Enabled(cfg, s, a) && j in s.nodes && NodeInv(cfg, s, j)
    ensures NodeInv(cfg, Do(cfg, s, a), j)
  {
    hide NodeAfter, BallotSound, Frame, VoteMsgsAfter, VoteAnswersAfter, AppendMsgsAfter, AppendAnswersAfter,
      SupportsAfter, GrantsAfter, CountedAfter, ElectionsAfter, LeaderLogAfter;
    if j == Actor(a) { ActorStep(cfg, s, a); }
  }

  lemma ActorStep(cfg: Config, s: State, a: Action)
    requires cfg.Valid() && Enabled(cfg, s, a) && NodeInv(cfg, s, Actor(a))
    ensures var n' := NodeAfter(cfg, s, a);
            && n'.commit <= |n'.log|
            && (n'.ballot.Some? ==> 1 <= n'.ballot.value.sid <= n'.epoch && BallotSound(cfg, n'.ballot.value))
            && (n'.repl.Some? ==> n'.repl.value <= n'.epoch)
            && (forall k | k in n'.peers :: k <= n'.epoch)
  {
    hide NodeAfter, BallotSound, Enabled;
    CommitStep(cfg, s, a);
    SessionsStep(cfg, s, a);
    if NodeAfter(cfg, s, a).ballot.Some? { BallotStep(cfg, s, a); }
  }

  // ----- Its preservation, message by message

  lemma VoteMsgKeep(s: State, s': State, i: NodeId, m: VoteMsg)
    requires Frame(s, s', i) && Evolves(s.nodes[i], s'.nodes[i]) && VoteMsgInv(s, m)
    ensures VoteMsgInv(s', m)
  {
  }

  lemma AppendMsgKeep(s: State, s': State, i: NodeId, m: AppendMsg)
    requires Frame(s, s', i) && Evolves(s.nodes[i], s'.nodes[i]) && AppendMsgInv(s, m)
    ensures AppendMsgInv(s', m)
  {
  }

  lemma VoteAnsKeep(s: State, s': State, i: NodeId, v: VoteAns)
    requires Frame(s, s', i) && VoteAnsInv(s, v)
    ensures VoteAnsInv(s', v)
  {
  }

  lemma AppendAnsKeep(s: State, s': State, i: NodeId, v: AppendAns)
    requires Frame(s, s', i) && AppendAnsInv(s, v)
    ensures AppendAnsInv(s', v)
  {
  }

  lemma NewVoteMsg(cfg: Config, s: State, a: Action)
    requires cfg.Valid() && Enabled(cfg, s, a) && a.SendVote? && NodeInv(cfg, s, a.n)
    ensures VoteMsgInv(Do(cfg, s, a), Ask(a.n, s.nodes[a.n], a.sid, a.to))
  {
    assert a.to in cfg.members[a.n] + {a.n};
  }

  lemma NewAppendMsg(cfg: Config, s: State, a: Action, m: AppendMsg)
    requires cfg.Valid() && Enabled(cfg, s, a) && (a.SendHeartbeat? || a.SendEntries?) && NodeInv(cfg, s, a.n)
    requires m in AppendMsgsAfter(cfg, s, a) - s.appendMsgs
    requires s.nodes[a.n].role.Leader? && s.nodes[a.n].repl == Some(m.sid) ==> m.body.term == s.nodes[a.n].term
    ensures AppendMsgInv(Do(cfg, s, a), m)
  {
    assert a.to in cfg.members[a.n] + {a.n};
  }

  lemma NewVoteAns(cfg: Config, s: State, a: Action)
    requires Enabled(cfg, s, a) && a.TakeVote?
    ensures var n := s.nodes[a.vote.to];
            var o := OnVoteRequest(a.vote.to, n, a.vote.body);
            VoteAnsInv(Do(cfg, s, a), VoteAns(a.vote, o.response, n.log, s.hist.clock))
  {
  }

  lemma NewAppendAns(cfg: Config, s: State, a: Action)
    requires Enabled(cfg, s, a) && a.TakeAppend?
    ensures var o := OnAppendRequest(a.append.to, s.nodes[a.append.to], a.append.body);
            AppendAnsInv(Do(cfg, s, a), AppendAns(a.append, o.response, o.node.log, s.hist.clock))
  {
  }

  lemma BasicStep(cfg: Config, s: State, a: Action)
    requires Basic(cfg, s) && Enabled(cfg, s, a)
    ensures Basic(cfg, Do(cfg, s, a))
  {
    hide NodeAfter, Evolves, NodeInv, VoteMsgInv, VoteAnsInv, AppendMsgInv, AppendAnsInv;
    var s' := Do(cfg, s, a);
    var i := Actor(a);
    FrameHolds(cfg, s, a);
    NodeEvolves(cfg, s, a);
    forall j | j in s'.nodes ensures NodeInv(cfg, s', j) { NodeStep(cfg, s, a, j); }
    forall m | m in s'.voteMsgs ensures VoteMsgInv(s', m) {
      if m in s.voteMsgs { VoteMsgKeep(s, s', i, m); } else { NewVoteMsg(cfg, s, a); }
    }
    forall v | v in s'.voteAnswers ensures VoteAnsInv(s', v) {
      if v in s.voteAnswers { VoteAnsKeep(s, s', i, v); } else { NewVoteAns(cfg, s, a); }
    }
    forall m | m in s'.appendMsgs ensures AppendMsgInv(s', m) {
      if m in s.appendMsgs { AppendMsgKeep(s, s', i, m); } else { NewAppendMsg(cfg, s, a, m); }
    }
    forall v | v in s'.appendAnswers ensures AppendAnsInv(s', v) {
      if v in s.appendAnswers { AppendAnsKeep(s, s', i, v); } else { NewAppendAns(cfg, s, a); }
    }
  }

  lemma BasicInit(cfg: Config, s: State)
    requires Init(cfg, s)
    ensures Basic(cfg, s)
  {
    forall i | i in s.nodes ensures NodeInv(cfg, s, i) {
      assert FreshNode(s.nodes[i], s.hist.base);
    }
  }

  lemma {:induction false} BasicHolds(cfg: Config, r: Run, k: nat)
    requires ValidRun(cfg, r) && k < |r.states|
    ensures Basic(cfg, r.states[k])
  {
    hide Init, Do, Enabled, Basic;
    if k == 0 {
      BasicInit(cfg, r.states[0]);
    } else {
      BasicHolds(cfg, r, k - 1);
      assert StepAt(cfg, r, k - 1);
      BasicStep(cfg, r.states[k - 1], r.acts[k - 1]);
    }
  }

  lemma ConfigValid(cfg: Config, r: Run)
    requires ValidRun(cfg, r)
    ensures cfg.Valid()
  {
  }

  /** Nodes of the cluster never come or go. */
  lemma NodesFixed(cfg: Config, r: Run, k: nat)
    requires ValidRun(cfg, r) && k < |r.states|
    ensures r.states[k].nodes.Keys == cfg.Nodes()
  {
    hide Init, Do, Enabled, StepAt, NodeInv, VoteMsgInv, VoteAnsInv, AppendMsgInv, AppendAnsInv;
    BasicHolds(cfg, r, k);
  }

  /** History only grows along a run. */
  lemma {:induction false} HistoryGrows(cfg: Config, r: Run, i: nat, j: nat)
    requires ValidRun(cfg, r) && i <= j < |r.states|
    ensures var (h, h') := (r.states[i].hist, r.states[j].hist);
            && h.supports <= h'.supports && h.grants <= h'.grants && h.elections <= h'.elections && h.held <= h'.held
            && h.base == h'.base
    ensures r.states[i].appendMsgs <= r.states[j].appendMsgs
    decreases j
  {
    if i < j {
      hide Init, Do, Enabled;
      HistoryGrows(cfg, r, i, j - 1);
      assert StepAt(cfg, r, j - 1);
      FrameHolds(cfg, r.states[j - 1], r.acts[j - 1]);
    }
  }

  lemma HeldNow(cfg: Config, s: State, n: NodeId)
    requires Basic(cfg, s) && n in s.nodes
    ensures Held(n, s.nodes[n].term, s.nodes[n].log) in s.hist.held
  {
    assert NodeInv(cfg, s, n);
  }
}
