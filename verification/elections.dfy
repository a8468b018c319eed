/** Elections: what a live vote session has counted, and who won which term. */
module Elections {
  import opened Types
  import opened Quorum
  import opened NodeSteps
  import opened Cluster
  import opened AnyRun
  import opened Votes

  /** A live session has counted each grant once, and has not won yet. */
  ghost predicate BallotInv(s: State, i: NodeId)
    requires i in s.nodes
  {
    var n := s.nodes[i];
    LiveBallot(n) ==>
      var b := n.ballot.value;
      var votes := Counted(s.hist, i, b.sid);
      && OwnGrant(i, n, b.sid) in s.hist.grants
      && b.granted == 1 + |votes|
      && i !in votes
      && (forall v | v in votes :: v in s.nodes && votes[v] in s.hist.grants && votes[v].msg == Ask(i, n, b.sid, v))
      && (forall a | a in s.voteAnswers && a.body.granted && a.msg.body.candidate == i && a.msg.sid == b.sid ::
        a.msg.to !in votes)
      && (forall e | e in s.hist.elections && e.leader == i :: e.term != n.term)
  }

  ghost predicate ElectionInv(cfg: Config, s: State, e: Election) {
    && e.leader in s.nodes && e.term <= s.nodes[e.leader].term
    && Majority(e.votes.Keys, cfg.Nodes())
    && e.leader in e.votes
    && Held(e.leader, e.term, e.log) in s.hist.held
    && (forall v | v in e.votes ::
          && e.votes[v] in s.hist.grants
          && e.votes[v].msg.to == v
          && e.votes[v].msg.body.candidate == e.leader
          && e.votes[v].msg.body.term == e.term
          && e.votes[v].msg.snapshot == e.log)
  }

  ghost predicate Won(h: History, term: nat, leader: NodeId) {
    exists e :: e in h.elections && e.term == term && e.leader == leader
  }

  ghost predicate ElectInv(cfg: Config, s: State) {
    && (forall i | i in s.nodes :: BallotInv(s, i))
    && (forall k | k in s.hist.counted :: k.0 in s.nodes && k.1 <= s.nodes[k.0].epoch)
    && (forall e | e in s.hist.elections :: ElectionInv(cfg, s, e))
    && (forall e, f | e in s.hist.elections && f in s.hist.elections && e.term == f.term :: e == f)
    && (forall i | i in s.nodes && s.nodes[i].role.Leader? :: Won(s.hist, s.nodes[i].term, i))
  }

  // ----- What a step does to the ballot of the acting node

  /** The session stays live. */
  ghost predicate SameSession(n: Node, n': Node) {
    && LiveBallot(n) && LiveBallot(n') && n.ballot.value.sid == n'.ballot.value.sid
    && n.term == n'.term && n.log == n'.log
  }

  /** The session stays live and counts nothing new. */
  ghost predicate BallotKept(n: Node, n': Node) {
    SameSession(n, n') && n.ballot.value.granted == n'.ballot.value.granted
  }

  lemma BallotCases(cfg: Config, s: State, a: Action)
    requires Enabled(cfg, s, a) && LiveBallot(NodeAfter(cfg, s, a))
    ensures var n := s.nodes[Actor(a)]; var n' := NodeAfter(cfg, s, a);
            if a.StartBallot? then
              && n'.ballot.value.sid == n.epoch + 1 && n'.ballot.value.granted == 1 && n'.term == n.term + 1
              && OwnGrant(Actor(a), n', n.epoch + 1) in GrantsAfter(cfg, s, a)
            else if Counts(s, a) then
              SameSession(n, n') && n'.ballot.value.granted == n.ballot.value.granted + 1
            else BallotKept(n, n')
  {
  }

  /** Leadership is won, or kept within the term. */
  lemma LeaderCases(cfg: Config, s: State, a: Action)
    requires Enabled(cfg, s, a) && NodeAfter(cfg, s, a).role.Leader?
    ensures a.Win? || (s.nodes[Actor(a)].role.Leader? && NodeAfter(cfg, s, a).term == s.nodes[Actor(a)].term)
    ensures a.Win? ==>
              NodeAfter(cfg, s, a).term == s.nodes[Actor(a)].term && NodeAfter(cfg, s, a).log == s.nodes[Actor(a)].log
  {
  }

  // ----- Preservation of the ballot invariant

  /** The new answers that grant a vote to session `sid` of node `j` come from nodes outside `votes`. */
  ghost predicate FreshAnswers(s: State, s': State, j: NodeId, sid: nat, votes: map<NodeId, Grant>) {
    forall v | v in s'.voteAnswers && v !in s.voteAnswers && v.body.granted && v.msg.body.candidate == j
      && v.msg.sid == sid ::
      v.msg.to !in votes
  }

  /** A node whose grant a live session has counted cannot grant it again: that would be a second vote in the term. */
  lemma AnswersFresh(cfg: Config, s: State, a: Action, j: NodeId)
    requires Enabled(cfg, s, a) && VoteInv(s) && j in s.nodes && LiveBallot(s.nodes[j]) && BallotInv(s, j)
    requires forall m | m in s.voteMsgs :: VoteMsgInv(s, m)
    ensures var sid := s.nodes[j].ballot.value.sid;
            FreshAnswers(s, Do(cfg, s, a), j, sid, Counted(s.hist, j, sid))
  {
    var s' := Do(cfg, s, a);
    var n := s.nodes[j];
    var sid := n.ballot.value.sid;
    var votes := Counted(s.hist, j, sid);
    hide NodeAfter;
    forall u | u in votes ensures Support(u, n.term, j) in s.hist.supports { assert GrantInv(s, votes[u]); }
    forall v | v in s'.voteAnswers && v !in s.voteAnswers && v.body.granted && v.msg.body.candidate == j
      && v.msg.sid == sid
      ensures v.msg.to !in votes
    {
      assert VoteMsgInv(s, v.msg);
      var x := Support(v.msg.to, n.term, j);
      if x in s.hist.supports { CastIsFirst(cfg, s, a, x); }
    }
  }

  lemma BallotOther(s: State, s': State, i: NodeId, j: NodeId)
    requires Frame(s, s', i) && j != i && j in s.nodes && BallotInv(s, j)
    requires forall k: nat :: Counted(s'.hist, j, k) == Counted(s.hist, j, k)
    requires forall e | e in s'.hist.elections && e !in s.hist.elections :: e.leader == i
    requires LiveBallot(s.nodes[j]) ==>
               var sid := s.nodes[j].ballot.value.sid; FreshAnswers(s, s', j, sid, Counted(s.hist, j, sid))
    ensures BallotInv(s', j)
  {
  }

  lemma BallotKeep(s: State, s': State, i: NodeId)
    requires Frame(s, s', i) && BallotInv(s, i) && LiveBallot(s'.nodes[i]) && BallotKept(s.nodes[i], s'.nodes[i])
    requires s'.hist.counted == s.hist.counted && s'.hist.elections == s.hist.elections
    requires var sid := s.nodes[i].ballot.value.sid; FreshAnswers(s, s', i, sid, Counted(s.hist, i, sid))
    ensures BallotInv(s', i)
  {
    var (n, n') := (s.nodes[i], s'.nodes[i]);
    assert forall v: NodeId :: Ask(i, n, n.ballot.value.sid, v) == Ask(i, n', n.ballot.value.sid, v);
  }

  lemma BallotOpen(s: State, s': State, i: NodeId)
    requires Frame(s, s', i) && LiveBallot(s'.nodes[i])
    requires var (n, n') := (s.nodes[i], s'.nodes[i]);
             && n'.ballot.value.sid == n.epoch + 1 && n'.ballot.value.granted == 1 && n'.term == n.term + 1
             && OwnGrant(i, n', n.epoch + 1) in s'.hist.grants
    requires s'.hist.counted == s.hist.counted && s'.hist.elections == s.hist.elections
        && s'.voteAnswers == s.voteAnswers
    requires forall k | k in s.hist.counted :: k.0 in s.nodes && k.1 <= s.nodes[k.0].epoch
    requires forall v | v in s.voteAnswers :: v.msg in s.voteMsgs
    requires forall m | m in s.voteMsgs :: VoteMsgInv(s, m)
    requires forall e | e in s.hist.elections && e.leader == i :: e.term <= s.nodes[i].term
    ensures BallotInv(s', i)
  {
    forall v | v in s'.voteAnswers && v.body.granted && v.msg.body.candidate == i
      ensures v.msg.sid != s.nodes[i].epoch + 1 {
      assert VoteMsgInv(s, v.msg);
    }
    assert (i, s.nodes[i].epoch + 1) !in s.hist.counted;
  }

  /** `v` carries a grant to the live session of node `i`. */
  ghost predicate GrantsTo(s: State, i: NodeId, v: VoteAns)
    requires i in s.nodes && LiveBallot(s.nodes[i])
  {
    v in s.voteAnswers && v.body.granted && v.msg.body.candidate == i && v.msg.sid == s.nodes[i].ballot.value.sid
  }

  /** A grant to a live session answers what the session would still ask, and each voter has one in flight. */
  lemma LiveAnswers(s: State, i: NodeId, v: VoteAns)
    requires VoteInv(s) && i in s.nodes && LiveBallot(s.nodes[i]) && GrantsTo(s, i, v)
    requires forall w | w in s.voteAnswers :: VoteAnsInv(s, w)
    requires forall m | m in s.voteMsgs :: VoteMsgInv(s, m)
    ensures v.msg == Ask(i, s.nodes[i], v.msg.sid, v.msg.to) && v.msg.to in s.nodes && v.msg.to != i
    ensures GrantOf(v) in s.hist.grants
    ensures forall w | GrantsTo(s, i, w) && w.msg.to == v.msg.to :: w == v
  {
    assert VoteAnsInv(s, v) && VoteMsgInv(s, v.msg);
    forall w | GrantsTo(s, i, w) && w.msg.to == v.msg.to ensures w == v {
      assert VoteAnsInv(s, w) && VoteMsgInv(s, w.msg);
      assert GrantOf(w) == GrantOf(v);
    }
  }

  /** Counting a grant: it was not counted before, and no other answer in flight repeats it. */
  lemma BallotCount(s: State, s': State, i: NodeId, v: VoteAns)
    requires Frame(s, s', i) && BallotInv(s, i) && SameSession(s.nodes[i], s'.nodes[i])
    requires s'.nodes[i].ballot.value.granted == s.nodes[i].ballot.value.granted + 1
    requires s'.hist.elections == s.hist.elections && s'.voteAnswers == s.voteAnswers - {v}
    requires GrantsTo(s, i, v) && GrantOf(v) in s.hist.grants
    requires v.msg == Ask(i, s.nodes[i], v.msg.sid, v.msg.to) && v.msg.to in s.nodes && v.msg.to != i
    requires forall w | GrantsTo(s, i, w) && w.msg.to == v.msg.to :: w == v
    requires Counted(s'.hist, i, v.msg.sid) == Counted(s.hist, i, v.msg.sid)[v.msg.to := GrantOf(v)]
    ensures BallotInv(s', i)
  {
    hide Counted;
    var (n, n') := (s.nodes[i], s'.nodes[i]);
    var sid := n.ballot.value.sid;
    var votes := Counted(s.hist, i, sid);
    var votes' := Counted(s'.hist, i, sid);
    assert v.msg.to !in votes;
    assert votes'.Keys == votes.Keys + {v.msg.to};
    assert forall u: NodeId :: Ask(i, n, sid, u) == Ask(i, n', sid, u);
    forall w | w in s'.voteAnswers && w.body.granted && w.msg.body.candidate == i && w.msg.sid == sid
      ensures w.msg.to !in votes' {
      assert GrantsTo(s, i, w);
    }
  }

  lemma NoBallot(s: State, i: NodeId)
    requires i in s.nodes && !LiveBallot(s.nodes[i])
    ensures BallotInv(s, i)
  {
  }

  /** A step counts votes for, and elects, its own node only. */
  lemma OwnTally(cfg: Config, s: State, a: Action, j: NodeId)
    requires Enabled(cfg, s, a) && j != Actor(a)
    ensures var s' := Do(cfg, s, a);
            && (forall k: nat :: Counted(s'.hist, j, k) == Counted(s.hist, j, k))
            && (forall e | e in s'.hist.elections && e !in s.hist.elections :: e.leader == Actor(a))
  {
    hide NodeAfter;
  }

  lemma BallotOtherStep(cfg: Config, s: State, a: Action, j: NodeId)
    requires Basic(cfg, s) && Enabled(cfg, s, a) && VoteInv(s) && j in s.nodes && BallotInv(s, j) && j != Actor(a)
    ensures BallotInv(Do(cfg, s, a), j)
  {
    FrameHolds(cfg, s, a);
    if LiveBallot(s.nodes[j]) { AnswersFresh(cfg, s, a, j); }
    OwnTally(cfg, s, a, j);
    hide Do, Enabled, Basic, VoteInv, Frame, BallotInv, FreshAnswers, Counted;
    BallotOther(s, Do(cfg, s, a), Actor(a), j);
  }

  lemma BallotCountStep(cfg: Config, s: State, a: Action)
    requires Basic(cfg, s) && Enabled(cfg, s, a) && VoteInv(s) && BallotInv(s, Actor(a))
    requires Counts(s, a) && LiveBallot(NodeAfter(cfg, s, a))
    ensures BallotInv(Do(cfg, s, a), Actor(a))
  {
    hide NodeAfter, VoteInv, Frame, BallotInv, NodeInv, VoteMsgInv, VoteAnsInv, AppendMsgInv, AppendAnsInv;
    FrameHolds(cfg, s, a);
    BallotCases(cfg, s, a);
    LiveAnswers(s, Actor(a), a.voteAns);
    hide Basic, GrantsTo;
    BallotCount(s, Do(cfg, s, a), Actor(a), a.voteAns);
  }

  lemma BallotOpenFacts(cfg: Config, s: State, i: NodeId)
    requires Basic(cfg, s) && ElectInv(cfg, s) && i in s.nodes
    ensures forall v | v in s.voteAnswers :: v.msg in s.voteMsgs
    ensures forall m | m in s.voteMsgs :: VoteMsgInv(s, m)
    ensures forall k | k in s.hist.counted :: k.0 in s.nodes && k.1 <= s.nodes[k.0].epoch
    ensures forall e | e in s.hist.elections && e.leader == i :: e.term <= s.nodes[i].term
  {
    hide NodeInv, VoteMsgInv, AppendMsgInv, AppendAnsInv, BallotInv;
    assert forall v | v in s.voteAnswers :: VoteAnsInv(s, v);
    assert forall e | e in s.hist.elections :: ElectionInv(cfg, s, e);
  }

  lemma BallotOpenStep(cfg: Config, s: State, a: Action)
    requires Basic(cfg, s) && Enabled(cfg, s, a) && ElectInv(cfg, s) && a.StartBallot?
    requires LiveBallot(NodeAfter(cfg, s, a))
    ensures BallotInv(Do(cfg, s, a), Actor(a))
  {
    hide NodeAfter, Frame, BallotInv, VoteMsgInv, Basic, ElectInv;
    FrameHolds(cfg, s, a);
    BallotCases(cfg, s, a);
    BallotOpenFacts(cfg, s, Actor(a));
    BallotOpen(s, Do(cfg, s, a), Actor(a));
  }

  lemma BallotKeepStep(cfg: Config, s: State, a: Action)
    requires Basic(cfg, s) && Enabled(cfg, s, a) && VoteInv(s) && BallotInv(s, Actor(a))
    requires !a.StartBallot? && !Counts(s, a) && LiveBallot(NodeAfter(cfg, s, a))
    ensures BallotInv(Do(cfg, s, a), Actor(a))
  {
    FrameHolds(cfg, s, a);
    BallotCases(cfg, s, a);
    AnswersFresh(cfg, s, a, Actor(a));
    assert !a.Win?;
    hide NodeAfter, Basic, VoteInv, Frame, BallotInv, FreshAnswers;
    BallotKeep(s, Do(cfg, s, a), Actor(a));
  }

  lemma BallotInvStep(cfg: Config, s: State, a: Action, j: NodeId)
    requires Basic(cfg, s) && Enabled(cfg, s, a) && VoteInv(s) && ElectInv(cfg, s) && j in s.nodes
    ensures BallotInv(Do(cfg, s, a), j)
  {
    assert BallotInv(s, j);
    hide NodeAfter, Basic, VoteInv, ElectInv, BallotInv;
    if j != Actor(a) {
      BallotOtherStep(cfg, s, a, j);
    } else if !LiveBallot(NodeAfter(cfg, s, a)) {
      NoBallot(Do(cfg, s, a), j);
    } else if a.StartBallot? {
      BallotOpenStep(cfg, s, a);
    } else if Counts(s, a) {
      BallotCountStep(cfg, s, a);
    } else {
      BallotKeepStep(cfg, s, a);
    }
  }

  // ----- Preservation of the elections

  lemma ElectionKeep(cfg: Config, s: State, s': State, i: NodeId, e: Election)
    requires Frame(s, s', i) && ElectionInv(cfg, s, e) && s.nodes[i].term <= s'.nodes[i].term
    ensures ElectionInv(cfg, s', e)
  {
  }

  lemma OneMoreVote(votes: map<NodeId, Grant>, i: NodeId, g: Grant, nodes: set<NodeId>)
    requires votes.Keys <= nodes && i in nodes && i !in votes
    requires 2 * (1 + |votes|) > |nodes|
    ensures Majority(votes[i := g].Keys, nodes)
  {
    assert votes[i := g].Keys == votes.Keys + {i};
    assert |votes.Keys + {i}| == |votes| + 1;
  }

  /** A winner has the votes of a strict majority, its own included. */
  lemma WinnerHasMajority(cfg: Config, s: State, i: NodeId)
    requires s.nodes.Keys == cfg.Nodes() && i in s.nodes && NodeInv(cfg, s, i) && BallotInv(s, i)
    requires LiveBallot(s.nodes[i]) && s.nodes[i].ballot.value.decided
    ensures ElectionInv(cfg, s, ElectionOf(s, i))
  {
    var n := s.nodes[i];
    var sid := n.ballot.value.sid;
    OneMoreVote(Counted(s.hist, i, sid), i, OwnGrant(i, n, sid), cfg.Nodes());
    hide Counted, Majority;
  }

  /** Two elections of the same term share a voter, who voted once in it. */
  lemma ElectionsMeet(cfg: Config, s: State, e: Election, f: Election)
    requires VoteInv(s) && ElectionInv(cfg, s, e) && ElectionInv(cfg, s, f) && e.term == f.term
    ensures e.leader == f.leader
  {
    var v := MajoritiesMeet(e.votes.Keys, f.votes.Keys, cfg.Nodes());
    assert GrantInv(s, e.votes[v]) && GrantInv(s, f.votes[v]);
  }

  /** A term that a live session is about to win has not been won. */
  lemma WinIsFirst(cfg: Config, s: State, i: NodeId, f: Election)
    requires VoteInv(s) && f in s.hist.elections && ElectionInv(cfg, s, f)
    requires s.nodes.Keys == cfg.Nodes() && i in s.nodes && NodeInv(cfg, s, i) && BallotInv(s, i)
    requires LiveBallot(s.nodes[i]) && s.nodes[i].ballot.value.decided
    ensures f.term != s.nodes[i].term
  {
    assert f.leader == i ==> f.term != s.nodes[i].term;
    WinnerHasMajority(cfg, s, i);
    hide NodeInv, BallotInv, ElectionInv, VoteInv;
    if f.term == s.nodes[i].term {
      ElectionsMeet(cfg, s, ElectionOf(s, i), f);
    }
  }

  lemma ElectionsKeep(cfg: Config, s: State, s': State, i: NodeId, added: set<Election>)
    requires Frame(s, s', i) && s.nodes[i].term <= s'.nodes[i].term && s'.hist.elections == s.hist.elections + added
    requires forall e | e in s.hist.elections + added :: ElectionInv(cfg, s, e)
    requires forall e, f | e in s.hist.elections + added && f in s.hist.elections + added && e.term == f.term :: e == f
    ensures forall e | e in s'.hist.elections :: ElectionInv(cfg, s', e)
    ensures forall e, f | e in s'.hist.elections && f in s'.hist.elections && e.term == f.term :: e == f
  {
    hide ElectionInv, Frame;
    forall e | e in s'.hist.elections ensures ElectionInv(cfg, s', e) { ElectionKeep(cfg, s, s', i, e); }
  }

  lemma WinStep(cfg: Config, s: State, a: Action)
    requires Basic(cfg, s) && Enabled(cfg, s, a) && VoteInv(s) && ElectInv(cfg, s) && a.Win?
    ensures ElectionInv(cfg, s, ElectionOf(s, a.n))
    ensures forall f | f in s.hist.elections :: f.term != s.nodes[a.n].term
  {
    assert NodeInv(cfg, s, a.n) && BallotInv(s, a.n);
    WinnerHasMajority(cfg, s, a.n);
    hide NodeInv, BallotInv, ElectionInv, VoteInv, VoteMsgInv, AppendMsgInv, VoteAnsInv, AppendAnsInv;
    forall f | f in s.hist.elections ensures f.term != s.nodes[a.n].term { WinIsFirst(cfg, s, a.n, f); }
  }

  lemma LeadersStep(cfg: Config, s: State, a: Action, j: NodeId)
    requires Enabled(cfg, s, a) && ElectInv(cfg, s) && j in s.nodes
    ensures var s' := Do(cfg, s, a); s'.nodes[j].role.Leader? ==> Won(s'.hist, s'.nodes[j].term, j)
  {
    var s' := Do(cfg, s, a);
    FrameHolds(cfg, s, a);
    if s'.nodes[j].role.Leader? {
      if j == Actor(a) { LeaderCases(cfg, s, a); }
      hide NodeAfter, ElectionInv, BallotInv;
      if j == Actor(a) && a.Win? {
        assert ElectionOf(s, j) in s'.hist.elections;
      } else {
        var e :| e in s.hist.elections && e.term == s.nodes[j].term && e.leader == j;
        assert e in s'.hist.elections;
      }
    }
  }

  lemma CountedStep(cfg: Config, s: State, a: Action)
    requires Enabled(cfg, s, a) && NodeInv(cfg, s, Actor(a))
    requires forall k | k in s.hist.counted :: k.0 in s.nodes && k.1 <= s.nodes[k.0].epoch
    ensures var s' := Do(cfg, s, a); forall k | k in s'.hist.counted :: k.0 in s'.nodes && k.1 <= s'.nodes[k.0].epoch
  {
    NodeEvolves(cfg, s, a);
    hide NodeAfter;
  }

  lemma ElectionsStep(cfg: Config, s: State, a: Action)
    requires Basic(cfg, s) && Enabled(cfg, s, a) && VoteInv(s) && ElectInv(cfg, s)
    requires s.nodes[Actor(a)].term <= NodeAfter(cfg, s, a).term
    ensures var s' := Do(cfg, s, a);
            && (forall e | e in s'.hist.elections :: ElectionInv(cfg, s', e))
            && (forall e, f | e in s'.hist.elections && f in s'.hist.elections && e.term == f.term :: e == f)
  {
    hide NodeAfter, Basic, VoteInv, ElectionInv, BallotInv, Frame, Won, ElectionOf;
    FrameHolds(cfg, s, a);
    if a.Win? {
      WinStep(cfg, s, a);
      ElectionsKeep(cfg, s, Do(cfg, s, a), Actor(a), {ElectionOf(s, a.n)}) by { ElectionTerm(s, a.n); }
    } else {
      ElectionsKeep(cfg, s, Do(cfg, s, a), Actor(a), {});
    }
  }

  lemma ElectionTerm(s: State, i: NodeId)
    requires i in s.nodes && LiveBallot(s.nodes[i])
    ensures ElectionOf(s, i).term == s.nodes[i].term
  {
  }

  lemma ElectStep(cfg: Config, s: State, a: Action)
    requires Basic(cfg, s) && Enabled(cfg, s, a) && VoteInv(s) && ElectInv(cfg, s) && TermsRise(s, Do(cfg, s, a))
    ensures ElectInv(cfg, Do(cfg, s, a))
  {
    var s' := Do(cfg, s, a);
    assert s.nodes[Actor(a)].term <= s'.nodes[Actor(a)].term;
    hide NodeAfter, Basic, VoteInv, ElectionInv, BallotInv, TermsRise, Won;
    forall j | j in s'.nodes ensures BallotInv(s', j) { BallotInvStep(cfg, s, a, j); }
    forall j | j in s'.nodes && s'.nodes[j].role.Leader?
      ensures Won(s'.hist, s'.nodes[j].term, j) { LeadersStep(cfg, s, a, j); }
    ElectionsStep(cfg, s, a);
    ActorInv(cfg, s, a);
    CountedStep(cfg, s, a);
  }

  lemma ActorInv(cfg: Config, s: State, a: Action)
    requires Basic(cfg, s) && Enabled(cfg, s, a)
    ensures NodeInv(cfg, s, Actor(a))
  {
  }

  lemma ElectInit(cfg: Config, s: State)
    requires Init(cfg, s)
    ensures ElectInv(cfg, s)
  {
  }

  // ----- Append requests of leaders

  /** Whoever sent an append request had won its term. */
  ghost predicate SenderInv(s: State) {
    forall m | m in s.appendMsgs :: Won(s.hist, m.body.term, m.body.leader)
  }

  lemma SenderWon(s: State, m: AppendMsg)
    requires SenderInv(s) && m in s.appendMsgs
    ensures Won(s.hist, m.body.term, m.body.leader)
  {
  }

  lemma WonLasts(h: History, h': History, term: nat, n: NodeId)
    requires Won(h, term, n) && h.elections <= h'.elections
    ensures Won(h', term, n)
  {
    var e :| e in h.elections && e.term == term && e.leader == n;
    assert e in h'.elections;
  }

  lemma SenderStep(cfg: Config, s: State, a: Action)
    requires Enabled(cfg, s, a) && ElectInv(cfg, s) && SenderInv(s) && SentByLeader(s, a)
    ensures SenderInv(Do(cfg, s, a))
  {
    FrameHolds(cfg, s, a);
    hide NodeAfter, Won, BallotInv, ElectionInv;
    forall m | m in Do(cfg, s, a).appendMsgs ensures Won(Do(cfg, s, a).hist, m.body.term, m.body.leader) {
      WonLasts(s.hist, Do(cfg, s, a).hist, m.body.term, m.body.leader);
    }
  }
}
