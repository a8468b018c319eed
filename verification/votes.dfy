/** One vote per term: what the votes cast so far say about the nodes, in steps where no term falls. */
module Votes {
  import opened Types
  import opened NodeSteps
  import opened Cluster
  import opened AnyRun

  /** A vote cast is remembered by the voter until its term moves on. */
  ghost predicate SupportInv(s: State, x: Support) {
    && x.voter in s.nodes
    && x.term <= s.nodes[x.voter].term
    && (x.term == s.nodes[x.voter].term ==> s.nodes[x.voter].votedFor == Some(x.candidate))
  }

  /** A granted vote was cast, and went to a log that the voter's log is not ahead of. */
  ghost predicate GrantInv(s: State, g: Grant) {
    && Support(g.msg.to, g.msg.body.term, g.msg.body.candidate) in s.hist.supports
    && Held(g.msg.to, g.ourTerm, g.voterLog) in s.hist.held
    && Held(g.msg.body.candidate, g.msg.body.term, g.msg.snapshot) in s.hist.held
    && g.ourTerm <= g.msg.body.term
    && !AheadOf(g.voterLog, LastTerm(g.msg.snapshot), |g.msg.snapshot|)
  }

  ghost predicate VoteInv(s: State) {
    && (forall x | x in s.hist.supports :: SupportInv(s, x))
    && (forall x, y | x in s.hist.supports && y in s.hist.supports && x.voter == y.voter && x.term == y.term :: x == y)
    && (forall g | g in s.hist.grants :: GrantInv(s, g))
    && (forall g, h | g in s.hist.grants && h in s.hist.grants && g.msg.to == h.msg.to
      && g.msg.body.term == h.msg.body.term :: g == h)
  }

  // ----- Preservation

  /** The vote the action casts. */
  ghost predicate Casts(cfg: Config, s: State, a: Action)
    requires Enabled(cfg, s, a)
  {
    || a.StartBallot?
    || (a.TakeVote? &&
        var r := OnVoteRequest(a.vote.to, s.nodes[a.vote.to], a.vote.body).response.reason;
        r.IncompleteLog? || r.VoteGranted?)
  }

  ghost function Cast(cfg: Config, s: State, a: Action): Support
    requires Enabled(cfg, s, a) && Casts(cfg, s, a)
  {
    if a.StartBallot? then Support(a.n, s.nodes[a.n].term + 1, a.n)
    else Support(a.vote.to, a.vote.body.term, a.vote.body.candidate)
  }

  ghost function CastGrant(cfg: Config, s: State, a: Action): Grant
    requires Enabled(cfg, s, a) && Casts(cfg, s, a)
  {
    if a.StartBallot? then OwnGrant(a.n, OpenBallot(a.n, s.nodes[a.n]), s.nodes[a.n].epoch + 1)
    else Grant(a.vote, s.nodes[a.vote.to].term, s.nodes[a.vote.to].log, s.hist.clock)
  }

  /** A vote is cast only in a term the voter has not voted in; nothing else touches `voted_for`. */
  lemma CastEffect(cfg: Config, s: State, a: Action)
    requires Enabled(cfg, s, a)
    ensures var n := s.nodes[Actor(a)]; var n' := NodeAfter(cfg, s, a);
            if Casts(cfg, s, a) then
              var x := Cast(cfg, s, a); var g := CastGrant(cfg, s, a);
              && x.voter == Actor(a) && n'.term == x.term && n'.votedFor == Some(x.candidate)
              && (n.term < x.term || (n.term == x.term && n.votedFor.None?))
              && SupportsAfter(cfg, s, a) == s.hist.supports + {x}
              && (GrantsAfter(cfg, s, a) == s.hist.grants || GrantsAfter(cfg, s, a) == s.hist.grants + {g})
              && g.msg.to == x.voter && g.msg.body.term == x.term && g.msg.body.candidate == x.candidate
            else
              && n'.votedFor == n.votedFor
              && SupportsAfter(cfg, s, a) == s.hist.supports
              && GrantsAfter(cfg, s, a) == s.hist.grants
  {
  }

  lemma GrantedCast(cfg: Config, s: State, a: Action)
    requires Basic(cfg, s) && Enabled(cfg, s, a) && Casts(cfg, s, a)
    requires CastGrant(cfg, s, a) in GrantsAfter(cfg, s, a) - s.hist.grants
    ensures GrantInv(Do(cfg, s, a), CastGrant(cfg, s, a))
  {
    hide AppendMsgInv, AppendAnsInv, VoteAnsInv;
    assert NodeInv(cfg, s, Actor(a));
    if a.TakeVote? {
      assert VoteMsgInv(s, a.vote);
    }
  }

  /** What the step did to the votes of node `i`: it cast one, perhaps granting it, or cast none. */
  ghost predicate VoteEffect(s: State, s': State, i: NodeId, cast: Option<(Support, Grant)>)
    requires i in s.nodes && i in s'.nodes
  {
    var (n, n') := (s.nodes[i], s'.nodes[i]);
    match cast
    case Some((x, g)) =>
      && x.voter == i && n'.term == x.term && n'.votedFor == Some(x.candidate)
      && (n.term < x.term || (n.term == x.term && n.votedFor.None?))
      && s'.hist.supports == s.hist.supports + {x}
      && (s'.hist.grants == s.hist.grants || (s'.hist.grants == s.hist.grants + {g} && GrantInv(s', g)))
      && g.msg.to == i && g.msg.body.term == x.term
    case None =>
      n'.votedFor == n.votedFor && s'.hist.supports == s.hist.supports && s'.hist.grants == s.hist.grants
  }

  lemma VoteKeep(s: State, s': State, i: NodeId, cast: Option<(Support, Grant)>)
    requires Frame(s, s', i) && VoteInv(s) && s.nodes[i].term <= s'.nodes[i].term
    requires VoteEffect(s, s', i, cast)
    ensures VoteInv(s')
  {
    forall y | y in s'.hist.supports ensures SupportInv(s', y) {
      if y in s.hist.supports { assert SupportInv(s, y); }
    }
    forall h | h in s'.hist.grants ensures GrantInv(s', h) {
      if h in s.hist.grants { assert GrantInv(s, h); }
    }
    forall h, k | h in s'.hist.grants && k in s'.hist.grants && h.msg.to == k.msg.to
      && h.msg.body.term == k.msg.body.term
      ensures h == k
    {
      if h in s.hist.grants { assert GrantInv(s, h); }
      if k in s.hist.grants { assert GrantInv(s, k); }
    }
  }

  lemma VoteStep(cfg: Config, s: State, a: Action)
    requires Basic(cfg, s) && Enabled(cfg, s, a) && VoteInv(s) && TermsRise(s, Do(cfg, s, a))
    ensures VoteInv(Do(cfg, s, a))
  {
    hide Basic, VoteInv, NodeAfter, Frame, GrantInv;
    CastEffect(cfg, s, a);
    FrameHolds(cfg, s, a);
    var s' := Do(cfg, s, a);
    if Casts(cfg, s, a) {
      if CastGrant(cfg, s, a) in s'.hist.grants - s.hist.grants { GrantedCast(cfg, s, a); }
      VoteKeep(s, s', Actor(a), Some((Cast(cfg, s, a), CastGrant(cfg, s, a))));
    } else {
      VoteKeep(s, s', Actor(a), None);
    }
  }

  /** The voter has not voted in the term before. */
  lemma CastIsFirst(cfg: Config, s: State, a: Action, x: Support)
    requires Enabled(cfg, s, a) && VoteInv(s) && Casts(cfg, s, a) && x in s.hist.supports
    ensures x.voter != Actor(a) || x.term != Cast(cfg, s, a).term
  {
    CastEffect(cfg, s, a);
    hide NodeAfter;
    assert SupportInv(s, x);
  }

  lemma VoteInit(cfg: Config, s: State)
    requires Init(cfg, s)
    ensures VoteInv(s)
  {
  }
}
