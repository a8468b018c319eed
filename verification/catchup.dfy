/** How a leader finds the point from which a lagging follower's log agrees with its own. */
module CatchUp {
  import opened Types
  import opened Median
  import opened NodeSteps
  import opened Answers
  import opened Advances
  import opened Replicas
  import opened Sessions

  /** The length of the longest common prefix. */
  ghost function Common(a: Log, b: Log): (k: nat)
    ensures k <= |a| && k <= |b| && a[..k] == b[..k]
    ensures k < |a| && k < |b| ==> a[k] != b[k]
  {
    if a == [] || b == [] || a[0] != b[0] then 0 else
      var k := Common(a[1..], b[1..]);
      assert a[..k + 1] == [a[0]] + a[1..][..k] && b[..k + 1] == [b[0]] + b[1..][..k];
      k + 1
  }

  lemma CommonAtLeast(a: Log, b: Log, p: nat)
    requires SameUpTo(a, b, p)
    ensures p <= Common(a, b)
  {
    forall i | 0 <= i < p ensures a[i] == b[i] { assert a[..p][i] == b[..p][i]; }
  }

  lemma CommonEntry(a: Log, b: Log, i: nat)
    requires i < Common(a, b)
    ensures a[i] == b[i]
  {
    assert a[..Common(a, b)][i] == b[..Common(a, b)][i];
  }

  /** Between logs that match, a request is refused exactly when it starts beyond the common prefix. */
  lemma RefusedBeyondCommon(leader: Log, follower: Log, r: AppendRequest)
    requires Matching(leader, follower) && 1 <= r.prevIndex <= |leader| && r.prevTerm == leader[r.prevIndex - 1].term
    ensures Mismatch(follower, r) <==> r.prevIndex > Common(leader, follower)
  {
    if r.prevIndex <= Common(leader, follower) { CommonEntry(leader, follower, r.prevIndex - 1); }
    if !Mismatch(follower, r) { CommonAtLeast(leader, follower, r.prevIndex); }
  }

  lemma AcceptedWithin(leader: Log, follower: Log, p: nat)
    requires 1 <= p <= Common(leader, follower)
    ensures RemoveAfter(follower, p) + leader[p..] == leader
  {
    var k := Common(leader, follower);
    assert leader[..p] == leader[..k][..p] && follower[..p] == follower[..k][..p];
    assert leader == leader[..p] + leader[p..];
  }

  /** One request of the exchange, from the next index `next`: whether the follower accepts, and what it answers. */
  lemma OneTry(me: NodeId, leader: Node, peer: NodeId, n: Node, next: nat)
    requires n.term <= leader.term && Matching(leader.log, n.log) && Composable(leader.log, next)
    ensures var o := OnAppendRequest(peer, n, Compose(me, leader, next));
            var accepts := next - 1 <= Common(leader.log, n.log);
            && o.node == n.(term := leader.term, role := Follower, hint := Some(me),
                            log := if accepts then leader.log else n.log,
                            commit := if accepts then Min(leader.commit, |leader.log|) else n.commit)
            && o.response == AppendResponse(n.term, accepts, peer, if accepts then |leader.log| + 1 - next else 0,
                                            if accepts then Appended else LogMismatch)
  {
    RefusedBeyondCommon(leader.log, n.log, Compose(me, leader, next));
    if next - 1 <= Common(leader.log, n.log) { AcceptedWithin(leader.log, n.log, next - 1); }
  }

  /** The leader is as before but for the peer's entry in session 0 and, if it credits a success, the commit index. */
  ghost predicate LeaderMoves(n: Node, p: NodeId, e: Progress, n': Node, credits: bool) {
    EntryBecomes(n, 0, p, e, n') && (if credits then CommitRule(n, n'.peers[0], n'.commit) else n'.commit == n.commit)
  }

  /** What the answer of `OneTry` does to the leader. */
  lemma OneAnswer(leader: Node, v: AppendResponse, n': Node, next: nat)
    requires 0 in leader.peers && v.id in leader.peers[0] && leader.peers[0][v.id].next == next
    requires Composable(leader.log, next) && AnswerEffect(leader, 0, false, v, n') && !v.reason.StaleLeader?
    requires v.reason.Appended? ==> v.len == |leader.log| + 1 - next
    ensures v.reason.LogMismatch? ==>
              LeaderMoves(leader, v.id, Progress(next - 1, leader.peers[0][v.id].matched), n', false)
    ensures v.reason.Appended? ==>
              LeaderMoves(leader, v.id, Progress(next + |leader.log| + 1, Some(|leader.log|)), n', true)
  {
    hide CommitRule;
  }

  /** One request to the follower, and what its answer does to the session; `m` says what the fields of a node are that
      neither keeps, with the session as number 0. */
  method Try(session: ReplicationSession, follower: RaftNode, ghost m: Node) returns (accepted: Option<nat>)
    requires session.node != follower && follower.id in session.peers
    requires follower.currentTerm <= session.node.currentTerm && Matching(session.node.log, follower.log)
    requires Composable(session.node.log, session.peers[follower.id].next)
    modifies session, session.node, follower
    ensures var was := old(session.peers[follower.id]);
            var (leader, n, n') := (old(session.In(m, 0)), old(follower.In(m)), follower.In(m));
            && accepted == (if was.next - 1 <= Common(leader.log, n.log) then Some(was.next - 1) else None)
            && n' == n.(term := leader.term, role := Follower, hint := Some(session.node.id),
                        log := if accepted.Some? then leader.log else n.log,
                        commit := if accepted.Some? then Min(leader.commit, |leader.log|) else n.commit)
            && var e := (if accepted.Some? then Progress(was.next + |leader.log| + 1, Some(|leader.log|))
                         else Progress(was.next - 1, was.matched));
               LeaderMoves(leader, follower.id, e, session.In(m, 0), accepted.Some?)
  {
    hide Matching, CommitRule, OnEntriesReply, LeaderMoves, AnswerEffect, AppendAnswer, Common, Panics;
    var p := follower.id;
    var next := session.peers[p].next;
    ghost var leader := session.In(m, 0);
    ghost var n := follower.In(m);
    OneTry(session.node.id, leader, p, n, next);
    hide OnAppendRequest, Compose;
    var request := session.ComposeFor(p);
    assert leader == session.In(m, 0) && request.value == Compose(session.node.id, session.In(m, 0), next);
    var response := follower.RespondToAppendEntries(request.value);
    assert follower.In(m) == OnAppendRequest(p, n, request.value).node;
    assert session.In(m, 0) == leader && leader.peers[0] == session.peers && response.id == p;
    var over := session.HandleReply(response);
    assert AnswerEffect(leader, 0, false, response, session.In(m, 0));
    OneAnswer(leader, response, session.In(m, 0), next);
    accepted := if response.success then Some(next - 1) else None;
  }

  lemma MovesAgain(n: Node, p: NodeId, e: Progress, n1: Node, e': Progress, n': Node, credits: bool)
    requires LeaderMoves(n, p, e, n1, false) && LeaderMoves(n1, p, e', n', credits)
    ensures LeaderMoves(n, p, e', n', credits)
  {
    hide Middle;
    var table: Peers := n1.peers[0][p := e'];
    assert table == n.peers[0][p := e'] && n1.peers[0 := table] == n.peers[0 := table];
  }

  lemma NotMoved(n: Node, p: NodeId)
    requires 0 in n.peers && p in n.peers[0]
    ensures LeaderMoves(n, p, n.peers[0][p], n, false)
  {
    var table: Peers := n.peers[0][p := n.peers[0][p]];
    assert table == n.peers[0] && n.peers[0 := table] == n.peers;
  }

  lemma OnTable(n: Node, p: NodeId, e: Progress, n': Node, credits: bool)
    requires LeaderMoves(n, p, e, n', credits)
    ensures n'.term == n.term && n'.log == n.log && 0 in n'.peers && p in n'.peers[0] && n'.peers[0][p] == e
    ensures !credits ==> n'.commit == n.commit
  {
  }

  /** The follower after `mismatches` refusals, and the acceptance if there was one. */
  ghost predicate FollowerMoves(leader: Node, me: NodeId, n: Node, n': Node, mismatches: nat, accepted: bool) {
    n' == if mismatches == 0 && !accepted then n else
            n.(term := leader.term, role := Follower, hint := Some(me),
               log := if accepted then leader.log else n.log,
               commit := if accepted then Min(leader.commit, |leader.log|) else n.commit)
  }

  /** The exchange between a leader and one follower whose logs stand still: compose from the peer's next index, let the
      follower respond, and let the session handle the answer.  It ends when the follower accepts or when no request can
      be composed.  Over logs that match, it is accepted exactly if they share their first entry; then it starts at the
      common prefix or, if that is lower, at the first index tried, after one mismatch for every index in between, and
      leaves the logs equal and the match index at their length. */
  method BringUp(session: ReplicationSession, follower: RaftNode, ghost m: Node)
    returns (accepted: Option<nat>, mismatches: nat)
    requires session.node != follower && follower.id in session.peers
    requires follower.currentTerm <= session.node.currentTerm && Matching(session.node.log, follower.log)
    requires Composable(session.node.log, session.peers[follower.id].next)
    modifies session, session.node, follower
    ensures var was := old(session.peers[follower.id]);
            var (leader, n) := (old(session.In(m, 0)), old(follower.In(m)));
            var shared := Common(leader.log, n.log);
            && accepted == (if shared > 0 then Some(Min(was.next - 1, shared)) else None)
            && mismatches == was.next - 1 - Min(was.next - 1, shared)
            && FollowerMoves(leader, session.node.id, n, follower.In(m), mismatches, shared > 0)
            && var e := (if shared > 0 then Progress(Min(was.next - 1, shared) + |leader.log| + 2, Some(|leader.log|))
                         else Progress(1, was.matched));
               LeaderMoves(leader, follower.id, e, session.In(m, 0), shared > 0)
  {
    hide Matching, LeaderMoves, Common;
    var p := follower.id;
    ghost var was := session.peers[p];
    ghost var (leader, n) := (session.In(m, 0), follower.In(m));
    ghost var shared := Common(leader.log, n.log);
    ghost var e := was;
    accepted, mismatches := None, 0;
    assert leader.peers[0] == session.peers;
    NotMoved(leader, p);
    while accepted.None? && Composable(session.node.log, session.peers[p].next)
      invariant LeaderMoves(leader, p, e, session.In(m, 0), accepted.Some?)
      invariant p in session.peers && session.peers[p] == e
      invariant FollowerMoves(leader, session.node.id, n, follower.In(m), mismatches, accepted.Some?)
      invariant mismatches < was.next && (mismatches > 0 ==> was.next - mismatches > shared)
      invariant accepted.None? ==> e == Progress(was.next - mismatches, was.matched)
      invariant accepted.Some? ==>
                  && 1 <= accepted.value == was.next - mismatches - 1 <= shared
                  && e == Progress(was.next - mismatches + |leader.log| + 1, Some(|leader.log|))
      decreases accepted.None?, session.peers[p].next
    {
      ghost var before := session.In(m, 0);
      OnTable(leader, p, e, before, false);
      ghost var n1 := follower.In(m);
      assert before.peers[0] == session.peers && n1.log == n.log && n1.term <= leader.term;
      accepted := Try(session, follower, m);
      if accepted.None? { mismatches := mismatches + 1; }
      ghost var e' := if accepted.Some? then Progress(e.next + |leader.log| + 1, Some(|leader.log|))
                      else Progress(e.next - 1, was.matched);
      MovesAgain(leader, p, e, before, e', session.In(m, 0), accepted.Some?);
      OnTable(leader, p, e', session.In(m, 0), accepted.Some?);
      assert session.In(m, 0).peers[0] == session.peers;
      e := e';
    }
    OnTable(leader, p, e, session.In(m, 0), accepted.Some?);
  }
}
