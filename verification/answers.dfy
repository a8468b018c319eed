/** What every request and every answer says, and what giving an answer does to a node, in every run. */
module Answers {
  import opened Types
  import opened NodeSteps
  import opened Cluster
  import opened AnyRun
  import opened Votes

  // ----- Votes

  /** The node takes part in the election: the request's term is above its own, or is its own and it never voted. */
  predicate TakesPart(n: Node, r: VoteRequest) {
    r.term > n.term || (r.term == n.term && n.votedFor.None?)
  }

  /** The candidate's log ends in a later term than the voter's, or in the same one and no earlier. */
  predicate UpToDate(r: VoteRequest, log: Log) {
    r.lastTerm > LastTerm(log) || (r.lastTerm == LastTerm(log) && r.lastIndex >= |log|)
  }

  /** The answer `v` to the request `r`, by node `id` with the value `n` before and `n'` after. */
  ghost predicate VoteAnswer(id: NodeId, n: Node, r: VoteRequest, v: VoteResponse, n': Node) {
    && v.id == id && v.term == n.term
    && (v.granted <==> TakesPart(n, r) && UpToDate(r, n.log))
    && (v.reason.VoteGranted? <==> v.granted)
    && (v.reason.IncompleteLog? <==> TakesPart(n, r) && !UpToDate(r, n.log))
    && (v.reason.AlreadyVoted? <==> r.term == n.term && n.votedFor.Some?)
    && (v.reason.StaleCandidate? <==> r.term < n.term)
    && n' == if TakesPart(n, r) then n.(term := r.term, votedFor := Some(r.candidate), role := Follower) else n
  }

  /** In step `j` node `id` gives the answer `v`. */
  ghost predicate VoteAnsweredAt(r: Run, j: nat, v: VoteAns) {
    && j < |r.acts| && j + 1 < |r.states| && r.acts[j] == TakeVote(v.msg)
    && v.msg.to in r.states[j].nodes && v.msg.to in r.states[j + 1].nodes
    && v.voterLog == r.states[j].nodes[v.msg.to].log
    && VoteAnswer(v.msg.to, r.states[j].nodes[v.msg.to], v.msg.body, v.body, r.states[j + 1].nodes[v.msg.to])
  }

  lemma VoteAnswerNow(cfg: Config, s: State, m: VoteMsg)
    requires Enabled(cfg, s, TakeVote(m))
    ensures m.to in s.nodes
    ensures VoteAnswer(m.to, s.nodes[m.to], m.body, OnVoteRequest(m.to, s.nodes[m.to], m.body).response,
                       NodeAfter(cfg, s, TakeVote(m)))
  {
  }

  lemma {:induction false} ClockIs(cfg: Config, r: Run, k: nat)
    requires ValidRun(cfg, r) && k < |r.states|
    ensures r.states[k].hist.clock == k
  {
    hide Do, Enabled;
    if k > 0 {
      ClockIs(cfg, r, k - 1);
      assert StepAt(cfg, r, k - 1);
      FrameHolds(cfg, r.states[k - 1], r.acts[k - 1]);
    }
  }

  ghost function VoteAnswerAt(s: State, m: VoteMsg): VoteAns
    requires m.to in s.nodes
  {
    VoteAns(m, OnVoteRequest(m.to, s.nodes[m.to], m.body).response, s.nodes[m.to].log, s.hist.clock)
  }

  lemma VoteAnswerStep(cfg: Config, r: Run, j: nat, m: VoteMsg)
    requires ValidRun(cfg, r) && j < |r.acts| && r.acts[j] == TakeVote(m)
    ensures m.to in r.states[j].nodes && VoteAnsweredAt(r, j, VoteAnswerAt(r.states[j], m))
    ensures VoteAnswerAt(r.states[j], m).moment == j && VoteAnswerAt(r.states[j], m) in r.states[j + 1].voteAnswers
  {
    hide Init, NodeAfter, OnVoteRequest, VoteAnswer;
    assert StepAt(cfg, r, j);
    VoteAnswerNow(cfg, r.states[j], m);
    ClockIs(cfg, r, j);
  }

  /** Every vote request that is taken is answered, in the same step. */
  lemma VoteAnswered(cfg: Config, r: Run, j: nat, m: VoteMsg) returns (v: VoteAns)
    requires ValidRun(cfg, r) && j < |r.acts| && r.acts[j] == TakeVote(m)
    ensures v.msg == m && v.moment == j && v in r.states[j + 1].voteAnswers && VoteAnsweredAt(r, j, v)
  {
    VoteAnswerStep(cfg, r, j, m);
    v := VoteAnswerAt(r.states[j], m);
  }

  /** Every vote answer in flight was given at its moment. */
  lemma {:induction false} VoteAnswerGiven(cfg: Config, r: Run, k: nat, v: VoteAns)
    requires ValidRun(cfg, r) && k < |r.states| && v in r.states[k].voteAnswers
    ensures v.moment < k && VoteAnsweredAt(r, v.moment, v)
  {
    hide Init, Do, Enabled, VoteAnsweredAt;
    if k == 0 {
      NothingInFlight(cfg, r.states[0]);
    } else {
      assert StepAt(cfg, r, k - 1);
      NewVoteAnswer(cfg, r.states[k - 1], r.acts[k - 1], v);
      if v in r.states[k - 1].voteAnswers {
        VoteAnswerGiven(cfg, r, k - 1, v);
      } else {
        VoteAnswerStep(cfg, r, k - 1, v.msg);
      }
    }
  }

  lemma NothingInFlight(cfg: Config, s: State)
    requires Init(cfg, s)
    ensures s.voteMsgs == {} && s.voteAnswers == {} && s.appendMsgs == {} && s.appendAnswers == {}
  {
  }

  lemma NewVoteAnswer(cfg: Config, s: State, a: Action, v: VoteAns)
    requires Enabled(cfg, s, a) && v in Do(cfg, s, a).voteAnswers
    ensures v in s.voteAnswers || (a == TakeVote(v.msg) && v.msg.to in s.nodes && v == VoteAnswerAt(s, v.msg))
  {
    hide NodeAfter, OnVoteRequest;
  }

  // ----- What a node remembers of its votes

  /** By step `k` node `n` has voted, in whatever term: it came with a vote, or has cast one. */
  ghost predicate EverVoted(r: Run, k: nat, n: NodeId) {
    && k < |r.states| && n in r.states[0].nodes
    && (r.states[0].nodes[n].votedFor.Some? || exists x :: x in r.states[k].hist.supports && x.voter == n)
  }

  /** In every run a vote once cast is never forgotten, and nothing else counts as one. */
  lemma {:induction false} VoteRemembered(cfg: Config, r: Run, k: nat, n: NodeId)
    requires ValidRun(cfg, r) && k < |r.states| && n in r.states[k].nodes
    ensures r.states[k].nodes[n].votedFor.Some? <==> EverVoted(r, k, n)
  {
    hide Init, Do, Enabled, NodeAfter, Casts, Cast;
    NodesFixed(cfg, r, 0);
    NodesFixed(cfg, r, k);
    if k == 0 {
      NobodyVoted(cfg, r.states[0]);
    } else {
      NodesFixed(cfg, r, k - 1);
      VoteRemembered(cfg, r, k - 1, n);
      assert StepAt(cfg, r, k - 1);
      CastStep(cfg, r.states[k - 1], r.acts[k - 1], n);
    }
  }

  lemma NobodyVoted(cfg: Config, s: State)
    requires Init(cfg, s)
    ensures s.hist.supports == {}
  {
  }

  lemma CastStep(cfg: Config, s: State, a: Action, n: NodeId)
    requires Enabled(cfg, s, a) && n in s.nodes
    ensures var s' := Do(cfg, s, a);
            && n in s'.nodes && s.hist.supports <= s'.hist.supports
            && (n == Actor(a) && Casts(cfg, s, a) ==>
                  s'.nodes[n].votedFor.Some? && exists x :: x in s'.hist.supports && x.voter == n)
            && (!(n == Actor(a) && Casts(cfg, s, a)) ==>
                  && (s'.nodes[n].votedFor.Some? <==> s.nodes[n].votedFor.Some?)
                  && forall x | x in s'.hist.supports && x.voter == n :: x in s.hist.supports)
  {
    CastEffect(cfg, s, a);
    FrameHolds(cfg, s, a);
    hide NodeAfter, Cast;
    if Casts(cfg, s, a) { assert Cast(cfg, s, a) in Do(cfg, s, a).hist.supports; }
    hide Casts;
  }

  /** The answers to vote requests, by what the voter did before: it refuses its own term's candidates once it has
      voted, in whatever term; it refuses lower terms; it supports all others, and grants those whose log is up to
      date. */
  lemma VoteAnswersExactly(cfg: Config, r: Run, j: nat, m: VoteMsg) returns (v: VoteAns)
    requires ValidRun(cfg, r) && j < |r.acts| && r.acts[j] == TakeVote(m)
    ensures v in r.states[j + 1].voteAnswers && v.msg == m && m.to in r.states[j].nodes && m.to in r.states[j + 1].nodes
    ensures var (n, n') := (r.states[j].nodes[m.to], r.states[j + 1].nodes[m.to]);
            var refuses := m.body.term < n.term || (m.body.term == n.term && EverVoted(r, j, m.to));
            && v.body.term == n.term && v.body.id == m.to
            && (v.body.granted <==> !refuses && UpToDate(m.body, n.log))
            && v.body.reason == (if m.body.term < n.term then StaleCandidate else if refuses then AlreadyVoted
                                 else if UpToDate(m.body, n.log) then VoteGranted else IncompleteLog)
            && n' == if refuses then n
                     else n.(term := m.body.term, votedFor := Some(m.body.candidate), role := Follower)
  {
    hide ValidRun, EverVoted, UpToDate;
    v := VoteAnswered(cfg, r, j, m);
    VoteRemembered(cfg, r, j, m.to);
  }

  // ----- Appends

  /** The node has the entry that the request follows, or the request follows none. */
  predicate Follows(log: Log, r: AppendRequest) {
    r.prevIndex <= |log| && (r.prevIndex == 0 || log[r.prevIndex - 1].term == r.prevTerm)
  }

  /** The answer `v` to the request `r`, by node `id` with the value `n` before and `n'` after.  Whoever is not
      ahead of the request's term follows its sender from then on, whether or not it can append. */
  ghost predicate AppendAnswer(id: NodeId, n: Node, r: AppendRequest, v: AppendResponse, n': Node) {
    && v.id == id && v.term == n.term
    && (v.success <==> r.term >= n.term && Follows(n.log, r))
    && (v.reason.Appended? <==> v.success)
    && (v.reason.StaleLeader? <==> r.term < n.term)
    && (v.reason.LogMismatch? <==> r.term >= n.term && !Follows(n.log, r))
    && v.len == (if v.success then |r.entries| else 0)
    && (if r.term < n.term then n' == n else
          && n' == n.(term := r.term, hint := Some(r.leader), role := Follower, log := n'.log, commit := n'.commit)
          && (if v.success then AppendsTo(n.log, r, n'.log, n'.commit) else n'.log == n.log && n'.commit == n.commit))
  }

  /** The log after an append: what precedes it stays, its entries follow, and nothing else; and the commit index. */
  ghost predicate AppendsTo(log: Log, r: AppendRequest, log': Log, commit': nat) {
    && r.prevIndex <= |log| && |log'| == r.prevIndex + |r.entries|
    && log'[..r.prevIndex] == log[..r.prevIndex] && log'[r.prevIndex..] == r.entries
    && commit' <= r.commit && commit' <= |log'| && (commit' == r.commit || commit' == |log'|)
  }

  /** In step `j` node `id` gives the answer `v`. */
  ghost predicate AppendAnsweredAt(r: Run, j: nat, v: AppendAns) {
    && j < |r.acts| && j + 1 < |r.states| && r.acts[j] == TakeAppend(v.msg)
    && v.msg.to in r.states[j].nodes && v.msg.to in r.states[j + 1].nodes
    && v.logAfter == r.states[j + 1].nodes[v.msg.to].log
    && AppendAnswer(v.msg.to, r.states[j].nodes[v.msg.to], v.msg.body, v.body, r.states[j + 1].nodes[v.msg.to])
  }

  lemma AppendAnswerNow(cfg: Config, s: State, m: AppendMsg)
    requires Enabled(cfg, s, TakeAppend(m))
    ensures m.to in s.nodes
    ensures AppendAnswer(m.to, s.nodes[m.to], m.body, OnAppendRequest(m.to, s.nodes[m.to], m.body).response,
                         NodeAfter(cfg, s, TakeAppend(m)))
  {
    var log := s.nodes[m.to].log;
    if Follows(log, m.body) {
      assert RemoveAfter(log, m.body.prevIndex) == log[..m.body.prevIndex];
    }
  }

  ghost function AppendAnswerAt(s: State, m: AppendMsg): AppendAns
    requires m.to in s.nodes
  {
    var o := OnAppendRequest(m.to, s.nodes[m.to], m.body);
    AppendAns(m, o.response, o.node.log, s.hist.clock)
  }

  lemma AppendAnswerStep(cfg: Config, r: Run, j: nat, m: AppendMsg)
    requires ValidRun(cfg, r) && j < |r.acts| && r.acts[j] == TakeAppend(m)
    ensures m.to in r.states[j].nodes && AppendAnsweredAt(r, j, AppendAnswerAt(r.states[j], m))
    ensures AppendAnswerAt(r.states[j], m).moment == j
    ensures AppendAnswerAt(r.states[j], m) in r.states[j + 1].appendAnswers
  {
    hide Init, OnAppendRequest, AppendAnswer;
    assert StepAt(cfg, r, j);
    AppendAnswerNow(cfg, r.states[j], m);
    ClockIs(cfg, r, j);
  }

  /** Every append request that is taken is answered, in the same step. */
  lemma AppendAnswered(cfg: Config, r: Run, j: nat, m: AppendMsg) returns (v: AppendAns)
    requires ValidRun(cfg, r) && j < |r.acts| && r.acts[j] == TakeAppend(m)
    ensures v.msg == m && v.moment == j && v in r.states[j + 1].appendAnswers && AppendAnsweredAt(r, j, v)
  {
    AppendAnswerStep(cfg, r, j, m);
    v := AppendAnswerAt(r.states[j], m);
  }

  lemma NewAppendAnswer(cfg: Config, s: State, a: Action, v: AppendAns)
    requires Enabled(cfg, s, a) && v in Do(cfg, s, a).appendAnswers
    ensures v in s.appendAnswers || (a == TakeAppend(v.msg) && v.msg.to in s.nodes && v == AppendAnswerAt(s, v.msg))
  {
    hide NodeAfter, OnAppendRequest;
  }

  /** Every append answer in flight was given at its moment. */
  lemma {:induction false} AppendAnswerGiven(cfg: Config, r: Run, k: nat, v: AppendAns)
    requires ValidRun(cfg, r) && k < |r.states| && v in r.states[k].appendAnswers
    ensures v.moment < k && AppendAnsweredAt(r, v.moment, v)
  {
    hide Init, Do, Enabled, AppendAnsweredAt;
    if k == 0 {
      NothingInFlight(cfg, r.states[0]);
    } else {
      assert StepAt(cfg, r, k - 1);
      NewAppendAnswer(cfg, r.states[k - 1], r.acts[k - 1], v);
      if v in r.states[k - 1].appendAnswers {
        AppendAnswerGiven(cfg, r, k - 1, v);
      } else {
        AppendAnswerStep(cfg, r, k - 1, v.msg);
      }
    }
  }

  // ----- Requests

  /** In step `j` the request is sent, for the candidate's term and log of that moment. */
  ghost predicate VoteSentAt(r: Run, j: nat, m: VoteMsg) {
    && j < |r.acts| && j < |r.states| && r.acts[j] == SendVote(m.body.candidate, m.sid, m.to)
    && m.body.candidate in r.states[j].nodes
    && var n := r.states[j].nodes[m.body.candidate];
       m.snapshot == n.log && m.body.term == n.term && m.body.lastIndex == |n.log|
       && m.body.lastTerm == (if n.log == [] then 0 else n.log[|n.log| - 1].term)
  }

  /** In step `j` the request is sent, for the sender's term, log and commit index of that moment: a heartbeat without
      entries, or all entries that follow the previous index. */
  ghost predicate AppendSentAt(r: Run, j: nat, m: AppendMsg) {
    && j < |r.acts| && j < |r.states| && m.body.leader in r.states[j].nodes
    && r.acts[j] == (if m.heartbeat then SendHeartbeat(m.body.leader, m.sid, m.to)
                     else SendEntries(m.body.leader, m.sid, m.to, m.body.prevIndex + 1))
    && var n := r.states[j].nodes[m.body.leader];
       && m.snapshot == n.log && m.body.term == n.term && m.body.commit == n.commit
       && (if m.heartbeat then m.body.prevIndex == 0 && m.body.prevTerm == 0 && m.body.entries == []
           else && 1 <= m.body.prevIndex <= |n.log| && m.body.prevTerm == n.log[m.body.prevIndex - 1].term
                && m.body.entries == n.log[m.body.prevIndex..])
  }

  ghost predicate AppendSentBefore(r: Run, k: nat, m: AppendMsg) {
    exists j: nat | j < k :: AppendSentAt(r, j, m)
  }

  /** Every vote request in flight was sent. */
  lemma {:induction false} VoteRequestSent(cfg: Config, r: Run, k: nat, m: VoteMsg) returns (j: nat)
    requires ValidRun(cfg, r) && k < |r.states| && m in r.states[k].voteMsgs
    ensures j < k && VoteSentAt(r, j, m)
  {
    hide Init, NodeAfter;
    if k == 0 {
      NothingInFlight(cfg, r.states[0]);
    } else {
      assert StepAt(cfg, r, k - 1);
      if m in r.states[k - 1].voteMsgs { j := VoteRequestSent(cfg, r, k - 1, m); } else { j := k - 1; }
    }
  }

  /** Every append request in flight was sent. */
  lemma {:induction false} AppendRequestSent(cfg: Config, r: Run, k: nat, m: AppendMsg) returns (j: nat)
    requires ValidRun(cfg, r) && k < |r.states| && m in r.states[k].appendMsgs
    ensures j < k && AppendSentAt(r, j, m)
  {
    hide Init, Do, Enabled, AppendSentAt;
    if k == 0 {
      NothingInFlight(cfg, r.states[0]);
    } else {
      assert StepAt(cfg, r, k - 1);
      if m in r.states[k - 1].appendMsgs {
        j := AppendRequestSent(cfg, r, k - 1, m);
      } else {
        j := k - 1;
        AppendSentNow(cfg, r, k - 1, m);
      }
    }
  }

  lemma AppendSentNow(cfg: Config, r: Run, j: nat, m: AppendMsg)
    requires StepAt(cfg, r, j) && m in r.states[j + 1].appendMsgs && m !in r.states[j].appendMsgs
    ensures AppendSentAt(r, j, m)
  {
    hide NodeAfter;
  }
}
