/** What a whole round of answers does to a progress table, answer by answer. */
module Rounds {
  import opened Types
  import opened Median
  import opened NodeSteps
  import opened Advances
  import opened Sessions

  function Mismatches(replies: seq<AppendResponse>, p: NodeId): nat {
    if replies == [] then 0
    else (if replies[0].reason.LogMismatch? && replies[0].id == p then 1 else 0) + Mismatches(replies[1..], p)
  }

  ghost function Successful(replies: seq<AppendResponse>): set<NodeId> {
    set v | v in replies && v.reason.Appended? :: v.id
  }

  /** No answer tells the leader to step down, and no peer sends more mismatches than its next index can bear. */
  ghost predicate Unbroken(table: Peers, replies: seq<AppendResponse>) {
    forall v | v in replies ::
      !v.reason.StaleLeader? && v.id in table && Mismatches(replies, v.id) <= table[v.id].next
  }

  /** And no success is reported where nothing precedes the next index. */
  ghost predicate UnbrokenEntries(table: Peers, replies: seq<AppendResponse>) {
    && Unbroken(table, replies)
    && forall v | v in replies && v.reason.Appended? :: Mismatches(replies, v.id) < table[v.id].next + v.len
  }

  /** The first answer does not end the round. */
  lemma FirstOf(n: Node, sid: nat, replies: seq<AppendResponse>)
    requires sid in n.peers && replies != [] && Unbroken(n.peers[sid], replies)
    ensures var (v, table, n', n'') := (replies[0], n.peers[sid], OnEntriesReply(n, sid, replies[0]),
                                        OnHeartbeatReply(n, sid, replies[0]));
            && !v.reason.StaleLeader? && v.id in table
            && (v.reason.LogMismatch? ==>
                  && table[v.id].next > 0 && n' == n''
                  && EntryBecomes(n, sid, v.id, Progress(table[v.id].next - 1, table[v.id].matched), n')
                  && n'.commit == n.commit)
            && (v.reason.Appended? ==> n'' == n)
            && (v.reason.Appended? && UnbrokenEntries(table, replies) ==>
                  && table[v.id].next + v.len > 0
                  && EntryBecomes(n, sid, v.id, Progress(table[v.id].next + table[v.id].next + v.len,
                                                         Some(table[v.id].next + v.len - 1)), n')
                  && CommitRule(n, n'.peers[sid], n'.commit))
  {
    hide CommitRule, OnEntriesReply, OnHeartbeatReply;
    var v := replies[0];
    assert v in replies;
    AnswerHasEffect(n, sid, v);
  }

  lemma RestUnbroken(table: Peers, replies: seq<AppendResponse>, table': Peers)
    requires replies != [] && Unbroken(table, replies) && table'.Keys == table.Keys
    requires forall p | p in table ::
               table'[p].next >= table[p].next - (Mismatches(replies, p) - Mismatches(replies[1..], p))
    ensures Unbroken(table', replies[1..])
    ensures UnbrokenEntries(table, replies) ==> UnbrokenEntries(table', replies[1..])
  {
    hide Mismatches;
    assert forall v | v in replies[1..] :: v in replies;
  }

  /** What a round that nothing ends makes of the leader: each peer without a success has its next index lowered by its
      mismatches, those with one are the only new ones to have a match index, and if there is any, the commit index
      reaches the index of the median's rank in the table, provided that the log has an entry of the term there. */
  ghost predicate RoundEffect(n: Node, sid: nat, replies: seq<AppendResponse>, n': Node) {
    && sid in n.peers && sid in n'.peers
    && n' == n.(peers := n.peers[sid := n'.peers[sid]], commit := n'.commit)
    && var (table, table') := (n.peers[sid], n'.peers[sid]);
    && table'.Keys == table.Keys
    && Reported(table') == Reported(table) + Successful(replies)
    && (forall p | p in table && p !in Successful(replies) ::
          table'[p].next + Mismatches(replies, p) == table[p].next && table'[p].matched == table[p].matched)
    && n'.commit >= n.commit && (Successful(replies) == {} ==> n'.commit == n.commit)
    && (Successful(replies) != {} ==> forall x | Middle(table', x) && OwnEntry(n.log, n.term, x) :: n'.commit >= x)
  }

  lemma SuccessfulSplit(replies: seq<AppendResponse>)
    requires replies != []
    ensures Successful(replies) ==
            (if replies[0].reason.Appended? then {replies[0].id} else {}) + Successful(replies[1..])
  {
    assert forall v :: v in replies <==> v == replies[0] || v in replies[1..];
  }

  lemma MismatchThenRound(n: Node, sid: nat, replies: seq<AppendResponse>, n1: Node, n': Node)
    requires sid in n.peers && replies != [] && replies[0].reason.LogMismatch?
    requires var (p, table) := (replies[0].id, n.peers[sid]);
             && p in table && table[p].next > 0 && n1.commit == n.commit
             && EntryBecomes(n, sid, p, Progress(table[p].next - 1, table[p].matched), n1)
    requires RoundEffect(n1, sid, replies[1..], n')
    ensures RoundEffect(n, sid, replies, n')
  {
    hide Successful, Middle, OwnEntry;
    SuccessfulSplit(replies);
    assert n1.peers[sid := n'.peers[sid]] == n.peers[sid := n'.peers[sid]];
  }

  /** Two tables with the same match indices have the same median. */
  lemma SameMatched(table: Peers, table': Peers, x: nat)
    requires table.Keys == table'.Keys && forall p | p in table :: table'[p].matched == table[p].matched
    ensures Middle(table, x) <==> Middle(table', x)
  {
    assert Reported(table) == Reported(table');
    assert forall y: nat :: Holding(table, y) == Holding(table', y);
  }

  lemma SuccessThenRound(n: Node, sid: nat, replies: seq<AppendResponse>, n1: Node, n': Node, e: Progress)
    requires sid in n.peers && replies != [] && replies[0].reason.Appended? && e.matched.Some?
    requires replies[0].id in n.peers[sid] && EntryBecomes(n, sid, replies[0].id, e, n1)
    requires CommitRule(n, n1.peers[sid], n1.commit)
    requires RoundEffect(n1, sid, replies[1..], n')
    ensures RoundEffect(n, sid, replies, n')
  {
    hide Successful, Middle, OwnEntry, CommitRule;
    SuccessfulSplit(replies);
    assert n1.peers[sid := n'.peers[sid]] == n.peers[sid := n'.peers[sid]];
    assert replies[0].id in Reported(n1.peers[sid]);
    forall x | Middle(n'.peers[sid], x) && OwnEntry(n.log, n.term, x) ensures n'.commit >= x {
      CommitRuleExactly(n, n1.peers[sid], n1.commit, x);
      if Successful(replies[1..]) == {} { SameMatched(n1.peers[sid], n'.peers[sid], x); }
    }
    CommitRuleExactly(n, n1.peers[sid], n1.commit, 0);
  }

  lemma NoReplies(n: Node, sid: nat)
    requires sid in n.peers
    ensures RoundEffect(n, sid, [], n)
  {
    hide Middle, OwnEntry;
    assert n.peers[sid := n.peers[sid]] == n.peers;
    assert Successful([]) == {};
  }

  /** A round of answers to replication requests that nothing ends has its whole effect. */
  lemma {:induction false} EntriesRoundExactly(n: Node, sid: nat, replies: seq<AppendResponse>)
    requires sid in n.peers && UnbrokenEntries(n.peers[sid], replies)
    ensures RoundEffect(n, sid, replies, EntriesRound(n, sid, replies))
    decreases |replies|
  {
    hide RoundEffect, OnEntriesReply, OnHeartbeatReply, CommitRule, Unbroken, Successful;
    if replies == [] {
      NoReplies(n, sid);
    } else {
      var (v, table, n1) := (replies[0], n.peers[sid], OnEntriesReply(n, sid, replies[0]));
      FirstOf(n, sid, replies);
      RestUnbroken(table, replies, n1.peers[sid]);
      EntriesRoundExactly(n1, sid, replies[1..]);
      if v.reason.LogMismatch? {
        MismatchThenRound(n, sid, replies, n1, EntriesRound(n, sid, replies));
      } else {
        SuccessThenRound(n, sid, replies, n1, EntriesRound(n, sid, replies),
                         Progress(table[v.id].next + table[v.id].next + v.len, Some(table[v.id].next + v.len - 1)));
      }
    }
  }

  /** Each mismatch lowers its sender's next index by one, and nothing else happens. */
  ghost predicate BeatEffect(n: Node, sid: nat, replies: seq<AppendResponse>, n': Node) {
    && sid in n.peers && sid in n'.peers && n' == n.(peers := n.peers[sid := n'.peers[sid]])
    && n'.peers[sid].Keys == n.peers[sid].Keys
    && forall p | p in n.peers[sid] ::
         && n'.peers[sid][p].next + Mismatches(replies, p) == n.peers[sid][p].next
         && n'.peers[sid][p].matched == n.peers[sid][p].matched
  }

  lemma BeatThenRound(n: Node, sid: nat, replies: seq<AppendResponse>, n1: Node, n': Node)
    requires sid in n.peers && replies != []
    requires var (v, table) := (replies[0], n.peers[sid]);
             if v.reason.LogMismatch? then
               && v.id in table && table[v.id].next > 0 && n1.commit == n.commit
               && EntryBecomes(n, sid, v.id, Progress(table[v.id].next - 1, table[v.id].matched), n1)
             else n1 == n
    requires BeatEffect(n1, sid, replies[1..], n')
    ensures BeatEffect(n, sid, replies, n')
  {
    assert n1.peers[sid := n'.peers[sid]] == n.peers[sid := n'.peers[sid]];
  }

  /** A round of answers to heartbeats that nothing ends has its whole effect. */
  lemma {:induction false} HeartbeatRoundExactly(n: Node, sid: nat, replies: seq<AppendResponse>)
    requires sid in n.peers && Unbroken(n.peers[sid], replies)
    ensures BeatEffect(n, sid, replies, HeartbeatRound(n, sid, replies))
    decreases |replies|
  {
    hide OnEntriesReply, OnHeartbeatReply, CommitRule, Unbroken, BeatEffect;
    if replies == [] {
      NoBeats(n, sid);
    } else {
      var n1 := OnHeartbeatReply(n, sid, replies[0]);
      FirstOf(n, sid, replies);
      RestUnbroken(n.peers[sid], replies, n1.peers[sid]);
      HeartbeatRoundExactly(n1, sid, replies[1..]);
      BeatThenRound(n, sid, replies, n1, HeartbeatRound(n, sid, replies));
    }
  }

  lemma NoBeats(n: Node, sid: nat)
    requires sid in n.peers
    ensures BeatEffect(n, sid, [], n)
  {
    assert n.peers[sid := n.peers[sid]] == n.peers;
  }

  // ----- What ends a round

  /** The answer ends the round: by its term, or because an index would fall below zero. */
  predicate Ends(table: Peers, v: AppendResponse) {
    || v.reason.StaleLeader? || v.id !in table
    || (table[v.id].next == 0 && (v.reason.LogMismatch? || v.len == 0))
  }

  /** What follows the answer that ends a round has no effect. */
  lemma {:induction false} EntriesRoundEnds(n: Node, sid: nat, before: seq<AppendResponse>, v: AppendResponse,
    after: seq<AppendResponse>)
    requires sid in n.peers && UnbrokenEntries(n.peers[sid], before)
    ensures var n' := EntriesRound(n, sid, before);
            && sid in n'.peers
            && (Ends(n'.peers[sid], v) ==>
                  EntriesRound(n, sid, before + [v] + after) ==
                  if v.reason.StaleLeader? then n'.(term := v.term, role := Follower) else n')
    decreases |before|
  {
    hide Advance, Credit, BackOff, CommitRule, Unbroken;
    var replies := before + [v] + after;
    if before == [] {
      assert replies[0] == v;
    } else {
      hide OnEntriesReply, OnHeartbeatReply;
      var n1 := OnEntriesReply(n, sid, before[0]);
      assert replies[0] == before[0] && replies[1..] == before[1..] + [v] + after;
      FirstOf(n, sid, before);
      RestUnbroken(n.peers[sid], before, n1.peers[sid]);
      EntriesRoundEnds(n1, sid, before[1..], v, after);
    }
  }

  /** The same for heartbeats; a success is no end. */
  lemma {:induction false} HeartbeatRoundEnds(n: Node, sid: nat, before: seq<AppendResponse>, v: AppendResponse,
    after: seq<AppendResponse>)
    requires sid in n.peers && Unbroken(n.peers[sid], before)
    ensures var n' := HeartbeatRound(n, sid, before);
            && sid in n'.peers
            && (Ends(n'.peers[sid], v) && !v.reason.Appended? ==>
                  HeartbeatRound(n, sid, before + [v] + after) ==
                  if v.reason.StaleLeader? then n'.(term := v.term, role := Follower) else n')
    decreases |before|
  {
    hide Advance, Credit, BackOff, CommitRule, Unbroken;
    var replies := before + [v] + after;
    if before == [] {
      assert replies[0] == v;
    } else {
      hide OnEntriesReply, OnHeartbeatReply;
      var n1 := OnHeartbeatReply(n, sid, before[0]);
      assert replies[0] == before[0] && replies[1..] == before[1..] + [v] + after;
      FirstOf(n, sid, before);
      RestUnbroken(n.peers[sid], before, n1.peers[sid]);
      HeartbeatRoundEnds(n1, sid, before[1..], v, after);
    }
  }
}
