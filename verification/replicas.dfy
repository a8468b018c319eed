/** The nodes and sessions of the source as objects that change in place, each method proved to do to the objects what
    the corresponding step does to a `Node` value. */
module Replicas {
  import opened Types
  import opened NodeSteps
  import opened Answers

  class RaftNode {
    const id: NodeId
    const membership: set<NodeId>
    var currentTerm: nat
    var votedFor: Option<NodeId>
    var role: Role
    var leaderId: Option<NodeId>
    var log: Log
    var commit: nat

    constructor (id: NodeId, membership: set<NodeId>, term: nat, votedFor: Option<NodeId>, log: Log, commit: nat)
      ensures this.id == id && this.membership == membership
      ensures forall n: Node ::
          In(n) == n.(term := term, votedFor := votedFor, role := Follower, hint := None, log := log, commit := commit)
    {
      this.id, this.membership := id, membership;
      this.currentTerm, this.votedFor, this.role, this.leaderId := term, votedFor, Follower, None;
      this.log, this.commit := log, commit;
    }

    /** The value this object stands for; the sessions of the node are objects of their own and are taken from `n`. */
    ghost function In(n: Node): Node
      reads this
    {
      n.(term := currentTerm, votedFor := votedFor, role := role, hint := leaderId, log := log, commit := commit)
    }

    method RespondToRequestVote(request: VoteRequest) returns (response: VoteResponse)
      modifies this
      ensures forall n: Node :: In(n) == OnVoteRequest(id, old(In(n)), request).node
      ensures forall n: Node :: response == OnVoteRequest(id, old(In(n)), request).response
      ensures forall n: Node :: VoteAnswer(id, old(In(n)), request, response, In(n))
    {
      var ourTerm := currentTerm;
      if ourTerm == request.term && votedFor.Some? {
        return VoteResponse(ourTerm, false, id, AlreadyVoted);
      }
      if ourTerm > request.term {
        return VoteResponse(ourTerm, false, id, StaleCandidate);
      }
      currentTerm, votedFor := request.term, Some(request.candidate);
      role := Follower;
      var ourLastTerm := LastTerm(log);
      if ourLastTerm > request.lastTerm || (ourLastTerm == request.lastTerm && |log| > request.lastIndex) {
        return VoteResponse(ourTerm, false, id, IncompleteLog);
      }
      return VoteResponse(ourTerm, true, id, VoteGranted);
    }

    method RespondToAppendEntries(request: AppendRequest) returns (response: AppendResponse)
      modifies this
      ensures forall n: Node :: In(n) == OnAppendRequest(id, old(In(n)), request).node
      ensures forall n: Node :: response == OnAppendRequest(id, old(In(n)), request).response
      ensures forall n: Node :: AppendAnswer(id, old(In(n)), request, response, In(n))
    {
      var ourTerm := currentTerm;
      var ourLastIndex := |log|;
      if ourTerm > request.term {
        return AppendResponse(ourTerm, false, id, 0, StaleLeader);
      }
      currentTerm := request.term;
      leaderId := Some(request.leader);
      role := Follower;
      if ourLastIndex < request.prevIndex {
        return AppendResponse(ourTerm, false, id, 0, LogMismatch);
      }
      var entry := GetEntry(log, request.prevIndex);
      if entry.Some? && entry.value.term != request.prevTerm {
        return AppendResponse(ourTerm, false, id, 0, LogMismatch);
      }
      log := RemoveAfter(log, request.prevIndex);
      log := log + request.entries;
      commit := Min(request.commit, |log|);
      return AppendResponse(ourTerm, true, id, |request.entries|, Appended);
    }

    /** The node opens a new term with a vote for itself. */
    method StandForElection()
      modifies this
      ensures forall n: Node :: In(n) == old(In(n)).(term := old(currentTerm) + 1, votedFor := Some(id))
    {
      currentTerm := currentTerm + 1;
      votedFor := Some(id);
    }

    /** A reply made the node step down. */
    method AdoptTerm(term: nat)
      modifies this
      ensures forall n: Node :: In(n) == StepDown(old(In(n)), term)
    {
      currentTerm := term;
      role := Follower;
    }
  }

  // ----- Vote sessions

  datatype VoteRound = VoteRound(node: Node, ballot: Ballot)

  /** One round of replies: the first that makes the candidate step down ends it, and so does the vote that decides. */
  function CountRound(n: Node, b: Ballot, replies: seq<VoteResponse>, members: nat): VoteRound
    decreases |replies|
  {
    if replies == [] then VoteRound(n, b)
    else if StepsDown(replies[0]) then VoteRound(StepDown(n, replies[0].term), b)
    else
      var b' := Tally(b, replies[0], members);
      if replies[0].granted && Enough(b'.granted, members) then VoteRound(n, b')
      else CountRound(n, b', replies[1..], members)
  }

  function Grants(replies: seq<VoteResponse>): nat {
    if replies == [] then 0 else (if replies[0].granted then 1 else 0) + Grants(replies[1..])
  }

  lemma {:induction false} RoundNode(n: Node, b: Ballot, replies: seq<VoteResponse>, members: nat)
    ensures var o := CountRound(n, b, replies, members);
            o.node == n || exists v :: v in replies && StepsDown(v) && o.node == StepDown(n, v.term)
    decreases |replies|
  {
    if replies != [] && !StepsDown(replies[0]) {
      RoundNode(n, Tally(b, replies[0], members), replies[1..], members);
    }
  }

  /** Unless a reply makes the node step down, a round decides the election exactly if the grants among its replies take
      the counter past the quorum test; it stops at the first that does, and else counts every one.  Apart from stepping
      down, a round leaves the node alone. */
  lemma {:induction false} RoundCounts(n: Node, b: Ballot, replies: seq<VoteResponse>, members: nat)
    requires !b.decided && !Enough(b.granted, members)
    ensures var o := CountRound(n, b, replies, members);
            && (o.ballot.decided <==> Enough(o.ballot.granted, members))
            && (o.ballot.decided ==> o.node == n && !Enough(o.ballot.granted - 1, members))
            && (o.node == n || exists v :: v in replies && StepsDown(v) && o.node == StepDown(n, v.term))
            && b.granted <= o.ballot.granted <= b.granted + Grants(replies)
            && ((forall v | v in replies :: !StepsDown(v)) ==>
                  && (o.ballot.decided <==> Enough(b.granted + Grants(replies), members))
                  && (!o.ballot.decided ==> o.node == n && o.ballot.granted == b.granted + Grants(replies)))
    decreases |replies|
  {
    if replies != [] && !StepsDown(replies[0]) {
      var b' := Tally(b, replies[0], members);
      if !(replies[0].granted && Enough(b'.granted, members)) {
        RoundCounts(n, b', replies[1..], members);
      }
    }
  }

  ghost function Senders(replies: seq<VoteResponse>): set<NodeId> {
    set v | v in replies :: v.id
  }

  /** The round heeds the first `j` replies: none of them makes the node step down, all their senders now count as heard
      from, however they voted, and all their grants are counted.  What comes next makes the node step down, if the last
      vote did not decide. */
  ghost predicate Heeds(n: Node, b: Ballot, replies: seq<VoteResponse>, members: nat, j: nat, o: VoteRound) {
    && j <= |replies| && (forall v | v in replies[..j] :: !StepsDown(v))
    && o.ballot == Ballot(b.sid, b.acked + Senders(replies[..j]), b.granted + Grants(replies[..j]),
                          Enough(b.granted + Grants(replies[..j]), members))
    && if o.ballot.decided then o.node == n && j > 0 && replies[j - 1].granted
       else if j == |replies| then o.node == n
       else StepsDown(replies[j]) && o.node == n.(term := replies[j].term, role := Follower)
  }

  /** A round heeds exactly the replies before the first that makes the node step down, up to the vote that decides. */
  lemma {:induction false} RoundHeeds(n: Node, b: Ballot, replies: seq<VoteResponse>, members: nat) returns (j: nat)
    requires !b.decided && !Enough(b.granted, members)
    ensures Heeds(n, b, replies, members, j, CountRound(n, b, replies, members))
    decreases |replies|
  {
    hide Heeds, Enough;
    j := 0;
    if replies == [] || StepsDown(replies[0]) {
      HeedsNone(n, b, replies, members);
    } else {
      var b' := Tally(b, replies[0], members);
      if replies[0].granted && Enough(b'.granted, members) {
        HeedsFirst(n, b, replies, members);
      } else {
        j := RoundHeeds(n, b', replies[1..], members);
        HeedsMore(n, b, replies, members, j, CountRound(n, b', replies[1..], members));
      }
      j := j + 1;
    }
  }

  lemma HeedsNone(n: Node, b: Ballot, replies: seq<VoteResponse>, members: nat)
    requires !b.decided && !Enough(b.granted, members) && (replies == [] || StepsDown(replies[0]))
    ensures Heeds(n, b, replies, members, 0, CountRound(n, b, replies, members))
  {
    assert Senders(replies[..0]) == {} && b.acked + {} == b.acked;
  }

  lemma HeedsFirst(n: Node, b: Ballot, replies: seq<VoteResponse>, members: nat)
    requires replies != [] && !StepsDown(replies[0]) && replies[0].granted && Enough(b.granted + 1, members)
    ensures Heeds(n, b, replies, members, 1, VoteRound(n, Tally(b, replies[0], members)))
  {
    HeedsOneMore(replies, 0);
    hide Senders, Grants, Enough;
  }

  lemma HeedsMore(n: Node, b: Ballot, replies: seq<VoteResponse>, members: nat, j: nat, o: VoteRound)
    requires replies != [] && !StepsDown(replies[0]) && !b.decided
    requires replies[0].granted ==> !Enough(b.granted + 1, members)
    requires Heeds(n, Tally(b, replies[0], members), replies[1..], members, j, o)
    ensures Heeds(n, b, replies, members, j + 1, o)
  {
    HeedsOneMore(replies, j);
    hide Senders, Grants, Enough;
  }

  lemma HeedsOneMore(replies: seq<VoteResponse>, j: nat)
    requires j < |replies|
    ensures var (one, rest) := (replies[0], replies[1..][..j]);
            && Senders(replies[..j + 1]) == {one.id} + Senders(rest)
            && Grants(replies[..j + 1]) == (if one.granted then 1 else 0) + Grants(rest)
            && forall v :: v in replies[..j + 1] <==> v == one || v in rest
    ensures j == 0 ==> Senders(replies[1..][..j]) == {} && Grants(replies[1..][..j]) == 0
  {
    assert replies[..j + 1] == [replies[0]] + replies[1..][..j];
  }

  class VoteSession {
    const node: RaftNode
    var ackPeers: set<NodeId>
    var grantedVotes: nat
    /** A result waits on the session's channel. */
    var decided: bool

    /** The value of the session's ballot. */
    ghost function Value(sid: nat): Ballot
      reads this
    {
      Ballot(sid, ackPeers, grantedVotes, decided)
    }

    constructor (node: RaftNode)
      modifies node
      ensures this.node == node
      ensures forall n: Node ::
          node.In(n) == old(node.In(n)).(term := old(node.currentTerm) + 1, votedFor := Some(node.id))
      ensures forall sid: nat :: Value(sid) == Ballot(sid, {}, 1, false)
    {
      this.node := node;
      this.ackPeers, this.grantedVotes, this.decided := {}, 1, false;
      new;
      node.StandForElection();
    }

    /** The peers still to be asked; with no peers at all the election is decided at once. */
    method UnackPeers() returns (unacked: Option<set<NodeId>>)
      modifies this`decided
      ensures var others := node.membership - {node.id};
              && decided == (old(decided) || others == {})
              && unacked == if others <= ackPeers then None else Some(others - ackPeers)
    {
      var peers := set p | p in node.membership && p != node.id;
      assert peers == node.membership - {node.id};
      if peers == {} {
        decided := true;
        return None;
      }
      var rest := peers - ackPeers;
      if rest == {} {
        assert peers <= ackPeers by { forall p | p in peers ensures p in ackPeers { assert p !in rest; } }
        return None;
      }
      return Some(rest);
    }

    /** The reply loop of one round of requests. */
    method CountReplies(replies: seq<VoteResponse>)
      modifies this, node
      ensures forall n: Node, sid: nat ::
                VoteRound(node.In(n), Value(sid)) ==
                CountRound(old(node.In(n)), old(Value(sid)), replies, |node.membership|)
    {
      var k := 0;
      while k < |replies|
        invariant k <= |replies|
        invariant forall n: Node, sid: nat ::
                    CountRound(node.In(n), Value(sid), replies[k..], |node.membership|) ==
                    CountRound(old(node.In(n)), old(Value(sid)), replies, |node.membership|)
      {
        var response := replies[k];
        assert replies[k..][1..] == replies[k + 1..];
        if StepsDown(response) {
          node.AdoptTerm(response.term);
          return;
        }
        ackPeers := ackPeers + {response.id};
        if response.granted {
          grantedVotes := grantedVotes + 1;
          if grantedVotes > (|node.membership| + 1) / 2 {
            decided := true;
            return;
          }
        }
        k := k + 1;
      }
      assert replies[k..] == [];
    }
  }
}
