/** Values that zeroraft nodes store and exchange, and the log operations of its `State` trait. */
module Types {

  type NodeId = nat

  datatype Option<+T> = None | Some(value: T)

  /** A log entry; only client commands are ever appended by the source. */
  datatype Entry = Entry(term: nat, command: string)

  type Log = seq<Entry>

  datatype Role = Follower | Candidate | Leader | Shutdown

  // ----- Remote procedure calls

  datatype VoteRequest = VoteRequest(term: nat, candidate: NodeId, lastIndex: nat, lastTerm: nat)

  datatype VoteReason = StaleCandidate | AlreadyVoted | IncompleteLog | VoteGranted

  datatype VoteResponse = VoteResponse(term: nat, granted: bool, id: NodeId, reason: VoteReason)

  datatype AppendRequest = AppendRequest(
    term: nat, leader: NodeId, commit: nat, prevIndex: nat, prevTerm: nat, entries: Log)

  datatype AppendReason = StaleLeader | LogMismatch | Appended

  datatype AppendResponse = AppendResponse(term: nat, success: bool, id: NodeId, len: nat, reason: AppendReason)

  datatype ClientReply = NoLeaderYet | Redirect(leader: NodeId)

  // ----- The log, with indices that start at 1

  function LastTerm(log: Log): nat {
    if log == [] then 0 else log[|log| - 1].term
  }

  function GetEntry(log: Log, index: nat): Option<Entry> {
    if 1 <= index <= |log| then Some(log[index - 1]) else None
  }

  function EntriesFrom(log: Log, start: nat): Log {
    if start == 0 then log else if start <= |log| then log[start - 1..] else []
  }

  function RemoveAfter(log: Log, index: nat): Log {
    if index < |log| then log[..index] else log
  }

  function Min(a: nat, b: nat): nat {
    if a <= b then a else b
  }

  /** The voter's log is ahead of a candidate whose last entry is at `lastIndex` in `lastTerm`. */
  predicate AheadOf(log: Log, lastTerm: nat, lastIndex: nat) {
    LastTerm(log) > lastTerm || (LastTerm(log) == lastTerm && |log| > lastIndex)
  }

  /** Terms are positive and never decrease along the log. */
  ghost predicate Ordered(log: Log) {
    && (forall i | 0 <= i < |log| :: log[i].term > 0)
    && (forall i, j | 0 <= i < j < |log| :: log[i].term <= log[j].term)
  }

  /** Both logs hold the same first `k` entries. */
  ghost predicate SameUpTo(a: Log, b: Log, k: nat) {
    k <= |a| && k <= |b| && a[..k] == b[..k]
  }

  /** The Log Matching property for a pair of logs. */
  ghost predicate Matching(a: Log, b: Log) {
    forall i | 0 <= i < |a| && i < |b| && a[i].term == b[i].term :: a[..i + 1] == b[..i + 1]
  }
}
