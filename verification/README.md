# zeroraft: leader election, log replication and commit calculation

A Dafny model of zeroraft's Raft core, and proofs about it. The public description of the protocol is the extended
Raft paper, "In Search of an Understandable Consensus Algorithm", sections 5.2 to 5.4.

`dafny verify dfyconfig.toml` checks everything.

## How it is built

| file | content |
|---|---|
| `types.dfy`, `quorum.dfy` | messages, logs with indices from 1, strict majorities |
| `node.dfy` | one node as a value, and each handler as a function on it |
| `median.dfy` | the commit rule: sorted median of the match indices |
| `cluster.dfy` | the cluster: any number of nodes, messages in flight, one action per atomic step, runs of any length |
| `anyrun.dfy`, `falls.dfy` | what every step of every run keeps, and when terms fall |
| `answers.dfy`, `advances.dfy`, `ballots.dfy` | in every run: what each request and answer says, and what each answer does to the session that it is for |
| `counting.dfy`, `tracing.dfy` | Election Safety, Log Matching and append-only leaders where no late answer lowers a term |
| `votes.dfy`, `elections.dfy`, `logs.dfy`, `completeness.dfy` | the invariants of runs in which no term falls |
| `runs.dfy`, `majorities.dfy`, `terms.dfy`, `replication.dfy`, `commits.dfy` | the other theorems about whole runs |
| `truncation.dfy`, `empty.dfy`, `staleness.dfy`, `catchup.dfy` | what appends remove, what empty logs and the test for stale peers lead to, how a follower is brought up |
| `scenes.dfy`, `witness.dfy` | concrete runs that show what the theorems need, and that their hypotheses can be met |
| `replicas.dfy`, `sessions.dfy`, `roles.dfy` | nodes, sessions and role loops as objects and loops that change in place, proved to do what the values do |
| `rounds.dfy`, `reactions.dfy`, `refinement.dfy` | what a round of answers and each event come to, and that handling them is what the cluster's runs consist of |

A vote or append request carries the log it was composed from, an answer the log it was given with and the moment at
which it was given, and the state a history of votes, grants, elections, leaders' logs and past logs. None of these
steers an action. An answer refers to the request it answers, because the code matches answers to requests by channel
(zeroraft/src/node.rs:324-349) and not by term.

## What the model assumes

- The cluster is fixed, and each node's membership map together with the node itself is the whole cluster. A map may list
  its own node or not, node by node.
- Handling one event of a role loop is one step together with the check of the role before it, and so is handling one
  answer in a session's loop, or one send. The source checks the role before it waits for an event
  (zeroraft/src/role/role_leader.rs:70-76), so that a task of a session may end the role in between; `StaleWin` and
  `StaleAppend` show that Election Safety and Log Matching do not survive that. Nodes do not restart.
- All nodes start as followers with one common, ordered log, with arbitrary votes and with terms no lower than its last
  entry's. A new cluster starts with the empty log; `NothingReplicates` shows why only non-empty ones are of interest for
  replication.
- Requests can be lost, delayed, reordered and repeated. Tasks of a session go on after the role that opened it: they
  send with the term they find, and their answers can still make the node step down.
- A replication request may use any next index it can be composed with, which covers every progress table, and may go to
  any peer at any time, which covers every outcome of the test for stale peers. When no entry precedes the next index the
  code panics, and no message is sent. Handling an answer that would underflow an index, or that comes from an unknown
  peer, panics and changes nothing. Terms and indices are otherwise unbounded.
- The standby loop asks for a read lock on the progress table while it holds the write lock
  (zeroraft/src/role/role_leader.rs:237, 259, 401-404). What is proved of that arm says what it does when it completes,
  not that it completes.

Hypotheses on runs, each used only where a theorem names it:

- `FallsAreLive`: no late answer, to a session that is over, lowers a term. It holds where no term falls (`TermMonotone`)
  and where late answers are dropped (`LiveAnswersOnly`). Terms do fall: the field is documented as the latest term seen
  (zeroraft/src/node.rs:57), but an incomplete-log answer carries the term its sender had before the request
  (zeroraft/src/role/common.rs:30, 77) and the candidate adopts it (zeroraft/src/role/role_candidate.rs:211-214).
  `TermFalls` says exactly when one does.
- `NoLateFall` for a term, `NoLateFalls` for all: no step takes a node below a term in which it could vote no more.
  `FallsAreLive` implies it, and `VotersStep` shows that a step keeps the votes of a term bounded exactly if it is no such
  fall.
- `TermMonotone`: no node's term falls.
- `SendersLead`: only a node that is leader at that moment sends append requests. The sender loops can outlive leadership
  (zeroraft/src/role/role_leader.rs:72, 302-323).
- `KeepsEntry`: no append that one of the given nodes accepts takes a given entry from it although the sending leader, at
  some moment of that term, had it too. `KeepsEntryExactly` says which appends break it; heartbeats do, since they carry
  previous index 0 and the handler truncates after it (zeroraft/src/role/role_leader.rs:194-201,
  zeroraft/src/role/common.rs:182-202). `KeepsShared` asks it of all entries and nodes.

## Main results

- Election Safety, Log Matching and Leader Append-Only hold in every run in which no late answer lowers a term
  (`FallsAreLive`). One late answer that does is enough for two leaders of one term with logs that do not match
  (`TwoLeaders`).
- Leader Completeness holds if no term falls, only leaders send append requests, and appends accepted by the nodes that
  hold the entry keep it (`TermMonotone`, `SendersLead`, `KeepsEntry`). Two heartbeats are enough to lose an entry that
  all nodes held (`LostEntry`).
- Under the same hypotheses, what a live session commits by the median, with enough peers reported and each success
  credited at the next index its request was composed from, is in the log of every later leader (`CommittedLasts`). A run
  meets them all (`KeptEntry`), with a request that the model may send and the source, finding no peer stale, would not.
- A session that looks for stale peers finds some only if the commit index rose since it opened (`StaleIffRisen`, in
  every run); if it looks as it opens, nothing but heartbeats is ever sent (`NothingSent`).
- In every run every request that is taken is answered, and the answer is granted, accepted or refused exactly as the fields
  of the node before it say (`VoteAnswersExactly`, `AppendAnswered`); every answer that is handled moves its session, the
  term and the commit index exactly as it should (`VotesTakeEffect`, `AnswersTakeEffect`, `CommitsExactly`).
- Handling any event in any role is a sequence of actions of the cluster that puts in flight exactly the messages that the
  role loop sends (`EventPerformed`, `VoteRoundPerformed`, `AppendRoundPerformed`), so every run can go on with it
  (`EventInRun`).
- From empty logs nothing is ever replicated, whatever next indices are used, unless a late answer lowers a term
  (`NothingReplicates`).

## Model

| member | source | states |
|---|---|---|
| `Counting.ElectionSafety` | zeroraft/src/role/role_candidate.rs:169-234 | If no late answer lowers a term, at most one node ever leads a term, over any two moments |
| `Counting.ElectionSafetyIn` | zeroraft/src/role/role_candidate.rs:205-234 | The same for one term, if no late fall crosses that term |
| `Counting.ElectionSafetyMonotone` | zeroraft/src/role/role_candidate.rs:169-234 | The same if no term ever falls |
| `Counting.ElectionSafetyLive` | zeroraft/src/role/role_candidate.rs:205-234 | The same if only live sessions handle answers, although terms fall |
| `Counting.OneWinPerTerm` | zeroraft/src/role/role_candidate.rs:226-234 | If no late fall crosses a term, no two steps of a run win it, not even of one node |
| `Counting.VotersStep` | zeroraft/src/role/common.rs:33-85 | In any step, the votes cast in a term and the nodes that may still vote in it stay within what they were if and only if the step is not a late fall |
| `Counting.VotesBounded` | zeroraft/src/role/common.rs:33-95 | If no late fall crosses a term, the votes cast in it and the nodes that may still vote in it never exceed the number of nodes, although a node that fell back votes again |
| `Counting.WeightBounded` | zeroraft/src/role/role_candidate.rs:209-234 | In every run a live session never counts more votes than were cast for it |
| `Counting.FallsLiveNotLate` | zeroraft/src/role/role_candidate.rs:209-216 | Where no late answer lowers a term, no step is a late fall, whatever the term |
| `Witness.TwoLeaders` | zeroraft/src/role/role_candidate.rs:211-214 | A run of three nodes, with one late incomplete-log answer, in which two nodes lead term 3 together and their logs do not match |
| `Witness.StaleWin` | zeroraft/src/role/role_candidate.rs:86-104 | A run without falling terms in which a decided candidate steps down to a term that another node leads; taking the result after that would make two leaders |
| `Witness.StaleAppend` | zeroraft/src/role/role_leader.rs:70-100 | A run without falling terms in which a leader steps down; appending the next command after that would break Log Matching |
| `Runs.OneVotePerTerm` | zeroraft/src/role/common.rs:33-63 | If no term falls, no two steps cast votes of one node in one term, self-votes and votes refused afterwards included |
| `Votes.VoteStep` | zeroraft/src/node.rs:164-211 | Every step in which no term falls keeps the record of votes: one candidate per voter and term, agreeing with the voter's own fields |
| `Majorities.VoteCounterExact` | zeroraft/src/role/role_candidate.rs:209-234 | If no term falls, a live session's counter is one more than the number of distinct peers whose grant it handled, over all rounds of requests |
| `AnyRun.EnoughExactly` | zeroraft/src/role/role_candidate.rs:197-233 | The quorum test asks for a strict majority, and for half a node more exactly if the map lists its own node |
| `AnyRun.QuorumsMeet` | zeroraft/src/role/role_candidate.rs:228-233 | Two sets of voters that pass the tests of two nodes share a voter, whatever each map says of its own node |
| `Elections.WinnerHasMajority` | zeroraft/src/role/role_candidate.rs:228-233 | A session that is about to win has the grants of a strict majority, all for its term and for the log it still has, as long as its count is one of distinct grants |
| `Majorities.ElectionRestriction` | zeroraft/src/role/common.rs:68-95 | If no term falls, a winner had, unchanged since it asked, a log at least as complete as those of a strict majority, each at the moment it granted |
| `Tracing.LogMatching` | zeroraft/src/role/common.rs:144-194 | If no step is a late fall, any two logs of any two moments are identical up to an index at which their terms agree |
| `Tracing.LeaderAppendOnly` | zeroraft/src/role/common.rs:117-194 | If no step is a late fall, between any two moments at which a node leads one term its earlier log is a prefix of its later one |
| `Tracing.FallsLiveNoneLate` | zeroraft/src/role/role_candidate.rs:209-216 | Where no late answer lowers a term, no step is a late fall |
| `Tracing.FloorHolds` | zeroraft/src/role/common.rs:30-62 | In every run no node, request or answer is in a term below the last of the initial log, and live candidates are beyond it |
| `Logs.AcceptedLog` | zeroraft/src/role/common.rs:144-194 | Between traced logs, an accepted replication request leaves exactly the log its sender had when it composed it, however late; an accepted heartbeat leaves none |
| `Logs.LogStep` | zeroraft/src/role/role_leader.rs:94-100 | Every step in which no term falls keeps every log ordered and traced to the leaders that wrote its entries, and the leaders' logs only grow |
| `Runs.OrderedLogs` | zeroraft/src/role/role_leader.rs:333-364 | If no term falls, terms are positive and non-decreasing in every log and every request in flight, and at most the holder's or sender's |
| `Majorities.LeaderCompleteness` | zeroraft/src/role/common.rs:61-95 | If no term falls, only leaders send appends, and appends that the holders accept keep the entry: an entry that each node of a strict majority held while in the entry's term is, at its place, in the log of every leader of a later term |
| `Completeness.WinnerHas` | zeroraft/src/role/role_candidate.rs:226-233 | On states that meet the invariants, the election of any later term chose a node that had what a strict majority held |
| `Truncation.KeepsEntryExactly` | zeroraft/src/role/common.rs:182-194 | If no term falls and only leaders send appends, the hypothesis on an entry holds if and only if each append that one of the nodes accepts, while both it and the leader have the entry, is a replication request composed from a log with it |
| `Truncation.KeepsSharedExactly` | zeroraft/src/role/common.rs:182-194 | Under the same hypotheses, no entry is taken from anyone if and only if every accepted heartbeat finds nothing shared with the leader and every accepted replication request was composed from a log that covers what is shared |
| `Truncation.SparingLeadersComplete` | zeroraft/src/role/common.rs:61-95 | Leader Completeness, with its hypothesis stated append by append |
| `Truncation.SparesIff` | zeroraft/src/role/common.rs:182-194 | For one append between logs that match: it covers every shared entry if and only if it covers the common prefix |
| `Truncation.HeartbeatsEmpty` | zeroraft/src/role/role_leader.rs:194-201 | In every run a heartbeat is refused only for its term and, accepted, empties the log; its back-off arm is never taken |
| `Witness.LostEntry` | zeroraft/src/role/role_leader.rs:181-216 | A run without falling terms in which all nodes hold an entry in its term and a later leader lacks it |
| `Commits.CommittedLasts` | zeroraft/src/role/role_leader.rs:242-273 | Under the hypotheses of Leader Completeness, an entry that a live session commits by the median is in the log of every leader of a later term, if enough peers reported and every success was credited at the next index its request was composed from |
| `Commits.MatchSource` | zeroraft/src/role/role_leader.rs:242-246 | If no step is a late fall, behind every match index of a session that credits in place stands a report of exactly that length, by a follower whose log then was the one the request was composed from |
| `Witness.KeptEntry` | zeroraft/src/role/role_leader.rs:242-273 | A run that meets every hypothesis of `CommittedLasts`, with the next index of the session's own table; the model sends here although the source finds no peer stale |
| `Staleness.StaleIffRisen` | zeroraft/src/role/role_leader.rs:119-144 | In every run, when a session that has sent no replication request looks for stale peers, each peer is stale if and only if the commit index rose since the session opened |
| `Staleness.NothingSent` | zeroraft/src/role/role_leader.rs:287-296 | If every session looks for stale peers as it opens, no replication request is ever sent and no commit index ever rises, whatever the initial log |
| `EmptyCluster.NothingReplicates` | zeroraft/src/role/role_leader.rs:333-351 | If no step is a late fall, then from empty logs no replication request is ever accepted, every entry stays with the winner of its term, and commit indices stay 0 |
| `Falls.TermFalls` | zeroraft/src/role/role_candidate.rs:209-216 | In every run a node's term falls in a step if and only if it handles an answer that makes it step down to a lower term |
| `Falls.LiveTermDirection` | zeroraft/src/role/common.rs:47-85 | In every run, an answer handled by a live session moves the term as follows: a stale-term answer strictly raises it; an incomplete-log answer never does, and lowers it exactly if the voter was behind; no other step lowers it |
| `Terms.CommitWithinLog` | zeroraft/src/role/common.rs:182-202 | In every state of every run each commit index is within the log |
| `Terms.LeaderHint` | zeroraft/src/role/role_follower.rs:60-82 | If no term falls and only leaders send appends, a redirect names the one leader of the largest term in which the node took an append; without a hint it has taken none |
| `Answers.VoteAnswersExactly` | zeroraft/src/role/common.rs:33-95 | In every run each vote request that is taken is answered: refused as stale if and only if the voter's term is above, as already voted if and only if the terms are equal and the voter has ever voted, in whatever term; else the voter takes the request's term, votes for its sender and follows, and grants if and only if the candidate's log ends in a later term, or in the same one and no earlier |
| `Answers.VoteAnswerGiven` | zeroraft/src/role/common.rs:33-95 | In every run each vote answer in flight was given at its moment, by the voter, under those conditions on its fields of that moment |
| `Answers.VoteRemembered` | zeroraft/src/node.rs:182-199 | In every run a node has a vote on record if and only if it began with one or has cast one, in whatever term: votes are never cleared |
| `Answers.AppendAnswered` | zeroraft/src/role/common.rs:117-213 | In every run each append request that is taken is answered: refused as stale if and only if the node's term is above; else the node is a follower of the sender in the request's term, and accepts, with success and the number of entries, if and only if it has the previous entry; then its log is what precedes, followed by the entries, and nothing else |
| `Answers.AppendAnswerGiven` | zeroraft/src/role/common.rs:117-213 | In every run each append answer in flight was given at its moment, under those conditions |
| `Answers.VoteRequestSent` | zeroraft/src/node.rs:308-324 | In every run each vote request in flight was sent, for the term and the last entry that its sender had then |
| `Answers.AppendRequestSent` | zeroraft/src/role/role_leader.rs:333-364 | In every run each append request in flight was sent, for the sender's term and commit index of then, with all entries after the previous index, or as a heartbeat with none |
| `Ballots.VotesTakeEffect` | zeroraft/src/role/role_candidate.rs:209-234 | In every run each vote answer that is handled does exactly this: with a stale term or an incomplete log it makes its node a follower in its term; else, if its session is live, its sender counts as heard from, a grant is counted, and the session is decided by the one that makes a strict majority, or half a node more if the map lists its own node; else nothing |
| `Ballots.AckedExactly` | zeroraft/src/role/role_candidate.rs:220 | In every run the acknowledged peers of a live session are exactly those whose answers it heeded, however they voted |
| `Ballots.RetryAsksUnheard` | zeroraft/src/role/role_candidate.rs:265-293 | In every run a retry asks exactly the other nodes that the live session has not heard from |
| `Advances.AnswersTakeEffect` | zeroraft/src/role/role_leader.rs:236-280 | In every run each append answer that is handled does exactly this: a mismatch lowers its sender's next index by one; the success of a replication request sets its match index, adds the new next index to the old and applies the commit rule; that of a heartbeat does nothing; a stale term makes the leader a follower in the answer's term; no other entry, session or node changes |
| `Advances.CommitsExactly` | zeroraft/src/role/role_leader.rs:242-273 | In every run, when a success is credited, the commit index moves to x if and only if x is higher, has the median's rank and has an entry of the leader's term; with every peer reported that rank means the largest index that a strict majority holds |
| `Median.MedianIsQuorumIndex` | zeroraft/src/role/role_leader.rs:397-436 | With every peer reported, an index is held by a strict majority, the leader counted, if and only if it is at most the median |
| `Median.MedianRank` | zeroraft/src/role/role_leader.rs:413-417 | With k peers reported, at least ceil(k/2) hold the median, and fewer hold anything above it |
| `Median.CommitTargetExactly` | zeroraft/src/role/role_leader.rs:397-436 | An index is proposed if and only if it has the median's rank among the k reported, counted by who holds it, and the leader's log has an entry of its term there; with every peer reported, if and only if it is the largest that a strict majority holds and has such an entry |
| `Median.PartialMedian` | zeroraft/src/role/role_leader.rs:401-417 | Every way to report k of n - 1 peers gives a median held by a strict majority if and only if ceil(k/2) + 1 > n/2 |
| `Replication.CommitAdvanceSound` | zeroraft/src/role/role_leader.rs:242-273 | In every run, with enough peers reported and every match index backed by an identical prefix, a commit index that moves is higher than before, names an entry of the current term, and is held by a strict majority |
| `Replication.MatchIndexSound` | zeroraft/src/role/role_leader.rs:242-247 | If no step is a late fall, the recorded match index is the follower's last index after it accepted if and only if the next index is the one the request was composed from; the new next index then exceeds the follower's next entry by the old one; and the follower's log was the sender's of that time |
| `Replication.TablesHold` | zeroraft/src/role/role_leader.rs:119-144 | In every run each progress table ever opened lists exactly the other nodes |
| `CatchUp.RefusedBeyondCommon` | zeroraft/src/role/common.rs:144-180 | Between logs that match, a request is refused if and only if it starts beyond their common prefix |
| `CatchUp.Try` | zeroraft/src/role/role_leader.rs:333-364 | One request of a session to a follower whose log matches, its answer and the handling of it: accepted if and only if it starts within the common prefix, with the follower's log then the leader's and the match index its length; else only the peer's next index is one lower |
| `CatchUp.BringUp` | zeroraft/src/role/role_leader.rs:236-280 | The session composes, the follower responds, the session handles the answer, and so on: this ends; between logs that match it is accepted if and only if they share their first entry, at the common prefix or the first index tried, after exactly the mismatches in between, and leaves the logs equal and the match index at their length |
| `Replicas.RaftNode.constructor` | zeroraft/src/node.rs:48-86 | A new node is a follower without a leader hint, with what it was given |
| `Replicas.RaftNode.RespondToRequestVote` | zeroraft/src/role/common.rs:15-98 | Answers and changes the node exactly as the conditions of `VoteAnswersExactly` say of its fields before, and as the handler on values the cluster's runs use |
| `Replicas.RaftNode.RespondToAppendEntries` | zeroraft/src/role/common.rs:101-216 | The same for append requests, with the conditions of `AppendAnswered`: whoever is not ahead of the request follows its sender, accepted or not |
| `Replicas.RaftNode.StandForElection` | zeroraft/src/node.rs:164-179 | A new term with a vote for oneself, and nothing else |
| `Replicas.RaftNode.AdoptTerm` | zeroraft/src/role/role_candidate.rs:211-216 | Takes over the term of an answer, higher or lower, and becomes a follower |
| `Replicas.VoteSession.constructor` | zeroraft/src/role/role_candidate.rs:169-185 | A session that has counted its own vote only, on a node in its next term |
| `Replicas.VoteSession.UnackPeers` | zeroraft/src/role/role_candidate.rs:265-293 | The peers not heard from, or none; with no peers at all the election is decided |
| `Replicas.VoteSession.CountReplies` | zeroraft/src/role/role_candidate.rs:209-236 | The reply loop leaves node and session as the round on values does |
| `Replicas.RoundCounts` | zeroraft/src/role/role_candidate.rs:209-236 | A round nobody ends decides if and only if its grants pass the quorum test, stops at the first that does, and else counts every grant |
| `Replicas.RoundHeeds` | zeroraft/src/role/role_candidate.rs:209-236 | Exactly which replies a round heeds: all before the first that makes the node step down, up to the vote that decides; the senders of all of them count as heard from and all their grants are counted |
| `Sessions.ReplicationSession.constructor` | zeroraft/src/role/role_leader.rs:119-144 | Every other node starts at the commit index plus one, so that no peer is stale |
| `Sessions.ReplicationSession.ComposeFor` | zeroraft/src/role/role_leader.rs:333-364 | A request exists if and only if the entry before the next index does, and carries that entry's index and term and all entries after it, as the one the cluster's runs send |
| `Sessions.ReplicationSession.MatchIndices` | zeroraft/src/role/role_leader.rs:401-407 | A permutation of the match indices reported so far |
| `Sessions.ReplicationSession.CalculateLastCommitIndex` | zeroraft/src/role/role_leader.rs:397-436 | In whatever order the table is read, the one index with the median's rank, counted by who holds it, if and only if the leader's log has an entry of its term there |
| `Sessions.ReplicationSession.HandleReply` | zeroraft/src/role/role_leader.rs:236-280 | One answer does to leader and table exactly what `AnswersTakeEffect` says, and ends the loop on a stale term or a panic |
| `Sessions.ReplicationSession.CountReplies` | zeroraft/src/role/role_leader.rs:236-280 | The standby reply loop leaves node and session as the round on values does |
| `Sessions.ReplicationSession.CountHeartbeatReplies` | zeroraft/src/role/role_leader.rs:162-175 | The heartbeat reply loop likewise |
| `Sessions.RoundKeeps` | zeroraft/src/role/role_leader.rs:236-280 | Whatever answers arrive, log and vote stay, the commit index never falls and moves only to entries of the term, and only a stale-term answer ends leadership |
| `Sessions.HeartbeatRoundKeeps` | zeroraft/src/role/role_leader.rs:162-175 | A round of heartbeat answers changes next indices only, and leaves match indices, log, vote and commit index, unless a stale-term answer makes the leader step down |
| `Rounds.EntriesRoundExactly` | zeroraft/src/role/role_leader.rs:236-280 | In a round that nothing ends, n mismatches of a peer without success lower its next index by n, exactly the senders of successes gain a match index, and if there is any, the commit index reaches the index of the median's rank, provided that the log has an entry of the term there |
| `Rounds.HeartbeatRoundExactly` | zeroraft/src/role/role_leader.rs:162-175 | In a round of heartbeat answers that nothing ends, n mismatches of a peer lower its next index by n, and nothing else happens |
| `Rounds.EntriesRoundEnds` | zeroraft/src/role/role_leader.rs:236-280 | The first answer with a stale term, from an unknown peer, or that would take an index below zero ends a round: what follows it has no effect |
| `Rounds.HeartbeatRoundEnds` | zeroraft/src/role/role_leader.rs:162-175 | The same for a round of heartbeat answers, where a success is no end |
| `Reactions.ElectionBegins` | zeroraft/src/role/role_candidate.rs:169-207 | On an election timeout a follower or candidate stands in the next term: vote for itself, new session, one request for exactly that term and log to all other nodes; alone, it is decided at once |
| `Reactions.AskedAgain` | zeroraft/src/role/role_candidate.rs:142-145 | On a retry a candidate asks exactly those that its session has not heard from, and changes nothing |
| `Reactions.LeadershipBegins` | zeroraft/src/role/role_leader.rs:50-62 | A decided candidate leads, with every other node expected at the commit index and one heartbeat to each |
| `Reactions.HeartbeatsGo` | zeroraft/src/role/role_leader.rs:101-104 | A leader's heartbeats carry its term and commit index, go to every peer of its table, and change nothing |
| `Reactions.ClientAnswered` | zeroraft/src/role/role_follower.rs:60-84 | A leader appends a command in its term; any other node changes nothing and redirects the client to the leader it knows, if any |
| `Reactions.PeersAnswered` | zeroraft/src/role/role_follower.rs:44-52 | In whatever role, a peer's request is answered at once, with the answer and the change that the conditions of `VoteAnswersExactly` and `AppendAnswered` give |
| `Reactions.ShutsDown` | zeroraft/src/role/role_follower.rs:41-43 | A shutdown changes the role only, and no later event is handled |
| `Reactions.ServedInTurn` | zeroraft/src/node.rs:97-125 | Events are handled one by one, each by the node that the one before left, until it shuts down |
| `Refinement.EventPerformed` | zeroraft/src/role/role_candidate.rs:81-157 | On states that meet the invariants, handling a timer, a result, a client or a signal in any role is exactly the listed actions of the cluster, and the requests that the node sends are exactly those that they put in flight |
| `Refinement.EventInRun` | zeroraft/src/node.rs:97-125 | Every run can go on with any node that has not shut down handling such an event |
| `Refinement.VoteRequestPerformed` | zeroraft/src/role/role_follower.rs:49-52 | Handling a vote request is the cluster's action for it, and the reply sent is the answer put in flight |
| `Refinement.AppendRequestPerformed` | zeroraft/src/role/role_follower.rs:45-48 | The same for append requests |
| `Refinement.VoteRoundPerformed` | zeroraft/src/role/role_candidate.rs:209-236 | Handling a round of distinct answers to the live vote session is to take them one by one up to the one that ends it, and the rest stays in flight |
| `Refinement.AppendRoundPerformed` | zeroraft/src/role/role_leader.rs:236-280 | The same for a round of answers to the live replication session |
| `Roles.FollowerRole` | zeroraft/src/role/role_follower.rs:35-90 | The follower's loop handles events in order until its role ends, each with the node and the outputs that `ElectionBegins`, `ClientAnswered`, `PeersAnswered` and `ShutsDown` state |
| `Roles.CandidateRole` | zeroraft/src/role/role_candidate.rs:64-159 | The candidate's loop opens a vote session and asks, asks again those not heard from, replaces the session on an election timeout, and leads only when the session it holds is decided |
| `Roles.LeaderRole` | zeroraft/src/role/role_leader.rs:50-109 | The leader's loop opens a replication session, sends heartbeats, appends client commands, and lets the session handle its answers, until its role ends |
| `Roles.Start` | zeroraft/src/node.rs:97-125 | The loops of the roles, taking turns, handle every event once and in order, with the answers of one machine |
| `Roles.ServeKeeps` | zeroraft/src/node.rs:97-125 | Role loops and their sessions never take back a vote, keep the commit index within the log, answer each peer's request once, and lower the term, or change a vote within it, only by an answer that makes the node step down |
| `Roles.HandleIsAction` | zeroraft/src/role/role_candidate.rs:81-157 | Handling an event does to the node what the cluster's action for it does, up to entering the next role |
| `Roles.HandleIsAnswer` | zeroraft/src/role/role_leader.rs:162-175 | Handling one answer to the session of the role does to the node what the cluster's action for it does |

## Left out

- Tokio tasks, channels, locks, `select!` fairness and interleavings inside a handler: steps are atomic instead. Closed
  channels, whose errors end a loop, are not modelled.
- Timers and randomness: timeouts are steps that may happen at any time, so nothing is said about progress or time.
- Arms that run after their role has ended: the check of the role and the arm are one step, see `StaleWin` and
  `StaleAppend`.
- Crash and restart: terms and self-votes are not persisted (zeroraft/src/node.rs:171-178).
- The commit arm's lock on itself: safety of the arm is stated, not that it completes.
- Snapshots, InstallSnapshot and Config requests, joint configuration and non-voters, which are stubs.
- The in-memory `State` of the repository's own fixtures, which counts indices from 0; the trait's contract, from 1, is
  modelled (zeroraft/src/state.rs:24-40). Applying committed entries to a state machine is not part of this model.
- Client replies on success: the leader drops the reply channel (zeroraft/src/role/role_leader.rs:94).
- Networking, encoding, the builder, error types and tracing.
- The time at which a node last heard from its leader, which nothing reads.
- Terms and indices near 2^64, where the source would wrap around or panic.
- Replies that a release build would handle after an index underflow: such a reply is taken to panic.
- `peer_matches` and the resend loop around it (zeroraft/src/role/role_leader.rs:302-323): the cluster may send again, or
  not, at any time.
- Roles.LeaderRole: no resend loop runs, because no peer is stale when the session opens.
- Unconditional Leader Completeness and State Machine Safety: the first is false, see `LostEntry`.
