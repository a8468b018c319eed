/** The commit rule of a replication session: the median of the match indices reported so far. */
module Median {
  import opened Types
  import opened Quorum

  /** What a leader knows about one peer: the next index to send and the highest index known replicated. */
  datatype Progress = Progress(next: nat, matched: Option<nat>)

  type Peers = map<NodeId, Progress>

  ghost function Reported(peers: Peers): set<NodeId> {
    set p | p in peers && peers[p].matched.Some?
  }

  /** The peers whose match index is at least `x`. */
  ghost function Holding(peers: Peers, x: nat): set<NodeId> {
    set p | p in peers && peers[p].matched.Some? && peers[p].matched.value >= x
  }

  // ----- Counting and sorting

  /** How many elements are at least `x`; over all `x` these counts determine the bag of elements. */
  ghost function AtLeast(s: seq<nat>, x: nat): nat {
    if s == [] then 0 else (if s[0] >= x then 1 else 0) + AtLeast(s[1..], x)
  }

  /** The two sequences are permutations of each other. */
  ghost predicate SameBag(s: seq<nat>, t: seq<nat>) {
    |s| == |t| && forall x: nat :: AtLeast(s, x) == AtLeast(t, x)
  }

  predicate Sorted(s: seq<nat>) {
    forall i, j | 0 <= i < j < |s| :: s[i] <= s[j]
  }

  function Insert(x: nat, s: seq<nat>): (r: seq<nat>)
    requires Sorted(s)
    ensures Sorted(r) && |r| == |s| + 1 && (s == [] || r[0] == Min(x, s[0])) && (s == [] ==> r == [x])
    ensures SameBag(r, [x] + s)
  {
    if s == [] || x <= s[0] then
      [x] + s
    else
      var rest := Insert(x, s[1..]);
      assert ([x] + s)[1..] == s && ([x] + s[1..])[1..] == s[1..] && ([s[0]] + rest)[1..] == rest;
      [s[0]] + rest
  }

  function Sort(s: seq<nat>): (r: seq<nat>)
    ensures Sorted(r) && SameBag(r, s)
  {
    if s == [] then [] else
      var rest := Sort(s[1..]);
      assert ([s[0]] + rest)[1..] == rest;
      Insert(s[0], rest)
  }

  lemma {:induction false} AtLeastSplit(s: seq<nat>, t: seq<nat>, x: nat)
    ensures AtLeast(s + t, x) == AtLeast(s, x) + AtLeast(t, x)
  {
    if s == [] {
      assert s + t == t;
    } else {
      assert (s + t)[1..] == s[1..] + t;
      AtLeastSplit(s[1..], t, x);
    }
  }

  lemma {:induction false} AtLeastBound(s: seq<nat>, x: nat)
    ensures AtLeast(s, x) <= |s|
  {
    if s != [] { AtLeastBound(s[1..], x); }
  }

  lemma {:induction false} AtLeastAll(s: seq<nat>, x: nat)
    requires forall i | 0 <= i < |s| :: s[i] >= x
    ensures AtLeast(s, x) == |s|
  {
    if s != [] { AtLeastAll(s[1..], x); }
  }

  lemma {:induction false} AtLeastNone(s: seq<nat>, x: nat)
    requires forall i | 0 <= i < |s| :: s[i] < x
    ensures AtLeast(s, x) == 0
  {
    if s != [] { AtLeastNone(s[1..], x); }
  }

  /** In a sorted list, the tail from position `i` is at least `s[i]`. */
  lemma RankFloor(s: seq<nat>, i: nat)
    requires Sorted(s) && i < |s|
    ensures AtLeast(s, s[i]) >= |s| - i
  {
    assert s == s[..i] + s[i..];
    AtLeastSplit(s[..i], s[i..], s[i]);
    AtLeastAll(s[i..], s[i]);
  }

  /** In a sorted list, only the entries after position `i` can exceed `s[i]`. */
  lemma RankCeiling(s: seq<nat>, i: nat, x: nat)
    requires Sorted(s) && i < |s| && x > s[i]
    ensures AtLeast(s, x) <= |s| - i - 1
  {
    assert s == s[..i + 1] + s[i + 1..];
    AtLeastSplit(s[..i + 1], s[i + 1..], x);
    AtLeastNone(s[..i + 1], x);
    AtLeastBound(s[i + 1..], x);
  }

  /** A bag has one sorted listing. */
  lemma SortedUnique(a: seq<nat>, b: seq<nat>)
    requires Sorted(a) && Sorted(b) && SameBag(a, b)
    ensures a == b
  {
    forall i | 0 <= i < |a| ensures a[i] == b[i] {
      RankFloor(a, i);
      RankFloor(b, i);
      if a[i] > b[i] { RankCeiling(b, i, a[i]); }
      if b[i] > a[i] { RankCeiling(a, i, b[i]); }
    }
  }

  // ----- The median of the reported match indices

  /** The match indices of `keys`, in some order. */
  ghost function Values(peers: Peers, keys: set<NodeId>): (s: seq<nat>)
    requires keys <= Reported(peers)
    ensures |s| == |keys|
  {
    if keys == {} then [] else
      var p :| p in keys;
      Values(peers, keys - {p}) + [peers[p].matched.value]
  }

  ghost function MedianMatch(peers: Peers): nat
    requires Reported(peers) != {}
  {
    var k := |Reported(peers)|;
    Sort(Values(peers, Reported(peers)))[k / 2]
  }

  /** The index `calculate_last_commit_index` proposes: the median, if the leader's entry there is of its term. */
  ghost function CommitTarget(log: Log, term: nat, peers: Peers): Option<nat> {
    if Reported(peers) == {} then None else
      var m := MedianMatch(peers);
      match GetEntry(log, m)
      case Some(e) => if e.term == term then Some(m) else None
      case None => None
  }

  // ----- How many peers stand behind the median

  lemma {:induction false} ValuesCount(peers: Peers, keys: set<NodeId>, x: nat)
    requires keys <= Reported(peers)
    ensures AtLeast(Values(peers, keys), x) == |keys * Holding(peers, x)|
    decreases keys
  {
    if keys != {} {
      var s := Values(peers, keys);
      var p :| p in keys && s == Values(peers, keys - {p}) + [peers[p].matched.value];
      ValuesCount(peers, keys - {p}, x);
      AtLeastSplit(Values(peers, keys - {p}), [peers[p].matched.value], x);
      if p in Holding(peers, x) {
        assert keys * Holding(peers, x) == (keys - {p}) * Holding(peers, x) + {p};
      } else {
        assert keys * Holding(peers, x) == (keys - {p}) * Holding(peers, x);
      }
    }
  }

  lemma HoldingCount(peers: Peers, x: nat)
    requires Reported(peers) != {}
    ensures |Holding(peers, x)| == AtLeast(Sort(Values(peers, Reported(peers))), x)
  {
    var keys := Reported(peers);
    ValuesCount(peers, keys, x);
    assert keys * Holding(peers, x) == Holding(peers, x);
    assert SameBag(Sort(Values(peers, keys)), Values(peers, keys));
  }

  /** With k peers reported, at least ceil(k/2) of them hold the median, and fewer hold anything above it. */
  lemma MedianRank(peers: Peers, x: nat)
    requires Reported(peers) != {}
    ensures var k := |Reported(peers)|;
            && |Holding(peers, MedianMatch(peers))| >= k - k / 2
            && (x > MedianMatch(peers) ==> |Holding(peers, x)| <= k - k / 2 - 1)
  {
    var k := |Reported(peers)|;
    var s := Sort(Values(peers, Reported(peers)));
    HoldingCount(peers, MedianMatch(peers));
    HoldingCount(peers, x);
    RankFloor(s, k / 2);
    if x > s[k / 2] { RankCeiling(s, k / 2, x); }
  }

  /** Index `x` is replicated on a strict majority of a cluster of `n`, the leader included. */
  ghost predicate QuorumIndex(peers: Peers, n: nat, x: nat) {
    2 * (|Holding(peers, x)| + 1) > n
  }

  /** Once every peer has reported, the median is the largest index a strict majority holds. */
  lemma MedianIsQuorumIndex(peers: Peers, x: nat)
    requires peers != map[] && Reported(peers) == peers.Keys
    ensures QuorumIndex(peers, |peers| + 1, x) <==> x <= MedianMatch(peers)
  {
    var m := MedianMatch(peers);
    MedianRank(peers, x);
    if x <= m {
      assert Holding(peers, m) <= Holding(peers, x);
      SubsetSize(Holding(peers, m), Holding(peers, x));
    }
  }

  // ----- What the commit rule proposes, by counting alone

  /** Index `x` is held by the rank that the median stands for, half of the reported peers rounded up, and no larger
      index is. */
  ghost predicate Middle(peers: Peers, x: nat) {
    var rank := |Reported(peers)| - |Reported(peers)| / 2;
    |Holding(peers, x)| >= rank && forall y: nat | y > x :: |Holding(peers, y)| < rank
  }

  /** A strict majority of a cluster of `n` holds index `x`, and no larger one. */
  ghost predicate LargestHeld(peers: Peers, n: nat, x: nat) {
    QuorumIndex(peers, n, x) && forall y: nat | y > x :: !QuorumIndex(peers, n, y)
  }

  /** The median is the one index with the median's rank. */
  lemma MedianIsMiddle(peers: Peers, x: nat)
    requires Reported(peers) != {}
    ensures x == MedianMatch(peers) <==> Middle(peers, x)
  {
    var m := MedianMatch(peers);
    hide MedianMatch, Holding;
    MedianRank(peers, x);
    forall y: nat | y > m ensures |Holding(peers, y)| < |Reported(peers)| - |Reported(peers)| / 2 {
      MedianRank(peers, y);
    }
  }

  lemma MiddleIsLargest(peers: Peers, x: nat)
    requires peers != map[] && Reported(peers) == peers.Keys
    ensures Middle(peers, x) <==> LargestHeld(peers, |peers| + 1, x)
  {
    hide Holding;
    assert |peers.Keys| == |peers|;
    forall y: nat
      ensures |Holding(peers, y)| >= |peers| - |peers| / 2 <==> QuorumIndex(peers, |peers| + 1, y)
    {
    }
  }

  /** The log has an entry of the given term at `x`. */
  predicate OwnEntry(log: Log, term: nat, x: nat) {
    1 <= x <= |log| && log[x - 1].term == term
  }

  /** Index `x` is proposed exactly if it has the median's rank and the leader has an entry of its own term there; with
      every peer reported, exactly if it is moreover the largest index that a strict majority holds. */
  lemma CommitTargetExactly(log: Log, term: nat, peers: Peers, x: nat)
    ensures CommitTarget(log, term, peers) == Some(x) <==>
            Reported(peers) != {} && Middle(peers, x) && OwnEntry(log, term, x)
    ensures peers != map[] && Reported(peers) == peers.Keys ==>
              (CommitTarget(log, term, peers) == Some(x) <==>
               LargestHeld(peers, |peers| + 1, x) && OwnEntry(log, term, x))
  {
    hide MedianMatch, Middle, LargestHeld, Holding;
    if Reported(peers) != {} { MedianIsMiddle(peers, x); }
    if peers != map[] && Reported(peers) == peers.Keys { MiddleIsLargest(peers, x); }
  }

  /** The guarantee of `MedianRank` with `k` peers reported in a cluster of `n` is a strict majority. */
  predicate EnoughReports(k: nat, n: nat) {
    2 * (k - k / 2 + 1) > n
  }

  /** Every combination of `k` reports yields a median held by a majority exactly when enough peers reported. */
  lemma PartialMedian(k: nat, n: nat)
    requires 0 < k < n
    ensures EnoughReports(k, n) <==>
            forall peers: Peers | |peers| == n - 1 && |Reported(peers)| == k ::
              QuorumIndex(peers, n, MedianMatch(peers))
  {
    if EnoughReports(k, n) {
      forall peers: Peers | |peers| == n - 1 && |Reported(peers)| == k
        ensures QuorumIndex(peers, n, MedianMatch(peers))
      {
        MedianRank(peers, 0);
      }
    } else {
      var peers := Spread(k, n);
      assert !QuorumIndex(peers, n, MedianMatch(peers));
    }
  }

  /** `k` reports of which only the upper half is positive: the median is held by ceil(k/2) peers and no more. */
  lemma Spread(k: nat, n: nat) returns (peers: Peers)
    requires 0 < k < n
    ensures |peers| == n - 1 && |Reported(peers)| == k
    ensures |Holding(peers, MedianMatch(peers))| == k - k / 2
  {
    peers := map p | p in Range(0, n - 1) :: Progress(1, Share(p, k));
    RangeSize(0, n - 1);
    assert peers.Keys == Range(0, n - 1);
    RangeSize(0, k);
    assert Reported(peers) == Range(0, k);
    RangeSize(k / 2, k);
    assert Holding(peers, 1) == Range(k / 2, k);
    MedianRank(peers, 1);
    assert forall x: nat | x > 1 :: Holding(peers, x) == {};
  }

  function Share(p: nat, k: nat): Option<nat> {
    if p >= k then None else if p < k / 2 then Some(0) else Some(1)
  }

  predicate Between(a: nat, p: nat, b: nat) {
    a <= p < b
  }

  ghost function Range(a: nat, b: nat): set<nat> {
    set p: nat | p < b && Between(a, p, b)
  }

  lemma {:induction false} RangeSize(a: nat, b: nat)
    requires a <= b
    ensures |Range(a, b)| == b - a
    decreases b
  {
    if a < b {
      RangeSize(a, b - 1);
      assert Range(a, b) == Range(a, b - 1) + {b - 1};
    }
  }
}
