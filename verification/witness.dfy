/** Runs that show what the theorems need, and that their hypotheses can be met. */
module Witness {
  import opened Types
  import opened Quorum
  import opened Median
  import opened NodeSteps
  import opened Cluster
  import opened Falls
  import opened Counting
  import opened Majorities
  import opened Truncation
  import opened Commits
  import opened Scenes

  // ----- A late answer that lowers a term

  /** Nodes 2 and 0 end up leading term 3 together.  An incomplete-log answer that node 0 gave to node 1's ballot of
      term 2 reaches node 1 only after it voted for node 2 in term 3; node 1 falls back to term 1, and votes in term 3
      again. */
  lemma BothLead() returns (r: Run, sc: Scene)
    ensures At(r, sc) && sc.nodes.Keys == {0, 1, 2}
    ensures sc.nodes[0].role.Leader? && sc.nodes[0].term == 3 && sc.nodes[0].log == [Entry(1, "x")]
    ensures sc.nodes[2].role.Leader? && sc.nodes[2].term == 3 && sc.nodes[2].log == []
  {
    hide At;
    var late;
    r, sc := Begin(0, [], 0);
    r, sc := Stands(r, sc, 0, 1);
    r, sc := Elects(r, sc, 0, 2);
    r, sc := WritesEntry(r, sc, 0, "x");
    r, sc := Stands(r, sc, 1, 2);
    r, sc, late := Asks(r, sc, 1, 0);
    r, sc := Stands(r, sc, 2, 2);
    r, sc := Elects(r, sc, 2, 1);
    r, sc := StepsDownTo(r, sc, late);
    r, sc := Stands(r, sc, 0, 1);
    r, sc := Elects(r, sc, 0, 1);
  }

  /** Election Safety and Log Matching fail if a late answer lowers a term: two nodes lead term 3 together, and write
      different entries of it at one index. */
  lemma TwoLeaders() returns (r: Run)
    ensures ValidRun(Three(), r) && SendersLead(r) && !FallsAreLive(r)
    ensures Leads(Last(r), 0, 3) && Leads(Last(r), 2, 3)
    ensures !Matching(Last(r).nodes[0].log, Last(r).nodes[2].log)
  {
    hide At;
    var sc;
    r, sc := BothLead();
    r, sc := WritesEntry(r, sc, 2, "a");
    r, sc := WritesEntry(r, sc, 2, "b");
    r, sc := WritesEntry(r, sc, 0, "y");
    EndsWithTwo(r, sc);
  }

  lemma EndsWithTwo(r: Run, sc: Scene)
    requires At(r, sc) && 0 in sc.nodes && 2 in sc.nodes
    requires sc.nodes[0].role.Leader? && sc.nodes[0].term == 3 && sc.nodes[2].role.Leader? && sc.nodes[2].term == 3
    requires sc.nodes[0].log == [Entry(1, "x"), Entry(3, "y")] && sc.nodes[2].log == [Entry(3, "a"), Entry(3, "b")]
    ensures ValidRun(Three(), r) && SendersLead(r) && !FallsAreLive(r)
    ensures Leads(Last(r), 0, 3) && Leads(Last(r), 2, 3)
    ensures !Matching(Last(r).nodes[0].log, Last(r).nodes[2].log)
  {
    hide ValidRun, SendersLead, FallsAreLive, TermMonotone, SparesAll, NoCredits, Committed, Three;
    var end: nat := |r.states| - 1;
    if FallsAreLive(r) { ElectionSafety(Three(), r, end, end, 0, 2, 3); }
    var (a, b) := (sc.nodes[0].log, sc.nodes[2].log);
    assert a[1].term == b[1].term && a[..2][0] != b[..2][0];
  }

  // ----- An entry that is lost, and one that is kept

  lemma HeldByAll(r: Run, nodes: map<NodeId, Node>, holders: set<NodeId>, x: nat, entry: Entry)
    returns (at: map<NodeId, nat>)
    requires Visited(r, nodes) && holders <= nodes.Keys
    requires forall i | i in holders :: nodes[i].term == entry.term && x < |nodes[i].log| && nodes[i].log[x] == entry
    ensures at.Keys == holders && AllHeldIn(r, at, x, entry)
  {
    var k: nat :| k < |r.states| && r.states[k].nodes == nodes;
    at := map i | i in holders :: k;
  }

  lemma ThreeNodes()
    ensures Three().Nodes() == {0, 1, 2} && Majority(Three().Nodes(), Three().Nodes())
  {
    assert 0 in Three().Nodes();
  }

  /** Leader Completeness fails if heartbeats may empty logs: all three nodes hold an entry of term 1 in term 1, and the
      leader of term 3 does not have it. */
  lemma LostEntry() returns (r: Run, at: map<NodeId, nat>, entry: Entry)
    ensures ValidRun(Three(), r) && TermMonotone(r) && SendersLead(r) && !KeepsEntry(Three(), r, at.Keys, 0, entry)
    ensures at.Keys == Three().Nodes() && AllHeldIn(r, at, 0, entry)
    ensures Leads(Last(r), 1, 3) && 3 > entry.term && Last(r).nodes[1].log == []
  {
    hide At, Three;
    var sc;
    entry := Entry(1, "x");
    r, sc := Begin(1, [entry], 0);
    sc := Remembers(r, sc);
    var start := sc.nodes;
    r, sc := Stands(r, sc, 0, 1);
    r, sc := Elects(r, sc, 0, 1);
    r, sc := Replicates(r, sc, 0);
    r, sc := Beats(r, sc, 0, 2, 1);
    r, sc := Beats(r, sc, 0, 2, 2);
    r, sc := Stands(r, sc, 1, 1);
    r, sc := Elects(r, sc, 1, 2);
    at := EndsWithout(r, sc, start, entry);
  }

  lemma EndsWithout(r: Run, sc: Scene, start: map<NodeId, Node>, entry: Entry) returns (at: map<NodeId, nat>)
    requires At(r, sc) && sc.rising && 1 in sc.nodes && sc.nodes[1].role.Leader? && sc.nodes[1].term == 3
    requires sc.nodes[1].log == [] && start in sc.past && start.Keys == {0, 1, 2}
    requires entry.term == 1 && forall i | i in start :: start[i].log == [entry] && start[i].term == 1
    ensures ValidRun(Three(), r) && TermMonotone(r) && SendersLead(r) && !KeepsEntry(Three(), r, at.Keys, 0, entry)
    ensures at.Keys == Three().Nodes() && AllHeldIn(r, at, 0, entry)
    ensures Leads(Last(r), 1, 3) && Last(r).nodes[1].log == []
  {
    hide ValidRun, SendersLead, TermMonotone, KeepsEntry, Three, Majority, AllHeldIn, Visited, NoCredits, Committed,
      SparesAll;
    var end: nat := |r.states| - 1;
    ThreeNodes();
    at := HeldByAll(r, start, start.Keys, 0, entry);
    if KeepsEntry(Three(), r, at.Keys, 0, entry) { LeaderCompleteness(Three(), r, at, 0, entry, end, 1, 3); }
  }

  lemma KeepsFewer(cfg: Config, r: Run, who: set<NodeId>, x: nat, entry: Entry)
    requires ValidRun(cfg, r) && KeepsShared(cfg, r) && who <= cfg.Nodes()
    ensures KeepsEntry(cfg, r, who, x, entry)
  {
    hide ValidRun, StepAt, LeaderHad, Has;
    assert KeepsEntry(cfg, r, cfg.Nodes(), x, entry);
    forall k: nat | k < |r.acts| ensures KeepsEntryAt(cfg, r, k, who, x, entry) {
      assert KeepsEntryAt(cfg, r, k, cfg.Nodes(), x, entry);
    }
  }

  /** Every hypothesis under which a committed entry is proved to last can be met: the leader of term 2 writes the
      entry, sends it to one follower from the next index in its table, commits it by the median of the one report, and
      that follower leads term 3.  The source itself would not send here, since it finds no peer stale. */
  lemma KeptEntry() returns (r: Run, k: nat)
    ensures ValidRun(Three(), r) && TermMonotone(r) && SendersLead(r)
    ensures CommitsAs(r, k, Commit(0, 2, 2, Entry(2, "y")))
    ensures KeepsEntry(Three(), r, Backers(r, k, 0, 2), 1, Entry(2, "y"))
    ensures Leads(Last(r), 1, 3)
  {
    hide At, Three;
    var sc, ans;
    r, sc := Begin(1, [Entry(1, "x")], 1);
    r, sc := Stands(r, sc, 0, 1);
    r, sc := Elects(r, sc, 0, 1);
    r, sc := WritesEntry(r, sc, 0, "y");
    r, sc := Replicates(r, sc, 0);
    ThreeTable(sc.nodes[0].peers[2]);
    r, sc, ans := BringsUp(r, sc, 0, 2, 1);
    assert [Entry(1, "x")] + [Entry(2, "y")] == [Entry(1, "x"), Entry(2, "y")];
    r, sc := CommitsFirst(r, sc, 0, 2, 1, ans);
    r, sc := Stands(r, sc, 1, 1);
    r, sc := Elects(r, sc, 1, 2);
    k := EndsWith(r, sc);
  }

  lemma ThreeTable(table: Peers)
    requires table.Keys == Three().Others(0)
    ensures |table| == 2 && 1 in table
  {
    assert Three().Others(0) == {1, 2};
    assert |table| == |table.Keys|;
  }

  lemma EndsWith(r: Run, sc: Scene) returns (k: nat)
    requires At(r, sc) && sc.rising && sc.sparing && 1 in sc.nodes && sc.nodes[1].role.Leader? && sc.nodes[1].term == 3
    requires sc.done == Some(Commit(0, 2, 2, Entry(2, "y")))
    ensures ValidRun(Three(), r) && TermMonotone(r) && SendersLead(r)
    ensures CommitsAs(r, k, Commit(0, 2, 2, Entry(2, "y")))
    ensures KeepsEntry(Three(), r, Backers(r, k, 0, 2), 1, Entry(2, "y"))
    ensures Leads(Last(r), 1, 3)
  {
    hide ValidRun, SendersLead, TermMonotone, SparesAll, NoCredits, Three, KeepsShared, KeepsEntry, Majority, Visited,
      CreditAt, AllInPlace, LiveLeader;
    k :| CommitsAs(r, k, Commit(0, 2, 2, Entry(2, "y")));
    KeepsSharedExactly(Three(), r);
    BackersMajority(Three(), r, k, 0, 2);
    assert Backers(r, k, 0, 2) <= Three().Nodes() by { MajorityWithin(Backers(r, k, 0, 2), Three().Nodes()); }
    KeepsFewer(Three(), r, Backers(r, k, 0, 2), 1, Entry(2, "y"));
  }

  lemma MajorityWithin(a: set<NodeId>, b: set<NodeId>)
    requires Majority(a, b)
    ensures a <= b
  {
  }

  // ----- Arms that run after their role has ended

  /** Election Safety needs the check of the role and the arm to be one step: if a candidate whose election is decided
      steps down between the two, and then takes the result all the same, it leads a term that another node leads. */
  lemma StaleWin() returns (r: Run)
    ensures ValidRun(Three(), r) && TermMonotone(r) && SendersLead(r) && |r.states| >= 2
    ensures var (before, after) := (r.states[|r.states| - 2].nodes, Last(r).nodes);
            && 0 in before && 0 in after && 2 in after
            && LiveBallot(before[0]) && before[0].ballot.value.decided
            && after[0].role.Follower? && after[0].ballot == before[0].ballot
            && after[0].term == 2 && after[2].role.Leader? && after[2].term == 2
  {
    hide At;
    var sc, ans;
    r, sc := Begin(0, [], 0);
    r, sc := Stands(r, sc, 0, 1);
    r, sc := Decides(r, sc, 0, 1);
    r, sc := Stands(r, sc, 2, 2);
    r, sc := Elects(r, sc, 2, 1);
    r, sc, ans := Asks(r, sc, 0, 2);
    var r0, sc0 := r, sc;
    r, sc := StepsDownTo(r, sc, ans);
    LastTwo(r0, sc0, r, sc);
  }

  /** Log Matching needs it too: if a leader steps down between the check and the arm, and then appends the next command
      all the same, its log no longer matches that of the leader of its new term. */
  lemma StaleAppend() returns (r: Run)
    ensures ValidRun(Three(), r) && TermMonotone(r) && SendersLead(r) && |r.states| >= 2
    ensures var (before, after) := (r.states[|r.states| - 2].nodes, Last(r).nodes);
            && 0 in before && 0 in after && 1 in after
            && before[0].role.Leader? && after[0].role.Follower?
            && !Matching(after[0].log + [Entry(after[0].term, "y")], after[1].log)
  {
    hide At;
    var sc, m, ans;
    r, sc := Begin(0, [], 0);
    r, sc := Stands(r, sc, 0, 1);
    r, sc := Elects(r, sc, 0, 2);
    r, sc := Replicates(r, sc, 0);
    r, sc := Stands(r, sc, 1, 2);
    r, sc := Elects(r, sc, 1, 2);
    r, sc := WritesEntry(r, sc, 1, "z");
    r, m := SendsHeartbeat(r, sc, 0, 2, 1);
    r, ans := RefusesStale(r, sc, m);
    var r0, sc0 := r, sc;
    r, sc := StepsDownBy(r, sc, ans);
    LastTwo(r0, sc0, r, sc);
    var (a, b) := (sc.nodes[0].log + [Entry(2, "y")], sc.nodes[1].log);
    assert a[0].term == b[0].term && a[..1][0] != b[..1][0];
  }

  lemma LastTwo(r: Run, sc: Scene, r': Run, sc': Scene)
    requires At(r, sc) && At(r', sc') && sc'.rising && r.states <= r'.states && |r'.states| == |r.states| + 1
    ensures ValidRun(Three(), r') && TermMonotone(r') && SendersLead(r') && |r'.states| >= 2
    ensures r'.states[|r'.states| - 2].nodes == sc.nodes && Last(r').nodes == sc'.nodes
    ensures sc.nodes.Keys == {0, 1, 2} == sc'.nodes.Keys
  {
    hide ValidRun, SendersLead, TermMonotone, SparesAll, NoCredits, Committed, Three;
    ThreeNodes();
    assert r'.states[|r.states| - 1] == r.states[|r.states| - 1];
  }
}
