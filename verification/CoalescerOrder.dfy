/** In which order runs give way and are flushed, and when a committed row was last seen. */
module CoalescerOrder {
  import opened Wrappers
  import opened Sampling
  import opened SamplingRestore
  import opened Coalescer
  import opened CoalescerInvariants
  import opened CoalescerTheorems
  import opened CoalescerRuns

  // ------------------------------------------------------------------- which run gives way

  /** The number of the last operation that counted something under a key, from 1. */
  function LastUse(cfg: Config, ops: seq<Op>, k: Key): nat
    requires cfg.Valid()
  {
    if ops == [] then 0
    else if CountsUnder(cfg, RunOf(cfg, ops[..|ops| - 1]), ops[|ops| - 1], k) then |ops|
    else LastUse(cfg, ops[..|ops| - 1], k)
  }

  lemma {:induction false} LastUseBound(cfg: Config, ops: seq<Op>, k: Key)
    requires cfg.Valid()
    ensures LastUse(cfg, ops, k) <= |ops|
  {
    if ops != [] { LastUseBound(cfg, ops[..|ops| - 1], k); }
    hide CountsUnder, RunOf;
  }

  /** The open runs stand in the order of their last use. */
  ghost predicate InOrderOfUse(cfg: Config, ops: seq<Op>, order: seq<Key>)
    requires cfg.Valid()
  {
    forall i, j | 0 <= i < j < |order| :: LastUse(cfg, ops, order[i]) < LastUse(cfg, ops, order[j])
  }

  ghost predicate Rising(order: seq<Key>, rank: map<Key, nat>) {
    && (forall i | 0 <= i < |order| :: order[i] in rank)
    && forall i, j | 0 <= i < j < |order| :: rank[order[i]] < rank[order[j]]
  }

  lemma {:induction false} WithoutRises(order: seq<Key>, k: Key, rank: map<Key, nat>)
    requires Rising(order, rank)
    ensures Rising(Without(order, k), rank)
    ensures forall i | 0 <= i < |Without(order, k)| :: Without(order, k)[i] in order && Without(order, k)[i] != k
  {
    if order != [] {
      var front, last := order[..|order| - 1], order[|order| - 1];
      WithoutRises(front, k, rank);
      var rest := Without(front, k);
      forall i | 0 <= i < |rest| && last != k ensures rank[rest[i]] < rank[last] {
        var j :| 0 <= j < |front| && front[j] == rest[i];
        assert order[j] == rest[i];
      }
      assert order == front + [last];
    }
  }

  /** The order once there is room for an arriving key. */
  function RoomOrder(cfg: Config, s: State, k: Key): seq<Key> {
    if !s.closed && k !in s.open && |s.order| >= cfg.maxOpen && s.order != [] then s.order[1..] else s.order
  }

  /** What an operation does to the order: an evicted run goes from the front, an arriving
      one goes to the end. */
  lemma AddOrder(cfg: Config, s: State, item: Item, commits: bool)
    requires cfg.Valid() && Bounded(cfg, s)
    ensures var k := KeyOf(cfg, item);
            Apply(cfg, s, Add(item, commits)).order
            == if Accepted(cfg, s, k, commits) then Without(RoomOrder(cfg, s, k), k) + [k] else RoomOrder(cfg, s, k)
  {
    var k := KeyOf(cfg, item);
    if s.closed { return; }
    RoomIsOrdered(cfg, s, k, commits);
    RoomBounded(cfg, s, k, commits);
    hide KeyOf, ObservationOf, Room, Placed, Lists, Without, EvictionFails;
    var t := Room(cfg, s, k, commits);
    PlacedFields(cfg, t, k, ObservationOf(item));
    OrderHasOpen(t, k);
    WithoutAbsent(t.order, k);
  }

  lemma RoomIsOrdered(cfg: Config, s: State, k: Key, commits: bool)
    requires cfg.Valid() && Bounded(cfg, s) && !s.closed
    ensures Room(cfg, s, k, commits).order == RoomOrder(cfg, s, k)
  {
    if s.order != [] { EvictedOrder(s, commits); }
    hide Lists, Evicted;
  }

  lemma OtherOrder(cfg: Config, s: State, op: Op)
    requires cfg.Valid() && Bounded(cfg, s) && !op.Add?
    ensures Apply(cfg, s, op).order == s.order || Apply(cfg, s, op).order == []
  {
    hide Lists, FlushedFrom;
    if op.Flush? || op.Close? { FlushedOrder(s, 0, op.budget); }
  }

  lemma UsedNow(cfg: Config, ops: seq<Op>, op: Op, j: Key)
    requires cfg.Valid()
    ensures LastUse(cfg, ops + [op], j)
            == if op.Add? && KeyOf(cfg, op.item) == j && Accepted(cfg, RunOf(cfg, ops), j, op.commits) then |ops| + 1
               else LastUse(cfg, ops, j)
  {
    assert (ops + [op])[..|ops|] == ops;
    CountedInRun(cfg, ops, op, j);
    hide CountsUnder, KeyOf, Accepted, RunOf;
  }

  lemma KeptInOrder(cfg: Config, ops: seq<Op>, op: Op, order: seq<Key>, kept: seq<Key>)
    requires cfg.Valid() && InOrderOfUse(cfg, ops, order)
    requires kept == order || kept == [] || (order != [] && kept == order[1..])
    ensures InOrderOfUse(cfg, ops, kept)
    ensures (forall j :: LastUse(cfg, ops + [op], j) == LastUse(cfg, ops, j)) ==> InOrderOfUse(cfg, ops + [op], kept)
  {
    hide LastUse;
  }

  lemma UsedLast(cfg: Config, ops: seq<Op>, op: Op, order: seq<Key>, k: Key)
    requires cfg.Valid() && InOrderOfUse(cfg, ops, order)
    requires forall j :: LastUse(cfg, ops + [op], j) == if j == k then |ops| + 1 else LastUse(cfg, ops, j)
    ensures InOrderOfUse(cfg, ops + [op], Without(order, k) + [k])
  {
    hide LastUse, Without;
    var rank := map j | j in order :: LastUse(cfg, ops, j);
    assert Rising(order, rank);
    WithoutRises(order, k, rank);
    var rest := Without(order, k);
    var longer := rest + [k];
    forall i, j | 0 <= i < j < |longer|
        ensures LastUse(cfg, ops + [op], longer[i]) < LastUse(cfg, ops + [op], longer[j]) {
      assert rest[i] in order && rest[i] != k;
      if j < |rest| {
        assert rank[rest[i]] < rank[rest[j]];
        assert rest[j] in order && rest[j] != k;
      } else {
        LastUseBound(cfg, ops, rest[i]);
      }
    }
  }

  lemma OrderOfUseStep(cfg: Config, ops: seq<Op>, op: Op)
    requires cfg.Valid() && InOrderOfUse(cfg, ops, RunOf(cfg, ops).order)
    ensures InOrderOfUse(cfg, ops + [op], Apply(cfg, RunOf(cfg, ops), op).order)
  {
    hide Apply, KeyOf, RunOf, LastUse, CountsUnder, InOrderOfUse, Accepted, Lists, Without;
    var s := RunOf(cfg, ops);
    forall j ensures LastUse(cfg, ops + [op], j)
        == if op.Add? && KeyOf(cfg, op.item) == j && Accepted(cfg, s, j, op.commits) then |ops| + 1
           else LastUse(cfg, ops, j)
    {
      UsedNow(cfg, ops, op, j);
    }
    if op.Add? {
      var k := KeyOf(cfg, op.item);
      AddOrder(cfg, s, op.item, op.commits);
      KeptInOrder(cfg, ops, op, s.order, RoomOrder(cfg, s, k));
      if Accepted(cfg, s, k, op.commits) { UsedLast(cfg, ops, op, RoomOrder(cfg, s, k), k); }
    } else {
      OtherOrder(cfg, s, op);
      KeptInOrder(cfg, ops, op, s.order, Apply(cfg, s, op).order);
    }
  }

  lemma {:induction false} OpenRunsInOrderOfUse(cfg: Config, ops: seq<Op>)
    requires cfg.Valid()
    ensures InOrderOfUse(cfg, ops, RunOf(cfg, ops).order)
  {
    hide InOrderOfUse, Apply, Lists;
    if ops != [] {
      var front := ops[..|ops| - 1];
      OpenRunsInOrderOfUse(cfg, front);
      OrderOfUseStep(cfg, front, ops[|ops| - 1]);
      assert front + [ops[|ops| - 1]] == ops;
    } else {
      NothingInOrder(cfg);
    }
  }

  lemma NothingInOrder(cfg: Config)
    requires cfg.Valid()
    ensures InOrderOfUse(cfg, [], [])
  {
  }

  lemma OpenAfterAdd(cfg: Config, s: State, item: Item, commits: bool, k: Key)
    requires cfg.Valid() && Bounded(cfg, s) && k in s.open
    ensures k !in Apply(cfg, s, Add(item, commits)).open <==> Evicts(cfg, s, KeyOf(cfg, item), k)
  {
    ArrivingStays(cfg, s, k);
    hide KeyOf, ObservationOf, Flushed, Loaded, Counted, Lists, Without;
  }

  /** An open run gives way to an observation exactly when the coalescer is full, no open run
      agrees with the observation, and this run is the one least recently added to. */
  lemma LeastRecentlyUsedGivesWay(cfg: Config, ops: seq<Op>, item: Item, commits: bool, k: Key)
    requires cfg.Valid() && k in RunOf(cfg, ops).open
    ensures var s := RunOf(cfg, ops);
            k !in Apply(cfg, s, Add(item, commits)).open
            <==>
            && !s.closed && |s.open| >= cfg.maxOpen && (forall j | j in s.open :: !Agrees(cfg, item, j))
            && forall j | j in s.open && j != k :: LastUse(cfg, ops, k) < LastUse(cfg, ops, j)
  {
    var s, arriving := RunOf(cfg, ops), KeyOf(cfg, item);
    OpenAfterAdd(cfg, s, item, commits, k);
    OpenRunsInOrderOfUse(cfg, ops);
    ListsSize(s.order, s.open.Keys);
    hide KeyOf, RunOf, Apply, LastUse, Agrees;
    forall j ensures Agrees(cfg, item, j) <==> j == arriving { KeyAgrees(cfg, item, j); }
    forall j ensures j in s.order <==> j in s.open { OrderHasOpen(s, j); }
    hide Lists;
    assert s.order != [] ==> s.order[0] in s.open;
    assert k in s.order;
  }

  /** No other operation but a crash or a close that succeeds takes a run away. */
  lemma OtherwiseRunsStay(cfg: Config, ops: seq<Op>, op: Op, k: Key)
    requires cfg.Valid() && k in RunOf(cfg, ops).open && k !in Apply(cfg, RunOf(cfg, ops), op).open && !op.Add?
    ensures op.Crash? || (op.Close? && Apply(cfg, RunOf(cfg, ops), op).closed)
  {
    var s := RunOf(cfg, ops);
    if op.Flush? || op.Close? { FlushedOrder(s, 0, op.budget); }
    hide RunOf, FlushedFrom, Lists;
  }

  /** On any run the coalescer is closed exactly when an operation closed it and no crash came
      after; and whenever it is closed, or has just crashed, nothing is open. */
  lemma ClosedSince(cfg: Config, ops: seq<Op>, op: Op)
    requires cfg.Valid()
    ensures var s, t := RunOf(cfg, ops), Apply(cfg, RunOf(cfg, ops), op);
            && (t.closed <==> !op.Crash? && (s.closed || (op.Close? && AllFlushed(FlushedFrom(s, 0, op.budget)))))
            && (t.closed || op.Crash? ==> t.open == map[] && t.order == [])
            && (op.Crash? ==> t.rows == s.rows && t.samples == s.samples)
  {
    ClosedIsEmpty(cfg, ops);
    var s := RunOf(cfg, ops);
    if op.Flush? || op.Close? { FlushedOrder(s, 0, op.budget); }
    if s.closed && op.Flush? { assert FlushedFrom(s, 0, op.budget) == s; }
    hide RunOf, Room, Placed, KeyOf, ObservationOf, AllFlushed;
    if op.Add? { AddKeepsOpen(cfg, s, op.item, op.commits); }
  }

  lemma AddKeepsOpen(cfg: Config, s: State, item: Item, commits: bool)
    requires cfg.Valid() && Bounded(cfg, s)
    ensures Apply(cfg, s, Add(item, commits)).closed == s.closed
    ensures s.closed ==> Apply(cfg, s, Add(item, commits)) == s
  {
    hide KeyOf, ObservationOf, UpsertRow, TableOf, Samples, Loaded, Counted, Lists, Without;
  }

  lemma {:induction false} ClosedIsEmpty(cfg: Config, ops: seq<Op>)
    requires cfg.Valid()
    ensures RunOf(cfg, ops).closed ==> RunOf(cfg, ops).open == map[] && RunOf(cfg, ops).order == []
  {
    if ops != [] {
      var front, op := ops[..|ops| - 1], ops[|ops| - 1];
      var s := RunOf(cfg, front);
      ClosedIsEmpty(cfg, front);
      if op.Flush? || op.Close? {
        FlushedOrder(s, 0, op.budget);
        if s.closed { assert FlushedFrom(s, 0, op.budget) == s; }
      }
      if op.Add? { AddKeepsOpen(cfg, s, op.item, op.commits); }
      hide Added, FlushedFrom, Lists, AllFlushed;
    }
  }

  // ---------------------------------------------------------------------- order of flushing

  /** How many of the runs at positions i..j have something pending. */
  function PendingRuns(s: State, i: nat, j: nat): nat
    requires OrderListsOpen(s) && j < |s.order|
    decreases j
  {
    if i > j then 0
    else (if j == 0 then 0 else PendingRuns(s, i, j - 1)) + if s.open[s.order[j]].pending > 0 then 1 else 0
  }

  lemma {:induction false} PendingFirst(s: State, i: nat, j: nat)
    requires OrderListsOpen(s) && i <= j < |s.order|
    ensures PendingRuns(s, i, j) == PendingRuns(s, i + 1, j) + if s.open[s.order[i]].pending > 0 then 1 else 0
    decreases j
  {
    if i < j { PendingFirst(s, i, j - 1); }
    hide Lists;
  }

  lemma {:induction false} PendingSame(s: State, t: State, i: nat, j: nat)
    requires OrderListsOpen(s) && OrderListsOpen(t) && t.order == s.order && j < |s.order|
    requires forall m | i <= m < |s.order| :: t.open[t.order[m]].pending == s.open[s.order[m]].pending
    ensures PendingRuns(t, i, j) == PendingRuns(s, i, j)
    decreases j
  {
    hide Lists;
    if i <= j && j > 0 { PendingSame(s, t, i, j - 1); }
  }

  lemma CommitsOne(s: State, i: nat)
    requires OrderListsOpen(s) && i < |s.order|
    ensures s.order[i] in s.open
    ensures var t := Committed(s, s.order[i]);
            && OrderListsOpen(t) && t.order == s.order && t.open[s.order[i]].pending == 0
            && forall m | 0 <= m < |s.order| && m != i :: t.open[s.order[m]].pending == s.open[s.order[m]].pending
  {
    CommittedOrder(s, s.order[i]);
    hide UpsertRow, TableOf, Samples;
  }

  lemma PendingIs(s: State, k: Key)
    requires k in s.open
    ensures PendingOf(SlotOf(s, k).run) == s.open[k].pending
  {
  }

  /** A flush commits the runs with something pending oldest first: after it, the run at a
      position has nothing pending if and only if it had nothing before, or at most `budget`
      runs up to it had something. */
  lemma {:induction false} FlushedOldestFirst(s: State, i: nat, budget: nat, j: nat)
    requires OrderListsOpen(s) && i <= j < |s.order|
    ensures s.order[j] in s.open
    ensures PendingOf(SlotOf(FlushedFrom(s, i, budget), s.order[j]).run) == 0
            <==> s.open[s.order[j]].pending == 0 || PendingRuns(s, i, j) <= budget
    decreases |s.order| - i
  {
    hide Committed, FlushedFrom, Lists, PendingRuns, SlotOf, PendingOf;
    FlushTurn(s, i, budget);
    CommitsOne(s, i);
    CommitsOne(s, j);
    PendingFirst(s, i, j);
    var t := Committed(s, s.order[i]);
    PendingIs(s, s.order[j]);
    if i == j {
      PendingBeyond(s, i);
      if s.open[s.order[i]].pending == 0 || budget > 0 { FlushReached(s, i, budget); }
    } else if s.open[s.order[i]].pending == 0 {
      FlushedOldestFirst(s, i + 1, budget, j);
    } else if budget > 0 {
      FlushedOldestFirst(t, i + 1, budget - 1, j);
      PendingSame(s, t, i + 1, j);
    }
  }

  lemma PendingBeyond(s: State, i: nat)
    requires OrderListsOpen(s) && i < |s.order|
    ensures PendingRuns(s, i + 1, i) == 0
  {
  }

  lemma FlushReached(s: State, i: nat, budget: nat)
    requires OrderListsOpen(s) && i < |s.order|
    requires s.order[i] in s.open && (s.open[s.order[i]].pending == 0 || budget > 0)
    ensures PendingOf(SlotOf(FlushedFrom(s, i, budget), s.order[i]).run) == 0
  {
    var k := s.order[i];
    FlushSlot(s, i, budget, k);
    CommittedPending(SlotOf(s, k));
    PendingIs(s, k);
    hide FlushedFrom, Lists, SlotCommitted, PendingOf, SlotOf;
    if budget > 0 { FlushReachesHere(s, i, budget); }
  }

  // ------------------------------------------------------------------------ last seen

  lemma RowChange(cfg: Config, s: State, op: Op, k: Key)
    requires cfg.Valid() && Bounded(cfg, s)
    ensures var row := RowOf(Apply(cfg, s, op), k);
            row == RowOf(s, k) || row == SlotCommitted(SlotOf(s, k)).row
  {
    match op
    case Add(item, commits) => AddedRow(cfg, s, item, commits, k);
    case Flush(budget) =>
      FlushSlot(s, 0, budget, k);
      hide FlushedFrom, Lists, SlotCommitted;
    case Close(budget) =>
      FlushSlot(s, 0, budget, k);
      hide FlushedFrom, Lists, SlotCommitted;
    case Crash =>
  }

  lemma AddedRow(cfg: Config, s: State, item: Item, commits: bool, k: Key)
    requires cfg.Valid() && Bounded(cfg, s)
    ensures var row := RowOf(Apply(cfg, s, Add(item, commits)), k);
            row == RowOf(s, k) || row == SlotCommitted(SlotOf(s, k)).row
  {
    var arriving, o := KeyOf(cfg, item), ObservationOf(item);
    if s.closed { return; }
    RoomSlot(cfg, s, arriving, commits, k);
    PlacedSlot(cfg, Room(cfg, s, arriving, commits), arriving, o, k);
    hide KeyOf, ObservationOf, Room, Placed, Lists, SlotCommitted, EvictionFails, Evicts, Loaded, Counted;
  }

  /** The row of a key after an operation, if the operation commits it: it counts all that
      is kept, and was last seen at its latest commit or at the last observation kept. */
  predicate CommitsRow(row: Option<RunRow>, after: Option<RunRow>, kept: seq<Observation>) {
    && kept != [] && after.Some? && after.value.count == |kept| && |kept| > CountOf(row)
    && after.value.lastSeen == if row.Some? && row.value.lastSeen >= kept[|kept| - 1].at then row.value.lastSeen
                               else kept[|kept| - 1].at
  }

  lemma SlotCommitsRow(capacity: nat, score: nat -> nat, slot: Slot, t: Trace)
    requires SlotOk(capacity, score, slot, t)
    ensures SlotCommitted(slot).row == slot.row || CommitsRow(slot.row, SlotCommitted(slot).row, t.kept)
  {
    hide Fed, TableOf, MaxLevel;
  }

  lemma RowStep(cfg: Config, s: State, op: Op, k: Key, t: Trace)
    requires cfg.Valid() && Bounded(cfg, s) && SlotOk(cfg.capacity, cfg.score(k), SlotOf(s, k), t)
    ensures var row, after, u := RowOf(s, k), RowOf(Apply(cfg, s, op), k), TraceStep(cfg, s, op, k, t).kept;
            && (after == row || CommitsRow(row, after, t.kept))
            && CountOf(row) <= |t.kept| && CountOf(after) <= |u| && CountOf(after) <= |t.kept|
            && u[..CountOf(after)] == t.kept[..CountOf(after)]
  {
    hide SlotOk, Apply, TraceStep, KeyOf, ObservationOf, Accepted, SlotCommitted, Lists;
    RowChange(cfg, s, op, k);
    SlotCommitsRow(cfg.capacity, cfg.score(k), SlotOf(s, k), t);
    StepKeeps(cfg, s, op, k, t);
    CountWithin(cfg.capacity, cfg.score(k), SlotOf(s, k), t);
    CountWithin(cfg.capacity, cfg.score(k), SlotOf(Apply(cfg, s, op), k), TraceStep(cfg, s, op, k, t));
    KeptIsPrefix(cfg, s, op, k, t);
  }

  lemma CountWithin(capacity: nat, score: nat -> nat, slot: Slot, t: Trace)
    requires SlotOk(capacity, score, slot, t)
    ensures CountOf(slot.row) <= |t.kept|
  {
  }

  /** The counts that the row of a key has had, one a commit. */
  function Commits(cfg: Config, ops: seq<Op>, k: Key): seq<nat>
    requires cfg.Valid()
  {
    if ops == [] then [] else
      var before, after := RowOf(RunOf(cfg, ops[..|ops| - 1]), k), RowOf(RunOf(cfg, ops), k);
      Commits(cfg, ops[..|ops| - 1], k) + if CountOf(after) != CountOf(before) then [CountOf(after)] else []
  }

  /** The row was last seen at the latest of the instants that ended a committed batch. */
  ghost predicate LastSeenOk(row: Option<RunRow>, commits: seq<nat>, kept: seq<Observation>) {
    && (row.None? <==> commits == [])
    && CountOf(row) <= |kept|
    && (forall c | c in commits :: 0 < c <= CountOf(row))
    && (row.Some? ==>
          && commits[|commits| - 1] == row.value.count
          && (forall c | c in commits :: kept[c - 1].at <= row.value.lastSeen)
          && exists c | c in commits :: kept[c - 1].at == row.value.lastSeen)
  }

  lemma SeenStays(row: Option<RunRow>, commits: seq<nat>, kept: seq<Observation>, u: seq<Observation>)
    requires LastSeenOk(row, commits, kept) && CountOf(row) <= |u| && u[..CountOf(row)] == kept[..CountOf(row)]
    ensures LastSeenOk(row, commits, u)
  {
    forall c | c in commits ensures u[c - 1] == kept[c - 1] {
      assert u[..CountOf(row)][c - 1] == kept[..CountOf(row)][c - 1];
    }
    if row.Some? {
      var c :| c in commits && kept[c - 1].at == row.value.lastSeen;
      assert u[c - 1].at == row.value.lastSeen;
    }
  }

  lemma SeenCommits(row: Option<RunRow>, after: Option<RunRow>, commits: seq<nat>, kept: seq<Observation>)
    requires LastSeenOk(row, commits, kept) && CommitsRow(row, after, kept)
    ensures LastSeenOk(after, commits + [CountOf(after)], kept)
  {
    var more := commits + [CountOf(after)];
    assert more[|commits|] == |kept|;
    if row.Some? && row.value.lastSeen >= kept[|kept| - 1].at {
      var c :| c in commits && kept[c - 1].at == row.value.lastSeen;
      assert c in more;
    } else {
      assert |kept| in more;
    }
  }

  /** On any run, the committed row of a key was last seen at the latest of the instants of
      the observations that were the last of a committed batch. */
  lemma {:induction false} LastSeenIsLatestCommitted(cfg: Config, ops: seq<Op>, k: Key)
    requires cfg.Valid()
    ensures LastSeenOk(RowOf(RunOf(cfg, ops), k), Commits(cfg, ops, k), TraceAfter(cfg, ops, k).kept)
  {
    if ops != [] {
      var front, op := ops[..|ops| - 1], ops[|ops| - 1];
      LastSeenIsLatestCommitted(cfg, front, k);
      RunKeeps(cfg, front, k);
      var s, t := RunOf(cfg, front), TraceAfter(cfg, front, k);
      assert RunOf(cfg, ops) == Apply(cfg, s, op) && TraceAfter(cfg, ops, k) == TraceStep(cfg, s, op, k, t);
      var commits := Commits(cfg, front, k);
      hide SlotOk, Apply, TraceStep, LastSeenOk, RunOf, TraceAfter, Lists, RowOf;
      RowStep(cfg, s, op, k, t);
      var row, after := RowOf(s, k), RowOf(Apply(cfg, s, op), k);
      if after == row {
        assert commits + [] == commits;
        SeenStays(row, commits, t.kept, TraceStep(cfg, s, op, k, t).kept);
      } else {
        SeenCommits(row, after, commits, t.kept);
        SeenStays(after, commits + [CountOf(after)], t.kept, TraceStep(cfg, s, op, k, t).kept);
      }
    }
  }
}
