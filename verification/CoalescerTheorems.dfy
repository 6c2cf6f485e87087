/** Whole runs of the coalescer: adds, flushes, evictions that may fail, closing, and
    crashes followed by a restart over the same tables. */
module CoalescerTheorems {
  import opened Wrappers
  import opened Sampling
  import opened SamplingRestore
  import opened Coalescer
  import opened CoalescerInvariants

  predicate Bounded(cfg: Config, s: State) {
    OrderListsOpen(s) && |s.order| <= cfg.maxOpen
  }

  // -------------------------------------------------- the open runs and their order

  lemma {:induction false} WithoutMeaning<T>(order: seq<T>, k: T)
    requires forall i, j | 0 <= i < j < |order| :: order[i] != order[j]
    ensures var r := Without(order, k);
            && (forall x :: x in r <==> x in order && x != k)
            && (forall i | 0 <= i < |r| :: r[i] in order && r[i] != k)
            && (forall i, j | 0 <= i < j < |r| :: r[i] != r[j])
            && |r| == (if k in order then |order| - 1 else |order|)
  {
    if order != [] {
      var front := order[..|order| - 1];
      WithoutMeaning(front, k);
      assert order == front + [order[|order| - 1]];
      assert order[|order| - 1] !in front;
    }
  }

  lemma ListedExactly<T>(order: seq<T>, keys: set<T>, k: T)
    requires Lists(order, keys)
    ensures k in order <==> k in keys
  {
    var listed := set x | x in order;
    assert listed <= keys;
    SeqToSetSize(order, listed);
    SameSize(listed, keys);
  }

  lemma OrderHasOpen(s: State, k: Key)
    requires OrderListsOpen(s)
    ensures k in s.order <==> k in s.open
  {
    ListedExactly(s.order, s.open.Keys, k);
  }

  lemma {:induction false} SeqToSetSize<T>(order: seq<T>, keys: set<T>)
    requires forall i, j | 0 <= i < j < |order| :: order[i] != order[j]
    requires forall x :: x in keys <==> x in order
    ensures |keys| == |order|
  {
    if order == [] {
      assert keys == {};
    } else {
      var front, last := order[..|order| - 1], order[|order| - 1];
      assert order == front + [last];
      SeqToSetSize(front, keys - {last});
    }
  }

  lemma SameSize<T>(a: set<T>, b: set<T>)
    requires a <= b && |a| == |b|
    ensures a == b
  {
    if x :| x in b && x !in a {
      SubsetSize(a, b - {x});
    }
  }

  lemma EvictedOrder(s: State, commits: bool)
    requires OrderListsOpen(s) && s.order != []
    ensures OrderListsOpen(Evicted(s, commits)) && Evicted(s, commits).order == s.order[1..]
    ensures Evicted(s, commits).open == s.open - {s.order[0]}
  {
    var t := Evicted(s, commits);
    assert t.open.Keys == s.open.Keys - {s.order[0]};
  }

  lemma ListsWithLast<T>(order: seq<T>, keys: set<T>, k: T)
    requires Lists(order, keys)
    ensures Lists(Without(order, k) + [k], keys + {k})
  {
    WithoutMeaning(order, k);
    ListedExactly(order, keys, k);
    var r := Without(order, k);
    forall i | 0 <= i < |r| ensures r[i] in keys && r[i] != k {
      ListedExactly(order, keys, r[i]);
    }
    if k in keys { assert keys + {k} == keys; }
  }

  lemma {:induction false} WithoutAbsent<T>(order: seq<T>, k: T)
    ensures k !in order ==> Without(order, k) == order
  {
    if k !in order && order != [] {
      assert order == order[..|order| - 1] + [order[|order| - 1]];
      WithoutAbsent(order[..|order| - 1], k);
    }
  }

  lemma PlacedFields(cfg: Config, s: State, k: Key, o: Observation)
    ensures var t := Placed(cfg, s, k, o);
            && t.order == (if k in s.open then Without(s.order, k) else s.order) + [k]
            && t.open.Keys == s.open.Keys + {k}
  {
    hide Loaded, Counted, Without;
  }

  lemma PlacedOrder(cfg: Config, s: State, k: Key, o: Observation)
    requires OrderListsOpen(s)
    ensures var t := Placed(cfg, s, k, o);
            OrderListsOpen(t) && t.open.Keys == s.open.Keys + {k}
  {
    hide *;
    PlacedFields(cfg, s, k, o);
    OrderHasOpen(s, k);
    WithoutAbsent(s.order, k);
    KeepListed(s, Placed(cfg, s, k, o), k);
  }

  lemma KeepListed(s: State, t: State, k: Key)
    requires OrderListsOpen(s) && t.order == Without(s.order, k) + [k] && t.open.Keys == s.open.Keys + {k}
    ensures OrderListsOpen(t)
  {
    hide Lists, Without;
    ListsWithLast(s.order, s.open.Keys, k);
  }

  lemma ListsSize<T>(order: seq<T>, keys: set<T>)
    requires Lists(order, keys)
    ensures |order| == |keys|
  {
  }

  /** Making room leaves a slot for a key that is not open. */
  lemma RoomBounded(cfg: Config, s: State, k: Key, commits: bool)
    requires cfg.Valid() && Bounded(cfg, s)
    ensures var t := Room(cfg, s, k, commits);
            OrderListsOpen(t) && |t.order| <= cfg.maxOpen && (k in t.open || |t.order| < cfg.maxOpen)
  {
    hide Lists, Evicted;
    if k !in s.open && |s.order| >= cfg.maxOpen { EvictedOrder(s, commits); }
  }

  lemma PlacedBounded(cfg: Config, s: State, k: Key, o: Observation)
    requires OrderListsOpen(s) && |s.order| <= cfg.maxOpen && (k in s.open || |s.order| < cfg.maxOpen)
    ensures Bounded(cfg, Placed(cfg, s, k, o))
  {
    hide Lists, Placed;
    var t := Placed(cfg, s, k, o);
    PlacedOrder(cfg, s, k, o);
    ListsSize(s.order, s.open.Keys);
    ListsSize(t.order, t.open.Keys);
    assert k in s.open ==> s.open.Keys + {k} == s.open.Keys;
  }

  lemma AddedBounded(cfg: Config, s: State, item: Item, commits: bool)
    requires cfg.Valid() && Bounded(cfg, s)
    ensures Bounded(cfg, Added(cfg, s, item, commits))
  {
    hide KeyOf, ObservationOf, Room, Placed, EvictionFails, Lists;
    var k := KeyOf(cfg, item);
    RoomBounded(cfg, s, k, commits);
    PlacedBounded(cfg, Room(cfg, s, k, commits), k, ObservationOf(item));
  }

  lemma CommittedKeys(s: State, k: Key)
    requires k in s.open
    ensures Committed(s, k).open.Keys == s.open.Keys && Committed(s, k).closed == s.closed
  {
  }

  /** The same runs are open, in the same order. */
  predicate SameRuns(s: State, t: State) {
    t.order == s.order && t.open.Keys == s.open.Keys && t.closed == s.closed
  }

  lemma SameRunsTransitive(s: State, t: State, u: State)
    requires SameRuns(s, t) && SameRuns(t, u)
    ensures SameRuns(s, u)
  {
  }

  /** One turn of the flush loop. */
  lemma FlushTurn(s: State, i: nat, budget: nat)
    requires OrderListsOpen(s) && i < |s.order|
    ensures s.order[i] in s.open
    ensures var t := Committed(s, s.order[i]);
            && OrderListsOpen(t) && t.order == s.order && SameRuns(s, t)
            && FlushedFrom(s, i, budget)
               == if s.open[s.order[i]].pending == 0 then FlushedFrom(s, i + 1, budget)
                  else if budget == 0 then s else FlushedFrom(t, i + 1, budget - 1)
  {
    CommittedOrder(s, s.order[i]);
    CommittedKeys(s, s.order[i]);
    assert s.order[i] in s.open;
    hide Lists, Committed;
  }

  lemma FlushedAtEnd(s: State, budget: nat)
    requires OrderListsOpen(s)
    ensures FlushedFrom(s, |s.order|, budget) == s && SameRuns(s, s)
  {
  }

  lemma {:induction false} FlushedOrder(s: State, i: nat, budget: nat)
    requires OrderListsOpen(s) && i <= |s.order|
    ensures var t := FlushedFrom(s, i, budget); OrderListsOpen(t) && SameRuns(s, t)
    decreases |s.order| - i
  {
    hide *;
    FlushedAtEnd(s, budget);
    if i < |s.order| {
      FlushTurn(s, i, budget);
      var t := Committed(s, s.order[i]);
      if s.open[s.order[i]].pending == 0 {
        FlushedOrder(s, i + 1, budget);
      } else if budget > 0 {
        FlushedOrder(t, i + 1, budget - 1);
        SameRunsTransitive(s, t, FlushedFrom(t, i + 1, budget - 1));
      }
    }
  }

  lemma ApplyBounded(cfg: Config, s: State, op: Op)
    requires cfg.Valid() && Bounded(cfg, s)
    ensures Bounded(cfg, Apply(cfg, s, op))
  {
    match op
    case Add(item, commits) => AddedBounded(cfg, s, item, commits);
    case Flush(budget) => FlushedOrder(s, 0, budget);
    case Close(budget) => FlushedOrder(s, 0, budget);
    case Crash =>
  }

  /** The state after a whole run from empty tables. */
  function RunOf(cfg: Config, ops: seq<Op>): (s: State)
    requires cfg.Valid()
    ensures Bounded(cfg, s)
  {
    if ops == [] then EmptyState else
      var s := RunOf(cfg, ops[..|ops| - 1]);
      ApplyBounded(cfg, s, ops[|ops| - 1]);
      Apply(cfg, s, ops[|ops| - 1])
  }

  // ------------------------------------------------------------- one key, one operation

  predicate Evicts(cfg: Config, s: State, arriving: Key, k: Key) {
    !s.closed && arriving !in s.open && |s.order| >= cfg.maxOpen && s.order != [] && s.order[0] == k
  }

  /** Is this add counted under its key? Not when closed, nor when making room fails. */
  predicate Accepted(cfg: Config, s: State, k: Key, commits: bool) {
    !s.closed && !EvictionFails(cfg, s, k, commits)
  }

  function SlotEvicted(slot: Slot, commits: bool): Slot {
    SlotDropped(if commits then SlotCommitted(slot) else slot)
  }

  function TraceEvicted(t: Trace, slot: Slot, commits: bool): Trace {
    if commits then TraceDropped(TraceCommitted(t, slot), SlotCommitted(slot)) else TraceDropped(t, slot)
  }

  /** Making room for `arriving` may evict the run of `k`. */
  function TraceRoom(cfg: Config, s: State, arriving: Key, commits: bool, k: Key, t: Trace): Trace {
    if Evicts(cfg, s, arriving, k) then TraceEvicted(t, SlotOf(s, k), commits) else t
  }

  /** How an operation changes the history of key `k`: an accepted add of `k` appends to
      it, a commit covers it, a failed eviction of `k` or a crash cuts it back to what
      was committed. */
  function TraceStep(cfg: Config, s: State, op: Op, k: Key, t: Trace): Trace
    requires cfg.Valid() && OrderListsOpen(s)
  {
    var slot := SlotOf(s, k);
    match op
    case Add(item, commits) =>
      var arriving := KeyOf(cfg, item);
      var u := TraceRoom(cfg, s, arriving, commits, k, t);
      if arriving == k && Accepted(cfg, s, k, commits) then TraceAdded(u, ObservationOf(item)) else u
    case Flush(_) => if RowOf(Apply(cfg, s, op), k) != slot.row then TraceCommitted(t, slot) else t
    case Close(_) => if RowOf(Apply(cfg, s, op), k) != slot.row then TraceCommitted(t, slot) else t
    case Crash => TraceDropped(t, slot)
  }

  lemma EvictKeeps(capacity: nat, score: nat -> nat, slot: Slot, t: Trace, commits: bool)
    requires SlotOk(capacity, score, slot, t)
    ensures SlotOk(capacity, score, SlotEvicted(slot, commits), TraceEvicted(t, slot, commits))
  {
    hide SlotOk, TraceDropped, TraceCommitted, SlotCommitted, SlotDropped;
    if commits {
      CommitKeeps(capacity, score, slot, t);
      DropKeeps(capacity, score, SlotCommitted(slot), TraceCommitted(t, slot));
    } else {
      DropKeeps(capacity, score, slot, t);
    }
  }

  lemma RoomSlot(cfg: Config, s: State, arriving: Key, commits: bool, k: Key)
    requires cfg.Valid() && Bounded(cfg, s) && !s.closed
    ensures var slot := SlotOf(Room(cfg, s, arriving, commits), k);
            if Evicts(cfg, s, arriving, k)
            then slot == SlotDropped(SlotOf(s, k))
                 || (slot == SlotEvicted(SlotOf(s, k), commits))
            else slot == SlotOf(s, k)
    ensures Evicts(cfg, s, arriving, k) && (PendingOf(SlotOf(s, k).run) > 0 || !commits)
            ==> SlotOf(Room(cfg, s, arriving, commits), k) == SlotEvicted(SlotOf(s, k), commits)
  {
    hide UpsertRow, TableOf, Samples;
  }

  lemma EvictedSlot(cfg: Config, s: State, arriving: Key, commits: bool, k: Key)
    requires cfg.Valid() && Bounded(cfg, s) && Evicts(cfg, s, arriving, k)
    ensures SlotOf(Room(cfg, s, arriving, commits), k) == SlotEvicted(SlotOf(s, k), commits)
  {
    RoomSlot(cfg, s, arriving, commits, k);
  }

  lemma PlacedSlot(cfg: Config, s: State, arriving: Key, o: Observation, k: Key)
    ensures SlotOf(Placed(cfg, s, arriving, o), k)
            == if arriving == k then SlotAdded(cfg.capacity, cfg.score(k), SlotOf(s, k), o) else SlotOf(s, k)
  {
    hide Loaded, Counted;
  }

  lemma RoomStep(cfg: Config, s: State, arriving: Key, commits: bool, k: Key, t: Trace)
    requires cfg.Valid() && Bounded(cfg, s) && !s.closed && SlotOk(cfg.capacity, cfg.score(k), SlotOf(s, k), t)
    ensures SlotOk(cfg.capacity, cfg.score(k), SlotOf(Room(cfg, s, arriving, commits), k),
            TraceRoom(cfg, s, arriving, commits, k, t))
  {
    hide SlotOk, SlotOf, Room, SlotEvicted, TraceEvicted, Evicts;
    RoomSlot(cfg, s, arriving, commits, k);
    if Evicts(cfg, s, arriving, k) {
      EvictedSlot(cfg, s, arriving, commits, k);
      EvictKeeps(cfg.capacity, cfg.score(k), SlotOf(s, k), t, commits);
    }
  }

  lemma PlaceStep(cfg: Config, s: State, arriving: Key, o: Observation, k: Key, t: Trace)
    requires SlotOk(cfg.capacity, cfg.score(k), SlotOf(s, k), t)
    ensures SlotOk(cfg.capacity, cfg.score(k), SlotOf(Placed(cfg, s, arriving, o), k),
                   if arriving == k then TraceAdded(t, o) else t)
  {
    hide *;
    PlacedSlot(cfg, s, arriving, o, k);
    AddKeeps(cfg.capacity, cfg.score(k), SlotOf(s, k), t, o);
  }

  lemma AddStep(cfg: Config, s: State, item: Item, commits: bool, k: Key, t: Trace)
    requires cfg.Valid() && Bounded(cfg, s) && SlotOk(cfg.capacity, cfg.score(k), SlotOf(s, k), t)
    ensures SlotOk(cfg.capacity, cfg.score(k), SlotOf(Apply(cfg, s, Add(item, commits)), k),
            TraceStep(cfg, s, Add(item, commits), k, t))
  {
    hide SlotOk, SlotOf, TraceAdded, TraceEvicted, Placed, Room, KeyOf, ObservationOf, Lists;
    if !s.closed {
      var arriving, o := KeyOf(cfg, item), ObservationOf(item);
      RoomStep(cfg, s, arriving, commits, k, t);
      PlaceStep(cfg, Room(cfg, s, arriving, commits), arriving, o, k, TraceRoom(cfg, s, arriving, commits, k, t));
    }
  }

  /** A flush commits the pending counts of a key, or does not reach it. */
  lemma {:induction false} FlushSlot(s: State, i: nat, budget: nat, k: Key)
    requires OrderListsOpen(s) && i <= |s.order|
    ensures var slot := SlotOf(FlushedFrom(s, i, budget), k);
            slot == SlotOf(s, k) || slot == SlotCommitted(SlotOf(s, k))
    decreases |s.order| - i
  {
    if i < |s.order| {
      FlushTurn(s, i, budget);
      CommittedSlot(s, s.order[i], k);
      hide OrderListsOpen, SameRuns, Committed, SlotOf, SlotCommitted, FlushedFrom;
      if s.open[s.order[i]].pending == 0 {
        FlushSlot(s, i + 1, budget, k);
      } else if budget > 0 {
        FlushSlot(Committed(s, s.order[i]), i + 1, budget - 1, k);
      }
    }
  }

  lemma CommittedSlot(s: State, committed: Key, k: Key)
    requires committed in s.open
    ensures SlotOf(Committed(s, committed), k) == if committed == k then SlotCommitted(SlotOf(s, k)) else SlotOf(s, k)
    ensures SlotCommitted(SlotCommitted(SlotOf(s, k))) == SlotCommitted(SlotOf(s, k))
  {
    hide UpsertRow, TableOf, Samples;
  }

  lemma FlushStep(cfg: Config, s: State, before: Slot, after: Slot, k: Key, t: Trace)
    requires SlotOk(cfg.capacity, cfg.score(k), before, t)
    requires after == before || after == SlotCommitted(before)
    ensures SlotOk(cfg.capacity, cfg.score(k), after, if after.row != before.row then TraceCommitted(t, before) else t)
  {
    if PendingOf(before.run) > 0 {
      CommitKeeps(cfg.capacity, cfg.score(k), before, t);
      assert SlotCommitted(before).row.value.count > CountOf(before.row);
    }
    hide SlotOk;
  }

  lemma {:induction false} StepKeeps(cfg: Config, s: State, op: Op, k: Key, t: Trace)
    requires cfg.Valid() && Bounded(cfg, s) && SlotOk(cfg.capacity, cfg.score(k), SlotOf(s, k), t)
    ensures SlotOk(cfg.capacity, cfg.score(k), SlotOf(Apply(cfg, s, op), k), TraceStep(cfg, s, op, k, t))
  {
    hide SlotOk, Added, FlushedFrom, OrderListsOpen, TraceDropped, TraceCommitted, SlotCommitted;
    match op
    case Add(item, commits) => AddStep(cfg, s, item, commits, k, t);
    case Flush(budget) =>
      FlushSlot(s, 0, budget, k);
      FlushStep(cfg, s, SlotOf(s, k), SlotOf(FlushedFrom(s, 0, budget), k), k, t);
    case Close(budget) =>
      FlushSlot(s, 0, budget, k);
      var f := FlushedFrom(s, 0, budget);
      FlushStep(cfg, s, SlotOf(s, k), SlotOf(f, k), k, t);
      var u := if RowOf(f, k) != RowOf(s, k) then TraceCommitted(t, SlotOf(s, k)) else t;
      DropKeeps(cfg.capacity, cfg.score(k), SlotOf(f, k), u);
    case Crash => DropKeeps(cfg.capacity, cfg.score(k), SlotOf(s, k), t);
  }

  // ------------------------------------------------------------------- whole runs

  /** The history of `k` along a run. */
  function TraceAfter(cfg: Config, ops: seq<Op>, k: Key): Trace
    requires cfg.Valid()
  {
    if ops == [] then NoTrace else
      TraceStep(cfg, RunOf(cfg, ops[..|ops| - 1]), ops[|ops| - 1], k, TraceAfter(cfg, ops[..|ops| - 1], k))
  }

  /** The observations of `k` that were accepted. */
  function Arrivals(cfg: Config, ops: seq<Op>, k: Key): seq<Observation>
    requires cfg.Valid()
  {
    if ops == [] then [] else
      var rest := Arrivals(cfg, ops[..|ops| - 1], k);
      var op := ops[|ops| - 1];
      if op.Add? && KeyOf(cfg, op.item) == k && Accepted(cfg, RunOf(cfg, ops[..|ops| - 1]), k, op.commits)
      then rest + [ObservationOf(op.item)] else rest
  }

  /** Along every run, what is held about a key describes its surviving history. */
  lemma {:induction false} RunKeeps(cfg: Config, ops: seq<Op>, k: Key)
    requires cfg.Valid()
    ensures SlotOk(cfg.capacity, cfg.score(k), SlotOf(RunOf(cfg, ops), k), TraceAfter(cfg, ops, k))
  {
    if ops != [] {
      RunKeeps(cfg, ops[..|ops| - 1], k);
      hide SlotOk, Apply, TraceStep;
      StepKeeps(cfg, RunOf(cfg, ops[..|ops| - 1]), ops[|ops| - 1], k, TraceAfter(cfg, ops[..|ops| - 1], k));
    }
  }

  lemma TraceStepCounts(cfg: Config, s: State, op: Op, k: Key, t: Trace)
    requires cfg.Valid() && OrderListsOpen(s)
    ensures var u := TraceStep(cfg, s, op, k, t);
            |u.kept| + u.lost == |t.kept| + t.lost
              + if op.Add? && KeyOf(cfg, op.item) == k && Accepted(cfg, s, k, op.commits) then 1 else 0
  {
    hide Apply, KeyOf, ObservationOf, OrderListsOpen, SlotCommitted, RowOf, SlotOf, Evicts, Accepted;
  }

  /** Does the operation destroy the open run of `k` unflushed: a crash, or an add that
      evicts it and cannot flush it? */
  predicate Destroys(cfg: Config, s: State, op: Op, k: Key)
    requires cfg.Valid()
  {
    op.Crash? || (op.Add? && !op.commits && Evicts(cfg, s, KeyOf(cfg, op.item), k))
  }

  /** What was pending under `k` whenever its run was destroyed, summed over a run. */
  function Destroyed(cfg: Config, ops: seq<Op>, k: Key): nat
    requires cfg.Valid()
  {
    if ops == [] then 0 else
      var s := RunOf(cfg, ops[..|ops| - 1]);
      Destroyed(cfg, ops[..|ops| - 1], k)
      + if Destroys(cfg, s, ops[|ops| - 1], k) then PendingOf(SlotOf(s, k).run) else 0
  }

  lemma DropLosesPending(capacity: nat, score: nat -> nat, slot: Slot, t: Trace)
    requires SlotOk(capacity, score, slot, t)
    ensures TraceDropped(t, slot).lost == t.lost + PendingOf(slot.run)
  {
  }

  lemma StepLoses(cfg: Config, s: State, op: Op, k: Key, t: Trace)
    requires cfg.Valid() && Bounded(cfg, s) && SlotOk(cfg.capacity, cfg.score(k), SlotOf(s, k), t)
    ensures TraceStep(cfg, s, op, k, t).lost
            == t.lost + if Destroys(cfg, s, op, k) then PendingOf(SlotOf(s, k).run) else 0
  {
    hide Apply, KeyOf, ObservationOf, SlotCommitted, RowOf, SlotOf, PendingOf, Evicts, Accepted, SlotOk,
        TraceDropped, Lists;
    DropLosesPending(cfg.capacity, cfg.score(k), SlotOf(s, k), t);
    EvictAfterCommit(cfg.capacity, cfg.score(k), SlotOf(s, k), t);
  }

  /** `lost` is exactly what was pending whenever the run of the key was destroyed. */
  lemma {:induction false} LostIsDestroyed(cfg: Config, ops: seq<Op>, k: Key)
    requires cfg.Valid()
    ensures TraceAfter(cfg, ops, k).lost == Destroyed(cfg, ops, k)
  {
    if ops != [] {
      var front := ops[..|ops| - 1];
      LostIsDestroyed(cfg, front, k);
      RunKeeps(cfg, front, k);
      StepLoses(cfg, RunOf(cfg, front), ops[|ops| - 1], k, TraceAfter(cfg, front, k));
      hide SlotOk, TraceStep, Destroys, Bounded;
    }
  }

  /** Conservation: every accepted observation of a key is committed, pending, or was
      pending when a crash or a failed eviction destroyed its run. */
  lemma {:induction false} CountsAreConserved(cfg: Config, ops: seq<Op>, k: Key)
    requires cfg.Valid()
    ensures var slot := SlotOf(RunOf(cfg, ops), k);
            |Arrivals(cfg, ops, k)| == CountOf(slot.row) + PendingOf(slot.run) + Destroyed(cfg, ops, k)
  {
    RunKeeps(cfg, ops, k);
    ArrivalsSplit(cfg, ops, k);
    LostIsDestroyed(cfg, ops, k);
    hide Destroyed;
  }

  /** The j-th operation of a run destroys a run of `k` with something pending. */
  predicate LosesAt(cfg: Config, ops: seq<Op>, k: Key, j: nat)
    requires cfg.Valid() && j < |ops|
  {
    Destroys(cfg, RunOf(cfg, ops[..j]), ops[j], k) && PendingOf(SlotOf(RunOf(cfg, ops[..j]), k).run) > 0
  }

  /** Observations of a key are lost exactly when its run is destroyed with some pending. */
  lemma {:induction false} LossExactlyWhen(cfg: Config, ops: seq<Op>, k: Key)
    requires cfg.Valid()
    ensures var slot := SlotOf(RunOf(cfg, ops), k);
            CountOf(slot.row) + PendingOf(slot.run) < |Arrivals(cfg, ops, k)|
            <==> exists j | 0 <= j < |ops| :: LosesAt(cfg, ops, k, j)
  {
    CountsAreConserved(cfg, ops, k);
    hide LosesAt, PendingOf, SlotOf;
    DestroyedSomewhere(cfg, ops, k);
  }

  lemma LosesBefore(cfg: Config, ops: seq<Op>, k: Key, n: nat, j: nat)
    requires cfg.Valid() && j < n <= |ops|
    ensures LosesAt(cfg, ops[..n], k, j) == LosesAt(cfg, ops, k, j)
  {
    assert ops[..n][..j] == ops[..j];
    hide Destroys, RunOf, SlotOf;
  }

  lemma {:induction false} DestroyedSomewhere(cfg: Config, ops: seq<Op>, k: Key)
    requires cfg.Valid()
    ensures Destroyed(cfg, ops, k) > 0 <==> exists j | 0 <= j < |ops| :: LosesAt(cfg, ops, k, j)
  {
    if ops != [] {
      var n := |ops| - 1;
      DestroyedSomewhere(cfg, ops[..n], k);
      DestroyedLast(cfg, ops, k);
      hide *;
      forall j | 0 <= j < n ensures LosesAt(cfg, ops[..n], k, j) == LosesAt(cfg, ops, k, j) {
        LosesBefore(cfg, ops, k, n, j);
      }
      if j :| 0 <= j < |ops| && LosesAt(cfg, ops, k, j) {
        assert j == n || LosesAt(cfg, ops[..n], k, j);
      }
    } else {
      assert Destroyed(cfg, ops, k) == 0;
    }
  }

  lemma DestroyedLast(cfg: Config, ops: seq<Op>, k: Key)
    requires cfg.Valid() && ops != []
    ensures Destroyed(cfg, ops, k) > 0 <==> Destroyed(cfg, ops[..|ops| - 1], k) > 0 || LosesAt(cfg, ops, k, |ops| - 1)
  {
    hide Destroys, RunOf, SlotOf;
  }

  lemma DestroyedExtends(cfg: Config, ops: seq<Op>, op: Op, k: Key)
    requires cfg.Valid()
    ensures var s := RunOf(cfg, ops);
            Destroyed(cfg, ops + [op], k)
            == Destroyed(cfg, ops, k) + if Destroys(cfg, s, op, k) then PendingOf(SlotOf(s, k).run) else 0
    ensures ops == [] ==> Destroyed(cfg, ops, k) == 0
  {
    assert (ops + [op])[..|ops|] == ops;
    hide Destroys, RunOf, SlotOf;
  }

  /** The first add of a run opens its key. */
  lemma FirstAdd(cfg: Config, a: Item)
    requires cfg.Valid()
    ensures var k, ops := KeyOf(cfg, a), [] + [Add(a, true)];
            var s := RunOf(cfg, ops);
            && s.order == [k] && s.rows == map[] && !s.closed && s.open.Keys == {k} && PendingOf(SlotOf(s, k).run) == 1
            && Arrivals(cfg, ops, k) == [ObservationOf(a)] && Destroyed(cfg, ops, k) == 0
            && forall j | j != k :: Arrivals(cfg, ops, j) == []
  {
    var k, o := KeyOf(cfg, a), ObservationOf(a);
    LoneAdd(cfg, EmptyState, a);
    FreshCount(cfg, k, o);
    hide ObservationOf, SlotAdded, Lists, KeyOf, Apply;
    var ops := [] + [Add(a, true)];
    var s := RunOf(cfg, ops);
    assert ops[..0] == [];
    assert RunOf(cfg, []) == EmptyState;
    OnlyOpen(s, k);
    hide RunOf;
  }

  lemma OnlyOpen(s: State, k: Key)
    requires OrderListsOpen(s) && s.order == [k]
    ensures s.open.Keys == {k}
  {
    assert forall x | x in s.open :: x == k by {
      forall x | x in s.open ensures x == k { OrderHasOpen(s, x); }
    }
    assert s.order[0] in s.open.Keys;
  }

  /** With room for one run: the flush of the run that a second key evicts fails, and its
      one observation is gone; the second add is not counted either. */
  lemma FailedEvictionLoses(cfg: Config, a: Item, b: Item)
    requires cfg.Valid() && cfg.maxOpen == 1 && KeyOf(cfg, a) != KeyOf(cfg, b)
    ensures var ops := [] + [Add(a, true)] + [Add(b, false)];
            var s := RunOf(cfg, ops);
            && Arrivals(cfg, ops, KeyOf(cfg, a)) == [ObservationOf(a)] && Destroyed(cfg, ops, KeyOf(cfg, a)) == 1
            && Arrivals(cfg, ops, KeyOf(cfg, b)) == []
            && s.rows == map[] && s.open == map[]
  {
    var k := KeyOf(cfg, a);
    var one := [] + [Add(a, true)];
    FirstAdd(cfg, a);
    hide KeyOf, ObservationOf, Arrivals, RunOf, Lists, Placed, Destroyed;
    DestroyedExtends(cfg, one, Add(b, false), k);
    RunExtends(cfg, one, Add(b, false), k);
    RunExtends(cfg, one, Add(b, false), KeyOf(cfg, b));
  }

  lemma {:induction false} ArrivalsSplit(cfg: Config, ops: seq<Op>, k: Key)
    requires cfg.Valid()
    ensures var t := TraceAfter(cfg, ops, k); |Arrivals(cfg, ops, k)| == |t.kept| + t.lost
  {
    if ops != [] {
      ArrivalsSplit(cfg, ops[..|ops| - 1], k);
      TraceStepCounts(cfg, RunOf(cfg, ops[..|ops| - 1]), ops[|ops| - 1], k, TraceAfter(cfg, ops[..|ops| - 1], k));
      hide TraceStep, Apply, KeyOf, ObservationOf, Accepted;
    }
  }

  /** No crash, and every eviction can be flushed. */
  predicate Calm(ops: seq<Op>) {
    forall i | 0 <= i < |ops| :: !ops[i].Crash? && (ops[i].Add? ==> ops[i].commits)
  }

  /** Without a crash or a failed eviction the surviving history is every accepted
      observation, in order, however often the run is evicted, reloaded and flushed. */
  lemma {:induction false} CalmLosesNothing(cfg: Config, ops: seq<Op>, k: Key)
    requires cfg.Valid() && Calm(ops)
    ensures TraceAfter(cfg, ops, k).kept == Arrivals(cfg, ops, k) && TraceAfter(cfg, ops, k).lost == 0
  {
    if ops != [] {
      var front, op := ops[..|ops| - 1], ops[|ops| - 1];
      assert Calm(front);
      CalmLosesNothing(cfg, front, k);
      RunKeeps(cfg, front, k);
      var slot, t := SlotOf(RunOf(cfg, front), k), TraceAfter(cfg, front, k);
      CalmStep(cfg, RunOf(cfg, front), op, k, t);
      assert op.Add? ==> op.commits && !EvictionFails(cfg, RunOf(cfg, front), k, op.commits);
      hide TraceStep, SlotOk, Apply, KeyOf, ObservationOf, EvictionFails, SlotOf;
    }
  }

  lemma CalmStep(cfg: Config, s: State, op: Op, k: Key, t: Trace)
    requires cfg.Valid() && Bounded(cfg, s) && !op.Crash? && (op.Add? ==> op.commits)
    requires SlotOk(cfg.capacity, cfg.score(k), SlotOf(s, k), t)
    ensures var u := TraceStep(cfg, s, op, k, t);
            && u.lost == t.lost
            && u.kept == t.kept + if op.Add? && KeyOf(cfg, op.item) == k && Accepted(cfg, s, k, op.commits)
                                  then [ObservationOf(op.item)] else []
  {
    var slot := SlotOf(s, k);
    EvictAfterCommit(cfg.capacity, cfg.score(k), slot, t);
    hide Apply, KeyOf, ObservationOf, OrderListsOpen, SlotCommitted, RowOf, SlotOf, Evicts, Accepted, SlotOk,
        TraceEvicted, Bounded;
  }

  /** Evicting a run that can be flushed drops nothing. */
  lemma EvictAfterCommit(capacity: nat, score: nat -> nat, slot: Slot, t: Trace)
    requires SlotOk(capacity, score, slot, t)
    ensures TraceEvicted(t, slot, true).kept == t.kept && TraceEvicted(t, slot, true).lost == t.lost
  {
    CommitKeeps(capacity, score, slot, t);
    DropKeeps(capacity, score, SlotCommitted(slot), TraceCommitted(t, slot));
    hide SlotOk, TraceDropped;
  }

  // ------------------------------------------------------------------ main results

  /** At any point of any run the committed row of a key describes the first `count`
      surviving observations: their number, the time of the first of them, and exemplars
      that are the bottom-k of exactly those ordinals, with first, highest and latest. */
  lemma CommittedRowDescribes(cfg: Config, ops: seq<Op>, k: Key)
    requires cfg.Valid()
    ensures |RunOf(cfg, ops).open| <= cfg.maxOpen
    ensures k in RunOf(cfg, ops).rows ==>
              var row, t := RunOf(cfg, ops).rows[k], TraceAfter(cfg, ops, k);
              && 0 < row.count <= |t.kept|
              && var h := t.kept[..row.count];
              && row.firstSeen == h[0].at
              && row.severity == StoredLevel(h, t.first)
              && Represents(cfg.capacity, cfg.score(k), Fed(cfg.capacity, cfg.score(k), h), h)
              && TableFor(RunOf(cfg, ops), k) == TableOf(Samples(Fed(cfg.capacity, cfg.score(k), h)))
  {
    RunKeeps(cfg, ops, k);
    var s, t := RunOf(cfg, ops), TraceAfter(cfg, ops, k);
    ListsSize(s.order, s.open.Keys);
    if k in s.rows {
      FedRepresents(cfg.capacity, cfg.score(k), t.kept[..s.rows[k].count]);
    }
    hide Fed, Represents, TableOf, StoredLevel, RunOf, TraceAfter;
  }

  /** The committed severity is the true maximum exactly when that maximum is a warning or
      worse, or the first committed batch already reached it. */
  lemma SeverityIsMaximum(h: seq<Observation>, first: nat)
    requires 0 < first <= |h|
    ensures StoredLevel(h, first) == MaxLevel(h)
            <==> AtLeastWarning(MaxLevel(h)) || exists i :: 0 <= i < first && h[i].severity == MaxLevel(h)
  {
    MaxLevelMeaning(h[..first]);
    MaxLevelMeaning(h);
    if i :| 0 <= i < first && h[i].severity == MaxLevel(h) {
      assert h[..first][i].severity == MaxLevel(h);
      MaxLevelPrefix(h, first);
      RankInjective(MaxLevel(h[..first]), MaxLevel(h));
    }
    if MaxLevel(h[..first]) == MaxLevel(h) {
      var i :| 0 <= i < first && h[..first][i].severity == MaxLevel(h);
      assert h[i].severity == MaxLevel(h);
    }
  }

  lemma LoneRoom(cfg: Config, s: State, k: Key)
    requires cfg.Valid() && !s.closed && (s.order == [] || s.order == [k]) && OrderListsOpen(s)
    ensures Room(cfg, s, k, true) == s && Accepted(cfg, s, k, true)
  {
    OrderHasOpen(s, k);
    hide Lists, Evicted;
  }

  /** Adding to a coalescer that holds at most the run of this key. */
  lemma LoneAdd(cfg: Config, s: State, item: Item)
    requires cfg.Valid() && !s.closed && (s.order == [] || s.order == [KeyOf(cfg, item)]) && OrderListsOpen(s)
    ensures var k, t := KeyOf(cfg, item), Apply(cfg, s, Add(item, true));
            && Accepted(cfg, s, k, true)
            && t.order == [k] && t.rows == s.rows && t.samples == s.samples && !t.closed && k in t.open
            && t.open[k] == SlotAdded(cfg.capacity, cfg.score(k), SlotOf(s, k), ObservationOf(item)).run.value
  {
    var k, o := KeyOf(cfg, item), ObservationOf(item);
    assert Without([k], k) == [];
    OrderHasOpen(s, k);
    LoneRoom(cfg, s, k);
    PlacedSlot(cfg, s, k, o, k);
    hide KeyOf, ObservationOf, Counted, Loaded, Lists, Room, Without, SlotAdded, EvictionFails;
  }

  lemma LoneFlush(cfg: Config, s: State, k: Key)
    requires cfg.Valid() && s.order == [k] && OrderListsOpen(s) && k in s.open && s.open[k].pending > 0
    ensures Apply(cfg, s, Flush(1)) == Committed(s, k)
  {
    CommittedOrder(s, k);
    hide Committed, Lists;
    assert s.order[0] == k;
    var t := Committed(s, k);
    assert FlushedFrom(t, 1, 0) == t;
  }

  lemma CommittedFields(s: State, k: Key)
    requires k in s.open && s.open[k].pending > 0
    ensures var t := Committed(s, k);
            && t.order == s.order && t.closed == s.closed && k in t.rows
                && t.rows[k] == UpsertRow(RowOf(s, k), s.open[k])
            && k in t.open && t.open[k] == s.open[k].(pending := 0)
  {
    hide UpsertRow, TableOf, Samples;
  }

  /** One observation of a key, flushed. */
  lemma OneFlushed(cfg: Config, ops: seq<Op>, item: Item, k: Key)
    requires cfg.Valid() && k == KeyOf(cfg, item)
    requires var s := RunOf(cfg, ops); !s.closed && (s.order == [] || s.order == [k])
    ensures var s, u := RunOf(cfg, ops), RunOf(cfg, ops + [Add(item, true)] + [Flush(1)]);
            && u.order == [k] && !u.closed && k in u.rows && k in u.open
            && var run := SlotAdded(cfg.capacity, cfg.score(k), SlotOf(s, k), ObservationOf(item)).run.value;
            && u.rows[k] == UpsertRow(RowOf(s, k), run)
            && u.open[k] == run.(pending := 0)
            && Arrivals(cfg, ops + [Add(item, true)] + [Flush(1)], k) == Arrivals(cfg, ops, k) + [ObservationOf(item)]
  {
    var s, s1 := RunOf(cfg, ops), RunOf(cfg, ops + [Add(item, true)]);
    assert OrderListsOpen(s);
    hide RunOf, Arrivals, KeyOf, ObservationOf, Updated, Apply, Accepted, Lists, Committed, UpsertRow, Loaded;
    RunExtends(cfg, ops, Add(item, true), k);
    LoneAdd(cfg, s, item);
    RunExtends(cfg, ops + [Add(item, true)], Flush(1), k);
    LoneFlush(cfg, s1, k);
    CommittedFields(s1, k);
  }

  lemma FirstFlushed(cfg: Config, a: Item, k: Key)
    requires cfg.Valid() && k == KeyOf(cfg, a)
    ensures var s := RunOf(cfg, [] + [Add(a, true)] + [Flush(1)]);
            && s.order == [k] && !s.closed && k in s.rows && k in s.open
            && s.rows[k].severity == a.severity && s.rows[k].count == 1
            && s.open[k].severity == a.severity && s.open[k].pending == 0
            && Arrivals(cfg, [] + [Add(a, true)] + [Flush(1)], k) == [ObservationOf(a)]
  {
    RunExtends(cfg, [], Flush(1), k);
    assert ObservationOf(a).severity == a.severity;
    hide RunOf, Arrivals, KeyOf, ObservationOf, SlotAdded, Lists, Bounded;
    OneFlushed(cfg, [], a, k);
    FreshCount(cfg, k, ObservationOf(a));
  }

  lemma SecondFlushed(cfg: Config, half: seq<Op>, b: Item, k: Key)
    requires cfg.Valid() && b.severity == Notice && k == KeyOf(cfg, b)
    requires var s := RunOf(cfg, half);
             && s.order == [k] && !s.closed && k in s.rows && k in s.open
             && s.rows[k].severity == Debug && s.rows[k].count == 1
             && s.open[k].severity == Debug && s.open[k].pending == 0
    ensures var s := RunOf(cfg, half + [Add(b, true)] + [Flush(1)]);
            && k in s.rows && s.rows[k].severity == Debug && s.rows[k].count == 2
            && Arrivals(cfg, half + [Add(b, true)] + [Flush(1)], k) == Arrivals(cfg, half, k) + [ObservationOf(b)]
  {
    assert ObservationOf(b).severity == Notice;
    hide RunOf, Arrivals, KeyOf, ObservationOf, SlotAdded, Lists, Bounded;
    OneFlushed(cfg, half, b, k);
    OpenCount(cfg, k, SlotOf(RunOf(cfg, half), k), ObservationOf(b));
  }

  /** A NOTICE after a committed DEBUG leaves the row at DEBUG. */
  lemma BelowWarningIsNotRaised(cfg: Config, a: Item, b: Item)
    requires cfg.Valid() && a.severity == Debug && b.severity == Notice && KeyOf(cfg, a) == KeyOf(cfg, b)
    ensures var ops := [Add(a, true), Flush(1), Add(b, true), Flush(1)];
            var k := KeyOf(cfg, a);
            && k in RunOf(cfg, ops).rows && RunOf(cfg, ops).rows[k].severity == Debug
            && RunOf(cfg, ops).rows[k].count == 2
            && Arrivals(cfg, ops, k) == [ObservationOf(a), ObservationOf(b)]
  {
    hide *;
    var k := KeyOf(cfg, a);
    var half := [] + [Add(a, true)] + [Flush(1)];
    FirstFlushed(cfg, a, k);
    SecondFlushed(cfg, half, b, k);
    assert half + [Add(b, true)] + [Flush(1)] == [Add(a, true), Flush(1), Add(b, true), Flush(1)];
  }

  lemma RunExtends(cfg: Config, ops: seq<Op>, op: Op, k: Key)
    requires cfg.Valid()
    ensures RunOf(cfg, ops + [op]) == Apply(cfg, RunOf(cfg, ops), op)
    ensures Arrivals(cfg, ops + [op], k) == Arrivals(cfg, ops, k)
              + if op.Add? && KeyOf(cfg, op.item) == k && Accepted(cfg, RunOf(cfg, ops), k, op.commits)
                then [ObservationOf(op.item)] else []
    ensures ops == [] ==> RunOf(cfg, ops) == EmptyState && Arrivals(cfg, ops, k) == []
  {
    assert (ops + [op])[..|ops|] == ops;
    hide KeyOf, ObservationOf, Apply, Accepted;
  }

  lemma FreshCount(cfg: Config, k: Key, o: Observation)
    ensures var run := SlotAdded(cfg.capacity, cfg.score(k), SlotOf(EmptyState, k), o).run.value;
            run.pending == 1 && run.severity == o.severity
  {
    hide Updated;
  }

  lemma OpenCount(cfg: Config, k: Key, slot: Slot, o: Observation)
    requires slot.run.Some?
    ensures var run := SlotAdded(cfg.capacity, cfg.score(k), slot, o).run.value;
            run.pending == slot.run.value.pending + 1
                && run.severity == HigherLevel(slot.run.value.severity, o.severity)
  {
    hide Updated;
    RankInjective(slot.run.value.severity, o.severity);
  }

  lemma CommittedPending(slot: Slot)
    ensures PendingOf(SlotCommitted(slot).run) == 0
  {
  }

  lemma FlushReachesHere(s: State, i: nat, budget: nat)
    requires OrderListsOpen(s) && i < |s.order| && budget > 0
    ensures PendingOf(SlotOf(FlushedFrom(s, i, budget), s.order[i]).run) == 0
  {
    FlushTurn(s, i, budget);
    var k, t := s.order[i], Committed(s, s.order[i]);
    CommittedSlot(s, k, k);
    CommittedPending(SlotOf(s, k));
    assert s.open[k].pending == 0 ==> PendingOf(SlotOf(s, k).run) == 0;
    hide OrderListsOpen, SameRuns, Committed, SlotOf, SlotCommitted, FlushedFrom;
    if s.open[k].pending == 0 { FlushSlot(s, i + 1, budget, k); } else { FlushSlot(t, i + 1, budget - 1, k); }
  }

  lemma {:induction false} FlushReaches(s: State, i: nat, budget: nat, j: nat)
    requires OrderListsOpen(s) && i <= j < |s.order| && budget >= |s.order| - i
    ensures PendingOf(SlotOf(FlushedFrom(s, i, budget), s.order[j]).run) == 0
    decreases |s.order| - i
  {
    hide *;
    if i == j {
      FlushReachesHere(s, i, budget);
    } else {
      FlushTurn(s, i, budget);
      if s.open[s.order[i]].pending == 0 {
        FlushReaches(s, i + 1, budget, j);
      } else {
        FlushReaches(Committed(s, s.order[i]), i + 1, budget - 1, j);
      }
    }
  }

  /** The bounded coalescer refines an unbounded counting table: after a flush that
      succeeds, in a run without crashes and failed evictions, the row of every key that
      was ever added describes exactly its accepted observations. */
  lemma RefinesCountingMap(cfg: Config, ops: seq<Op>, k: Key)
    requires cfg.Valid() && Calm(ops)
    requires ops != [] && ops[|ops| - 1].Flush?
    requires ops[|ops| - 1].budget >= |RunOf(cfg, ops[..|ops| - 1]).open|
    ensures var h := Arrivals(cfg, ops, k);
            && (k in RunOf(cfg, ops).rows <==> h != [])
            && (h != [] ==> RowOk(cfg.capacity, cfg.score(k), RunOf(cfg, ops).rows[k], TableFor(RunOf(cfg, ops), k),
                                  h, TraceAfter(cfg, ops, k).first))
  {
    var last := ops[|ops| - 1];
    var before := RunOf(cfg, ops[..|ops| - 1]);
    RunKeeps(cfg, ops, k);
    CalmLosesNothing(cfg, ops, k);
    assert RunOf(cfg, ops) == FlushedFrom(before, 0, last.budget);
    hide *;
    NothingPending(before, last.budget, k);
    IdleSlot(cfg, RunOf(cfg, ops), k, TraceAfter(cfg, ops, k));
  }

  lemma NothingPending(s: State, budget: nat, k: Key)
    requires OrderListsOpen(s) && budget >= |s.open|
    ensures PendingOf(SlotOf(FlushedFrom(s, 0, budget), k).run) == 0
  {
    ListsSize(s.order, s.open.Keys);
    FlushedOrder(s, 0, budget);
    OrderHasOpen(s, k);
    hide Lists, FlushedFrom;
    if k in s.order {
      var j :| 0 <= j < |s.order| && s.order[j] == k;
      FlushReaches(s, 0, budget, j);
    }
  }

  /** With nothing pending the row describes the whole surviving history. */
  lemma IdleSlot(cfg: Config, s: State, k: Key, t: Trace)
    requires SlotOk(cfg.capacity, cfg.score(k), SlotOf(s, k), t) && PendingOf(SlotOf(s, k).run) == 0
    ensures k in s.rows <==> t.kept != []
    ensures t.kept != [] ==> RowOk(cfg.capacity, cfg.score(k), s.rows[k], TableFor(s, k), t.kept, t.first)
  {
    hide RowOk, Fed, MaxLevel;
    assert t.kept[..|t.kept|] == t.kept;
    if k in s.rows { RowNotEmpty(cfg, s, k, t); }
  }

  lemma RowNotEmpty(cfg: Config, s: State, k: Key, t: Trace)
    requires k in s.rows && SlotOk(cfg.capacity, cfg.score(k), SlotOf(s, k), t)
    ensures t.kept != []
  {
    hide Fed, MaxLevel, TableOf;
  }
}
