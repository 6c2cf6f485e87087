/** Which run an observation is counted in, which run gives way, and when a row was last
    seen: read off the states of a run, before and after each operation. */
module CoalescerRuns {
  import opened Wrappers
  import opened Sampling
  import opened SamplingRestore
  import opened Coalescer
  import opened CoalescerInvariants
  import opened CoalescerTheorems

  /** How many observations are held under a key, committed or pending. */
  function Held(s: State, k: Key): nat {
    (if k in s.rows then s.rows[k].count else 0) + if k in s.open then s.open[k].pending else 0
  }

  /** The operation counts an observation under this key. */
  predicate CountsUnder(cfg: Config, s: State, op: Op, k: Key)
    requires cfg.Valid() && OrderListsOpen(s)
  {
    Held(Apply(cfg, s, op), k) > Held(s, k)
  }

  /** The key has all that the observation is told apart by, and the epoch is the one its
      second falls into; a fraction of a second is cut off towards zero. */
  predicate Agrees(cfg: Config, item: Item, k: Key)
    requires cfg.Valid()
  {
    var second := if item.observedAt >= 0 then item.observedAt / 1000 else -(-item.observedAt / 1000);
    && k.source == item.source && k.kind == item.kind && k.subject == item.subject && k.task == item.task
    && k.fingerprint == cfg.fingerprint(item)
    && k.epoch <= second < k.epoch + cfg.epochSeconds && k.epoch % cfg.epochSeconds == 0
  }

  lemma MultiplesApart(w: nat, p: int, q: int)
    requires p < q
    ensures w * q >= w * p + w
  {
    assert w * (q - p - 1) >= 0;
    assert w * q == w * p + w + w * (q - p - 1);
  }

  lemma MultipleUnique(w: nat, a: int, b: int, x: int)
    requires w > 0 && a % w == 0 && b % w == 0 && a <= x < a + w && b <= x < b + w
    ensures a == b
  {
    assert a == w * (a / w) && b == w * (b / w);
    FactorUnique(w, a / w, b / w, x);
  }

  lemma FactorUnique(w: nat, p: int, q: int, x: int)
    requires w * p <= x < w * p + w && w * q <= x < w * q + w
    ensures p == q
  {
    if p < q { MultiplesApart(w, p, q); } else if q < p { MultiplesApart(w, q, p); }
  }

  lemma EpochIsMultiple(w: nat, x: int)
    requires w > 0
    ensures x - x % w == w * (x / w) && (x - x % w) % w == 0 && x - x % w <= x < x - x % w + w
  {
    assert x == w * (x / w) + x % w;
    MultipleHasNoRest(w, x / w);
  }

  lemma MultipleHasNoRest(w: nat, q: int)
    requires w > 0
    ensures (w * q) % w == 0
  {
    var p, r := (w * q) / w, (w * q) % w;
    assert w * q == w * p + r && 0 <= r < w;
    hide *;
    if p < q { MultiplesApart(w, p, q); } else if q < p { MultiplesApart(w, q, p); }
  }

  /** Exactly one key agrees with an observation. */
  lemma KeyAgrees(cfg: Config, item: Item, k: Key)
    requires cfg.Valid()
    ensures Agrees(cfg, item, k) <==> k == KeyOf(cfg, item)
  {
    var second := Seconds(item.observedAt);
    EpochIsMultiple(cfg.epochSeconds, second);
    if Agrees(cfg, item, k) {
      MultipleUnique(cfg.epochSeconds, k.epoch, second - second % cfg.epochSeconds, second);
    }
  }

  // ------------------------------------------------------------ what an operation counts

  lemma HeldIsKept(capacity: nat, score: nat -> nat, s: State, k: Key, t: Trace)
    requires SlotOk(capacity, score, SlotOf(s, k), t)
    ensures Held(s, k) == |t.kept|
  {
    hide Fed, TableOf, MaxLevel;
  }

  /** The run of the arriving key is never the one that gives way. */
  lemma ArrivingStays(cfg: Config, s: State, k: Key)
    requires Bounded(cfg, s)
    ensures !Evicts(cfg, s, k, k)
  {
    hide Lists;
    if s.order != [] { OrderHasOpen(s, s.order[0]); }
  }

  lemma CountedStep(cfg: Config, s: State, op: Op, k: Key, t: Trace)
    requires cfg.Valid() && Bounded(cfg, s) && SlotOk(cfg.capacity, cfg.score(k), SlotOf(s, k), t)
    ensures CountsUnder(cfg, s, op, k)
            <==> op.Add? && KeyOf(cfg, op.item) == k && Accepted(cfg, s, k, op.commits)
    ensures CountsUnder(cfg, s, op, k) ==> Held(Apply(cfg, s, op), k) == Held(s, k) + 1
    ensures Held(Apply(cfg, s, op), k) == |TraceStep(cfg, s, op, k, t).kept|
  {
    var u := TraceStep(cfg, s, op, k, t);
    StepKeeps(cfg, s, op, k, t);
    StepLoses(cfg, s, op, k, t);
    TraceStepCounts(cfg, s, op, k, t);
    ArrivingStays(cfg, s, k);
    hide SlotOk, Apply, TraceStep, KeyOf, Accepted, Evicts, Held;
    HeldIsKept(cfg.capacity, cfg.score(k), s, k, t);
    HeldIsKept(cfg.capacity, cfg.score(k), Apply(cfg, s, op), k, u);
  }

  lemma CountedInRun(cfg: Config, ops: seq<Op>, op: Op, k: Key)
    requires cfg.Valid()
    ensures var s := RunOf(cfg, ops);
            && (CountsUnder(cfg, s, op, k)
                <==> op.Add? && KeyOf(cfg, op.item) == k && Accepted(cfg, s, k, op.commits))
            && (CountsUnder(cfg, s, op, k) ==> Held(Apply(cfg, s, op), k) == Held(s, k) + 1)
  {
    RunKeeps(cfg, ops, k);
    hide SlotOk, CountsUnder, Apply, KeyOf, Accepted, Held, RunOf;
    CountedStep(cfg, RunOf(cfg, ops), op, k, TraceAfter(cfg, ops, k));
  }

  /** On any run, what is counted under a key is one observation that agrees with the key. */
  lemma CountedUnderItsKey(cfg: Config, ops: seq<Op>, op: Op, k: Key)
    requires cfg.Valid() && CountsUnder(cfg, RunOf(cfg, ops), op, k)
    ensures op.Add? && Agrees(cfg, op.item, k)
    ensures Held(Apply(cfg, RunOf(cfg, ops), op), k) == Held(RunOf(cfg, ops), k) + 1
  {
    CountedInRun(cfg, ops, op, k);
    hide CountsUnder, Apply, KeyOf, Accepted, Held, RunOf, Agrees;
    KeyAgrees(cfg, op.item, k);
  }

  /** The coalescer is full, no open run agrees with the observation, and the oldest run
      cannot be flushed although something is pending in it. */
  predicate NoRoom(cfg: Config, s: State, item: Item, commits: bool)
    requires cfg.Valid()
  {
    && (forall j | j in s.open :: !Agrees(cfg, item, j))
    && |s.open| >= cfg.maxOpen && s.order != [] && s.order[0] in s.open && s.open[s.order[0]].pending > 0
    && !commits
  }

  /** An observation is counted, under some key, exactly when the coalescer is not closed
      and can make room for it. */
  lemma AcceptedExactlyWhen(cfg: Config, ops: seq<Op>, item: Item, commits: bool)
    requires cfg.Valid()
    ensures var s := RunOf(cfg, ops);
            (exists k :: CountsUnder(cfg, s, Add(item, commits), k)) <==> !s.closed && !NoRoom(cfg, s, item, commits)
  {
    var s, k := RunOf(cfg, ops), KeyOf(cfg, item);
    forall j ensures CountsUnder(cfg, s, Add(item, commits), j) ==> j == k {
      CountedInRun(cfg, ops, Add(item, commits), j);
    }
    CountedInRun(cfg, ops, Add(item, commits), k);
    hide CountsUnder, Apply, KeyOf, RunOf, Agrees;
    forall j ensures Agrees(cfg, item, j) <==> j == k { KeyAgrees(cfg, item, j); }
    ListsSize(s.order, s.open.Keys);
    hide Lists;
  }

  /** The i-th operation of a run counts an observation under this key. */
  predicate CountedAt(cfg: Config, ops: seq<Op>, i: nat, k: Key)
    requires cfg.Valid() && i < |ops|
  {
    CountsUnder(cfg, RunOf(cfg, ops[..i]), ops[i], k)
  }

  /** Two counted observations are in the same run exactly when they agree in source, type,
      subject, task and fingerprint and their seconds lie in the same epoch. */
  lemma SameRunExactlyWhen(cfg: Config, ops: seq<Op>, i: nat, j: nat, k: Key, l: Key)
    requires cfg.Valid() && i < |ops| && j < |ops| && CountedAt(cfg, ops, i, k) && CountedAt(cfg, ops, j, l)
    ensures ops[i].Add? && ops[j].Add?
    ensures var a, b := ops[i].item, ops[j].item;
            k == l <==>
              && a.source == b.source && a.kind == b.kind && a.subject == b.subject && a.task == b.task
              && cfg.fingerprint(a) == cfg.fingerprint(b)
              && Seconds(a.observedAt) / cfg.epochSeconds == Seconds(b.observedAt) / cfg.epochSeconds
  {
    CountedInRun(cfg, ops[..i], ops[i], k);
    CountedInRun(cfg, ops[..j], ops[j], l);
    hide CountsUnder, Apply, Accepted, RunOf;
    EpochIsMultiple(cfg.epochSeconds, Seconds(ops[i].item.observedAt));
    EpochIsMultiple(cfg.epochSeconds, Seconds(ops[j].item.observedAt));
    hide Seconds;
    SameMultiple(cfg.epochSeconds, Seconds(ops[i].item.observedAt) / cfg.epochSeconds,
                 Seconds(ops[j].item.observedAt) / cfg.epochSeconds);
  }

  lemma SameMultiple(w: nat, p: int, q: int)
    requires w > 0
    ensures w * p == w * q <==> p == q
  {
    if p < q { MultiplesApart(w, p, q); } else if q < p { MultiplesApart(w, q, p); }
  }

  // ------------------------------------------------------------------ the surviving history

  /** The items held under a key: counted ones, in order, cut back to as many as are held. */
  function HeldItems(cfg: Config, ops: seq<Op>, k: Key): seq<Item>
    requires cfg.Valid()
  {
    if ops == [] then [] else
      var front, op := ops[..|ops| - 1], ops[|ops| - 1];
      var all := HeldItems(cfg, front, k)
                 + if op.Add? && CountsUnder(cfg, RunOf(cfg, front), op, k) then [op.item] else [];
      var held := Held(RunOf(cfg, ops), k);
      if held <= |all| then all[..held] else all
  }

  /** An observation is kept of an item: its instant, its severity, and its payload up to
      16384 characters. */
  predicate KeptOf(item: Item, o: Observation) {
    && o.at == item.observedAt && o.severity == item.severity
    && |o.value| == (if |item.payload| < 16384 then |item.payload| else 16384) && o.value <= item.payload
  }

  lemma ObservationKept(item: Item)
    ensures KeptOf(item, ObservationOf(item))
  {
  }

  lemma KeptIsPrefix(cfg: Config, s: State, op: Op, k: Key, t: Trace)
    requires cfg.Valid() && Bounded(cfg, s) && SlotOk(cfg.capacity, cfg.score(k), SlotOf(s, k), t)
    ensures var counted := op.Add? && KeyOf(cfg, op.item) == k && Accepted(cfg, s, k, op.commits);
            TraceStep(cfg, s, op, k, t).kept <= t.kept + if counted then [ObservationOf(op.item)] else []
  {
    hide SlotOk, Apply, KeyOf, ObservationOf, SlotOf, Accepted, Evicts, Lists, SlotCommitted;
    ArrivingStays(cfg, s, k);
  }

  ghost predicate Parallel(cfg: Config, k: Key, items: seq<Item>, kept: seq<Observation>)
    requires cfg.Valid()
  {
    |items| == |kept| && forall i | 0 <= i < |kept| :: KeptOf(items[i], kept[i]) && Agrees(cfg, items[i], k)
  }

  lemma ParallelStep(cfg: Config, k: Key, items: seq<Item>, kept: seq<Observation>, more: seq<Item>,
      added: seq<Observation>, after: seq<Observation>)
    requires cfg.Valid() && Parallel(cfg, k, items, kept) && Parallel(cfg, k, more, added) && after <= kept + added
    ensures Parallel(cfg, k, (items + more)[..|after|], after)
  {
    hide Agrees, KeptOf;
  }

  /** The surviving history of a key is that of the items held under it, and every one of
      them agrees with the key. */
  lemma {:induction false} HistoryIsOfTheKey(cfg: Config, ops: seq<Op>, k: Key)
    requires cfg.Valid()
    ensures Parallel(cfg, k, HeldItems(cfg, ops, k), TraceAfter(cfg, ops, k).kept)
    ensures |HeldItems(cfg, ops, k)| == Held(RunOf(cfg, ops), k)
  {
    if ops != [] {
      var front, op := ops[..|ops| - 1], ops[|ops| - 1];
      var s, t := RunOf(cfg, front), TraceAfter(cfg, front, k);
      HistoryIsOfTheKey(cfg, front, k);
      RunKeeps(cfg, front, k);
      assert RunOf(cfg, ops) == Apply(cfg, s, op) && TraceAfter(cfg, ops, k) == TraceStep(cfg, s, op, k, t);
      hide SlotOk, CountsUnder, Apply, KeyOf, ObservationOf, Accepted, RunOf, TraceStep, Held, Agrees, Parallel,
          KeptOf, TraceAfter;
      HistoryStep(cfg, s, op, k, t, HeldItems(cfg, front, k));
    }
  }

  lemma HistoryStep(cfg: Config, s: State, op: Op, k: Key, t: Trace, items: seq<Item>)
    requires cfg.Valid() && Bounded(cfg, s) && SlotOk(cfg.capacity, cfg.score(k), SlotOf(s, k), t)
    requires Parallel(cfg, k, items, t.kept)
    ensures var all := items + if op.Add? && CountsUnder(cfg, s, op, k) then [op.item] else [];
            var held := Held(Apply(cfg, s, op), k);
            held <= |all| && Parallel(cfg, k, all[..held], TraceStep(cfg, s, op, k, t).kept)
  {
    hide SlotOk, CountsUnder, Apply, KeyOf, Accepted, TraceStep, Held, Agrees, KeptOf, Lists, ObservationOf, SlotOf;
    CountedStep(cfg, s, op, k, t);
    KeptIsPrefix(cfg, s, op, k, t);
    var counted := CountsUnder(cfg, s, op, k);
    var more: seq<Item> := if counted then [op.item] else [];
    var added: seq<Observation> := if counted then [ObservationOf(op.item)] else [];
    if counted {
      KeyAgrees(cfg, op.item, k);
      ObservationKept(op.item);
    }
    assert Parallel(cfg, k, more, added);
    assert |items + more| == |t.kept + added|;
    ParallelStep(cfg, k, items, t.kept, more, added, TraceStep(cfg, s, op, k, t).kept);
  }
}
