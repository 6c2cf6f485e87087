/** The bounded event bus: a telemetry queue that counts what it drops, and an exact write
    for the first occurrence of every severe fingerprint. */
module EventBus {
  import opened Wrappers

  type Fingerprint = nat

  type Label = nat

  /** Why an observation was dropped. */
  datatype Reason = AllocationExhausted | SampledOut | QueueFull

  datatype DropKey = One(source: Label, kind: Label, reason: Reason) | Multiple(reason: Reason)

  datatype DropCounter = DropCounter(key: DropKey, count: nat)

  /** What publish sees of an observation; `severe` is ERROR or CRITICAL. */
  datatype Observed = Observed(source: Label, kind: Label, severe: bool, internal: bool, fingerprint: Fingerprint)

  /** Queue capacities of the telemetry and of the exact writer. */
  datatype Limits = Limits(telemetry: nat, exact: nat) {
    predicate Valid() { telemetry > 0 && exact > 0 }
  }

  const GROUPS: nat := 128
  const CACHE: nat := 1024

  /** `ledger` lists the fingerprints of the first-high-severity events, `summary` the count
      of this bus's drop summary; both are unique by their idempotency keys. `failed` are the
      fingerprints an append of which has raised. */
  datatype State = State(
    closed: bool, queue: seq<Observed>, drops: seq<DropCounter>, cache: seq<Fingerprint>,
    writing: seq<Fingerprint>, fallbacks: nat, ledger: seq<Fingerprint>, failed: set<Fingerprint>, summary: Option<nat>)

  /** A new bus over the ledger that earlier boots have left. */
  function Booted(ledger: seq<Fingerprint>): State {
    State(false, [], [], [], [], 0, ledger, {}, None)
  }

  // -------------------------------------------------------------------- dropping

  function FindKey(drops: seq<DropCounter>, key: DropKey): (i: Option<nat>)
    ensures i.Some? ==> i.value < |drops| && drops[i.value].key == key
    ensures i.None? ==> forall j | 0 <= j < |drops| :: drops[j].key != key
  {
    if drops == [] then None
    else if drops[|drops| - 1].key == key then Some(|drops| - 1)
    else FindKey(drops[..|drops| - 1], key)
  }

  /** The group a drop is counted in: its own, or one per reason once the table is full. */
  function GroupOf(drops: seq<DropCounter>, o: Observed, reason: Reason): DropKey {
    var key := One(o.source, o.kind, reason);
    if FindKey(drops, key).None? && |drops| >= GROUPS then Multiple(reason) else key
  }

  function Dropped(drops: seq<DropCounter>, o: Observed, reason: Reason): seq<DropCounter> {
    var key := GroupOf(drops, o, reason);
    var i := FindKey(drops, key);
    if i.None? then drops + [DropCounter(key, 1)]
    else drops[i.value := DropCounter(key, drops[i.value].count + 1)]
  }

  function Total(drops: seq<DropCounter>): nat {
    if drops == [] then 0 else Total(drops[..|drops| - 1]) + drops[|drops| - 1].count
  }

  // ------------------------------------------------------------- severe observations

  /** An append is recognised as a replay by its idempotency key. */
  function Recorded(ledger: seq<Fingerprint>, f: Fingerprint): seq<Fingerprint> {
    if f in ledger then ledger else ledger + [f]
  }

  /** An append and its future: what it raises nobody sees. */
  function Appended(s: State, f: Fingerprint, raises: bool): State {
    if raises then s.(failed := s.failed + {f}) else s.(ledger := Recorded(s.ledger, f))
  }

  /** submit: queue the write, or do it at once when the queue is full; `raises` is what
      becomes of it then. */
  function Submitted(l: Limits, s: State, f: Fingerprint, raises: bool): State {
    if |s.writing| < l.exact then s.(writing := s.writing + [f])
    else Appended(s.(fallbacks := s.fallbacks + 1), f, raises)
  }

  function Cached(cache: seq<Fingerprint>, f: Fingerprint): seq<Fingerprint> {
    var grown := Without(cache, f) + [f];
    if |grown| > CACHE then grown[1..] else grown
  }

  function PersistedFirst(l: Limits, s: State, f: Fingerprint, raises: bool): State {
    if f in s.cache then s.(cache := Cached(s.cache, f))
    else
      var t := s.(cache := Cached(s.cache, f));
      if f in s.ledger then t else Submitted(l, t, f, raises)
  }

  /** publish_observation; `space` and `sampled` are the answers of its two gates, `raises`
      the fate of an append it makes itself. */
  function Published(l: Limits, s: State, o: Observed, space: bool, sampled: bool, raises: bool): State {
    if s.closed then s
    else if !space then s.(drops := Dropped(s.drops, o, AllocationExhausted))
    else if o.internal && !o.severe && !sampled then s.(drops := Dropped(s.drops, o, SampledOut))
    else
      var t := if o.severe then PersistedFirst(l, s, o.fingerprint, raises) else s;
      if |s.queue| < l.telemetry then t.(queue := t.queue + [o])
      else t.(drops := Dropped(t.drops, o, QueueFull))
  }

  /** The summary event of all drops so far; the same idempotency key every time. The table
      is cleared before the append, which may raise. */
  function Summarised(s: State, raises: bool): State {
    if s.drops == [] then s
    else s.(drops := [], summary := if raises || s.summary.Some? then s.summary else Some(Total(s.drops)))
  }

  datatype Step =
    | Publish(observed: Observed, space: bool, sampled: bool, raises: bool)
    | Consume
    | Write(raises: bool)
    | Summarise(raises: bool)
    | Close

  function Apply(l: Limits, s: State, step: Step): State {
    match step
    case Publish(o, space, sampled, raises) => Published(l, s, o, space, sampled, raises)
    case Consume => if s.queue == [] then s else s.(queue := s.queue[1..])
    case Write(raises) => if s.writing == [] then s else Appended(s.(writing := s.writing[1..]), s.writing[0], raises)
    case Summarise(raises) => Summarised(s, raises)
    case Close => s.(closed := true)
  }

  function After(l: Limits, boot: seq<Fingerprint>, steps: seq<Step>): State {
    if steps == [] then Booted(boot) else Apply(l, After(l, boot, steps[..|steps| - 1]), steps[|steps| - 1])
  }

  // -------------------------------------------------------------- the other account

  /** Publishes while the bus was open. */
  function Publishes(l: Limits, boot: seq<Fingerprint>, steps: seq<Step>): nat {
    if steps == [] then 0 else
      Publishes(l, boot, steps[..|steps| - 1])
      + if steps[|steps| - 1].Publish? && !After(l, boot, steps[..|steps| - 1]).closed then 1 else 0
  }

  /** Publishes that were put on the telemetry queue. */
  function Enqueued(l: Limits, boot: seq<Fingerprint>, steps: seq<Step>): nat {
    if steps == [] then 0 else
      var s := After(l, boot, steps[..|steps| - 1]);
      Enqueued(l, boot, steps[..|steps| - 1])
      + if steps[|steps| - 1].Publish? && |Apply(l, s, steps[|steps| - 1]).queue| > |s.queue| then 1 else 0
  }

  /** A summary that was emitted, and whether its append raised. */
  datatype Summary = Summary(count: nat, raised: bool)

  /** The summary a step emits, if it does. */
  function Emission(s: State, step: Step): seq<Summary> {
    if step.Summarise? && s.drops != [] then [Summary(Total(s.drops), step.raises)] else []
  }

  /** All summaries that were emitted. */
  function Emitted(l: Limits, boot: seq<Fingerprint>, steps: seq<Step>): seq<Summary> {
    if steps == [] then [] else
      Emitted(l, boot, steps[..|steps| - 1]) + Emission(After(l, boot, steps[..|steps| - 1]), steps[|steps| - 1])
  }

  /** The drops that were summarised. */
  function Sum(emitted: seq<Summary>): nat {
    if emitted == [] then 0 else Sum(emitted[..|emitted| - 1]) + emitted[|emitted| - 1].count
  }

  /** The first summary whose append did not raise. */
  function FirstKept(emitted: seq<Summary>): Option<nat> {
    if emitted == [] then None else
      var earlier, last := FirstKept(emitted[..|emitted| - 1]), emitted[|emitted| - 1];
      if earlier.Some? || last.raised then earlier else Some(last.count)
  }

  /** The fingerprint an append of which is made in a step, now or from the queue. */
  function Tried(l: Limits, s: State, step: Step): Option<Fingerprint> {
    match step
    case Write(_) => if s.writing == [] then None else Some(s.writing[0])
    case Publish(o, space, _, _) =>
      if !s.closed && space && o.severe && o.fingerprint !in s.cache && o.fingerprint !in s.ledger
         && |s.writing| >= l.exact then Some(o.fingerprint) else None
    case _ => None
  }

  function SetOf(f: Option<Fingerprint>): set<Fingerprint> {
    if f.Some? then {f.value} else {}
  }

  /** Did the append of the step go through? */
  predicate Lands(step: Step) {
    (step.Write? || step.Publish?) && !step.raises
  }

  /** The fingerprints an append of which was made. */
  function Attempted(l: Limits, boot: seq<Fingerprint>, steps: seq<Step>): set<Fingerprint> {
    if steps == [] then {} else
      Attempted(l, boot, steps[..|steps| - 1])
      + SetOf(Tried(l, After(l, boot, steps[..|steps| - 1]), steps[|steps| - 1]))
  }

  /** The fingerprints an append of which did not raise. */
  function Landed(l: Limits, boot: seq<Fingerprint>, steps: seq<Step>): set<Fingerprint> {
    if steps == [] then {} else
      Landed(l, boot, steps[..|steps| - 1])
      + if !Lands(steps[|steps| - 1]) then {}
        else SetOf(Tried(l, After(l, boot, steps[..|steps| - 1]), steps[|steps| - 1]))
  }

  /** The fingerprints of severe observations that passed the allocation gate. */
  function Severe(l: Limits, boot: seq<Fingerprint>, steps: seq<Step>): set<Fingerprint> {
    if steps == [] then {} else
      var step := steps[|steps| - 1];
      Severe(l, boot, steps[..|steps| - 1])
      + if step.Publish? && step.observed.severe && step.space && !After(l, boot, steps[..|steps| - 1]).closed
        then {step.observed.fingerprint} else {}
  }

  // ---------------------------------------------------------------------- proofs

  lemma {:induction false} TotalUpdate(drops: seq<DropCounter>, i: nat, c: DropCounter)
    requires i < |drops|
    ensures Total(drops[i := c]) + drops[i].count == Total(drops) + c.count
  {
    var n := |drops| - 1;
    if i < n {
      TotalUpdate(drops[..n], i, c);
      assert drops[i := c][..n] == drops[..n][i := c];
    } else {
      assert drops[i := c][..n] == drops[..n];
    }
  }

  /** A drop adds exactly one to the table. */
  lemma DropCounts(drops: seq<DropCounter>, o: Observed, reason: Reason)
    ensures Total(Dropped(drops, o, reason)) == Total(drops) + 1 && Dropped(drops, o, reason) != []
  {
    var key := GroupOf(drops, o, reason);
    var i := FindKey(drops, key);
    if i.None? {
      assert (drops + [DropCounter(key, 1)])[..|drops|] == drops;
    } else {
      TotalUpdate(drops, i.value, DropCounter(key, drops[i.value].count + 1));
    }
  }

  /** How many groups of a reason there are for more than one source. */
  function MultipleCount(drops: seq<DropCounter>): nat {
    if drops == [] then 0 else MultipleCount(drops[..|drops| - 1]) + if drops[|drops| - 1].key.Multiple? then 1 else 0
  }

  ghost predicate DistinctKeys(drops: seq<DropCounter>) {
    forall i, j | 0 <= i < j < |drops| :: drops[i].key != drops[j].key
  }

  lemma {:induction false} MultipleUpdate(drops: seq<DropCounter>, i: nat, c: DropCounter)
    requires i < |drops| && c.key == drops[i].key
    ensures MultipleCount(drops[i := c]) == MultipleCount(drops)
  {
    var n := |drops| - 1;
    if i < n {
      MultipleUpdate(drops[..n], i, c);
      assert drops[i := c][..n] == drops[..n][i := c];
    } else {
      assert drops[i := c][..n] == drops[..n];
    }
  }

  /** The reasons that have a group of their own kind. */
  function ReasonsOf(drops: seq<DropCounter>): set<Reason> {
    if drops == [] then {} else
      ReasonsOf(drops[..|drops| - 1]) + if drops[|drops| - 1].key.Multiple? then {drops[|drops| - 1].key.reason} else {}
  }

  lemma {:induction false} ReasonsCount(drops: seq<DropCounter>)
    requires DistinctKeys(drops)
    ensures MultipleCount(drops) == |ReasonsOf(drops)|
    ensures forall r :: r in ReasonsOf(drops) <==> exists i :: 0 <= i < |drops| && drops[i].key == Multiple(r)
  {
    if drops != [] {
      var front, last := drops[..|drops| - 1], drops[|drops| - 1];
      ReasonsCount(front);
      forall r ensures r in ReasonsOf(drops) <==> exists i :: 0 <= i < |drops| && drops[i].key == Multiple(r) {
        if i :| 0 <= i < |front| && front[i].key == Multiple(r) {
          assert drops[i].key == Multiple(r);
        }
        if i :| 0 <= i < |drops| && drops[i].key == Multiple(r) {
          if i < |front| { assert front[i].key == Multiple(r); }
        }
      }
      assert forall i | 0 <= i < |front| :: front[i].key == drops[i].key != last.key;
    }
  }

  lemma AtMostThreeReasons(s: set<Reason>)
    ensures |s| <= 3
  {
    var all := {AllocationExhausted, SampledOut, QueueFull};
    forall r | r in s ensures r in all {
      match r case AllocationExhausted => case SampledOut => case QueueFull =>
    }
    SubsetSize(s, all);
  }

  ghost predicate TableOk(drops: seq<DropCounter>) {
    DistinctKeys(drops) && |drops| <= GROUPS + MultipleCount(drops)
  }

  lemma DropKeepsTable(drops: seq<DropCounter>, o: Observed, reason: Reason)
    requires TableOk(drops)
    ensures TableOk(Dropped(drops, o, reason))
  {
    var key := GroupOf(drops, o, reason);
    var i := FindKey(drops, key);
    if i.None? {
      assert (drops + [DropCounter(key, 1)])[..|drops|] == drops;
    } else {
      MultipleUpdate(drops, i.value, DropCounter(key, drops[i.value].count + 1));
    }
    hide FindKey;
  }

  lemma TableIsSmall(drops: seq<DropCounter>)
    requires TableOk(drops)
    ensures |drops| <= GROUPS + 3
  {
    ReasonsCount(drops);
    AtMostThreeReasons(ReasonsOf(drops));
  }

  ghost predicate NoRepeats(ledger: seq<Fingerprint>) {
    forall i, j | 0 <= i < j < |ledger| :: ledger[i] != ledger[j]
  }

  /** The fingerprints a run has seen: let through, tried, and recorded. */
  datatype Seen = Seen(severe: set<Fingerprint>, tried: set<Fingerprint>, landed: set<Fingerprint>)

  /** A severe fingerprint that is cached, or that was let through, was recorded by an earlier
      boot, is on its way to the ledger, or has been tried; the ledger holds exactly what
      earlier boots have left and what has landed; what was tried and has not landed failed. */
  ghost predicate FirstsOk(s: State, boot: seq<Fingerprint>, seen: Seen) {
    && (forall f | f in s.cache || f in seen.severe :: f in boot || f in s.writing || f in seen.tried)
    && (forall f | f in s.writing || f in seen.tried :: f in seen.severe)
    && (forall f :: f in s.ledger <==> f in boot || f in seen.landed)
    && seen.landed <= seen.tried
    && (forall f | f in seen.tried && f !in seen.landed :: f in s.failed)
    && NoRepeats(s.ledger)
  }

  /** What a step adds to what a run has seen. */
  function Sees(l: Limits, s: State, step: Step, seen: Seen): Seen {
    var tried := SetOf(Tried(l, s, step));
    Seen(seen.severe + if step.Publish? && step.observed.severe && step.space && !s.closed
                       then {step.observed.fingerprint} else {},
         seen.tried + tried,
         seen.landed + if Lands(step) then tried else {})
  }

  lemma {:induction false} WithoutElements(s: seq<Fingerprint>, f: Fingerprint)
    ensures forall x :: x in Without(s, f) <==> x in s && x != f
  {
    if s != [] {
      WithoutElements(s[..|s| - 1], f);
      assert s == s[..|s| - 1] + [s[|s| - 1]];
    }
  }

  lemma CachedElements(cache: seq<Fingerprint>, f: Fingerprint)
    ensures forall x | x in Cached(cache, f) :: x in cache || x == f
  {
    WithoutElements(cache, f);
    var grown := Without(cache, f) + [f];
    assert forall x | x in grown[1..] :: x in grown;
  }

  /** An append: what lands is recorded, what raises has failed. */
  lemma AppendKeeps(s: State, f: Fingerprint, raises: bool, boot: seq<Fingerprint>, seen: Seen)
    requires FirstsOk(s, boot, seen) && f in seen.severe
    ensures FirstsOk(Appended(s, f, raises), boot,
                     seen.(tried := seen.tried + {f}, landed := seen.landed + if raises then {} else {f}))
  {
  }

  /** A write leaves the queue for its append. */
  lemma WriteKeeps(l: Limits, s: State, raises: bool, boot: seq<Fingerprint>, seen: Seen)
    requires FirstsOk(s, boot, seen)
    ensures FirstsOk(Apply(l, s, Write(raises)), boot, Sees(l, s, Write(raises), seen))
  {
    if s.writing != [] {
      var f := s.writing[0];
      AppendKeeps(s, f, raises, boot, seen);
      var t := Appended(s, f, raises);
      assert forall x :: x in s.writing <==> x == f || x in s.writing[1..];
      assert Apply(l, s, Write(raises)) == t.(writing := s.writing[1..]);
    }
  }

  /** A severe observation that was let through. */
  lemma PersistKeeps(l: Limits, s: State, step: Step, boot: seq<Fingerprint>, seen: Seen)
    requires FirstsOk(s, boot, seen) && step.Publish? && step.observed.severe && step.space && !s.closed
    ensures FirstsOk(PersistedFirst(l, s, step.observed.fingerprint, step.raises), boot, Sees(l, s, step, seen))
  {
    var f := step.observed.fingerprint;
    CachedElements(s.cache, f);
    hide Cached, Recorded;
  }

  lemma {:induction false} CacheIsBounded(l: Limits, boot: seq<Fingerprint>, steps: seq<Step>)
    ensures |After(l, boot, steps).cache| <= CACHE
  {
    if steps != [] {
      CacheIsBounded(l, boot, steps[..|steps| - 1]);
      var s := After(l, boot, steps[..|steps| - 1]);
      if steps[|steps| - 1].Publish? { WithoutShorter(s.cache, steps[|steps| - 1].observed.fingerprint); }
      hide Dropped, After, Without, Submitted;
    }
  }

  lemma {:induction false} WithoutShorter(s: seq<Fingerprint>, f: Fingerprint)
    ensures |Without(s, f)| <= |s|
  {
    if s != [] { WithoutShorter(s[..|s| - 1], f); }
  }

  lemma FirstsSame(s: State, t: State, boot: seq<Fingerprint>, seen: Seen)
    requires FirstsOk(s, boot, seen)
    requires t.cache == s.cache && t.writing == s.writing && t.ledger == s.ledger && t.failed == s.failed
    ensures FirstsOk(t, boot, seen)
  {
  }

  lemma SeesNothing(l: Limits, s: State, step: Step, seen: Seen)
    requires !step.Write? && (step.Publish? ==> s.closed || !step.space || !step.observed.severe)
    ensures Sees(l, s, step, seen) == seen
  {
    assert seen.severe + {} == seen.severe && seen.tried + {} == seen.tried && seen.landed + {} == seen.landed;
  }

  lemma PublishKeeps(l: Limits, s: State, step: Step, boot: seq<Fingerprint>, seen: Seen)
    requires FirstsOk(s, boot, seen) && step.Publish?
    ensures FirstsOk(Apply(l, s, step), boot, Sees(l, s, step, seen))
  {
    var u := Apply(l, s, step);
    if step.observed.severe && step.space && !s.closed {
      PersistKeeps(l, s, step, boot, seen);
      hide FirstsOk, PersistedFirst, Dropped, Sees;
      FirstsSame(PersistedFirst(l, s, step.observed.fingerprint, step.raises), u, boot, Sees(l, s, step, seen));
    } else {
      SeesNothing(l, s, step, seen);
      hide FirstsOk, PersistedFirst, Dropped, Sees;
      FirstsSame(s, u, boot, seen);
    }
  }

  lemma StepFirsts(l: Limits, s: State, step: Step, boot: seq<Fingerprint>, seen: Seen)
    requires FirstsOk(s, boot, seen)
    ensures FirstsOk(Apply(l, s, step), boot, Sees(l, s, step, seen))
  {
    hide FirstsOk, Published, Sees, Summarised;
    if step.Publish? {
      PublishKeeps(l, s, step, boot, seen);
    } else if step.Write? {
      WriteKeeps(l, s, step.raises, boot, seen);
    } else {
      SeesNothing(l, s, step, seen);
      OtherStep(l, s, step);
      FirstsSame(s, Apply(l, s, step), boot, seen);
    }
  }

  lemma OtherStep(l: Limits, s: State, step: Step)
    requires !step.Publish? && !step.Write?
    ensures var t := Apply(l, s, step);
            t.cache == s.cache && t.writing == s.writing && t.ledger == s.ledger && t.failed == s.failed
  {
  }

  function SeenBy(l: Limits, boot: seq<Fingerprint>, steps: seq<Step>): Seen {
    Seen(Severe(l, boot, steps), Attempted(l, boot, steps), Landed(l, boot, steps))
  }

  lemma SeenGrows(l: Limits, boot: seq<Fingerprint>, steps: seq<Step>)
    requires steps != []
    ensures var front, step := steps[..|steps| - 1], steps[|steps| - 1];
            SeenBy(l, boot, steps) == Sees(l, After(l, boot, front), step, SeenBy(l, boot, front))
  {
    hide After, Tried;
  }

  lemma {:induction false} FirstsHold(l: Limits, boot: seq<Fingerprint>, steps: seq<Step>)
    requires NoRepeats(boot)
    ensures FirstsOk(After(l, boot, steps), boot, SeenBy(l, boot, steps))
  {
    if steps != [] {
      var front, step := steps[..|steps| - 1], steps[|steps| - 1];
      FirstsHold(l, boot, front);
      StepFirsts(l, After(l, boot, front), step, boot, SeenBy(l, boot, front));
      SeenGrows(l, boot, steps);
      assert After(l, boot, steps) == Apply(l, After(l, boot, front), step);
      hide FirstsOk, After, Apply, SeenBy, Sees;
    }
  }

  // ------------------------------------------------------------------ main results

  ghost predicate DropsOk(s: State, publishes: nat, enqueued: nat, emitted: seq<Summary>) {
    && TableOk(s.drops)
    && publishes == enqueued + Total(s.drops) + Sum(emitted)
    && s.summary == FirstKept(emitted)
    && (forall i | 0 <= i < |emitted| :: emitted[i].count > 0)
    && (forall i | 0 <= i < |s.drops| :: s.drops[i].count > 0)
  }

  lemma DropStep(l: Limits, s: State, o: Observed, reason: Reason, publishes: nat, enqueued: nat, emitted: seq<Summary>)
    requires DropsOk(s, publishes, enqueued, emitted)
    ensures DropsOk(s.(drops := Dropped(s.drops, o, reason)), publishes + 1, enqueued, emitted)
  {
    DropKeepsTable(s.drops, o, reason);
    DropCounts(s.drops, o, reason);
    hide TableOk, Total, GroupOf;
  }

  lemma PersistFields(l: Limits, s: State, f: Fingerprint, raises: bool)
    ensures var t := PersistedFirst(l, s, f, raises);
            t.queue == s.queue && t.drops == s.drops && t.closed == s.closed && t.summary == s.summary
  {
    hide Cached, Recorded;
  }

  lemma PublishStep(l: Limits, s: State, o: Observed, space: bool, sampled: bool, raises: bool,
                    publishes: nat, enqueued: nat, emitted: seq<Summary>)
    requires DropsOk(s, publishes, enqueued, emitted) && !s.closed
    ensures var t := Published(l, s, o, space, sampled, raises);
            DropsOk(t, publishes + 1, enqueued + if |t.queue| > |s.queue| then 1 else 0, emitted)
  {
    PersistFields(l, s, o.fingerprint, raises);
    var t := if o.severe then PersistedFirst(l, s, o.fingerprint, raises) else s;
    DropStep(l, s, o, AllocationExhausted, publishes, enqueued, emitted);
    DropStep(l, s, o, SampledOut, publishes, enqueued, emitted);
    hide PersistedFirst, Dropped, TableOk, Total;
    assert DropsOk(t, publishes, enqueued, emitted);
    DropStep(l, t, o, QueueFull, publishes, enqueued, emitted);
  }

  lemma SumGrows(emitted: seq<Summary>, x: Summary)
    ensures Sum(emitted + [x]) == Sum(emitted) + x.count
    ensures FirstKept(emitted + [x])
            == if FirstKept(emitted).Some? || x.raised then FirstKept(emitted) else Some(x.count)
  {
    assert (emitted + [x])[..|emitted|] == emitted;
  }

  lemma {:induction false} TotalPositive(drops: seq<DropCounter>)
    requires drops != [] && forall i | 0 <= i < |drops| :: drops[i].count > 0
    ensures Total(drops) > 0
  {
  }

  lemma SummaryStep(s: State, step: Step, publishes: nat, enqueued: nat, emitted: seq<Summary>)
    requires DropsOk(s, publishes, enqueued, emitted) && step.Summarise?
    ensures DropsOk(Summarised(s, step.raises), publishes, enqueued, emitted + Emission(s, step))
  {
    if s.drops != [] {
      SumGrows(emitted, Summary(Total(s.drops), step.raises));
      TotalPositive(s.drops);
      assert Total([]) == 0 && TableOk([]);
    } else {
      assert emitted + [] == emitted;
    }
    hide Sum, Total, TableOk, FirstKept;
  }

  /** A step that neither publishes nor summarises leaves the account alone. */
  lemma IdleStep(l: Limits, s: State, step: Step, publishes: nat, enqueued: nat, emitted: seq<Summary>)
    requires DropsOk(s, publishes, enqueued, emitted) && !step.Publish? && !step.Summarise?
    ensures DropsOk(Apply(l, s, step), publishes, enqueued, emitted + Emission(s, step))
  {
    assert emitted + [] == emitted;
    hide Sum, Total, TableOk, FirstKept, Recorded;
  }

  lemma AnyPublish(l: Limits, s: State, step: Step, publishes: nat, enqueued: nat, emitted: seq<Summary>)
    requires DropsOk(s, publishes, enqueued, emitted) && step.Publish?
    ensures var t := Apply(l, s, step);
            DropsOk(t, publishes + (if s.closed then 0 else 1), enqueued + (if |t.queue| > |s.queue| then 1 else 0),
                    emitted + Emission(s, step))
  {
    hide DropsOk, Published;
    assert emitted + [] == emitted;
    var o := step.observed;
    if s.closed {
      ClosedPublish(l, s, o, step.space, step.sampled, step.raises);
    } else {
      PublishStep(l, s, o, step.space, step.sampled, step.raises, publishes, enqueued, emitted);
    }
  }

  lemma AnyStep(l: Limits, s: State, step: Step, publishes: nat, enqueued: nat, emitted: seq<Summary>)
    requires DropsOk(s, publishes, enqueued, emitted)
    ensures var t := Apply(l, s, step);
            DropsOk(t, publishes + (if step.Publish? && !s.closed then 1 else 0),
                    enqueued + (if step.Publish? && |t.queue| > |s.queue| then 1 else 0), emitted + Emission(s, step))
  {
    hide DropsOk, Emission, Published, Summarised;
    if step.Publish? {
      AnyPublish(l, s, step, publishes, enqueued, emitted);
    } else if step.Summarise? {
      SummaryStep(s, step, publishes, enqueued, emitted);
    } else {
      IdleStep(l, s, step, publishes, enqueued, emitted);
    }
  }

  /** How the three accounts go on with the last step. */
  lemma AccountGrows(l: Limits, boot: seq<Fingerprint>, steps: seq<Step>)
    requires steps != []
    ensures var front, step := steps[..|steps| - 1], steps[|steps| - 1];
            var s := After(l, boot, front);
            var t := Apply(l, s, step);
            && After(l, boot, steps) == t
            && Publishes(l, boot, steps)
               == Publishes(l, boot, front) + (if step.Publish? && !s.closed then 1 else 0)
            && Enqueued(l, boot, steps)
               == Enqueued(l, boot, front) + (if step.Publish? && |t.queue| > |s.queue| then 1 else 0)
            && Emitted(l, boot, steps) == Emitted(l, boot, front) + Emission(s, step)
  {
    hide Apply, Emission;
  }

  lemma {:induction false} DropsHold(l: Limits, boot: seq<Fingerprint>, steps: seq<Step>)
    ensures DropsOk(After(l, boot, steps), Publishes(l, boot, steps), Enqueued(l, boot, steps), Emitted(l, boot, steps))
  {
    if steps != [] {
      hide *;
      var front, step := steps[..|steps| - 1], steps[|steps| - 1];
      DropsHold(l, boot, front);
      AccountGrows(l, boot, steps);
      AnyStep(l, After(l, boot, front), step,
              Publishes(l, boot, front), Enqueued(l, boot, front), Emitted(l, boot, front));
    } else {
      NothingDropped(l, boot);
    }
  }

  lemma NothingDropped(l: Limits, boot: seq<Fingerprint>)
    ensures DropsOk(After(l, boot, []), Publishes(l, boot, []), Enqueued(l, boot, []), Emitted(l, boot, []))
  {
  }

  lemma ClosedPublish(l: Limits, s: State, o: Observed, space: bool, sampled: bool, raises: bool)
    requires s.closed
    ensures Published(l, s, o, space, sampled, raises) == s
  {
  }

  /** Drop accounting: every publish of the open bus was enqueued, is counted in the drop
      table, or was counted in an emitted summary; the table never has more than 131
      groups. */
  lemma DropsAreCounted(l: Limits, boot: seq<Fingerprint>, steps: seq<Step>)
    ensures Publishes(l, boot, steps) == Enqueued(l, boot, steps) + Total(After(l, boot, steps).drops)
            + Sum(Emitted(l, boot, steps))
    ensures |After(l, boot, steps).drops| <= 131
  {
    DropsHold(l, boot, steps);
    TableIsSmall(After(l, boot, steps).drops);
    hide After, Total, Publishes, Enqueued, Emitted;
  }

  /** The ledger keeps the first summary whose append does not raise, and no other, the key
      being taken from then on. So it tells of every summarised drop if and only if none was
      summarised, or one summary was emitted and its append did not raise. */
  lemma LedgerKeepsFirstSummary(l: Limits, boot: seq<Fingerprint>, steps: seq<Step>)
    ensures After(l, boot, steps).summary == FirstKept(Emitted(l, boot, steps))
    ensures var reported := if After(l, boot, steps).summary.Some? then After(l, boot, steps).summary.value else 0;
            var emitted := Emitted(l, boot, steps);
            reported == Sum(emitted) <==> emitted == [] || (|emitted| == 1 && !emitted[0].raised)
  {
    DropsHold(l, boot, steps);
    hide After, Emitted, Publishes, Enqueued;
    SumOfMany(Emitted(l, boot, steps));
  }

  lemma {:induction false} SumOfMany(emitted: seq<Summary>)
    requires forall i | 0 <= i < |emitted| :: emitted[i].count > 0
    ensures Sum(emitted) == 0 <==> emitted == []
    ensures var kept := FirstKept(emitted);
            var reported := if kept.Some? then kept.value else 0;
            && reported <= Sum(emitted)
            && (reported == Sum(emitted) <==> emitted == [] || (|emitted| == 1 && !emitted[0].raised))
  {
    if emitted != [] { SumOfMany(emitted[..|emitted| - 1]); }
  }

  /** First failures: the ledger holds exactly one first-occurrence event for every fingerprint
      that an earlier boot recorded or an append of which did not raise, and no other. Once
      the writer has drained its queue, every severe fingerprint that passed the allocation
      gate and was not recorded before has been tried, however small the cache and whichever
      way it was written; without a raising append each has its event. */
  lemma FirstExactlyOnce(l: Limits, boot: seq<Fingerprint>, steps: seq<Step>, f: Fingerprint)
    requires NoRepeats(boot)
    ensures var s := After(l, boot, steps);
            && NoRepeats(s.ledger)
            && (f in s.ledger <==> f in boot || f in Landed(l, boot, steps))
            && (f in Attempted(l, boot, steps) ==> f in Severe(l, boot, steps))
            && Landed(l, boot, steps) <= Attempted(l, boot, steps)
    ensures var s := After(l, boot, steps);
            s.writing == [] ==>
              && (f in Severe(l, boot, steps) ==> f in boot || f in Attempted(l, boot, steps))
              && (f !in s.failed ==> (f in s.ledger <==> f in Severe(l, boot, steps) || f in boot))
  {
    FirstsHold(l, boot, steps);
    hide After, Severe, Attempted, Landed;
  }

  /** So a severe fingerprint has no event, once the writer has drained, exactly when no
      earlier boot recorded it and each of its appends, at least one, raised. */
  lemma MissingExactlyWhen(l: Limits, boot: seq<Fingerprint>, steps: seq<Step>, f: Fingerprint)
    requires NoRepeats(boot) && After(l, boot, steps).writing == [] && f in Severe(l, boot, steps)
    ensures f !in After(l, boot, steps).ledger
            <==> f !in boot && f in Attempted(l, boot, steps) && f !in Landed(l, boot, steps)
  {
    FirstExactlyOnce(l, boot, steps, f);
    hide After, Severe, Attempted, Landed;
  }

  /** What membership in the two sets means: some step made the append, and it went through. */
  lemma {:induction false} TriedSomewhere(l: Limits, boot: seq<Fingerprint>, steps: seq<Step>, f: Fingerprint)
    ensures f in Attempted(l, boot, steps) <==> exists j | 0 <= j < |steps| :: TriesAt(l, boot, steps, j, f)
    ensures f in Landed(l, boot, steps)
            <==> exists j | 0 <= j < |steps| :: TriesAt(l, boot, steps, j, f) && Lands(steps[j])
  {
    if steps != [] {
      var n := |steps| - 1;
      TriedSomewhere(l, boot, steps[..n], f);
      hide After, Tried;
      forall j | 0 <= j < n ensures TriesAt(l, boot, steps[..n], j, f) == TriesAt(l, boot, steps, j, f) {
        assert steps[..n][..j] == steps[..j];
      }
      LastTry(l, boot, steps, f);
      hide Attempted, Landed, TriesAt;
      if j :| 0 <= j < |steps| && TriesAt(l, boot, steps, j, f) { assert j == n || TriesAt(l, boot, steps[..n], j, f); }
      if j :| 0 <= j < |steps| && TriesAt(l, boot, steps, j, f) && Lands(steps[j]) {
        assert j == n || (TriesAt(l, boot, steps[..n], j, f) && Lands(steps[..n][j]));
      }
    }
  }

  predicate TriesAt(l: Limits, boot: seq<Fingerprint>, steps: seq<Step>, j: nat, f: Fingerprint)
    requires j < |steps|
  {
    Tried(l, After(l, boot, steps[..j]), steps[j]) == Some(f)
  }

  lemma LastTry(l: Limits, boot: seq<Fingerprint>, steps: seq<Step>, f: Fingerprint)
    requires steps != []
    ensures var n := |steps| - 1;
            && (f in Attempted(l, boot, steps)
                <==> f in Attempted(l, boot, steps[..n]) || TriesAt(l, boot, steps, n, f))
            && (f in Landed(l, boot, steps)
                <==> f in Landed(l, boot, steps[..n]) || (TriesAt(l, boot, steps, n, f) && Lands(steps[n])))
  {
    hide After, Tried;
  }

  /** A severe observation let through, whose fingerprint the ledger does not have: it is
      tried at once or queued to be tried exactly when it is not cached. So what has failed
      is tried again exactly when it is observed after it has left the cache. */
  lemma TriedExactlyWhenUncached(l: Limits, s: State, o: Observed, sampled: bool, raises: bool)
    requires !s.closed && o.severe && o.fingerprint !in s.ledger
    ensures var step := Publish(o, true, sampled, raises);
            var t := Apply(l, s, step);
            && (Tried(l, s, step) == Some(o.fingerprint) || t.writing == s.writing + [o.fingerprint]
                <==> o.fingerprint !in s.cache)
            && (o.fingerprint in s.cache ==>
                  Tried(l, s, step) == None && t.ledger == s.ledger && t.writing == s.writing && t.failed == s.failed)
  {
    hide Cached, Dropped, Recorded;
  }

  /** It happens: a fingerprint whose one append raised, observed again, and nothing tells of it. */
  lemma MissingFirst(l: Limits, o: Observed)
    requires l.Valid() && o.severe
    ensures var steps := [Publish(o, true, true, false), Write(true), Publish(o, true, true, false)];
            && o.fingerprint in Severe(l, [], steps)
            && After(l, [], steps).writing == [] && After(l, [], steps).ledger == []
  {
    var a, b, c := Publish(o, true, true, false), Write(true), Publish(o, true, true, false);
    var steps := [a, b, c];
    assert steps[..2] == [a, b] && [a, b][..1] == [a] && [a][..0] == [];
    FirstSubmit(l, o);
    var s := After(l, [], [a]);
    assert After(l, [], [a, b]) == s.(writing := [], failed := s.failed + {o.fingerprint});
    TriedExactlyWhenUncached(l, After(l, [], [a, b]), o, true, false);
    assert After(l, [], steps) == Apply(l, After(l, [], [a, b]), c);
    hide Published, Severe;
  }

  lemma FirstSubmit(l: Limits, o: Observed)
    requires l.Valid() && o.severe
    ensures var s := Published(l, Booted([]), o, true, true, false);
            && o.fingerprint in s.cache && s.writing == [o.fingerprint] && s.ledger == [] && !s.closed
    ensures After(l, [], [Publish(o, true, true, false)]) == Published(l, Booted([]), o, true, true, false)
  {
    assert [Publish(o, true, true, false)][..0] == [];
    assert Without([], o.fingerprint) == [];
    hide Dropped;
  }

  // ------------------------------------------------------------------------ the bus

  class BoundedEventBus {
    const limits: Limits
    var closed: bool
    var queue: seq<Observed>
    var drops: seq<DropCounter>
    var cache: seq<Fingerprint>
    var writing: seq<Fingerprint>
    var fallbacks: nat
    var ledger: seq<Fingerprint>
    ghost var failed: set<Fingerprint>
    var summary: Option<nat>

    constructor (limits: Limits, boot: seq<Fingerprint>)
      requires limits.Valid()
      ensures this.limits == limits && View() == Booted(boot)
    {
      this.limits := limits;
      closed, queue, drops, cache, writing, fallbacks, ledger, summary := false, [], [], [], [], 0, boot, None;
      failed := {};
    }

    ghost function View(): State
      reads this
    {
      State(closed, queue, drops, cache, writing, fallbacks, ledger, failed, summary)
    }

    method RecordDrop(o: Observed, reason: Reason)
      modifies this`drops
      ensures drops == Dropped(old(drops), o, reason)
    {
      var key := One(o.source, o.kind, reason);
      var i := FindKey(drops, key);
      if i.None? && |drops| >= GROUPS {
        key := Multiple(reason);
        i := FindKey(drops, key);
      }
      if i.None? {
        drops := drops + [DropCounter(key, 1)];
      } else {
        drops := drops[i.value := DropCounter(key, drops[i.value].count + 1)];
      }
    }

    /** One append; what it raises ends in its future. */
    method Append(f: Fingerprint, raises: bool)
      modifies this`ledger, this`failed
      ensures View() == Appended(old(View()), f, raises)
    {
      if raises {
        failed := failed + {f};
      } else {
        ledger := if f in ledger then ledger else ledger + [f];
      }
    }

    /** Queue an exact write; with a full queue write at once, never drop it. */
    method Submit(f: Fingerprint, raises: bool)
      modifies this`writing, this`fallbacks, this`ledger, this`failed
      ensures View() == Submitted(limits, old(View()), f, raises)
    {
      if |writing| < limits.exact {
        writing := writing + [f];
      } else {
        fallbacks := fallbacks + 1;
        Append(f, raises);
      }
    }

    method PersistFirst(f: Fingerprint, raises: bool)
      modifies this`cache, this`writing, this`fallbacks, this`ledger, this`failed
      ensures View() == PersistedFirst(limits, old(View()), f, raises)
    {
      var known := f in cache;
      cache := Without(cache, f) + [f];
      if |cache| > CACHE { cache := cache[1..]; }
      if known || f in ledger { return; }
      Submit(f, raises);
    }

    method Publish(o: Observed, space: bool, sampled: bool, raises: bool) returns (queued: bool)
      modifies this
      ensures View() == Published(limits, old(View()), o, space, sampled, raises)
      ensures queued <==> |queue| > |old(queue)|
    {
      hide PersistedFirst, Dropped;
      if closed { return false; }
      if !space {
        RecordDrop(o, AllocationExhausted);
        return false;
      }
      if o.internal && !o.severe && !sampled {
        RecordDrop(o, SampledOut);
        return false;
      }
      ghost var before := View();
      if o.severe { PersistFirst(o.fingerprint, raises); }
      assert View() == (if o.severe then PersistedFirst(limits, before, o.fingerprint, raises) else before);
      if |queue| < limits.telemetry {
        queue := queue + [o];
        return true;
      }
      RecordDrop(o, QueueFull);
      return false;
    }

    /** Drain the exact writer; `raises` says what becomes of the append of each. */
    method FlushWriter(raises: Fingerprint -> bool)
      modifies this`writing, this`ledger, this`failed
      ensures writing == []
      ensures forall f :: f in ledger <==> f in old(ledger) || (f in old(writing) && !raises(f))
      ensures forall f :: f in failed <==> f in old(failed) || (f in old(writing) && raises(f))
    {
      while writing != []
        invariant forall f | f in writing :: f in old(writing)
        invariant forall f ::
                    f in ledger || (f in writing && !raises(f))
                    <==> f in old(ledger) || (f in old(writing) && !raises(f))
        invariant forall f ::
                    f in failed || (f in writing && raises(f))
                    <==> f in old(failed) || (f in old(writing) && raises(f))
        decreases |writing|
      {
        var f := writing[0];
        assert writing == [f] + writing[1..];
        writing := writing[1..];
        Append(f, raises(f));
      }
    }

    /** Sum the drop table up, clear it and emit the event, whose append may raise. */
    method EmitDropSummary(raises: bool)
      modifies this`drops, this`summary
      ensures View() == Summarised(old(View()), raises)
    {
      if drops == [] { return; }
      var total := 0;
      for i := 0 to |drops|
        invariant total == Total(drops[..i])
      {
        assert drops[..i + 1][..i] == drops[..i];
        total := total + drops[i].count;
      }
      assert drops[..|drops|] == drops;
      drops := [];
      if !raises && summary.None? { summary := Some(total); }
    }
  }
}
