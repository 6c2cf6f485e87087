/** Late observations. The guard `Timely` is exact: an accepted update outside it can cost an
    update its place in every tier while its cold bucket is still due to be kept. */
module SketchTiersLate {
  import opened Wrappers
  import opened Buckets
  import HD = HybridDistinct
  import opened SketchTiers
  import opened SketchTiersInvariants
  import opened SketchTiersPass
  import opened SketchTiersTheorems

  // ---------------------------------------------------------------- building runs

  /** A run that ends in state `s`, with accepted updates `h`; all but the j-th step in time. */
  ghost predicate Reaches(p: Plan, steps: seq<Step>, j: nat, s: State, h: seq<Entry>) {
    && IsRun(p, steps) && TimelyExcept(p, steps, j)
    && After(p, steps) == s && LogAfter(p, steps).history == h
  }

  lemma FromEmpty(p: Plan, j: nat)
    ensures Reaches(p, [], j, Start0, [])
  {
  }

  lemma Extends(p: Plan, steps: seq<Step>, step: Step)
    requires IsRun(p, steps) && Enabled(p, After(p, steps), step)
    ensures var more := steps + [step];
            && IsRun(p, more) && After(p, more) == Apply(p, After(p, steps), step)
            && LogAfter(p, more) == Logged(p, After(p, steps), LogAfter(p, steps), step)
            && StateAt(p, more, |steps|) == After(p, steps)
  {
    var more := steps + [step];
    assert more[..|steps|] == steps;
    hide Enabled, Apply, Logged;
  }

  lemma EarlierStates(p: Plan, steps: seq<Step>, step: Step, m: nat)
    requires m <= |steps|
    ensures StateAt(p, steps + [step], m) == StateAt(p, steps, m)
  {
    assert (steps + [step])[..m] == steps[..m];
    hide IsRun, After;
  }

  /** One more step of a run; an update in it is accepted. */
  lemma Go(p: Plan, steps: seq<Step>, j: nat, s: State, h: seq<Entry>, step: Step, t: State)
    requires Reaches(p, steps, j, s, h) && Enabled(p, s, step) && t == Apply(p, s, step)
    requires step.Update? ==> Accepted(p, s, step.at, step.digest) && (|steps| == j || StepTimely(p, s, step))
    ensures Reaches(p, steps + [step], j, t, if step.Update? then h + [Entry(step.at, step.digest)] else h)
  {
    Extends(p, steps, step);
    GoTimely(p, steps, j, s, step);
    hide IsRun, After, StateAt, TimelyExcept, StepTimely, Enabled, Apply, Accepted, RolledUp, HasUnsealed;
  }

  lemma GoTimely(p: Plan, steps: seq<Step>, j: nat, s: State, step: Step)
    requires TimelyExcept(p, steps, j) && StateAt(p, steps + [step], |steps|) == s
    requires |steps| == j || StepTimely(p, s, step) || !step.Update?
    ensures TimelyExcept(p, steps + [step], j)
  {
    var more := steps + [step];
    forall m | 0 <= m < |more| && m != j ensures StepTimely(p, StateAt(p, more, m), more[m]) {
      if m < |steps| {
        EarlierStates(p, steps, step, m);
        assert StepTimely(p, StateAt(p, steps, m), steps[m]);
      }
    }
    hide StateAt, Timely, Accepted;
  }

  // ------------------------------------------------------------------ small tables

  function Single(d: HD.Digest): HD.Sketch {
    HD.Sketch(HD.EXACT, {d}, 1)
  }

  /** A bucket with one update: open, sealed, rolled up; and a parent with one member. */
  function Open(d: HD.Digest): Row { Row(false, Unrolled, Single(d)) }
  function Shut(d: HD.Digest): Row { Row(true, Unrolled, Single(d)) }
  function Done(d: HD.Digest): Row { Row(true, VerifiedChild, Single(d)) }
  function Above(d: HD.Digest): Row { Row(true, VerifiedParent, Single(d)) }

  lemma SingleFits(p: Plan, d: HD.Digest)
    requires p.Valid()
    ensures HD.Fits(p.sketch, {d})
    ensures HD.Updated(p.sketch, HD.Empty, d) == HD.Outcome(Single(d), HD.Nothing)
    ensures HD.Merged(p.sketch, HD.Empty, Single(d)) == HD.Outcome(Single(d), HD.Nothing)
  {
    assert {} + {d} == {d};
  }

  /** `k` is the only child row of the stretch. */
  ghost predicate Lone(p: Plan, rows: map<Key, Row>, child: Tier, lo: nat, hi: nat, k: Key) {
    && k in rows && k.tier == child && rows[k].sealed && lo <= k.start
    && forall j | j in rows && j.tier == child && lo <= j.start && EndOf(p, j) <= hi :: j == k
  }

  lemma {:induction false} NoRows(p: Plan, rows: map<Key, Row>, child: Tier, lo: nat, hi: nat)
    requires Width(p, child) > 0 && forall j | j in rows && j.tier == child && lo <= j.start :: EndOf(p, j) > hi
    ensures RolledUp(p, rows, child, lo, hi) == Some(HD.Empty)
    decreases hi
  {
    var w := Width(p, child);
    if hi >= lo + w {
      assert EndOf(p, Key(child, hi - w)) == hi;
      NoRows(p, rows, child, lo, hi - w);
    }
  }

  lemma {:induction false} LoneRollUp(p: Plan, rows: map<Key, Row>, child: Tier, lo: nat, hi: nat, k: Key)
    requires Width(p, child) > 0 && lo <= hi && IsMultiple(lo, Width(p, child)) && IsMultiple(hi, Width(p, child))
    requires Lone(p, rows, child, lo, hi, k) && AlignedIn(p, k) && EndOf(p, k) <= hi
    ensures var o := HD.Merged(p.sketch, HD.Empty, rows[k].sketch);
            RolledUp(p, rows, child, lo, hi) == if o.raised == HD.Nothing then Some(o.sketch) else None
    decreases hi
  {
    var w := Width(p, child);
    hide HD.Merged;
    if EndOf(p, k) == hi {
      assert Key(child, hi - w) == k;
      NoRows(p, rows, child, lo, hi - w);
    } else {
      SumMultiple(k.start, w, w);
      WholeWindowFits(EndOf(p, k), hi, w);
      assert Key(child, hi - w) != k && EndOf(p, Key(child, hi - w)) == hi;
      assert Key(child, hi - w) !in rows;
      LoneRollUp(p, rows, child, lo, hi - w, k);
    }
  }

  /** Rolling up a window with one child of one update. */
  lemma LoneParent(p: Plan, rows: map<Key, Row>, k: Key, d: HD.Digest)
    requires p.Valid() && k.tier != Cold && AlignedIn(p, k) && k in rows && rows[k].sealed
             && rows[k].sketch == Single(d)
    requires forall j | j in rows && j.tier == k.tier :: j == k
    ensures var q := ParentOf(p, k);
            && RolledUp(p, rows, k.tier, q.start, EndOf(p, q)) == Some(Single(d))
            && Children(p, rows, k.tier, q) == {k}
  {
    var q := ParentOf(p, k);
    ParentContains(p, k);
    WindowAligned(p, q, k.tier);
    LoneRollUp(p, rows, k.tier, q.start, EndOf(p, q), k);
    SingleFits(p, d);
    hide RolledUp, HD.Merged, KeyAt, ParentOf;
  }

  /** Two digests that fit together, or whose promotion is plausible. */
  predicate Mild(p: Plan) {
    HD.Fits(p.sketch, {1, 2}) || HD.Plausible(p.sketch, {1, 2})
  }

  lemma {:induction false} MildRollUp(p: Plan, rows: map<Key, Row>, child: Tier, lo: nat, hi: nat)
    requires p.Valid() && Mild(p) && Width(p, child) > 0
    requires forall k | k in rows && k.tier == child :: rows[k].sketch in {Single(1), Single(2)}
    ensures var r := RolledUp(p, rows, child, lo, hi);
            r.Some? && r.value.members <= {1, 2} && HD.Canonical(p.sketch, r.value)
    decreases hi
  {
    var w := Width(p, child);
    if hi >= lo + w {
      Rolls(p, rows, child, lo, hi);
      MildRollUp(p, rows, child, lo, hi - w);
      var k := Key(child, hi - w);
      if k in rows && rows[k].sealed {
        var d: HD.Digest := if rows[k].sketch == Single(1) then 1 else 2;
        MildMerge(p, RolledUp(p, rows, child, lo, hi - w).value, d);
      }
      hide RolledUp, HD.Merged, HD.Canonical;
    } else {
      HD.CanonicalEmpty(p.sketch);
    }
  }

  lemma MildMerge(p: Plan, a: HD.Sketch, d: HD.Digest)
    requires p.Valid() && Mild(p) && HD.Canonical(p.sketch, a) && a.members <= {1, 2} && d in {1, 2}
    ensures var o := HD.Merged(p.sketch, a, Single(d));
            o.raised == HD.Nothing && o.sketch.members <= {1, 2} && HD.Canonical(p.sketch, o.sketch)
  {
    SingleFits(p, d);
    SingleFits(p, 1);
    SingleFits(p, 2);
    var u := a.members + {d};
    assert u == {1} || u == {2} || u == {1, 2};
    if HD.Merged(p.sketch, a, Single(d)).raised == HD.Nothing { HD.MergeCanonical(p.sketch, a, Single(d)); }
    hide HD.Fits, HD.Plausible;
  }

  // -------------------------------------------------------- one update, rolled up once

  /** A hot bucket, its warm and its cold one. */
  ghost predicate Nested(p: Plan, k: Key, w: Key, c: Key) {
    && k.tier == Hot && w.tier == Warm && c.tier == Cold && AlignedIn(p, k) && AlignedIn(p, w)
    && ParentOf(p, k) == w && ParentOf(p, w) == c && w.start <= k.start && EndOf(p, k) <= EndOf(p, w) <= EndOf(p, c)
  }

  lemma NestedAt(p: Plan, k: Key)
    requires p.Valid() && k.tier == Hot && AlignedIn(p, k)
    ensures Nested(p, k, ParentOf(p, k), ParentOf(p, ParentOf(p, k)))
    ensures KeyAt(p, Hot, k.start) == k
  {
    ParentContains(p, k);
    ParentContains(p, ParentOf(p, k));
    KeyAtUnique(p, k, k.start);
  }

  function Counted(k: Key): State {
    State(map[k := Open(1)], {}, Idle, 0)
  }

  function Sealing(k: Key, now: nat): State {
    State(map[k := Shut(1)], {}, Rolling(now, Hot, None), now)
  }

  function Merging(k: Key, w: Key, now: nat): State {
    State(map[k := Shut(1), w := Above(1)], {}, Rolling(now, Hot, Some(Group(w, {k}))), now)
  }

  function Recorded(k: Key, w: Key, phase: Phase, now: nat): State {
    State(map[k := Done(1), w := Above(1)], {(w, k)}, phase, now)
  }

  lemma CountStep(p: Plan, k: Key)
    requires p.Valid() && k.tier == Hot && AlignedIn(p, k)
    ensures Apply(p, Start0, Update(k.start, 1)) == Counted(k) && Accepted(p, Start0, k.start, 1)
    ensures StepTimely(p, Start0, Update(k.start, 1))
  {
    NestedAt(p, k);
    SingleFits(p, 1);
    PunctualIsTimely(p, k.start, 0);
    hide HD.Updated, KeyAt, ParentOf;
  }

  lemma SealStep(p: Plan, k: Key, now: nat)
    requires EndOf(p, k) <= now
    ensures Enabled(p, Counted(k), Begin(now)) && Apply(p, Counted(k), Begin(now)) == Sealing(k, now)
  {
  }

  lemma MergeStep(p: Plan, k: Key, w: Key, c: Key, now: nat)
    requires p.Valid() && Nested(p, k, w, c) && EndOf(p, w) <= now
    ensures Enabled(p, Sealing(k, now), PersistParent(w))
            && Apply(p, Sealing(k, now), PersistParent(w)) == Merging(k, w, now)
  {
    var s := Sealing(k, now);
    LoneParent(p, s.rows, k, 1);
    assert Waiting(p, s.rows, Hot, k, now);
    hide RolledUp, KeyAt, ParentOf, Children;
  }

  lemma RecordStep(p: Plan, k: Key, w: Key, now: nat)
    requires k != w
    ensures Enabled(p, Merging(k, w, now), MarkChildren)
    ensures Apply(p, Merging(k, w, now), MarkChildren) == Recorded(k, w, Rolling(now, Hot, None), now)
  {
    assert LinksTo(w, {k}) == {(w, k)};
  }

  lemma FirstRollUp(p: Plan, k: Key, w: Key, c: Key, now: nat, j: nat) returns (steps: seq<Step>)
    requires p.Valid() && Nested(p, k, w, c) && EndOf(p, w) <= now && j >= 4
    ensures |steps| == 4 && Reaches(p, steps, j, Recorded(k, w, Rolling(now, Hot, None), now), [Entry(k.start, 1)])
  {
    CountStep(p, k);
    SealStep(p, k, now);
    MergeStep(p, k, w, c, now);
    RecordStep(p, k, w, now);
    FromEmpty(p, j);
    hide *;
    var h := [Entry(k.start, 1)];
    assert [] + h == h;
    Go(p, [], j, Start0, [], Update(k.start, 1), Counted(k));
    steps := [] + [Update(k.start, 1)];
    Go(p, steps, j, Counted(k), h, Begin(now), Sealing(k, now));
    steps := steps + [Begin(now)];
    Go(p, steps, j, Sealing(k, now), h, PersistParent(w), Merging(k, w, now));
    steps := steps + [PersistParent(w)];
    Go(p, steps, j, Merging(k, w, now), h, MarkChildren, Recorded(k, w, Rolling(now, Hot, None), now));
    steps := steps + [MarkChildren];
  }

  // ----------------------------------------------------- the losses, and exactness

  /** An update that no bucket holds although its cold bucket is not past its retention. */
  ghost predicate Gone(p: Plan, s: State, e: Entry) {
    && (forall k | k in s.rows :: e.digest !in s.rows[k].sketch.members)
    && EndOf(p, KeyAt(p, Cold, e.at)) + p.coldKeep > s.clock
  }

  /** The j-th step of a run is an accepted update of instant `at` after a pass at `now`;
      every other accepted update is in time. */
  ghost predicate Hits(p: Plan, steps: seq<Step>, j: nat, at: nat, now: nat) {
    && IsRun(p, steps) && j < |steps| && TimelyExcept(p, steps, j)
    && steps[j].Update? && steps[j].at == at && StateAt(p, steps, j).clock == now
    && Accepted(p, StateAt(p, steps, j), at, steps[j].digest)
  }

  lemma HitsWhen(p: Plan, before: seq<Step>, steps: seq<Step>, at: nat, d: HD.Digest, s: State, t: State,
      h: seq<Entry>, g: seq<Entry>)
    requires Reaches(p, before, |before|, s, h) && Accepted(p, s, at, d) && Reaches(p, steps, |before|, t, g)
    requires |before| < |steps| && steps[..|before|] == before && steps[|before|] == Update(at, d)
    ensures Hits(p, steps, |before|, at, s.clock)
  {
    hide IsRun, After, TimelyExcept, Accepted;
  }

  /** The hot buckets of `w` expire, and the late bucket `k` is rolled up alone. */
  lemma ExpiredSibling(p: Plan, first: Key, w: Key, c: Key, now: nat)
    requires p.Valid() && Nested(p, first, w, c) && EndOf(p, w) <= now < EndOf(p, c)
             && EndOf(p, first) + p.hotKeep <= now
    ensures var a, b := Recorded(first, w, Rolling(now, Hot, None), now),
            Recorded(first, w, Rolling(now, Warm, None), now);
            var e := Recorded(first, w, Expiring(now, Hot), now);
            var z := State(map[w := Above(1)], {}, Expiring(now, Hot), now);
            && Enabled(p, a, NextTier) && Apply(p, a, NextTier) == b
            && Enabled(p, b, NextTier) && Apply(p, b, NextTier) == e
            && Enabled(p, e, ExpireOne(first)) && Apply(p, e, ExpireOne(first)) == z
  {
    hide KeyAt, ParentOf;
    var e := Recorded(first, w, Expiring(now, Hot), now);
    var link := (w, first);
    assert link in e.rollups && link.1 == first && link.0 in e.rows && e.rows[link.0].sealed;
  }

  lemma LateAlone(p: Plan, k: Key, w: Key, c: Key, at: nat, now: nat)
    requires p.Valid() && Nested(p, k, w, c) && EndOf(p, w) <= now && KeyAt(p, Hot, at) == k
    ensures var a := State(map[w := Above(1)], {}, Idle, now);
            var b := State(map[w := Above(1), k := Open(2)], {}, Idle, now);
            var e := State(map[w := Above(1), k := Shut(2)], {}, Rolling(now, Hot, None), now);
            && Accepted(p, a, at, 2) && Apply(p, a, Update(at, 2)) == b
            && Enabled(p, b, Begin(now)) && Apply(p, b, Begin(now)) == e
  {
    SingleFits(p, 2);
    hide HD.Updated, KeyAt, ParentOf;
  }

  lemma LateAlonePersists(p: Plan, k: Key, w: Key, c: Key, now: nat)
    requires p.Valid() && Nested(p, k, w, c) && EndOf(p, w) <= now
    ensures var e := State(map[w := Above(1), k := Shut(2)], {}, Rolling(now, Hot, None), now);
            var z := State(map[w := Above(2), k := Shut(2)], {}, Rolling(now, Hot, Some(Group(w, {k}))), now);
            && Enabled(p, e, PersistParent(w)) && Apply(p, e, PersistParent(w)) == z
  {
    var e := State(map[w := Above(1), k := Shut(2)], {}, Rolling(now, Hot, None), now);
    LoneParent(p, e.rows, k, 2);
    assert Waiting(p, e.rows, Hot, k, now);
    hide RolledUp, KeyAt, ParentOf, Children;
  }

  /** From a rolled-up window to a pass that has expired its only hot bucket and died. */
  lemma UpToExpiry(p: Plan, first: Key, w: Key, c: Key, now: nat, j: nat) returns (steps: seq<Step>)
    requires p.Valid() && Nested(p, first, w, c) && EndOf(p, w) <= now < EndOf(p, c)
             && EndOf(p, first) + p.hotKeep <= now && j >= 8
    ensures |steps| == 8 && Reaches(p, steps, j, State(map[w := Above(1)], {}, Idle, now), [Entry(first.start, 1)])
  {
    ExpiredSibling(p, first, w, c, now);
    steps := FirstRollUp(p, first, w, c, now, j);
    hide *;
    var h := [Entry(first.start, 1)];
    var a := Recorded(first, w, Rolling(now, Warm, None), now);
    Go(p, steps, j, Recorded(first, w, Rolling(now, Hot, None), now), h, NextTier, a);
    steps := steps + [NextTier];
    var b := Recorded(first, w, Expiring(now, Hot), now);
    Go(p, steps, j, a, h, NextTier, b);
    steps := steps + [NextTier];
    var e := State(map[w := Above(1)], {}, Expiring(now, Hot), now);
    Go(p, steps, j, b, h, ExpireOne(first), e);
    steps := steps + [ExpireOne(first)];
    CrashStep(p, e);
    Go(p, steps, j, e, h, Crash, e.(phase := Idle));
    steps := steps + [Crash];
  }

  /** A late update whose siblings have expired: the next roll-up overwrites the warm
      bucket, and an update that only the warm bucket still held is gone. */
  lemma LateChildOverwrites(p: Plan, at: nat, now: nat) returns (steps: seq<Step>, j: nat)
    requires p.Valid() && EndOf(p, KeyAt(p, Cold, at)) > now && !Timely(p, at, now)
    ensures Hits(p, steps, j, at, now) && LogAfter(p, steps).history != []
            && Gone(p, After(p, steps), LogAfter(p, steps).history[0])
  {
    var k, w, c := KeyAt(p, Hot, at), KeyAt(p, Warm, at), KeyAt(p, Cold, at);
    var first := Key(Hot, w.start);
    FirstOf(p, at, w.start);
    assert EndOf(p, w) <= now && EndOf(p, first) + p.hotKeep <= now;
    LateAlone(p, k, w, c, at, now);
    LateAlonePersists(p, k, w, c, now);
    j := 8;
    hide *;
    var before := UpToExpiry(p, first, w, c, now, j);
    var h, g := [Entry(first.start, 1)], [Entry(first.start, 1)] + [Entry(at, 2)];
    var s := State(map[w := Above(1)], {}, Idle, now);
    EnabledUpdate(p, s, at);
    var r := State(map[w := Above(1), k := Open(2)], {}, Idle, now);
    Go(p, before, j, s, h, Update(at, 2), r);
    steps := before + [Update(at, 2)];
    var t := State(map[w := Above(1), k := Shut(2)], {}, Rolling(now, Hot, None), now);
    Go(p, steps, j, r, g, Begin(now), t);
    steps := steps + [Begin(now)];
    var z := State(map[w := Above(2), k := Shut(2)], {}, Rolling(now, Hot, Some(Group(w, {k}))), now);
    Go(p, steps, j, t, g, PersistParent(w), z);
    steps := steps + [PersistParent(w)];
    assert steps[..j] == before && steps[j] == Update(at, 2);
    HitsWhen(p, before, steps, at, 2, s, z, h, g);
    ReachesEnd(p, steps, j, z, g);
    OnlyTwos(p, z, at, first.start, now);
  }

  lemma ReachesEnd(p: Plan, steps: seq<Step>, j: nat, s: State, h: seq<Entry>)
    requires Reaches(p, steps, j, s, h)
    ensures IsRun(p, steps) && After(p, steps) == s && LogAfter(p, steps).history == h
  {
  }

  lemma CrashStep(p: Plan, s: State)
    ensures Enabled(p, s, Crash) && Apply(p, s, Crash) == s.(phase := Idle)
  {
  }

  lemma EnabledUpdate(p: Plan, s: State, at: nat)
    ensures Enabled(p, s, Update(at, 2))
  {
  }

  /** An instant of the warm window of `at`, and its hot bucket. */
  lemma FirstOf(p: Plan, at: nat, start: nat)
    requires p.Valid()
    requires var w := KeyAt(p, Warm, at); start == w.start || start == w.start + p.hot
    ensures var k, w, c := KeyAt(p, Hot, at), KeyAt(p, Warm, at), KeyAt(p, Cold, at);
            && Nested(p, k, w, c) && Nested(p, Key(Hot, start), w, c)
            && (EndOf(p, w) >= w.start + p.hot + p.hot)
            && KeyAt(p, Cold, start) == c
  {
    var k, w, c := KeyAt(p, Hot, at), KeyAt(p, Warm, at), KeyAt(p, Cold, at);
    KeyAtNests(p, Hot, at);
    KeyAtNests(p, Warm, at);
    NestedAt(p, k);
    WindowAligned(p, w, Hot);
    TwoWindows(p, w);
    SelfMultiple(p.hot);
    SumMultiple(w.start, p.hot, p.hot);
    var first := Key(Hot, start);
    assert w.start <= start && EndOf(p, first) <= EndOf(p, w);
    assert AlignedIn(p, first);
    ParentIsUnique(p, first, w);
    NestedAt(p, first);
    KeyAtNests(p, Hot, start);
    KeyAtNests(p, Warm, start);
    hide Start, IsMultiple, KeyAt;
  }

  /** A warm window has at least two hot ones. */
  lemma TwoWindows(p: Plan, w: Key)
    requires p.Valid() && w.tier == Warm && AlignedIn(p, w)
    ensures w.start + p.hot + p.hot <= EndOf(p, w)
  {
    WindowAligned(p, w, Hot);
    WholeWindowFits(w.start, EndOf(p, w), p.hot);
    SelfMultiple(p.hot);
    SumMultiple(w.start, p.hot, p.hot);
    WholeWindowFits(w.start + p.hot, EndOf(p, w), p.hot);
  }

  lemma OnlyTwos(p: Plan, s: State, at: nat, start: nat, now: nat)
    requires p.Valid() && (forall k | k in s.rows :: s.rows[k].sketch == Single(2)) && s.clock == now
    requires KeyAt(p, Cold, start) == KeyAt(p, Cold, at) && EndOf(p, KeyAt(p, Cold, at)) > now
    ensures Gone(p, s, Entry(start, 1))
  {
  }

  // ------------------------------------------------ late below a rolled-up cold window

  /** The tables after a whole pass over one update: hot, warm and cold bucket. */
  function Three(k: Key, w: Key, c: Key): map<Key, Row> {
    map[k := Done(1), w := Done(1), c := Above(1)]
  }

  lemma ColdRollUp(p: Plan, k: Key, w: Key, c: Key, now: nat)
    requires p.Valid() && Nested(p, k, w, c) && EndOf(p, c) <= now
    ensures var a, b := Recorded(k, w, Rolling(now, Hot, None), now), Recorded(k, w, Rolling(now, Warm, None), now);
            var e := State(b.rows[c := Above(1)], {(w, k)}, Rolling(now, Warm, Some(Group(c, {w}))), now);
            var z := State(Three(k, w, c), {(w, k), (c, w)}, Rolling(now, Warm, None), now);
            && Enabled(p, a, NextTier) && Apply(p, a, NextTier) == b
            && Enabled(p, b, PersistParent(c)) && Apply(p, b, PersistParent(c)) == e
            && Enabled(p, e, MarkChildren) && Apply(p, e, MarkChildren) == z
  {
    var b := Recorded(k, w, Rolling(now, Warm, None), now);
    LoneParent(p, b.rows, w, 1);
    assert Waiting(p, b.rows, Warm, w, now);
    assert LinksTo(c, {w}) == {(c, w)};
    hide RolledUp, KeyAt, ParentOf, Children;
  }

  /** A second hot bucket appears, and a later pass begins. */
  lemma LateBelowCold(p: Plan, k: Key, late: Key, w: Key, c: Key, at: nat, now: nat, later: nat)
    requires p.Valid() && Nested(p, k, w, c) && Nested(p, late, w, c) && k != late && KeyAt(p, Hot, at) == late
    requires EndOf(p, c) <= now <= later
    ensures var links := {(w, k), (c, w)};
            var a := State(Three(k, w, c), links, Rolling(now, Warm, None), now);
            var b := State(Three(k, w, c)[late := Open(2)], links, Rolling(now, Warm, None), now);
            var z := State(Three(k, w, c)[late := Shut(2)], links, Rolling(later, Hot, None), later);
            && Accepted(p, a, at, 2) && Apply(p, a, Update(at, 2)) == b
            && Enabled(p, b.(phase := Idle), Begin(later)) && Apply(p, b.(phase := Idle), Begin(later)) == z
  {
    LateCounted(p, State(Three(k, w, c), {(w, k), (c, w)}, Rolling(now, Warm, None), now), late, at);
    LateSealed(p, k, late, w, c, later);
    hide Updated, Three, KeyAt, ParentOf, EndOf, SealedBy, Accepted;
  }

  lemma LateCounted(p: Plan, s: State, late: Key, at: nat)
    requires p.Valid() && late !in s.rows && KeyAt(p, Hot, at) == late
    ensures Accepted(p, s, at, 2) && Updated(p, s, at, 2) == s.(rows := s.rows[late := Open(2)])
  {
    SingleFits(p, 2);
    hide HD.Updated, KeyAt;
  }

  lemma LateSealed(p: Plan, k: Key, late: Key, w: Key, c: Key, later: nat)
    requires p.Valid() && Nested(p, k, w, c) && Nested(p, late, w, c) && k != late && EndOf(p, c) <= later
    ensures SealedBy(p, Three(k, w, c)[late := Open(2)], later) == Three(k, w, c)[late := Shut(2)]
  {
    hide KeyAt, ParentOf;
  }

  /** It is rolled up into the warm bucket, whose row stays marked as rolled up itself. */
  lemma LateMerges(p: Plan, k: Key, late: Key, w: Key, c: Key, later: nat) returns (row: Row)
    requires p.Valid() && Mild(p) && Nested(p, k, w, c) && Nested(p, late, w, c) && k != late && EndOf(p, c) <= later
    ensures row.sealed && row.rollup == VerifiedChild
    ensures var a := State(Three(k, w, c)[late := Shut(2)], {(w, k), (c, w)}, Rolling(later, Hot, None), later);
            var b := State(a.rows[w := row], a.rollups, Rolling(later, Hot, Some(Group(w, {k, late}))), later);
            Enabled(p, a, PersistParent(w)) && Apply(p, a, PersistParent(w)) == b
  {
    var a := State(Three(k, w, c)[late := Shut(2)], {(w, k), (c, w)}, Rolling(later, Hot, None), later);
    MildRollUp(p, a.rows, Hot, w.start, EndOf(p, w));
    row := a.rows[w].(sketch := RolledUp(p, a.rows, Hot, w.start, EndOf(p, w)).value);
    assert Waiting(p, a.rows, Hot, late, later);
    assert Children(p, a.rows, Hot, w) == {k, late};
    hide RolledUp, KeyAt, ParentOf, Children, HD.Canonical, Mild, Waiting;
  }

  lemma LateRecorded(p: Plan, k: Key, late: Key, w: Key, c: Key, row: Row, later: nat)
    requires Nested(p, k, w, c) && Nested(p, late, w, c) && k != late
    ensures var b := State(Three(k, w, c)[late := Shut(2)][w := row], {(w, k), (c, w)},
                           Rolling(later, Hot, Some(Group(w, {k, late}))), later);
            var z := State(map[k := Done(1), late := Done(2), w := row, c := Above(1)],
                           {(w, k), (c, w)} + {(w, late)}, Rolling(later, Hot, None), later);
            Enabled(p, b, MarkChildren) && Apply(p, b, MarkChildren) == z
  {
    assert LinksTo(w, {k, late}) == {(w, k), (w, late)};
    hide KeyAt, ParentOf;
  }

  lemma LateTiers(p: Plan, s: State, k: Key, late: Key, w: Key, c: Key, row: Row, later: nat)
    requires p.Valid() && row.sealed && row.rollup == VerifiedChild && k.tier == late.tier == Hot && w.tier == Warm
             && c.tier == Cold
    requires s.rows == map[k := Done(1), late := Done(2), w := row, c := Above(1)]
             && s.phase == Rolling(later, Hot, None)
    ensures var b, z := s.(phase := Rolling(later, Warm, None)), s.(phase := Expiring(later, Hot));
            && Enabled(p, s, NextTier) && Apply(p, s, NextTier) == b
            && Enabled(p, b, NextTier) && Apply(p, b, NextTier) == z
  {
  }

  lemma ExpireHot(p: Plan, rows: map<Key, Row>, links: set<(Key, Key)>, k: Key, w: Key, now: nat)
    requires k in rows && w in rows && rows[w].sealed && (w, k) in links && rows[k].rollup == VerifiedChild
             && k.tier != Cold
    requires EndOf(p, k) + Keep(p, k.tier) <= now
    ensures Enabled(p, State(rows, links, Expiring(now, k.tier), now), ExpireOne(k))
  {
    LinkedRow(State(rows, links, Expiring(now, k.tier), now), w, k);
    hide HasParentRow;
  }

  /** Hot and warm buckets expire; only the cold one is left. */
  lemma HotExpire(p: Plan, k: Key, late: Key, w: Key, c: Key, row: Row, later: nat)
    requires p.Valid() && Nested(p, k, w, c) && Nested(p, late, w, c) && k != late && row.sealed
             && row.rollup == VerifiedChild
    requires EndOf(p, w) + p.warmKeep <= later
    ensures var links := {(w, k), (c, w), (w, late)};
            var a := State(map[k := Done(1), late := Done(2), w := row, c := Above(1)], links, Expiring(later, Hot),
                later);
            var b := State(map[late := Done(2), w := row, c := Above(1)], {(c, w), (w, late)}, Expiring(later, Hot),
                later);
            var e := State(map[w := row, c := Above(1)], {(c, w)}, Expiring(later, Hot), later);
            && Enabled(p, a, ExpireOne(k)) && Apply(p, a, ExpireOne(k)) == b
            && Enabled(p, b, ExpireOne(late)) && Apply(p, b, ExpireOne(late)) == e
  {
    var links := {(w, k), (c, w), (w, late)};
    ExpireHot(p, map[k := Done(1), late := Done(2), w := row, c := Above(1)], links, k, w, later);
    ExpireHot(p, map[late := Done(2), w := row, c := Above(1)], {(c, w), (w, late)}, late, w, later);
    hide KeyAt, ParentOf, Enabled, EndOf;
  }

  lemma WarmExpire(p: Plan, w: Key, c: Key, row: Row, later: nat)
    requires p.Valid() && w.tier == Warm && c.tier == Cold && row.sealed && row.rollup == VerifiedChild
    requires EndOf(p, w) + p.warmKeep <= later
    ensures var e := State(map[w := row, c := Above(1)], {(c, w)}, Expiring(later, Hot), later);
            var f := e.(phase := Expiring(later, Warm));
            && Enabled(p, e, NextExpiry) && Apply(p, e, NextExpiry) == f
            && Enabled(p, f, ExpireOne(w))
                && Apply(p, f, ExpireOne(w)) == State(map[c := Above(1)], {}, Expiring(later, Warm), later)
  {
    ExpireHot(p, map[w := row, c := Above(1)], {(c, w)}, w, c, later);
    hide EndOf, Expirable;
  }

  lemma LinkedRow(s: State, q: Key, k: Key)
    requires (q, k) in s.rollups && q in s.rows && s.rows[q].sealed
    ensures HasParentRow(s, k)
  {
    var link := (q, k);
    assert link in s.rollups && link.1 == k && link.0 in s.rows && s.rows[link.0].sealed;
  }

  lemma UpToCold(p: Plan, first: seq<Step>, j: nat, k: Key, w: Key, c: Key, now: nat, h: seq<Entry>)
      returns (steps: seq<Step>)
    requires p.Valid() && Nested(p, k, w, c) && EndOf(p, c) <= now
    requires Reaches(p, first, j, Recorded(k, w, Rolling(now, Hot, None), now), h)
    ensures |steps| == |first| + 3
    ensures Reaches(p, steps, j, State(Three(k, w, c), {(w, k), (c, w)}, Rolling(now, Warm, None), now), h)
  {
    ColdRollUp(p, k, w, c, now);
    hide *;
    var b := Recorded(k, w, Rolling(now, Warm, None), now);
    Go(p, first, j, Recorded(k, w, Rolling(now, Hot, None), now), h, NextTier, b);
    steps := first + [NextTier];
    var e := State(b.rows[c := Above(1)], {(w, k)}, Rolling(now, Warm, Some(Group(c, {w}))), now);
    Go(p, steps, j, b, h, PersistParent(c), e);
    steps := steps + [PersistParent(c)];
    Go(p, steps, j, e, h, MarkChildren, State(Three(k, w, c), {(w, k), (c, w)}, Rolling(now, Warm, None), now));
    steps := steps + [MarkChildren];
  }

  /** From the late update to the roll-up of its bucket. */
  lemma AfterLate(p: Plan, first: seq<Step>, j: nat, k: Key, late: Key, w: Key, c: Key, at: nat, now: nat,
      later: nat, h: seq<Entry>)
    returns (steps: seq<Step>, row: Row)
    requires p.Valid() && Mild(p) && Nested(p, k, w, c) && Nested(p, late, w, c) && k != late
             && KeyAt(p, Hot, at) == late
    requires EndOf(p, c) <= now <= later
    requires Reaches(p, first, j, State(Three(k, w, c)[late := Open(2)], {(w, k), (c, w)}, Rolling(now, Warm, None),
             now), h)
    ensures first <= steps && row.sealed && row.rollup == VerifiedChild
    ensures Reaches(p, steps, j, State(map[k := Done(1), late := Done(2), w := row, c := Above(1)],
                                       {(w, k), (c, w), (w, late)}, Rolling(later, Hot, None), later), h)
  {
    LateBelowCold(p, k, late, w, c, at, now, later);
    row := LateMerges(p, k, late, w, c, later);
    LateRecorded(p, k, late, w, c, row, later);
    var links := {(w, k), (c, w)};
    assert links + {(w, late)} == {(w, k), (c, w), (w, late)};
    var a := State(Three(k, w, c)[late := Open(2)], links, Rolling(now, Warm, None), now);
    CrashStep(p, a);
    hide *;
    Go(p, first, j, a, h, Crash, a.(phase := Idle));
    steps := first + [Crash];
    var b := State(Three(k, w, c)[late := Shut(2)], links, Rolling(later, Hot, None), later);
    Go(p, steps, j, a.(phase := Idle), h, Begin(later), b);
    steps := steps + [Begin(later)];
    var e := State(b.rows[w := row], links, Rolling(later, Hot, Some(Group(w, {k, late}))), later);
    Go(p, steps, j, b, h, PersistParent(w), e);
    steps := steps + [PersistParent(w)];
    var z := State(map[k := Done(1), late := Done(2), w := row, c := Above(1)], links + {(w, late)},
        Rolling(later, Hot, None), later);
    Go(p, steps, j, e, h, MarkChildren, z);
    steps := steps + [MarkChildren];
  }

  /** From there to the end of its warm bucket. */
  lemma ToTheEnd(p: Plan, first: seq<Step>, j: nat, k: Key, late: Key, w: Key, c: Key, row: Row, later: nat,
      h: seq<Entry>)
    returns (steps: seq<Step>)
    requires p.Valid() && Nested(p, k, w, c) && Nested(p, late, w, c) && k != late && row.sealed
             && row.rollup == VerifiedChild
    requires EndOf(p, w) + p.warmKeep <= later
    requires Reaches(p, first, j, State(map[k := Done(1), late := Done(2), w := row, c := Above(1)],
                                        {(w, k), (c, w), (w, late)}, Rolling(later, Hot, None), later), h)
    ensures first <= steps
    ensures Reaches(p, steps, j, State(map[c := Above(1)], {}, Expiring(later, Warm), later), h)
  {
    var links := {(w, k), (c, w), (w, late)};
    var a := State(map[k := Done(1), late := Done(2), w := row, c := Above(1)], links, Rolling(later, Hot, None),
        later);
    LateTiers(p, a, k, late, w, c, row, later);
    HotExpire(p, k, late, w, c, row, later);
    assert w.tier == Warm && c.tier == Cold;
    WarmExpire(p, w, c, row, later);
    hide *;
    Go(p, first, j, a, h, NextTier, a.(phase := Rolling(later, Warm, None)));
    steps := first + [NextTier];
    Go(p, steps, j, a.(phase := Rolling(later, Warm, None)), h, NextTier, a.(phase := Expiring(later, Hot)));
    steps := steps + [NextTier];
    var b := State(map[late := Done(2), w := row, c := Above(1)], {(c, w), (w, late)}, Expiring(later, Hot), later);
    Go(p, steps, j, a.(phase := Expiring(later, Hot)), h, ExpireOne(k), b);
    steps := steps + [ExpireOne(k)];
    var e := State(map[w := row, c := Above(1)], {(c, w)}, Expiring(later, Hot), later);
    Go(p, steps, j, b, h, ExpireOne(late), e);
    steps := steps + [ExpireOne(late)];
    Go(p, steps, j, e, h, NextExpiry, e.(phase := Expiring(later, Warm)));
    steps := steps + [NextExpiry];
    var z := State(map[c := Above(1)], {}, Expiring(later, Warm), later);
    Go(p, steps, j, e.(phase := Expiring(later, Warm)), h, ExpireOne(w), z);
    steps := steps + [ExpireOne(w)];
  }

  lemma OnlyOne(p: Plan, s: State, at: nat)
    requires p.Valid() && s.rows == map[KeyAt(p, Cold, at) := Above(1)]
    requires EndOf(p, KeyAt(p, Cold, at)) + p.coldKeep > s.clock
    ensures Gone(p, s, Entry(at, 2))
  {
  }

  /** A late update below a cold window that has been rolled up reaches the warm bucket but
      never the cold one, and is gone when the warm bucket expires. */
  lemma LateNeverReachesCold(p: Plan, at: nat, now: nat) returns (steps: seq<Step>, j: nat)
    requires p.Valid() && Mild(p) && EndOf(p, KeyAt(p, Cold, at)) <= now < EndOf(p, KeyAt(p, Cold, at)) + p.coldKeep
    ensures Hits(p, steps, j, at, now)
    ensures |LogAfter(p, steps).history| == 2 && Gone(p, After(p, steps), LogAfter(p, steps).history[1])
  {
    var late, w, c := KeyAt(p, Hot, at), KeyAt(p, Warm, at), KeyAt(p, Cold, at);
    var start := if late.start == w.start then w.start + p.hot else w.start;
    var k := Key(Hot, start);
    var later := if now >= EndOf(p, w) + p.warmKeep then now else EndOf(p, w) + p.warmKeep;
    assert p.warmKeep < p.coldKeep;
    FirstOf(p, at, start);
    LateBelowCold(p, k, late, w, c, at, now, later);
    var z := State(map[c := Above(1)], {}, Expiring(later, Warm), later);
    assert EndOf(p, c) + p.coldKeep > later;
    OnlyOne(p, z, at);
    j := 7;
    hide *;
    var h, g := [Entry(k.start, 1)], [Entry(k.start, 1)] + [Entry(at, 2)];
    var before := FirstRollUp(p, k, w, c, now, j);
    before := UpToCold(p, before, j, k, w, c, now, h);
    var s := State(Three(k, w, c), {(w, k), (c, w)}, Rolling(now, Warm, None), now);
    EnabledUpdate(p, s, at);
    var t := State(Three(k, w, c)[late := Open(2)], {(w, k), (c, w)}, Rolling(now, Warm, None), now);
    Go(p, before, j, s, h, Update(at, 2), t);
    var middle, row := AfterLate(p, before + [Update(at, 2)], j, k, late, w, c, at, now, later, g);
    steps := ToTheEnd(p, middle, j, k, late, w, c, row, later, g);
    assert steps[..j] == before && steps[j] == Update(at, 2);
    HitsWhen(p, before, steps, at, 2, s, z, h, g);
    ReachesEnd(p, steps, j, z, g);
  }

  /** Conservation of every update of a run. */
  ghost predicate AllConserved(p: Plan, s: State, h: seq<Entry>) {
    forall i | 0 <= i < |h| ::
      || Retained(p, s, h, Hot, h[i]) || Retained(p, s, h, Warm, h[i]) || Retained(p, s, h, Cold, h[i])
      || EndOf(p, KeyAt(p, Cold, h[i].at)) + p.coldKeep <= s.clock
  }

  lemma GoneIsLost(p: Plan, s: State, h: seq<Entry>, i: nat)
    requires i < |h| && Gone(p, s, h[i])
    ensures !AllConserved(p, s, h)
  {
    hide KeyAt, DigestsIn, CountIn;
  }

  lemma HitIsTimely(p: Plan, steps: seq<Step>, j: nat, at: nat, now: nat)
    requires Hits(p, steps, j, at, now) && Timely(p, at, now)
    ensures IsTimely(p, steps)
  {
    hide IsRun, After, StateAt, Timely, Accepted;
    forall m | 0 <= m < |steps| ensures StepTimely(p, StateAt(p, steps, m), steps[m]) {
      if m != j { assert StepTimely(p, StateAt(p, steps, m), steps[m]); }
    }
  }

  /** The guard is exact. For an instant whose cold bucket is still due to be kept: whatever
      the rest of a run does in time, an update of that instant after a pass at `now` leaves
      every update conserved, if and only if it is in time. */
  lemma TimelyIsExact(p: Plan, at: nat, now: nat)
    requires p.Valid() && Mild(p) && now < EndOf(p, KeyAt(p, Cold, at)) + p.coldKeep
    ensures Timely(p, at, now)
            <==> forall steps, j | Hits(p, steps, j, at, now) ::
                AllConserved(p, After(p, steps), LogAfter(p, steps).history)
  {
    if Timely(p, at, now) {
      forall steps, j | Hits(p, steps, j, at, now)
          ensures AllConserved(p, After(p, steps), LogAfter(p, steps).history) {
        HitIsTimely(p, steps, j, at, now);
        forall i | 0 <= i < |LogAfter(p, steps).history| { UpdatesAreConserved(p, steps, i); }
      }
    } else if EndOf(p, KeyAt(p, Cold, at)) > now {
      var steps, j := LateChildOverwrites(p, at, now);
      GoneIsLost(p, After(p, steps), LogAfter(p, steps).history, 0);
      assert Hits(p, steps, j, at, now);
    } else {
      var steps, j := LateNeverReachesCold(p, at, now);
      GoneIsLost(p, After(p, steps), LogAfter(p, steps).history, 1);
      assert Hits(p, steps, j, at, now);
    }
    hide Timely, Retained, TimelyExcept, StateAt, Accepted, Gone, AllConserved;
  }
}
