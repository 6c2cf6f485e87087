/** How long buckets are kept, whatever the run: late updates, crashes and passes that end
    early included. Widths and retentions are those of the configuration, named by tier. */
module SketchRetention {
  import opened Wrappers
  import opened Buckets
  import HD = HybridDistinct
  import opened SketchTiers
  import opened SketchTiersInvariants
  import opened SketchTiersTheorems

  function WindowEnd(p: Plan, k: Key): nat {
    match k.tier
    case Hot => k.start + p.hot
    case Warm => k.start + p.warm
    case Cold => k.start + p.cold
  }

  /** The end of the bucket's retention lies ahead. */
  predicate WithinRetention(p: Plan, k: Key, now: nat) {
    match k.tier
    case Hot => k.start + p.hot + p.hotKeep > now
    case Warm => k.start + p.warm + p.warmKeep > now
    case Cold => k.start + p.cold + p.coldKeep > now
  }

  /** The window of the next tier, which the bucket is rolled up into, has not ended. */
  predicate NextWindowOpen(p: Plan, k: Key, now: nat)
    requires p.warm > 0 && p.cold > 0
  {
    match k.tier
    case Hot => k.start - k.start % p.warm + p.warm > now
    case Warm => k.start - k.start % p.cold + p.cold > now
    case Cold => false
  }

  /** Every bucket whose window has ended is sealed. */
  ghost predicate EndedSealed(p: Plan, rows: map<Key, Row>, now: nat) {
    forall k | k in rows && WindowEnd(p, k) <= now :: rows[k].sealed
  }

  /** `parent` is a window of the next tier around the window of `k`. */
  predicate Around(p: Plan, parent: Key, k: Key) {
    && ((k.tier == Hot && parent.tier == Warm) || (k.tier == Warm && parent.tier == Cold))
    && parent.start <= k.start && WindowEnd(p, k) <= WindowEnd(p, parent)
  }

  /** A running pass works at the instant it began; links and the group being rolled up
      join windows to those around them. */
  ghost predicate Kept(p: Plan, s: State) {
    && (!s.phase.Idle? ==> s.phase.at == s.clock)
    && (forall link | link in s.rollups :: Around(p, link.0, link.1))
    && (s.phase.Rolling? ==>
          && s.phase.child != Cold
          && (s.phase.unmarked.Some? ==>
                forall k | k in s.phase.unmarked.value.children ::
                  Around(p, s.phase.unmarked.value.parent, k) && k in s.rows && s.rows[k].sealed))
    && (forall k | k in s.rows :: ColumnsOk(p, k, s.rows[k], s.clock))
  }

  /** Only ended windows are sealed, and only sealed buckets rolled up; a bucket above the
      hot tier is made by a roll-up, and a cold one is not rolled up further. */
  predicate ColumnsOk(p: Plan, k: Key, row: Row, clock: nat) {
    && (row.sealed ==> WindowEnd(p, k) <= clock)
    && (row.rollup == VerifiedChild ==> row.sealed)
    && match k.tier
       case Hot => row.rollup != VerifiedParent
       case Warm => row.sealed && row.rollup != Unrolled
       case Cold => row.sealed && row.rollup == VerifiedParent
  }

  lemma PersistKept(p: Plan, s: State, parent: Key)
    requires Kept(p, s) && Enabled(p, s, PersistParent(parent))
    ensures Kept(p, Persisted(p, s, parent))
  {
    var k :| Waiting(p, s.rows, s.phase.child, k, s.phase.at) && ParentOf(p, k) == parent;
    assert parent.tier == Up(s.phase.child);
    hide RolledUp, KeyAt;
  }

  lemma StepKept(p: Plan, s: State, step: Step)
    requires Kept(p, s) && Enabled(p, s, step)
    ensures Kept(p, Apply(p, s, step))
  {
    hide Updated, Persisted, Waiting, Expirable, NoneWaiting, NoneExpirable;
    match step
    case Update(at, d) => UpdateKept(p, s, at, d);
    case PersistParent(parent) => PersistKept(p, s, parent);
    case _ =>
  }

  lemma UpdateKept(p: Plan, s: State, at: nat, d: HD.Digest)
    requires Kept(p, s)
    ensures Kept(p, Updated(p, s, at, d))
    ensures s.rows.Keys <= Updated(p, s, at, d).rows.Keys
  {
    assert KeyAt(p, Hot, at).tier == Hot;
    hide HD.Updated, KeyAt;
  }

  lemma {:induction false} RunKept(p: Plan, steps: seq<Step>)
    requires IsRun(p, steps)
    ensures Kept(p, After(p, steps))
  {
    if steps != [] {
      var n := |steps| - 1;
      LastState(p, steps, n);
      RunKept(p, steps[..n]);
      StepKept(p, After(p, steps[..n]), steps[n]);
      hide Kept, Apply, Enabled, StateAt;
    }
  }

  /** On any run, a step removes a bucket only when its retention is over; and below the cold
      tier only while the bucket of a window around it is there, and recorded as made from it. */
  lemma RemovedOnlyAfterRetention(p: Plan, steps: seq<Step>, step: Step, k: Key)
    requires IsRun(p, steps) && Enabled(p, After(p, steps), step)
    requires k in After(p, steps).rows && k !in Apply(p, After(p, steps), step).rows
    ensures var s := After(p, steps);
            && !WithinRetention(p, k, s.clock)
            && s.rows[k].sealed
            && (k.tier != Cold ==>
                  exists parent :: (parent, k) in s.rollups && parent in s.rows && s.rows[parent].sealed
                                   && Around(p, parent, k))
  {
    RunKept(p, steps);
    Removed(p, After(p, steps), step, k);
    hide After, Apply, Enabled, Kept;
  }

  /** The columns of every bucket, on any run. */
  lemma ColumnsOfRun(p: Plan, steps: seq<Step>, k: Key)
    requires IsRun(p, steps) && k in After(p, steps).rows
    ensures ColumnsOk(p, k, After(p, steps).rows[k], After(p, steps).clock)
  {
    RunKept(p, steps);
    hide After, ColumnsOk;
  }

  lemma Removed(p: Plan, s: State, step: Step, k: Key)
    requires Kept(p, s) && Enabled(p, s, step) && k in s.rows && k !in Apply(p, s, step).rows
    ensures !WithinRetention(p, k, s.clock) && s.rows[k].sealed
    ensures k.tier != Cold ==> exists parent :: (parent, k) in s.rollups && parent in s.rows && s.rows[parent].sealed
                                                && Around(p, parent, k)
  {
    if step.Update? { UpdateKept(p, s, step.at, step.digest); }
    assert step == ExpireOne(k);
    if k.tier != Cold {
      var link :| link in s.rollups && link.1 == k && link.0 in s.rows && s.rows[link.0].sealed;
      assert (link.0, k) in s.rollups && Around(p, link.0, k);
    }
  }

  // --------------------------------------------------------------------- in seconds

  lemma StartInSeconds(p: Plan, t: Tier, at: nat)
    requires p.Valid()
    ensures 0 < p.hot && 0 < p.warm && 0 < p.cold
    ensures KeyAt(p, t, at).tier == t
    ensures match t
            case Hot => KeyAt(p, t, at).start == at - at % p.hot
            case Warm => KeyAt(p, t, at).start == at - at % p.warm
            case Cold => KeyAt(p, t, at).start == at - at % p.cold
  {
    StartIsModulo(at, Width(p, t));
  }

  lemma BoundInSeconds(p: Plan, k: Key, now: nat)
    requires p.Valid()
    ensures EndOf(p, k) + Keep(p, k.tier) > now <==> WithinRetention(p, k, now)
    ensures k.tier != Cold ==> (EndOf(p, ParentOf(p, k)) > now <==> NextWindowOpen(p, k, now))
  {
    StartInSeconds(p, Warm, k.start);
    StartInSeconds(p, Cold, k.start);
    hide KeyAt;
  }

  /** The bucket of a tier that an instant falls into: its start is a multiple of the width. */
  predicate Covers(p: Plan, k: Key, at: nat)
    requires p.hot > 0 && p.warm > 0 && p.cold > 0
  {
    match k.tier
    case Hot => k.start == at - at % p.hot
    case Warm => k.start == at - at % p.warm
    case Cold => k.start == at - at % p.cold
  }

  /** An update of any instant, on any run, goes to the hot bucket of that instant and to no
      other row. It is refused if and only if that bucket is sealed, or is exact, would hold
      too many digests, and its estimate is off by more than a factor of two. */
  lemma UpdateReachesItsBucket(p: Plan, s: State, at: nat, d: HD.Digest)
    requires p.Valid()
    ensures var k, t := Key(Hot, at - at % p.hot), Apply(p, s, Update(at, d));
            var b := if k in s.rows then s.rows[k].sketch else HD.Sketch(HD.EXACT, {}, 0);
            var m := b.members + {d};
            && (!Accepted(p, s, at, d) <==>
                  || (k in s.rows && s.rows[k].sealed)
                  || (b.mode == HD.EXACT && HD.TooMany(p.sketch, m) && HD.FarOff(p.sketch, m)))
            && (!Accepted(p, s, at, d) ==> t == s)
            && (Accepted(p, s, at, d) ==>
                  && t == s.(rows := t.rows) && t.rows.Keys == s.rows.Keys + {k}
                  && (forall j | j in s.rows && j != k :: t.rows[j] == s.rows[j])
                  && !t.rows[k].sealed && t.rows[k].rollup == (if k in s.rows then s.rows[k].rollup else Unrolled)
                  && t.rows[k].sketch.updates == b.updates + 1
                  && (b.mode != HD.UNAVAILABLE ==> t.rows[k].sketch.members == m))
  {
    StartInSeconds(p, Hot, at);
    var k := KeyAt(p, Hot, at);
    var b := if k in s.rows then s.rows[k].sketch else HD.Empty;
    hide KeyAt;
    if b.mode == HD.EXACT { HD.UpdateInNumbers(p.sketch, b, d); }
    hide HD.Fits, HD.Plausible, HD.TooMany, HD.FarOff;
  }

  /** How many accepted updates fall into the window of a bucket. */
  function UpdatesIn(p: Plan, h: seq<Entry>, k: Key): nat {
    if h == [] then 0 else
      UpdatesIn(p, h[..|h| - 1], k) + if k.start <= h[|h| - 1].at < WindowEnd(p, k) then 1 else 0
  }

  lemma {:induction false} UpdatesInCount(p: Plan, h: seq<Entry>, k: Key)
    ensures UpdatesIn(p, h, k) == CountIn(h, k.start, WindowEnd(p, k))
  {
    if h != [] { UpdatesInCount(p, h[..|h| - 1], k); }
  }

  lemma {:induction false} DigestsInWindow(h: seq<Entry>, lo: nat, hi: nat, d: HD.Digest)
    ensures d in DigestsIn(h, lo, hi) <==> exists i :: 0 <= i < |h| && lo <= h[i].at < hi && h[i].digest == d
  {
    if h != [] {
      var n := |h| - 1;
      DigestsInWindow(h[..n], lo, hi, d);
      forall i | 0 <= i < n ensures h[..n][i] == h[i] {}
      if lo <= h[n].at < hi && h[n].digest == d { assert h[n].digest == d; }
      if i :| 0 <= i < |h| && lo <= h[i].at < hi && h[i].digest == d {
        assert i == n || h[..n][i].digest == d;
      }
    }
  }

  /** A bucket of the table that an update fell into and that tells exactly of the accepted
      updates of its window: how many they are and which digests they had, exactly so as long
      as these are few enough. */
  ghost predicate Tells(p: Plan, s: State, h: seq<Entry>, k: Key, at: nat)
    requires p.hot > 0 && p.warm > 0 && p.cold > 0
  {
    && k in s.rows && Covers(p, k, at)
    && var b := s.rows[k].sketch;
    && b.updates == UpdatesIn(p, h, k)
    && (forall d :: d in b.members
          <==> exists i :: 0 <= i < |h| && k.start <= h[i].at < WindowEnd(p, k) && h[i].digest == d)
    && (b.mode == HD.EXACT <==> |b.members| <= p.sketch.threshold && |b.members| * 48 <= p.sketch.bytes)
  }

  lemma RetainedTells(p: Plan, s: State, h: seq<Entry>, t: Tier, e: Entry)
    requires p.Valid() && Retained(p, s, h, t, e)
    ensures Tells(p, s, h, KeyAt(p, t, e.at), e.at)
  {
    var k := KeyAt(p, t, e.at);
    StartInSeconds(p, t, e.at);
    UpdatesInCount(p, h, k);
    hide KeyAt;
    forall d ensures d in s.rows[k].sketch.members
        <==> exists i :: 0 <= i < |h| && k.start <= h[i].at < WindowEnd(p, k) && h[i].digest == d {
      DigestsInWindow(h, k.start, WindowEnd(p, k), d);
    }
  }

  /** Where an accepted update is, in seconds: if all came in time, some bucket tells of it,
      unless the cold window it fell into ended a cold retention ago. */
  lemma WhereUpdatesAre(p: Plan, steps: seq<Step>, i: nat)
    requires p.Valid() && IsRun(p, steps) && IsTimely(p, steps) && i < |LogAfter(p, steps).history|
    ensures var s, h := After(p, steps), LogAfter(p, steps).history;
            || (exists k :: Tells(p, s, h, k, h[i].at))
            || h[i].at - h[i].at % p.cold + p.cold + p.coldKeep <= s.clock
  {
    UpdatesAreConserved(p, steps, i);
    var s, h := After(p, steps), LogAfter(p, steps).history;
    hide IsRun, IsTimely, After, LogAfter, Tells;
    StartInSeconds(p, Cold, h[i].at);
    if Retained(p, s, h, Hot, h[i]) { RetainedTells(p, s, h, Hot, h[i]); }
    if Retained(p, s, h, Warm, h[i]) { RetainedTells(p, s, h, Warm, h[i]); }
    if Retained(p, s, h, Cold, h[i]) { RetainedTells(p, s, h, Cold, h[i]); }
  }
}
