/** What every transaction of the sketch tiers keeps. */
module SketchTiersInvariants {
  import opened Wrappers
  import opened Buckets
  import HD = HybridDistinct
  import opened SketchTiers

  // -------------------------------------------------------------------- windows

  lemma WidthPositive(p: Plan, t: Tier)
    requires p.Valid()
    ensures Width(p, t) > 0 && Keep(p, t) > 0
  {
  }

  lemma WidthsDivide(p: Plan, t: Tier)
    requires p.Valid() && t != Cold
    ensures Width(p, t) > 0 && Width(p, Up(t)) > 0 && IsMultiple(Width(p, Up(t)), Width(p, t))
            && Width(p, t) < Width(p, Up(t)) && Keep(p, t) < Keep(p, Up(t))
  {
  }

  predicate Aligned(p: Plan, k: Key)
    requires Width(p, k.tier) > 0
  {
    IsMultiple(k.start, Width(p, k.tier))
  }

  /** The bucket of an instant, and its parent bucket. */
  lemma KeyAtNests(p: Plan, t: Tier, at: nat)
    requires p.Valid()
    ensures var k := KeyAt(p, t, at);
            && Width(p, t) > 0 && Aligned(p, k) && k.start <= at < EndOf(p, k)
            && (t != Cold ==> ParentOf(p, k) == KeyAt(p, Up(t), at))
  {
    WidthPositive(p, t);
    StartBelow(at, Width(p, t));
    if t != Cold {
      WidthsDivide(p, t);
      ChildInParent(at, Width(p, t), Width(p, Up(t)));
    }
  }

  lemma KeyAtUnique(p: Plan, k: Key, at: nat)
    requires p.Valid() && Width(p, k.tier) > 0 && Aligned(p, k) && k.start <= at < EndOf(p, k)
    ensures KeyAt(p, k.tier, at) == k
  {
    StartIsUnique(at, Width(p, k.tier), k.start);
  }

  /** A bucket lies inside its parent. */
  lemma ParentContains(p: Plan, k: Key)
    requires p.Valid() && k.tier != Cold && Width(p, k.tier) > 0 && Aligned(p, k)
    ensures var q := ParentOf(p, k);
            && q.tier == Up(k.tier) && Width(p, q.tier) > 0 && Aligned(p, q)
            && q.start <= k.start && EndOf(p, k) <= EndOf(p, q)
  {
    WidthsDivide(p, k.tier);
    KeyAtNests(p, k.tier, k.start);
    KeyAtUnique(p, k, k.start);
    ChildInParent(k.start, Width(p, k.tier), Width(p, Up(k.tier)));
    KeyAtNests(p, Up(k.tier), k.start);
  }

  /** And in no other aligned window of the parent tier. */
  lemma ParentIsUnique(p: Plan, k: Key, q: Key)
    requires p.Valid() && k.tier != Cold && Width(p, k.tier) > 0 && Aligned(p, k)
    requires q.tier == Up(k.tier) && Width(p, q.tier) > 0 && Aligned(p, q) && q.start <= k.start
             && EndOf(p, k) <= EndOf(p, q)
    ensures ParentOf(p, k) == q
  {
    KeyAtUnique(p, q, k.start);
  }

  // -------------------------------------------------------------------- history

  lemma {:induction false} InAdjacent(h: seq<Entry>, lo: nat, mid: nat, hi: nat)
    requires lo <= mid <= hi
    ensures CountIn(h, lo, hi) == CountIn(h, lo, mid) + CountIn(h, mid, hi)
    ensures DigestsIn(h, lo, hi) == DigestsIn(h, lo, mid) + DigestsIn(h, mid, hi)
  {
    if h != [] {
      InAdjacent(h[..|h| - 1], lo, mid, hi);
    }
  }

  lemma {:induction false} EmptyWindow(h: seq<Entry>, lo: nat, hi: nat)
    requires CountIn(h, lo, hi) == 0
    ensures DigestsIn(h, lo, hi) == {}
  {
    if h != [] {
      EmptyWindow(h[..|h| - 1], lo, hi);
    }
  }

  lemma {:induction false} NoWidth(h: seq<Entry>, lo: nat)
    ensures CountIn(h, lo, lo) == 0
  {
    if h != [] {
      NoWidth(h[..|h| - 1], lo);
    }
  }

  lemma {:induction false} SomeEntry(h: seq<Entry>, lo: nat, hi: nat) returns (i: nat)
    requires CountIn(h, lo, hi) > 0
    ensures i < |h| && lo <= h[i].at < hi
  {
    var n := |h| - 1;
    if lo <= h[n].at < hi {
      i := n;
    } else {
      i := SomeEntry(h[..n], lo, hi);
    }
  }

  lemma {:induction false} EntryCounted(h: seq<Entry>, lo: nat, hi: nat, i: nat)
    requires i < |h| && lo <= h[i].at < hi
    ensures h[i].digest in DigestsIn(h, lo, hi) && CountIn(h, lo, hi) > 0
  {
    if i < |h| - 1 {
      EntryCounted(h[..|h| - 1], lo, hi, i);
    }
  }

  lemma WholeGrows(p: Plan, h: seq<Entry>, e: Entry, lo: nat, hi: nat)
    ensures !(lo <= e.at < hi) ==> Whole(p, h + [e], lo, hi) == Whole(p, h, lo, hi)
    ensures lo <= e.at < hi ==> CountIn(h + [e], lo, hi) == CountIn(h, lo, hi) + 1
                                && DigestsIn(h + [e], lo, hi) == DigestsIn(h, lo, hi) + {e.digest}
  {
    assert (h + [e])[..|h|] == h;
    hide HD.CanonicalMode;
  }

  // ------------------------------------------------------------------ invariants

  /** A row stands for exactly the updates of its window, unless it is stale; sealed windows
      have ended. */
  ghost predicate RowOk(p: Plan, g: Log, clock: nat, k: Key, row: Row) {
    && Width(p, k.tier) > 0 && Aligned(p, k)
    && (k !in g.stale ==> row.sketch == Whole(p, g.history, k.start, EndOf(p, k)))
    && (row.sealed ==> EndOf(p, k) <= clock)
    && (k.tier != Hot ==> row.sealed)
    && (row.rollup == VerifiedChild ==> row.sealed && k.tier != Cold)
  }

  ghost predicate RowsOk(p: Plan, s: State, g: Log) {
    forall k | k in s.rows :: RowOk(p, g, s.clock, k, s.rows[k])
  }

  /** Hot bucket `j` is not in its warm bucket `w`, or not since its last update. */
  predicate Dirty(p: Plan, rows: map<Key, Row>, w: Key, j: Key) {
    j in rows && j.tier == Hot && rows[j].rollup != VerifiedChild && ParentOf(p, j) == w
  }

  ghost predicate Clean(p: Plan, rows: map<Key, Row>, w: Key) {
    forall j | j in rows :: !Dirty(p, rows, w, j)
  }

  /** Only warm buckets are stale, and a hot bucket will bring each up to date. */
  ghost predicate StaleOk(p: Plan, rows: map<Key, Row>, stale: set<Key>) {
    forall w | w in stale :: w.tier == Warm && !Clean(p, rows, w)
  }

  /** A verified row has a parent row, linked, whose roll-up is recorded; a warm row is
      verified exactly then. A hot row that is not verified has no recorded roll-up two
      tiers up. */
  ghost predicate Linked(p: Plan, s: State, marked: set<Key>, k: Key)
    requires k in s.rows
  {
    k.tier != Cold ==>
      && (s.rows[k].rollup == VerifiedChild ==>
            ParentOf(p, k) in marked && (ParentOf(p, k), k) in s.rollups && ParentOf(p, k) in s.rows)
      && (k.tier == Warm && ParentOf(p, k) in marked ==> s.rows[k].rollup == VerifiedChild)
      && (k.tier == Hot && s.rows[k].rollup != VerifiedChild ==> ParentOf(p, ParentOf(p, k)) !in marked)
  }

  ghost predicate AllLinked(p: Plan, s: State, marked: set<Key>) {
    forall k | k in s.rows :: Linked(p, s, marked, k)
  }

  /** An update is in its hot bucket; or that bucket is past its retention, the roll-up of
      the warm window is recorded, and every hot bucket left of it is in the warm bucket. */
  ghost predicate HotKept(p: Plan, s: State, marked: set<Key>, at: nat) {
    var hot, warm := KeyAt(p, Hot, at), KeyAt(p, Warm, at);
    hot in s.rows || (warm in marked && EndOf(p, hot) + p.hotKeep <= s.clock && Clean(p, s.rows, warm))
  }

  ghost predicate AllHotKept(p: Plan, s: State, g: Log) {
    forall i | 0 <= i < |g.history| :: HotKept(p, s, g.marked, g.history[i].at)
  }

  /** A recorded parent is retained, or its own parent is recorded, or it is a cold
      bucket past its retention. */
  ghost predicate MarkOk(p: Plan, rows: map<Key, Row>, marked: set<Key>, clock: nat, k: Key) {
    && k.tier != Hot && EndOf(p, k) <= clock
    && (k in rows || (if k.tier == Warm then ParentOf(p, k) in marked else EndOf(p, k) + p.coldKeep <= clock))
  }

  ghost predicate MarksOk(p: Plan, s: State, marked: set<Key>) {
    forall k | k in marked :: MarkOk(p, s.rows, marked, s.clock, k)
  }

  /** A bucket that is open while a pass runs got its updates in time. */
  ghost predicate OpenInTime(p: Plan, rows: map<Key, Row>, clock: nat) {
    forall k | k in rows && !rows[k].sealed :: Timely(p, k.start, clock)
  }

  ghost predicate GroupOk(p: Plan, rows: map<Key, Row>, stale: set<Key>, child: Tier, now: nat, g: Group) {
    && g.parent.tier == Up(child) && EndOf(p, g.parent) <= now
    && Width(p, g.parent.tier) > 0 && Aligned(p, g.parent)
    && g.parent in rows && g.children == Children(p, rows, child, g.parent)
    && (g.parent in stale ==> HasUnsealed(p, rows, g.parent))
  }

  ghost predicate PhaseOk(p: Plan, s: State, stale: set<Key>) {
    match s.phase
    case Idle => true
    case Rolling(at, child, unmarked) =>
      && at == s.clock && child != Cold && OpenInTime(p, s.rows, at)
      && (child == Warm ==> NoneWaiting(p, s.rows, Hot, at))
      && (unmarked.Some? ==> GroupOk(p, s.rows, stale, child, at, unmarked.value))
    case Expiring(at, tier) =>
      && at == s.clock && OpenInTime(p, s.rows, at)
      && NoneWaiting(p, s.rows, Hot, at) && NoneWaiting(p, s.rows, Warm, at)
      && (tier != Hot ==> NoneExpirable(p, s, Hot, at))
      && (tier == Cold ==> NoneExpirable(p, s, Warm, at))
  }

  ghost predicate Inv(p: Plan, s: State, g: Log) {
    && RowsOk(p, s, g)
    && AllLinked(p, s, g.marked)
    && StaleOk(p, s.rows, g.stale)
    && AllHotKept(p, s, g)
    && MarksOk(p, s, g.marked)
    && PhaseOk(p, s, g.stale)
  }

  // ------------------------------------------------------------- late and in time

  /** What the clock has not passed is in time. */
  lemma PunctualIsTimely(p: Plan, at: nat, clock: nat)
    requires p.Valid() && at >= clock
    ensures Timely(p, at, clock)
  {
    KeyAtNests(p, Warm, at);
    KeyAtNests(p, Cold, at);
  }

  /** Only the windows count. */
  lemma TimelyByWindow(p: Plan, at: nat, clock: nat)
    requires p.Valid()
    ensures Timely(p, KeyAt(p, Hot, at).start, clock) == Timely(p, at, clock)
  {
    KeyAtNests(p, Hot, at);
    KeyAtNests(p, Warm, at);
    var hot, warm := KeyAt(p, Hot, at), KeyAt(p, Warm, at);
    ParentContains(p, hot);
    KeyAtNests(p, Warm, hot.start);
  }

  /** None of the hot buckets of a window that may still be updated has expired. */
  lemma NoneExpired(p: Plan, at: nat, late: nat, clock: nat)
    requires p.Valid() && Timely(p, late, clock) && KeyAt(p, Warm, at) == KeyAt(p, Warm, late)
    ensures EndOf(p, KeyAt(p, Warm, at)) > clock || EndOf(p, KeyAt(p, Hot, at)) + p.hotKeep > clock
  {
    KeyAtNests(p, Hot, at);
    ParentContains(p, KeyAt(p, Hot, at));
  }

  // ---------------------------------------------------------------------- update

  lemma RowAt(p: Plan, s: State, g: Log, k: Key)
    requires RowsOk(p, s, g) && AllLinked(p, s, g.marked) && k in s.rows
    ensures RowOk(p, g, s.clock, k, s.rows[k]) && Linked(p, s, g.marked, k)
  {
  }

  /** No update of the present or later is refused: its bucket is never sealed. */
  lemma NeverRefused(p: Plan, s: State, g: Log, at: nat)
    requires p.Valid() && Inv(p, s, g) && at >= s.clock
    ensures var k := KeyAt(p, Hot, at); k in s.rows ==> !s.rows[k].sealed && s.rows[k].rollup != VerifiedChild
  {
    var k := KeyAt(p, Hot, at);
    KeyAtNests(p, Hot, at);
    if k in s.rows { RowAt(p, s, g, k); }
  }

  lemma HotIn(p: Plan, s: State, g: Log, i: nat)
    requires Inv(p, s, g) && i < |g.history|
    ensures HotKept(p, s, g.marked, g.history[i].at)
  {
  }

  /** A window with an open or waiting hot bucket still has all of them. */
  lemma DirtyHasAll(p: Plan, s: State, g: Log, k: Key, j: Key)
    requires p.Valid() && Inv(p, s, g) && k.tier == Hot && Width(p, Hot) > 0 && Aligned(p, k) && k !in s.rows
    requires Dirty(p, s.rows, ParentOf(p, k), j)
    ensures CountIn(g.history, k.start, EndOf(p, k)) == 0
  {
    if CountIn(g.history, k.start, EndOf(p, k)) > 0 {
      var i := SomeEntry(g.history, k.start, EndOf(p, k));
      var at := g.history[i].at;
      KeyAtUnique(p, k, at);
      KeyAtNests(p, Hot, at);
      HotIn(p, s, g, i);
      assert false;
    }
  }

  /** A bucket that an update in time creates had none before. */
  lemma NoEntryYet(p: Plan, s: State, g: Log, at: nat)
    requires p.Valid() && Inv(p, s, g) && Timely(p, at, s.clock) && KeyAt(p, Hot, at) !in s.rows
    ensures var k := KeyAt(p, Hot, at); Whole(p, g.history, k.start, EndOf(p, k)) == HD.Empty
  {
    var k := KeyAt(p, Hot, at);
    KeyAtNests(p, Hot, at);
    if CountIn(g.history, k.start, EndOf(p, k)) > 0 {
      var i := SomeEntry(g.history, k.start, EndOf(p, k));
      KeyAtUnique(p, k, g.history[i].at);
      KeyAtNests(p, Hot, g.history[i].at);
      HotIn(p, s, g, i);
      NoneExpired(p, g.history[i].at, at, s.clock);
      assert false;
    }
    EmptyWindow(g.history, k.start, EndOf(p, k));
  }

  /** The row an accepted update writes. */
  function UpdatedRow(p: Plan, s: State, at: nat, d: HD.Digest): Row {
    var k := KeyAt(p, Hot, at);
    var row := if k in s.rows then s.rows[k] else Row(false, Unrolled, HD.Empty);
    row.(sketch := HD.Updated(p.sketch, row.sketch, d).sketch)
  }

  /** The log an accepted update leaves. */
  function UpdatedLog(p: Plan, s: State, g: Log, at: nat, d: HD.Digest): Log {
    var warm := KeyAt(p, Warm, at);
    g.(history := g.history + [Entry(at, d)], stale := if warm in s.rows then g.stale + {warm} else g.stale)
  }

  lemma UpdatedState(p: Plan, s: State, g: Log, at: nat, d: HD.Digest)
    requires Accepted(p, s, at, d)
    ensures Updated(p, s, at, d) == s.(rows := s.rows[KeyAt(p, Hot, at) := UpdatedRow(p, s, at, d)])
    ensures Logged(p, s, g, Update(at, d)) == UpdatedLog(p, s, g, at, d)
  {
    hide HD.Updated;
  }

  lemma UpdatedRowOk(p: Plan, s: State, g: Log, at: nat, d: HD.Digest)
    requires p.Valid() && Inv(p, s, g) && Timely(p, at, s.clock) && Accepted(p, s, at, d)
    ensures var k := KeyAt(p, Hot, at);
            && RowOk(p, UpdatedLog(p, s, g, at, d), s.clock, k, UpdatedRow(p, s, at, d))
            && !UpdatedRow(p, s, at, d).sealed && UpdatedRow(p, s, at, d).rollup != VerifiedChild
  {
    var k, h := KeyAt(p, Hot, at), g.history;
    KeyAtNests(p, Hot, at);
    if k !in s.rows { NoEntryYet(p, s, g, at); } else { RowAt(p, s, g, k); }
    assert k !in g.stale by { HotNotStale(p, s, g, k); }
    var before := Whole(p, h, k.start, EndOf(p, k));
    assert (if k in s.rows then s.rows[k].sketch else HD.Empty) == before;
    HD.UpdateCanonical(p.sketch, before, d);
    WholeGrows(p, h, Entry(at, d), k.start, EndOf(p, k));
    hide HD.Updated, HD.CanonicalMode, DigestsIn, CountIn, Inv, EndOf, Timely, Accepted;
  }

  lemma HotNotStale(p: Plan, s: State, g: Log, k: Key)
    requires Inv(p, s, g) && k.tier != Warm
    ensures k !in g.stale
  {
  }

  /** Another row stands for the same updates as before; the warm row of the update does
      not, and there is no cold row of it. */
  lemma RowOkLater(p: Plan, s: State, g: Log, at: nat, d: HD.Digest, k: Key)
    requires p.Valid() && Inv(p, s, g) && Timely(p, at, s.clock) && k in s.rows && k != KeyAt(p, Hot, at)
    ensures RowOk(p, UpdatedLog(p, s, g, at, d), s.clock, k, s.rows[k])
  {
    RowAt(p, s, g, k);
    if k.start <= at < EndOf(p, k) { KeyAtUnique(p, k, at); }
    WholeGrows(p, g.history, Entry(at, d), k.start, EndOf(p, k));
    hide Whole, Inv;
  }

  lemma UpdateRows(p: Plan, s: State, g: Log, at: nat, d: HD.Digest)
    requires p.Valid() && Inv(p, s, g) && Timely(p, at, s.clock) && Accepted(p, s, at, d)
    ensures RowsOk(p, s.(rows := s.rows[KeyAt(p, Hot, at) := UpdatedRow(p, s, at, d)]), UpdatedLog(p, s, g, at, d))
  {
    UpdatedRowOk(p, s, g, at, d);
    hide Inv, RowOk, UpdatedRow, UpdatedLog, Accepted, KeyAt;
    forall k | k in s.rows && k != KeyAt(p, Hot, at)
        ensures RowOk(p, UpdatedLog(p, s, g, at, d), s.clock, k, s.rows[k]) {
      RowOkLater(p, s, g, at, d, k);
    }
  }

  lemma UpdateLinks(p: Plan, s: State, g: Log, at: nat, row: Row)
    requires p.Valid() && Inv(p, s, g) && Timely(p, at, s.clock) && row.rollup != VerifiedChild
    ensures AllLinked(p, s.(rows := s.rows[KeyAt(p, Hot, at) := row]), g.marked)
  {
    var k := KeyAt(p, Hot, at);
    var t := s.(rows := s.rows[k := row]);
    assert KeyAt(p, Cold, at) !in g.marked;
    KeyAtNests(p, Hot, at);
    KeyAtNests(p, Warm, at);
    hide Inv, KeyAt, ParentOf;
    forall j | j in t.rows ensures Linked(p, t, g.marked, j) {
      if j != k { LinkOf(p, s, g, j); }
    }
  }

  lemma LinkOf(p: Plan, s: State, g: Log, k: Key)
    requires Inv(p, s, g) && k in s.rows
    ensures Linked(p, s, g.marked, k)
  {
  }

  lemma UpdateStale(p: Plan, s: State, g: Log, at: nat, d: HD.Digest, row: Row)
    requires p.Valid() && Inv(p, s, g) && row.rollup != VerifiedChild
    requires KeyAt(p, Hot, at) in s.rows ==> s.rows[KeyAt(p, Hot, at)].rollup != VerifiedChild
    ensures StaleOk(p, s.rows[KeyAt(p, Hot, at) := row], UpdatedLog(p, s, g, at, d).stale)
  {
    var k := KeyAt(p, Hot, at);
    var after := s.rows[k := row];
    KeyAtNests(p, Hot, at);
    assert KeyAt(p, Warm, at).tier == Warm && k.tier == Hot;
    hide RowsOk, AllLinked, AllHotKept, MarksOk, PhaseOk, KeyAt, ParentOf;
    assert Dirty(p, after, KeyAt(p, Warm, at), k);
    forall w | w in g.stale ensures !Clean(p, after, w) {
      var j :| j in s.rows && Dirty(p, s.rows, w, j);
      assert Dirty(p, after, w, j);
    }
  }

  lemma UpdateKept(p: Plan, s: State, g: Log, at: nat, d: HD.Digest, row: Row)
    requires p.Valid() && Inv(p, s, g) && Timely(p, at, s.clock)
    ensures var t, h := s.(rows := s.rows[KeyAt(p, Hot, at) := row]), UpdatedLog(p, s, g, at, d);
            AllHotKept(p, t, h) && MarksOk(p, t, h.marked)
  {
    var t, h := s.(rows := s.rows[KeyAt(p, Hot, at) := row]), UpdatedLog(p, s, g, at, d);
    forall i | 0 <= i < |h.history| ensures HotKept(p, t, h.marked, h.history[i].at) {
      if i < |g.history| { StillKept(p, s, g, at, row, i); }
    }
    hide RowsOk, AllLinked, PhaseOk, StaleOk, KeyAt, ParentOf;
  }

  lemma StillKept(p: Plan, s: State, g: Log, at: nat, row: Row, i: nat)
    requires p.Valid() && Inv(p, s, g) && Timely(p, at, s.clock) && i < |g.history|
    ensures HotKept(p, s.(rows := s.rows[KeyAt(p, Hot, at) := row]), g.marked, g.history[i].at)
  {
    var k, past := KeyAt(p, Hot, at), g.history[i].at;
    var after := s.rows[k := row];
    HotIn(p, s, g, i);
    KeyAtNests(p, Hot, at);
    if KeyAt(p, Hot, past) !in s.rows {
      var warm := KeyAt(p, Warm, past);
      assert MarkOk(p, s.rows, g.marked, s.clock, warm);
      if warm == KeyAt(p, Warm, at) {
        NoneExpired(p, past, at, s.clock);
        assert false;
      }
      forall j | j in after ensures !Dirty(p, after, warm, j) {
        assert j != k ==> !Dirty(p, s.rows, warm, j);
      }
    }
    hide Inv;
  }

  lemma ExpirableSame(p: Plan, s: State, t: State)
    requires t.rows == s.rows && t.rollups == s.rollups
    ensures forall tier, now | NoneExpirable(p, s, tier, now) :: NoneExpirable(p, t, tier, now)
  {
    forall tier, now | NoneExpirable(p, s, tier, now) ensures NoneExpirable(p, t, tier, now) {
      forall k | k in t.rows && k.tier == tier ensures !Expirable(p, t, k, now) {
        assert !Expirable(p, s, k, now);
      }
    }
  }

  lemma LinkedSame(p: Plan, s: State, t: State, marked: set<Key>)
    requires AllLinked(p, s, marked) && t.rows == s.rows && t.rollups == s.rollups
    ensures AllLinked(p, t, marked)
  {
    forall k | k in t.rows ensures Linked(p, t, marked, k) {
      assert Linked(p, s, marked, k);
    }
  }

  lemma UpdatePhase(p: Plan, s: State, g: Log, at: nat, d: HD.Digest, row: Row)
    requires p.Valid() && Inv(p, s, g) && Timely(p, at, s.clock) && !row.sealed && row.rollup != VerifiedChild
    requires KeyAt(p, Hot, at) in s.rows ==> !s.rows[KeyAt(p, Hot, at)].sealed
    ensures PhaseOk(p, s.(rows := s.rows[KeyAt(p, Hot, at) := row]), UpdatedLog(p, s, g, at, d).stale)
  {
    var k := KeyAt(p, Hot, at);
    var t := s.(rows := s.rows[k := row]);
    KeyAtNests(p, Hot, at);
    TimelyByWindow(p, at, s.clock);
    hide RowsOk, AllLinked, AllHotKept, MarksOk, StaleOk, KeyAt, ParentOf, NoneWaiting, NoneExpirable, EndOf, Timely,
        GroupOk;
    UnsealedIsIdle(p, s, t, k);
    if s.phase.Rolling? && s.phase.unmarked.Some? {
      UpdateGroup(p, s, g, at, d, row, s.phase.child, s.phase.at, s.phase.unmarked.value);
    }
  }

  lemma UpdateGroup(p: Plan, s: State, g: Log, at: nat, d: HD.Digest, row: Row, child: Tier, now: nat, group: Group)
    requires p.Valid() && GroupOk(p, s.rows, g.stale, child, now, group) && !row.sealed
    requires KeyAt(p, Hot, at) in s.rows ==> !s.rows[KeyAt(p, Hot, at)].sealed
    ensures GroupOk(p, s.rows[KeyAt(p, Hot, at) := row], UpdatedLog(p, s, g, at, d).stale, child, now, group)
  {
    var k := KeyAt(p, Hot, at);
    KeyAtNests(p, Hot, at);
    hide KeyAt, ParentOf, Children, HasUnsealed, EndOf;
    UnsealedNoChild(p, s.rows, s.rows[k := row], k);
    StillOpen(p, s.rows, row, k);
  }

  lemma StillOpen(p: Plan, rows: map<Key, Row>, row: Row, k: Key)
    requires k.tier == Hot && !row.sealed
    ensures HasUnsealed(p, rows[k := row], ParentOf(p, k))
    ensures forall w | HasUnsealed(p, rows, w) :: HasUnsealed(p, rows[k := row], w)
  {
    var after := rows[k := row];
    hide ParentOf;
    assert k in after;
    forall w | HasUnsealed(p, rows, w) ensures HasUnsealed(p, after, w) {
      var j :| j in rows && j.tier == Hot && !rows[j].sealed && ParentOf(p, j) == w;
      assert j in after && !after[j].sealed;
    }
  }

  lemma UnsealedNoChild(p: Plan, rows: map<Key, Row>, after: map<Key, Row>, k: Key)
    requires after.Keys == rows.Keys + {k} && forall j | j in rows && j != k :: after[j] == rows[j]
    requires (k in rows ==> !rows[k].sealed) && !after[k].sealed
    ensures forall child, parent :: Children(p, after, child, parent) == Children(p, rows, child, parent)
  {
  }

  /** An unsealed hot row neither waits for a roll-up nor can expire another row. */
  lemma UnsealedIsIdle(p: Plan, s: State, t: State, k: Key)
    requires t.rows.Keys == s.rows.Keys + {k} && t.rollups == s.rollups && (k in s.rows ==> !s.rows[k].sealed)
             && !t.rows[k].sealed
    requires forall j | j in s.rows && j != k :: t.rows[j] == s.rows[j]
    requires k.tier == Hot && t.rows[k].rollup != VerifiedChild
    ensures forall c, now | NoneWaiting(p, s.rows, c, now) :: NoneWaiting(p, t.rows, c, now)
    ensures forall c, now | NoneExpirable(p, s, c, now) :: NoneExpirable(p, t, c, now)
  {
    forall c, now | NoneWaiting(p, s.rows, c, now) ensures NoneWaiting(p, t.rows, c, now) {
      forall j | j in t.rows ensures !Waiting(p, t.rows, c, j, now) {
        if j != k { assert !Waiting(p, s.rows, c, j, now); }
      }
    }
    forall c, now | NoneExpirable(p, s, c, now) ensures NoneExpirable(p, t, c, now) {
      forall j | j in t.rows && j.tier == c ensures !Expirable(p, t, j, now) {
        if j != k {
          assert !Expirable(p, s, j, now);
          if HasParentRow(t, j) {
            var link :| link in t.rollups && link.1 == j && link.0 in t.rows && t.rows[link.0].sealed;
            assert link.0 != k;
            assert link in s.rollups && link.0 in s.rows && s.rows[link.0].sealed;
          }
        }
      }
    }
  }

  /** An accepted update in time keeps the invariant; a refused one changes nothing. */
  lemma UpdateKeeps(p: Plan, s: State, g: Log, at: nat, d: HD.Digest)
    requires p.Valid() && Inv(p, s, g) && (Accepted(p, s, at, d) ==> Timely(p, at, s.clock))
    ensures Inv(p, Updated(p, s, at, d), Logged(p, s, g, Update(at, d)))
    ensures !Accepted(p, s, at, d) ==> Updated(p, s, at, d) == s && Logged(p, s, g, Update(at, d)) == g
  {
    if Accepted(p, s, at, d) {
      var k, row := KeyAt(p, Hot, at), UpdatedRow(p, s, at, d);
      UpdatedState(p, s, g, at, d);
      UpdatedRowOk(p, s, g, at, d);
      if k in s.rows { RowAt(p, s, g, k); }
      UpdateRows(p, s, g, at, d);
      UpdateLinks(p, s, g, at, row);
      UpdateStale(p, s, g, at, d, row);
      UpdatePhase(p, s, g, at, d, row);
      UpdateKept(p, s, g, at, d, row);
      hide RowsOk, AllLinked, AllHotKept, MarksOk, PhaseOk, StaleOk, KeyAt, UpdatedRow, Updated, RowOk, Logged;
    } else {
      hide Inv, HD.Updated, KeyAt;
    }
  }

  // ----------------------------------------------------------------------- begin

  lemma BeginKeeps(p: Plan, s: State, g: Log, now: nat)
    requires p.Valid() && Inv(p, s, g) && now >= s.clock
    ensures Inv(p, Apply(p, s, Begin(now)), g)
  {
    var t := Apply(p, s, Begin(now));
    BeginPhase(p, s, g, now);
    BeginDirt(p, s.rows, now);
    hide PhaseOk, Whole, KeyAt, ParentOf, Clean, Dirty, Timely;
    forall k | k in t.rows ensures RowOk(p, g, now, k, t.rows[k]) && Linked(p, t, g.marked, k) {
      RowAt(p, s, g, k);
    }
  }

  lemma BeginDirt(p: Plan, rows: map<Key, Row>, now: nat)
    ensures forall w :: Clean(p, SealedBy(p, rows, now), w) <==> Clean(p, rows, w)
  {
    var after := SealedBy(p, rows, now);
    forall w, j | j in rows ensures Dirty(p, after, w, j) <==> Dirty(p, rows, w, j) {}
    hide Dirty;
  }

  lemma BeginPhase(p: Plan, s: State, g: Log, now: nat)
    requires p.Valid() && RowsOk(p, s, g)
    ensures PhaseOk(p, Apply(p, s, Begin(now)), g.stale)
  {
    var rows := Apply(p, s, Begin(now)).rows;
    forall k | k in rows && !rows[k].sealed ensures Timely(p, k.start, now) {
      assert RowOk(p, g, s.clock, k, s.rows[k]);
      assert k.tier == Hot;
      EndAfterIsTimely(p, k, now);
    }
  }

  /** A hot window that has not ended may be updated. */
  lemma EndAfterIsTimely(p: Plan, k: Key, clock: nat)
    requires p.Valid() && k.tier == Hot && Width(p, Hot) > 0 && Aligned(p, k) && EndOf(p, k) > clock
    ensures Timely(p, k.start, clock)
  {
    ParentContains(p, k);
    ParentContains(p, ParentOf(p, k));
    KeyAtUnique(p, k, k.start);
    KeyAtNests(p, Hot, k.start);
    KeyAtNests(p, Warm, k.start);
  }
}
