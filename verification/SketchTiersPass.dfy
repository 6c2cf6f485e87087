/** The transactions of a maintenance pass keep the invariant of the tiers. */
module SketchTiersPass {
  import opened Wrappers
  import opened Buckets
  import HD = HybridDistinct
  import opened SketchTiers
  import opened SketchTiersInvariants

  // ----------------------------------------------------------- persisting a parent

  /** In [lo, hi) every child bucket is there, sealed and up to date, or has no update at all. */
  ghost predicate Covered(p: Plan, rows: map<Key, Row>, g: Log, child: Tier, lo: nat, hi: nat) {
    forall k: Key | k.tier == child && lo <= k.start && EndOf(p, k) <= hi && AlignedIn(p, k) ::
      if k in rows then rows[k].sealed && k !in g.stale else CountIn(g.history, k.start, EndOf(p, k)) == 0
  }

  predicate AlignedIn(p: Plan, k: Key) {
    Width(p, k.tier) > 0 && Aligned(p, k)
  }

  lemma EmptyWhole(p: Plan, h: seq<Entry>, lo: nat, hi: nat)
    requires p.Valid() && CountIn(h, lo, hi) == 0
    ensures Whole(p, h, lo, hi) == HD.Empty
  {
    EmptyWindow(h, lo, hi);
    HD.CanonicalEmpty(p.sketch);
  }

  lemma AdjacentWhole(p: Plan, h: seq<Entry>, lo: nat, mid: nat, hi: nat)
    requires p.Valid() && lo <= mid <= hi
    ensures CountIn(h, mid, hi) == 0 ==> Whole(p, h, lo, hi) == Whole(p, h, lo, mid)
    ensures var o := HD.Merged(p.sketch, Whole(p, h, lo, mid), Whole(p, h, mid, hi));
            o.raised == HD.Nothing ==> o.sketch == Whole(p, h, lo, hi)
  {
    InAdjacent(h, lo, mid, hi);
    if CountIn(h, mid, hi) == 0 { EmptyWindow(h, mid, hi); }
    var a, b := Whole(p, h, lo, mid), Whole(p, h, mid, hi);
    if HD.Merged(p.sketch, a, b).raised == HD.Nothing { HD.MergeCanonical(p.sketch, a, b); }
    hide HD.Merged, HD.CanonicalMode, CountIn, DigestsIn;
  }

  /** Merging the children of a covered stretch of windows gives the bucket of all of it. */
  lemma {:induction false} RolledUpIsWhole(p: Plan, s: State, g: Log, child: Tier, lo: nat, hi: nat)
    requires p.Valid() && RowsOk(p, s, g) && Width(p, child) > 0
    requires lo <= hi && IsMultiple(lo, Width(p, child)) && IsMultiple(hi, Width(p, child))
    requires Covered(p, s.rows, g, child, lo, hi)
    ensures RolledUp(p, s.rows, child, lo, hi).Some?
            ==> RolledUp(p, s.rows, child, lo, hi).value == Whole(p, g.history, lo, hi)
    decreases hi
  {
    hide *;
    var w := Width(p, child);
    if lo == hi {
      NothingRolls(p, s.rows, child, lo);
      NoWidth(g.history, lo);
      EmptyWhole(p, g.history, lo, hi);
    } else {
      WholeWindowFits(lo, hi, w);
      RollTurn(p, s, g, child, lo, hi);
      RolledUpIsWhole(p, s, g, child, lo, hi - w);
      AdjacentWhole(p, g.history, lo, hi - w, hi);
    }
  }

  lemma NothingRolls(p: Plan, rows: map<Key, Row>, child: Tier, lo: nat)
    requires Width(p, child) > 0
    ensures RolledUp(p, rows, child, lo, lo) == Some(HD.Empty)
  {
  }

  /** The merge loop over [lo, hi) ends with the row of the last window, if it is there. */
  lemma Rolls(p: Plan, rows: map<Key, Row>, child: Tier, lo: nat, hi: nat)
    requires Width(p, child) > 0 && hi >= lo + Width(p, child)
    ensures var w := Width(p, child);
            var rest, k := RolledUp(p, rows, child, lo, hi - w), Key(child, hi - w);
            RolledUp(p, rows, child, lo, hi)
            == if rest.Some? && k in rows && rows[k].sealed then
                 var o := HD.Merged(p.sketch, rest.value, rows[k].sketch);
                 if o.raised == HD.Nothing then Some(o.sketch) else None
               else rest
  {
    hide HD.Merged;
  }

  lemma CoveredPrefix(p: Plan, rows: map<Key, Row>, g: Log, child: Tier, lo: nat, hi: nat, mid: nat)
    requires Covered(p, rows, g, child, lo, hi) && mid <= hi
    ensures Covered(p, rows, g, child, lo, mid)
  {
    hide AlignedIn;
  }

  lemma CoveredLast(p: Plan, s: State, g: Log, child: Tier, lo: nat, hi: nat)
    requires p.Valid() && RowsOk(p, s, g) && Covered(p, s.rows, g, child, lo, hi)
    requires var w := Width(p, child); w > 0 && lo + w <= hi && IsMultiple(hi - w, w)
    ensures var k := Key(child, hi - Width(p, child));
            if k in s.rows then s.rows[k].sealed && s.rows[k].sketch == Whole(p, g.history, hi - Width(p, child), hi)
            else CountIn(g.history, hi - Width(p, child), hi) == 0
  {
    hide Start, IsMultiple, Whole;
    var k := Key(child, hi - Width(p, child));
    assert EndOf(p, k) == hi && AlignedIn(p, k);
    if k in s.rows { assert RowOk(p, g, s.clock, k, s.rows[k]); }
  }

  /** One turn of the merge loop over a covered stretch. */
  lemma RollTurn(p: Plan, s: State, g: Log, child: Tier, lo: nat, hi: nat)
    requires p.Valid() && RowsOk(p, s, g) && Covered(p, s.rows, g, child, lo, hi)
    requires var w := Width(p, child); w > 0 && lo + w <= hi && IsMultiple(hi - w, w)
    ensures var w, h := Width(p, child), g.history;
            && Covered(p, s.rows, g, child, lo, hi - w)
            && var rest, all := RolledUp(p, s.rows, child, lo, hi - w), RolledUp(p, s.rows, child, lo, hi);
            if rest.None? then all.None?
            else if CountIn(h, hi - w, hi) == 0 && Key(child, hi - w) !in s.rows then all == rest
            else var o := HD.Merged(p.sketch, rest.value, Whole(p, h, hi - w, hi));
                 all == if o.raised == HD.Nothing then Some(o.sketch) else None
  {
    hide *;
    Rolls(p, s.rows, child, lo, hi);
    CoveredPrefix(p, s.rows, g, child, lo, hi, hi - Width(p, child));
    CoveredLast(p, s, g, child, lo, hi);
  }

  /** A window that still has a child to roll up has no roll-up recorded above it. */
  lemma WaitingUnmarked(p: Plan, s: State, g: Log, k: Key, now: nat)
    requires p.Valid() && Inv(p, s, g) && k.tier != Cold && Waiting(p, s.rows, k.tier, k, now)
    ensures k.tier == Warm ==> ParentOf(p, k) !in g.marked
    ensures k.tier == Hot ==> ParentOf(p, ParentOf(p, k)) !in g.marked
    ensures RowOk(p, g, s.clock, k, s.rows[k])
  {
    RowAt(p, s, g, k);
  }

  /** Below an ended cold window, once no hot bucket waits, every hot bucket is rolled up. */
  lemma ColdHasNoDirt(p: Plan, s: State, g: Log, j: Key)
    requires p.Valid() && Inv(p, s, g) && j in s.rows && j.tier == Hot && !s.phase.Idle?
    requires NoneWaiting(p, s.rows, Hot, s.clock) && EndOf(p, ParentOf(p, ParentOf(p, j))) <= s.clock
    ensures s.rows[j].rollup == VerifiedChild
  {
    RowAt(p, s, g, j);
    assert !Waiting(p, s.rows, Hot, j, s.clock);
    if !s.rows[j].sealed { OpenIn(p, s, g, j); }
    KeyAtUnique(p, j, j.start);
    KeyAtNests(p, Hot, j.start);
    KeyAtNests(p, Warm, j.start);
    ParentContains(p, ParentOf(p, j));
    hide Inv, Start, IsMultiple;
  }

  lemma OpenIn(p: Plan, s: State, g: Log, k: Key)
    requires Inv(p, s, g) && !s.phase.Idle? && k in s.rows && !s.rows[k].sealed
    ensures Timely(p, k.start, s.clock)
  {
  }

  /** Then the roll-up of the warm window of every update there is recorded, and the warm
      bucket is up to date. */
  lemma WarmSettled(p: Plan, s: State, g: Log, w: Key)
    requires p.Valid() && Inv(p, s, g) && w.tier == Warm && AlignedIn(p, w) && !s.phase.Idle?
    requires NoneWaiting(p, s.rows, Hot, s.clock) && EndOf(p, ParentOf(p, w)) <= s.clock
    ensures w !in g.stale
    ensures CountIn(g.history, w.start, EndOf(p, w)) > 0 ==> w in g.marked
  {
    forall j | j in s.rows && j.tier == Hot && ParentOf(p, j) == w ensures s.rows[j].rollup == VerifiedChild {
      ColdHasNoDirt(p, s, g, j);
    }
    assert Clean(p, s.rows, w);
    if CountIn(g.history, w.start, EndOf(p, w)) > 0 {
      var i := SomeEntry(g.history, w.start, EndOf(p, w));
      var hot := KeyAt(p, Hot, g.history[i].at);
      KeyAtUnique(p, w, g.history[i].at);
      KeyAtNests(p, Hot, g.history[i].at);
      HotIn(p, s, g, i);
      if hot in s.rows { LinkOf(p, s, g, hot); }
    }
    hide KeyAt, ParentOf, RowsOk, AllLinked, MarksOk, PhaseOk;
  }

  lemma MarkIn(p: Plan, s: State, g: Log, k: Key)
    requires Inv(p, s, g) && k in g.marked
    ensures MarkOk(p, s.rows, g.marked, s.clock, k)
  {
  }

  /** A window that a pass rolls up: warm below an ended cold window, always covered; hot,
      covered unless a late update has left a bucket of it open. */
  lemma WindowCovered(p: Plan, s: State, g: Log, parent: Key, k: Key)
    requires p.Valid() && Inv(p, s, g) && s.phase.Rolling? && EndOf(p, parent) <= s.phase.at
    requires Waiting(p, s.rows, s.phase.child, k, s.phase.at) && ParentOf(p, k) == parent
    requires s.phase.child == Hot ==> !HasUnsealed(p, s.rows, parent)
    ensures Covered(p, s.rows, g, s.phase.child, parent.start, EndOf(p, parent))
  {
    var child := s.phase.child;
    assert child != Cold && s.phase.at == s.clock && (child == Warm ==> NoneWaiting(p, s.rows, Hot, s.clock));
    WaitingUnmarked(p, s, g, k, s.phase.at);
    ParentContains(p, k);
    hide Inv, HasUnsealed;
    forall j: Key | j.tier == child && parent.start <= j.start && EndOf(p, j) <= EndOf(p, parent) && AlignedIn(p, j)
      ensures if j in s.rows then s.rows[j].sealed && j !in g.stale else CountIn(g.history, j.start, EndOf(p, j)) == 0
    {
      ParentIsUnique(p, j, parent);
      if child == Hot { HotChildCovered(p, s, g, parent, k, j); } else { WarmChildCovered(p, s, g, j); }
    }
  }

  lemma HotChildCovered(p: Plan, s: State, g: Log, parent: Key, k: Key, j: Key)
    requires p.Valid() && Inv(p, s, g) && j.tier == Hot && AlignedIn(p, j) && ParentOf(p, j) == parent
    requires Waiting(p, s.rows, Hot, k, s.clock) && ParentOf(p, k) == parent && !HasUnsealed(p, s.rows, parent)
    ensures if j in s.rows then s.rows[j].sealed && j !in g.stale else CountIn(g.history, j.start, EndOf(p, j)) == 0
  {
    HotNotStale(p, s, g, j);
    if j !in s.rows {
      assert Dirty(p, s.rows, parent, k);
      DirtyHasAll(p, s, g, j, k);
    }
    hide Inv, ParentOf;
  }

  lemma WarmChildCovered(p: Plan, s: State, g: Log, j: Key)
    requires p.Valid() && Inv(p, s, g) && j.tier == Warm && AlignedIn(p, j) && !s.phase.Idle?
    requires NoneWaiting(p, s.rows, Hot, s.clock) && EndOf(p, ParentOf(p, j)) <= s.clock && ParentOf(p, j) !in g.marked
    ensures if j in s.rows then s.rows[j].sealed && j !in g.stale else CountIn(g.history, j.start, EndOf(p, j)) == 0
  {
    WarmSettled(p, s, g, j);
    if j in s.rows { RowAt(p, s, g, j); } else if j in g.marked { MarkIn(p, s, g, j); }
    hide Inv, ParentOf;
  }

  lemma WindowAbove(p: Plan, s: State, g: Log, parent: Key, k: Key)
    requires p.Valid() && Inv(p, s, g) && s.phase.Rolling?
    requires Waiting(p, s.rows, s.phase.child, k, s.phase.at) && ParentOf(p, k) == parent
    ensures s.phase.child != Cold && parent.tier == Up(s.phase.child) && AlignedIn(p, parent)
    ensures parent.tier == Warm ==> ParentOf(p, parent) !in g.marked
    ensures parent.tier == Cold ==> parent !in g.marked
  {
    WaitingUnmarked(p, s, g, k, s.phase.at);
    ParentContains(p, k);
    hide RowsOk, AllLinked, AllHotKept, MarksOk, StaleOk;
  }

  lemma WindowAligned(p: Plan, parent: Key, child: Tier)
    requires p.Valid() && child != Cold && parent.tier == Up(child) && AlignedIn(p, parent)
    ensures Width(p, child) > 0 && IsMultiple(parent.start, Width(p, child))
            && IsMultiple(EndOf(p, parent), Width(p, child))
  {
    WidthsDivide(p, child);
    MultipleOfMultiple(parent.start, Width(p, parent.tier), Width(p, child));
    SumMultiple(parent.start, Width(p, parent.tier), Width(p, child));
  }

  /** The row a roll-up writes stands for its whole window, unless a bucket was left out. */
  lemma PersistedRowOk(p: Plan, s: State, g: Log, parent: Key, k: Key)
    requires p.Valid() && Inv(p, s, g) && s.phase.Rolling? && EndOf(p, parent) <= s.phase.at
    requires Waiting(p, s.rows, s.phase.child, k, s.phase.at) && ParentOf(p, k) == parent
    requires RolledUp(p, s.rows, s.phase.child, parent.start, EndOf(p, parent)).Some?
    ensures RowOk(p, RolledLog(p, s, g, parent), s.clock, parent, Persisted(p, s, parent).rows[parent])
  {
    WindowAbove(p, s, g, parent, k);
    assert s.phase.at == s.clock;
    if !(s.phase.child == Hot && HasUnsealed(p, s.rows, parent)) {
      WindowCovered(p, s, g, parent, k);
      WindowAligned(p, parent, s.phase.child);
      RolledUpIsWhole(p, s, g, s.phase.child, parent.start, EndOf(p, parent));
    }
    if parent in s.rows { RowAt(p, s, g, parent); }
    hide RolledUp, Whole, KeyAt, Children, Covered, Inv, HasUnsealed, IsMultiple, Start;
  }

  lemma PersistRows(p: Plan, s: State, g: Log, parent: Key, row: Row, phase: Phase, stale: set<Key>)
    requires p.Valid() && Inv(p, s, g) && parent.tier != Hot && g.stale - {parent} <= stale <= g.stale + {parent}
    requires RowOk(p, g.(stale := stale), s.clock, parent, row)
    requires parent in s.rows ==> row.rollup == s.rows[parent].rollup
    requires parent !in s.rows ==> row.rollup == VerifiedParent
                                   && (parent.tier == Warm ==> ParentOf(p, parent) !in g.marked)
    ensures var t := s.(rows := s.rows[parent := row], phase := phase);
            && RowsOk(p, t, g.(stale := stale)) && AllLinked(p, t, g.marked)
            && AllHotKept(p, t, g.(stale := stale)) && MarksOk(p, t, g.marked)
  {
    var t := s.(rows := s.rows[parent := row], phase := phase);
    ParentRowIsClean(p, s.rows, parent, row);
    hide PhaseOk, StaleOk, KeyAt, ParentOf, EndOf, Whole, Clean;
    forall k | k in t.rows ensures RowOk(p, g.(stale := stale), s.clock, k, t.rows[k]) {
      if k != parent { assert RowOk(p, g, s.clock, k, s.rows[k]); }
    }
    forall k | k in t.rows ensures Linked(p, t, g.marked, k) {
      if k in s.rows { LinkOf(p, s, g, k); }
    }
    forall i | 0 <= i < |g.history| ensures HotKept(p, t, g.marked, g.history[i].at) {
      HotIn(p, s, g, i);
    }
  }

  lemma ParentRowIsClean(p: Plan, rows: map<Key, Row>, parent: Key, row: Row)
    requires parent.tier != Hot
    ensures forall w :: Clean(p, rows[parent := row], w) <==> Clean(p, rows, w)
    ensures forall w :: HasUnsealed(p, rows[parent := row], w) <==> HasUnsealed(p, rows, w)
  {
    var after := rows[parent := row];
    hide ParentOf;
    forall w, j | j in after ensures Dirty(p, after, w, j) <==> j in rows && Dirty(p, rows, w, j) {}
    forall w ensures HasUnsealed(p, after, w) <==> HasUnsealed(p, rows, w) {
      if k :| k in rows && k.tier == Hot && !rows[k].sealed && ParentOf(p, k) == w {
        assert k in after && !after[k].sealed;
      }
    }
    hide Dirty, HasUnsealed;
  }

  /** A window with an open bucket is not clean. */
  lemma OpenIsDirty(p: Plan, s: State, g: Log, w: Key)
    requires RowsOk(p, s, g) && HasUnsealed(p, s.rows, w)
    ensures !Clean(p, s.rows, w)
  {
    var k :| k in s.rows && k.tier == Hot && !s.rows[k].sealed && ParentOf(p, k) == w;
    assert RowOk(p, g, s.clock, k, s.rows[k]);
    assert Dirty(p, s.rows, w, k);
    hide ParentOf;
  }

  lemma PersistStale(p: Plan, s: State, g: Log, parent: Key, row: Row)
    requires p.Valid() && Inv(p, s, g) && s.phase.Rolling? && parent.tier == Up(s.phase.child)
    ensures StaleOk(p, s.rows[parent := row], RolledLog(p, s, g, parent).stale)
  {
    ParentRowIsClean(p, s.rows, parent, row);
    if HasUnsealed(p, s.rows, parent) { OpenIsDirty(p, s, g, parent); }
    hide RowsOk, AllLinked, AllHotKept, MarksOk, PhaseOk, RolledUp, Clean, HasUnsealed;
  }

  /** A new row of the parent tier is nobody's child here and waits for nothing yet. */
  lemma ParentRowIsIdle(p: Plan, rows: map<Key, Row>, parent: Key, row: Row, child: Tier, now: nat)
    requires parent.tier != child && row.sealed
    ensures var after := rows[parent := row];
            && Children(p, after, child, parent) == Children(p, rows, child, parent)
            && (NoneWaiting(p, rows, child, now) ==> NoneWaiting(p, after, child, now))
            && (parent.tier != Hot && NoneWaiting(p, rows, Hot, now) ==> NoneWaiting(p, after, Hot, now))
            && (OpenInTime(p, rows, now) ==> OpenInTime(p, after, now))
  {
    var after := rows[parent := row];
    forall c | c != parent.tier && NoneWaiting(p, rows, c, now) ensures NoneWaiting(p, after, c, now) {
      forall k | k in after ensures !Waiting(p, after, c, k, now) {
        if k in rows { assert !Waiting(p, rows, c, k, now); }
      }
    }
  }

  lemma PersistPhase(p: Plan, s: State, g: Log, parent: Key)
    requires p.Valid() && Inv(p, s, g) && s.phase.Rolling? && EndOf(p, parent) <= s.phase.at
    requires parent.tier == Up(s.phase.child) && AlignedIn(p, parent)
    ensures PhaseOk(p, Persisted(p, s, parent), RolledLog(p, s, g, parent).stale)
  {
    var t, child := Persisted(p, s, parent), s.phase.child;
    hide RowsOk, AllLinked, AllHotKept, MarksOk, StaleOk, RolledUp, KeyAt, Children, NoneWaiting, HasUnsealed, Timely;
    if RolledUp(p, s.rows, child, parent.start, EndOf(p, parent)).Some? {
      ParentRowIsIdle(p, s.rows, parent, t.rows[parent], child, s.phase.at);
      assert t.rows == s.rows[parent := t.rows[parent]];
      ParentRowIsClean(p, s.rows, parent, t.rows[parent]);
    }
  }

  lemma PersistKeeps(p: Plan, s: State, g: Log, parent: Key)
    requires p.Valid() && Inv(p, s, g) && Enabled(p, s, PersistParent(parent))
    ensures Inv(p, Persisted(p, s, parent), RolledLog(p, s, g, parent))
  {
    var k :| Waiting(p, s.rows, s.phase.child, k, s.phase.at) && ParentOf(p, k) == parent;
    WindowAbove(p, s, g, parent, k);
    PersistPhase(p, s, g, parent);
    var t := Persisted(p, s, parent);
    if RolledUp(p, s.rows, s.phase.child, parent.start, EndOf(p, parent)).Some? {
      PersistedRowOk(p, s, g, parent, k);
      PersistStale(p, s, g, parent, t.rows[parent]);
      PersistRows(p, s, g, parent, t.rows[parent], t.phase, RolledLog(p, s, g, parent).stale);
      hide RowsOk, AllLinked, AllHotKept, MarksOk, PhaseOk, StaleOk, RolledUp, KeyAt, Children, RowOk, Waiting,
          HasUnsealed;
      assert t == s.(rows := s.rows[parent := t.rows[parent]], phase := t.phase);
    } else {
      PhaseOnly(p, s, g, t);
    }
  }

  /** Moving to another phase touches no table. */
  lemma PhaseOnly(p: Plan, s: State, g: Log, t: State)
    requires Inv(p, s, g) && t == s.(phase := t.phase) && PhaseOk(p, t, g.stale)
    ensures Inv(p, t, g)
  {
    LinkedSame(p, s, t, g.marked);
    hide PhaseOk, AllLinked, RowOk, MarkOk, StaleOk, Clean;
  }

  // -------------------------------------------------------------- recording a roll-up

  /** Which rows a recording touches: the sealed children of its window. */
  lemma InGroup(p: Plan, s: State, g: Log, k: Key)
    requires p.Valid() && Inv(p, s, g) && Enabled(p, s, MarkChildren) && k in s.rows
    ensures var group := s.phase.unmarked.value;
            k in group.children <==> k.tier == s.phase.child && ParentOf(p, k) == group.parent && s.rows[k].sealed
    ensures k in s.phase.unmarked.value.children ==> k.tier != Cold
  {
    var group := s.phase.unmarked.value;
    assert GroupOk(p, s.rows, g.stale, s.phase.child, s.phase.at, group) && s.phase.child != Cold;
    RowAt(p, s, g, k);
    if k.tier == s.phase.child {
      ParentContains(p, k);
      if k in group.children { ParentIsUnique(p, k, group.parent); }
    }
    hide Inv, KeyAt, ParentOf, Start, IsMultiple;
  }

  lemma MarkedFields(s: State, k: Key)
    requires s.phase.Rolling? && s.phase.unmarked.Some? && k in s.rows
    ensures Marked(s).clock == s.clock && Marked(s).rows.Keys == s.rows.Keys
    ensures Marked(s).rollups == s.rollups + LinksTo(s.phase.unmarked.value.parent, s.phase.unmarked.value.children)
    ensures var t := Marked(s);
            k in t.rows && t.rows[k] == if k in s.phase.unmarked.value.children
                then s.rows[k].(rollup := VerifiedChild) else s.rows[k]
  {
  }

  lemma MarkedRow(p: Plan, s: State, g: Log, k: Key)
    requires p.Valid() && Inv(p, s, g) && Enabled(p, s, MarkChildren) && k in s.rows
    ensures var q, t := s.phase.unmarked.value.parent, Marked(s);
            && RowOk(p, g, t.clock, k, t.rows[k]) && Linked(p, t, g.marked + {q}, k)
  {
    InGroup(p, s, g, k);
    RowAt(p, s, g, k);
    if k.tier == Hot { MarkedCold(p, s, g, k); }
    assert s.phase.child != Cold && s.phase.unmarked.value.parent in s.rows;
    MarkedFields(s, k);
    hide Inv, RowsOk, Marked, Whole, KeyAt, ParentOf, Aligned, EndOf;
    LinkHolds(p, s, g, k);
  }

  lemma LinkHolds(p: Plan, s: State, g: Log, k: Key)
    requires s.phase.Rolling? && s.phase.unmarked.Some? && k in s.rows && Linked(p, s, g.marked, k)
    requires s.phase.child != Cold && s.phase.unmarked.value.parent in s.rows
             && Up(s.phase.child) == s.phase.unmarked.value.parent.tier
    requires var group := s.phase.unmarked.value;
             k in group.children <==> k.tier == s.phase.child && ParentOf(p, k) == group.parent && s.rows[k].sealed
    requires k.tier == Warm ==> s.rows[k].sealed
    requires k.tier == Hot && ParentOf(p, ParentOf(p, k)) == s.phase.unmarked.value.parent
             ==> s.rows[k].rollup == VerifiedChild
    ensures Linked(p, Marked(s), g.marked + {s.phase.unmarked.value.parent}, k)
  {
    MarkedFields(s, k);
    MarkedFields(s, s.phase.unmarked.value.parent);
    assert ParentOf(p, k).tier == Up(k.tier);
    hide Marked, ParentOf;
  }

  /** A hot row under a cold window that is being recorded is verified already. */
  lemma MarkedCold(p: Plan, s: State, g: Log, k: Key)
    requires p.Valid() && Inv(p, s, g) && Enabled(p, s, MarkChildren) && k in s.rows && k.tier == Hot
    ensures ParentOf(p, ParentOf(p, k)) == s.phase.unmarked.value.parent ==> s.rows[k].rollup == VerifiedChild
  {
    var q := s.phase.unmarked.value.parent;
    RowAt(p, s, g, k);
    ParentContains(p, k);
    ParentContains(p, ParentOf(p, k));
    if ParentOf(p, ParentOf(p, k)) == q {
      assert s.phase.child == Warm;
      ColdHasNoDirt(p, s, g, k);
    }
    hide KeyAt, Whole, Children, RowsOk, AllLinked, AllHotKept, MarksOk, StaleOk;
  }

  lemma MarkPhase(p: Plan, s: State, stale: set<Key>)
    requires PhaseOk(p, s, stale) && Enabled(p, s, MarkChildren)
    ensures PhaseOk(p, Marked(s), stale)
  {
    var t := Marked(s);
    var at, child, g := s.phase.at, s.phase.child, s.phase.unmarked.value;
    hide KeyAt, ParentOf, EndOf, Timely, HasUnsealed;
    if child == Warm {
      forall k | k in t.rows ensures !Waiting(p, t.rows, Hot, k, at) {
        assert !Waiting(p, s.rows, Hot, k, at);
        assert k.tier == Hot ==> k !in g.children;
      }
    }
  }

  /** Recording leaves no window dirtier; and a stale bucket keeps an open one below it. */
  lemma MarkDirt(p: Plan, s: State, g: Log)
    requires p.Valid() && Inv(p, s, g) && Enabled(p, s, MarkChildren)
    ensures forall w | Clean(p, s.rows, w) :: Clean(p, Marked(s).rows, w)
    ensures StaleOk(p, Marked(s).rows, g.stale)
  {
    var t := Marked(s);
    assert t.rows.Keys == s.rows.Keys;
    forall w, j | j in t.rows && Dirty(p, t.rows, w, j) ensures Dirty(p, s.rows, w, j) {}
    forall w | w in g.stale ensures w.tier == Warm && !Clean(p, t.rows, w) { StillStale(p, s, g, w); }
    hide *;
  }

  /** Which hot bucket keeps a stale window dirty. */
  lemma StaleWitness(p: Plan, s: State, g: Log, w: Key) returns (j: Key)
    requires p.Valid() && Inv(p, s, g) && Enabled(p, s, MarkChildren) && w in g.stale
    ensures w.tier == Warm && j in s.rows && Dirty(p, s.rows, w, j)
    ensures w == s.phase.unmarked.value.parent ==> !s.rows[j].sealed
  {
    var group := s.phase.unmarked.value;
    assert GroupOk(p, s.rows, g.stale, s.phase.child, s.phase.at, group);
    if w == group.parent {
      j :| j in s.rows && j.tier == Hot && !s.rows[j].sealed && ParentOf(p, j) == w;
      RowAt(p, s, g, j);
    } else {
      j :| j in s.rows && Dirty(p, s.rows, w, j);
    }
    hide KeyAt, ParentOf, RowsOk, AllLinked, AllHotKept, MarksOk, Whole, EndOf, Children;
  }

  lemma StillStale(p: Plan, s: State, g: Log, w: Key)
    requires p.Valid() && Inv(p, s, g) && Enabled(p, s, MarkChildren) && w in g.stale
    ensures w.tier == Warm && !Clean(p, Marked(s).rows, w)
  {
    var j := StaleWitness(p, s, g, w);
    InGroup(p, s, g, j);
    MarkedFields(s, j);
    hide Inv, ParentOf, Marked;
    assert Dirty(p, Marked(s).rows, w, j);
  }

  lemma MarkMarks(p: Plan, s: State, g: Log)
    requires p.Valid() && Inv(p, s, g) && Enabled(p, s, MarkChildren)
    ensures var q, t := s.phase.unmarked.value.parent, Marked(s);
            MarksOk(p, t, g.marked + {q}) && AllHotKept(p, t, g.(marked := g.marked + {q}))
  {
    var q, t := s.phase.unmarked.value.parent, Marked(s);
    MarkDirt(p, s, g);
    hide RowsOk, AllLinked, Children, KeyAt, ParentOf, StaleOk, Clean, HasUnsealed;
    forall k | k in g.marked + {q} ensures MarkOk(p, t.rows, g.marked + {q}, t.clock, k) {
      if k in g.marked { assert MarkOk(p, s.rows, g.marked, s.clock, k); }
    }
    forall i | 0 <= i < |g.history| ensures HotKept(p, t, g.marked + {q}, g.history[i].at) {
      HotIn(p, s, g, i);
    }
  }

  lemma MarkKeeps(p: Plan, s: State, g: Log)
    requires p.Valid() && Inv(p, s, g) && Enabled(p, s, MarkChildren)
    ensures Inv(p, Marked(s), Logged(p, s, g, MarkChildren))
  {
    var q, t := s.phase.unmarked.value.parent, Marked(s);
    var more := g.(marked := g.marked + {q});
    forall k | k in t.rows ensures RowOk(p, more, t.clock, k, t.rows[k]) && Linked(p, t, more.marked, k) {
      MarkedRow(p, s, g, k);
    }
    MarkDirt(p, s, g);
    MarkMarks(p, s, g);
    MarkPhase(p, s, g.stale);
    hide RowOk, Linked, MarksOk, AllHotKept, PhaseOk, StaleOk, Clean;
  }

  // --------------------------------------------------------------------- expiry

  /** A verified child expires no later than its parent. */
  lemma ChildExpirable(p: Plan, s: State, g: Log, j: Key)
    requires s.phase.Expiring?
    requires p.Valid() && Inv(p, s, g) && j in s.rows && j.tier != Cold && s.rows[j].rollup == VerifiedChild
    requires ParentOf(p, j) in s.rows && EndOf(p, ParentOf(p, j)) + Keep(p, Up(j.tier)) <= s.phase.at
    ensures Expirable(p, s, j, s.phase.at)
  {
    RowAt(p, s, g, j);
    ParentContains(p, j);
    WidthsDivide(p, j.tier);
    RowAt(p, s, g, ParentOf(p, j));
    var link := (ParentOf(p, j), j);
    assert link in s.rollups && link.1 == j && link.0 in s.rows && s.rows[link.0].sealed;
  }

  /** No verified child hangs on a bucket that expires. */
  lemma ExpiredHasNoChild(p: Plan, s: State, g: Log, k: Key, j: Key)
    requires p.Valid() && Inv(p, s, g) && Enabled(p, s, ExpireOne(k))
    requires j in s.rows && j.tier != Cold && s.rows[j].rollup == VerifiedChild
    ensures ParentOf(p, j) != k
  {
    assert ParentOf(p, j).tier == Up(j.tier);
    if ParentOf(p, j) == k {
      assert NoneExpirable(p, s, j.tier, s.phase.at);
      ChildExpirable(p, s, g, j);
    }
  }

  lemma ExpireLinks(p: Plan, s: State, g: Log, k: Key)
    requires p.Valid() && Inv(p, s, g) && Enabled(p, s, ExpireOne(k))
    ensures AllLinked(p, Expired(s, k), g.marked)
  {
    var t := Expired(s, k);
    forall j | j in t.rows ensures Linked(p, t, g.marked, j) {
      LinkOf(p, s, g, j);
      if j.tier != Cold && s.rows[j].rollup == VerifiedChild { ExpiredHasNoChild(p, s, g, k, j); }
    }
  }

  /** When a hot bucket expires its window is closed for updates and clean. */
  lemma ExpiredIsClean(p: Plan, s: State, g: Log, k: Key)
    requires p.Valid() && Inv(p, s, g) && Enabled(p, s, ExpireOne(k)) && k.tier == Hot
    ensures ParentOf(p, k) in g.marked && EndOf(p, k) + p.hotKeep <= s.clock && Clean(p, s.rows, ParentOf(p, k))
  {
    var w := ParentOf(p, k);
    RowAt(p, s, g, k);
    MarkIn(p, s, g, w);
    ParentContains(p, k);
    forall j | j in s.rows ensures !Dirty(p, s.rows, w, j) {
      if Dirty(p, s.rows, w, j) {
        RowAt(p, s, g, j);
        assert !Waiting(p, s.rows, Hot, j, s.clock);
        OpenIn(p, s, g, j);
        KeyAtUnique(p, j, j.start);
        KeyAtNests(p, Hot, j.start);
        NoneExpired(p, k.start, j.start, s.clock);
        KeyAtUnique(p, k, k.start);
      }
    }
    hide Inv, KeyAt;
  }

  lemma FewerIsClean(p: Plan, s: State, k: Key)
    ensures forall w | Clean(p, s.rows, w) :: Clean(p, Expired(s, k).rows, w)
    ensures k in s.rows && (k.tier == Hot ==> s.rows[k].rollup == VerifiedChild) ==>
              forall w | !Clean(p, s.rows, w) :: !Clean(p, Expired(s, k).rows, w)
  {
    var t := Expired(s, k);
    hide ParentOf;
    forall w, j | j in t.rows ensures Dirty(p, t.rows, w, j) <==> Dirty(p, s.rows, w, j) {}
    if k in s.rows && (k.tier == Hot ==> s.rows[k].rollup == VerifiedChild) {
      forall w | !Clean(p, s.rows, w) ensures !Clean(p, t.rows, w) {
        var j :| j in s.rows && Dirty(p, s.rows, w, j);
        assert j != k;
        assert Dirty(p, t.rows, w, j);
      }
    }
  }

  lemma ExpireMarks(p: Plan, s: State, g: Log, k: Key)
    requires p.Valid() && Inv(p, s, g) && Enabled(p, s, ExpireOne(k))
    ensures AllHotKept(p, Expired(s, k), g) && MarksOk(p, Expired(s, k), g.marked)
            && StaleOk(p, Expired(s, k).rows, g.stale)
  {
    var t := Expired(s, k);
    LinkOf(p, s, g, k);
    if k.tier == Hot { ExpiredIsClean(p, s, g, k); }
    FewerIsClean(p, s, k);
    hide Clean;
    forall i | 0 <= i < |g.history| ensures HotKept(p, t, g.marked, g.history[i].at) {
      HotIn(p, s, g, i);
      KeyAtNests(p, Hot, g.history[i].at);
    }
    forall j | j in g.marked ensures MarkOk(p, t.rows, g.marked, t.clock, j) {
      assert MarkOk(p, s.rows, g.marked, s.clock, j);
    }
  }

  lemma ExpirePhase(p: Plan, s: State, k: Key, stale: set<Key>)
    requires PhaseOk(p, s, stale) && s.phase.Expiring?
    ensures PhaseOk(p, Expired(s, k), stale)
  {
    var t := Expired(s, k);
    FewerRows(p, s, t);
    hide NoneWaiting, NoneExpirable, Timely;
  }

  lemma FewerRows(p: Plan, s: State, t: State)
    requires t.rows.Keys <= s.rows.Keys && t.rollups <= s.rollups && forall k | k in t.rows :: t.rows[k] == s.rows[k]
    ensures forall c, now | NoneWaiting(p, s.rows, c, now) :: NoneWaiting(p, t.rows, c, now)
    ensures forall c, now | NoneExpirable(p, s, c, now) :: NoneExpirable(p, t, c, now)
  {
    forall c, now | NoneWaiting(p, s.rows, c, now) ensures NoneWaiting(p, t.rows, c, now) {
      forall k | k in t.rows ensures !Waiting(p, t.rows, c, k, now) {
        assert !Waiting(p, s.rows, c, k, now);
      }
    }
    forall c, now | NoneExpirable(p, s, c, now) ensures NoneExpirable(p, t, c, now) {
      forall k | k in t.rows && k.tier == c ensures !Expirable(p, t, k, now) {
        assert !Expirable(p, s, k, now);
        if HasParentRow(t, k) {
          var link :| link in t.rollups && link.1 == k && link.0 in t.rows && t.rows[link.0].sealed;
          assert link in s.rollups && link.0 in s.rows && s.rows[link.0].sealed;
        }
      }
    }
  }

  lemma ExpireKeeps(p: Plan, s: State, g: Log, k: Key)
    requires p.Valid() && Inv(p, s, g) && Enabled(p, s, ExpireOne(k))
    ensures Inv(p, Expired(s, k), g)
  {
    ExpireLinks(p, s, g, k);
    ExpireMarks(p, s, g, k);
    ExpirePhase(p, s, k, g.stale);
    hide RowOk, AllLinked, MarksOk, AllHotKept, PhaseOk, StaleOk;
  }

  /** An update that is accepted is in time. */
  predicate StepTimely(p: Plan, s: State, step: Step) {
    step.Update? && Accepted(p, s, step.at, step.digest) ==> Timely(p, step.at, s.clock)
  }

  /** Every enabled transaction keeps the invariant, as long as updates are in time. */
  lemma StepKeeps(p: Plan, s: State, g: Log, step: Step)
    requires p.Valid() && Inv(p, s, g) && Enabled(p, s, step) && StepTimely(p, s, step)
    ensures Inv(p, Apply(p, s, step), Logged(p, s, g, step))
  {
    hide Updated, Persisted, Marked, Expired, RowsOk, AllLinked, AllHotKept, MarksOk, StaleOk, RolledLog,
        NoneWaiting, NoneExpirable, OpenInTime;
    match step
    case Update(at, d) => UpdateKeeps(p, s, g, at, d);
    case Begin(now) => BeginKeeps(p, s, g, now);
    case PersistParent(parent) => PersistKeeps(p, s, g, parent);
    case MarkChildren => MarkKeeps(p, s, g);
    case NextTier => PhaseOnly(p, s, g, Apply(p, s, step));
    case ExpireOne(k) => ExpireKeeps(p, s, g, k);
    case NextExpiry =>
      ExpirableSame(p, s, Apply(p, s, step));
      PhaseOnly(p, s, g, Apply(p, s, step));
    case Crash => PhaseOnly(p, s, g, Apply(p, s, step));
  }
}
