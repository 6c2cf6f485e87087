/** The registry as an object over its two tables: each method performs transactions of
    the tiers' state machine, in the order the maintenance pass performs them. */
module SketchRegistry {
  import opened Wrappers
  import opened Buckets
  import HD = HybridDistinct
  import opened SketchTiers
  import opened SketchTiersInvariants
  import opened SketchTiersPass
  import opened SketchTiersTheorems
  import opened SketchRetention

  /** Merge the sealed row of the last window of [lo, hi), if there is one. */
  method MergeRow(p: Plan, rows: map<Key, Row>, child: Tier, lo: nat, hi: nat, rest: Option<HD.Sketch>)
      returns (all: Option<HD.Sketch>)
    requires Width(p, child) > 0 && lo + Width(p, child) <= hi
    requires rest == RolledUp(p, rows, child, lo, hi - Width(p, child))
    ensures all == RolledUp(p, rows, child, lo, hi)
  {
    hide RolledUp, HD.Merged;
    Rolls(p, rows, child, lo, hi);
    var k := Key(child, hi - Width(p, child));
    if rest.Some? && k in rows && rows[k].sealed {
      var o := HD.Merged(p.sketch, rest.value, rows[k].sketch);
      return if o.raised == HD.Nothing then Some(o.sketch) else None;
    }
    return rest;
  }

  /** Merge the sealed rows of the windows of [start, end), in order. */
  method MergeWindow(p: Plan, rows: map<Key, Row>, child: Tier, start: nat, end: nat)
      returns (merged: Option<HD.Sketch>)
    requires Width(p, child) > 0 && IsMultiple(start, Width(p, child)) && IsMultiple(end, Width(p, child))
             && start <= end
    ensures merged == RolledUp(p, rows, child, start, end)
  {
    NothingRolls(p, rows, child, start);
    hide *;
    var w := Width(p, child);
    merged := Some(HD.Empty);
    var at := start;
    while at < end
      invariant start <= at <= end && IsMultiple(at, w)
      invariant merged == RolledUp(p, rows, child, start, at)
      decreases end - at
    {
      NextWindow(at, end, w);
      merged := MergeRow(p, rows, child, start, at + w, merged);
      at := at + w;
    }
  }

  lemma NextWindow(at: nat, end: nat, w: nat)
    requires w > 0 && IsMultiple(at, w) && IsMultiple(end, w) && at < end
    ensures at + w <= end && IsMultiple(at + w, w)
  {
    SelfMultiple(w);
    hide Start, IsMultiple;
    WholeWindowFits(at, end, w);
    SumMultiple(at, w, w);
  }

  lemma WindowOrdered(p: Plan, k: Key)
    ensures k.start <= EndOf(p, k)
  {
  }

  class SketchRegistry {
    const plan: Plan
    var rows: map<Key, Row>
    var rollups: set<(Key, Key)>
    ghost var phase: Phase
    ghost var clock: nat
    ghost var log: Log

    constructor (plan: Plan)
      requires plan.Valid()
      ensures Valid() && this.plan == plan && View() == Start0 && log == Log([], {}, {})
    {
      this.plan, rows, rollups := plan, map[], {};
      phase, clock, log := Idle, 0, Log([], {}, {});
    }

    ghost function View(): State
      reads this
    {
      State(rows, rollups, phase, clock)
    }

    ghost predicate Valid()
      reads this
    {
      plan.Valid() && Inv(plan, View(), log)
    }

    /** Count one observation into the hot bucket of its time, whatever that time is; the
        tables stay sound if it is refused or in time. */
    method UpdateDistinct(at: nat, d: HD.Digest) returns (raised: bool)
      requires plan.Valid()
      modifies this
      ensures View() == Apply(plan, old(View()), Update(at, d))
      ensures log == Logged(plan, old(View()), old(log), Update(at, d))
      ensures raised <==> !Accepted(plan, old(View()), at, d)
      ensures old(Valid()) && StepTimely(plan, old(View()), Update(at, d)) ==> Valid()
    {
      hide Inv, HD.Updated, KeyAt, Accepted;
      ghost var before := View();
      if Valid() && StepTimely(plan, View(), Update(at, d)) {
        StepKeeps(plan, View(), log, Update(at, d));
      }
      raised := CountInto(at, d);
      log := Logged(plan, before, log, Update(at, d));
    }

    method CountInto(at: nat, d: HD.Digest) returns (raised: bool)
      modifies this`rows
      ensures View() == Updated(plan, old(View()), at, d)
      ensures raised <==> !Accepted(plan, old(View()), at, d)
    {
      hide HD.Updated, KeyAt;
      var k := KeyAt(plan, Hot, at);
      if k in rows && rows[k].sealed { return true; }
      var row := if k in rows then rows[k] else Row(false, Unrolled, HD.Empty);
      var o := HD.Updated(plan.sketch, row.sketch, d);
      if o.raised != HD.Nothing { return true; }
      rows := rows[k := row.(sketch := o.sketch)];
      return false;
    }

    /** The first transaction of a pass. */
    method SealDue(now: nat)
      requires Valid() && phase == Idle && now >= clock
      modifies this
      ensures Valid() && View() == Apply(plan, old(View()), Begin(now)) && log == old(log)
      ensures EndedSealed(plan, rows, now) && rows.Keys == old(rows).Keys
    {
      hide Inv;
      StepKeeps(plan, View(), log, Begin(now));
      rows := map k | k in rows :: if EndOf(plan, k) <= now then rows[k].(sealed := true) else rows[k];
      phase, clock := Rolling(now, Hot, None), now;
    }

    /** Merge the sealed children of a window in order of their start. */
    method MergeChildren(child: Tier, parent: Key) returns (merged: Option<HD.Sketch>)
      requires plan.Valid() && child != Cold && parent.tier == Up(child) && AlignedIn(plan, parent)
      ensures merged == RolledUp(plan, rows, child, parent.start, EndOf(plan, parent))
    {
      WindowAligned(plan, parent, child);
      WindowOrdered(plan, parent);
      hide *;
      merged := MergeWindow(plan, rows, child, parent.start, EndOf(plan, parent));
    }

    /** The first transaction of a roll-up. A merge that raises ends the pass. */
    method PersistParent(child: Tier, parent: Key) returns (children: set<Key>, raised: bool)
      requires Valid() && phase.Rolling? && child == phase.child && Enabled(plan, View(), Step.PersistParent(parent))
      modifies this`rows, this`phase, this`log
      ensures Valid() && View() == Persisted(plan, old(View()), parent)
      ensures log == Logged(plan, old(View()), old(log), Step.PersistParent(parent)) && log.history == old(log).history
      ensures raised <==> RolledUp(plan, old(rows), child, parent.start, EndOf(plan, parent)).None?
      ensures phase == if raised then Idle else old(phase).(unmarked := Some(Group(parent, children)))
    {
      ParentAligned(plan, View(), log, parent);
      PersistKeeps(plan, View(), log, parent);
      hide Inv, RolledUp, KeyAt, ParentOf, NoneWaiting, HasUnsealed;
      log := RolledLog(plan, View(), log, parent);
      var merged := MergeChildren(child, parent);
      if merged.None? {
        phase := Idle;
        return {}, true;
      }
      var row := if parent in rows then rows[parent].(sealed := true, sketch := merged.value)
                 else Row(true, VerifiedParent, merged.value);
      children := set k | k in rows && k.tier == child && rows[k].sealed && parent.start <= k.start
          && EndOf(plan, k) <= EndOf(plan, parent);
      assert children == Children(plan, rows, child, parent);
      rows := rows[parent := row];
      phase := phase.(unmarked := Some(Group(parent, children)));
      return children, false;
    }

    /** The second: link the children and mark them verified. */
    method MarkChildren(parent: Key, children: set<Key>)
      requires Valid() && phase.Rolling? && phase.unmarked == Some(Group(parent, children))
      modifies this
      ensures Valid() && View() == Marked(old(View())) && log == Logged(plan, old(View()), old(log), Step.MarkChildren)
      ensures phase == old(phase).(unmarked := None) && clock == old(clock)
              && log == old(log).(marked := old(log).marked + {parent})
    {
      hide Inv, Verified, LinksTo, Logged;
      MarkKeeps(plan, View(), log);
      MarkLog(plan, View(), log, parent);
      log := log.(marked := log.marked + {parent});
      rows := Verified(rows, children);
      rollups := rollups + LinksTo(parent, children);
      phase := phase.(unmarked := None);
    }

    /** Roll up every window that has ended and still has an unverified child. */
    method RollTier(child: Tier, now: nat) returns (raised: bool)
      requires Valid() && phase == Rolling(now, child, None)
      modifies this
      ensures Valid() && log.history == old(log.history) && clock == old(clock)
      ensures if raised then phase == Idle else phase == old(phase) && NoneWaiting(plan, rows, child, now)
      ensures old(rows).Keys <= rows.Keys && (EndedSealed(plan, old(rows), now) ==> EndedSealed(plan, rows, now))
    {
      hide Inv, Waiting, ParentOf, Persisted, Marked;
      var parents := set k | k in rows && Waiting(plan, rows, child, k, now) :: ParentOf(plan, k);
      while parents != {}
        invariant Valid() && phase == Rolling(now, child, None)
        invariant log.history == old(log.history) && clock == old(clock)
        invariant old(rows).Keys <= rows.Keys && (EndedSealed(plan, old(rows), now) ==> EndedSealed(plan, rows, now))
        invariant WaitsUnder(plan, rows, child, now, parents)
        decreases |parents|
      {
        var parent :| parent in parents;
        ghost var start, recorded := View(), log;
        WindowEnabled(plan, start, log, parent, parents);
        RollsKeepRows(plan, start, parent, now);
        var children, failed := PersistParent(child, parent);
        if failed { return true; }
        MarkChildren(parent, children);
        RolledOff(plan, start, recorded, parent, parents);
        parents := parents - {parent};
      }
      return false;
    }

    /** Remove a bucket and its links. */
    method ExpireBucket(k: Key)
      requires Valid() && Enabled(plan, View(), ExpireOne(k))
      modifies this
      ensures Valid() && View() == Expired(old(View()), k) && log == old(log)
    {
      ExpireKeeps(plan, View(), log, k);
      hide Inv;
      rows := rows - {k};
      rollups := set link | link in rollups && link.0 != k && link.1 != k;
    }

    /** Remove every bucket of a tier that is past its retention and, below the cold tier,
        retained in a verified parent; and no bucket whose retention lies ahead. */
    method ExpireTier(tier: Tier, now: nat)
      requires Valid() && phase == Expiring(now, tier)
      modifies this
      ensures Valid() && log == old(log) && clock == old(clock) && phase == old(phase)
      ensures NoneExpirable(plan, View(), tier, now)
      ensures forall k | k in old(rows) && WithinRetention(plan, k, now) :: k in rows
      ensures EndedSealed(plan, old(rows), now) ==> EndedSealed(plan, rows, now)
    {
      hide Inv, HasParentRow, EndOf;
      var table := State(rows, rollups, Idle, 0);
      var due := set k | k in rows && k.tier == tier && Expirable(plan, table, k, now);
      SameTables(plan, View(), table);
      while due != {}
        invariant Valid() && phase == Expiring(now, tier) && log == old(log) && clock == old(clock)
        invariant forall k | k in old(rows) && WithinRetention(plan, k, now) :: k in rows
        invariant EndedSealed(plan, old(rows), now) ==> EndedSealed(plan, rows, now)
        invariant forall k | k in due :: k in rows && k.tier == tier && Expirable(plan, View(), k, now)
        invariant forall k | k in rows && k.tier == tier && Expirable(plan, View(), k, now) :: k in due
        decreases |due|
      {
        var k :| k in due;
        ghost var start := View();
        ExpirableIsOver(plan, start, k, now);
        ExpireBucket(k);
        StillDue(plan, start, View(), log, k, now);
        due := due - {k};
      }
    }

    /** One whole pass: seal, roll hot up, roll warm up, expire each tier. No bucket goes
        whose retention lies ahead, whether or not the pass ends early. */
    method Maintain(now: nat) returns (raised: bool)
      requires Valid() && phase == Idle && now >= clock
      modifies this
      ensures Valid() && phase == Idle && clock == now && log.history == old(log.history)
      ensures forall k | k in old(rows) && WithinRetention(plan, k, now) :: k in rows
      ensures !raised ==> forall k | k in rows :: WithinRetention(plan, k, now) || NextWindowOpen(plan, k, now)
      ensures EndedSealed(plan, rows, now)
    {
      hide Inv, NoneWaiting, NoneExpirable, EndOf, ParentOf;
      SealDue(now);
      raised := RollTier(Hot, now);
      if raised { return; }
      StepKeeps(plan, View(), log, Step.NextTier);
      phase := Rolling(now, Warm, None);
      raised := RollTier(Warm, now);
      if raised { return; }
      StepKeeps(plan, View(), log, Step.NextTier);
      phase := Expiring(now, Hot);
      ExpireTier(Hot, now);
      StepKeeps(plan, View(), log, Step.NextExpiry);
      phase := Expiring(now, Warm);
      ExpireTier(Warm, now);
      StepKeeps(plan, View(), log, Step.NextExpiry);
      phase := Expiring(now, Cold);
      ExpireTier(Cold, now);
      forall k | k in rows
        ensures WithinRetention(plan, k, now) || NextWindowOpen(plan, k, now)
      {
        BoundedRow(plan, View(), log, k);
        BoundInSeconds(plan, k, now);
      }
      StepKeeps(plan, View(), log, Step.NextExpiry);
      phase := Idle;
    }
  }

  lemma RollsKeepRows(p: Plan, s: State, parent: Key, now: nat)
    requires s.phase.Rolling?
    ensures var t := Persisted(p, s, parent);
            && s.rows.Keys <= t.rows.Keys && (EndedSealed(p, s.rows, now) ==> EndedSealed(p, t.rows, now))
            && (t.phase.Rolling? && t.phase.unmarked.Some? ==>
                  && s.rows.Keys <= Marked(t).rows.Keys
                  && (EndedSealed(p, s.rows, now) ==> EndedSealed(p, Marked(t).rows, now)))
  {
    hide RolledUp, Children;
  }

  lemma ExpirableIsOver(p: Plan, s: State, k: Key, now: nat)
    ensures Expirable(p, s, k, now) ==> !WithinRetention(p, k, now)
  {
  }

  lemma MarkLog(p: Plan, s: State, g: Log, parent: Key)
    requires s.phase.Rolling? && s.phase.unmarked.Some? && s.phase.unmarked.value.parent == parent
    ensures Logged(p, s, g, Step.MarkChildren) == g.(marked := g.marked + {parent})
  {
  }

  lemma SameTables(p: Plan, s: State, t: State)
    requires s.rows == t.rows && s.rollups == t.rollups
    ensures forall k, now :: Expirable(p, s, k, now) <==> Expirable(p, t, k, now)
  {
  }

  /** Removing one bucket of a tier leaves the others of that tier as expirable as before. */
  lemma StillDue(p: Plan, s: State, t: State, g: Log, k: Key, now: nat)
    requires p.Valid() && Inv(p, s, g) && Inv(p, t, g) && t == Expired(s, k) && k in s.rows
    ensures forall j | j in t.rows && j.tier == k.tier :: Expirable(p, t, j, now) <==> Expirable(p, s, j, now)
  {
    forall j | j in t.rows && j.tier == k.tier ensures Expirable(p, t, j, now) <==> Expirable(p, s, j, now) {
      if j.tier != Cold && s.rows[j].rollup == VerifiedChild {
        VerifiedHasParent(p, s, g, j);
        VerifiedHasParent(p, t, g, j);
      }
    }
  }

  lemma VerifiedHasParent(p: Plan, s: State, g: Log, j: Key)
    requires p.Valid() && Inv(p, s, g) && j in s.rows && j.tier != Cold && s.rows[j].rollup == VerifiedChild
    ensures HasParentRow(s, j)
  {
    RowAt(p, s, g, j);
    ParentContains(p, j);
    var link := (ParentOf(p, j), j);
    RowAt(p, s, g, link.0);
    assert link in s.rollups && link.1 == j && link.0 in s.rows && s.rows[link.0].sealed;
  }

  /** The windows that still have a child to roll up are exactly these. */
  ghost predicate WaitsUnder(p: Plan, rows: map<Key, Row>, child: Tier, now: nat, parents: set<Key>) {
    && (forall k | k in rows && Waiting(p, rows, child, k, now) :: ParentOf(p, k) in parents)
    && (forall q | q in parents :: exists k | k in rows :: Waiting(p, rows, child, k, now) && ParentOf(p, k) == q)
  }

  lemma WindowEnabled(p: Plan, s: State, g: Log, parent: Key, parents: set<Key>)
    requires p.Valid() && Inv(p, s, g) && s.phase.Rolling? && s.phase.unmarked.None?
    requires WaitsUnder(p, s.rows, s.phase.child, s.phase.at, parents) && parent in parents
    ensures Enabled(p, s, Step.PersistParent(parent))
  {
    hide Inv, ParentOf;
  }

  /** The waiting rows afterwards are those before that are not under the parent. */
  ghost predicate Fewer(p: Plan, rows: map<Key, Row>, after: map<Key, Row>, child: Tier, now: nat, parent: Key) {
    && rows.Keys <= after.Keys
    && forall k | k in after ::
         Waiting(p, after, child, k, now) <==> k in rows && Waiting(p, rows, child, k, now) && ParentOf(p, k) != parent
  }

  lemma FewerUnder(p: Plan, rows: map<Key, Row>, after: map<Key, Row>, child: Tier, now: nat, parent: Key,
      parents: set<Key>)
    requires Fewer(p, rows, after, child, now, parent) && WaitsUnder(p, rows, child, now, parents)
    ensures WaitsUnder(p, after, child, now, parents - {parent})
  {
    hide Waiting, ParentOf;
    forall q | q in parents - {parent}
        ensures exists k | k in after :: Waiting(p, after, child, k, now) && ParentOf(p, k) == q {
      var k :| k in rows && Waiting(p, rows, child, k, now) && ParentOf(p, k) == q;
      assert k in after;
    }
  }

  /** Rolling one window up takes exactly its children off the waiting list. */
  lemma RolledOff(p: Plan, s: State, g: Log, parent: Key, parents: set<Key>)
    requires p.Valid() && Inv(p, s, g) && s.phase.Rolling? && Enabled(p, s, Step.PersistParent(parent))
    requires RolledUp(p, s.rows, s.phase.child, parent.start, EndOf(p, parent)).Some?
    requires WaitsUnder(p, s.rows, s.phase.child, s.phase.at, parents)
    ensures WaitsUnder(p, Marked(Persisted(p, s, parent)).rows, s.phase.child, s.phase.at, parents - {parent})
  {
    var t := Marked(Persisted(p, s, parent));
    assert s.rows.Keys <= t.rows.Keys;
    hide Waiting, ParentOf, Inv, RolledUp, Enabled, Marked, Persisted, WaitsUnder;
    forall k | k in t.rows
      ensures Waiting(p, t.rows, s.phase.child, k, s.phase.at)
              <==> k in s.rows && Waiting(p, s.rows, s.phase.child, k, s.phase.at) && ParentOf(p, k) != parent
    {
      RolledOffOne(p, s, g, parent, k);
    }
    FewerUnder(p, s.rows, t.rows, s.phase.child, s.phase.at, parent, parents);
  }

  lemma RolledOffOne(p: Plan, s: State, g: Log, parent: Key, k: Key)
    requires p.Valid() && Inv(p, s, g) && s.phase.Rolling? && Enabled(p, s, Step.PersistParent(parent))
    requires RolledUp(p, s.rows, s.phase.child, parent.start, EndOf(p, parent)).Some?
    requires k in Marked(Persisted(p, s, parent)).rows
    ensures Waiting(p, Marked(Persisted(p, s, parent)).rows, s.phase.child, k, s.phase.at)
            <==> k in s.rows && Waiting(p, s.rows, s.phase.child, k, s.phase.at) && ParentOf(p, k) != parent
  {
    ParentAligned(p, s, g, parent);
    if k in s.rows && k.tier == s.phase.child {
      RowAt(p, s, g, k);
      ParentContains(p, k);
      assert k in Children(p, s.rows, s.phase.child, parent) ==> ParentOf(p, k) == parent by {
        if k in Children(p, s.rows, s.phase.child, parent) { ParentIsUnique(p, k, parent); }
      }
    }
    hide Inv, RolledUp, KeyAt;
  }

  lemma ParentAligned(p: Plan, s: State, g: Log, parent: Key)
    requires p.Valid() && Inv(p, s, g) && s.phase.Rolling? && Enabled(p, s, PersistParent(parent))
    ensures s.phase.child != Cold && parent.tier == Up(s.phase.child) && AlignedIn(p, parent)
  {
    var k :| Waiting(p, s.rows, s.phase.child, k, s.phase.at) && ParentOf(p, k) == parent;
    RowAt(p, s, g, k);
    ParentContains(p, k);
  }
}
