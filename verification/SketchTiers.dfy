/** The three tiers of persisted distinct sketches of one metric and scope: updates fill
    hot buckets, a maintenance pass seals, rolls hot up into warm and warm up into cold,
    and expires what a verified parent retains. Each step is one transaction; updates and
    crashes may fall between any two transactions of a pass. */
module SketchTiers {
  import opened Wrappers
  import opened Buckets
  import HD = HybridDistinct

  datatype Tier = Hot | Warm | Cold

  /** Bucket widths and retentions in seconds, and the settings of new sketches. */
  datatype Plan = Plan(hot: nat, warm: nat, cold: nat, hotKeep: nat, warmKeep: nat, coldKeep: nat,
      sketch: HD.Settings) {
    /** What the configuration checks, and that widths divide and the library is there. */
    ghost predicate Valid() {
      && 0 < hot < warm < cold && IsMultiple(warm, hot) && IsMultiple(cold, warm)
      && 0 < hotKeep < warmKeep < coldKeep
      && sketch.Valid() && sketch.library
    }
  }

  function Width(p: Plan, t: Tier): nat {
    match t
    case Hot => p.hot
    case Warm => p.warm
    case Cold => p.cold
  }

  function Keep(p: Plan, t: Tier): nat {
    match t
    case Hot => p.hotKeep
    case Warm => p.warmKeep
    case Cold => p.coldKeep
  }

  function Up(t: Tier): Tier {
    if t == Hot then Warm else Cold
  }

  datatype Key = Key(tier: Tier, start: nat)

  function EndOf(p: Plan, k: Key): nat {
    k.start + Width(p, k.tier)
  }

  /** The bucket of tier `t` that an instant falls into. */
  function KeyAt(p: Plan, t: Tier, at: nat): Key {
    Key(t, if Width(p, t) > 0 then Start(at, Width(p, t)) else at)
  }

  function ParentOf(p: Plan, k: Key): Key {
    KeyAt(p, Up(k.tier), k.start)
  }

  datatype RollupState = Unrolled | VerifiedParent | VerifiedChild

  datatype Row = Row(sealed: bool, rollup: RollupState, sketch: HD.Sketch)

  /** The rows a roll-up has read and their parent, persisted but not yet recorded. */
  datatype Group = Group(parent: Key, children: set<Key>)

  /** How far the pass that began at instant `at` is. */
  datatype Phase = Idle | Rolling(at: nat, child: Tier, unmarked: Option<Group>) | Expiring(at: nat, tier: Tier)

  /** The two tables, the phase, and the instant of the last pass that began. */
  datatype State = State(rows: map<Key, Row>, rollups: set<(Key, Key)>, phase: Phase, clock: nat)

  const Start0: State := State(map[], {}, Idle, 0)

  datatype Step =
    | Update(at: nat, digest: HD.Digest)
    | Begin(now: nat)
    | PersistParent(parent: Key)
    | MarkChildren
    | NextTier
    | ExpireOne(key: Key)
    | NextExpiry
    | Crash

  // ----------------------------------------------------------------- transactions

  /** seal_due: every bucket whose window has ended is sealed. */
  function SealedBy(p: Plan, rows: map<Key, Row>, now: nat): map<Key, Row> {
    map k | k in rows :: if EndOf(p, k) <= now then rows[k].(sealed := true) else rows[k]
  }

  /** The sealed child rows of a parent window. */
  function Children(p: Plan, rows: map<Key, Row>, child: Tier, parent: Key): set<Key> {
    set k | k in rows && k.tier == child && rows[k].sealed && parent.start <= k.start && EndOf(p, k) <= EndOf(p, parent)
  }

  /** Merge the sealed child rows of [from, to) into a fresh bucket, in order of their
      start; None when a merge raises. */
  function RolledUp(p: Plan, rows: map<Key, Row>, child: Tier, from: nat, to: nat): Option<HD.Sketch>
    decreases to
  {
    var w := Width(p, child);
    if w == 0 || to < from + w then Some(HD.Empty) else
      var rest := RolledUp(p, rows, child, from, to - w);
      var k := Key(child, to - w);
      if rest.Some? && k in rows && rows[k].sealed then
        var o := HD.Merged(p.sketch, rest.value, rows[k].sketch);
        if o.raised == HD.Nothing then Some(o.sketch) else None
      else rest
  }

  /** Sealed, not rolled up yet, and its parent window has ended. */
  predicate Waiting(p: Plan, rows: map<Key, Row>, child: Tier, k: Key, now: nat) {
    && k in rows && k.tier == child && rows[k].sealed && rows[k].rollup != VerifiedChild
    && EndOf(p, ParentOf(p, k)) <= now
  }

  predicate HasParentRow(s: State, k: Key) {
    exists link | link in s.rollups :: link.1 == k && link.0 in s.rows && s.rows[link.0].sealed
  }

  predicate Expirable(p: Plan, s: State, k: Key, now: nat) {
    && k in s.rows && EndOf(p, k) + Keep(p, k.tier) <= now
    && (if k.tier == Cold then s.rows[k].sealed else s.rows[k].rollup == VerifiedChild && HasParentRow(s, k))
  }

  /** update_distinct for an observation of any instant: only a sealed bucket, or a bucket
      that raises, refuses it. */
  function Updated(p: Plan, s: State, at: nat, d: HD.Digest): State {
    var k := KeyAt(p, Hot, at);
    if k in s.rows && s.rows[k].sealed then s
    else
      var row := if k in s.rows then s.rows[k] else Row(false, Unrolled, HD.Empty);
      var o := HD.Updated(p.sketch, row.sketch, d);
      if o.raised != HD.Nothing then s else s.(rows := s.rows[k := row.(sketch := o.sketch)])
  }

  function Persisted(p: Plan, s: State, parent: Key): State
    requires s.phase.Rolling?
  {
    var child := s.phase.child;
    var merged := RolledUp(p, s.rows, child, parent.start, EndOf(p, parent));
    if merged.None? then s.(phase := Idle)
    else
      var row := if parent in s.rows then s.rows[parent].(sealed := true, sketch := merged.value)
                 else Row(true, VerifiedParent, merged.value);
      s.(rows := s.rows[parent := row],
         phase := s.phase.(unmarked := Some(Group(parent, Children(p, s.rows, child, parent)))))
  }

  function Verified(rows: map<Key, Row>, children: set<Key>): map<Key, Row> {
    map k | k in rows :: if k in children then rows[k].(rollup := VerifiedChild) else rows[k]
  }

  function LinksTo(parent: Key, children: set<Key>): set<(Key, Key)> {
    set k | k in children :: (parent, k)
  }

  function Marked(s: State): State
    requires s.phase.Rolling? && s.phase.unmarked.Some?
  {
    var g := s.phase.unmarked.value;
    s.(rows := Verified(s.rows, g.children), rollups := s.rollups + LinksTo(g.parent, g.children),
        phase := s.phase.(unmarked := None))
  }

  function Expired(s: State, k: Key): State {
    s.(rows := s.rows - {k},
       rollups := set link | link in s.rollups && link.0 != k && link.1 != k)
  }

  ghost predicate Enabled(p: Plan, s: State, step: Step) {
    match step
    case Update(_, _) => true
    case Begin(now) => s.phase == Idle && now >= s.clock
    case PersistParent(parent) =>
      && s.phase.Rolling? && s.phase.unmarked.None? && EndOf(p, parent) <= s.phase.at
      && exists k :: Waiting(p, s.rows, s.phase.child, k, s.phase.at) && ParentOf(p, k) == parent
    case MarkChildren => s.phase.Rolling? && s.phase.unmarked.Some?
    case NextTier => s.phase.Rolling? && s.phase.unmarked.None? && NoneWaiting(p, s.rows, s.phase.child, s.phase.at)
    case ExpireOne(k) => s.phase.Expiring? && k.tier == s.phase.tier && Expirable(p, s, k, s.phase.at)
    case NextExpiry => s.phase.Expiring? && NoneExpirable(p, s, s.phase.tier, s.phase.at)
    case Crash => true
  }

  ghost predicate NoneWaiting(p: Plan, rows: map<Key, Row>, child: Tier, now: nat) {
    forall k :: k in rows ==> !Waiting(p, rows, child, k, now)
  }

  ghost predicate NoneExpirable(p: Plan, s: State, t: Tier, now: nat) {
    forall k :: k in s.rows && k.tier == t ==> !Expirable(p, s, k, now)
  }

  function Apply(p: Plan, s: State, step: Step): State
    requires step.PersistParent? ==> s.phase.Rolling?
    requires step.MarkChildren? ==> s.phase.Rolling? && s.phase.unmarked.Some?
    requires step.NextTier? ==> s.phase.Rolling?
    requires step.NextExpiry? ==> s.phase.Expiring?
  {
    match step
    case Update(at, d) => Updated(p, s, at, d)
    case Begin(now) => s.(rows := SealedBy(p, s.rows, now), phase := Rolling(now, Hot, None), clock := now)
    case PersistParent(parent) => Persisted(p, s, parent)
    case MarkChildren => Marked(s)
    case NextTier =>
      s.(phase := if s.phase.child == Hot then Rolling(s.phase.at, Warm, None) else Expiring(s.phase.at, Hot))
    case ExpireOne(k) => Expired(s, k)
    case NextExpiry => s.(phase := if s.phase.tier == Cold then Idle else Expiring(s.phase.at, Up(s.phase.tier)))
    case Crash => s.(phase := Idle)
  }

  // ---------------------------------------------------------------------- history

  /** One accepted update. */
  datatype Entry = Entry(at: nat, digest: HD.Digest)

  /** Every accepted update, the parent windows whose roll-up has been recorded, and the
      warm buckets that an update has reached, or was left out of, since they were rolled up. */
  datatype Log = Log(history: seq<Entry>, marked: set<Key>, stale: set<Key>)

  /** May an update of this instant come after a pass at `clock`? Its cold window has not
      ended; and its warm window has not ended either, or none of that window's hot buckets
      can have expired yet. */
  predicate Timely(p: Plan, at: nat, clock: nat) {
    && EndOf(p, KeyAt(p, Cold, at)) > clock
    && (EndOf(p, KeyAt(p, Warm, at)) > clock || KeyAt(p, Warm, at).start + p.hot + p.hotKeep > clock)
  }

  function CountIn(h: seq<Entry>, lo: nat, hi: nat): nat {
    if h == [] then 0 else
      CountIn(h[..|h| - 1], lo, hi) + if lo <= h[|h| - 1].at < hi then 1 else 0
  }

  function DigestsIn(h: seq<Entry>, lo: nat, hi: nat): set<HD.Digest> {
    if h == [] then {} else
      DigestsIn(h[..|h| - 1], lo, hi) + if lo <= h[|h| - 1].at < hi then {h[|h| - 1].digest} else {}
  }

  /** The bucket that was fed exactly the updates of a window. */
  function Whole(p: Plan, h: seq<Entry>, lo: nat, hi: nat): HD.Sketch {
    HD.Sketch(HD.CanonicalMode(p.sketch, DigestsIn(h, lo, hi)), DigestsIn(h, lo, hi), CountIn(h, lo, hi))
  }

  predicate Accepted(p: Plan, s: State, at: nat, d: HD.Digest) {
    var k := KeyAt(p, Hot, at);
    !(k in s.rows && s.rows[k].sealed)
    && HD.Updated(p.sketch, if k in s.rows then s.rows[k].sketch else HD.Empty, d).raised == HD.Nothing
  }

  /** A hot bucket of the window is still open. */
  predicate HasUnsealed(p: Plan, rows: map<Key, Row>, parent: Key) {
    exists k | k in rows :: k.tier == Hot && !rows[k].sealed && ParentOf(p, k) == parent
  }

  function Logged(p: Plan, s: State, g: Log, step: Step): Log
    requires step.PersistParent? ==> s.phase.Rolling?
    requires step.MarkChildren? ==> s.phase.Rolling? && s.phase.unmarked.Some?
  {
    match step
    case Update(at, d) =>
      if !Accepted(p, s, at, d) then g
      else
        var warm := KeyAt(p, Warm, at);
        g.(history := g.history + [Entry(at, d)], stale := if warm in s.rows then g.stale + {warm} else g.stale)
    case PersistParent(parent) => RolledLog(p, s, g, parent)
    case MarkChildren => g.(marked := g.marked + {s.phase.unmarked.value.parent})
    case _ => g
  }

  /** A roll-up reads the sealed buckets only. */
  function RolledLog(p: Plan, s: State, g: Log, parent: Key): Log
    requires s.phase.Rolling?
  {
    if RolledUp(p, s.rows, s.phase.child, parent.start, EndOf(p, parent)).None? then g
    else g.(stale := if s.phase.child == Hot && HasUnsealed(p, s.rows, parent) then g.stale + {parent}
        else g.stale - {parent})
  }
}
