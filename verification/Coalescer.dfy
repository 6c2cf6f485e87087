/** A bounded, least-recently-used set of open runs over committed rows. Equivalent
    observations of one epoch are counted in one run; pending counts reach the
    table when a run is flushed or evicted. */
module Coalescer {
  import opened Wrappers
  import opened Sampling
  import opened SamplingRestore

  datatype Item = Item(source: string, kind: string, subject: string, task: string,
                       observedAt: int, severity: Level, payload: string)

  datatype Key = Key(source: string, kind: string, subject: string, fingerprint: string, task: string, epoch: int)

  /** Fingerprints and scores are uninterpreted functions; times are milliseconds. */
  datatype Config = Config(maxOpen: nat, capacity: nat, epochSeconds: nat, fingerprint: Item -> string,
      score: Key -> (nat -> nat)) {
    /** What the configuration checks at load time. */
    predicate Valid() { maxOpen > 0 && epochSeconds > 0 }
  }

  /** Whole seconds, cut off towards zero. */
  function Seconds(at: int): int {
    if at >= 0 then at / 1000 else -(-at / 1000)
  }

  function KeyOf(cfg: Config, item: Item): Key
    requires cfg.Valid()
  {
    var seconds := Seconds(item.observedAt);
    Key(item.source, item.kind, item.subject, cfg.fingerprint(item), item.task, seconds - seconds % cfg.epochSeconds)
  }

  function ObservationOf(item: Item): Observation {
    Observation(if |item.payload| > 16384 then item.payload[..16384] else item.payload, item.observedAt, item.severity)
  }

  /** A committed row, unique by key. */
  datatype RunRow = RunRow(firstSeen: int, lastSeen: int, count: nat, severity: Level)

  datatype OpenRun = OpenRun(firstSeen: int, lastSeen: int, pending: nat, severity: Level, sampler: Reservoir)

  datatype State = State(
    rows: map<Key, RunRow>, samples: map<Key, SampleTable>,
    open: map<Key, OpenRun>, order: seq<Key>, closed: bool)

  const EmptyState: State := State(map[], map[], map[], [], false)

  // ------------------------------------------------------------ one run, one row

  function HigherLevel(a: Level, b: Level): Level {
    if LevelRank(a) >= LevelRank(b) then a else b
  }

  /** The severity CASE of the upsert: only warnings and worse replace the stored level. */
  function UpsertSeverity(stored: Level, excluded: Level): Level {
    if excluded == Critical then Critical
    else if excluded == Error && stored != Critical then Error
    else if excluded == Warning && stored != Critical && stored != Error then Warning
    else stored
  }

  function MaxInt(a: int, b: int): int { if a >= b then a else b }

  function UpsertRow(row: Option<RunRow>, run: OpenRun): RunRow {
    if row.None? then RunRow(run.firstSeen, run.lastSeen, run.pending, run.severity)
    else RunRow(row.value.firstSeen, MaxInt(row.value.lastSeen, run.lastSeen), row.value.count + run.pending,
                UpsertSeverity(row.value.severity, run.severity))
  }

  /** A run not in memory: hydrated from its row and exemplars, or new. */
  function Loaded(capacity: nat, score: nat -> nat, row: Option<RunRow>, table: SampleTable, o: Observation): OpenRun {
    if row.None? then OpenRun(o.at, o.at, 0, o.severity, Fresh)
    else OpenRun(row.value.firstSeen, row.value.lastSeen, 0, HigherLevel(row.value.severity, o.severity),
                 Restored(capacity, score, row.value.count, SelectRows(table, row.value.count)))
  }

  function Counted(capacity: nat, score: nat -> nat, run: OpenRun, o: Observation): OpenRun {
    OpenRun(run.firstSeen, o.at, run.pending + 1,
            if LevelRank(o.severity) > LevelRank(run.severity) then o.severity else run.severity,
            Updated(capacity, score, run.sampler, o))
  }

  // ------------------------------------------------------------------ whole state

  function RowOf(s: State, k: Key): Option<RunRow> {
    if k in s.rows then Some(s.rows[k]) else None
  }

  function TableFor(s: State, k: Key): SampleTable {
    if k in s.samples then s.samples[k] else map[]
  }

  /** The flush transaction for `run` of key `k`: upsert the row, rebuild its exemplars. */
  function Flushed(s: State, k: Key, run: OpenRun): State {
    s.(rows := s.rows[k := UpsertRow(RowOf(s, k), run)],
       samples := s.samples[k := TableOf(Samples(run.sampler))])
  }

  /** Commit an open run in place; a run with nothing pending is left alone. */
  function Committed(s: State, k: Key): State
    requires k in s.open
  {
    var run := s.open[k];
    if run.pending == 0 then s else
      var t := Flushed(s, k, run);
      t.(open := t.open[k := run.(pending := 0)])
  }

  /** popitem(last=False), then flush. When the flush fails the run is gone. */
  function Evicted(s: State, commits: bool): State
    requires s.order != [] && s.order[0] in s.open
  {
    var k := s.order[0];
    var run := s.open[k];
    var t := s.(open := s.open - {k}, order := s.order[1..]);
    if run.pending == 0 || !commits then t else Flushed(t, k, run)
  }

  /** Does adding key `k` fail because the run it evicts cannot be flushed? */
  predicate EvictionFails(cfg: Config, s: State, k: Key, commits: bool) {
    && k !in s.open && |s.order| >= cfg.maxOpen && s.order != []
    && s.order[0] in s.open && s.open[s.order[0]].pending > 0 && !commits
  }

  /** `order` lists each of `keys` once, and nothing else. */
  predicate Lists<T(==)>(order: seq<T>, keys: set<T>) {
    && (forall i | 0 <= i < |order| :: order[i] in keys)
    && (forall i, j | 0 <= i < j < |order| :: order[i] != order[j])
    && |order| == |keys|
  }

  predicate OrderListsOpen(s: State) {
    Lists(s.order, s.open.Keys)
  }

  function Room(cfg: Config, s: State, k: Key, commits: bool): State
    requires cfg.Valid() && OrderListsOpen(s)
  {
    if k !in s.open && |s.order| >= cfg.maxOpen then Evicted(s, commits) else s
  }

  function Placed(cfg: Config, s: State, k: Key, o: Observation): State {
    var score := cfg.score(k);
    if k in s.open then
      s.(open := s.open[k := Counted(cfg.capacity, score, s.open[k], o)], order := Without(s.order, k) + [k])
    else
      var run := Loaded(cfg.capacity, score, RowOf(s, k), TableFor(s, k), o);
      s.(open := s.open[k := Counted(cfg.capacity, score, run, o)], order := s.order + [k])
  }

  /** add: `commits` says whether a flush it needs succeeds. */
  function Added(cfg: Config, s: State, item: Item, commits: bool): State
    requires cfg.Valid() && OrderListsOpen(s)
  {
    var k := KeyOf(cfg, item);
    if s.closed then s
    else
      var t := Room(cfg, s, k, commits);
      if EvictionFails(cfg, s, k, commits) then t else Placed(cfg, t, k, ObservationOf(item))
  }

  /** flush from position `i` on; the transaction after `budget` successful ones fails. */
  function FlushedFrom(s: State, i: nat, budget: nat): State
    requires OrderListsOpen(s) && i <= |s.order|
    decreases |s.order| - i
  {
    if i == |s.order| then s
    else if s.open[s.order[i]].pending == 0 then FlushedFrom(s, i + 1, budget)
    else if budget == 0 then s
    else
      var t := Committed(s, s.order[i]);
      CommittedOrder(s, s.order[i]);
      FlushedFrom(t, i + 1, budget - 1)
  }

  predicate AllFlushed(s: State) {
    forall k | k in s.open :: s.open[k].pending == 0
  }

  function Closed(s: State, budget: nat): State
    requires OrderListsOpen(s)
  {
    if s.closed then s else
      var t := FlushedFrom(s, 0, budget);
      if AllFlushed(t) then t.(open := map[], order := [], closed := true) else t
  }

  /** The process dies and a new one opens the same tables. */
  function Crashed(s: State): State {
    s.(open := map[], order := [], closed := false)
  }

  lemma CommittedOrder(s: State, k: Key)
    requires OrderListsOpen(s) && k in s.open
    ensures OrderListsOpen(Committed(s, k)) && Committed(s, k).order == s.order
  {
    var t := Committed(s, k);
    assert t.open.Keys == s.open.Keys;
  }

  datatype Op =
    | Add(item: Item, commits: bool)
    | Flush(budget: nat)
    | Close(budget: nat)
    | Crash

  function Apply(cfg: Config, s: State, op: Op): State
    requires cfg.Valid() && OrderListsOpen(s)
  {
    match op
    case Add(item, commits) => Added(cfg, s, item, commits)
    case Flush(budget) => FlushedFrom(s, 0, budget)
    case Close(budget) => Closed(s, budget)
    case Crash => Crashed(s)
  }
}
