/** Watermark consolidation: the ledger's events of a task are folded page by page into
    task-history episodes. Reading a page, creating its episode and completing its job are
    separate transactions; appends and crashes may fall between them. */
module Consolidation {
  import opened Wrappers

  type TaskId = nat

  type EventId = nat

  /** A row of the ledger; its sequence is its position plus one. */
  datatype Event = Event(id: EventId, task: Option<TaskId>)

  datatype Episode = Episode(low: nat, high: nat, refs: seq<EventId>)

  /** The page limit of one call. */
  const PAGE: nat := 1000

  /** A page that was read, and whether its episode has been created. */
  datatype Pending = Pending(task: TaskId, episode: Episode, created: bool)

  datatype Job = Job(task: TaskId, low: nat, high: nat)

  datatype State = State(
    events: seq<Event>, tasks: set<TaskId>, episodes: map<TaskId, seq<Episode>>, jobs: set<Job>,
        pending: Option<Pending>)

  const Initial: State := State([], {}, map[], {}, None)

  function EpisodesOf(s: State, task: TaskId): seq<Episode> {
    if task in s.episodes then s.episodes[task] else []
  }

  /** COALESCE(MAX(input_watermark_end), 0). */
  function Watermark(episodes: seq<Episode>): nat {
    if episodes == [] then 0 else
      var rest := Watermark(episodes[..|episodes| - 1]);
      var last := episodes[|episodes| - 1].high;
      if last > rest then last else rest
  }

  /** The sequences of a task's events above a watermark, ascending. */
  function Above(events: seq<Event>, task: TaskId, watermark: nat): seq<nat> {
    if events == [] then [] else
      Above(events[..|events| - 1], task, watermark)
      + if |events| > watermark && events[|events| - 1].task == Some(task) then [|events|] else []
  }

  function Page(events: seq<Event>, task: TaskId, watermark: nat): seq<nat> {
    var rows := Above(events, task, watermark);
    if |rows| > PAGE then rows[..PAGE] else rows
  }

  /** The ids of a task's events with lo < sequence <= hi. */
  function Ids(events: seq<Event>, task: TaskId, lo: nat, hi: nat): seq<EventId> {
    if events == [] then [] else
      Ids(events[..|events| - 1], task, lo, hi)
      + if lo < |events| <= hi && events[|events| - 1].task == Some(task) then [events[|events| - 1].id] else []
  }

  function IdsAt(events: seq<Event>, rows: seq<nat>): seq<EventId>
    requires forall i | 0 <= i < |rows| :: 1 <= rows[i] <= |events|
  {
    seq(|rows|, i requires 0 <= i < |rows| => events[rows[i] - 1].id)
  }

  predicate Indexed(events: seq<Event>, rows: seq<nat>) {
    forall i | 0 <= i < |rows| :: 1 <= rows[i] <= |events|
  }

  /** Ascending sequences of the task's events, all above the watermark. */
  ghost predicate RowsOf(events: seq<Event>, task: TaskId, watermark: nat, rows: seq<nat>) {
    && (forall i | 0 <= i < |rows| :: watermark < rows[i] <= |events|)
    && (forall i | 0 <= i < |rows| :: IsOf(events, task, rows[i]))
    && (forall i, j | 0 <= i < j < |rows| :: rows[i] < rows[j])
  }

  predicate IsOf(events: seq<Event>, task: TaskId, row: nat) {
    1 <= row <= |events| && events[row - 1].task == Some(task)
  }

  lemma {:induction false} AboveMeaning(events: seq<Event>, task: TaskId, watermark: nat)
    ensures RowsOf(events, task, watermark, Above(events, task, watermark))
  {
    if events != [] {
      var front := events[..|events| - 1];
      AboveMeaning(front, task, watermark);
      var rows := Above(front, task, watermark);
      forall i | 0 <= i < |rows| ensures IsOf(events, task, rows[i]) {
        assert IsOf(front, task, rows[i]);
      }
    }
  }

  function PageRows(events: seq<Event>, task: TaskId, watermark: nat): (rows: seq<nat>)
    ensures Indexed(events, rows)
  {
    AboveMeaning(events, task, watermark);
    Page(events, task, watermark)
  }

  // ------------------------------------------------------------------------ steps

  datatype Step =
    | Append(event: Event)
    | OpenTask(name: TaskId)
    | ReadPage(name: TaskId)
    | CreateEpisode
    | CommitJob
    | Crash

  function PageEpisode(events: seq<Event>, rows: seq<nat>): Episode
    requires rows != [] && Indexed(events, rows)
  {
    Episode(rows[0], rows[|rows| - 1], IdsAt(events, rows))
  }

  /** The first transaction of consolidate_task: nothing to do, a page already completed,
      or a page to work on. */
  function PageRead(s: State, task: TaskId): State {
    var rows := PageRows(s.events, task, Watermark(EpisodesOf(s, task)));
    if task !in s.tasks || rows == [] then s
    else
      var page := PageEpisode(s.events, rows);
      if Job(task, page.low, page.high) in s.jobs then s
      else s.(pending := Some(Pending(task, page, false)))
  }

  predicate SameRange(a: Episode, b: Episode) {
    a.low == b.low && a.high == b.high
  }

  /** ON CONFLICT DO NOTHING on the range. */
  function Created(s: State): State {
    if s.pending.None? || s.pending.value.created then s
    else
      var p := s.pending.value;
      var existing := EpisodesOf(s, p.task);
      s.(episodes := if exists i :: 0 <= i < |existing| && SameRange(existing[i], p.episode) then s.episodes
                     else s.episodes[p.task := existing + [p.episode]],
         pending := Some(p.(created := true)))
  }

  function Committed(s: State): State {
    if s.pending.None? || !s.pending.value.created then s
    else
      var p := s.pending.value;
      s.(jobs := s.jobs + {Job(p.task, p.episode.low, p.episode.high)}, pending := None)
  }

  function Apply(s: State, step: Step): State {
    match step
    case Append(event) => s.(events := s.events + [event])
    case OpenTask(task) => s.(tasks := s.tasks + {task})
    case ReadPage(task) => if s.pending.None? then PageRead(s, task) else s
    case CreateEpisode => Created(s)
    case CommitJob => Committed(s)
    case Crash => s.(pending := None)
  }

  function After(steps: seq<Step>): State {
    if steps == [] then Initial else Apply(After(steps[..|steps| - 1]), steps[|steps| - 1])
  }

  // -------------------------------------------------------------------- arithmetic

  lemma {:induction false} IdsSplit(events: seq<Event>, task: TaskId, lo: nat, mid: nat, hi: nat)
    requires lo <= mid <= hi
    ensures Ids(events, task, lo, hi) == Ids(events, task, lo, mid) + Ids(events, task, mid, hi)
  {
    if events != [] {
      IdsSplit(events[..|events| - 1], task, lo, mid, hi);
      NoIds(events[..|events| - 1], task, mid, hi);
    }
  }

  /** Nothing lies above the end of the ledger. */
  lemma {:induction false} NoIds(events: seq<Event>, task: TaskId, lo: nat, hi: nat)
    ensures lo >= |events| ==> Ids(events, task, lo, hi) == []
  {
    if events != [] { NoIds(events[..|events| - 1], task, lo, hi); }
  }

  lemma IdsAppend(events: seq<Event>, e: Event, task: TaskId, lo: nat, hi: nat)
    requires hi <= |events|
    ensures Ids(events + [e], task, lo, hi) == Ids(events, task, lo, hi)
  {
    assert (events + [e])[..|events|] == events;
  }

  lemma IdsAtFront(events: seq<Event>, rows: seq<nat>)
    requires events != [] && Indexed(events[..|events| - 1], rows)
    ensures Indexed(events, rows) && IdsAt(events, rows) == IdsAt(events[..|events| - 1], rows)
  {
  }

  lemma IdsAtLast(events: seq<Event>, rows: seq<nat>)
    requires events != [] && Indexed(events, rows)
    ensures Indexed(events, rows + [|events|])
            && IdsAt(events, rows + [|events|]) == IdsAt(events, rows) + [events[|events| - 1].id]
  {
  }

  /** The rows above a watermark, up to one of them, are the ids up to it. */
  lemma {:induction false} RowsAreIds(events: seq<Event>, task: TaskId, watermark: nat, n: nat)
    requires 0 < n <= |Above(events, task, watermark)|
    ensures var rows := Above(events, task, watermark);
            Indexed(events, rows[..n]) && IdsAt(events, rows[..n]) == Ids(events, task, watermark, rows[n - 1])
    decreases |events|, 0
  {
    var front, rows := events[..|events| - 1], Above(events, task, watermark);
    var earlier := Above(front, task, watermark);
    AboveMeaning(front, task, watermark);
    if n <= |earlier| {
      RowsAreIds(front, task, watermark, n);
      assert rows[..n] == earlier[..n] && rows[n - 1] == earlier[n - 1] < |events|;
      IdsAtFront(events, earlier[..n]);
      hide IdsAt, Above;
    } else {
      assert rows == earlier + [|events|] && rows[..n] == rows && earlier[..|earlier|] == earlier;
      EarlierIds(front, task, watermark);
      IdsAtFront(events, earlier);
      IdsAtLast(events, earlier);
      hide IdsAt, Above;
    }
  }

  lemma EarlierIds(events: seq<Event>, task: TaskId, watermark: nat)
    ensures var rows := Above(events, task, watermark);
            Indexed(events, rows) && IdsAt(events, rows) == Ids(events, task, watermark, |events| + 1)
    decreases |events|, 1
  {
    hide Above, Ids;
    var rows := Above(events, task, watermark);
    AboveMeaning(events, task, watermark);
    if rows != [] {
      RowsAreIds(events, task, watermark, |rows|);
      assert rows[..|rows|] == rows;
      IdsSplit(events, task, watermark, rows[|rows| - 1], |events| + 1);
      NoRowsBetween(events, task, watermark, |events| + 1);
    } else {
      NoRows(events, task, watermark, |events| + 1);
    }
  }

  lemma {:induction false} NoRows(events: seq<Event>, task: TaskId, watermark: nat, hi: nat)
    requires Above(events, task, watermark) == []
    ensures Ids(events, task, watermark, hi) == []
  {
    if events != [] { NoRows(events[..|events| - 1], task, watermark, hi); }
  }

  /** No ids lie above the last row. */
  lemma {:induction false} NoRowsBetween(events: seq<Event>, task: TaskId, watermark: nat, hi: nat)
    requires Above(events, task, watermark) != []
    ensures var rows := Above(events, task, watermark); Ids(events, task, rows[|rows| - 1], hi) == []
  {
    var front := events[..|events| - 1];
    var rows := Above(events, task, watermark);
    AboveMeaning(events, task, watermark);
    if rows[|rows| - 1] == |events| {
      NoIds(events, task, |events|, hi);
    } else {
      assert rows == Above(front, task, watermark);
      NoRowsBetween(front, task, watermark, hi);
    }
  }

  lemma PageIsIds(events: seq<Event>, task: TaskId, watermark: nat)
    requires PageRows(events, task, watermark) != []
    ensures var rows := PageRows(events, task, watermark);
            && watermark < rows[0] <= rows[|rows| - 1] <= |events|
            && IdsAt(events, rows) == Ids(events, task, watermark, rows[|rows| - 1])
  {
    AboveMeaning(events, task, watermark);
    var rows := Above(events, task, watermark);
    var page := PageRows(events, task, watermark);
    assert page == rows[..|page|];
    RowsAreIds(events, task, watermark, |page|);
  }

  // -------------------------------------------------------------------- invariant

  function Concat(episodes: seq<Episode>): seq<EventId> {
    if episodes == [] then [] else Concat(episodes[..|episodes| - 1]) + episodes[|episodes| - 1].refs
  }

  /** Ranges are disjoint and increasing. */
  ghost predicate Ordered(episodes: seq<Episode>) {
    && (forall i | 0 <= i < |episodes| :: 0 < episodes[i].low <= episodes[i].high)
    && (forall i, j | 0 <= i < j < |episodes| :: episodes[i].high < episodes[j].low)
  }

  /** The episodes of a task are exactly its events up to the watermark. */
  ghost predicate Partition(events: seq<Event>, task: TaskId, episodes: seq<Episode>) {
    && Ordered(episodes) && Watermark(episodes) <= |events|
    && Concat(episodes) == Ids(events, task, 0, Watermark(episodes))
  }

  ghost predicate JobsDone(s: State) {
    forall j | j in s.jobs :: j.high <= Watermark(EpisodesOf(s, j.task))
  }

  ghost predicate PendingOk(s: State) {
    s.pending.Some? ==>
      var p := s.pending.value;
      var w := Watermark(EpisodesOf(s, p.task));
      if p.created then p.episode.high <= w
      else
        && w < p.episode.low <= p.episode.high <= |s.events|
        && p.episode.refs == Ids(s.events, p.task, w, p.episode.high)
  }

  ghost predicate AllPartitioned(s: State) {
    forall task: TaskId :: Partition(s.events, task, EpisodesOf(s, task))
  }

  ghost predicate Inv(s: State) {
    AllPartitioned(s) && JobsDone(s) && PendingOk(s)
  }

  lemma {:induction false} WatermarkBounds(episodes: seq<Episode>, i: nat)
    requires i < |episodes|
    ensures episodes[i].high <= Watermark(episodes)
  {
    if i < |episodes| - 1 { WatermarkBounds(episodes[..|episodes| - 1], i); }
  }

  lemma AppendKeepsPartition(events: seq<Event>, e: Event, task: TaskId, episodes: seq<Episode>)
    requires Partition(events, task, episodes)
    ensures Partition(events + [e], task, episodes)
  {
    IdsAppend(events, e, task, 0, Watermark(episodes));
  }

  lemma CreateKeepsPartition(events: seq<Event>, task: TaskId, episodes: seq<Episode>, e: Episode)
    requires Partition(events, task, episodes)
    requires Watermark(episodes) < e.low <= e.high <= |events|
             && e.refs == Ids(events, task, Watermark(episodes), e.high)
    ensures Partition(events, task, episodes + [e]) && Watermark(episodes + [e]) == e.high
    ensures forall i | 0 <= i < |episodes| :: !SameRange(episodes[i], e)
  {
    var longer := episodes + [e];
    assert longer[..|episodes|] == episodes;
    IdsSplit(events, task, 0, Watermark(episodes), e.high);
    forall i | 0 <= i < |episodes| ensures episodes[i].high < e.low {
      WatermarkBounds(episodes, i);
    }
    hide Ids, Watermark;
  }

  /** A job that is complete is never met again: its page is below the watermark. */
  lemma CompleteJobIsBelow(s: State, task: TaskId)
    requires Inv(s) && PageRows(s.events, task, Watermark(EpisodesOf(s, task))) != []
    ensures var rows := PageRows(s.events, task, Watermark(EpisodesOf(s, task)));
            Job(task, rows[0], rows[|rows| - 1]) !in s.jobs
  {
    PageIsIds(s.events, task, Watermark(EpisodesOf(s, task)));
    hide Page, PageRows, Watermark, Ids;
  }

  /** Steps that leave the ledger and the episodes alone. */
  lemma TablesSame(s: State, t: State)
    requires Inv(s) && t.events == s.events && t.episodes == s.episodes && JobsDone(t) && PendingOk(t)
    ensures Inv(t)
  {
    hide Partition, JobsDone, PendingOk;
    forall task: TaskId ensures Partition(t.events, task, EpisodesOf(t, task)) {
      assert Partition(s.events, task, EpisodesOf(s, task));
    }
  }

  lemma PendingOnly(s: State, t: State)
    requires Inv(s) && t == s.(pending := t.pending) && PendingOk(t)
    ensures Inv(t)
  {
    hide Partition, PendingOk, Watermark;
    assert JobsDone(t);
    TablesSame(s, t);
  }

  lemma ReadPending(s: State, task: TaskId)
    requires s.pending.None?
    ensures var t := PageRead(s, task); PendingOk(t) && t == s.(pending := t.pending)
  {
    var w := Watermark(EpisodesOf(s, task));
    var rows := PageRows(s.events, task, w);
    if rows != [] { PageIsIds(s.events, task, w); }
    hide Watermark, Ids, Page, PageRows, IdsAt;
  }

  lemma ReadStep(s: State, task: TaskId)
    requires Inv(s) && s.pending.None?
    ensures Inv(PageRead(s, task))
  {
    hide *;
    ReadPending(s, task);
    PendingOnly(s, PageRead(s, task));
  }

  lemma StepKeeps(s: State, step: Step)
    requires Inv(s)
    ensures Inv(Apply(s, step))
  {
    hide Watermark, Partition, PageRead, Created;
    match step
    case Append(event) => AppendStep(s, event);
    case OpenTask(task) => TablesSame(s, Apply(s, step));
    case ReadPage(task) => if s.pending.None? { ReadStep(s, task); }
    case CreateEpisode => CreateStep(s);
    case CommitJob => TablesSame(s, Apply(s, step));
    case Crash => TablesSame(s, Apply(s, step));
  }

  lemma AppendPartitions(s: State, event: Event)
    requires AllPartitioned(s)
    ensures AllPartitioned(s.(events := s.events + [event]))
  {
    hide Partition;
    var t := s.(events := s.events + [event]);
    forall task: TaskId ensures Partition(t.events, task, EpisodesOf(t, task)) {
      assert Partition(s.events, task, EpisodesOf(s, task));
      AppendKeepsPartition(s.events, event, task, EpisodesOf(s, task));
    }
  }

  lemma AppendPending(s: State, event: Event)
    requires PendingOk(s) && JobsDone(s)
    ensures var t := s.(events := s.events + [event]); PendingOk(t) && JobsDone(t)
  {
    if s.pending.Some? && !s.pending.value.created {
      var p := s.pending.value;
      IdsAppend(s.events, event, p.task, Watermark(EpisodesOf(s, p.task)), p.episode.high);
    }
    hide Watermark, Ids;
  }

  lemma AppendStep(s: State, event: Event)
    requires Inv(s)
    ensures Inv(Apply(s, Append(event)))
  {
    AppendPartitions(s, event);
    AppendPending(s, event);
    hide AllPartitioned, JobsDone, PendingOk;
  }

  /** Creating the episode of the pending page appends it. */
  lemma CreatedState(s: State)
    requires Inv(s) && s.pending.Some? && !s.pending.value.created
    ensures var p := s.pending.value;
            && Created(s) == s.(episodes := s.episodes[p.task := EpisodesOf(s, p.task) + [p.episode]],
                pending := Some(p.(created := true)))
            && Partition(s.events, p.task, EpisodesOf(s, p.task) + [p.episode])
            && Watermark(EpisodesOf(s, p.task) + [p.episode]) == p.episode.high > Watermark(EpisodesOf(s, p.task))
  {
    var p := s.pending.value;
    CreateKeepsPartition(s.events, p.task, EpisodesOf(s, p.task), p.episode);
    hide Partition, Watermark, Ids;
  }

  /** Appending an episode to a task that keeps its partition and raises its watermark. */
  lemma GrowPartitions(s: State, t: State, task: TaskId, e: Episode)
    requires AllPartitioned(s) && t.events == s.events && t.episodes == s.episodes[task := EpisodesOf(s, task) + [e]]
    requires Partition(s.events, task, EpisodesOf(s, task) + [e])
    ensures AllPartitioned(t)
  {
    hide Partition;
    forall other: TaskId ensures Partition(t.events, other, EpisodesOf(t, other)) {
      assert Partition(s.events, other, EpisodesOf(s, other));
    }
  }

  lemma GrowJobs(s: State, t: State, task: TaskId, e: Episode)
    requires JobsDone(s) && t.jobs == s.jobs && t.episodes == s.episodes[task := EpisodesOf(s, task) + [e]]
    requires Watermark(EpisodesOf(s, task) + [e]) >= Watermark(EpisodesOf(s, task))
    ensures JobsDone(t)
  {
    hide Watermark;
    forall j | j in t.jobs ensures j.high <= Watermark(EpisodesOf(t, j.task)) {
      assert j.high <= Watermark(EpisodesOf(s, j.task));
    }
  }

  lemma CreateStep(s: State)
    requires Inv(s)
    ensures Inv(Created(s))
  {
    if s.pending.Some? && !s.pending.value.created {
      var t, p := Created(s), s.pending.value;
      CreatedState(s);
      hide Created, Partition, Watermark, Ids, AllPartitioned, JobsDone;
      GrowPartitions(s, t, p.task, p.episode);
      GrowJobs(s, t, p.task, p.episode);
    }
  }

  lemma {:induction false} RunKeeps(steps: seq<Step>)
    ensures Inv(After(steps))
  {
    if steps == [] {
      forall task: TaskId ensures Partition([], task, EpisodesOf(Initial, task)) { }
    } else {
      RunKeeps(steps[..|steps| - 1]);
      StepKeeps(After(steps[..|steps| - 1]), steps[|steps| - 1]);
      hide Inv, Apply;
    }
  }

  /** Consolidation partitions history: at any point of any run, with crashes between the
      transactions of a call, the episodes of a task have disjoint increasing ranges, and
      their references, in order, are exactly the task's events up to the watermark, none
      missing and none twice; no call is short-circuited by an already completed job. */
  lemma HistoryIsPartitioned(steps: seq<Step>, task: TaskId)
    ensures var s := After(steps);
            var episodes := EpisodesOf(s, task);
            && Ordered(episodes)
            && Concat(episodes) == Ids(s.events, task, 0, Watermark(episodes))
            && var rows := PageRows(s.events, task, Watermark(episodes));
            (rows != [] ==> Job(task, rows[0], rows[|rows| - 1]) !in s.jobs)
  {
    RunKeeps(steps);
    var s := After(steps);
    assert Partition(s.events, task, EpisodesOf(s, task));
    if PageRows(s.events, task, Watermark(EpisodesOf(s, task))) != [] { CompleteJobIsBelow(s, task); }
    hide After, Ids, Watermark, PageRows, Ordered;
  }

  /** One undisturbed call. */
  function Consolidated(s: State, task: TaskId): State {
    Apply(Apply(Apply(s, ReadPage(task)), CreateEpisode), CommitJob)
  }

  /** How many events of a task still lie above its watermark. */
  function Backlog(s: State, task: TaskId): nat {
    |Above(s.events, task, Watermark(EpisodesOf(s, task)))|
  }

  lemma {:induction false} AboveSuffix(events: seq<Event>, task: TaskId, watermark: nat, n: nat)
    requires 0 < n <= |Above(events, task, watermark)|
    ensures var rows := Above(events, task, watermark);
            Above(events, task, rows[n - 1]) == rows[n..]
  {
    var front, rows := events[..|events| - 1], Above(events, task, watermark);
    var earlier := Above(front, task, watermark);
    AboveMeaning(front, task, watermark);
    AboveMeaning(events, task, watermark);
    if n <= |earlier| {
      AboveSuffix(front, task, watermark, n);
      assert rows[n - 1] == earlier[n - 1] < |events|;
    } else {
      NothingAbove(events, task, |events|);
    }
  }

  lemma {:induction false} NothingAbove(events: seq<Event>, task: TaskId, watermark: nat)
    requires watermark >= |events|
    ensures Above(events, task, watermark) == []
  {
    if events != [] { NothingAbove(events[..|events| - 1], task, watermark); }
  }

  /** The effect of an undisturbed call that has something to do. */
  lemma CallCreates(s: State, task: TaskId)
    requires Inv(s) && s.pending.None? && task in s.tasks
    requires PageRows(s.events, task, Watermark(EpisodesOf(s, task))) != []
    ensures var rows, t := PageRows(s.events, task, Watermark(EpisodesOf(s, task))), Consolidated(s, task);
            && t.events == s.events && t.pending.None? && t.tasks == s.tasks && t.jobs != s.jobs
            && Watermark(EpisodesOf(t, task)) == rows[|rows| - 1]
  {
    var rows := PageRows(s.events, task, Watermark(EpisodesOf(s, task)));
    CompleteJobIsBelow(s, task);
    ReadStep(s, task);
    var r := PageRead(s, task);
    hide PageRows, Watermark, Partition, Ids, IdsAt, Inv;
    CreatedState(r);
    hide Created;
    assert Job(task, rows[0], rows[|rows| - 1]) !in s.jobs;
  }

  lemma CallIdles(s: State, task: TaskId)
    requires s.pending.None?
    requires task !in s.tasks || PageRows(s.events, task, Watermark(EpisodesOf(s, task))) == []
    ensures Consolidated(s, task) == s
  {
    hide PageRows, Watermark;
  }

  /** The page is the backlog, cut off at the page limit. */
  lemma PageOfBacklog(s: State, task: TaskId)
    ensures var n := Backlog(s, task);
            |PageRows(s.events, task, Watermark(EpisodesOf(s, task)))| == if n > PAGE then PAGE else n
    ensures var rows, n := PageRows(s.events, task, Watermark(EpisodesOf(s, task))), Backlog(s, task);
            rows != [] ==> |Above(s.events, task, rows[|rows| - 1])| == n - |rows|
  {
    var w := Watermark(EpisodesOf(s, task));
    var rows := PageRows(s.events, task, w);
    if rows != [] { AboveSuffix(s.events, task, w, |rows|); }
    hide Above, Watermark;
  }

  /** A call takes exactly one page of 1000 off the backlog of a known task, and does nothing for
      an unknown one; so without new events repeated calls drain it. */
  lemma CallDrainsPage(s: State, task: TaskId)
    requires Inv(s) && s.pending.None?
    ensures Backlog(Consolidated(s, task), task)
            == if task !in s.tasks then Backlog(s, task)
               else if Backlog(s, task) > 1000 then Backlog(s, task) - 1000 else 0
    ensures Consolidated(s, task).events == s.events && Consolidated(s, task).pending.None?
    ensures Consolidated(s, task) == s <==> task !in s.tasks || Backlog(s, task) == 0
  {
    PageOfBacklog(s, task);
    hide Consolidated, Watermark, Above, Inv, PageRows;
    if task in s.tasks && PageRows(s.events, task, Watermark(EpisodesOf(s, task))) != [] {
      CallCreates(s, task);
    } else {
      CallIdles(s, task);
    }
  }

  /** `n` calls in a row. */
  function CalledTimes(s: State, task: TaskId, n: nat): State
    decreases n
  {
    if n == 0 then s else CalledTimes(Consolidated(s, task), task, n - 1)
  }

  /** How many calls a backlog takes: its pages, the last one perhaps not full. */
  function CallsFor(backlog: nat): nat {
    (backlog + PAGE - 1) / PAGE
  }

  function LeftAfter(backlog: nat, n: nat): nat {
    if backlog > n * PAGE then backlog - n * PAGE else 0
  }

  lemma LeftStep(backlog: nat, n: nat)
    requires n > 0
    ensures LeftAfter(LeftAfter(backlog, 1), n - 1) == LeftAfter(backlog, n)
  {
  }

  lemma LeftNothing(backlog: nat, n: nat)
    ensures LeftAfter(backlog, n) == 0 <==> n >= CallsFor(backlog)
  {
  }

  /** A known task and its tables between calls, with `n` calls' worth of backlog gone. */
  ghost predicate Drained(s: State, t: State, task: TaskId, n: nat) {
    && Inv(t) && t.pending.None? && t.events == s.events && t.tasks == s.tasks && task in t.tasks
    && Backlog(t, task) == LeftAfter(Backlog(s, task), n)
  }

  lemma CallDrains(s: State, task: TaskId)
    requires Inv(s) && s.pending.None? && task in s.tasks
    ensures Drained(s, s, task, 0) && Drained(s, Consolidated(s, task), task, 1)
    ensures Consolidated(s, task) == s <==> Backlog(s, task) == 0
  {
    CallDrainsPage(s, task);
    CallKeeps(s, task);
    CallTasks(s, task);
    hide Backlog, Consolidated, Inv;
  }

  lemma DrainedOn(s: State, t: State, u: State, task: TaskId, n: nat)
    requires Drained(s, t, task, 1) && Drained(t, u, task, n)
    ensures Drained(s, u, task, n + 1)
  {
    LeftStep(Backlog(s, task), n + 1);
    hide Backlog, Inv, LeftAfter;
  }

  lemma DrainedMeans(s: State, t: State, task: TaskId, n: nat)
    requires Drained(s, t, task, n)
    ensures Inv(t) && t.pending.None? && task in t.tasks && Backlog(t, task) == LeftAfter(Backlog(s, task), n)
  {
    hide Backlog, Inv, LeftAfter;
  }

  lemma {:induction false} CallsDrain(s: State, task: TaskId, n: nat)
    requires Inv(s) && s.pending.None? && task in s.tasks
    ensures Drained(s, CalledTimes(s, task, n), task, n)
    decreases n
  {
    hide Inv, Drained, Consolidated, Backlog, LeftAfter;
    CallDrains(s, task);
    if n > 0 {
      DrainedMeans(s, Consolidated(s, task), task, 1);
      CallsDrain(Consolidated(s, task), task, n - 1);
      DrainedOn(s, Consolidated(s, task), CalledTimes(s, task, n), task, n - 1);
    }
  }

  /** Without new events calls drain the backlog: that many, and no fewer, bring a known task
      to rest, where every further call does nothing. */
  lemma CallsDrainBacklog(s: State, task: TaskId, n: nat)
    requires Inv(s) && s.pending.None? && task in s.tasks
    ensures var t := CalledTimes(s, task, n);
            && Backlog(t, task) == LeftAfter(Backlog(s, task), n)
            && (Consolidated(t, task) == t <==> n >= CallsFor(Backlog(s, task)))
  {
    CallsDrain(s, task, n);
    hide *;
    DrainedMeans(s, CalledTimes(s, task, n), task, n);
    CallDrains(CalledTimes(s, task, n), task);
    LeftNothing(Backlog(s, task), n);
  }

  lemma CallTasks(s: State, task: TaskId)
    ensures Consolidated(s, task).tasks == s.tasks
  {
    hide Watermark, PageRows;
  }

  // ------------------------------------------------------------------ consolidator

  /** The consolidator as an object over its tables; no crash falls into a call here. */
  class MemoryConsolidator {
    var events: seq<Event>
    var tasks: set<TaskId>
    var episodes: map<TaskId, seq<Episode>>
    var jobs: set<Job>

    constructor (events: seq<Event>, tasks: set<TaskId>)
      ensures View() == State(events, tasks, map[], {}, None)
    {
      this.events, this.tasks, episodes, jobs := events, tasks, map[], {};
    }

    function View(): State
      reads this
    {
      State(events, tasks, episodes, jobs, None)
    }

    /** The first events of a task above its watermark. */
    method ReadRows(task: TaskId, watermark: nat) returns (rows: seq<nat>)
      ensures rows == Page(events, task, watermark)
    {
      rows := [];
      ghost var all: seq<nat> := [];
      for i := 0 to |events|
        invariant all == Above(events[..i], task, watermark)
        invariant rows == if |all| > PAGE then all[..PAGE] else all
      {
        assert events[..i + 1][..i] == events[..i];
        if i + 1 > watermark && events[i].task == Some(task) {
          all := all + [i + 1];
          if |rows| < PAGE { rows := rows + [i + 1]; }
        }
      }
      assert events[..|events|] == events;
    }

    /** Fold the next page of a task into an episode. A completed job for the page cannot
        be met here: CompleteJobIsBelow. */
    method ConsolidateTask(task: TaskId) returns (created: Option<Episode>)
      requires Inv(View())
      modifies this
      ensures Inv(View()) && View() == Consolidated(old(View()), task)
      ensures created.None? <==> task !in tasks || Backlog(old(View()), task) == 0
      ensures created.Some? ==> EpisodesOf(View(), task) == EpisodesOf(old(View()), task) + [created.value]
      ensures events == old(events)
    {
      hide Inv, Watermark, Above, Page, PageRows, Consolidated, PageEpisode, Indexed, IdsAt, Backlog;
      var known := EpisodesOf(View(), task);
      var rows := ReadRows(task, Watermark(known));
      CallFacts(View(), task, rows);
      if task !in tasks || rows == [] { return None; }
      var episode := PageEpisode(events, rows);
      episodes := episodes[task := known + [episode]];
      jobs := jobs + {Job(task, episode.low, episode.high)};
      return Some(episode);
    }
  }

  lemma CallFacts(s: State, task: TaskId, rows: seq<nat>)
    requires Inv(s) && s.pending.None? && rows == Page(s.events, task, Watermark(EpisodesOf(s, task)))
    ensures Indexed(s.events, rows) && Inv(Consolidated(s, task)) && (Backlog(s, task) == 0 <==> rows == [])
    ensures Consolidated(s, task)
            == if task !in s.tasks || rows == [] then s
               else
                 var page := PageEpisode(s.events, rows);
                 s.(episodes := s.episodes[task := EpisodesOf(s, task) + [page]],
                     jobs := s.jobs + {Job(task, page.low, page.high)})
  {
    PageOfBacklog(s, task);
    assert rows == PageRows(s.events, task, Watermark(EpisodesOf(s, task)));
    CallKeeps(s, task);
    hide *;
    if task !in s.tasks || rows == [] { CallIdles(s, task); } else { CallResult(s, task); }
  }

  lemma CallKeeps(s: State, task: TaskId)
    requires Inv(s)
    ensures Inv(Consolidated(s, task))
  {
    StepKeeps(s, ReadPage(task));
    var r := Apply(s, ReadPage(task));
    StepKeeps(r, CreateEpisode);
    StepKeeps(Apply(r, CreateEpisode), CommitJob);
    hide Inv, Apply;
  }

  lemma PageReadIs(s: State, task: TaskId)
    requires Inv(s) && s.pending.None? && task in s.tasks
    requires PageRows(s.events, task, Watermark(EpisodesOf(s, task))) != []
    ensures var page := PageEpisode(s.events, PageRows(s.events, task, Watermark(EpisodesOf(s, task))));
            PageRead(s, task) == s.(pending := Some(Pending(task, page, false)))
  {
    CompleteJobIsBelow(s, task);
    hide Inv, PageRows, Watermark, IdsAt;
  }

  lemma CallResult(s: State, task: TaskId)
    requires Inv(s) && s.pending.None? && task in s.tasks
    requires PageRows(s.events, task, Watermark(EpisodesOf(s, task))) != []
    ensures var page := PageEpisode(s.events, PageRows(s.events, task, Watermark(EpisodesOf(s, task))));
            Consolidated(s, task)
            == s.(episodes := s.episodes[task := EpisodesOf(s, task) + [page]],
                jobs := s.jobs + {Job(task, page.low, page.high)})
  {
    PageReadIs(s, task);
    ReadStep(s, task);
    var page := PageEpisode(s.events, PageRows(s.events, task, Watermark(EpisodesOf(s, task))));
    hide *;
    var known := EpisodesOf(s, task);
    CallEnd(s, PageRead(s, task), task, page);
    StepsOfCall(s, task);
  }

  lemma StepsOfCall(s: State, task: TaskId)
    requires s.pending.None?
    ensures Consolidated(s, task) == Committed(Created(PageRead(s, task)))
  {
    hide PageRead, Created, Committed;
  }

  lemma CallEnd(s: State, r: State, task: TaskId, page: Episode)
    requires Inv(r) && r == s.(pending := Some(Pending(task, page, false)))
    ensures Committed(Created(r))
            == s.(episodes := s.episodes[task := EpisodesOf(s, task) + [page]],
                jobs := s.jobs + {Job(task, page.low, page.high)}, pending := None)
  {
    hide Partition, Watermark, Inv;
    CreatedState(r);
    hide Created;
  }
}
