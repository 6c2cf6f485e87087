/** Projection checkpoints: each is an event of the ledger and a row committed with it;
    restoring looks for the newest sound one. */
module Checkpoints {
  import opened Wrappers
  import opened Ledger
  import opened LedgerTheorems

  datatype Checkpoint = Checkpoint(id: string, sequence: nat, state: string, checksum: Hash, clean: bool)

  /** The checksum of (sequence, state) and whether a state is well-formed JSON. */
  datatype Codec = Codec(checksum: (nat, string) -> Hash, wellFormed: string -> bool)

  /** How many of the newest checkpoints pruning keeps and restoring looks at. */
  const RECENT: nat := 32

  function CleanOnes(s: seq<Checkpoint>): seq<Checkpoint> {
    if s == [] then [] else
      CleanOnes(s[..|s| - 1]) + if s[|s| - 1].clean then [s[|s| - 1]] else []
  }

  /** Delete what is neither clean nor among the newest; oldest first. */
  function Pruned(s: seq<Checkpoint>): seq<Checkpoint> {
    if |s| <= RECENT then s else CleanOnes(s[..|s| - RECENT]) + s[|s| - RECENT..]
  }

  function MaxSequence(rows: seq<Row>): nat {
    if rows == [] then 0 else rows[|rows| - 1].sequence
  }

  /** The projection a checkpoint event carries. */
  function Projecting(codec: Codec, id: string, encoded: string, clean: bool)
    : (seq<Checkpoint>, nat) -> Option<seq<Checkpoint>>
  {
    (table: seq<Checkpoint>, sequence: nat) =>
      Some(Pruned(table + [Checkpoint(id, sequence, encoded, codec.checksum(sequence, encoded), clean)]))
  }

  datatype Written = Prior(id: string) | Created(id: string) | Failed

  /** write: an unclean write after no new event reuses the newest checkpoint. `encoded` is
      the snapshot, or None when it exceeds its size limit. */
  function Wrote(hasher: Hasher, codec: Codec, s: State<seq<Checkpoint>>, event: Event, id: string,
      encoded: Option<string>, clean: bool)
    : (State<seq<Checkpoint>>, Written)
  {
    if !clean && s.projected != [] && s.projected[|s.projected| - 1].sequence >= MaxSequence(s.rows)
    then (s, Prior(s.projected[|s.projected| - 1].id))
    else if encoded.None? then (s, Failed)
    else
      var o := Appended(hasher, s, Call(event, Some(Projecting(codec, id, encoded.value, clean)), None));
      (o.state, if o.stored.Raised? then Failed else Created(id))
  }

  // --------------------------------------------------------------------- restoring

  predicate Sound(codec: Codec, rows: seq<Row>, c: Checkpoint) {
    && c.sequence <= MaxSequence(rows)
    && c.checksum == codec.checksum(c.sequence, c.state)
    && codec.wellFormed(c.state)
    && Contiguous(Tail(rows, c.sequence), c.sequence)
  }

  /** The order in which the table of events is read: its primary key. */
  predicate InOrder(rows: seq<Row>) {
    forall i, j | 0 <= i < j < |rows| :: rows[i].sequence < rows[j].sequence
  }

  lemma {:induction false} TailEmpty(rows: seq<Row>, after: int)
    requires forall row | row in rows :: row.sequence <= after
    ensures Tail(rows, after) == []
  {
    if rows != [] { TailEmpty(rows[..|rows| - 1], after); }
  }

  /** Without a gap the distance to the head is the number of rows in between. */
  lemma DistanceIsCount(rows: seq<Row>, after: nat)
    requires InOrder(rows) && after <= MaxSequence(rows) && Contiguous(Tail(rows, after), after)
    ensures MaxSequence(rows) - after == |Tail(rows, after)|
  {
    if MaxSequence(rows) == after {
      TailEmpty(rows, after);
    } else {
      var tail := Tail(rows, after);
      assert tail[|tail| - 1] == rows[|rows| - 1];
    }
  }

  ghost predicate HasNumber(rows: seq<Row>, n: nat) {
    exists row :: row in rows && row.sequence == n
  }

  /** Every number above `after`, up to the greatest, is that of a row. */
  ghost predicate NothingMissing(rows: seq<Row>, after: nat) {
    forall n | after < n <= MaxSequence(rows) :: HasNumber(rows, n)
  }

  lemma {:induction false} TailIsAmong(rows: seq<Row>, after: int)
    ensures forall row :: row in Tail(rows, after) <==> row in rows && row.sequence > after
  {
    if rows != [] {
      TailIsAmong(rows[..|rows| - 1], after);
      assert rows == rows[..|rows| - 1] + [rows[|rows| - 1]];
    }
  }

  lemma FrontMissesNothing(rows: seq<Row>, after: nat)
    requires rows != [] && InOrder(rows) && NothingMissing(rows, after) && rows[|rows| - 1].sequence > after
    ensures var front, n := rows[..|rows| - 1], rows[|rows| - 1].sequence;
            InOrder(front) && if n == after + 1 then forall row | row in front :: row.sequence <= after
                              else front != [] && MaxSequence(front) == n - 1 && NothingMissing(front, after)
  {
    var front, last := rows[..|rows| - 1], rows[|rows| - 1];
    assert rows == front + [last];
    if last.sequence > after + 1 {
      assert HasNumber(rows, last.sequence - 1);
      var row :| row in rows && row.sequence == last.sequence - 1;
      assert row in front;
      assert MaxSequence(front) == last.sequence - 1;
      forall n | after < n <= MaxSequence(front) ensures HasNumber(front, n) {
        assert HasNumber(rows, n);
        var r :| r in rows && r.sequence == n;
        assert r in front;
      }
    }
  }

  lemma {:induction false} DenseIsContiguous(rows: seq<Row>, after: nat)
    requires InOrder(rows) && NothingMissing(rows, after)
    ensures Contiguous(Tail(rows, after), after)
  {
    if rows != [] && rows[|rows| - 1].sequence > after {
      var front := rows[..|rows| - 1];
      FrontMissesNothing(rows, after);
      if rows[|rows| - 1].sequence == after + 1 {
        TailEmpty(front, after);
      } else {
        DenseIsContiguous(front, after);
        DistanceIsCount(front, after);
      }
      hide NothingMissing, InOrder;
    } else if rows != [] {
      TailEmpty(rows, after);
    }
  }

  /** A checkpoint is sound exactly when the ledger reaches it, its checksum and its text are
      right, and none of the events after it is missing. */
  lemma SoundExactlyWhen(codec: Codec, rows: seq<Row>, c: Checkpoint)
    requires InOrder(rows)
    ensures Sound(codec, rows, c) <==>
              && c.sequence <= MaxSequence(rows) && c.checksum == codec.checksum(c.sequence, c.state)
              && codec.wellFormed(c.state) && NothingMissing(rows, c.sequence)
  {
    if c.sequence <= MaxSequence(rows) {
      if NothingMissing(rows, c.sequence) { DenseIsContiguous(rows, c.sequence); }
      var tail := Tail(rows, c.sequence);
      if Contiguous(tail, c.sequence) {
        DistanceIsCount(rows, c.sequence);
        TailIsAmong(rows, c.sequence);
        forall n | c.sequence < n <= MaxSequence(rows) ensures HasNumber(rows, n) {
          assert tail[n - c.sequence - 1] in tail;
        }
      }
    }
    hide Tail;
  }

  datatype Restored =
    | FreshStart(eventsAfter: nat)
    | Verified(checkpoint: Checkpoint, eventsAfter: nat)
    | Invalid(eventsAfter: nat)

  /** Among the 32 newest of the table. */
  predicate Newest(table: seq<Checkpoint>, i: int) {
    0 <= i < |table| && i >= |table| - 32
  }

  /** The newest candidates, at most RECENT of them. */
  function Candidates(table: seq<Checkpoint>): seq<Checkpoint> {
    if |table| <= RECENT then table else table[|table| - RECENT..]
  }

  /** Try the newest checkpoints one after the other, on any tables, tampered or not:
      the result is the newest sound one of the 32 newest, with the number of events after it. */
  method Restore(codec: Codec, rows: seq<Row>, table: seq<Checkpoint>) returns (r: Restored)
    ensures r.FreshStart? <==> table == []
    ensures r.Verified? <==> exists i :: Newest(table, i) && Sound(codec, rows, table[i])
    ensures r.Verified? ==> exists i :: Newest(table, i) && r.checkpoint == table[i] && Sound(codec, rows, table[i])
                                        && forall j | i < j < |table| :: !Sound(codec, rows, table[j])
    ensures r.eventsAfter == MaxSequence(rows) - if r.Verified? then r.checkpoint.sequence else 0
    ensures r.Verified? && InOrder(rows) ==> r.eventsAfter == |Tail(rows, r.checkpoint.sequence)|
  {
    if table == [] { return FreshStart(MaxSequence(rows)); }
    var candidates, maximum := Candidates(table), MaxSequence(rows);
    ghost var older := |table| - |candidates|;
    assert forall j | 0 <= j < |candidates| :: candidates[j] == table[older + j];
    var i := |candidates|;
    while i > 0
      invariant 0 <= i <= |candidates|
      invariant forall j | older + i <= j < |table| :: !Sound(codec, rows, table[j])
    {
      i := i - 1;
      var c := candidates[i];
      assert c == table[older + i];
      if c.sequence > maximum { continue; }
      if c.checksum != codec.checksum(c.sequence, c.state) { continue; }
      if !codec.wellFormed(c.state) { continue; }
      var continuity := VerifySequenceContinuity(rows, c.sequence);
      if !continuity.valid { continue; }
      assert Newest(table, older + i) && Sound(codec, rows, table[older + i]);
      if InOrder(rows) { DistanceIsCount(rows, c.sequence); }
      return Verified(c, maximum - c.sequence);
    }
    return Invalid(maximum);
  }

  // ---------------------------------------------------------------------- theorems

  lemma {:induction false} CleanOnesAppend(a: seq<Checkpoint>, b: seq<Checkpoint>)
    ensures CleanOnes(a + b) == CleanOnes(a) + CleanOnes(b)
  {
    if b == [] {
      assert a + b == a;
    } else {
      CleanOnesAppend(a, b[..|b| - 1]);
      assert (a + b)[..|a + b| - 1] == a + b[..|b| - 1];
    }
  }

  lemma {:induction false} CleanOnesIdle(a: seq<Checkpoint>)
    ensures CleanOnes(CleanOnes(a)) == CleanOnes(a)
  {
    if a != [] {
      CleanOnesIdle(a[..|a| - 1]);
      var rest := CleanOnes(a[..|a| - 1]);
      CleanOnesAppend(rest, if a[|a| - 1].clean then [a[|a| - 1]] else []);
    }
  }

  lemma PrunedParts(front: seq<Checkpoint>, recent: seq<Checkpoint>)
    requires |recent| == RECENT
    ensures Pruned(front + recent) == CleanOnes(front) + recent
  {
    var s := front + recent;
    assert s[..|s| - RECENT] == front && s[|s| - RECENT..] == recent;
    if front == [] { assert front + recent == recent; }
  }

  lemma Regroup<T>(a: seq<T>, b: seq<T>, c: seq<T>, d: seq<T>)
    ensures (a + (b + c)) + d == (a + b) + (c + d)
  {
  }

  lemma PruneParts(front: seq<Checkpoint>, first: seq<Checkpoint>, rest: seq<Checkpoint>, c: Checkpoint)
    requires |first| == 1 && |rest| == RECENT - 1
    ensures Pruned(Pruned(front + (first + rest)) + [c]) == Pruned(front + (first + rest) + [c])
  {
    hide Pruned, CleanOnes;
    var older := CleanOnes(front);
    PrunedParts(front, first + rest);
    Regroup(front, first, rest, [c]);
    Regroup(older, first, rest, [c]);
    PrunedParts(front + first, rest + [c]);
    PrunedParts(older + first, rest + [c]);
    CleanOnesAppend(front, first);
    CleanOnesAppend(older, first);
    CleanOnesIdle(front);
  }

  /** Pruning after every write leaves what pruning once at the end would leave. */
  lemma PruneStep(all: seq<Checkpoint>, c: Checkpoint)
    ensures Pruned(Pruned(all) + [c]) == Pruned(all + [c])
  {
    if |all| >= RECENT {
      var n := |all| - RECENT;
      assert all == all[..n] + (all[n..n + 1] + all[n + 1..]);
      PruneParts(all[..n], all[n..n + 1], all[n + 1..], c);
      hide Pruned;
    }
  }

  /** One step of a run: an event that is no checkpoint, or a write. */
  datatype Step =
    | Other(event: Event, force: Option<bool>)
    | Write(event: Event, id: string, encoded: Option<string>, clean: bool)

  function Stepped(hasher: Hasher, codec: Codec, s: State<seq<Checkpoint>>, step: Step): State<seq<Checkpoint>> {
    match step
    case Other(event, force) => Appended(hasher, s, Call(event, None, force)).state
    case Write(event, id, encoded, clean) => Wrote(hasher, codec, s, event, id, encoded, clean).0
  }

  function After(hasher: Hasher, codec: Codec, steps: seq<Step>): State<seq<Checkpoint>> {
    if steps == [] then State([], [])
    else Stepped(hasher, codec, After(hasher, codec, steps[..|steps| - 1]), steps[|steps| - 1])
  }

  /** The checkpoint a step creates, if it does: its sequence is that of its event. */
  function Creates(hasher: Hasher, codec: Codec, s: State<seq<Checkpoint>>, step: Step): seq<Checkpoint> {
    if step.Write? && Stepped(hasher, codec, s, step) != s
    then [Checkpoint(step.id, NextSequence(s.rows), if step.encoded.Some? then step.encoded.value else "",
                     codec.checksum(NextSequence(s.rows), if step.encoded.Some? then step.encoded.value
                         else ""), step.clean)]
    else []
  }

  /** Every checkpoint a run ever created. */
  function Ever(hasher: Hasher, codec: Codec, steps: seq<Step>): seq<Checkpoint> {
    if steps == [] then [] else
      var front := steps[..|steps| - 1];
      Ever(hasher, codec, front) + Creates(hasher, codec, After(hasher, codec, front), steps[|steps| - 1])
  }

  ghost predicate GoodCheckpoint(codec: Codec, rows: seq<Row>, c: Checkpoint) {
    1 <= c.sequence <= |rows| && c.checksum == codec.checksum(c.sequence, c.state)
  }

  /** What every run keeps: the ledger is numbered; the table is the pruned list of all
      checkpoints ever created; each names an event of the ledger, in increasing order. */
  ghost predicate Kept(codec: Codec, s: State<seq<Checkpoint>>, ever: seq<Checkpoint>) {
    && Numbered(s.rows) && Distinct(s.rows)
    && s.projected == Pruned(ever)
    && (forall i | 0 <= i < |ever| :: GoodCheckpoint(codec, s.rows, ever[i]))
  }

  lemma OtherKept(hasher: Hasher, codec: Codec, s: State<seq<Checkpoint>>, ever: seq<Checkpoint>, event: Event,
      force: Option<bool>)
    requires Kept(codec, s, ever)
    ensures Kept(codec, Stepped(hasher, codec, s, Other(event, force)), ever)
  {
    var call: Call<seq<Checkpoint>> := Call(event, None, force);
    AppendKeeps(hasher, s, call);
    hide Numbered, Distinct, Pruned, NewRow, Appended;
    assert Projected(call, s.projected, |s.rows| + 1) == Some(s.projected);
  }

  lemma WriteKept(hasher: Hasher, codec: Codec, s: State<seq<Checkpoint>>, ever: seq<Checkpoint>, step: Step)
    requires Kept(codec, s, ever) && step.Write? && Stepped(hasher, codec, s, step) != s
    ensures Kept(codec, Stepped(hasher, codec, s, step), ever + Creates(hasher, codec, s, step))
  {
    NextNumber(s.rows);
    var call := Call(step.event, Some(Projecting(codec, step.id, step.encoded.value, step.clean)), None);
    AppendKeeps(hasher, s, call);
    var c := Checkpoint(step.id, |s.rows| + 1, step.encoded.value, codec.checksum(|s.rows| + 1, step.encoded.value),
        step.clean);
    assert Creates(hasher, codec, s, step) == [c];
    assert Projected(call, s.projected, |s.rows| + 1) == Some(Pruned(s.projected + [c]));
    PruneStep(ever, c);
    hide Numbered, Distinct, Pruned, NewRow, Appended, Projected, Creates;
  }

  lemma StepKept(hasher: Hasher, codec: Codec, s: State<seq<Checkpoint>>, ever: seq<Checkpoint>, step: Step)
    requires Kept(codec, s, ever)
    ensures Kept(codec, Stepped(hasher, codec, s, step), ever + Creates(hasher, codec, s, step))
  {
    if step.Other? {
      OtherKept(hasher, codec, s, ever, step.event, step.force);
      assert ever + [] == ever;
    } else if Stepped(hasher, codec, s, step) != s {
      WriteKept(hasher, codec, s, ever, step);
    } else {
      assert ever + [] == ever;
    }
    hide Kept, Stepped;
  }

  lemma {:induction false} RunKept(hasher: Hasher, codec: Codec, steps: seq<Step>)
    ensures Kept(codec, After(hasher, codec, steps), Ever(hasher, codec, steps))
  {
    if steps != [] {
      var front := steps[..|steps| - 1];
      RunKept(hasher, codec, front);
      StepKept(hasher, codec, After(hasher, codec, front), Ever(hasher, codec, front), steps[|steps| - 1]);
      hide Kept, Stepped, Creates;
    }
  }

  /** The newest of a pruned list is the newest ever written. */
  lemma NewestSurvives(ever: seq<Checkpoint>)
    requires ever != []
    ensures Pruned(ever) != [] && Candidates(Pruned(ever)) != []
    ensures var table := Pruned(ever);
            table[|table| - 1] == ever[|ever| - 1] && Candidates(table)[|Candidates(table)| - 1] == ever[|ever| - 1]
  {
  }

  /** Every snapshot that the run wrote is well-formed. */
  ghost predicate WritesWellFormed(codec: Codec, steps: seq<Step>) {
    forall i | 0 <= i < |steps| && steps[i].Write? && steps[i].encoded.Some? :: codec.wellFormed(steps[i].encoded.value)
  }

  lemma {:induction false} EverIsWellFormed(hasher: Hasher, codec: Codec, steps: seq<Step>)
    requires WritesWellFormed(codec, steps)
    ensures forall c | c in Ever(hasher, codec, steps) :: codec.wellFormed(c.state)
  {
    if steps != [] {
      var n := |steps| - 1;
      EverIsWellFormed(hasher, codec, steps[..n]);
      hide After;
      assert steps[n].Write? && steps[n].encoded.Some? ==> codec.wellFormed(steps[n].encoded.value);
    }
  }

  /** On an untampered run restoring succeeds with the newest checkpoint ever created; all
      later events are present, and `eventsAfter` is how many they are. */
  lemma RestoreIsNewest(hasher: Hasher, codec: Codec, steps: seq<Step>)
    requires WritesWellFormed(codec, steps)
    ensures var s, ever := After(hasher, codec, steps), Ever(hasher, codec, steps);
            && (s.projected == [] <==> ever == [])
            && (ever != [] ==>
                  var c := ever[|ever| - 1];
                  && s.projected != [] && s.projected[|s.projected| - 1] == c
                  && Sound(codec, s.rows, c)
                  && MaxSequence(s.rows) - c.sequence == |Tail(s.rows, c.sequence)|)
  {
    RunKept(hasher, codec, steps);
    EverIsWellFormed(hasher, codec, steps);
    var s, ever := After(hasher, codec, steps), Ever(hasher, codec, steps);
    hide After, Ever;
    if ever != [] {
      NewestSurvives(ever);
      var c := ever[|ever| - 1];
      assert GoodCheckpoint(codec, s.rows, c);
      NumberedTail(s.rows, c.sequence);
      assert s.rows[|s.rows| - 1].sequence == |s.rows|;
    }
  }

  /** A run never loses one of the newest checkpoints, nor a clean one. */
  lemma {:induction false} CleanSurvive(s: seq<Checkpoint>, i: nat)
    requires i < |s| && s[i].clean
    ensures s[i] in CleanOnes(s)
  {
    if i < |s| - 1 { CleanSurvive(s[..|s| - 1], i); }
  }

  lemma RecentAndCleanSurvive(hasher: Hasher, codec: Codec, steps: seq<Step>, i: nat)
    requires i < |Ever(hasher, codec, steps)|
    requires i >= |Ever(hasher, codec, steps)| - 32 || Ever(hasher, codec, steps)[i].clean
    ensures Ever(hasher, codec, steps)[i] in After(hasher, codec, steps).projected
  {
    RunKept(hasher, codec, steps);
    var ever := Ever(hasher, codec, steps);
    hide Ever, After;
    if |ever| > RECENT {
      var n := |ever| - RECENT;
      if i < n {
        CleanSurvive(ever[..n], i);
      } else {
        assert ever[n..][i - n] == ever[i];
      }
    }
  }

  lemma {:induction false} CleanOnesAreClean(s: seq<Checkpoint>)
    ensures forall c | c in CleanOnes(s) :: c in s && c.clean
  {
    if s != [] { CleanOnesAreClean(s[..|s| - 1]); }
  }

  /** And everything else is removed: a checkpoint in the table is clean, or among the 32
      newest ever written. */
  lemma KeptIsCleanOrRecent(hasher: Hasher, codec: Codec, steps: seq<Step>, c: Checkpoint)
    requires c in After(hasher, codec, steps).projected
    ensures var ever := Ever(hasher, codec, steps);
            exists i :: 0 <= i < |ever| && ever[i] == c && (c.clean || i >= |ever| - 32)
  {
    RunKept(hasher, codec, steps);
    var ever := Ever(hasher, codec, steps);
    hide Ever, After;
    if |ever| > RECENT {
      var n := |ever| - RECENT;
      CleanOnesAreClean(ever[..n]);
      if c in CleanOnes(ever[..n]) {
        assert c in ever[..n];
        var i :| 0 <= i < n && ever[..n][i] == c;
        assert ever[i] == c;
      } else {
        var i :| 0 <= i < RECENT && ever[n..][i] == c;
        assert ever[n + i] == c;
      }
    }
  }

  /** What a write answers, on any run: the newest checkpoint exactly when the write is not
      clean and that checkpoint is the last event; a failure exactly when the snapshot is too
      large or its event cannot be appended; otherwise the new checkpoint. */
  lemma WriteOutcome(hasher: Hasher, codec: Codec, steps: seq<Step>, event: Event, id: string,
      encoded: Option<string>, clean: bool)
    ensures var s, ever := After(hasher, codec, steps), Ever(hasher, codec, steps);
            var o := Wrote(hasher, codec, s, event, id, encoded, clean);
            if !clean && ever != [] && ever[|ever| - 1].sequence == |s.rows| then
              o == (s, Prior(ever[|ever| - 1].id))
            else if encoded.None? || Appended(hasher, s,
                Call(event, Some(Projecting(codec, id, encoded.value, clean)), None)).stored.Raised? then
              o == (s, Failed)
            else o.1 == Created(id)
  {
    RunKept(hasher, codec, steps);
    var s, ever := After(hasher, codec, steps), Ever(hasher, codec, steps);
    hide After, Ever;
    assert s.rows != [] ==> s.rows[|s.rows| - 1].sequence == |s.rows|;
    if ever != [] {
      NewestSurvives(ever);
      assert GoodCheckpoint(codec, s.rows, ever[|ever| - 1]);
    }
    if encoded.Some? {
      AppendKeeps(hasher, s, Call(event, Some(Projecting(codec, id, encoded.value, clean)), None));
    }
    hide Pruned, Numbered, Distinct, NewRow, Appended, CleanOnes;
  }

  /** An unclean write whose event could be appended creates nothing exactly when no event
      followed the newest checkpoint, which is itself an event. */
  lemma UncleanWriteIsIdle(hasher: Hasher, codec: Codec, steps: seq<Step>, event: Event, id: string, encoded: string)
    requires var o := Appended(hasher, After(hasher, codec, steps),
             Call(event, Some(Projecting(codec, id, encoded, false)), None));
             o.stored.Stored? && o.stored.inserted
    ensures var s, ever := After(hasher, codec, steps), Ever(hasher, codec, steps);
            Stepped(hasher, codec, s, Write(event, id, Some(encoded), false)) == s
            <==> ever != [] && ever[|ever| - 1].sequence == |s.rows|
  {
    RunKept(hasher, codec, steps);
    var s, ever := After(hasher, codec, steps), Ever(hasher, codec, steps);
    hide After, Ever;
    assert s.rows != [] ==> s.rows[|s.rows| - 1].sequence == |s.rows|;
    if ever != [] {
      NewestSurvives(ever);
      assert GoodCheckpoint(codec, s.rows, ever[|ever| - 1]);
    }
    AppendKeeps(hasher, s, Call(event, Some(Projecting(codec, id, encoded, false)), None));
    hide Pruned, Numbered, Distinct, NewRow;
  }

  // -------------------------------------------------------------------- the service

  class ProjectionCheckpointService {
    const database: SentienceDatabase<seq<Checkpoint>>
    const codec: Codec

    constructor (database: SentienceDatabase<seq<Checkpoint>>, codec: Codec)
      ensures this.database == database && this.codec == codec
    {
      this.database, this.codec := database, codec;
    }

    /** Write a checkpoint as an event with its row; `event` is new and `encoded` the
        snapshot within its limit. */
    method Write(event: Event, id: string, encoded: Option<string>, clean: bool) returns (written: Written)
      modifies database
      ensures (database.View(), written)
              == Wrote(database.hasher, codec, old(database.View()), event, id, encoded, clean)
    {
      hide Appended;
      var table := database.projected;
      if !clean && table != [] && table[|table| - 1].sequence >= MaxSequence(database.rows) {
        return Prior(table[|table| - 1].id);
      }
      if encoded.None? { return Failed; }
      var stored := database.AppendExactEvent(Call(event, Some(Projecting(codec, id, encoded.value, clean)), None));
      return if stored.Raised? then Failed else Created(id);
    }

    /** The newest checkpoint of the service, whenever it is sound; the other candidates only
        when it is not. */
    method RestoreLatest() returns (r: Restored)
      ensures r.FreshStart? <==> database.projected == []
      ensures r.Verified? ==> r.checkpoint in database.projected && Sound(codec, database.rows, r.checkpoint)
      ensures database.projected != [] ==>
                var newest := database.projected[|database.projected| - 1];
                if Sound(codec, database.rows, newest)
                    then r == Verified(newest, MaxSequence(database.rows) - newest.sequence)
                else r.Verified? ==> r.checkpoint != newest
      ensures r.Verified? && InOrder(database.rows) ==> r.eventsAfter == |Tail(database.rows, r.checkpoint.sequence)|
    {
      r := Restore(codec, database.rows, database.projected);
      ghost var table := database.projected;
      if table != [] && Sound(codec, database.rows, table[|table| - 1]) {
        assert Newest(table, |table| - 1);
      }
    }
  }
}
