/** The exact-event ledger: every event and its projection commit in one transaction,
    replays are recognised, and control events form a hash chain. */
module Ledger {
  import opened Wrappers

  datatype Retention = Forever | Bounded

  /** The hashed columns that the ledger itself never looks at; the confidence is the text
      it is hashed as. */
  datatype Details = Details(
    schemaVersion: int, occurredAt: string, receivedAt: string, monotonicNs: nat, boot: string,
    source: string, kind: string, subject: string, severity: string, correlation: Option<string>,
    causation: Option<string>, task: Option<string>, origin: string, confidence: string, sensitivity: string,
    payload: string)

  /** The columns under the hash. */
  datatype Body = Body(eventId: string, retention: Retention, details: Details)

  /** An event; idempotency key, observed and internal are stored but not hashed. */
  datatype Event = Event(body: Body, key: Option<string>, observed: bool, internal: bool)

  type Hash = string

  datatype Row = Row(sequence: nat, event: Event, previous: Option<Hash>, hash: Option<Hash>)

  /** What is hashed, and the uninterpreted hash function. */
  datatype Hashed = Hashed(sequence: nat, previous: Option<Hash>, body: Body)

  type Hasher = Hashed -> Hash

  /** A call of append_exact_event. A projection maps the projected tables and the new
      sequence to the tables after it, or raises. */
  datatype Call<!P> = Call(event: Event, projection: Option<(P, nat) -> Option<P>>, force: Option<bool>)

  /** The ledger table, ordered by sequence, and the projected tables beside it. */
  datatype State<P> = State(rows: seq<Row>, projected: P)

  datatype Stored = Stored(sequence: nat, eventId: string, inserted: bool) | Raised

  datatype Outcome<P> = Outcome(state: State<P>, stored: Stored)

  predicate Matches(row: Row, e: Event) {
    row.event.body.eventId == e.body.eventId || (e.key.Some? && row.event.key == e.key)
  }

  /** The first row that the event replays. */
  function Existing(rows: seq<Row>, e: Event): Option<Row> {
    if rows == [] then None else
      var earlier := Existing(rows[..|rows| - 1], e);
      if earlier.Some? then earlier
      else if Matches(rows[|rows| - 1], e) then Some(rows[|rows| - 1]) else None
  }

  /** AUTOINCREMENT, rolled back with its transaction. */
  function NextSequence(rows: seq<Row>): nat {
    if rows == [] then 1 else rows[|rows| - 1].sequence + 1
  }

  /** The hash of the last chained row. */
  function LastHash(rows: seq<Row>): Option<Hash> {
    if rows == [] then None
    else if rows[|rows| - 1].hash.Some? then rows[|rows| - 1].hash
    else LastHash(rows[..|rows| - 1])
  }

  predicate HashTaken(rows: seq<Row>, h: Hash) {
    exists i :: 0 <= i < |rows| && rows[i].hash == Some(h)
  }

  function ShouldChain<P>(call: Call<P>): bool {
    if call.force.Some? then call.force.value else call.event.body.retention == Forever
  }

  function NewRow(hasher: Hasher, rows: seq<Row>, e: Event, chain: bool): Row {
    var sequence := NextSequence(rows);
    var previous := if chain then LastHash(rows) else None;
    Row(sequence, e, previous, if chain then Some(hasher(Hashed(sequence, previous, e.body))) else None)
  }

  /** The projected tables after the projection of a call, if it has one; None if it raises. */
  function Projected<P>(call: Call<P>, before: P, sequence: nat): Option<P> {
    if call.projection.Some? then call.projection.value(before, sequence) else Some(before)
  }

  /** One append: everything commits, or nothing does. */
  function Appended<P>(hasher: Hasher, s: State<P>, call: Call<P>): Outcome<P> {
    var existing := Existing(s.rows, call.event);
    if existing.Some? then Outcome(s, Stored(existing.value.sequence, existing.value.event.body.eventId, false))
    else
      var row := NewRow(hasher, s.rows, call.event, ShouldChain(call));
      if row.hash.Some? && HashTaken(s.rows, row.hash.value) then Outcome(s, Raised)
      else
        var projected := Projected(call, s.projected, row.sequence);
        if projected.None? then Outcome(s, Raised)
        else Outcome(State(s.rows + [row], projected.value), Stored(row.sequence, call.event.body.eventId, true))
  }

  // --------------------------------------------------------------------- verifiers

  function Chained(rows: seq<Row>): seq<Row> {
    if rows == [] then [] else
      Chained(rows[..|rows| - 1]) + if rows[|rows| - 1].hash.Some? then [rows[|rows| - 1]] else []
  }

  /** The previous hash the verifier expects at position `i` of the chained rows. */
  function Expected(chained: seq<Row>, i: nat): Option<Hash>
    requires i <= |chained|
  {
    if i == 0 then None else chained[i - 1].hash
  }

  predicate LinkOk(hasher: Hasher, chained: seq<Row>, i: nat)
    requires i < |chained|
  {
    && chained[i].previous == Expected(chained, i)
    && chained[i].hash == Some(hasher(Hashed(chained[i].sequence, Expected(chained, i), chained[i].event.body)))
  }

  predicate ChainOk(hasher: Hasher, chained: seq<Row>) {
    forall i | 0 <= i < |chained| :: LinkOk(hasher, chained, i)
  }

  /** The rows above a watermark, in order of sequence. */
  function Tail(rows: seq<Row>, after: int): seq<Row> {
    if rows == [] then [] else
      Tail(rows[..|rows| - 1], after) + if rows[|rows| - 1].sequence > after then [rows[|rows| - 1]] else []
  }

  predicate Contiguous(tail: seq<Row>, after: int) {
    forall i | 0 <= i < |tail| :: tail[i].sequence == after + 1 + i
  }

  datatype Integrity = Integrity(valid: bool, checked: nat)

  /** Walk the chained rows; stop at the first one whose predecessor or hash is wrong. */
  method VerifyControlChain(hasher: Hasher, rows: seq<Row>) returns (result: Integrity)
    ensures result.valid <==> ChainOk(hasher, Chained(rows))
    ensures result.checked <= |Chained(rows)| && forall i | 0 <= i < result.checked :: LinkOk(hasher, Chained(rows), i)
    ensures if result.valid then result.checked == |Chained(rows)|
            else result.checked < |Chained(rows)| && !LinkOk(hasher, Chained(rows), result.checked)
  {
    var chained := Chained(rows);
    var previous: Option<Hash> := None;
    var checked := 0;
    for i := 0 to |chained|
      invariant checked == i && previous == Expected(chained, i)
      invariant forall j | 0 <= j < i :: LinkOk(hasher, chained, j)
    {
      var row := chained[i];
      assert LinkOk(hasher, chained, i)
             <==> row.previous == previous && row.hash == Some(hasher(Hashed(row.sequence, previous, row.event.body)));
      if row.previous != previous { return Integrity(false, checked); }
      if row.hash != Some(hasher(Hashed(row.sequence, previous, row.event.body))) { return Integrity(false, checked); }
      previous := row.hash;
      checked := checked + 1;
    }
    return Integrity(true, checked);
  }

  /** Walk the tail above a watermark; stop at the first gap. */
  method VerifySequenceContinuity(rows: seq<Row>, after: int) returns (result: Integrity)
    ensures result.valid <==> Contiguous(Tail(rows, after), after)
    ensures result.checked <= |Tail(rows, after)| && Contiguous(Tail(rows, after)[..result.checked], after)
    ensures if result.valid then result.checked == |Tail(rows, after)|
            else
              && result.checked < |Tail(rows, after)|
              && Tail(rows, after)[result.checked].sequence != after + 1 + result.checked
  {
    var expected, checked := after + 1, 0;
    var tail := Tail(rows, after);
    for i := 0 to |tail|
      invariant checked == i && expected == after + 1 + i && Contiguous(tail[..i], after)
    {
      if tail[i].sequence != expected {
        assert tail[..i] <= tail;
        return Integrity(false, checked);
      }
      assert tail[..i + 1] == tail[..i] + [tail[i]];
      expected, checked := expected + 1, checked + 1;
    }
    assert tail[..|tail|] == tail;
    return Integrity(true, checked);
  }

  /** The database as an object over its tables. */
  class SentienceDatabase<P> {
    const hasher: Hasher
    var rows: seq<Row>
    var projected: P

    constructor (hasher: Hasher, initial: P)
      ensures this.hasher == hasher && View() == State([], initial)
    {
      this.hasher, rows, projected := hasher, [], initial;
    }

    function View(): State<P>
      reads this
    {
      State(rows, projected)
    }

    /** Insert, hash and project inside one transaction; any failure rolls all of it back. */
    method AppendExactEvent(call: Call<P>) returns (stored: Stored)
      modifies this
      ensures Outcome(View(), stored) == Appended(hasher, old(View()), call)
    {
      hide LastHash, Existing;
      var existing := Existing(rows, call.event);
      if existing.Some? {
        return Stored(existing.value.sequence, existing.value.event.body.eventId, false);
      }
      var before := rows;
      var chain := ShouldChain(call);
      var previous := if chain then LastHash(rows) else None;
      var sequence := NextSequence(rows);
      rows := rows + [Row(sequence, call.event, previous, None)];
      if chain {
        var hash := hasher(Hashed(sequence, previous, call.event.body));
        if HashTaken(before, hash) {
          rows := before;
          return Raised;
        }
        rows := before + [Row(sequence, call.event, previous, Some(hash))];
      }
      if call.projection.Some? {
        var after := call.projection.value(projected, sequence);
        if after.None? {
          rows := before;
          return Raised;
        }
        projected := after.value;
      }
      return Stored(sequence, call.event.body.eventId, true);
    }
  }
}
