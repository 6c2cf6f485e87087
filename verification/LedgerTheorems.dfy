/** Whole runs of the ledger, and what its hash chain proves. */
module LedgerTheorems {
  import opened Wrappers
  import opened Ledger

  /** The ledger after a list of calls, duplicates and raising projections included. */
  function After<P>(hasher: Hasher, initial: P, calls: seq<Call<P>>): State<P> {
    if calls == [] then State([], initial)
    else Appended(hasher, After(hasher, initial, calls[..|calls| - 1]), calls[|calls| - 1]).state
  }

  /** The calls that inserted a row. */
  function Inserting<P>(hasher: Hasher, initial: P, calls: seq<Call<P>>): seq<Call<P>> {
    if calls == [] then [] else
      var front, call := calls[..|calls| - 1], calls[|calls| - 1];
      Inserting(hasher, initial, front) + Added(Appended(hasher, After(hasher, initial, front), call), call)
  }

  /** Projections applied one after the other, the i-th with sequence i + 1. */
  function Folded<P>(initial: P, calls: seq<Call<P>>): Option<P> {
    if calls == [] then Some(initial) else
      var before := Folded(initial, calls[..|calls| - 1]);
      if before.None? then None else Projected(calls[|calls| - 1], before.value, |calls|)
  }

  ghost predicate Numbered(rows: seq<Row>) {
    forall i | 0 <= i < |rows| :: rows[i].sequence == i + 1
  }

  ghost predicate Distinct(rows: seq<Row>) {
    forall i, j | 0 <= i < j < |rows| :: !Matches(rows[i], rows[j].event)
  }

  ghost predicate RowsAre<P>(rows: seq<Row>, calls: seq<Call<P>>) {
    |rows| == |calls| && forall i | 0 <= i < |rows| ::
        rows[i].event == calls[i].event && rows[i].hash.Some? == ShouldChain(calls[i])
  }

  ghost predicate IsFirstMatch(rows: seq<Row>, e: Event, i: int) {
    0 <= i < |rows| && Matches(rows[i], e) && forall j | 0 <= j < i :: !Matches(rows[j], e)
  }

  lemma {:induction false} ExistingMeaning(rows: seq<Row>, e: Event)
    ensures Existing(rows, e).None? <==> forall i | 0 <= i < |rows| :: !Matches(rows[i], e)
    ensures Existing(rows, e).Some? ==> exists i :: IsFirstMatch(rows, e, i) && rows[i] == Existing(rows, e).value
  {
    if rows != [] {
      var front := rows[..|rows| - 1];
      ExistingMeaning(front, e);
      if Existing(front, e).Some? {
        var i :| IsFirstMatch(front, e, i) && front[i] == Existing(front, e).value;
        assert forall j | 0 <= j < i :: rows[j] == front[j];
        assert IsFirstMatch(rows, e, i);
      } else {
        assert forall j | 0 <= j < |front| :: rows[j] == front[j] && !Matches(front[j], e);
        if Matches(rows[|rows| - 1], e) { assert IsFirstMatch(rows, e, |rows| - 1); }
      }
    }
  }

  lemma NextNumber(rows: seq<Row>)
    requires Numbered(rows)
    ensures NextSequence(rows) == |rows| + 1
  {
  }

  /** One append keeps the numbering, and inserts only events that replay nothing. */
  lemma AppendKeeps<P>(hasher: Hasher, s: State<P>, call: Call<P>)
    requires Numbered(s.rows) && Distinct(s.rows)
    ensures var o := Appended(hasher, s, call);
            && Numbered(o.state.rows) && Distinct(o.state.rows)
            && (if o.stored.Stored? && o.stored.inserted then
                  && o.state.rows == s.rows + [NewRow(hasher, s.rows, call.event, ShouldChain(call))]
                  && o.stored.sequence == |s.rows| + 1
                  && Some(o.state.projected) == Projected(call, s.projected, |s.rows| + 1)
                else o.state == s)
  {
    NextNumber(s.rows);
    ExistingMeaning(s.rows, call.event);
    hide LastHash, Existing;
  }

  /** The rows are numbered 1..n and are the events of `kept` in order, none replaying
      another; the projected tables are the projections of exactly `kept`. */
  ghost predicate IsFold<P>(initial: P, s: State<P>, kept: seq<Call<P>>) {
    && Numbered(s.rows) && Distinct(s.rows) && RowsAre(s.rows, kept)
    && Folded(initial, kept) == Some(s.projected)
  }

  function Added<P>(o: Outcome<P>, call: Call<P>): seq<Call<P>> {
    if o.stored.Stored? && o.stored.inserted then [call] else []
  }

  lemma FoldStep<P>(hasher: Hasher, initial: P, s: State<P>, kept: seq<Call<P>>, call: Call<P>)
    requires IsFold(initial, s, kept)
    ensures IsFold(initial, Appended(hasher, s, call).state, kept + Added(Appended(hasher, s, call), call))
  {
    AppendKeeps(hasher, s, call);
    FoldGrows(initial, kept, call);
    RowsGrow(hasher, s.rows, kept, call);
    RowsCount(s.rows, kept);
    assert kept + [] == kept;
    hide Appended, Numbered, Distinct, Folded, NewRow, RowsAre, Projected, Matches;
  }

  /** The ledger is a fold: along every run the sequences are exactly 1..n, the rows are
      the inserted events in order, none replaying another, and the projected tables are
      the projections of exactly those events, each applied once with its own sequence. */
  lemma {:induction false} LedgerIsFold<P>(hasher: Hasher, initial: P, calls: seq<Call<P>>)
    ensures IsFold(initial, After(hasher, initial, calls), Inserting(hasher, initial, calls))
  {
    if calls != [] {
      var front, call := calls[..|calls| - 1], calls[|calls| - 1];
      LedgerIsFold(hasher, initial, front);
      hide IsFold, Appended;
      FoldStep(hasher, initial, After(hasher, initial, front), Inserting(hasher, initial, front), call);
    }
  }

  lemma RowsCount<P>(rows: seq<Row>, calls: seq<Call<P>>)
    requires RowsAre(rows, calls)
    ensures |rows| == |calls|
  {
  }

  lemma RowsGrow<P>(hasher: Hasher, rows: seq<Row>, calls: seq<Call<P>>, call: Call<P>)
    requires RowsAre(rows, calls)
    ensures RowsAre(rows + [NewRow(hasher, rows, call.event, ShouldChain(call))], calls + [call])
  {
    hide LastHash, NextSequence;
  }

  lemma FoldGrows<P>(initial: P, calls: seq<Call<P>>, call: Call<P>)
    ensures Folded(initial, calls + [call])
            == if Folded(initial, calls).None? then None else Projected(call, Folded(initial, calls).value, |calls| + 1)
  {
    assert (calls + [call])[..|calls|] == calls;
  }

  /** Appending an event again, or after a failed attempt, is idempotent: the replay
      changes nothing and names the row that holds the event. */
  lemma ReplayIsNoOp<P>(hasher: Hasher, s: State<P>, call: Call<P>, again: Call<P>)
    requires Numbered(s.rows) && Distinct(s.rows) && again.event == call.event
    ensures var o := Appended(hasher, s, call);
            && (o.stored.Raised? ==> o.state == s)
            && (o.stored.Stored? ==> Appended(hasher, o.state, again) == Outcome(o.state, o.stored.(inserted := false)))
  {
    var o := Appended(hasher, s, call);
    AppendKeeps(hasher, s, call);
    ExistingMeaning(s.rows, call.event);
    if o.stored.Stored? && o.stored.inserted {
      var row := NewRow(hasher, s.rows, call.event, ShouldChain(call));
      assert o.state.rows[..|s.rows|] == s.rows;
      assert Matches(row, call.event);
      NextNumber(s.rows);
      hide LastHash, Appended;
      assert Existing(o.state.rows, call.event) == Some(row);
      Replayed(hasher, o.state, again, row);
    } else {
      hide LastHash, NewRow;
    }
  }

  lemma Replayed<P>(hasher: Hasher, s: State<P>, call: Call<P>, row: Row)
    requires Existing(s.rows, call.event) == Some(row)
    ensures Appended(hasher, s, call) == Outcome(s, Stored(row.sequence, row.event.body.eventId, false))
  {
  }

  // --------------------------------------------------------------- replays and raises

  /** On any run no two rows share an event id, nor an idempotency key. */
  lemma IdsAndKeysAreUnique<P>(hasher: Hasher, initial: P, calls: seq<Call<P>>, i: nat, j: nat)
    requires i < j < |After(hasher, initial, calls).rows|
    ensures var rows := After(hasher, initial, calls).rows;
            && rows[i].event.body.eventId != rows[j].event.body.eventId
            && (rows[i].event.key.Some? ==> rows[i].event.key != rows[j].event.key)
  {
    LedgerIsFold(hasher, initial, calls);
    var rows := After(hasher, initial, calls).rows;
    assert !Matches(rows[i], rows[j].event);
    hide After;
  }

  /** The row at position `i` has the id of the event, or its idempotency key. */
  predicate TakenAt(rows: seq<Row>, e: Event, i: nat) {
    && i < |rows|
    && (rows[i].event.body.eventId == e.body.eventId || (e.key.Some? && rows[i].event.key == Some(e.key.value)))
  }

  ghost predicate FirstTakenAt(rows: seq<Row>, e: Event, i: nat) {
    TakenAt(rows, e, i) && forall j: nat | j < i :: !TakenAt(rows, e, j)
  }

  /** What an event that is new is stored as: the next number, hashed exactly when the caller
      says so or, saying nothing, when it is kept forever; then with the hash of the last
      hashed row before it. */
  ghost predicate StoredAs<P>(hasher: Hasher, rows: seq<Row>, call: Call<P>, row: Row) {
    var hashed := if call.force.Some? then call.force.value else call.event.body.retention == Forever;
    && row.sequence == |rows| + 1 && row.event == call.event
    && row.hash == (if hashed then Some(hasher(Hashed(|rows| + 1, row.previous, call.event.body))) else None)
    && (!hashed ==> row.previous == None)
    && (hashed ==>
          || (row.previous == None && forall j | 0 <= j < |rows| :: rows[j].hash == None)
          || (exists j :: 0 <= j < |rows| && rows[j].hash.Some? && row.previous == rows[j].hash
                          && forall m | j < m < |rows| :: rows[m].hash == None))
  }

  lemma {:induction false} LastHashMeaning(rows: seq<Row>)
    ensures LastHash(rows) == None ==> forall j | 0 <= j < |rows| :: rows[j].hash == None
    ensures LastHash(rows) != None ==>
              exists j :: 0 <= j < |rows| && rows[j].hash.Some? && LastHash(rows) == rows[j].hash
                          && forall m | j < m < |rows| :: rows[m].hash == None
  {
    if rows != [] && rows[|rows| - 1].hash.None? {
      var front := rows[..|rows| - 1];
      LastHashMeaning(front);
      if LastHash(front) != None {
        var j :| 0 <= j < |front| && front[j].hash.Some? && LastHash(front) == front[j].hash
                 && forall m | j < m < |front| :: front[m].hash == None;
        assert rows[j].hash == LastHash(rows);
        assert forall m | j < m < |front| :: rows[m] == front[m];
      } else {
        assert forall j | 0 <= j < |front| :: rows[j] == front[j];
      }
    }
  }

  lemma NewRowStoredAs<P>(hasher: Hasher, rows: seq<Row>, call: Call<P>)
    requires Numbered(rows)
    ensures StoredAs(hasher, rows, call, NewRow(hasher, rows, call.event, ShouldChain(call)))
  {
    LastHashMeaning(rows);
    NextNumber(rows);
    hide LastHash, Numbered;
  }

  /** On any run an append is not inserted, and names the first row that has its id or its
      key, exactly when there is one. Otherwise it is stored as the next row together with
      its projection; or it raises and changes nothing, exactly when its hash is one of the
      ledger or its projection raises. */
  lemma ReplayedExactlyWhenTaken<P>(hasher: Hasher, initial: P, calls: seq<Call<P>>, call: Call<P>)
    ensures var s := After(hasher, initial, calls);
            var o, n := Appended(hasher, s, call), |After(hasher, initial, calls).rows|;
            if exists i: nat :: FirstTakenAt(s.rows, call.event, i) then
              exists i: nat :: FirstTakenAt(s.rows, call.event, i)
                          && o == Outcome(s, Stored(i + 1, s.rows[i].event.body.eventId, false))
            else
              && (forall i: nat :: !TakenAt(s.rows, call.event, i))
              && exists row :: StoredAs(hasher, s.rows, call, row) && AppendsOrRaises(s, call, row, o)
  {
    LedgerIsFold(hasher, initial, calls);
    var s := After(hasher, initial, calls);
    hide After;
    ExistingMeaning(s.rows, call.event);
    forall i: nat ensures TakenAt(s.rows, call.event, i) <==> i < |s.rows| && Matches(s.rows[i], call.event) {}
    if Existing(s.rows, call.event).Some? {
      var i :| IsFirstMatch(s.rows, call.event, i) && s.rows[i] == Existing(s.rows, call.event).value;
      assert FirstTakenAt(s.rows, call.event, i);
      assert s.rows[i].sequence == i + 1;
      Replayed(hasher, s, call, s.rows[i]);
    } else {
      var row := NewRow(hasher, s.rows, call.event, ShouldChain(call));
      NewRowStoredAs(hasher, s.rows, call);
      NewIsAppended(hasher, s, call);
      assert AppendsOrRaises(s, call, row, Appended(hasher, s, call));
    }
    hide *;
  }

  /** The row and the projection are committed together, unless the hash is taken or the
      projection raises. */
  ghost predicate AppendsOrRaises<P>(s: State<P>, call: Call<P>, row: Row, o: Outcome<P>) {
    var raises := || (row.hash.Some? && exists j :: 0 <= j < |s.rows| && s.rows[j].hash == row.hash)
                  || (call.projection.Some? && call.projection.value(s.projected, |s.rows| + 1).None?);
    if raises then o == Outcome(s, Raised)
    else
      && o.stored == Stored(|s.rows| + 1, call.event.body.eventId, true)
      && o.state.rows == s.rows + [row]
      && if call.projection.Some? then call.projection.value(s.projected, |s.rows| + 1) == Some(o.state.projected)
         else o.state.projected == s.projected
  }

  lemma NewIsAppended<P>(hasher: Hasher, s: State<P>, call: Call<P>)
    requires Existing(s.rows, call.event).None? && Numbered(s.rows)
    ensures AppendsOrRaises(s, call, NewRow(hasher, s.rows, call.event, ShouldChain(call)), Appended(hasher, s, call))
  {
    NextNumber(s.rows);
    hide LastHash, Existing;
  }

  // ------------------------------------------------------------------- the chain

  lemma {:induction false} LastHashIsExpected(rows: seq<Row>)
    ensures LastHash(rows) == Expected(Chained(rows), |Chained(rows)|)
  {
    if rows != [] {
      LastHashIsExpected(rows[..|rows| - 1]);
    }
  }

  lemma ChainGrows(hasher: Hasher, rows: seq<Row>, e: Event, chain: bool)
    requires ChainOk(hasher, Chained(rows))
    ensures ChainOk(hasher, Chained(rows + [NewRow(hasher, rows, e, chain)]))
  {
    var row := NewRow(hasher, rows, e, chain);
    var chained := Chained(rows);
    LastHashIsExpected(rows);
    assert (rows + [row])[..|rows|] == rows;
    if chain {
      var longer := chained + [row];
      assert Chained(rows + [row]) == longer;
      assert row.hash == Some(hasher(Hashed(row.sequence, LastHash(rows), row.event.body)))
             && row.previous == LastHash(rows);
      hide LastHash, Chained, NewRow;
      forall i | 0 <= i < |longer| ensures LinkOk(hasher, longer, i) {
        assert i < |chained| ==> LinkOk(hasher, chained, i);
        assert i == |chained| ==> Expected(longer, i) == Expected(chained, i);
      }
    } else {
      assert Chained(rows + [row]) == chained;
    }
  }

  /** Along every run both verifiers accept: the chain, with every chained row checked,
      and the tail above any watermark up to the last sequence, with every row of it. */
  lemma {:induction false} VerifiersAccept<P>(hasher: Hasher, initial: P, calls: seq<Call<P>>, after: nat)
    requires after <= |After(hasher, initial, calls).rows|
    ensures var rows := After(hasher, initial, calls).rows;
            ChainOk(hasher, Chained(rows)) && Contiguous(Tail(rows, after), after)
                && |Tail(rows, after)| == |rows| - after
  {
    LedgerIsFold(hasher, initial, calls);
    ChainHolds(hasher, initial, calls);
    NumberedTail(After(hasher, initial, calls).rows, after);
  }

  lemma {:induction false} ChainHolds<P>(hasher: Hasher, initial: P, calls: seq<Call<P>>)
    ensures ChainOk(hasher, Chained(After(hasher, initial, calls).rows))
  {
    if calls != [] {
      var front, call := calls[..|calls| - 1], calls[|calls| - 1];
      var s := After(hasher, initial, front);
      ChainHolds(hasher, initial, front);
      LedgerIsFold(hasher, initial, front);
      AppendKeeps(hasher, s, call);
      ChainGrows(hasher, s.rows, call.event, ShouldChain(call));
      hide ChainOk, Chained, NewRow, Appended;
    }
  }

  lemma NumberedTail(rows: seq<Row>, after: nat)
    requires Numbered(rows) && after <= |rows|
    ensures Tail(rows, after) == rows[after..] && Contiguous(Tail(rows, after), after)
  {
    TailIsSuffix(rows, after);
  }

  lemma {:induction false} TailIsSuffix(rows: seq<Row>, after: nat)
    requires Numbered(rows)
    ensures Tail(rows, after) == if after <= |rows| then rows[after..] else []
  {
    if rows != [] {
      var front, last := rows[..|rows| - 1], rows[|rows| - 1];
      assert last.sequence == |rows|;
      TailIsSuffix(front, after);
      hide Numbered;
      if after < |rows| {
        assert rows[after..] == front[after..] + [last];
      } else if after == |rows| {
        assert rows[after..] == [];
      }
    }
  }

  // ------------------------------------------------------------- tamper evidence

  /** What the i-th chained row is hashed from. */
  function Input(chained: seq<Row>, i: nat): Hashed
    requires i < |chained|
  {
    Hashed(chained[i].sequence, Expected(chained, i), chained[i].event.body)
  }

  /** No row of one chain collides with a different row of the other. */
  ghost predicate CollisionFree(hasher: Hasher, a: seq<Row>, b: seq<Row>) {
    forall i, j | 0 <= i < |a| && 0 <= j < |b| :: hasher(Input(a, i)) == hasher(Input(b, j))
        ==> Input(a, i) == Input(b, j)
  }

  /** The same sequence, predecessor, hash and hashed columns. */
  predicate SameHashed(a: Row, b: Row) {
    a.sequence == b.sequence && a.previous == b.previous && a.hash == b.hash && a.event.body == b.event.body
  }

  predicate SameChain(a: seq<Row>, b: seq<Row>) {
    |a| == |b| && forall i | 0 <= i < |a| :: SameHashed(a[i], b[i])
  }

  lemma CollisionFreePrefix(hasher: Hasher, a: seq<Row>, b: seq<Row>, n: nat, m: nat)
    requires CollisionFree(hasher, a, b) && n <= |a| && m <= |b|
    ensures CollisionFree(hasher, a[..n], b[..m])
  {
    forall i, j | 0 <= i < n && 0 <= j < m
      ensures Input(a[..n], i) == Input(a, i) && Input(b[..m], j) == Input(b, j) {}
  }

  /** Tamper evidence: two chains that the verifier accepts, that end in the same hash and
      among whose rows the hash does not collide, have the same rows on every hashed column. */
  lemma {:induction false} LastHashFixesChain(hasher: Hasher, a: seq<Row>, b: seq<Row>)
    requires CollisionFree(hasher, a, b) && ChainOk(hasher, a) && ChainOk(hasher, b)
    requires Expected(a, |a|) == Expected(b, |b|)
    ensures SameChain(a, b)
    decreases |a|
  {
    if a != [] {
      LastLink(hasher, a);
    }
    if b != [] {
      LastLink(hasher, b);
    }
    if a != [] && b != [] {
      var n, m := |a| - 1, |b| - 1;
      assert Input(a, n) == Input(b, m);
      ChainPrefix(hasher, a, n);
      ChainPrefix(hasher, b, m);
      CollisionFreePrefix(hasher, a, b, n, m);
      assert Expected(a[..n], n) == Expected(a, n) && Expected(b[..m], m) == Expected(b, m);
      LastHashFixesChain(hasher, a[..n], b[..m]);
      hide ChainOk, LinkOk, CollisionFree;
      forall i | 0 <= i < |a| ensures SameHashed(a[i], b[i]) {
        assert i < n ==> SameHashed(a[..n][i], b[..m][i]);
      }
    }
  }

  lemma LastLink(hasher: Hasher, a: seq<Row>)
    requires a != [] && ChainOk(hasher, a)
    ensures var n := |a| - 1;
            && a[n].previous == Expected(a, n)
            && a[n].hash == Some(hasher(Hashed(a[n].sequence, Expected(a, n), a[n].event.body)))
            && Expected(a, |a|) == a[n].hash
  {
    assert LinkOk(hasher, a, |a| - 1);
  }

  lemma SameLastHash(hasher: Hasher, a: seq<Row>, b: seq<Row>)
    requires CollisionFree(hasher, a, b) && ChainOk(hasher, a) && ChainOk(hasher, b)
    ensures Expected(a, |a|) == Expected(b, |b|) <==> SameChain(a, b)
  {
    if Expected(a, |a|) == Expected(b, |b|) {
      LastHashFixesChain(hasher, a, b);
    }
    hide ChainOk, CollisionFree;
  }

  /** On tables: two accepted tables among whose chained rows the hash does not collide have
      the same chained rows if and only if they end in the same hash; so an edit, insertion,
      reordering or interior deletion of chained rows that keeps the final hash exhibits a
      collision. */
  lemma TamperEvidence(hasher: Hasher, a: seq<Row>, b: seq<Row>)
    requires CollisionFree(hasher, Chained(a), Chained(b)) && ChainOk(hasher, Chained(a)) && ChainOk(hasher, Chained(b))
    ensures LastHash(a) == LastHash(b) <==> SameChain(Chained(a), Chained(b))
  {
    hide *;
    LastHashIsExpected(a);
    LastHashIsExpected(b);
    SameLastHash(hasher, Chained(a), Chained(b));
  }

  /** A cut-off chain is accepted: only the last hash tells. */
  lemma ChainPrefix(hasher: Hasher, a: seq<Row>, n: nat)
    requires n <= |a| && ChainOk(hasher, a)
    ensures ChainOk(hasher, a[..n])
  {
    forall i | 0 <= i < n ensures LinkOk(hasher, a[..n], i) {
      assert LinkOk(hasher, a, i);
    }
  }

  /** And the columns outside the hash can be changed at will. */
  lemma UnhashedColumnsAreFree(hasher: Hasher, a: seq<Row>, i: nat, e: Event)
    requires i < |a| && ChainOk(hasher, a) && e.body == a[i].event.body
    ensures ChainOk(hasher, a[i := a[i].(event := e)])
  {
    var b := a[i := a[i].(event := e)];
    forall j | 0 <= j < |b| ensures LinkOk(hasher, b, j) {
      assert LinkOk(hasher, a, j);
    }
  }
}
