/** The writer lease: one row, many processes, a shared clock that never goes back. The
    row stores its expiry cut off to whole milliseconds; times here are microseconds. */
module Lease {
  import opened Wrappers

  const MILLISECOND: nat := 1000
  const SECOND: nat := 1_000_000

  type Owner = nat

  datatype LeaseRow = LeaseRow(owner: Owner, expires: nat)

  /** A process: whether it believes it holds the lease, and until when its last grant runs. */
  datatype Client = Client(held: bool, grant: nat)

  datatype State = State(row: Option<LeaseRow>, clients: map<Owner, Client>, clock: nat)

  const Initial: State := State(None, map[], 0)

  /** What the row's text keeps of an instant. */
  function Stored(at: nat): nat {
    at - at % MILLISECOND
  }

  function ClientOf(s: State, o: Owner): Client {
    if o in s.clients then s.clients[o] else Client(false, 0)
  }

  /** Distinct owners, each with its own time to live in seconds. */
  datatype Op =
    | Acquire(owner: Owner, ttl: nat, now: nat)
    | Renew(owner: Owner, ttl: nat, now: nat)
    | Release(owner: Owner, now: nat)
    | Die(owner: Owner, now: nat)

  /** Is the row another owner's, and not expired? */
  predicate Conflicts(row: Option<LeaseRow>, o: Owner, now: nat) {
    row.Some? && row.value.owner != o && row.value.expires > now
  }

  function Acquired(s: State, o: Owner, ttl: nat, now: nat): State {
    if Conflicts(s.row, o, now) then s.(clock := now)
    else
      var grant := now + ttl * SECOND;
      State(Some(LeaseRow(o, Stored(grant))), s.clients[o := Client(true, grant)], now)
  }

  /** renew asks only whether the row is ours, not whether it has expired. */
  function Renewed(s: State, o: Owner, ttl: nat, now: nat): State {
    if s.row.Some? && s.row.value.owner == o then
      var grant := now + ttl * SECOND;
      State(Some(LeaseRow(o, Stored(grant))), s.clients[o := Client(true, grant)], now)
    else State(s.row, s.clients[o := ClientOf(s, o).(held := false)], now)
  }

  function Released(s: State, o: Owner, now: nat): State {
    State(if s.row.Some? && s.row.value.owner == o then None else s.row,
          s.clients[o := ClientOf(s, o).(held := false)], now)
  }

  function Apply(s: State, op: Op): State {
    match op
    case Acquire(o, ttl, now) => Acquired(s, o, ttl, now)
    case Renew(o, ttl, now) => Renewed(s, o, ttl, now)
    case Release(o, now) => Released(s, o, now)
    case Die(o, now) => s.(clients := s.clients[o := Client(false, 0)], clock := now)
  }

  predicate IsRun(ops: seq<Op>) {
    forall i | 0 < i < |ops| :: ops[i - 1].now <= ops[i].now
  }

  function After(ops: seq<Op>): State {
    if ops == [] then Initial else Apply(After(ops[..|ops| - 1]), ops[|ops| - 1])
  }

  /** A process that believes it holds the lease, by a grant that has not run out. */
  predicate Holds(s: State, o: Owner, expiry: nat) {
    ClientOf(s, o).held && expiry > s.clock
  }

  /** A grant that the row's text still calls unexpired is the one in the row; and the row of
      a process that believes it holds the lease is that of its last grant. */
  ghost predicate Inv(s: State) {
    && (forall o | o in s.clients ::
          Holds(s, o, Stored(s.clients[o].grant)) ==> s.row == Some(LeaseRow(o, Stored(s.clients[o].grant))))
    && (s.row.Some? && ClientOf(s, s.row.value.owner).held ==>
          s.row.value.expires == Stored(ClientOf(s, s.row.value.owner).grant))
  }

  lemma StepKeeps(s: State, op: Op)
    requires Inv(s) && op.now >= s.clock
    ensures Inv(Apply(s, op)) && Apply(s, op).clock == op.now
  {
    hide Stored;
    var t := Apply(s, op);
    forall o | o in t.clients && Holds(t, o, Stored(t.clients[o].grant))
        ensures t.row == Some(LeaseRow(o, Stored(t.clients[o].grant))) {
      if o != op.owner { assert Holds(s, o, Stored(s.clients[o].grant)); }
    }
  }

  lemma {:induction false} RunKeeps(ops: seq<Op>)
    requires IsRun(ops)
    ensures Inv(After(ops)) && After(ops).clock == (if ops == [] then 0 else ops[|ops| - 1].now)
  {
    if ops != [] {
      RunKeeps(ops[..|ops| - 1]);
      StepKeeps(After(ops[..|ops| - 1]), ops[|ops| - 1]);
    }
  }

  /** Mutual exclusion: no two owners both hold a grant that is unexpired as stored. */
  lemma MutualExclusion(ops: seq<Op>, a: Owner, b: Owner)
    requires IsRun(ops)
    requires Holds(After(ops), a, Stored(ClientOf(After(ops), a).grant))
             && Holds(After(ops), b, Stored(ClientOf(After(ops), b).grant))
    ensures a == b
  {
    RunKeeps(ops);
    hide IsRun, After, Stored;
  }

  /** Measured by the grant a process computed for itself, before it was cut off, two owners
      can overlap, for less than a millisecond. */
  lemma OverlapIsShort(ops: seq<Op>, a: Owner, b: Owner)
    requires IsRun(ops) && a != b
    requires Holds(After(ops), a, ClientOf(After(ops), a).grant) && Holds(After(ops), b, ClientOf(After(ops), b).grant)
    ensures var s := After(ops);
            ClientOf(s, a).grant < s.clock + MILLISECOND || ClientOf(s, b).grant < s.clock + MILLISECOND
  {
    RunKeeps(ops);
    hide IsRun, After;
  }

  /** A process that believes it holds the lease, and whose row is in the table, can be
      displaced by another exactly when its grant, cut off to the millisecond, has passed;
      and the two then overlap, by their own clocks, exactly until the grant itself has. */
  lemma DisplacedExactlyWhen(ops: seq<Op>, o: Owner, other: Owner, ttl: nat, now: nat)
    requires IsRun(ops) && o != other && ttl > 0 && now >= After(ops).clock
    requires ClientOf(After(ops), o).held && After(ops).row.Some? && After(ops).row.value.owner == o
    ensures var s, grant := After(ops), ClientOf(After(ops), o).grant;
            var t := Acquired(s, other, ttl, now);
            && (t.row.Some? && t.row.value.owner == other <==> Stored(grant) <= now)
            && (t.row.Some? && t.row.value.owner == other && Holds(t, o, grant)
                && Holds(t, other, ClientOf(t, other).grant)
                <==> Stored(grant) <= now < grant)
  {
    RunKeeps(ops);
    hide IsRun, After, Stored;
  }

  /** And it happens. */
  lemma OverlapHappens()
    ensures var ops := [Acquire(1, 2, 1), Acquire(2, 2, 2 * SECOND)];
            IsRun(ops) && Holds(After(ops), 1, ClientOf(After(ops), 1).grant)
                && Holds(After(ops), 2, ClientOf(After(ops), 2).grant)
  {
    var one, two := Acquire(1, 2, 1), Acquire(2, 2, 2 * SECOND);
    assert [one, two][..1] == [one] && [one][..0] == [];
    assert After([one]) == State(Some(LeaseRow(1, 2 * SECOND)), map[1 := Client(true, 2 * SECOND + 1)], 1);
  }

  /** An owner whose stored grant is unexpired keeps the lease: nobody else acquires it,
      and its own renewal succeeds. */
  lemma HolderKeepsLease(ops: seq<Op>, o: Owner, other: Owner, ttl: nat, now: nat)
    requires IsRun(ops) && o != other && now >= After(ops).clock
    requires ClientOf(After(ops), o).held && Stored(ClientOf(After(ops), o).grant) > now
    ensures Conflicts(After(ops).row, other, now)
    ensures !ClientOf(After(ops), other).held ==> !ClientOf(Acquired(After(ops), other, ttl, now), other).held
    ensures ClientOf(Renewed(After(ops), o, ttl, now), o).held
  {
    RunKeeps(ops);
    hide IsRun, After, Stored;
  }

  /** Who gets the lease, on any run: an acquire is refused, and changes nothing, exactly
      when another owner's row has not expired; a renewal, exactly when the row is not its
      own. Otherwise the row is its own, for its time to live, cut off to milliseconds. A
      release takes away its own row and no other, and a process that dies leaves the table. */
  lemma GrantedExactlyWhen(ops: seq<Op>, op: Op)
    ensures var s, t := After(ops), Apply(After(ops), op);
            var own := s.row.Some? && s.row.value.owner == op.owner;
            && t.clock == op.now
            && (forall o | o != op.owner :: ClientOf(t, o) == ClientOf(s, o))
            && match op
               case Acquire(o, ttl, now) =>
                 if s.row.Some? && !own && s.row.value.expires > now then t.row == s.row && t.clients == s.clients
                 else
                   var until := now + ttl * 1_000_000;
                   t.row == Some(LeaseRow(o, until - until % 1000)) && ClientOf(t, o) == Client(true, until)
               case Renew(o, ttl, now) =>
                 if own then
                   var until := now + ttl * 1_000_000;
                   t.row == Some(LeaseRow(o, until - until % 1000)) && ClientOf(t, o) == Client(true, until)
                 else t.row == s.row && !ClientOf(t, o).held
               case Release(o, _) => t.row == (if own then None else s.row) && !ClientOf(t, o).held
               case Die(o, _) => t.row == s.row && !ClientOf(t, o).held
  {
    hide After;
  }

  // --------------------------------------------------------------------- objects

  class LeaseTable {
    var row: Option<LeaseRow>

    constructor ()
      ensures row == None
    {
      row := None;
    }
  }

  datatype Attempt = Granted | LeaseConflict

  class CanonicalLease {
    const table: LeaseTable
    const owner: Owner
    const ttl: nat
    var held: bool
    ghost var grant: nat

    constructor (table: LeaseTable, owner: Owner, ttl: nat)
      requires ttl >= 2
      ensures this.table == table && this.owner == owner && this.ttl == ttl && !held && grant == 0
    {
      this.table, this.owner, this.ttl := table, owner, ttl;
      held, grant := false, 0;
    }

    /** The state as this process sees it, beside the clients of other processes. */
    ghost function View(others: map<Owner, Client>, clock: nat): State
      reads this, table
    {
      State(table.row, others[owner := Client(held, grant)], clock)
    }

    method Acquire(now: nat) returns (result: Attempt)
      modifies this, table
      ensures forall others, clock :: View(others, now) == Acquired(old(View(others, clock)), owner, ttl, now)
      ensures result.LeaseConflict? <==> Conflicts(old(table.row), owner, now)
    {
      if table.row.Some? && table.row.value.owner != owner && table.row.value.expires > now {
        return LeaseConflict;
      }
      var expires := now + ttl * SECOND;
      table.row := Some(LeaseRow(owner, Stored(expires)));
      held, grant := true, expires;
      return Granted;
    }

    method Renew(now: nat) returns (renewed: bool)
      modifies this, table
      ensures forall others, clock :: View(others, now) == Renewed(old(View(others, clock)), owner, ttl, now)
      ensures renewed == held
    {
      if table.row.Some? && table.row.value.owner == owner {
        var expires := now + ttl * SECOND;
        table.row := Some(LeaseRow(owner, Stored(expires)));
        held, grant := true, expires;
      } else {
        held := false;
      }
      return held;
    }

    method Release(now: nat) returns (deleted: bool)
      modifies this, table
      ensures forall others, clock :: View(others, now) == Released(old(View(others, clock)), owner, now)
      ensures deleted <==> old(table.row).Some? && old(table.row).value.owner == owner
    {
      deleted := table.row.Some? && table.row.value.owner == owner;
      if deleted { table.row := None; }
      held := false;
    }
  }
}
