/** What becomes of an observation that is published, the table that its drop is counted in,
    and the fingerprints the bus remembers, along every run. */
module EventBusQueue {
  import opened Wrappers
  import opened EventBus

  /** Why an observation is not put on the queue, if it is not: the first gate that stops it. */
  function Stopped(l: Limits, s: State, o: Observed, space: bool, sampled: bool): Option<Reason> {
    if !space then Some(AllocationExhausted)
    else if o.internal && !o.severe && !sampled then Some(SampledOut)
    else if |s.queue| >= l.telemetry then Some(QueueFull)
    else None
  }

  /** How many drops a group of the table counts. */
  function Tally(drops: seq<DropCounter>, key: DropKey): nat {
    if drops == [] then 0
    else Tally(drops[..|drops| - 1], key) + if drops[|drops| - 1].key == key then drops[|drops| - 1].count else 0
  }

  predicate HasGroup(drops: seq<DropCounter>, key: DropKey) {
    exists i :: 0 <= i < |drops| && drops[i].key == key
  }

  /** One drop more: in the group of its source, type and reason; or, when there is none and
      the table has 128 groups or more, in the group of its reason. */
  ghost predicate OneMoreDrop(before: seq<DropCounter>, o: Observed, reason: Reason, after: seq<DropCounter>) {
    var own := One(o.source, o.kind, reason);
    var key := if !HasGroup(before, own) && |before| >= 128 then Multiple(reason) else own;
    && (forall k :: Tally(after, k) == Tally(before, k) + if k == key then 1 else 0)
    && |after| == |before| + if HasGroup(before, key) then 0 else 1
  }

  lemma {:induction false} TallyUpdate(drops: seq<DropCounter>, i: nat, k: DropKey)
    requires i < |drops|
    ensures Tally(drops[i := DropCounter(drops[i].key, drops[i].count + 1)], k)
            == Tally(drops, k) + if drops[i].key == k then 1 else 0
  {
    var n, c := |drops| - 1, DropCounter(drops[i].key, drops[i].count + 1);
    if i < n {
      TallyUpdate(drops[..n], i, k);
      assert drops[i := c][..n] == drops[..n][i := c];
    } else {
      assert drops[i := c][..n] == drops[..n];
    }
  }

  lemma DroppedOneMore(drops: seq<DropCounter>, o: Observed, reason: Reason)
    ensures OneMoreDrop(drops, o, reason, Dropped(drops, o, reason))
  {
    var own := One(o.source, o.kind, reason);
    var key := GroupOf(drops, o, reason);
    var i := FindKey(drops, key);
    assert FindKey(drops, own).None? <==> !HasGroup(drops, own);
    assert i.None? <==> !HasGroup(drops, key);
    hide FindKey, GroupOf;
    forall k ensures Tally(Dropped(drops, o, reason), k) == Tally(drops, k) + if k == key then 1 else 0 {
      if i.None? {
        assert (drops + [DropCounter(key, 1)])[..|drops|] == drops;
      } else {
        TallyUpdate(drops, i.value, k);
      }
    }
  }

  /** An observation published on an open bus, on any run: stopped by no gate, it is put at
      the end of the queue and nothing is dropped; otherwise it is dropped once, for the
      reason of the first gate that stops it. The first event of a severe one is taken care
      of exactly when there is space. A closed bus ignores it. */
  lemma PublishedExactlyWhen(l: Limits, boot: seq<Fingerprint>, steps: seq<Step>, o: Observed, space: bool,
      sampled: bool, raises: bool)
    ensures var s, t := After(l, boot, steps), Apply(l, After(l, boot, steps), Publish(o, space, sampled, raises));
            var gate := Stopped(l, s, o, space, sampled);
            if s.closed then t == s
            else
              && t.queue == (if gate.None? then s.queue + [o] else s.queue)
              && (if gate.None? then t.drops == s.drops else OneMoreDrop(s.drops, o, gate.value, t.drops))
              && t.summary == s.summary && !t.closed
              && (!(space && o.severe) ==>
                    && t.cache == s.cache && t.writing == s.writing && t.ledger == s.ledger && t.failed == s.failed
                    && t.fallbacks == s.fallbacks)
              && (space && o.severe ==> o.fingerprint in t.cache)
  {
    var s := After(l, boot, steps);
    hide After;
    PersistFields(l, s, o.fingerprint, raises);
    PersistCaches(l, s, o.fingerprint, raises);
    DroppedOneMore(s.drops, o, AllocationExhausted);
    DroppedOneMore(s.drops, o, SampledOut);
    DroppedOneMore(s.drops, o, QueueFull);
    hide PersistedFirst, Dropped, OneMoreDrop;
  }

  lemma PersistCaches(l: Limits, s: State, f: Fingerprint, raises: bool)
    ensures PersistedFirst(l, s, f, raises).cache == Cached(s.cache, f)
    ensures f in PersistedFirst(l, s, f, raises).cache
  {
    var grown := Without(s.cache, f) + [f];
    assert grown[|grown| - 1] == f;
    assert |grown| > CACHE ==> grown[1..][|grown| - 2] == f;
    hide Recorded, Without;
  }

  /** The queue never holds more than its limit, and is taken from in the order it was filled. */
  lemma {:induction false} QueueIsBounded(l: Limits, boot: seq<Fingerprint>, steps: seq<Step>)
    ensures |After(l, boot, steps).queue| <= l.telemetry
    ensures var s := After(l, boot, steps);
            Apply(l, s, Consume).queue == if s.queue == [] then [] else s.queue[1..]
  {
    if steps != [] {
      var front, step := steps[..|steps| - 1], steps[|steps| - 1];
      QueueIsBounded(l, boot, front);
      if step.Publish? {
        PublishedExactlyWhen(l, boot, front, step.observed, step.space, step.sampled, step.raises);
      }
      hide Published, OneMoreDrop, Appended, Summarised;
    }
  }

  /** The bus is closed exactly when it has been told to close. */
  lemma {:induction false} ClosedExactlyWhen(l: Limits, boot: seq<Fingerprint>, steps: seq<Step>)
    ensures After(l, boot, steps).closed <==> Close in steps
  {
    hide Published, OneMoreDrop, Stopped;
    if steps != [] {
      var front, step := steps[..|steps| - 1], steps[|steps| - 1];
      ClosedExactlyWhen(l, boot, front);
      if step.Publish? {
        PublishedExactlyWhen(l, boot, front, step.observed, step.space, step.sampled, step.raises);
      }
      assert steps == front + [step];
    }
  }

  // -------------------------------------------------------------- what is remembered

  /** The fingerprints of the severe observations that had space, in order. */
  function Let(l: Limits, boot: seq<Fingerprint>, steps: seq<Step>): seq<Fingerprint> {
    if steps == [] then [] else
      var step := steps[|steps| - 1];
      Let(l, boot, steps[..|steps| - 1])
      + if step.Publish? && step.space && step.observed.severe && !After(l, boot, steps[..|steps| - 1]).closed
        then [step.observed.fingerprint] else []
  }

  /** The other fingerprints after the last occurrence of one. */
  function Since(h: seq<Fingerprint>, f: Fingerprint): set<Fingerprint> {
    if h == [] || h[|h| - 1] == f then {} else Since(h[..|h| - 1], f) + {h[|h| - 1]}
  }

  function Elements(s: seq<Fingerprint>): set<Fingerprint> {
    set x | x in s
  }

  ghost predicate Distinct(s: seq<Fingerprint>) {
    forall i, j | 0 <= i < j < |s| :: s[i] != s[j]
  }

  /** The cache holds different fingerprints in the order of their last occurrence; one that
      is missing has had as many others after it as the cache can hold. */
  ghost predicate Remembers(cache: seq<Fingerprint>, h: seq<Fingerprint>) {
    && |cache| <= CACHE && Distinct(cache)
    && (forall i | 0 <= i < |cache| :: cache[i] in h && Since(h, cache[i]) == Elements(cache[i + 1..]))
    && (forall f | f in h && f !in cache :: |Since(h, f)| >= CACHE)
  }

  lemma {:induction false} DistinctSize(s: seq<Fingerprint>)
    requires Distinct(s)
    ensures |Elements(s)| == |s|
  {
    if s != [] {
      var front, last := s[..|s| - 1], s[|s| - 1];
      DistinctSize(front);
      assert s == front + [last];
      assert Elements(s) == Elements(front) + {last};
    }
  }

  /** Taking one out of a list of different ones. */
  lemma {:induction false} WithoutOne(s: seq<Fingerprint>, f: Fingerprint)
    requires Distinct(s)
    ensures f !in s ==> Without(s, f) == s
    ensures forall i | 0 <= i < |s| && s[i] == f :: Without(s, f) == s[..i] + s[i + 1..]
  {
    if s != [] {
      var n := |s| - 1;
      WithoutOne(s[..n], f);
      assert s == s[..n] + [s[n]];
      forall i | 0 <= i < |s| && s[i] == f ensures Without(s, f) == s[..i] + s[i + 1..] {
        if i < n {
          assert s[..n][i] == f && s[n] != f;
          assert s[i + 1..] == s[..n][i + 1..] + [s[n]];
          assert s[..n][..i] == s[..i];
        } else {
          assert f !in s[..n];
          assert s[..i] + s[i + 1..] == s[..n];
        }
      }
    }
  }

  lemma SinceGrows(h: seq<Fingerprint>, f: Fingerprint, g: Fingerprint)
    ensures Since(h + [g], f) == if f == g then {} else Since(h, f) + {g}
  {
    assert (h + [g])[..|h|] == h;
  }

  /** The list as it is with `g` in it, and with `g` moved to its end. */
  lemma Pieces(cache: seq<Fingerprint>, g: Fingerprint) returns (a: seq<Fingerprint>, b: seq<Fingerprint>)
    requires Distinct(cache) && g in cache
    ensures cache == a + [g] + b && Without(cache, g) == a + b && g !in a && g !in b
  {
    WithoutOne(cache, g);
    var p :| 0 <= p < |cache| && cache[p] == g;
    a, b := cache[..p], cache[p + 1..];
  }

  lemma ElementsSum(a: seq<Fingerprint>, b: seq<Fingerprint>)
    ensures Elements(a + b) == Elements(a) + Elements(b)
  {
  }

  lemma MovedEarly(a: seq<Fingerprint>, b: seq<Fingerprint>, g: Fingerprint, i: nat)
    requires i < |a|
    ensures Elements((a + b + [g])[i + 1..]) == Elements((a + [g] + b)[i + 1..]) + {g}
  {
    assert (a + b + [g])[i + 1..] == a[i + 1..] + b + [g];
    assert (a + [g] + b)[i + 1..] == a[i + 1..] + [g] + b;
    ElementsSum(a[i + 1..] + b, [g]);
    ElementsSum(a[i + 1..], b);
    ElementsSum(a[i + 1..] + [g], b);
    ElementsSum(a[i + 1..], [g]);
    assert Elements([g]) == {g};
    hide Elements;
  }

  lemma MovedLate(a: seq<Fingerprint>, b: seq<Fingerprint>, g: Fingerprint, i: nat)
    requires i < |b|
    ensures Elements((a + b + [g])[|a| + i + 1..]) == Elements((a + [g] + b)[|a| + 1 + i + 1..]) + {g}
  {
    assert (a + b + [g])[|a| + i + 1..] == b[i + 1..] + [g];
    assert (a + [g] + b)[|a| + 1 + i + 1..] == b[i + 1..];
    ElementsSum(b[i + 1..], [g]);
    assert Elements([g]) == {g};
    hide Elements;
  }

  /** Element `f` of the one list is there in the other, with `g` besides after it. */
  ghost predicate StandsIn(cache: seq<Fingerprint>, grown: seq<Fingerprint>, f: Fingerprint, g: Fingerprint) {
    exists i, j :: 0 <= i < |cache| && 0 <= j < |grown| && cache[i] == f && grown[j] == f
                   && Elements(grown[j + 1..]) == Elements(cache[i + 1..]) + {g}
  }

  lemma MovedWithin(a: seq<Fingerprint>, b: seq<Fingerprint>, g: Fingerprint, f: Fingerprint)
    requires f in a || f in b
    ensures StandsIn(a + [g] + b, a + b + [g], f, g)
  {
    hide Elements;
    var cache, grown := a + [g] + b, a + b + [g];
    if f in a {
      var i :| 0 <= i < |a| && a[i] == f;
      MovedEarly(a, b, g, i);
      assert cache[i] == f && grown[i] == f;
    } else {
      var m :| 0 <= m < |b| && b[m] == f;
      MovedLate(a, b, g, m);
      assert cache[|a| + 1 + m] == f && grown[|a| + m] == f;
    }
  }

  /** Where an element of the list stands when `g` has been moved or added to the end. */
  lemma MovedToEnd(cache: seq<Fingerprint>, g: Fingerprint, f: Fingerprint)
    requires Distinct(cache) && f in Without(cache, g) + [g] && f != g
    ensures StandsIn(cache, Without(cache, g) + [g], f, g)
  {
    if g in cache {
      var a, b := Pieces(cache, g);
      hide *;
      MovedWithin(a, b, g, f);
    } else {
      WithoutOne(cache, g);
      hide Distinct, Without, Elements;
      var i :| 0 <= i < |cache| && cache[i] == f;
      AddedLast(cache, g, i);
      assert (cache + [g])[i] == f;
    }
  }

  lemma AddedLast(cache: seq<Fingerprint>, g: Fingerprint, i: nat)
    requires i < |cache|
    ensures Elements((cache + [g])[i + 1..]) == Elements(cache[i + 1..]) + {g}
  {
    assert (cache + [g])[i + 1..] == cache[i + 1..] + [g];
    ElementsSum(cache[i + 1..], [g]);
    assert Elements([g]) == {g};
    hide Elements;
  }

  lemma PiecesDistinct(a: seq<Fingerprint>, b: seq<Fingerprint>, g: Fingerprint)
    requires Distinct(a + [g] + b) && g !in a && g !in b
    ensures Distinct(a + b + [g])
  {
    var s, t := a + [g] + b, a + b + [g];
    forall i, j | 0 <= i < j < |t| ensures t[i] != t[j] {
      if j < |a + b| {
        var p, q := if i < |a| then i else i + 1, if j < |a| then j else j + 1;
        assert t[i] == s[p] && t[j] == s[q];
      } else {
        assert t[i] in a || t[i] in b;
      }
    }
  }

  lemma GrownIs(cache: seq<Fingerprint>, g: Fingerprint)
    requires Distinct(cache)
    ensures var grown := Without(cache, g) + [g];
            && Distinct(grown) && Elements(grown) == Elements(cache) + {g}
            && |grown| == if g in cache then |cache| else |cache| + 1
  {
    if g in cache {
      var a, b := Pieces(cache, g);
      PiecesDistinct(a, b, g);
      ElementsSum(a + b, [g]);
      ElementsSum(a, b);
      ElementsSum(a + [g], b);
      ElementsSum(a, [g]);
      assert Elements([g]) == {g};
      hide Distinct, Elements, Without;
    } else {
      WithoutOne(cache, g);
      hide Without;
    }
  }

  lemma PlaceUnique(s: seq<Fingerprint>, i: nat, j: nat)
    requires Distinct(s) && i < |s| && j < |s| && s[i] == s[j]
    ensures i == j
  {
  }

  /** Every element of the grown list has the others after it that have occurred since. */
  lemma GrownOrder(cache: seq<Fingerprint>, h: seq<Fingerprint>, g: Fingerprint, j: nat)
    requires Remembers(cache, h) && j < |Without(cache, g) + [g]|
    ensures var grown := Without(cache, g) + [g];
            grown[j] in h + [g] && Since(h + [g], grown[j]) == Elements(grown[j + 1..])
  {
    var grown := Without(cache, g) + [g];
    GrownIs(cache, g);
    SinceGrows(h, grown[j], g);
    if grown[j] == g {
      PlaceUnique(grown, j, |grown| - 1);
      assert grown[j + 1..] == [];
    } else {
      MovedToEnd(cache, g, grown[j]);
      var i, p :| 0 <= i < |cache| && 0 <= p < |grown| && cache[i] == grown[j] && grown[p] == grown[j]
                  && Elements(grown[p + 1..]) == Elements(cache[i + 1..]) + {g};
      PlaceUnique(grown, j, p);
      assert cache[i] in h;
    }
  }

  lemma CachedRemembers(cache: seq<Fingerprint>, h: seq<Fingerprint>, g: Fingerprint)
    requires Remembers(cache, h)
    ensures Remembers(Cached(cache, g), h + [g])
  {
    var grown := Without(cache, g) + [g];
    GrownIs(cache, g);
    forall j | 0 <= j < |grown| ensures grown[j] in h + [g] && Since(h + [g], grown[j]) == Elements(grown[j + 1..]) {
      GrownOrder(cache, h, g, j);
    }
    forall f | f in h && f !in grown ensures |Since(h + [g], f)| >= CACHE {
      assert f !in cache by { assert f in cache ==> f in Elements(grown); }
      SinceGrows(h, f, g);
      SubsetSize(Since(h, f), Since(h, f) + {g});
    }
    hide Since;
    CutToSize(grown, h + [g]);
  }

  /** Dropping the oldest of one too many. */
  lemma CutToSize(grown: seq<Fingerprint>, h: seq<Fingerprint>)
    requires Distinct(grown) && grown != [] && |grown| <= CACHE + 1
    requires forall j | 0 <= j < |grown| :: grown[j] in h && Since(h, grown[j]) == Elements(grown[j + 1..])
    requires forall f | f in h && f !in grown :: |Since(h, f)| >= CACHE
    ensures Remembers(if |grown| > CACHE then grown[1..] else grown, h)
  {
    hide Since;
    if |grown| > CACHE {
      var rest := grown[1..];
      forall i | 0 <= i < |rest| ensures rest[i] in h && Since(h, rest[i]) == Elements(rest[i + 1..]) {
        assert rest[i] == grown[i + 1] && rest[i + 1..] == grown[i + 2..];
      }
      forall f | f in h && f !in rest ensures |Since(h, f)| >= CACHE {
        if f in grown {
          assert f == grown[0];
          DistinctSize(rest);
        }
      }
    }
  }

  lemma CacheStep(l: Limits, s: State, step: Step)
    ensures Apply(l, s, step).cache
            == if step.Publish? && step.space && step.observed.severe && !s.closed
               then Cached(s.cache, step.observed.fingerprint) else s.cache
  {
    if step.Publish? { PersistCaches(l, s, step.observed.fingerprint, step.raises); }
    hide Cached, Dropped, Recorded, PersistedFirst;
  }

  lemma {:induction false} CacheRemembers(l: Limits, boot: seq<Fingerprint>, steps: seq<Step>)
    ensures Remembers(After(l, boot, steps).cache, Let(l, boot, steps))
  {
    if steps != [] {
      var front := steps[..|steps| - 1];
      CacheRemembers(l, boot, front);
      CacheStep(l, After(l, boot, front), steps[|steps| - 1]);
      hide Remembers, Apply, Cached;
      if steps[|steps| - 1].Publish? {
        CachedRemembers(After(l, boot, front).cache, Let(l, boot, front), steps[|steps| - 1].observed.fingerprint);
      }
      assert Let(l, boot, front) + [] == Let(l, boot, front);
    }
  }

  /** A fingerprint is remembered exactly when it has been let through, and fewer than 1024
      others have been since. */
  lemma RememberedExactlyWhen(l: Limits, boot: seq<Fingerprint>, steps: seq<Step>, f: Fingerprint)
    ensures f in After(l, boot, steps).cache
            <==> f in Let(l, boot, steps) && |Since(Let(l, boot, steps), f)| < 1024
  {
    CacheRemembers(l, boot, steps);
    var cache := After(l, boot, steps).cache;
    hide After, Let, Since;
    if i :| 0 <= i < |cache| && cache[i] == f {
      DistinctSize(cache[i + 1..]);
    }
  }
}
