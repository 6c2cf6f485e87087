/** Time buckets: aligned, half-open windows of a fixed width in seconds. */
module Buckets {
  /** The start of the window of width `width` that holds `at`: the largest multiple of
      the width that is not above it (StartIsModulo). */
  function Start(at: nat, width: nat): nat
    requires width > 0
    decreases at
  {
    if at < width then 0 else Start(at - width, width) + width
  }

  function End(at: nat, width: nat): nat
    requires width > 0
  {
    Start(at, width) + width
  }

  predicate IsMultiple(n: nat, width: nat)
    requires width > 0
  {
    Start(n, width) == n
  }

  /** What the source computes: the instant less its remainder. */
  lemma {:induction false} StartIsModulo(at: nat, width: nat)
    requires width > 0
    ensures Start(at, width) == at - at % width && (IsMultiple(at, width) <==> at % width == 0)
    decreases at
  {
    if at >= width {
      StartIsModulo(at - width, width);
      RemainderDrops(at, width);
    }
  }

  lemma RemainderDrops(at: nat, width: nat)
    requires 0 < width <= at
    ensures (at - width) % width == at % width
  {
    var q, p := (at - width) / width, at / width;
    assert at - width == width * q + (at - width) % width;
    assert at == width * p + at % width;
    assert width * (q + 1) == width * q + width;
    QuotientUnique(width, q + 1, (at - width) % width, p, at % width);
  }

  lemma QuotientUnique(w: nat, q: nat, r: nat, p: nat, s: nat)
    requires r < w && s < w && w * q + r == w * p + s
    ensures q == p && r == s
  {
    if q < p {
      ProductGap(w, q, p);
    } else if p < q {
      ProductGap(w, p, q);
    }
  }

  lemma {:induction false} ProductGap(w: nat, q: nat, p: nat)
    requires q < p
    ensures w * p >= w * q + w
  {
    if q + 1 < p { ProductGap(w, q, p - 1); }
    assert w * p == w * (p - 1) + w;
  }

  lemma {:induction false} StartBelow(at: nat, width: nat)
    requires width > 0
    ensures Start(at, width) <= at < End(at, width) && IsMultiple(Start(at, width), width)
    decreases at
  {
    if at >= width { StartBelow(at - width, width); }
  }

  /** A window is the only aligned one around an instant. */
  lemma {:induction false} StartIsUnique(at: nat, width: nat, start: nat)
    requires width > 0 && IsMultiple(start, width) && start <= at < start + width
    ensures Start(at, width) == start
    decreases at
  {
    if at >= width {
      assert start >= width;
      StartIsUnique(at - width, width, start - width);
    }
  }

  lemma {:induction false} SumMultiple(a: nat, b: nat, w: nat)
    requires w > 0 && IsMultiple(a, w) && IsMultiple(b, w)
    ensures IsMultiple(a + b, w)
    decreases b
  {
    if b > 0 {
      assert b >= w;
      SumMultiple(a, b - w, w);
    }
  }

  lemma SelfMultiple(w: nat)
    requires w > 0
    ensures IsMultiple(w, w)
  {
    assert Start(0, w) == 0;
  }

  /** Multiples of a multiple. */
  lemma {:induction false} MultipleOfMultiple(n: nat, p: nat, c: nat)
    requires p > 0 && c > 0 && IsMultiple(p, c) && IsMultiple(n, p)
    ensures IsMultiple(n, c)
    decreases n
  {
    if n > 0 {
      assert n >= p;
      MultipleOfMultiple(n - p, p, c);
      SumMultiple(n - p, p, c);
    }
  }

  /** Below a multiple there is room for a whole window. */
  lemma {:induction false} WholeWindowFits(s: nat, end: nat, w: nat)
    requires w > 0 && IsMultiple(s, w) && IsMultiple(end, w) && s < end
    ensures s + w <= end && IsMultiple(end - w, w)
    decreases s
  {
    assert end >= w;
    if s >= w { WholeWindowFits(s - w, end - w, w); }
  }

  /** When the child width divides the parent width, the child window of every instant
      lies inside its parent window. */
  lemma ChildInParent(at: nat, child: nat, parent: nat)
    requires child > 0 && parent > 0 && IsMultiple(parent, child)
    ensures Start(at, parent) <= Start(at, child) && End(at, child) <= End(at, parent)
    ensures Start(Start(at, child), parent) == Start(at, parent)
    ensures IsMultiple(Start(at, parent), child) && IsMultiple(End(at, parent), child)
  {
    hide Start, IsMultiple;
    var s, p := Start(at, child), Start(at, parent);
    StartBelow(at, child);
    StartBelow(at, parent);
    MultipleOfMultiple(p, parent, child);
    SumMultiple(p, parent, child);
    WholeWindowFits(s, p + parent, child);
    if s < p { WholeWindowFits(s, p, child); }
    StartIsUnique(s, parent, p);
  }

  /** And only then: otherwise some child window straddles two parent windows. */
  lemma NestingNeedsDivision(child: nat, parent: nat)
    requires child > 0 && parent > 0
    ensures IsMultiple(parent, child)
            <==> forall at: nat :: Start(at, parent) <= Start(at, child) && End(at, child) <= End(at, parent)
  {
    if IsMultiple(parent, child) {
      forall at: nat ensures Start(at, parent) <= Start(at, child) && End(at, child) <= End(at, parent) {
        ChildInParent(at, child, parent);
      }
    } else {
      var at := Start(parent, child);
      StartBelow(parent, child);
      assert Start(at, child) == at && Start(at, parent) == 0;
    }
  }
}
