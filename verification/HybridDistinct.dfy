/** A distinct-count bucket: an exact set of keyed digests while it is small, then an
    HLL sketch. The sketch library is an opaque function of the digests it was given. */
module HybridDistinct {
  import opened Wrappers
  import opened Bytes

  /** 256 to the power of DIGEST_BYTES. */
  const DIGEST_LIMIT: nat := 0x1_0000_0000_0000_0000_0000_0000_0000_0000

  /** A digest, read as a big-endian number. */
  type Digest = n: nat | n < DIGEST_LIMIT witness 0

  lemma DigestLimit()
    ensures Pow256(DIGEST_BYTES) == DIGEST_LIMIT
  {
    assert Pow256(4) == 0x1_0000_0000;
    assert Pow256(8) == 0x1_0000_0000_0000_0000;
    assert Pow256(12) == 0x1_0000_0000_0000_0000_0000_0000;
  }

  function DigestToBytes(d: Digest): (b: seq<byte>)
    ensures |b| == DIGEST_BYTES
  {
    DigestLimit();
    BigEndian(d, DIGEST_BYTES)
  }

  function DigestFromBytes(b: seq<byte>): Digest
    requires |b| == DIGEST_BYTES
  {
    DigestLimit();
    FromBigEndianFits(b);
    FromBigEndian(b)
  }

  lemma DigestRoundTrip(d: Digest)
    ensures DigestFromBytes(DigestToBytes(d)) == d
  {
    DigestLimit();
    BigEndianRoundTrip(d, DIGEST_BYTES);
  }

  datatype Mode = EXACT | HLL | UNAVAILABLE

  const ENTRY_BYTES: nat := 48

  /** `library` says whether the sketch library is installed; `estimate` is what its
      sketch answers after it was given a set of digests. */
  datatype Settings = Settings(threshold: nat, bytes: nat, library: bool, estimate: set<Digest> -> real) {
    predicate Valid() { threshold >= 1 && bytes >= ENTRY_BYTES }
  }

  /** Metric, scope, key version, key and HLL parameters: what must agree for a merge. */
  datatype Identity = Identity(metric: string, scope: string, keyVersion: nat, keyId: string, lgK: nat, target: string)

  /** `members` are the digests held exactly, or those the HLL sketch was given. */
  datatype Sketch = Sketch(mode: Mode, members: set<Digest>, updates: nat)

  const Empty: Sketch := Sketch(EXACT, {}, 0)

  datatype Raised = Nothing | Implausible | Incompatible | LibraryMissing | Corrupt | OverBound

  /** The bucket after a call, and the exception the call ended with, if any. */
  datatype Outcome = Outcome(sketch: Sketch, raised: Raised)

  predicate Fits(l: Settings, members: set<Digest>) {
    |members| <= l.threshold && |members| * ENTRY_BYTES <= l.bytes
  }

  /** The check a promotion makes on the estimate of the fresh sketch. */
  predicate Plausible(l: Settings, members: set<Digest>) {
    members == {} || |members| as real * 0.5 <= l.estimate(members) <= |members| as real * 2.0
  }

  function Promoted(l: Settings, s: Sketch): Outcome {
    if s.mode != EXACT then Outcome(s, Nothing)
    else if !l.library then Outcome(s.(mode := UNAVAILABLE), Nothing)
    else if !Plausible(l, s.members) then Outcome(s, Implausible)
    else Outcome(s.(mode := HLL), Nothing)
  }

  function Updated(l: Settings, s: Sketch, d: Digest): Outcome {
    match s.mode
    case HLL => Outcome(s.(members := s.members + {d}, updates := s.updates + 1), Nothing)
    case UNAVAILABLE => Outcome(s.(updates := s.updates + 1), Nothing)
    case EXACT =>
      var t := Sketch(EXACT, s.members + {d}, s.updates + 1);
      if Fits(l, t.members) then Outcome(t, Nothing) else Promoted(l, t)
  }

  /** merge of compatible buckets. */
  function Merged(l: Settings, a: Sketch, b: Sketch): Outcome {
    var held := if a.mode == HLL then {} else a.members;
    if a.mode == UNAVAILABLE || b.mode == UNAVAILABLE then Outcome(Sketch(UNAVAILABLE, held, a.updates), Nothing)
    else
      var s := a.(updates := a.updates + b.updates);
      if a.mode == EXACT && b.mode == EXACT then
        var t := s.(members := a.members + b.members);
        if Fits(l, t.members) then Outcome(t, Nothing) else Promoted(l, t)
      else if !l.library then Outcome(Sketch(UNAVAILABLE, held, s.updates), Nothing)
      else
        var p := Promoted(l, s);
        if p.raised != Nothing then p else Outcome(p.sketch.(members := s.members + b.members), Nothing)
  }

  // ------------------------------------------------------- how a bucket came to be

  /** A bucket is fresh, an updated bucket, or a bucket that another was merged into. */
  datatype Build = Fresh | Update(of: Build, digest: Digest) | Merge(of: Build, other: Build)

  /** The bucket of a build, unless some call on the way raised. */
  function Value(l: Settings, b: Build): Option<Sketch> {
    match b
    case Fresh => Some(Empty)
    case Update(of, d) =>
      var s := Value(l, of);
      if s.None? then None else
        var o := Updated(l, s.value, d);
        if o.raised == Nothing then Some(o.sketch) else None
    case Merge(of, other) =>
      var s, t := Value(l, of), Value(l, other);
      if s.None? || t.None? then None else
        var o := Merged(l, s.value, t.value);
        if o.raised == Nothing then Some(o.sketch) else None
  }

  /** The digests a build was given. */
  function Contents(b: Build): set<Digest> {
    match b
    case Fresh => {}
    case Update(of, d) => Contents(of) + {d}
    case Merge(of, other) => Contents(of) + Contents(other)
  }

  function Updates(b: Build): nat {
    match b
    case Fresh => 0
    case Update(of, _) => Updates(of) + 1
    case Merge(of, other) => Updates(of) + Updates(other)
  }

  /** The mode a bucket of these contents must be in. */
  function CanonicalMode(l: Settings, contents: set<Digest>): Mode {
    if Fits(l, contents) then EXACT else HLL
  }

  lemma FitsSubset(l: Settings, a: set<Digest>, b: set<Digest>)
    requires a <= b && Fits(l, b)
    ensures Fits(l, a)
  {
    SubsetSize(a, b);
  }

  /** A bucket whose mode is the one its contents call for. */
  predicate Canonical(l: Settings, s: Sketch) {
    s.mode == CanonicalMode(l, s.members)
  }

  lemma UpdateCanonical(l: Settings, s: Sketch, d: Digest)
    requires l.library && Canonical(l, s) && Updated(l, s, d).raised == Nothing
    ensures Canonical(l, Updated(l, s, d).sketch)
    ensures Updated(l, s, d).sketch.members == s.members + {d} && Updated(l, s, d).sketch.updates == s.updates + 1
  {
    if Fits(l, s.members + {d}) { FitsSubset(l, s.members, s.members + {d}); }
    hide Fits;
  }

  lemma MergeCanonical(l: Settings, a: Sketch, b: Sketch)
    requires l.library && Canonical(l, a) && Canonical(l, b) && Merged(l, a, b).raised == Nothing
    ensures Canonical(l, Merged(l, a, b).sketch)
    ensures Merged(l, a, b).sketch.members == a.members + b.members
            && Merged(l, a, b).sketch.updates == a.updates + b.updates
  {
    if Fits(l, a.members + b.members) {
      FitsSubset(l, a.members, a.members + b.members);
      FitsSubset(l, b.members, a.members + b.members);
    }
    hide Fits;
  }

  /** With the library, a bucket is fixed by its contents and its number of updates:
      it is EXACT if and only if the contents fit the limits. */
  lemma {:induction false} BuildIsCanonical(l: Settings, b: Build)
    requires l.Valid() && l.library && Value(l, b).Some?
    ensures Value(l, b).value == Sketch(CanonicalMode(l, Contents(b)), Contents(b), Updates(b))
  {
    hide Updated, Merged, Fits;
    match b
    case Fresh => CanonicalEmpty(l);
    case Update(of, d) =>
      BuildIsCanonical(l, of);
      UpdateCanonical(l, Value(l, of).value, d);
    case Merge(of, other) =>
      BuildIsCanonical(l, of);
      BuildIsCanonical(l, other);
      MergeCanonical(l, Value(l, of).value, Value(l, other).value);
  }

  lemma CanonicalEmpty(l: Settings)
    requires l.Valid()
    ensures Canonical(l, Empty)
  {
  }

  function Fed(items: seq<Digest>): Build {
    if items == [] then Fresh else Update(Fed(items[..|items| - 1]), items[|items| - 1])
  }

  /** A roll-up: one bucket a child, merged into a fresh parent in the order given. */
  function RolledUp(children: seq<seq<Digest>>): Build {
    if children == [] then Fresh
    else Merge(RolledUp(children[..|children| - 1]), Fed(children[|children| - 1]))
  }

  function Flatten(children: seq<seq<Digest>>): seq<Digest> {
    if children == [] then [] else Flatten(children[..|children| - 1]) + children[|children| - 1]
  }

  lemma {:induction false} FedContents(items: seq<Digest>)
    ensures Contents(Fed(items)) == (set x | x in items) && Updates(Fed(items)) == |items|
  {
    if items != [] {
      FedContents(items[..|items| - 1]);
      assert items == items[..|items| - 1] + [items[|items| - 1]];
    }
  }

  lemma {:induction false} RolledUpContents(children: seq<seq<Digest>>)
    ensures Contents(RolledUp(children)) == (set x | x in Flatten(children))
            && Updates(RolledUp(children)) == |Flatten(children)|
  {
    if children != [] {
      RolledUpContents(children[..|children| - 1]);
      FedContents(children[|children| - 1]);
    }
  }

  /** Roll-up equals direct feed: merging any split of a stream into buckets, in any
      order, gives the bucket that the whole stream, in any order, gives. */
  lemma RollUpIsDirectFeed(l: Settings, children: seq<seq<Digest>>, items: seq<Digest>)
    requires l.Valid() && l.library && multiset(Flatten(children)) == multiset(items)
    requires Value(l, RolledUp(children)).Some? && Value(l, Fed(items)).Some?
    ensures Value(l, RolledUp(children)) == Value(l, Fed(items))
  {
    BuildIsCanonical(l, RolledUp(children));
    BuildIsCanonical(l, Fed(items));
    RolledUpContents(children);
    FedContents(items);
    hide *;
    SameElements(Flatten(children), items);
  }

  lemma SameElements(a: seq<Digest>, b: seq<Digest>)
    requires multiset(a) == multiset(b)
    ensures (set x | x in a) == (set x | x in b) && |a| == |b|
  {
    assert |multiset(a)| == |a| && |multiset(b)| == |b|;
    forall x ensures x in a <==> x in b {
      assert x in multiset(a) <==> x in a;
      assert x in multiset(b) <==> x in b;
    }
  }

  /** No bucket holds a digest it was not given. */
  lemma {:induction false} MembersGiven(l: Settings, b: Build)
    ensures Value(l, b).Some? ==> Value(l, b).value.members <= Contents(b)
  {
    hide Fits, Plausible;
    match b
    case Fresh =>
    case Update(of, d) =>
      MembersGiven(l, of);
    case Merge(of, other) =>
      MembersGiven(l, of);
      MembersGiven(l, other);
  }

  /** The estimate is plausible for every subset of some digests. */
  ghost predicate PlausibleUpTo(l: Settings, all: set<Digest>) {
    forall m | m <= all :: Plausible(l, m)
  }

  /** Only an implausible estimate, of some of the digests it was given, makes a bucket raise. */
  lemma {:induction false} PlausibleNeverRaises(l: Settings, b: Build)
    requires PlausibleUpTo(l, Contents(b))
    ensures Value(l, b).Some?
  {
    hide Fits, Plausible, Updated, Merged;
    match b
    case Fresh =>
    case Update(of, d) =>
      PlausibleNeverRaises(l, of);
      MembersGiven(l, of);
      PlausibleStep(l, Value(l, of).value, Empty, d, Contents(b));
    case Merge(of, other) =>
      PlausibleNeverRaises(l, of);
      PlausibleNeverRaises(l, other);
      MembersGiven(l, of);
      MembersGiven(l, other);
      PlausibleStep(l, Value(l, of).value, Value(l, other).value, 0, Contents(b));
  }

  lemma PlausibleStep(l: Settings, a: Sketch, b: Sketch, d: Digest, all: set<Digest>)
    requires PlausibleUpTo(l, all) && a.members <= all && b.members <= all
    ensures d in all ==> Updated(l, a, d).raised == Nothing
    ensures Merged(l, a, b).raised == Nothing
  {
    assert Plausible(l, a.members) && Plausible(l, a.members + b.members);
    assert d in all ==> Plausible(l, a.members + {d});
    hide Fits, Plausible;
  }

  /** No call brings a bucket back to EXACT, nor an unavailable one to HLL. */
  lemma ModeNeverReturns(l: Settings, a: Sketch, b: Sketch, d: Digest)
    ensures a.mode != EXACT ==> Updated(l, a, d).sketch.mode == a.mode
    ensures a.mode != EXACT ==> Merged(l, a, b).sketch.mode != EXACT
    ensures a.mode == UNAVAILABLE ==> Merged(l, a, b).sketch.mode == UNAVAILABLE
    ensures b.mode != EXACT && Merged(l, a, b).raised == Nothing ==> Merged(l, a, b).sketch.mode != EXACT
  {
  }

  // ------------------------------------------------------------------ in numbers

  /** More digests than an exact bucket may hold. */
  predicate TooMany(l: Settings, members: set<Digest>) {
    |members| > l.threshold || |members| * 48 > l.bytes
  }

  /** The estimate is off by more than a factor of two. */
  predicate FarOff(l: Settings, members: set<Digest>) {
    members != {}
    && (2.0 * l.estimate(members) < |members| as real || l.estimate(members) > 2.0 * (|members| as real))
  }

  /** An exact bucket counts the update and holds the digest, whatever happens then. It stays
      exact while it holds few enough; otherwise it is promoted, and raises, staying exact,
      if and only if the estimate is off by more than a factor of two. */
  lemma UpdateInNumbers(l: Settings, s: Sketch, d: Digest)
    requires l.library && s.mode == EXACT
    ensures var o, m := Updated(l, s, d), s.members + {d};
            && o.sketch.members == m && o.sketch.updates == s.updates + 1
            && o.raised == (if TooMany(l, m) && FarOff(l, m) then Implausible else Nothing)
            && o.sketch.mode == (if TooMany(l, m) && !FarOff(l, m) then HLL else EXACT)
  {
  }

  /** The same for a merge of two exact buckets. When only one is, what is checked is the
      estimate of the bucket that is merged into, while it is still exact. */
  lemma MergeInNumbers(l: Settings, a: Sketch, b: Sketch)
    requires l.library && a.mode != UNAVAILABLE && b.mode != UNAVAILABLE
    ensures var o, m := Merged(l, a, b), a.members + b.members;
            && o.sketch.updates == a.updates + b.updates
            && (a.mode == EXACT && b.mode == EXACT ==>
                  && o.sketch.members == m
                  && o.raised == (if TooMany(l, m) && FarOff(l, m) then Implausible else Nothing)
                  && o.sketch.mode == (if TooMany(l, m) && !FarOff(l, m) then HLL else EXACT))
            && (a.mode == EXACT && b.mode == HLL ==>
                  && o.raised == (if FarOff(l, a.members) then Implausible else Nothing)
                  && o.sketch.mode == (if FarOff(l, a.members) then EXACT else HLL)
                  && o.sketch.members == if FarOff(l, a.members) then a.members else m)
            && (a.mode == HLL ==> o.raised == Nothing && o.sketch.mode == HLL && o.sketch.members == m)
  {
  }

  /** Without the library an exact bucket that holds too many digests becomes unavailable with
      them, and never raises; an unavailable one only counts. */
  lemma UpdateWithoutLibrary(l: Settings, s: Sketch, d: Digest)
    requires !l.library && s.mode != HLL
    ensures var o, m := Updated(l, s, d), s.members + {d};
            && o.raised == Nothing && o.sketch.updates == s.updates + 1
            && o.sketch.mode == (if s.mode == UNAVAILABLE || TooMany(l, m) then UNAVAILABLE else EXACT)
            && o.sketch.members == if s.mode == UNAVAILABLE then s.members else m
  {
  }

  /** A merge with an unavailable side makes the bucket unavailable, with the digests it held
      exactly and its own count; without the library so does every merge but that of two
      exact buckets that fit. */
  lemma MergeUnavailable(l: Settings, a: Sketch, b: Sketch)
    ensures var o, held := Merged(l, a, b), if a.mode == HLL then {} else a.members;
            && (a.mode == UNAVAILABLE || b.mode == UNAVAILABLE ==>
                  o == Outcome(Sketch(UNAVAILABLE, held, a.updates), Nothing))
            && (!l.library && a.mode != UNAVAILABLE && b.mode != UNAVAILABLE ==>
                  && o.raised == Nothing && o.sketch.updates == a.updates + b.updates
                  && if a.mode == EXACT && b.mode == EXACT
                     then o.sketch.members == a.members + b.members
                          && o.sketch.mode == if TooMany(l, a.members + b.members) then UNAVAILABLE else EXACT
                     else o.sketch.mode == UNAVAILABLE && o.sketch.members == held)
  {
  }

  // --------------------------------------------------------------------- on disk

  /** A payload: concatenated digests, or what the library wrote for its sketch. */
  datatype Payload = MemberBytes(blob: seq<byte>) | LibraryBlob(given: set<Digest>)

  datatype Stored = Stored(mode: Mode, payload: Payload, updates: nat)

  function Encoded(list: seq<Digest>): (r: seq<seq<byte>>)
    ensures |r| == |list| && forall i | 0 <= i < |r| :: |r[i]| == DIGEST_BYTES
  {
    if list == [] then [] else Encoded(list[..|list| - 1]) + [DigestToBytes(list[|list| - 1])]
  }

  function Decoded(chunks: seq<seq<byte>>): set<Digest>
    requires forall i | 0 <= i < |chunks| :: |chunks[i]| == DIGEST_BYTES
  {
    if chunks == [] then {} else
      Decoded(chunks[..|chunks| - 1]) + {DigestFromBytes(chunks[|chunks| - 1])}
  }

  /** An ascending list of the members; their big-endian bytes sort the same way. */
  ghost predicate Ascending(list: seq<Digest>, members: set<Digest>) {
    && (forall i, j | 0 <= i < j < |list| :: list[i] < list[j])
    && members == set x | x in list
  }

  /** The size guard of deserialize. */
  predicate WithinGuard(l: Settings, n: nat) {
    n <= l.threshold + 1
    && n * ENTRY_BYTES <= (if l.bytes + ENTRY_BYTES >= 2 * l.bytes then l.bytes + ENTRY_BYTES else 2 * l.bytes)
  }

  lemma {:induction false} SplitWidth(b: seq<byte>)
    requires |b| % DIGEST_BYTES == 0
    ensures forall i | 0 <= i < |Split(b)| :: |Split(b)[i]| == DIGEST_BYTES
    decreases |b|
  {
    if b != [] { SplitWidth(b[..|b| - DIGEST_BYTES]); }
  }

  function MembersIn(blob: seq<byte>): Option<set<Digest>> {
    if |blob| % DIGEST_BYTES != 0 then None else
      SplitWidth(blob);
      Some(Decoded(Split(blob)))
  }

  function Deserialized(l: Settings, s: Stored): Outcome {
    if s.mode == HLL then
      if !l.library then Outcome(Empty, LibraryMissing)
      else if s.payload.MemberBytes? then Outcome(Empty, Corrupt)
      else Outcome(Sketch(HLL, s.payload.given, s.updates), Nothing)
    else
      var members := if s.payload.LibraryBlob? then None else MembersIn(s.payload.blob);
      if members.None? then Outcome(Empty, Corrupt)
      else if !WithinGuard(l, |members.value|) then Outcome(Empty, OverBound)
      else Outcome(Sketch(s.mode, members.value, s.updates), Nothing)
  }

  lemma {:induction false} DecodeEncoded(list: seq<Digest>)
    ensures Decoded(Encoded(list)) == set x | x in list
  {
    if list != [] {
      var front, last := list[..|list| - 1], list[|list| - 1];
      DecodeEncoded(front);
      DigestRoundTrip(last);
      hide DigestToBytes, DigestFromBytes;
      var chunks := Encoded(list);
      assert chunks[..|chunks| - 1] == Encoded(front);
      assert list == front + [last];
    }
  }

  lemma MembersRoundTrip(list: seq<Digest>, members: set<Digest>)
    requires Ascending(list, members)
    ensures MembersIn(Join(Encoded(list))) == Some(members)
  {
    SplitJoin(Encoded(list));
    DecodeEncoded(list);
    hide Encoded, Decoded, Split, Join;
  }

  /** What serialize writes; `list` is the sorted list of the members. */
  function Serialized(s: Sketch, list: seq<Digest>): Stored {
    Stored(s.mode, if s.mode == HLL then LibraryBlob(s.members) else MemberBytes(Join(Encoded(list))), s.updates)
  }

  /** A bucket that was written is read back unless the guard rejects the size of its set,
      or the library is gone. */
  lemma BucketRoundTrip(l: Settings, s: Sketch, list: seq<Digest>)
    requires Ascending(list, s.members)
    ensures Deserialized(l, Serialized(s, list))
            == if s.mode == HLL && !l.library then Outcome(Empty, LibraryMissing)
               else if s.mode == HLL || WithinGuard(l, |s.members|) then Outcome(s, Nothing)
               else Outcome(Empty, OverBound)
  {
    hide Encoded, MembersIn, Join, WithinGuard, Ascending;
    MembersRoundTrip(list, s.members);
  }

  /** The guard never rejects a reachable EXACT bucket, with or without the library. */
  lemma ExactWithinGuard(l: Settings, b: Build)
    requires l.Valid() && Value(l, b).Some? && Value(l, b).value.mode == EXACT
    ensures WithinGuard(l, |Value(l, b).value.members|)
  {
    ExactFits(l, b);
  }

  lemma {:induction false} ExactFits(l: Settings, b: Build)
    requires l.Valid() && Value(l, b).Some? && Value(l, b).value.mode == EXACT
    ensures Fits(l, Value(l, b).value.members)
  {
    match b
    case Fresh =>
    case Update(of, d) =>
      ExactFits(l, of);
    case Merge(of, other) =>
      ExactFits(l, of);
      ModeNeverReturns(l, Value(l, of).value, Value(l, other).value, 0);
  }

  /** Without the library a bucket that is only fed keeps at most one member too many,
      and the guard accepts it. */
  lemma {:induction false} FedWithinGuard(l: Settings, items: seq<Digest>)
    requires l.Valid() && !l.library
    ensures Value(l, Fed(items)).Some? && WithinGuard(l, |Value(l, Fed(items)).value.members|)
    ensures Value(l, Fed(items)).value.mode == EXACT ==> Fits(l, Value(l, Fed(items)).value.members)
    ensures Value(l, Fed(items)).value.mode != HLL && Value(l, Fed(items)).value.updates == |items|
  {
    if items != [] {
      var front, d := items[..|items| - 1], items[|items| - 1];
      FedWithinGuard(l, front);
      UpdateWithinGuard(l, Value(l, Fed(front)).value, d);
      hide Updated, WithinGuard, Fits;
    }
  }

  lemma UpdateWithinGuard(l: Settings, s: Sketch, d: Digest)
    requires l.Valid() && !l.library && WithinGuard(l, |s.members|) && (s.mode == EXACT ==> Fits(l, s.members))
             && s.mode != HLL
    ensures var o := Updated(l, s, d);
            && o.raised == Nothing && o.sketch.mode != HLL && o.sketch.updates == s.updates + 1
            && WithinGuard(l, |o.sketch.members|) && (o.sketch.mode == EXACT ==> Fits(l, o.sketch.members))
  {
    var m := s.members + {d};
    assert |m| <= |s.members| + 1;
  }

  /** How many members an EXACT bucket can hold. */
  function Capacity(l: Settings): nat {
    if l.threshold <= l.bytes / ENTRY_BYTES then l.threshold else l.bytes / ENTRY_BYTES
  }

  lemma FitsCapacity(l: Settings, members: set<Digest>)
    ensures Fits(l, members) <==> |members| <= Capacity(l)
  {
  }

  /** The digests below a number. */
  function Below(n: nat): (r: set<Digest>)
    requires n <= DIGEST_LIMIT
    ensures |r| == n && forall d: Digest :: d in r <==> d < n
  {
    if n == 0 then {} else Below(n - 1) + {n - 1}
  }

  /** What the guard asks of valid limits. */
  lemma GuardMeaning(l: Settings, n: nat)
    requires l.Valid()
    ensures WithinGuard(l, n) <==> n <= l.threshold + 1 && n * ENTRY_BYTES <= 2 * l.bytes
  {
  }

  lemma UnionWithinGuard(l: Settings, a: set<Digest>, b: set<Digest>)
    requires l.Valid() && Fits(l, a) && Fits(l, b)
    requires 2 * Capacity(l) <= l.threshold + 1 || DIGEST_LIMIT <= l.threshold + 1
    ensures WithinGuard(l, |a + b|)
  {
    SubsetSize(a + b, Below(DIGEST_LIMIT));
    FitsCapacity(l, a);
    FitsCapacity(l, b);
    GuardMeaning(l, |a + b|);
    assert |a + b| <= |a| + |b|;
    assert |a| * ENTRY_BYTES <= l.bytes && |b| * ENTRY_BYTES <= l.bytes;
    hide Fits, WithinGuard, Capacity;
  }

  lemma MergedWithinGuard(l: Settings, a: Sketch, b: Sketch)
    requires l.Valid() && !l.library
    requires 2 * Capacity(l) <= l.threshold + 1 || DIGEST_LIMIT <= l.threshold + 1
    requires (a.mode == EXACT ==> Fits(l, a.members)) && (b.mode == EXACT ==> Fits(l, b.members))
    requires WithinGuard(l, |a.members|) && a.mode != HLL && b.mode != HLL
    ensures var t := Merged(l, a, b).sketch;
            WithinGuard(l, |t.members|) && t.mode != HLL && (t.mode == EXACT ==> Fits(l, t.members))
  {
    if a.mode == EXACT && b.mode == EXACT { UnionWithinGuard(l, a.members, b.members); }
    hide Fits, WithinGuard, Capacity, Plausible;
  }

  /** Without the library: limits that no merge of two EXACT buckets can exceed are never
      exceeded at all. */
  lemma {:induction false} BuildWithinGuard(l: Settings, b: Build)
    requires l.Valid() && !l.library
    requires 2 * Capacity(l) <= l.threshold + 1 || DIGEST_LIMIT <= l.threshold + 1
    ensures Value(l, b).Some? ==>
              var s := Value(l, b).value;
              WithinGuard(l, |s.members|) && s.mode != HLL && (s.mode == EXACT ==> Fits(l, s.members))
  {
    match b
    case Fresh =>
    case Update(of, d) =>
      BuildWithinGuard(l, of);
      if Value(l, of).Some? { UpdateWithinGuard(l, Value(l, of).value, d); }
      hide Updated, WithinGuard, Fits;
    case Merge(of, other) =>
      BuildWithinGuard(l, of);
      BuildWithinGuard(l, other);
      if Value(l, of).Some? && Value(l, other).Some? {
        MergedWithinGuard(l, Value(l, of).value, Value(l, other).value);
      }
      hide Merged, WithinGuard, Fits, Capacity;
  }

  /** A bucket fed each member of a set once. */
  ghost function FedSet(s: set<Digest>): Build {
    if s == {} then Fresh else
      var d :| d in s;
      Update(FedSet(s - {d}), d)
  }

  lemma OneMoreFits(l: Settings, s: Sketch, d: Digest)
    requires s.mode == EXACT && d !in s.members && |s.members| < Capacity(l)
    ensures Updated(l, s, d) == Outcome(Sketch(EXACT, s.members + {d}, s.updates + 1), Nothing)
  {
    assert |s.members + {d}| == |s.members| + 1;
    FitsCapacity(l, s.members + {d});
    hide Fits, Capacity;
  }

  lemma {:induction false} FedSetValue(l: Settings, s: set<Digest>)
    requires l.Valid() && |s| <= Capacity(l)
    ensures Value(l, FedSet(s)) == Some(Sketch(EXACT, s, |s|))
  {
    if s != {} {
      var d: Digest :| d in s && FedSet(s) == Update(FedSet(s - {d}), d);
      var rest := s - {d};
      FedSetValue(l, rest);
      OneMoreFits(l, Sketch(EXACT, rest, |rest|), d);
      assert rest + {d} == s;
      hide Updated, Capacity, FedSet;
    }
  }

  lemma MergeValue(l: Settings, x: Build, y: Build, a: Sketch, b: Sketch)
    requires Value(l, x) == Some(a) && Value(l, y) == Some(b) && Merged(l, a, b).raised == Nothing
    ensures Value(l, Merge(x, y)) == Some(Merged(l, a, b).sketch)
  {
    hide Merged;
  }

  lemma MergeTooLarge(l: Settings, a: set<Digest>, b: set<Digest>)
    requires !l.library && a !! b && |a| + |b| > Capacity(l)
    ensures Merged(l, Sketch(EXACT, a, |a|), Sketch(EXACT, b, |b|))
            == Outcome(Sketch(UNAVAILABLE, a + b, |a| + |b|), Nothing)
    ensures |a + b| == |a| + |b|
  {
    assert |a + b| == |a| + |b|;
    FitsCapacity(l, a + b);
    hide Fits, Capacity, Plausible;
  }

  /** Two EXACT buckets of disjoint digests that do not fit together. */
  lemma TooLargeMerge(l: Settings, a: set<Digest>, b: set<Digest>)
    requires l.Valid() && !l.library && a !! b && |a| <= Capacity(l) && |b| <= Capacity(l) && |a| + |b| > Capacity(l)
    ensures Value(l, Merge(FedSet(a), FedSet(b))) == Some(Sketch(UNAVAILABLE, a + b, |a| + |b|)) && |a + b| == |a| + |b|
  {
    hide *;
    FedSetValue(l, a);
    FedSetValue(l, b);
    MergeTooLarge(l, a, b);
    MergeValue(l, FedSet(a), FedSet(b), Sketch(EXACT, a, |a|), Sketch(EXACT, b, |b|));
  }

  /** Merging need not keep the bound. Without the library, a bucket that deserialize refuses
      to read back can come about if and only if two full EXACT buckets hold more than one
      digest over the threshold, and there are that many digests. */
  lemma MergedCanBeUnreadable(l: Settings)
    requires l.Valid() && !l.library
    ensures (exists b :: Value(l, b).Some? && !WithinGuard(l, |Value(l, b).value.members|))
            <==> l.threshold + 1 < 2 * Capacity(l) && l.threshold + 1 < DIGEST_LIMIT
  {
    if l.threshold + 1 < 2 * Capacity(l) && l.threshold + 1 < DIGEST_LIMIT {
      var n := l.threshold + 2;
      var first, rest := Below(Capacity(l)), Below(n) - Below(Capacity(l));
      assert Below(n) == first + rest;
      TooLargeMerge(l, first, rest);
      GuardMeaning(l, n);
      var b := Merge(FedSet(first), FedSet(rest));
      assert Value(l, b).Some? && !WithinGuard(l, |Value(l, b).value.members|);
    } else {
      forall b | Value(l, b).Some? ensures WithinGuard(l, |Value(l, b).value.members|) { BuildWithinGuard(l, b); }
    }
    hide Value, Fits, FedSet;
  }

  /** A merge keeps the count of updates exactly when neither side is unavailable, or the
      other side never had any. */
  lemma MergeCountsUpdates(l: Settings, a: Sketch, b: Sketch)
    ensures Merged(l, a, b).sketch.updates == a.updates + b.updates
            <==> (a.mode != UNAVAILABLE && b.mode != UNAVAILABLE) || b.updates == 0
  {
  }

  // ------------------------------------------------------------------ the bucket

  predicate Compatible(a: Identity, b: Identity) {
    a == b
  }

  /** The bucket as an object: an exact set, or the sketch, and the counters. */
  class HybridDistinctBucket {
    const settings: Settings
    const identity: Identity
    var mode: Mode
    var exact: set<Digest>
    var hll: set<Digest>
    var itemUpdates: nat

    constructor (settings: Settings, identity: Identity)
      requires settings.Valid()
      ensures this.settings == settings && this.identity == identity && View() == Empty && Valid()
    {
      this.settings, this.identity := settings, identity;
      mode, exact, hll, itemUpdates := EXACT, {}, {}, 0;
    }

    function View(): Sketch
      reads this
    {
      Sketch(mode, if mode == HLL then hll else exact, itemUpdates)
    }

    /** The exact set is cleared once the sketch has taken over. */
    ghost predicate Valid()
      reads this
    {
      settings.Valid() && (mode == HLL ==> exact == {})
    }

    method Promote() returns (raised: Raised)
      requires Valid()
      modifies this`mode, this`exact, this`hll
      ensures Valid() && Outcome(View(), raised) == Promoted(settings, old(View()))
    {
      if mode != EXACT { return Nothing; }
      if !settings.library {
        mode := UNAVAILABLE;
        return Nothing;
      }
      if !Plausible(settings, exact) { return Implausible; }
      hll, mode, exact := exact, HLL, {};
      return Nothing;
    }

    method Update(d: Digest) returns (raised: Raised)
      requires Valid()
      modifies this
      ensures Valid() && Outcome(View(), raised) == Updated(settings, old(View()), d)
    {
      hide Fits, Plausible;
      itemUpdates := itemUpdates + 1;
      if mode == HLL {
        hll := hll + {d};
        return Nothing;
      }
      if mode == UNAVAILABLE { return Nothing; }
      exact := exact + {d};
      raised := Nothing;
      if !Fits(settings, exact) { raised := Promote(); }
    }

    method MergeFrom(other: HybridDistinctBucket) returns (raised: Raised)
      requires Valid() && other.Valid() && other != this
      modifies this
      ensures Valid()
      ensures if Compatible(identity, other.identity)
              then Outcome(View(), raised) == Merged(settings, old(View()), other.View())
              else raised == Incompatible && View() == old(View())
    {
      hide Fits, Plausible;
      if !Compatible(identity, other.identity) { return Incompatible; }
      if mode == UNAVAILABLE || other.mode == UNAVAILABLE {
        mode := UNAVAILABLE;
        return Nothing;
      }
      itemUpdates := itemUpdates + other.itemUpdates;
      raised := Nothing;
      if mode == EXACT && other.mode == EXACT {
        exact := exact + other.exact;
        if !Fits(settings, exact) { raised := Promote(); }
      } else if !settings.library {
        mode := UNAVAILABLE;
      } else {
        if mode == EXACT {
          raised := Promote();
          if raised != Nothing { return; }
        }
        hll, mode := hll + (if other.mode == HLL then other.hll else other.exact), HLL;
      }
    }

    /** Write the payload: the sorted members, or the library's own form. */
    method Serialize() returns (stored: Stored)
      requires Valid()
      ensures exists list :: Ascending(list, View().members) && stored == Serialized(View(), list)
    {
      var sorted := SortedMembers(if mode == HLL then hll else exact);
      stored := Stored(mode, if mode == HLL then LibraryBlob(hll) else MemberBytes(Join(Encoded(sorted))), itemUpdates);
      assert Ascending(sorted, View().members) && stored == Serialized(View(), sorted);
    }
  }

  lemma {:induction false} SmallestExists(s: set<Digest>) returns (m: Digest)
    requires s != {}
    ensures m in s && forall x | x in s :: m <= x
  {
    var a :| a in s;
    m := a;
    var rest := s - {a};
    if rest != {} {
      var k := SmallestExists(rest);
      if k < a { m := k; }
    }
    forall x | x in s ensures m <= x {
      assert x == a || x in rest;
    }
  }

  lemma Extended(list: seq<Digest>, members: set<Digest>, rest: set<Digest>, m: Digest)
    requires Ascending(list, members) && AllBelow(list, rest) && m in rest && forall x | x in rest :: m <= x
    ensures Ascending(list + [m], members + {m}) && AllBelow(list + [m], rest - {m})
  {
  }

  /** The members in ascending order. */
  method SortedMembers(members: set<Digest>) returns (list: seq<Digest>)
    ensures Ascending(list, members)
  {
    list := [];
    var rest := members;
    assert members - rest == {};
    while rest != {}
      invariant rest <= members && Ascending(list, members - rest) && AllBelow(list, rest)
      decreases |rest|
    {
      hide Ascending, AllBelow;
      ghost var k := SmallestExists(rest);
      var m :| m in rest && forall x | x in rest :: m <= x;
      assert members - (rest - {m}) == (members - rest) + {m};
      Extended(list, members - rest, rest, m);
      list, rest := list + [m], rest - {m};
    }
    assert members - rest == members;
  }

  /** The list so far is below what is left. */
  ghost predicate AllBelow(list: seq<Digest>, rest: set<Digest>) {
    forall i, x | 0 <= i < |list| && x in rest :: list[i] < x
  }
}
