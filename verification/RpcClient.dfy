/** Request accounting of the JSON-RPC client. Handlers run inside emissions and may call
    the client again, so a rejection of all pending requests is a frame on a stack whose
    entries are rejected one at a time; anything may happen in between. */
module RpcClient {
  import opened Wrappers

  type Method = nat

  datatype Link = Offline | Connecting | Connected | Reconnecting | Failed

  datatype Item = Item(id: nat, name: Method)

  datatype Outcome = Result | ErrorReply | NotConnected | TimedOut | Rejected

  /** One rpcResult or rpcError emission for an issued id. */
  datatype Resolution = Resolution(item: Item, outcome: Outcome)

  /** A running rejection: what is still to be rejected, and the state to enter at its end. */
  datatype Frame = Frame(items: seq<Item>, next: Link)

  /** `issued` lists the methods of all requests; request ids count from 1. */
  datatype State = State(
    link: Link, worker: bool, issued: seq<Method>, pending: seq<Item>, frames: seq<Frame>, log: seq<Resolution>)

  const Initial: State := State(Offline, false, [], [], [], [])

  datatype Step =
    | ConnectTo
    | Request(name: Method)
    | Reply(id: nat, outcome: Outcome)
    | Timeout(id: nat)
    | TransportState(link: Link)
    | TransportError
    | Close
    | RejectNext
    | FinishReject

  /** Where an id is pending, if it is. */
  function Find(items: seq<Item>, id: nat): (i: Option<nat>)
    ensures i.Some? ==> i.value < |items| && items[i.value].id == id
    ensures i.None? ==> forall j | 0 <= j < |items| :: items[j].id != id
  {
    if items == [] then None
    else if items[|items| - 1].id == id then Some(|items| - 1)
    else Find(items[..|items| - 1], id)
  }

  function WithoutAt(items: seq<Item>, i: nat): seq<Item>
    requires i < |items|
  {
    items[..i] + items[i + 1..]
  }

  /** Pop a pending id and emit its outcome; unknown and repeated ids are ignored. */
  function Resolved(s: State, id: nat, outcome: Outcome): State {
    var i := Find(s.pending, id);
    if i.None? then s
    else s.(pending := WithoutAt(s.pending, i.value), log := s.log + [Resolution(s.pending[i.value], outcome)])
  }

  function Requested(s: State, name: Method): State {
    var item := Item(|s.issued| + 1, name);
    var t := s.(issued := s.issued + [name]);
    if s.link != Connected || !s.worker then t.(log := s.log + [Resolution(item, NotConnected)])
    else t.(pending := s.pending + [item])
  }

  /** The pending requests move into a frame at once; their rejections follow. */
  function Rejecting(s: State, next: Link): State {
    s.(pending := [], frames := s.frames + [Frame(s.pending, next)])
  }

  function Apply(s: State, step: Step): State {
    match step
    case ConnectTo => s.(worker := true, link := Connecting)
    case Request(name) => Requested(s, name)
    case Reply(id, outcome) => Resolved(s, id, outcome)
    case Timeout(id) => Resolved(s, id, TimedOut)
    case TransportState(link) =>
      if (link == Reconnecting || link == Offline) && s.link == Connected then Rejecting(s, link) else s.(link := link)
    case TransportError => if s.link != Reconnecting then s.(link := Failed) else s
    case Close => Rejecting(s.(worker := false), Offline)
    case RejectNext =>
      if s.frames == [] || s.frames[|s.frames| - 1].items == [] then s
      else
        RejectedNext(s)
    case FinishReject =>
      if s.frames == [] || s.frames[|s.frames| - 1].items != [] then s
      else s.(frames := s.frames[..|s.frames| - 1], link := s.frames[|s.frames| - 1].next)
  }

  function After(steps: seq<Step>): State {
    if steps == [] then Initial else Apply(After(steps[..|steps| - 1]), steps[|steps| - 1])
  }

  /** A rejection of all that is pending starts. */
  predicate StartsRejecting(s: State, next: Link, t: State) {
    t.pending == [] && t.frames == s.frames + [Frame(s.pending, next)] && t.log == s.log
  }

  /** What each step tells of requests, and what the link is then, on any run. A request is
      answered at once exactly when the link is not connected or there is no worker; a reply
      or a timeout answers the pending request of its id, if there is one; leaving the
      connected state, and closing, start the rejection of all that is pending; a transport
      error fails the link unless it is reconnecting. */
  lemma StepSpelledOut(steps: seq<Step>, step: Step)
    ensures var s, t := After(steps), Apply(After(steps), step);
            match step
            case ConnectTo => t == s.(worker := true, link := Connecting)
            case Request(name) =>
              var item := Item(|s.issued| + 1, name);
              && t.issued == s.issued + [name] && t.frames == s.frames
              && if s.link == Connected && s.worker then t.pending == s.pending + [item] && t.log == s.log
                 else t.pending == s.pending && t.log == s.log + [Resolution(item, NotConnected)]
            case Reply(id, outcome) => Answered(s, id, outcome, t)
            case Timeout(id) => Answered(s, id, TimedOut, t)
            case TransportState(link) =>
              if s.link == Connected && (link == Reconnecting || link == Offline) then StartsRejecting(s, link, t)
              else t == s.(link := link)
            case TransportError => t == if s.link == Reconnecting then s else s.(link := Failed)
            case Close => StartsRejecting(s, Offline, t) && !t.worker
            case RejectNext =>
              var n := |s.frames| - 1;
              if n < 0 || s.frames[n].items == [] then t == s
              else
                && t.log == s.log + [Resolution(s.frames[n].items[0], Rejected)]
                && |t.frames| == n + 1 && t.frames[..n] == s.frames[..n]
                && t.frames[n] == Frame(s.frames[n].items[1..], s.frames[n].next) && t.pending == s.pending
            case FinishReject =>
              var n := |s.frames| - 1;
              if n < 0 || s.frames[n].items != [] then t == s
              else t == s.(frames := s.frames[..n], link := s.frames[n].next)
  {
    var s := After(steps);
    hide After, Find;
    if step.Reply? || step.Timeout? { Answering(s, step.id, if step.Reply? then step.outcome else TimedOut); }
  }

  /** The pending request of this id, if there is one, is answered and no longer pending. */
  ghost predicate Answered(s: State, id: nat, outcome: Outcome, t: State) {
    if exists i :: 0 <= i < |s.pending| && s.pending[i].id == id then
      exists i :: 0 <= i < |s.pending| && s.pending[i].id == id
                  && t == s.(pending := s.pending[..i] + s.pending[i + 1..],
                             log := s.log + [Resolution(s.pending[i], outcome)])
    else t == s
  }

  lemma Answering(s: State, id: nat, outcome: Outcome)
    ensures Answered(s, id, outcome, Resolved(s, id, outcome))
  {
    var i := Find(s.pending, id);
    hide Find;
    if i.Some? { assert s.pending[i.value].id == id; }
  }

  // ------------------------------------------------------------------- accounting

  function Count(items: seq<Item>, item: Item): nat {
    if items == [] then 0 else Count(items[..|items| - 1], item) + if items[|items| - 1] == item then 1 else 0
  }

  function FrameCount(frames: seq<Frame>, item: Item): nat {
    if frames == [] then 0 else FrameCount(frames[..|frames| - 1], item) + Count(frames[|frames| - 1].items, item)
  }

  function LogCount(log: seq<Resolution>, item: Item): nat {
    if log == [] then 0 else LogCount(log[..|log| - 1], item) + if log[|log| - 1].item == item then 1 else 0
  }

  predicate IsIssued(issued: seq<Method>, item: Item) {
    1 <= item.id <= |issued| && issued[item.id - 1] == item.name
  }

  /** An issued request is pending, about to be rejected or resolved, in one place, once;
      any other is nowhere. */
  predicate AccountedFor(s: State, item: Item) {
    Count(s.pending, item) + FrameCount(s.frames, item) + LogCount(s.log, item)
    == if IsIssued(s.issued, item) then 1 else 0
  }

  ghost predicate Accounted(s: State) {
    forall item: Item :: AccountedFor(s, item)
  }

  lemma {:induction false} CountSplit(a: seq<Item>, b: seq<Item>, item: Item)
    ensures Count(a + b, item) == Count(a, item) + Count(b, item)
  {
    if b == [] {
      assert a + b == a;
    } else {
      CountSplit(a, b[..|b| - 1], item);
      assert (a + b)[..|a + b| - 1] == a + b[..|b| - 1];
    }
  }

  lemma CountOne(x: Item, item: Item)
    ensures Count([x], item) == if x == item then 1 else 0
  {
    assert [x][..0] == [];
  }

  lemma CountWithout(items: seq<Item>, i: nat, item: Item)
    requires i < |items|
    ensures Count(items, item) == Count(WithoutAt(items, i), item) + if items[i] == item then 1 else 0
  {
    CountSplit(items[..i], items[i + 1..], item);
    CountSplit(items[..i], [items[i]], item);
    CountSplit(items[..i] + [items[i]], items[i + 1..], item);
    CountOne(items[i], item);
    assert items == items[..i] + [items[i]] + items[i + 1..];
  }

  lemma LogGrows(log: seq<Resolution>, r: Resolution, item: Item)
    ensures LogCount(log + [r], item) == LogCount(log, item) + if r.item == item then 1 else 0
  {
    assert (log + [r])[..|log|] == log;
  }

  lemma FramesGrow(frames: seq<Frame>, f: Frame, item: Item)
    ensures FrameCount(frames + [f], item) == FrameCount(frames, item) + Count(f.items, item)
  {
    assert (frames + [f])[..|frames|] == frames;
  }

  lemma ResolveOne(s: State, i: nat, outcome: Outcome, item: Item)
    requires AccountedFor(s, item) && i < |s.pending|
    ensures AccountedFor(s.(pending := WithoutAt(s.pending, i), log := s.log + [Resolution(s.pending[i], outcome)]),
            item)
  {
    CountWithout(s.pending, i, item);
    LogGrows(s.log, Resolution(s.pending[i], outcome), item);
    hide WithoutAt, Count, FrameCount, LogCount;
  }

  lemma ResolveKeeps(s: State, id: nat, outcome: Outcome)
    requires Accounted(s)
    ensures Accounted(Resolved(s, id, outcome))
  {
    var i := Find(s.pending, id);
    if i.Some? {
      hide AccountedFor;
      forall item: Item ensures AccountedFor(Resolved(s, id, outcome), item) {
        ResolveOne(s, i.value, outcome, item);
      }
    }
  }

  lemma IssuedGrows(issued: seq<Method>, name: Method, item: Item)
    ensures IsIssued(issued + [name], item) <==> IsIssued(issued, item) || item == Item(|issued| + 1, name)
    ensures !IsIssued(issued, Item(|issued| + 1, name))
  {
  }

  lemma RequestOne(s: State, name: Method, item: Item)
    requires AccountedFor(s, item)
    ensures AccountedFor(Requested(s, name), item)
  {
    var latest := Item(|s.issued| + 1, name);
    IssuedGrows(s.issued, name, item);
    LogGrows(s.log, Resolution(latest, NotConnected), item);
    CountSplit(s.pending, [latest], item);
    CountOne(latest, item);
    hide Count, FrameCount, LogCount, IsIssued;
  }

  lemma RequestKeeps(s: State, name: Method)
    requires Accounted(s)
    ensures Accounted(Requested(s, name))
  {
    hide AccountedFor, Requested;
    forall item: Item ensures AccountedFor(Requested(s, name), item) {
      RequestOne(s, name, item);
    }
  }

  lemma RejectKeeps(s: State, next: Link)
    requires Accounted(s)
    ensures Accounted(Rejecting(s, next))
  {
    forall item: Item ensures AccountedFor(Rejecting(s, next), item) {
      assert AccountedFor(s, item);
      FramesGrow(s.frames, Frame(s.pending, next), item);
    }
  }

  /** One more rejection of the running frame. */
  function RejectedNext(s: State): State
    requires s.frames != [] && s.frames[|s.frames| - 1].items != []
  {
    var f := s.frames[|s.frames| - 1];
    s.(frames := s.frames[..|s.frames| - 1] + [f.(items := f.items[1..])],
        log := s.log + [Resolution(f.items[0], Rejected)])
  }

  lemma RejectNextOne(s: State, item: Item)
    requires AccountedFor(s, item) && s.frames != [] && s.frames[|s.frames| - 1].items != []
    ensures AccountedFor(RejectedNext(s), item)
  {
    var n := |s.frames| - 1;
    var f := s.frames[n];
    assert f.items == [f.items[0]] + f.items[1..];
    CountSplit([f.items[0]], f.items[1..], item);
    CountOne(f.items[0], item);
    assert s.frames == s.frames[..n] + [f];
    FramesGrow(s.frames[..n], f, item);
    FramesGrow(s.frames[..n], f.(items := f.items[1..]), item);
    LogGrows(s.log, Resolution(f.items[0], Rejected), item);
    hide Count, FrameCount, LogCount;
  }

  lemma RejectNextKeeps(s: State)
    requires Accounted(s) && s.frames != [] && s.frames[|s.frames| - 1].items != []
    ensures Accounted(RejectedNext(s))
  {
    hide AccountedFor, RejectedNext;
    forall item: Item ensures AccountedFor(RejectedNext(s), item) {
      RejectNextOne(s, item);
    }
  }

  lemma FinishKeeps(s: State)
    requires Accounted(s) && s.frames != [] && s.frames[|s.frames| - 1].items == []
    ensures Accounted(Apply(s, FinishReject))
  {
    var n := |s.frames| - 1;
    assert s.frames == s.frames[..n] + [s.frames[n]];
    forall item: Item ensures AccountedFor(Apply(s, FinishReject), item) {
      assert AccountedFor(s, item);
      FramesGrow(s.frames[..n], s.frames[n], item);
    }
  }

  /** The link and the worker play no part in the accounts. */
  lemma LinkIsFree(s: State, link: Link, worker: bool)
    requires Accounted(s)
    ensures Accounted(s.(link := link, worker := worker))
  {
    forall item: Item ensures AccountedFor(s.(link := link, worker := worker), item) {
      assert AccountedFor(s, item);
    }
  }

  lemma StepKeeps(s: State, step: Step)
    requires Accounted(s)
    ensures Accounted(Apply(s, step))
  {
    hide Accounted, Requested, Resolved, Rejecting;
    match step
    case ConnectTo => LinkIsFree(s, Connecting, true);
    case Request(name) => RequestKeeps(s, name);
    case Reply(id, outcome) => ResolveKeeps(s, id, outcome);
    case Timeout(id) => ResolveKeeps(s, id, TimedOut);
    case TransportState(link) =>
      RejectKeeps(s, link);
      LinkIsFree(s, link, s.worker);
    case TransportError => LinkIsFree(s, Failed, s.worker);
    case Close =>
      LinkIsFree(s, s.link, false);
      RejectKeeps(s.(worker := false), Offline);
    case RejectNext => if s.frames != [] && s.frames[|s.frames| - 1].items != [] { RejectNextKeeps(s); }
    case FinishReject => if s.frames != [] && s.frames[|s.frames| - 1].items == [] { FinishKeeps(s); }
  }

  lemma {:induction false} RunKeeps(steps: seq<Step>)
    ensures Accounted(After(steps))
  {
    if steps != [] {
      RunKeeps(steps[..|steps| - 1]);
      StepKeeps(After(steps[..|steps| - 1]), steps[|steps| - 1]);
      hide Accounted, Apply;
    }
  }

  /** How often an id has been resolved. */
  function TimesResolved(log: seq<Resolution>, id: nat): nat {
    if log == [] then 0 else TimesResolved(log[..|log| - 1], id) + if log[|log| - 1].item.id == id then 1 else 0
  }

  lemma {:induction false} ResolvedAsIssued(log: seq<Resolution>, issued: seq<Method>, id: nat)
    requires (forall i | 0 <= i < |log| :: IsIssued(issued, log[i].item)) && 1 <= id <= |issued|
    ensures TimesResolved(log, id) == LogCount(log, Item(id, issued[id - 1]))
  {
    if log != [] {
      assert IsIssued(issued, log[|log| - 1].item);
      ResolvedAsIssued(log[..|log| - 1], issued, id);
    }
  }

  lemma {:induction false} LoggedCounts(log: seq<Resolution>, i: nat)
    requires i < |log|
    ensures LogCount(log, log[i].item) > 0
  {
    if i < |log| - 1 { LoggedCounts(log[..|log| - 1], i); }
  }

  lemma {:induction false} PendingCounts(items: seq<Item>, item: Item)
    ensures Count(items, item) > 0 <==> item in items
  {
    if items != [] {
      PendingCounts(items[..|items| - 1], item);
      assert items == items[..|items| - 1] + [items[|items| - 1]];
    }
  }

  lemma LoggedWereIssued(s: State)
    requires Accounted(s)
    ensures forall i | 0 <= i < |s.log| :: IsIssued(s.issued, s.log[i].item)
  {
    hide IsIssued;
    forall i | 0 <= i < |s.log| ensures IsIssued(s.issued, s.log[i].item) {
      LoggedCounts(s.log, i);
      assert AccountedFor(s, s.log[i].item);
    }
  }

  /** Nothing is resolved that was not issued, and each with the method it was issued with. */
  lemma ResolvedWasIssued(steps: seq<Step>, i: nat)
    requires i < |After(steps).log|
    ensures IsIssued(After(steps).issued, After(steps).log[i].item)
  {
    RunKeeps(steps);
    LoggedWereIssued(After(steps));
  }

  lemma ResolvedOnce(s: State, id: nat)
    requires Accounted(s) && 1 <= id <= |s.issued|
    ensures var item := Item(id, s.issued[id - 1]);
            && TimesResolved(s.log, id) + Count(s.pending, item) + FrameCount(s.frames, item) == 1
            && (Count(s.pending, item) > 0 <==> item in s.pending)
  {
    LoggedWereIssued(s);
    ResolvedAsIssued(s.log, s.issued, id);
    var item := Item(id, s.issued[id - 1]);
    PendingCounts(s.pending, item);
    hide Count, FrameCount, LogCount, TimesResolved;
    assert AccountedFor(s, item);
  }

  /** Every issued request is resolved exactly once, or is still pending or in a running
      rejection and then not resolved yet: under any order of replies, repeated replies,
      timeouts, disconnects and closes, and with requests made inside the handlers. */
  lemma ResolvedExactlyOnceOrPending(steps: seq<Step>, id: nat)
    requires 1 <= id <= |After(steps).issued|
    ensures var s := After(steps);
            var item := Item(id, s.issued[id - 1]);
            && TimesResolved(s.log, id) <= 1
            && (TimesResolved(s.log, id) == 1 <==> Count(s.pending, item) + FrameCount(s.frames, item) == 0)
            && (s.frames == [] ==> (TimesResolved(s.log, id) == 1 <==> item !in s.pending))
  {
    RunKeeps(steps);
    hide After, Count, TimesResolved, Accounted;
    ResolvedOnce(After(steps), id);
  }

  /** Without a worker nothing is pending: a closed client has no request left that is not
      resolved or being rejected. */
  lemma {:induction false} ClosedHasNoPending(steps: seq<Step>)
    ensures !After(steps).worker ==> After(steps).pending == []
  {
    if steps != [] {
      ClosedHasNoPending(steps[..|steps| - 1]);
      var s := After(steps[..|steps| - 1]);
      hide Find, After;
    }
  }

  // ------------------------------------------------------- what outlives a disconnect

  /** Does the step take everything pending to reject it? */
  predicate Rejects(s: State, step: Step) {
    step.Close? || (step.TransportState? && (step.link == Reconnecting || step.link == Offline) && s.link == Connected)
  }

  lemma AfterAppend(steps: seq<Step>, step: Step)
    ensures After(steps + [step]) == Apply(After(steps), step)
  {
    assert (steps + [step])[..|steps|] == steps;
  }

  /** Only what was issued since is pending. */
  predicate OnlySince(pending: seq<Item>, n: nat) {
    forall i | 0 <= i < |pending| :: pending[i].id > n
  }

  lemma StepSince(s: State, step: Step, n: nat)
    requires OnlySince(s.pending, n) && n <= |s.issued|
    ensures OnlySince(Apply(s, step).pending, n) && n <= |Apply(s, step).issued|
  {
    hide Find;
  }

  lemma {:induction false} RunSince(steps: seq<Step>, mid: seq<Step>, n: nat)
    requires OnlySince(After(steps).pending, n) && n <= |After(steps).issued|
    ensures OnlySince(After(steps + mid).pending, n) && n <= |After(steps + mid).issued|
  {
    hide *;
    if mid == [] {
      assert steps + mid == steps;
    } else {
      var last := |mid| - 1;
      RunSince(steps, mid[..last], n);
      assert steps + mid == (steps + mid[..last]) + [mid[last]];
      AfterAppend(steps + mid[..last], mid[last]);
      StepSince(After(steps + mid[..last]), mid[last], n);
    }
  }

  /** What is pending after a disconnect or a close, however long after and whatever the
      handlers do, is exactly what was issued since, and is neither resolved nor being
      rejected. */
  lemma PendingSinceReject(steps: seq<Step>, step: Step, mid: seq<Step>, item: Item)
    requires Rejects(After(steps), step)
    ensures var s, t := After(steps), After(steps + [step] + mid);
            item in t.pending
            <==>
            && |s.issued| < item.id && IsIssued(t.issued, item)
            && LogCount(t.log, item) == 0 && FrameCount(t.frames, item) == 0
  {
    var s, t := After(steps), After(steps + [step] + mid);
    AfterAppend(steps, step);
    RunSince(steps + [step], mid, |s.issued|);
    RunKeeps(steps + [step] + mid);
    assert AccountedFor(t, item);
    PendingCounts(t.pending, item);
    assert item in t.pending ==> item.id > |s.issued|;
    hide After, Count, FrameCount, LogCount, IsIssued, Apply;
  }

  /** And it was issued while the link still read connected. */
  lemma {:induction false} PendingWasConnected(steps: seq<Step>, item: Item) returns (j: nat)
    requires item in After(steps).pending
    ensures j < |steps| && steps[j] == Request(item.name)
    ensures var s := After(steps[..j]); s.link == Connected && s.worker && item.id == |s.issued| + 1
  {
    var n := |steps| - 1;
    var s := After(steps[..n]);
    if item in s.pending {
      j := PendingWasConnected(steps[..n], item);
      assert steps[..n][..j] == steps[..j];
    } else {
      j := n;
      NewlyPending(s, steps[n], item);
    }
    hide Apply, After;
  }

  lemma NewlyPending(s: State, step: Step, item: Item)
    requires item !in s.pending && item in Apply(s, step).pending
    ensures step == Request(item.name) && s.link == Connected && s.worker && item.id == |s.issued| + 1
  {
    hide Find;
  }

  /** The methods requested in steps that otherwise only reject. */
  function RequestsIn(mid: seq<Step>): seq<Method> {
    if mid == [] then [] else
      RequestsIn(mid[..|mid| - 1]) + if mid[|mid| - 1].Request? then [mid[|mid| - 1].name] else []
  }

  function ItemsFrom(n: nat, names: seq<Method>): seq<Item> {
    if names == [] then [] else ItemsFrom(n, names[..|names| - 1]) + [Item(n + |names|, names[|names| - 1])]
  }

  /** The state while a rejection runs: connected, with the requests made meanwhile. */
  predicate Meanwhile(s: State, t: State, names: seq<Method>) {
    && t.link == Connected && t.worker && t.issued == s.issued + names
    && t.pending == ItemsFrom(|s.issued|, names) && |t.frames| == |s.frames|
  }

  lemma MeanwhileRequest(s: State, t: State, names: seq<Method>, name: Method)
    requires Meanwhile(s, t, names)
    ensures Meanwhile(s, Apply(t, Request(name)), names + [name])
  {
    assert (names + [name])[..|names|] == names;
  }

  lemma MeanwhileReject(s: State, t: State, names: seq<Method>)
    requires Meanwhile(s, t, names)
    ensures Meanwhile(s, Apply(t, RejectNext), names)
  {
    hide ItemsFrom;
  }

  lemma {:induction false} RequestsWhileRejecting(steps: seq<Step>, mid: seq<Step>)
    requires After(steps).pending == [] && After(steps).link == Connected && After(steps).worker
    requires forall i | 0 <= i < |mid| :: mid[i].RejectNext? || mid[i].Request?
    ensures Meanwhile(After(steps), After(steps + mid), RequestsIn(mid))
  {
    if mid == [] {
      assert steps + mid == steps;
      assert After(steps).issued + [] == After(steps).issued;
      hide After;
    } else {
      var last := |mid| - 1;
      RequestsWhileRejecting(steps, mid[..last]);
      assert steps + mid == (steps + mid[..last]) + [mid[last]];
      AfterAppend(steps + mid[..last], mid[last]);
      var names := RequestsIn(mid[..last]);
      hide After, Apply, Meanwhile;
      if mid[last].Request? {
        MeanwhileRequest(After(steps), After(steps + mid[..last]), names, mid[last].name);
      } else {
        MeanwhileReject(After(steps), After(steps + mid[..last]), names);
        assert names + [] == names;
      }
    }
  }

  /** Requests made by handlers while a disconnect is being reported are accepted, all of
      them, and outlive the change of state: when the rejection ends, exactly they are
      pending, in the order they were made. */
  lemma ReentrantRequestOutlivesDisconnect(steps: seq<Step>, next: Link, mid: seq<Step>)
    requires After(steps).link == Connected && After(steps).worker && next in {Reconnecting, Offline}
    requires forall i | 0 <= i < |mid| :: mid[i].RejectNext? || mid[i].Request?
    requires var u := After(steps + [TransportState(next)] + mid);
             u.frames != [] && u.frames[|u.frames| - 1] == Frame([], next)
    ensures var s, t := After(steps), After(steps + [TransportState(next)] + mid + [FinishReject]);
            && t.link == next && t.issued == s.issued + RequestsIn(mid)
            && t.pending == ItemsFrom(|s.issued|, RequestsIn(mid)) && |t.frames| == |s.frames|
  {
    AfterAppend(steps, TransportState(next));
    LeaveConnected(After(steps), next);
    AfterAppend(steps + [TransportState(next)] + mid, FinishReject);
    hide After;
    RequestsWhileRejecting(steps + [TransportState(next)], mid);
    EndOfRejection(After(steps + [TransportState(next)] + mid), next);
    hide *;
    MeanwhileMeans(After(steps + [TransportState(next)]), After(steps + [TransportState(next)] + mid), RequestsIn(mid));
  }

  lemma MeanwhileMeans(s: State, t: State, names: seq<Method>)
    requires Meanwhile(s, t, names)
    ensures t.issued == s.issued + names && t.pending == ItemsFrom(|s.issued|, names) && |t.frames| == |s.frames|
  {
  }

  lemma LeaveConnected(s: State, next: Link)
    requires s.link == Connected && next in {Reconnecting, Offline}
    ensures var t := Apply(s, TransportState(next));
            && t.pending == [] && t.link == Connected && t.worker == s.worker && t.issued == s.issued
                && |t.frames| == |s.frames| + 1
  {
  }

  lemma EndOfRejection(s: State, next: Link)
    requires s.frames != [] && s.frames[|s.frames| - 1] == Frame([], next)
    ensures var t := Apply(s, FinishReject);
            t.link == next && t.issued == s.issued && t.pending == s.pending && |t.frames| == |s.frames| - 1
  {
  }

  // ---------------------------------------------------------------------- the client

  /** What a handler does to the client. */
  datatype Call = CallRequest(name: Method) | CallClose | CallConnect

  /** No handler calls the client. */
  predicate Quiet(handlers: seq<seq<Call>>) {
    forall i | 0 <= i < |handlers| :: handlers[i] == []
  }

  /** From position `lo` on, the log tells of the rejection of each item, in their order. */
  ghost predicate ToldRejected(log: seq<Resolution>, lo: nat, items: seq<Item>)
    decreases |items|
  {
    items == [] || exists j | lo <= j < |log| ::
      log[j] == Resolution(items[|items| - 1], Rejected) && ToldRejected(log[..j], lo, items[..|items| - 1])
  }

  lemma ToldStays(log: seq<Resolution>, more: seq<Resolution>, lo: nat, items: seq<Item>)
    requires ToldRejected(log, lo, items) && log <= more
    ensures ToldRejected(more, lo, items)
  {
    if items != [] {
      var j :| lo <= j < |log| && log[j] == Resolution(items[|items| - 1], Rejected)
          && ToldRejected(log[..j], lo, items[..|items| - 1]);
      assert more[..j] == log[..j];
    }
  }

  lemma ToldOneMore(log: seq<Resolution>, lo: nat, items: seq<Item>, i: nat)
    requires i < |items| && lo <= |log| && ToldRejected(log, lo, items[..i])
    ensures ToldRejected(log + [Resolution(items[i], Rejected)], lo, items[..i + 1])
  {
    var more := log + [Resolution(items[i], Rejected)];
    assert more[..|log|] == log && items[..i + 1][..i] == items[..i];
    assert more[|log|] == Resolution(items[..i + 1][i], Rejected);
  }

  /** The step a call begins with. */
  function StepOf(c: Call): Step {
    match c
    case CallRequest(name) => Request(name)
    case CallClose => Close
    case CallConnect => ConnectTo
  }

  /** From position `lo` on, the run contains the step of each call, in their order. */
  ghost predicate Made(trace: seq<Step>, lo: nat, calls: seq<Call>)
    decreases |calls|
  {
    calls == [] || exists j | lo <= j < |trace| ::
      trace[j] == StepOf(calls[|calls| - 1]) && Made(trace[..j], lo, calls[..|calls| - 1])
  }

  lemma MadeOneMore(trace: seq<Step>, more: seq<Step>, lo: nat, calls: seq<Call>, i: nat)
    requires i < |calls| && lo <= |trace| && Made(trace, lo, calls[..i])
    requires trace + [StepOf(calls[i])] <= more
    ensures Made(more, lo, calls[..i + 1])
  {
    assert more[..|trace|] == trace && calls[..i + 1][..i] == calls[..i];
    assert more[|trace|] == StepOf(calls[..i + 1][i]);
  }

  /** The rejections of all items. */
  function Rejections(items: seq<Item>): (r: seq<Resolution>)
    ensures |r| == |items|
  {
    if items == [] then [] else Rejections(items[..|items| - 1]) + [Resolution(items[|items| - 1], Rejected)]
  }

  lemma RejectionsGrow(items: seq<Item>, i: nat)
    requires i < |items|
    ensures Rejections(items[..i + 1]) == Rejections(items[..i]) + [Resolution(items[i], Rejected)]
  {
    assert items[..i + 1][..i] == items[..i];
  }

  /** The first `i` items have been reported rejected since state `s`. */
  ghost predicate PartlyTold(s: State, t: State, items: seq<Item>, i: nat)
    requires i <= |items|
  {
    s.log <= t.log && s.issued <= t.issued && ToldRejected(t.log, |s.log|, items[..i])
  }

  /** And nothing else has happened. */
  ghost predicate OnlyTold(s: State, t: State, items: seq<Item>, i: nat)
    requires i <= |items|
  {
    t == s.(pending := [], frames := t.frames, log := s.log + Rejections(items[..i]))
  }

  lemma NothingTold(s: State, t: State, items: seq<Item>)
    requires t == s.(pending := [], frames := t.frames)
    ensures PartlyTold(s, t, items, 0) && OnlyTold(s, t, items, 0)
  {
    assert items[..0] == [] && s.log + [] == s.log;
  }

  lemma AllTold(s: State, t: State, items: seq<Item>)
    requires PartlyTold(s, t, items, |items|)
    ensures s.log <= t.log && s.issued <= t.issued && ToldRejected(t.log, |s.log|, items)
    ensures OnlyTold(s, t, items, |items|)
            ==> t == s.(pending := [], frames := t.frames, log := s.log + Rejections(items))
  {
    assert items[..|items|] == items;
  }

  /** The client as an object. `handlers` says what the handlers of each further emission
      do; they run inside the emission, nested to any depth. `trace` is the run of the
      state machine that the object has been through. */
  class HermesGatewayClient {
    var link: Link
    var worker: bool
    var nextId: nat
    var pending: seq<Item>
    var handlers: seq<seq<Call>>
    ghost var issued: seq<Method>
    ghost var frames: seq<Frame>
    ghost var log: seq<Resolution>
    ghost var trace: seq<Step>

    constructor (handlers: seq<seq<Call>>)
      ensures Valid() && View() == Initial && trace == [] && this.handlers == handlers
    {
      this.handlers := handlers;
      link, worker, nextId, pending := Offline, false, 0, [];
      issued, frames, log, trace := [], [], [], [];
    }

    ghost function View(): State
      reads this
    {
      State(link, worker, issued, pending, frames, log)
    }

    /** The object is where the state machine is; so all that is proved of runs holds. */
    ghost predicate Valid()
      reads this
    {
      nextId == |issued| && View() == After(trace)
    }

    /** The object has gone on from an earlier state, and no rejection was left running. */
    twostate predicate WentOn()
      reads this
    {
      && Valid() && old(trace) <= trace && old(log) <= log && old(issued) <= issued
      && frames == old(frames) && |handlers| <= |old(handlers)| && (Quiet(old(handlers)) ==> Quiet(handlers))
    }

    /** Every emission runs its handlers before it returns: each of their calls is made, in
        order. */
    method RunHandlers()
      requires Valid()
      modifies this
      ensures WentOn()
      ensures old(handlers) != [] ==> |handlers| < |old(handlers)| && Made(trace, |old(trace)|, old(handlers)[0])
      ensures Quiet(old(handlers)) ==> View() == old(View()) && trace == old(trace)
      decreases |handlers|, 0
    {
      if handlers == [] { return; }
      var calls := handlers[0];
      handlers := handlers[1..];
      hide After;
      assert calls[..0] == [] && calls[..|calls|] == calls;
      for i := 0 to |calls|
        invariant WentOn() && |handlers| < old(|handlers|) && Made(trace, |old(trace)|, calls[..i])
        invariant Quiet(old(handlers)) ==> View() == old(View()) && trace == old(trace) && calls == []
      {
        ghost var before := trace;
        MakeCall(calls[i]);
        MadeOneMore(before, trace, |old(trace)|, calls, i);
      }
    }

    /** One call of a handler. */
    method MakeCall(c: Call)
      requires Valid()
      modifies this
      ensures WentOn() && old(trace) + [StepOf(c)] <= trace
      decreases |handlers|, 5
    {
      match c {
        case CallRequest(name) => var _ := Request(name);
        case CallClose => Close();
        case CallConnect => ConnectTo();
      }
    }

    /** rpcResult or rpcError, the last part of a step. */
    method Emit(r: Resolution, ghost step: Step)
      requires nextId == |issued| && View().(log := log + [r]) == Apply(After(trace), step)
      modifies this
      ensures WentOn() && old(trace) + [step] <= trace && old(log) + [r] <= log
      ensures Quiet(old(handlers)) ==> View() == old(View()).(log := old(log) + [r]) && trace == old(trace) + [step]
      decreases |handlers|, 1
    {
      AfterAppend(trace, step);
      hide After, Apply;
      log := log + [r];
      trace := trace + [step];
      RunHandlers();
    }

    /** connectionChanged, the last part of a step that ends in state `next`. */
    method SetState(next: Link, ghost step: Step)
      requires nextId == |issued| && View().(link := next) == Apply(After(trace), step)
      modifies this
      ensures WentOn() && old(trace) + [step] <= trace
      ensures Quiet(old(handlers)) || next == old(link)
              ==> View() == old(View()).(link := next) && trace == old(trace) + [step]
      decreases |handlers|, 1
    {
      AfterAppend(trace, step);
      hide After, Apply;
      trace := trace + [step];
      if next == link { return; }
      link := next;
      RunHandlers();
    }

    method ConnectTo()
      requires Valid()
      modifies this
      ensures WentOn() && old(trace) + [Step.ConnectTo] <= trace
      ensures Quiet(old(handlers)) ==> View() == Apply(old(View()), Step.ConnectTo)
      decreases |handlers|, 2
    {
      hide After;
      worker := true;
      SetState(Connecting, Step.ConnectTo);
    }

    /** Issue the next id; without a connection it is answered with an error at once. */
    method Request(name: Method) returns (id: nat)
      requires Valid()
      modifies this
      ensures WentOn() && old(trace) + [Step.Request(name)] <= trace
      ensures id == old(nextId) + 1 && old(issued) + [name] <= issued
      ensures if old(link) == Connected && old(worker)
              then View() == Requested(old(View()), name) && pending == old(pending) + [Item(id, name)]
                  && log == old(log)
              else old(log) + [Resolution(Item(id, name), NotConnected)] <= log
      ensures Quiet(old(handlers)) ==> View() == Requested(old(View()), name)
      decreases |handlers|, 2
    {
      hide After;
      nextId := nextId + 1;
      id := nextId;
      issued := issued + [name];
      var item := Item(id, name);
      if link != Connected || !worker {
        Emit(Resolution(item, NotConnected), Step.Request(name));
      } else {
        pending := pending + [item];
        AfterAppend(trace, Step.Request(name));
        trace := trace + [Step.Request(name)];
      }
    }

    /** A reply: pop the id if it is pending and emit; otherwise ignore it. */
    method OnMessage(id: nat, outcome: Outcome) returns (known: bool)
      requires Valid()
      modifies this
      ensures WentOn() && old(trace) + [Reply(id, outcome)] <= trace
      ensures known <==> exists i :: 0 <= i < |old(pending)| && old(pending)[i].id == id
      ensures known ==> |log| > |old(log)| && log[|old(log)|].item.id == id && log[|old(log)|].outcome == outcome
      ensures !known || Quiet(old(handlers)) ==> View() == Resolved(old(View()), id, outcome)
      decreases |handlers|, 3
    {
      known := Resolve(id, outcome, Reply(id, outcome));
    }

    method OnTimeout(id: nat) returns (known: bool)
      requires Valid()
      modifies this
      ensures WentOn() && old(trace) + [Timeout(id)] <= trace
      ensures known <==> exists i :: 0 <= i < |old(pending)| && old(pending)[i].id == id
      ensures known ==> |log| > |old(log)| && log[|old(log)|].item.id == id && log[|old(log)|].outcome == TimedOut
      ensures !known || Quiet(old(handlers)) ==> View() == Resolved(old(View()), id, TimedOut)
      decreases |handlers|, 3
    {
      known := Resolve(id, TimedOut, Timeout(id));
    }

    method Resolve(id: nat, outcome: Outcome, ghost step: Step) returns (known: bool)
      requires Valid() && (step == Reply(id, outcome) || (step == Timeout(id) && outcome == TimedOut))
      modifies this
      ensures WentOn() && old(trace) + [step] <= trace
      ensures known <==> exists i :: 0 <= i < |old(pending)| && old(pending)[i].id == id
      ensures known ==> |log| > |old(log)| && log[|old(log)|].item.id == id && log[|old(log)|].outcome == outcome
      ensures !known || Quiet(old(handlers)) ==> View() == Resolved(old(View()), id, outcome)
      decreases |handlers|, 2
    {
      var i := Find(pending, id);
      hide After, Find;
      if i.None? {
        AfterAppend(trace, step);
        trace := trace + [step];
        return false;
      }
      var item := pending[i.value];
      pending := WithoutAt(pending, i.value);
      hide WithoutAt;
      Emit(Resolution(item, outcome), step);
      return true;
    }

    /** Reject the i-th of the items that are being rejected since state `before`. */
    method RejectOne(ghost before: State, ghost below: seq<Frame>, items: seq<Item>, i: nat, ghost next: Link)
      requires Valid() && i < |items| && frames == below + [Frame(items[i..], next)]
               && PartlyTold(before, View(), items, i)
      modifies this
      ensures Valid() && old(trace) + [RejectNext] <= trace && |handlers| <= old(|handlers|)
      ensures frames == below + [Frame(items[i + 1..], next)] && PartlyTold(before, View(), items, i + 1)
      ensures Quiet(old(handlers)) && OnlyTold(before, old(View()), items, i) ==>
                Quiet(handlers) && OnlyTold(before, View(), items, i + 1)
      decreases |handlers|, 2
    {
      RejectFirst(View(), below, items, i, next);
      RejectionsGrow(items, i);
      ToldOneMore(log, |before.log|, items, i);
      hide After, Apply, ToldRejected, Rejections;
      ghost var told := log + [Resolution(items[i], Rejected)];
      frames := below + [Frame(items[i + 1..], next)];
      Emit(Resolution(items[i], Rejected), RejectNext);
      ToldStays(told, log, |before.log|, items[..i + 1]);
    }

    /** Take everything pending, then reject it one by one; whatever the handlers do, each
        item is rejected, in order. The running rejection is left for the change of state. */
    method RejectAll(ghost next: Link, ghost step: Step)
      requires nextId == |issued| && Rejecting(View(), next) == Apply(After(trace), step)
      modifies this
      ensures Valid() && old(trace) + [step] <= trace && old(log) <= log && old(issued) <= issued
      ensures frames == old(frames) + [Frame([], next)] && |handlers| <= old(|handlers|)
      ensures ToldRejected(log, |old(log)|, old(pending))
      ensures Quiet(old(handlers)) ==>
                Quiet(handlers)
                && View() == old(View()).(pending := [], frames := frames, log := old(log) + Rejections(old(pending)))
      decreases |handlers|, 3
    {
      var items := pending;
      ghost var below, before := frames, View();
      AfterAppend(trace, step);
      pending := [];
      frames := below + [Frame(items, next)];
      trace := trace + [step];
      assert items[0..] == items && items[|items|..] == [] && items[..|items|] == items;
      NothingTold(before, View(), items);
      hide After, Apply, PartlyTold, OnlyTold;
      for i := 0 to |items|
        invariant Valid() && frames == below + [Frame(items[i..], next)] && old(trace) + [step] <= trace
        invariant |handlers| <= old(|handlers|) && PartlyTold(before, View(), items, i)
        invariant Quiet(old(handlers)) ==> Quiet(handlers) && OnlyTold(before, View(), items, i)
      {
        RejectOne(before, below, items, i, next);
      }
      AllTold(before, View(), items);
    }

    /** The change of state that ends a rejection. */
    method EndReject(next: Link)
      requires Valid() && frames != [] && frames[|frames| - 1] == Frame([], next)
      modifies this
      ensures Valid() && old(trace) + [FinishReject] <= trace && old(log) <= log && old(issued) <= issued
      ensures frames == old(frames[..|frames| - 1]) && |handlers| <= old(|handlers|)
      ensures Quiet(old(handlers)) ==> Quiet(handlers) && View() == old(View()).(link := next, frames := frames)
      decreases |handlers|, 2
    {
      hide After;
      frames := frames[..|frames| - 1];
      SetState(next, FinishReject);
    }

    /** Without a worker at once; then every pending request is rejected; then offline. */
    method Close()
      requires Valid()
      modifies this
      ensures WentOn() && old(trace) + [Step.Close] <= trace
      ensures ToldRejected(log, |old(log)|, old(pending))
      ensures Quiet(old(handlers)) ==>
                View() == old(View()).(worker := false, link := Offline, pending := [],
                    log := old(log) + Rejections(old(pending)))
      decreases |handlers|, 4
    {
      hide After;
      worker := false;
      RejectAll(Offline, Step.Close);
      ghost var told := log;
      EndReject(Offline);
      ToldStays(told, log, |old(log)|, old(pending));
    }

    /** Leaving the connected state rejects everything pending first. */
    method OnTransportState(next: Link)
      requires Valid()
      modifies this
      ensures WentOn() && old(trace) + [TransportState(next)] <= trace
      ensures Rejects(old(View()), TransportState(next)) ==> ToldRejected(log, |old(log)|, old(pending))
      ensures Quiet(old(handlers)) ==>
                View() == if Rejects(old(View()), TransportState(next))
                          then old(View()).(link := next, pending := [], log := old(log) + Rejections(old(pending)))
                          else old(View()).(link := next)
      decreases |handlers|, 4
    {
      hide After;
      if (next == Reconnecting || next == Offline) && link == Connected {
        RejectAll(next, TransportState(next));
        ghost var told := log;
        EndReject(next);
        ToldStays(told, log, |old(log)|, old(pending));
      } else {
        SetState(next, TransportState(next));
      }
    }

    /** The message is emitted before the state is looked at. */
    method OnTransportError()
      requires Valid()
      modifies this
      ensures WentOn()
      ensures Quiet(old(handlers)) ==> View() == Apply(old(View()), TransportError)
      decreases |handlers|, 4
    {
      hide After;
      RunHandlers();
      SetState(if link != Reconnecting then Failed else link, TransportError);
    }
  }

  /** The next rejection of the frame on top. */
  lemma RejectFirst(s: State, below: seq<Frame>, items: seq<Item>, i: nat, next: Link)
    requires i < |items| && s.frames == below + [Frame(items[i..], next)]
    ensures Apply(s, RejectNext)
            == s.(frames := below + [Frame(items[i + 1..], next)], log := s.log + [Resolution(items[i], Rejected)])
  {
    assert items[i..][0] == items[i] && items[i..][1..] == items[i + 1..];
    assert s.frames[..|below|] == below;
  }
}
