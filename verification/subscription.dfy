/**
  The subscription registry of `EventBus` (src/core/EventBus.ts) as a value,
  the registry operations as functions on it, and the specification of one
  fan-out pass of `publish`.

  The registry is the bus's `Map<keyof EventMap, Set<ISubscriber>>`: each
  kind maps to its subscribers in insertion order (the order a JavaScript
  `Set` iterates in), without repetitions. Subscribers are compared by
  reference, so they are objects of a class.
*/
module Subscription {
  import opened Wrappers
  import opened Types
  import Seqs

  /** An `ISubscriber`: a display name and a reference identity. */
  class Subscriber {
    const name: string

    constructor (name: string)
      ensures this.name == name
    {
      this.name := name;
    }
  }

  type Registry = map<EventKind, seq<Subscriber>>

  /** The bus invariant: no kind maps to an empty set, and a set holds each subscriber once. */
  ghost predicate WellFormed(m: Registry)
  {
    forall k | k in m :: m[k] != [] && Seqs.Distinct(m[k])
  }

  /** `subscribers.get(k)`, with an absent entry read as the empty set. */
  function SubscribersOf(m: Registry, k: EventKind): seq<Subscriber>
  {
    if k in m then m[k] else []
  }

  /** The pair (k, s) is registered. */
  predicate Subscribed(m: Registry, k: EventKind, s: Subscriber)
  {
    k in m && s in m[k]
  }

  /** The kinds under which `s` is registered. */
  ghost function KindsOf(m: Registry, s: Subscriber): set<EventKind>
  {
    set k | k in m && s in m[k]
  }

  // ---------------------------------------------------------------------
  // The registry operations

  /** `subscribe(k, s)` on present arguments: add the pair unless it is there already. */
  function AddPair(m: Registry, k: EventKind, s: Subscriber): Registry
  {
    if Subscribed(m, k, s) then m else m[k := SubscribersOf(m, k) + [s]]
  }

  /**
    `unsubscribe(k, s)` on present arguments: delete the pair, and delete
    the kind's entry when its set became empty.
  */
  function RemovePair(m: Registry, k: EventKind, s: Subscriber): Registry
  {
    if k !in m || |m[k]| == 0 then m
    else if s !in m[k] then m
    else
      var rest := Seqs.Without(m[k], s);
      if |rest| == 0 then m - {k} else m[k := rest]
  }

  /**
    `unsubscribeFromAll(s)` on a present subscriber, applied to the kinds in
    `done` only: those kinds lose `s` and disappear when emptied, the others
    are untouched. With `done` the whole key set it is the full operation.
  */
  function RemoveFrom(m: Registry, s: Subscriber, done: set<EventKind>): Registry
  {
    map k | k in m && (k !in done || Seqs.Without(m[k], s) != []) ::
      if k in done then Seqs.Without(m[k], s) else m[k]
  }

  /** `unsubscribeFromAll(s)` on a present subscriber. */
  function RemoveSubscriber(m: Registry, s: Subscriber): Registry
  {
    RemoveFrom(m, s, m.Keys)
  }

  /** The sum of the set sizes over all kinds (`getTotalSubscribersCount`). */
  ghost function TotalOf<K, V>(m: map<K, seq<V>>): nat
    decreases |m|
  {
    if m == map[] then 0
    else
      var k :| k in m;
      assert |m - {k}| == |m| - 1 by { assert (m - {k}).Keys == m.Keys - {k}; }
      |m[k]| + TotalOf(m - {k})
  }

  // ---------------------------------------------------------------------
  // Properties of the registry operations

  /** Subscribing keeps the invariant. */
  lemma AddPairWellFormed(m: Registry, k: EventKind, s: Subscriber)
    requires WellFormed(m)
    ensures WellFormed(AddPair(m, k, s))
  {
    if !Subscribed(m, k, s) {
      var xs := SubscribersOf(m, k) + [s];
      assert Seqs.Distinct(xs) by {
        forall i, j | 0 <= i < j < |xs| ensures xs[i] != xs[j] {
          if j == |xs| - 1 { assert xs[i] in SubscribersOf(m, k); }
        }
      }
    }
  }

  /** Subscribing adds exactly the pair (k, s) and nothing else. */
  lemma AddPairExact(m: Registry, k: EventKind, s: Subscriber, k': EventKind, s': Subscriber)
    ensures Subscribed(AddPair(m, k, s), k', s') <==> Subscribed(m, k', s') || (k' == k && s' == s)
  {
    if !Subscribed(m, k, s) && k' == k {
      assert s' in SubscribersOf(m, k) + [s] <==> s' in SubscribersOf(m, k) || s' == s;
    }
  }

  /** Subscribing twice is subscribing once. */
  lemma AddPairIdempotent(m: Registry, k: EventKind, s: Subscriber)
    ensures AddPair(AddPair(m, k, s), k, s) == AddPair(m, k, s)
  {
    assert Subscribed(AddPair(m, k, s), k, s);
  }

  /** After subscribing, the kind's set holds `s` exactly once. */
  lemma AddPairOnce(m: Registry, k: EventKind, s: Subscriber)
    requires WellFormed(m)
    ensures multiset(SubscribersOf(AddPair(m, k, s), k))[s] == 1
  {
    AddPairWellFormed(m, k, s);
    var xs := SubscribersOf(AddPair(m, k, s), k);
    assert s in xs;
    DistinctOnce(xs, s);
  }

  /** A member of a repetition-free sequence occurs in it once. */
  lemma {:induction false} DistinctOnce(xs: seq<Subscriber>, s: Subscriber)
    requires Seqs.Distinct(xs) && s in xs
    ensures multiset(xs)[s] == 1
  {
    if xs[0] == s {
      assert xs == [s] + xs[1..];
      assert s !in xs[1..];
    } else {
      assert xs == [xs[0]] + xs[1..];
      DistinctOnce(xs[1..], s);
    }
  }

  /** Unsubscribing keeps the invariant: in particular no kind is left with an empty set. */
  lemma RemovePairWellFormed(m: Registry, k: EventKind, s: Subscriber)
    requires WellFormed(m)
    ensures WellFormed(RemovePair(m, k, s))
  {
  }

  /** Unsubscribing removes exactly the pair (k, s) and leaves every other pair in place. */
  lemma RemovePairExact(m: Registry, k: EventKind, s: Subscriber, k': EventKind, s': Subscriber)
    requires WellFormed(m)
    ensures Subscribed(RemovePair(m, k, s), k', s') <==> Subscribed(m, k', s') && !(k' == k && s' == s)
  {
    if !Subscribed(m, k, s) {
      assert RemovePair(m, k, s) == m;
    } else if k' != k {
      RemovePairOtherKind(m, k, s, k');
    } else {
      RemovePairSameKind(m, k, s);
      assert s' in Seqs.Without(m[k], s) <==> s' in m[k] && s' != s;
    }
  }

  /** Removing a pair leaves every other kind's set as it was. */
  lemma RemovePairOtherKind(m: Registry, k: EventKind, s: Subscriber, k': EventKind)
    requires k' != k
    ensures SubscribersOf(RemovePair(m, k, s), k') == SubscribersOf(m, k')
  {
  }

  /** Removing a present pair leaves the kind's set without the subscriber. */
  lemma RemovePairSameKind(m: Registry, k: EventKind, s: Subscriber)
    requires Subscribed(m, k, s)
    ensures SubscribersOf(RemovePair(m, k, s), k) == Seqs.Without(m[k], s)
  {
  }

  /** Unsubscribing a pair that subscribing just added restores the registry. */
  lemma RemovePairUndoesAddPair(m: Registry, k: EventKind, s: Subscriber)
    requires WellFormed(m) && !Subscribed(m, k, s)
    ensures RemovePair(AddPair(m, k, s), k, s) == m
  {
    var xs := SubscribersOf(m, k);
    WithoutLast(xs, s);
    if k !in m {
      assert AddPair(m, k, s) - {k} == m;
    } else {
      assert AddPair(m, k, s)[k := xs] == m;
    }
  }

  /** Removing an element that was appended to a sequence without it gives the sequence back. */
  lemma {:induction false} WithoutLast(xs: seq<Subscriber>, s: Subscriber)
    requires s !in xs
    ensures Seqs.Without(xs + [s], s) == xs
  {
    if xs != [] {
      assert (xs + [s])[1..] == xs[1..] + [s];
      WithoutLast(xs[1..], s);
      assert xs == [xs[0]] + xs[1..];
    }
  }

  /** `unsubscribeFromAll` keeps the invariant. */
  lemma RemoveSubscriberWellFormed(m: Registry, s: Subscriber)
    requires WellFormed(m)
    ensures WellFormed(RemoveSubscriber(m, s))
  {
  }

  /**
    After `unsubscribeFromAll(s)`, no kind holds `s`, every other pair is
    still registered, and no pair was invented.
  */
  lemma RemoveSubscriberExact(m: Registry, s: Subscriber, k': EventKind, s': Subscriber)
    requires WellFormed(m)
    ensures Subscribed(RemoveSubscriber(m, s), k', s') <==> Subscribed(m, k', s') && s' != s
  {
    if Subscribed(m, k', s') && s' != s {
      assert s' in Seqs.Without(m[k'], s);
    }
  }

  /** One more kind handled by `unsubscribeFromAll`: that kind loses `s`, or disappears when emptied. */
  lemma RemoveFromStep(m: Registry, s: Subscriber, done: set<EventKind>, k: EventKind)
    requires k in m && k !in done
    ensures var rest := Seqs.Without(m[k], s);
      RemoveFrom(m, s, done + {k}) == if rest == [] then RemoveFrom(m, s, done) - {k} else RemoveFrom(m, s, done)[k := rest]
  {
  }

  /** One more kind handled by `unsubscribeFromAll` adds one to the count exactly when it held `s`. */
  lemma CountStep<T>(hits: set<T>, pending: set<T>, k: T)
    requires k in pending
    ensures |hits - (pending - {k})| == |hits - pending| + (if k in hits then 1 else 0)
  {
    if k in hits {
      assert hits - (pending - {k}) == (hits - pending) + {k};
    } else {
      assert hits - (pending - {k}) == hits - pending;
    }
  }

  /** Removing any one key takes exactly its set's size off the total. */
  lemma {:induction false} TotalOfAnyKey<K, V>(m: map<K, seq<V>>, k: K)
    requires k in m
    ensures TotalOf(m) == |m[k]| + TotalOf(m - {k})
    decreases |m|
  {
    var j :| j in m && TotalOf(m) == |m[j]| + TotalOf(m - {j});
    if j != k {
      var mj, mk := m - {j}, m - {k};
      assert mj.Keys == m.Keys - {j} && mk.Keys == m.Keys - {k};
      assert |mj| < |m| && |mk| < |m|;
      TotalOfAnyKey(mj, k);
      TotalOfAnyKey(mk, j);
      assert mj - {k} == mk - {j};
    }
  }

  /** Every kind has at least one subscriber, so there are no more kinds than subscriptions. */
  lemma {:induction false} KindsAtMostTotal(m: Registry)
    requires WellFormed(m)
    ensures |m| <= TotalOf(m)
    decreases |m|
  {
    if m != map[] {
      var k :| k in m;
      TotalOfAnyKey(m, k);
      assert (m - {k}).Keys == m.Keys - {k};
      KindsAtMostTotal(m - {k});
    }
  }

  /** A new subscription adds one to the total; a repeated one adds nothing. */
  lemma AddPairTotal(m: Registry, k: EventKind, s: Subscriber)
    ensures TotalOf(AddPair(m, k, s)) == TotalOf(m) + (if Subscribed(m, k, s) then 0 else 1)
  {
    if !Subscribed(m, k, s) {
      var m' := AddPair(m, k, s);
      TotalOfAnyKey(m', k);
      if k in m {
        TotalOfAnyKey(m, k);
        assert m' - {k} == m - {k};
      } else {
        assert m' - {k} == m;
      }
    }
  }

  /** A successful unsubscribe takes one off the total; a failed one changes nothing. */
  lemma RemovePairTotal(m: Registry, k: EventKind, s: Subscriber)
    requires WellFormed(m)
    ensures TotalOf(RemovePair(m, k, s)) == TotalOf(m) - (if Subscribed(m, k, s) then 1 else 0)
  {
    if Subscribed(m, k, s) {
      var m' := RemovePair(m, k, s);
      TotalOfAnyKey(m, k);
      if k in m' {
        TotalOfAnyKey(m', k);
        assert m' - {k} == m - {k};
      } else {
        assert m' == m - {k};
      }
    }
  }

  // ---------------------------------------------------------------------
  // Re-entrant calls made by handlers, and one fan-out pass

  /** A call a handler makes back into the bus while it is being notified. */
  datatype Request =
    | SubscribeRequest(kind: EventKind, subscriber: Subscriber)
    | UnsubscribeRequest(kind: EventKind, subscriber: Subscriber)
    | UnsubscribeAllRequest(subscriber: Subscriber)
    | ClearRequest

  /** What `handleEvent` does: its calls into the bus, then a normal return or a throw. */
  datatype Reaction = Reaction(requests: seq<Request>, thrown: Option<Error>)

  /** `handleEvent` of every subscriber, as a function of the subscriber and the event. */
  type Handler = (Subscriber, Event) -> Reaction

  /** The registry after one request. */
  function Apply(m: Registry, r: Request): Registry
  {
    match r
    case SubscribeRequest(k, s) => AddPair(m, k, s)
    case UnsubscribeRequest(k, s) => RemovePair(m, k, s)
    case UnsubscribeAllRequest(s) => RemoveSubscriber(m, s)
    case ClearRequest => map[]
  }

  /** The registry after a sequence of requests, applied in order. */
  function ApplyAll(m: Registry, rs: seq<Request>): Registry
  {
    if rs == [] then m else Apply(ApplyAll(m, rs[..|rs| - 1]), rs[|rs| - 1])
  }

  lemma ApplyWellFormed(m: Registry, r: Request)
    requires WellFormed(m)
    ensures WellFormed(Apply(m, r))
  {
    match r
    case SubscribeRequest(k, s) => AddPairWellFormed(m, k, s);
    case UnsubscribeRequest(k, s) => RemovePairWellFormed(m, k, s);
    case UnsubscribeAllRequest(s) => RemoveSubscriberWellFormed(m, s);
    case ClearRequest =>
  }

  /** Requests from handlers never break the invariant. */
  lemma {:induction false} ApplyAllWellFormed(m: Registry, rs: seq<Request>)
    requires WellFormed(m)
    ensures WellFormed(ApplyAll(m, rs))
    decreases |rs|
  {
    if rs != [] {
      ApplyAllWellFormed(m, rs[..|rs| - 1]);
      ApplyWellFormed(ApplyAll(m, rs[..|rs| - 1]), rs[|rs| - 1]);
    }
  }

  /** Applying `a` then `b` is applying `a + b`. */
  lemma {:induction false} ApplyAllAppend(m: Registry, a: seq<Request>, b: seq<Request>)
    ensures ApplyAll(m, a + b) == ApplyAll(ApplyAll(m, a), b)
    decreases |b|
  {
    if b == [] {
      assert a + b == a;
    } else {
      var n := |b| - 1;
      assert (a + b)[..|a + b| - 1] == a + b[..n];
      assert (a + b)[|a + b| - 1] == b[n];
      ApplyAllAppend(m, a, b[..n]);
    }
  }

  /** The requests made by the handlers of `notified`, in notification order. */
  function RequestsOf(notified: seq<Subscriber>, event: Event, handle: Handler): seq<Request>
  {
    if notified == [] then []
    else RequestsOf(notified[..|notified| - 1], event, handle) + handle(notified[|notified| - 1], event).requests
  }

  /** The position in the snapshot of the first handler that throws, or -1. */
  function FirstThrow(snapshot: seq<Subscriber>, event: Event, handle: Handler): int
  {
    Seqs.FirstIndex(snapshot, (s: Subscriber) => handle(s, event).thrown.Some?)
  }

  /**
    The subscribers a fan-out pass over `snapshot` notifies: all of them,
    or those up to and including the first whose handler throws.
  */
  function Delivered(snapshot: seq<Subscriber>, event: Event, handle: Handler): seq<Subscriber>
  {
    var f := FirstThrow(snapshot, event, handle);
    if f == -1 then snapshot else snapshot[..f + 1]
  }

  /** How a fan-out pass ends: normally, or with the first thrown error re-raised unchanged. */
  function DispatchOutcome(snapshot: seq<Subscriber>, event: Event, handle: Handler): Outcome<Error>
  {
    var f := FirstThrow(snapshot, event, handle);
    if f == -1 then Pass else Fail(handle(snapshot[f], event).thrown.value)
  }

  /** Notifying the next subscriber of the snapshot appends its handler's requests. */
  lemma RequestsOfStep(snapshot: seq<Subscriber>, i: int, event: Event, handle: Handler)
    requires 0 <= i < |snapshot|
    ensures RequestsOf(snapshot[..i + 1], event, handle) == RequestsOf(snapshot[..i], event, handle) + handle(snapshot[i], event).requests
  {
    assert snapshot[..i + 1][..i] == snapshot[..i];
  }

  /** A pass whose handlers all return normally notifies the whole snapshot and ends normally. */
  lemma DeliveredAll(snapshot: seq<Subscriber>, event: Event, handle: Handler)
    requires forall j | 0 <= j < |snapshot| :: handle(snapshot[j], event).thrown.None?
    ensures Delivered(snapshot, event, handle) == snapshot
    ensures DispatchOutcome(snapshot, event, handle) == Pass
  {
  }

  /** A pass stops right after the first handler that throws, with that handler's error. */
  lemma DeliveredUpToThrow(snapshot: seq<Subscriber>, event: Event, handle: Handler, i: int)
    requires 0 <= i < |snapshot| && handle(snapshot[i], event).thrown.Some?
    requires forall j | 0 <= j < i :: handle(snapshot[j], event).thrown.None?
    ensures Delivered(snapshot, event, handle) == snapshot[..i + 1]
    ensures DispatchOutcome(snapshot, event, handle) == Fail(handle(snapshot[i], event).thrown.value)
  {
  }

  /**
    Fail-fast fan-out: the notified subscribers are a prefix of the
    snapshot, each notified at most once; every handler but the last
    returned normally; the pass fails exactly when the last one threw, with
    its error; and a pass that ends normally notified the whole snapshot.
  */
  lemma DispatchFailFast(snapshot: seq<Subscriber>, event: Event, handle: Handler)
    requires Seqs.Distinct(snapshot)
    ensures var d := Delivered(snapshot, event, handle);
      && d <= snapshot
      && Seqs.Distinct(d)
      && (forall j | 0 <= j < |d| - 1 :: handle(d[j], event).thrown.None?)
      && (DispatchOutcome(snapshot, event, handle).Pass? <==> d == snapshot && forall j | 0 <= j < |d| :: handle(d[j], event).thrown.None?)
      && (DispatchOutcome(snapshot, event, handle).Fail? ==>
            d != [] && handle(d[|d| - 1], event).thrown == Some(DispatchOutcome(snapshot, event, handle).error))
  {
  }
}
