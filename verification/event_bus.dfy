/**
  `EventBus` (src/core/EventBus.ts): a synchronous publish/subscribe bus
  whose registry is updated in place. Each method is tied to the registry
  function of the `Subscription` module that specifies it; the properties
  of those functions are proved there.
*/
module Bus {
  import opened Wrappers
  import opened Types
  import opened Subscription
  import Seqs

  class EventBus {
    /** The `subscribers` map, kind to subscribers in insertion order. */
    var subscribers: Registry
    /** Every event that passed the argument check of `publish`, in order. */
    ghost var published: seq<Event>

    ghost predicate Valid()
      reads this
    {
      WellFormed(subscribers)
    }

    constructor ()
      ensures Valid() && subscribers == map[] && published == []
    {
      subscribers := map[];
      published := [];
    }

    /** A copy of the subscribers of a kind; empty when the kind has no entry. */
    function GetSubscribers(eventType: EventKind): (r: seq<Subscriber>)
      reads this
      requires Valid()
      ensures forall s | s in r :: Subscribed(subscribers, eventType, s)
      ensures eventType in subscribers ==> forall s | s in subscribers[eventType] :: s in r
      ensures Seqs.Distinct(r)
      ensures r == [] <==> eventType !in subscribers
    {
      SubscribersOf(subscribers, eventType)
    }

    /**
      `subscribe`: throws on a missing kind or subscriber; otherwise adds the
      pair unless it is already registered (the source only warns then).
    */
    method Subscribe(eventType: Option<EventKind>, subscriber: Subscriber?) returns (r: Outcome<Error>)
      requires Valid()
      modifies this
      ensures Valid() && published == old(published)
      ensures eventType.None? || subscriber == null ==>
        r == Fail(PlainError("EventType and subscriber must be provided")) && subscribers == old(subscribers)
      ensures eventType.Some? && subscriber != null ==>
        r == Pass && subscribers == AddPair(old(subscribers), eventType.value, subscriber)
    {
      if eventType.None? || subscriber == null {
        return Fail(PlainError("EventType and subscriber must be provided"));
      }
      AddPairWellFormed(subscribers, eventType.value, subscriber);
      var forType := GetOrCreateSubscribers(eventType.value);
      if subscriber in forType {
        return Pass;
      }
      subscribers := subscribers[eventType.value := forType + [subscriber]];
      r := Pass;
    }

    /** `getOrCreateSubscribers`: the kind's set, created empty if absent. */
    method GetOrCreateSubscribers(eventType: EventKind) returns (forType: seq<Subscriber>)
      modifies this
      ensures published == old(published)
      ensures subscribers == if eventType in old(subscribers) then old(subscribers) else old(subscribers)[eventType := []]
      ensures forType == subscribers[eventType]
    {
      if eventType !in subscribers {
        subscribers := subscribers[eventType := []];
      }
      forType := subscribers[eventType];
    }

    /**
      `unsubscribe`: true exactly when both arguments are present and the
      pair was registered; then the pair is gone, and so is the kind's entry
      if it became empty. Otherwise nothing changes.
    */
    method Unsubscribe(eventType: Option<EventKind>, subscriber: Subscriber?) returns (removed: bool)
      requires Valid()
      modifies this
      ensures Valid() && published == old(published)
      ensures removed <==> eventType.Some? && subscriber != null && Subscribed(old(subscribers), eventType.value, subscriber)
      ensures subscribers == if removed then RemovePair(old(subscribers), eventType.value, subscriber) else old(subscribers)
    {
      if eventType.None? || subscriber == null {
        return false;
      }
      var k, s: Subscriber := eventType.value, subscriber;
      if k !in subscribers || |subscribers[k]| == 0 {
        return false;
      }
      if s !in subscribers[k] {
        return false;
      }
      RemovePairWellFormed(subscribers, k, s);
      var rest := Seqs.Without(subscribers[k], s);
      if |rest| == 0 {
        subscribers := subscribers - {k};
      } else {
        subscribers := subscribers[k := rest];
      }
      removed := true;
    }

    /**
      `unsubscribeFromAll`: 0 for a missing subscriber; otherwise removes it
      from every kind, drops emptied kinds, and returns how many kinds held it.
    */
    method UnsubscribeFromAll(subscriber: Subscriber?) returns (count: nat)
      requires Valid()
      modifies this
      ensures Valid() && published == old(published)
      ensures subscriber == null ==> count == 0 && subscribers == old(subscribers)
      ensures subscriber != null ==>
        count == |KindsOf(old(subscribers), subscriber)| && subscribers == RemoveSubscriber(old(subscribers), subscriber)
    {
      if subscriber == null {
        return 0;
      }
      var s: Subscriber := subscriber;
      ghost var m := subscribers;
      var pending := subscribers.Keys;
      count := 0;
      while pending != {}
        invariant WellFormed(m) && pending <= m.Keys && published == old(published)
        invariant subscribers == RemoveFrom(m, s, m.Keys - pending)
        invariant count == |KindsOf(m, s) - pending|
        decreases pending
      {
        var k :| k in pending;
        count := DropFromKind(m, s, pending, k, count);
        pending := pending - {k};
      }
      RemoveSubscriberWellFormed(m, subscriber);
    }

    /** One pass of the `unsubscribeFromAll` loop: drops `s` from the set of kind `k`. */
    method DropFromKind(ghost m: Registry, s: Subscriber, ghost pending: set<EventKind>, k: EventKind, count: nat)
      returns (count': nat)
      requires WellFormed(m) && k in pending && pending <= m.Keys
      requires subscribers == RemoveFrom(m, s, m.Keys - pending)
      requires count == |KindsOf(m, s) - pending|
      modifies this
      ensures published == old(published)
      ensures subscribers == RemoveFrom(m, s, m.Keys - (pending - {k}))
      ensures count' == |KindsOf(m, s) - (pending - {k})|
    {
      ghost var done := m.Keys - pending;
      RemoveFromStep(m, s, done, k);
      CountStep(KindsOf(m, s), pending, k);
      assert m.Keys - (pending - {k}) == done + {k};
      assert subscribers[k] == m[k];
      count' := count;
      if s in subscribers[k] {
        var rest := Seqs.Without(subscribers[k], s);
        subscribers := if |rest| == 0 then subscribers - {k} else subscribers[k := rest];
        count' := count + 1;
      }
    }

    /**
      `publish`: throws before any handler runs when the event or its kind is
      missing; otherwise notifies the subscribers registered at the start of
      the pass, as `notifySubscribers` does.
    */
    method Publish(event: Option<Event>, handle: Handler) returns (r: Outcome<Error>, delivered: seq<Subscriber>)
      requires Valid()
      modifies this
      ensures Valid()
      ensures event.None? ==>
        && r == Fail(PlainError("Valid event with type must be provided"))
        && delivered == []
        && subscribers == old(subscribers)
        && published == old(published)
      ensures event.Some? ==>
        var snapshot := SubscribersOf(old(subscribers), event.value.kind);
        && published == old(published) + [event.value]
        && delivered == Delivered(snapshot, event.value, handle)
        && r == DispatchOutcome(snapshot, event.value, handle)
        && subscribers == ApplyAll(old(subscribers), RequestsOf(delivered, event.value, handle))
    {
      if event.None? {
        return Fail(PlainError("Valid event with type must be provided")), [];
      }
      published := published + [event.value];
      r, delivered := NotifySubscribers(event.value.kind, event.value, handle);
    }

    /**
      `notifySubscribers`: copies the kind's subscribers, then notifies them
      in order; a handler that throws ends the pass with its error. Handlers
      may subscribe and unsubscribe meanwhile: the copy decides who is called.
    */
    method NotifySubscribers(eventType: EventKind, event: Event, handle: Handler) returns (r: Outcome<Error>, delivered: seq<Subscriber>)
      requires Valid()
      modifies this
      ensures Valid() && published == old(published)
      ensures var snapshot := SubscribersOf(old(subscribers), eventType);
        && delivered == Delivered(snapshot, event, handle)
        && r == DispatchOutcome(snapshot, event, handle)
        && subscribers == ApplyAll(old(subscribers), RequestsOf(delivered, event, handle))
    {
      var snapshot := SubscribersOf(subscribers, eventType);
      if snapshot == [] {
        return Pass, [];
      }
      for i := 0 to |snapshot|
        invariant forall j | 0 <= j < i :: handle(snapshot[j], event).thrown.None?
        invariant Valid() && published == old(published)
        invariant subscribers == ApplyAll(old(subscribers), RequestsOf(snapshot[..i], event, handle))
      {
        r := NotifySubscriber(snapshot[i], event, handle);
        RequestsOfStep(snapshot, i, event, handle);
        ApplyAllAppend(old(subscribers), RequestsOf(snapshot[..i], event, handle), handle(snapshot[i], event).requests);
        if r.Fail? {
          DeliveredUpToThrow(snapshot, event, handle, i);
          return r, snapshot[..i + 1];
        }
      }
      assert snapshot[..|snapshot|] == snapshot;
      DeliveredAll(snapshot, event, handle);
      return Pass, snapshot;
    }

    /** `notifySubscriber`: runs one handler, including its calls back into the bus. */
    method NotifySubscriber(subscriber: Subscriber, event: Event, handle: Handler) returns (r: Outcome<Error>)
      requires Valid()
      modifies this
      ensures Valid() && published == old(published)
      ensures subscribers == ApplyAll(old(subscribers), handle(subscriber, event).requests)
      ensures r == if handle(subscriber, event).thrown.Some? then Fail(handle(subscriber, event).thrown.value) else Pass
    {
      var reaction := handle(subscriber, event);
      var i := 0;
      while i < |reaction.requests|
        invariant 0 <= i <= |reaction.requests|
        invariant Valid() && published == old(published)
        invariant subscribers == ApplyAll(old(subscribers), reaction.requests[..i])
      {
        ApplyRequest(reaction.requests[i]);
        assert reaction.requests[..i + 1][..i] == reaction.requests[..i];
        i := i + 1;
      }
      assert reaction.requests[..i] == reaction.requests;
      r := if reaction.thrown.Some? then Fail(reaction.thrown.value) else Pass;
    }

    /** Carries out one call a handler makes into the bus. */
    method ApplyRequest(request: Request)
      requires Valid()
      modifies this
      ensures Valid() && published == old(published)
      ensures subscribers == Apply(old(subscribers), request)
    {
      match request
      case SubscribeRequest(k, s) =>
        var _ := Subscribe(Some(k), s);
      case UnsubscribeRequest(k, s) =>
        var _ := Unsubscribe(Some(k), s);
      case UnsubscribeAllRequest(s) =>
        var _ := UnsubscribeFromAll(s);
      case ClearRequest =>
        ClearSubscriptions();
    }

    /** `clearSubscriptions`: the registry becomes empty. */
    method ClearSubscriptions()
      modifies this
      ensures Valid() && subscribers == map[] && published == old(published)
    {
      subscribers := map[];
    }

    /** `getTotalSubscribersCount`: the sum of the set sizes, accumulated entry by entry. */
    method TotalSubscribersCount() returns (count: nat)
      ensures count == TotalOf(subscribers)
    {
      count := 0;
      var rest := subscribers;
      while rest != map[]
        invariant count + TotalOf(rest) == TotalOf(subscribers)
        decreases |rest|
      {
        var k :| k in rest;
        TotalOfAnyKey(rest, k);
        assert (rest - {k}).Keys == rest.Keys - {k};
        count := count + |rest[k]|;
        rest := rest - {k};
      }
    }

    /** `getEventTypesCount`: the number of kinds, never more than the number of subscriptions. */
    function EventTypesCount(): (n: nat)
      reads this
      requires Valid()
      ensures n == |subscribers.Keys|
      ensures n <= TotalOf(subscribers)
    {
      KindsAtMostTotal(subscribers);
      |subscribers|
    }
  }

  /**
    The duplicate-subscription test (tests/src/core/EventBus.test.ts): one
    subscriber subscribed twice to TEST_EVENT is listed once and, when the
    event is published, notified once.
  */
  method DuplicateSubscription() returns (listed: nat, notified: nat)
    ensures listed == 1 && notified == 1
  {
    var bus := new EventBus();
    var subscriber := new Subscriber("TestSubscriber");
    var _ := bus.Subscribe(Some(TEST_EVENT), subscriber);
    var _ := bus.Subscribe(Some(TEST_EVENT), subscriber);
    AddPairIdempotent(map[], TEST_EVENT, subscriber);
    listed := |bus.GetSubscribers(TEST_EVENT)|;
    var handle: Handler := (s: Subscriber, e: Event) => Reaction([], None);
    var _, delivered := bus.Publish(Some(Event(TEST_EVENT, Payload([], None, None))), handle);
    notified := multiset(delivered)[subscriber];
  }

  /** Publishing a kind nobody subscribed to notifies no one, succeeds and leaves the registry as it was. */
  method PublishWithoutSubscribers() returns (r: Outcome<Error>, delivered: seq<Subscriber>, same: bool)
    ensures r == Pass && delivered == [] && same
  {
    var bus := new EventBus();
    var subscriber := new Subscriber("TestSubscriber");
    var _ := bus.Subscribe(Some(TEST_EVENT), subscriber);
    var before := bus.subscribers;
    var handle: Handler := (s: Subscriber, e: Event) => Reaction([], Some(PlainError("boom")));
    r, delivered := bus.Publish(Some(Event(NO_SUBSCRIBERS_EVENT, Payload([], None, None))), handle);
    same := bus.subscribers == before;
  }

  /**
    The copy decides who is called: when the first subscriber's handler
    unsubscribes the second, the second is still notified in this pass, and
    is gone afterwards.
  */
  method UnsubscribeDuringDispatch() returns (delivered: seq<Subscriber>, first: Subscriber, second: Subscriber, after: seq<Subscriber>)
    ensures delivered == [first, second] && after == [first]
  {
    var bus := new EventBus();
    first := new Subscriber("First");
    second := new Subscriber("Second");
    var _ := bus.Subscribe(Some(TEST_EVENT), first);
    var _ := bus.Subscribe(Some(TEST_EVENT), second);
    TwoSubscribers(first, second);
    var a, b := first, second;
    var handle: Handler := (s: Subscriber, e: Event) =>
      if s == a then Reaction([UnsubscribeRequest(TEST_EVENT, b)], None) else Reaction([], None);
    var event := Event(TEST_EVENT, Payload([], None, None));
    var _, d := bus.Publish(Some(event), handle);
    UnsubscribeDuringDispatchPass(first, second, event, handle);
    delivered := d;
    after := bus.GetSubscribers(TEST_EVENT);
  }

  /** Subscribing two distinct subscribers to one kind lists them in that order. */
  lemma TwoSubscribers(first: Subscriber, second: Subscriber)
    requires first != second
    ensures AddPair(AddPair(map[], TEST_EVENT, first), TEST_EVENT, second) == map[TEST_EVENT := [first, second]]
  {
    assert [] + [first] == [first];
    assert [first] + [second] == [first, second];
  }

  /** The pass of `UnsubscribeDuringDispatch` on values. */
  lemma UnsubscribeDuringDispatchPass(first: Subscriber, second: Subscriber, event: Event, handle: Handler)
    requires first != second
    requires handle(first, event) == Reaction([UnsubscribeRequest(TEST_EVENT, second)], None)
    requires handle(second, event) == Reaction([], None)
    ensures Delivered([first, second], event, handle) == [first, second]
    ensures ApplyAll(map[TEST_EVENT := [first, second]], RequestsOf([first, second], event, handle)) == map[TEST_EVENT := [first]]
  {
    var snapshot := [first, second];
    assert FirstThrow(snapshot, event, handle) == -1;
    assert snapshot[..1] == [first] && [first][..0] == [];
    var req := UnsubscribeRequest(TEST_EVENT, second);
    assert RequestsOf([first], event, handle) == [] + [req];
    assert RequestsOf(snapshot, event, handle) == [req] + [];
    assert [req][..0] == [];
    assert snapshot[1..] == [second] && [second][1..] == [];
    assert Seqs.Without(snapshot, second) == [first];
  }

  /**
    The wiring of src/app.ts: inventory and financial services on
    CustomerOrderCreated, the supplier service on ReorderStock, the financial
    service again on StockReplenished. Three kinds, four subscriptions; after
    `clearSubscriptions` both counts are 0.
  */
  method AppWiring() returns (kinds: nat, total: nat, kindsAfterClear: nat, totalAfterClear: nat)
    ensures kinds == 3 && total == 4
    ensures kindsAfterClear == 0 && totalAfterClear == 0
  {
    var bus := new EventBus();
    var inventory := new Subscriber("InventoryService");
    var financial := new Subscriber("FinancialReportService");
    var supplier := new Subscriber("SupplierService");
    var _ := bus.Subscribe(Some(CustomerOrderCreated), inventory);
    var _ := bus.Subscribe(Some(CustomerOrderCreated), financial);
    var _ := bus.Subscribe(Some(ReorderStock), supplier);
    var _ := bus.Subscribe(Some(StockReplenished), financial);
    WiringRegistry(inventory, financial, supplier);
    kinds := bus.EventTypesCount();
    total := bus.TotalSubscribersCount();
    WiringCounts(inventory, financial, supplier);
    bus.ClearSubscriptions();
    kindsAfterClear := bus.EventTypesCount();
    totalAfterClear := bus.TotalSubscribersCount();
  }

  /** The four subscriptions of src/app.ts, made in order, build this registry. */
  lemma WiringRegistry(inventory: Subscriber, financial: Subscriber, supplier: Subscriber)
    requires inventory != financial
    ensures AddPair(AddPair(AddPair(AddPair(map[], CustomerOrderCreated, inventory),
        CustomerOrderCreated, financial), ReorderStock, supplier), StockReplenished, financial)
      == map[CustomerOrderCreated := [inventory, financial], ReorderStock := [supplier], StockReplenished := [financial]]
  {
    var m1 := AddPair(map[], CustomerOrderCreated, inventory);
    assert [] + [inventory] == [inventory];
    assert m1 == map[CustomerOrderCreated := [inventory]];
    var m2 := AddPair(m1, CustomerOrderCreated, financial);
    assert [inventory] + [financial] == [inventory, financial];
    assert m2 == map[CustomerOrderCreated := [inventory, financial]];
    var m3 := AddPair(m2, ReorderStock, supplier);
    assert [] + [supplier] == [supplier];
    assert m3 == map[CustomerOrderCreated := [inventory, financial], ReorderStock := [supplier]];
    assert [] + [financial] == [financial];
  }

  /** The registry built by the wiring of src/app.ts has three kinds and four subscriptions. */
  lemma WiringCounts(inventory: Subscriber, financial: Subscriber, supplier: Subscriber)
    ensures var m := map[CustomerOrderCreated := [inventory, financial], ReorderStock := [supplier], StockReplenished := [financial]];
      |m| == 3 && TotalOf(m) == 4
  {
    var m := map[CustomerOrderCreated := [inventory, financial], ReorderStock := [supplier], StockReplenished := [financial]];
    assert m.Keys == {CustomerOrderCreated, ReorderStock, StockReplenished};
    TotalOfAnyKey(m, CustomerOrderCreated);
    var m1 := m - {CustomerOrderCreated};
    assert m1 == map[ReorderStock := [supplier], StockReplenished := [financial]];
    TotalOfAnyKey(m1, ReorderStock);
    var m2 := m1 - {ReorderStock};
    assert m2 == map[StockReplenished := [financial]];
    TotalOfAnyKey(m2, StockReplenished);
    assert m2 - {StockReplenished} == map[];
  }
}
