# Warehouse management core in Dafny

This project models the core of a small warehouse management system written
in TypeScript. Its centre is a synchronous publish/subscribe `EventBus`. The
bus keeps a registry from event kind to an insertion-ordered set of
subscribers, and services subscribe to it. Around it sit:

- the `FinancialReportService`, which keeps running sales and purchase totals
  from `CustomerOrderCreated` and `StockReplenished` events;
- the `CustomerService`, which records an order and publishes
  `CustomerOrderCreated`;
- the domain entities: products with stock and supplier offers, two
  generations of `Customer` and `Supplier`, postal addresses, purchase and
  customer orders;
- the in-memory repositories over those entities;
- the e-mail and phone-number validators.

Entities that the code updates in place are Dafny classes with `modifies`
clauses. Their methods are tied to specification functions on values:

- the bus registry is a `map<EventKind, seq<Subscriber>>`, with `AddPair`,
  `RemovePair` and `RemoveSubscriber` in module `Subscription`;
- the financial totals use `Step` and `Replay` in module `FinancialReports`;
- supplier offers use `WithOffer` and `WithoutOffer` in module `Inventory`;
- the validators are `Validation.ValidateEmail` and
  `Validation.ValidatePhoneNumber`.

The properties are proved about those functions. A thrown exception becomes
`Fail(error)` (an `Outcome`) or `Failure(error)` (a `Result`), carrying the
exception class and its message. An optional argument or field that may be
`undefined` or `null` becomes an `Option` (`None`) or a nullable reference
(`null`). Where the code tests such a value for truthiness, the empty string
stays `Some("")` and is treated as falsy explicitly: `Addresses.Truthy` for
the postal code, and the `supplierId.value != ""` test in
`Inventory.Product.GetPrice`.

`FinancialReportService` prices sales with its placeholder
`getProductPrice`, which answers 10 for every product and ignores the line's
own price. The model follows the code here (`FinancialReports.SalesAreTenPerUnit`).

In these places the model departs from the code as written or fills a gap
in it:

- `CustomerService` imports the validated `Customer`, which has no
  `placeOrder`. The model's service holds the draft `Customer`
  (src/models/Customer.ts), the class that does have `placeOrder` and an
  order history.
- `FinancialReportService.handleEvent` prices replenishments with
  `item.unitCost`, a field order lines do not have, so the code's purchase
  total becomes NaN. `FinancialReports.FinancialReportService.HandleEvent`,
  `Step` and `StepByKind` price them by the line's `unitPrice` instead; the
  code as written is kept beside them (see "## Findings").
- `SupplierRepository.getById` and `update` search with `getId()`, which
  neither supplier class defines, so they throw a TypeError on any
  non-empty list. `SupplierRepositories.SupplierRepository.GetById`,
  `Update` and `UpdateSupplierPrice` match on the supplier's `id` instead;
  the code as written is kept beside them (see "## Findings").
- Handlers are the subscribers' `handleEvent`. A handler is a pure function
  from the subscriber and the event to a `Reaction`: the calls it makes back
  into the bus (subscribe, unsubscribe, unsubscribe from all, clear) and the
  error it throws, if any.

## Model

| member | source | states |
|---|---|---|
| Seqs.Without | src/core/EventBus.ts:91 | `Set.delete` keeps every other element, drops `x`, keeps distinctness and shortens a set holding `x` by one |
| Seqs.FirstIndex | src/models/inventory/Product.ts:88 | `findIndex`: -1 exactly when no element matches, otherwise the first matching position |
| Seqs.Filter | src/repository/OrderRepository.ts:12 | `filter` keeps exactly the matching elements and never grows the list |
| Seqs.FilterAppend | src/repository/OrderRepository.ts:12 | filtering a list extended by one element extends the result by that element exactly when it matches |
| Validation.ValidateEmailIsPattern | src/utils/ValidationUtils.ts:2-5 | the e-mail check accepts exactly the strings `^[^\s@]+@[^\s@]+\.[^\s@]+$` matches (both directions) |
| Validation.ValidEmailMatches | src/utils/ValidationUtils.ts:2-5 | every accepted address splits into run, '@', run, '.', run |
| Validation.PatternIsValid | src/utils/ValidationUtils.ts:2-5 | every string of that shape is accepted |
| Validation.EmailRejectsEmpty | src/utils/ValidationUtils.ts:2-5 | the empty string is rejected |
| Validation.EmailRejectsNoAt | src/utils/ValidationUtils.ts:2-5 | a string without '@' is rejected |
| Validation.EmailRejectsNoDot | src/utils/ValidationUtils.ts:2-5 | "a@b" is rejected: no dot after the '@' |
| Validation.EmailRejectsDotAfterAt | src/utils/ValidationUtils.ts:2-5 | "a@.b" is rejected: empty domain run |
| Validation.EmailRejectsTrailingDot | src/utils/ValidationUtils.ts:2-5 | "a@b." is rejected: empty last run |
| Validation.EmailAcceptsShortest | src/utils/ValidationUtils.ts:2-5 | "a@b.c" is accepted |
| Validation.EmailRejectsSecondAt | src/utils/ValidationUtils.ts:2-5 | no string with two '@' is accepted |
| Validation.AllPhoneChars | src/utils/ValidationUtils.ts:7-10 | true exactly when every character is a digit, whitespace, '+', '-', '(' or ')' |
| Validation.PhoneRejectsLength | src/utils/ValidationUtils.ts:7-10 | any string shorter than 8 or longer than 20 is rejected |
| Validation.PhoneRejectsCharacter | src/utils/ValidationUtils.ts:7-10 | one character outside the class rejects the number, whatever its length |
| Validation.PhoneAcceptsExample | src/utils/ValidationUtils.ts:7-10 | "+44 1234-5678" is accepted |
| Types.LineTotalAppend | src/models/PurchaseOrder/PurchaseOrder.ts:48-53 | the line total of two concatenated lists is the sum of their totals |
| Types.LineTotalNonNegative | src/models/PurchaseOrder/PurchaseOrder.ts:48-53 | lines with non-negative quantities and prices total at least 0 |
| Subscription.AddPairWellFormed | src/core/EventBus.ts:34-66 | subscribing keeps the registry invariant: no empty set, no subscriber twice in a set |
| Subscription.AddPairExact | src/core/EventBus.ts:45-57 | after subscribing, (k', s') is registered iff it was before or it is (k, s) |
| Subscription.AddPairIdempotent | src/core/EventBus.ts:47-52 | subscribing the same pair twice is subscribing it once |
| Subscription.AddPairOnce | src/core/EventBus.ts:45-54 | after subscribing, the kind's set holds the subscriber exactly once |
| Subscription.DistinctOnce | src/core/EventBus.ts:13 | a distinct sequence holds each of its members exactly once |
| Subscription.RemovePairWellFormed | src/core/EventBus.ts:83-109 | unsubscribing keeps the registry invariant, dropping emptied kinds |
| Subscription.RemovePairExact | src/core/EventBus.ts:83-111 | after unsubscribing, (k', s') is registered iff it was before and is not (k, s) |
| Subscription.RemovePairOtherKind | src/core/EventBus.ts:91-109 | unsubscribing from one kind leaves every other kind's set as it was |
| Subscription.RemovePairSameKind | src/core/EventBus.ts:91-109 | unsubscribing a registered pair leaves the kind's set without that subscriber, the rest in order |
| Subscription.RemovePairUndoesAddPair | src/core/EventBus.ts:34-112 | unsubscribing a pair that subscribing just added restores the registry exactly |
| Subscription.WithoutLast | src/core/EventBus.ts:91 | deleting the element just appended gives back the original list |
| Subscription.RemoveSubscriberWellFormed | src/core/EventBus.ts:128-143 | unsubscribing from all kinds keeps the registry invariant |
| Subscription.RemoveSubscriberExact | src/core/EventBus.ts:128-143 | after unsubscribing `s` from all, (k', s') is registered iff it was before and s' is not s |
| Subscription.RemoveFromStep | src/core/EventBus.ts:128-143 | one more kind handled by the loop removes `s` from that kind only, dropping it when emptied |
| Subscription.CountStep | src/core/EventBus.ts:126-130 | the loop's counter grows by one exactly for the kinds that held the subscriber |
| Subscription.TotalOfAnyKey | src/core/EventBus.ts:209-215 | the total count can be summed starting from any kind: order of iteration does not matter |
| Subscription.KindsAtMostTotal | src/core/EventBus.ts:209-219 | in a well-formed registry the number of kinds is at most the number of subscriptions |
| Subscription.AddPairTotal | src/core/EventBus.ts:209-215 | subscribing raises the total count by one exactly when the pair was new |
| Subscription.RemovePairTotal | src/core/EventBus.ts:209-215 | unsubscribing lowers the total count by one exactly when the pair was registered |
| Subscription.ApplyWellFormed | src/core/EventBus.ts:184-202 | a handler's call into the bus keeps the registry invariant |
| Subscription.ApplyAllWellFormed | src/core/EventBus.ts:184-202 | any sequence of such calls keeps the invariant |
| Subscription.ApplyAllAppend | src/core/EventBus.ts:184-202 | applying two batches of calls in turn is applying their concatenation |
| Subscription.RequestsOfStep | src/core/EventBus.ts:177-181 | notifying the next subscriber of the copy appends that handler's calls |
| Subscription.DeliveredAll | src/core/EventBus.ts:177-181 | when no handler throws, the whole copy is notified and the pass ends normally |
| Subscription.DeliveredUpToThrow | src/core/EventBus.ts:177-201 | the pass stops right after the first handler that throws, with that handler's error re-thrown |
| Subscription.DispatchFailFast | src/core/EventBus.ts:166-202 | the notified subscribers are a prefix of the copy, each once; all but the last returned normally; the pass fails iff the last threw, with its error; a normal end notified everyone |
| Bus.EventBus.constructor | src/core/EventBus.ts:13-20 | the bus starts with an empty registry |
| Bus.EventBus.GetSubscribers | src/core/EventBus.ts:22-32 | exactly the kind's subscribers, without repetition; empty iff the kind has no entry |
| Bus.EventBus.Subscribe | src/core/EventBus.ts:34-58 | missing kind or subscriber throws "EventType and subscriber must be provided" and changes nothing; otherwise the registry becomes `AddPair` of the old one and the invariant holds |
| Bus.EventBus.GetOrCreateSubscribers | src/core/EventBus.ts:59-66 | an absent kind gets an empty set; the kind's set is returned |
| Bus.EventBus.Unsubscribe | src/core/EventBus.ts:68-112 | true iff both arguments are present and the pair was registered; then the registry becomes `RemovePair` of the old one, otherwise it is unchanged |
| Bus.EventBus.UnsubscribeFromAll | src/core/EventBus.ts:114-150 | 0 and no change for a missing subscriber; otherwise the registry becomes `RemoveSubscriber` of the old one and the count is the number of kinds that held it |
| Bus.EventBus.DropFromKind | src/core/EventBus.ts:128-143 | one loop pass: the registry and the count advance to the loop invariant with one kind fewer pending |
| Bus.EventBus.Publish | src/core/EventBus.ts:155-165 | missing event throws "Valid event with type must be provided" before any handler runs; otherwise the subscribers registered at the start are notified as `Delivered` says, the outcome is `DispatchOutcome`, and the registry has every notified handler's calls applied in order |
| Bus.EventBus.NotifySubscribers | src/core/EventBus.ts:166-182 | notifies the copy taken at the start, in order, stopping at the first throw; result and new registry as for `Publish` |
| Bus.EventBus.NotifySubscriber | src/core/EventBus.ts:184-202 | runs one handler: its calls into the bus are applied and its error, if any, is re-thrown unchanged |
| Bus.EventBus.ApplyRequest | src/core/EventBus.ts:34-150 | one call a handler makes into the bus changes the registry as `Apply` says |
| Bus.EventBus.ClearSubscriptions | src/core/EventBus.ts:204-207 | the registry becomes empty |
| Bus.EventBus.TotalSubscribersCount | src/core/EventBus.ts:209-215 | the loop's sum of set sizes is the total number of subscriptions |
| Bus.EventBus.EventTypesCount | src/core/EventBus.ts:217-219 | the number of kinds, never more than the total number of subscriptions |
| Bus.DuplicateSubscription | tests/src/core/EventBus.test.ts:46-64 | one subscriber subscribed twice is listed once and notified once |
| Bus.PublishWithoutSubscribers | src/core/EventBus.ts:166-176 | publishing a kind nobody subscribed to notifies nobody, succeeds, and leaves the registry unchanged |
| Bus.UnsubscribeDuringDispatch | src/core/EventBus.ts:177-181 | when the first handler unsubscribes the second, the second is still notified in that pass and is gone afterwards |
| Bus.TwoSubscribers | src/core/EventBus.ts:34-58 | two distinct subscriptions to one kind are listed in subscription order |
| Bus.UnsubscribeDuringDispatchPass | src/core/EventBus.ts:177-181 | the same pass on values: both are delivered and the registry keeps only the first |
| Bus.AppWiring | src/app.ts:57-63 | the application's four subscriptions give 3 kinds and 4 subscriptions; after clearing, 0 and 0 |
| Bus.WiringRegistry | src/app.ts:57-63 | those four subscriptions build exactly the registry inventory+financial / supplier / financial |
| Bus.WiringCounts | src/core/EventBus.ts:209-219 | that registry has 3 kinds and 4 subscriptions |
| FinancialReports.SalesAreTenPerUnit | src/services/FinancialReportService.ts:19-24 | revenue ignores the lines' prices: it is 10 times the number of units ordered |
| FinancialReports.Step | src/services/FinancialReportService.ts:17-36 | handling an event adds that event's contribution to the totals |
| FinancialReports.StepByKind | src/services/FinancialReportService.ts:17-36 | an order adds 10 per unit to sales only; a replenishment adds its line total to purchases only; other kinds change nothing |
| FinancialReports.ReplayIsSum | src/services/FinancialReportService.ts:17-36 | handling a sequence of events adds the sum of their contributions |
| FinancialReports.SumOfAppend | src/services/FinancialReportService.ts:17-36 | the contributions of two concatenated sequences add up |
| FinancialReports.SumOfSnoc | src/services/FinancialReportService.ts:17-36 | one more event adds its own contribution |
| FinancialReports.SumOfRemoveAt | src/services/FinancialReportService.ts:17-36 | taking one event out of a sequence takes its contribution off the sum |
| FinancialReports.SumOfPermutation | src/services/FinancialReportService.ts:17-36 | the sum of contributions does not depend on the order of the events |
| FinancialReports.ReplayOrderIndependent | src/services/FinancialReportService.ts:17-36 | handling the same events in any order gives the same totals |
| FinancialReports.ReportOf | src/services/FinancialReportService.ts:38-44 | the report carries both totals and net income = sales - purchases |
| FinancialReports.FinancialReportService.constructor | src/services/FinancialReportService.ts:11-15 | both totals start at 0 |
| FinancialReports.FinancialReportService.HandleEvent | src/services/FinancialReportService.ts:17-36 | the loops over the lines move the totals exactly as `Step` says |
| FinancialReports.FinancialReportService.GetReport | src/services/FinancialReportService.ts:38-44 | the report of the current totals |
| FinancialReports.FreshReport | src/services/FinancialReportService.ts:11-44 | a new service reports 0 sales, 0 purchases, 0 net income |
| FinancialReports.HandleAll | src/services/FinancialReportService.ts:17-36 | feeding events one by one reaches the replayed totals |
| FinancialReports.PurchasesAsWrittenIsNaN | src/services/FinancialReportService.ts:26-31 | as written, any replenishment with a line makes the purchase total NaN |
| FinancialReports.PurchasesCounterexample | src/services/FinancialReportService.ts:26-31 | one line of 2 units at 5: NaN as written, 10 when priced by `unitPrice` |
| Customers.Customer.constructor | src/models/Customer/Customer.ts:8-14 | a customer built on a valid address holds it and satisfies the invariant |
| Customers.Customer.Create | src/models/Customer/Customer.ts:8-14 | construction succeeds iff the address is valid; otherwise it throws DomainError "Invalid email format." |
| Customers.Customer.SetEmail | src/models/Customer/Customer.ts:16-21 | a valid address is stored; an invalid one throws DomainError and changes nothing; the invariant is kept |
| Customers.Customer.GetEmail | src/models/Customer/Customer.ts:23-25 | the address returned always passes the validator |
| DraftCustomers.Customer.constructor | src/models/Customer.ts:11-17 | stores the address unchecked; both lists start empty |
| DraftCustomers.Customer.AddShippingAddress | src/models/Customer.ts:19-21 | appends exactly one address, nothing else changes |
| DraftCustomers.Customer.SetEmail | src/models/Customer.ts:31-36 | valid address stored; invalid one throws InvalidEmailError and changes nothing |
| DraftCustomers.Customer.PlaceOrder | src/models/Customer.ts:38-40 | appends exactly one order to the history |
| DraftCustomers.UncheckedConstruction | src/models/Customer.ts:11-17 | a draft customer can hold an address its own setter refuses |
| Suppliers.Supplier.constructor | src/models/Supplier/Supplier.ts:16-26 | stores every field unchecked; empty history |
| Suppliers.Supplier.AddOrderHistory | src/models/Supplier/Supplier.ts:28-30 | appends exactly one entry |
| Suppliers.Supplier.GetPhoneNumber | src/models/Supplier/Supplier.ts:44-46 | the phone number is the one inside the postal address |
| Suppliers.Supplier.SetContactPerson | src/models/Supplier/Supplier.ts:52-54 | only the contact person changes |
| Suppliers.Supplier.SetEmail | src/models/Supplier/Supplier.ts:56-61 | valid address stored; invalid one throws DomainError and changes nothing |
| Suppliers.Supplier.SetPhoneNumber | src/models/Supplier/Supplier.ts:63-68 | a valid number replaces only the address's phone number; an invalid one throws a plain Error and changes nothing |
| Suppliers.Supplier.SetAddress | src/models/Supplier/Supplier.ts:70-72 | the address, phone number included, is replaced |
| Suppliers.PhoneRoundTrip | src/models/Supplier/Supplier.ts:44-68 | a number set is the number read back, and the street stays |
| DraftSuppliers.Supplier.constructor | src/models/Supplier.ts:16-28 | stores every field unchecked; empty history |
| DraftSuppliers.Supplier.AddOrderHistory | src/models/Supplier.ts:30-32 | appends exactly one entry |
| DraftSuppliers.Supplier.SetContactPerson | src/models/Supplier.ts:54-56 | only the contact person changes |
| DraftSuppliers.Supplier.SetEmail | src/models/Supplier.ts:58-64 | stores exactly the addresses the e-mail pattern matches; otherwise throws InvalidEmailError |
| DraftSuppliers.Supplier.SetPhoneNumber | src/models/Supplier.ts:66-72 | stores 8 to 20 characters of the phone class; otherwise throws InvalidEmailError "Invalid phone number format." |
| DraftSuppliers.Supplier.SetAddress | src/models/Supplier.ts:74-76 | the address is replaced, the separate phone number stays |
| Addresses.Address.constructor | src/models/Supplier/Address.ts:2-7 | stores the four fields |
| Addresses.Address.SetPostalCode | src/models/Supplier/Address.ts:25-27 | the postal code is replaced |
| Addresses.Address.GetFullAddress | src/models/Supplier/Address.ts:29-33 | "street, city, country", with ", code" appended exactly when the code is truthy |
| Addresses.JoinedParts | src/models/Supplier/Address.ts:29-33 | the four-part rendering extends the three-part one by ", " and the code |
| Addresses.PostalCodeRoundTrip | src/models/Supplier/Address.ts:25-33 | setting "LS1" adds it to the rendering; setting "" removes it again |
| Inventory.OfferIndex | src/models/inventory/Product.ts:88 | -1 iff no offer comes from that supplier; otherwise the first such offer |
| Inventory.WithoutOffer | src/models/inventory/Product.ts:87-94 | splicing out the first offer from the id shortens the list by one and keeps the offers before and after it in order |
| Inventory.WithOfferUnique | src/models/inventory/Product.ts:80-85 | adding an offer from a new supplier keeps supplier ids unique |
| Inventory.WithoutOfferUnique | src/models/inventory/Product.ts:87-94 | removing an offer keeps ids unique and leaves no offer from that supplier |
| Inventory.RemoveUndoesAdd | src/models/inventory/Product.ts:80-94 | removing the offer just added gives back the original list |
| Inventory.MinPrice | src/models/inventory/Product.ts:97-100 | `Math.min` of the prices: one of them, and no larger than any |
| Inventory.Product.constructor | src/models/inventory/Product.ts:7-16 | stores every field as given |
| Inventory.Product.UpdateStock | src/models/inventory/Product.ts:50-57 | stock moves by the amount unless it would go negative, which throws "Stock cannot be negative" and keeps it; non-negative stock stays non-negative |
| Inventory.Product.ApplyDiscount | src/models/inventory/Product.ts:59-64 | a percentage outside 0..100 throws and keeps the price; otherwise the price drops by that percentage, the discount rounded down, and stays within 0..old price |
| Inventory.Product.IsBelowThreshold | src/models/inventory/Product.ts:66-68 | true iff stock is below the minimum threshold |
| Inventory.Product.GetPrice | src/models/inventory/Product.ts:70-78 | with a truthy id, the first matching offer's price; the base price with no id or no matching offer |
| Inventory.Product.AddSupplier | src/models/inventory/Product.ts:80-85 | an already listed supplier id throws and keeps the list; otherwise the offer is appended; unique ids stay unique |
| Inventory.Product.RemoveSupplier | src/models/inventory/Product.ts:87-94 | an unknown id throws "Supplier not found"; otherwise the first offer is spliced out; unique ids stay unique and the supplier is gone |
| Inventory.Product.GetCurrentCostBasis | src/models/inventory/Product.ts:96-102 | stock times the lowest offered price, or times the base price with no offers |
| Inventory.DiscountBounds | src/models/inventory/Product.ts:59-64 | a 0..100 percent discount on a non-negative price keeps it between 0 and the old price |
| Inventory.GetPriceOfListed | src/models/inventory/Product.ts:70-78 | with unique ids, the price for a listed supplier is that supplier's offer |
| PurchaseOrders.PurchaseOrder.constructor | src/models/PurchaseOrder/PurchaseOrder.ts:16-22 | the status defaults to Pending |
| PurchaseOrders.PurchaseOrder.SetStatus | src/models/PurchaseOrder/PurchaseOrder.ts:44-46 | only the status changes |
| PurchaseOrders.PurchaseOrder.GetTotal | src/models/PurchaseOrder/PurchaseOrder.ts:48-53 | 0 for no lines; each line adds quantity times unit price; never negative for non-negative lines |
| CustomerOrders.CustomerOrder.constructor | src/models/Customer/CustomerOrder.ts:4-10 | the status defaults to PENDING |
| CustomerOrders.CustomerOrder.TotalAmount | src/models/Customer/CustomerOrder.ts:13-18 | 0 for no lines; each line adds quantity times unit price; never negative for non-negative lines |
| CustomerOrders.CustomerOrder.UpdateStatus | src/models/Customer/CustomerOrder.ts:21-25 | only the status changes |
| CustomerOrders.TotalExample | src/models/Customer/CustomerOrder.ts:13-18 | lines 2 at 5 and 3 at 4 total 22; no lines total 0 |
| CustomerRepositories.LastIndexOf | src/repository/CustomerRepository.ts:8-12 | the last position with that id, or -1 when there is none |
| CustomerRepositories.IndexLaterWins | src/repository/CustomerRepository.ts:8-12 | an id is a key iff some initial customer has it, and it maps to the last one |
| CustomerRepositories.CustomerRepository.constructor | src/repository/CustomerRepository.ts:8-12 | the map is the initial list keyed by id, entry by entry |
| CustomerRepositories.CustomerRepository.GetById | src/repository/CustomerRepository.ts:14-16 | the stored customer iff the id is a key |
| CustomerRepositories.CustomerRepository.Save | src/repository/CustomerRepository.ts:18-23 | an existing id throws "Customer already exists" and changes nothing; otherwise exactly one key is added |
| CustomerRepositories.CustomerRepository.Update | src/repository/CustomerRepository.ts:25-30 | an absent id throws "Cannot update non-existent customer"; otherwise the entry is replaced and the keys stay |
| CustomerRepositories.SaveThenGet | src/repository/CustomerRepository.ts:14-23 | a saved customer is found by id, and saving it again fails |
| OrderRepositories.OrderRepository.constructor | src/repository/OrderRepository.ts:5 | the list starts empty |
| OrderRepositories.OrderRepository.Save | src/repository/OrderRepository.ts:7-9 | the order is appended |
| OrderRepositories.OrderRepository.GetByCustomerId | src/repository/OrderRepository.ts:11-13 | exactly the orders of that customer |
| OrderRepositories.OrderRepository.Update | src/repository/OrderRepository.ts:15-20 | the first order with that id is replaced, every other position and the length stay; an unknown id changes nothing |
| OrderRepositories.SaveExtendsQuery | src/repository/OrderRepository.ts:7-13 | saving extends a customer's query by the order exactly when it is theirs |
| OrderRepositories.QueryInSaveOrder | src/repository/OrderRepository.ts:11-13 | the query lists a customer's orders in save order |
| PurchaseOrderRepositories.PurchaseOrderRepository.constructor | src/repository/PurchaseOrderRepository.ts:5 | the list starts empty |
| PurchaseOrderRepositories.PurchaseOrderRepository.Save | src/repository/PurchaseOrderRepository.ts:7-12 | the order is appended |
| PurchaseOrderRepositories.PurchaseOrderRepository.GetBySupplierId | src/repository/PurchaseOrderRepository.ts:14-16 | exactly the orders to that supplier |
| PurchaseOrderRepositories.PurchaseOrderRepository.Update | src/repository/PurchaseOrderRepository.ts:18-23 | the first order with that id is replaced, every other position and the length stay; an unknown id changes nothing |
| PurchaseOrderRepositories.SaveExtendsQuery | src/repository/PurchaseOrderRepository.ts:7-16 | saving extends a supplier's query by the order exactly when it is theirs |
| SupplierRepositories.SupplierDataSource.constructor | src/loader/InMemorySupplierRepository.ts:8-16 | the data source holds the given list |
| SupplierRepositories.SupplierRepository.constructor | src/repository/SupplierRepository.ts:7-9 | the repository reads through the given data source |
| SupplierRepositories.SupplierRepository.GetById | src/repository/SupplierRepository.ts:15-18 | matching on `id` (the corrected half of a Findings row): none iff no supplier has the id; otherwise the first one that has it |
| SupplierRepositories.SupplierRepository.Update | src/repository/SupplierRepository.ts:20-30 | matching on `id` (the corrected half of a Findings row): an unknown id throws "Cannot update non-existent supplier"; otherwise the first such slot of the data source's own list is overwritten, the rest stays |
| SupplierRepositories.SupplierRepository.UpdateSupplierPrice | src/repository/SupplierRepository.ts:32-39 | through the corrected `GetById`: an unknown id throws "Supplier not found"; otherwise the supplier to reprice is the one found by id |
| SupplierRepositories.UpdateThenGet | src/repository/SupplierRepository.ts:15-30 | with matching on `id`, after an update of a listed id, looking up the id finds the new supplier |
| SupplierRepositories.GetByIdAsWritten | src/repository/SupplierRepository.ts:15-18 | as written, with the missing `getId`: the lookup never finds a supplier; an empty list gives none and any other list throws a TypeError |
| SupplierRepositories.UpdateAsWritten | src/repository/SupplierRepository.ts:20-30 | as written: the update always throws; "Cannot update non-existent supplier" exactly on an empty list, a TypeError otherwise |
| SupplierRepositories.UpdateSupplierPriceAsWritten | src/repository/SupplierRepository.ts:32-39 | as written: always throws, "Supplier not found" exactly on an empty list |
| SupplierRepositories.GetByIdCounterexample | src/repository/SupplierRepository.ts:17 | for a one-supplier list looked up by that supplier's id, the code as written throws while the search by `id` finds position 0 |
| SupplierRepositories.UpdateCounterexample | src/repository/SupplierRepository.ts:22-24 | for a one-supplier list updated with that supplier, the code as written throws while the search by `id` finds the slot |
| InventoryRepositories.ProductDataSource.constructor | src/loader/InMemoryProductDataSource.ts:12-30 | the data source holds the given list |
| InventoryRepositories.InventoryRepository.constructor | src/repository/InventoryRepository.ts:7-9 | the repository reads through the given data source |
| InventoryRepositories.InventoryRepository.GetById | src/repository/InventoryRepository.ts:12-16 | none iff no product has the id; otherwise the first one that has it |
| InventoryRepositories.LookupsShareProduct | src/repository/InventoryRepository.ts:12-16 | two lookups return the same object, so a stock change through one is seen through the other |
| CustomerServices.OrderCreated | src/services/CustomerService.ts:22-29 | the published event: kind CustomerOrderCreated, the order's lines, the customer id and the order id |
| CustomerServices.CustomerService.constructor | src/services/CustomerService.ts:11-14 | no customers; the given bus |
| CustomerServices.CustomerService.PlaceOrder | src/services/CustomerService.ts:16-32 | an unknown customer throws "Customer not found", records and publishes nothing; otherwise the order is appended to that customer's history, every other customer's history and every customer's e-mail and shipping addresses stay, exactly one CustomerOrderCreated event is published with the bus's delivery and outcome, and the registry becomes what the notified handlers' calls make of it |
| CustomerServices.FreshServiceRejects | src/services/CustomerService.ts:11-18 | a new service rejects every order, publishes nothing and leaves the registry as it was |

## Left out

- Logging through `ILogger` and `console.log` is left out everywhere. So are the warnings `subscribe` and `unsubscribe` only log.
- A handler that publishes again from inside `handleEvent` (a nested `publish`) is not modelled. A handler's calls into the bus are limited to subscribe, unsubscribe, unsubscribe from all and clear.
- JavaScript numbers are modelled as unbounded integers. There is no floating point and no overflow; the one place where the code produces a fraction, `applyDiscount`, is described on the line for `Inventory.Product.ApplyDiscount`.
- Getters that return a field without changing anything are left out, and the model reads the field directly: `Product`'s `getId`, `getName`, `getDescription`, `getCategory`, `getBasePrice`, `getCurrentStock` and `getMinimumStockThreshold`; `PurchaseOrder`'s `getId`, `getSupplierId`, `getOrderDate` and `getStatus`; `Address`'s `getStreet`, `getCity`, `getCountry` and `getPostalCode`; both suppliers' `getContactPerson`, `getEmail` and `getAddress`; the draft supplier's `getPhoneNumber`; the draft customer's `getEmail`; and the subscribers' `getName`. The validated customer's `getEmail` and the supplier's `getPhoneNumber` (src/models/Supplier/Supplier.ts) are modelled, as `Customers.Customer.GetEmail` and `Suppliers.Supplier.GetPhoneNumber`.
- `PurchaseOrder.getItems` returns a copy of the lines. It is left out: the lines are a value sequence here, so a copy and the field itself cannot be told apart, and the model reads `items` directly.
- Getters that return the object's own array (`getShippingAddresses`, `getOrderHistory`, `getSuppliers`) are modelled as values. The aliasing they allow is not modelled: a caller could push into the returned array and change the entity.
- Product subclasses (`ConcreteMix`, `Nails`, `NailProduct`) are left out. So are the services that only forward calls (`InventoryService`, `SupplierService`), the CLI, `index.ts`, mock data and the loader fixtures. `Product` is abstract in the code; here it is a class that can be built directly.
- The clock: `CustomerOrder`'s order date defaults to `new Date()` in the code. Here the date is always a parameter.
- Event payloads carry only the fields the core reads: the lines, and the customer and order ids.
- Bus.EventBus.Subscribe: a falsy event type is modelled as `None`. Event kinds form a closed enumeration, so an empty-string kind cannot be expressed.
- Bus.EventBus.GetSubscribers: requires the registry invariant, which every bus method keeps. The code has no such precondition.
- Bus.EventBus.EventTypesCount: requires the registry invariant, which every bus method keeps and which the bound by the total number of subscriptions needs. The code has no such precondition.
- Customers.Customer.constructor: requires a valid address. Construction with an invalid one, which throws, is modelled by `Customers.Customer.Create`.
- Inventory.Product.ApplyDiscount: the discount `basePrice * p / 100` is rounded down, so the stored price is the exact price rounded up (15 at 10% gives 14; the code gives 13.5). The code keeps the fractional price.
- SupplierRepositories.SupplierRepository.GetById: the code calls `supplier.getId()`, which no supplier class defines, and so throws a TypeError on any non-empty list. The model matches on `id` instead. The code as written is `SupplierRepositories.GetByIdAsWritten` (see "## Findings").
- SupplierRepositories.SupplierRepository.Update: the code calls `existing.getId()` and throws a TypeError on any non-empty list before it reaches the update or the "non-existent" error. The model matches on `id` instead. The code as written is `SupplierRepositories.UpdateAsWritten` (see "## Findings").
- SupplierRepositories.UpdateThenGet: states the round trip with matching on `id`. As written, its precondition (a listed id) is exactly the case where `update` throws a TypeError.
- SupplierRepositories.SupplierRepository.UpdateSupplierPrice: as written it goes through the throwing `getById`, so it never gets past the lookup on a non-empty list (`SupplierRepositories.UpdateSupplierPriceAsWritten`). With the corrected lookup the found branch calls `setPrice`, which the supplier class does not define either. The model stops at the supplier that would be repriced.
- CustomerServices.CustomerService.PlaceOrder: the service's customer map is never filled in the code, so only the "Customer not found" path is reachable from a new service. The success path is stated for a map filled by other means.

## Findings

| source | as written | input that shows it | evidently intended | confidence | as-written member | corrected member |
|---|---|---|---|---|---|---|
| src/services/FinancialReportService.ts:28 | the replenishment cost is `item.quantity * item.unitCost`, but order lines have `unitPrice` and no `unitCost`, so the product is NaN | a `StockReplenished` event with one line of 2 units at 5 | the purchase total grows by quantity times `unitPrice` (10 here) | high; not executed | FinancialReports.PurchasesCounterexample | FinancialReports.StepByKind |
| src/repository/SupplierRepository.ts:17 | `getById` searches with `supplier.getId()`, but neither supplier class defines `getId` (they have the field `id`), so the first supplier reached throws a TypeError | a data source holding one supplier `s`, then `getById(s.id)` | the first supplier whose `id` equals the argument, or `undefined` | high; not executed | SupplierRepositories.GetByIdCounterexample | SupplierRepositories.SupplierRepository.GetById |
| src/repository/SupplierRepository.ts:22-24 | `update` searches with `existing.getId()`, which throws a TypeError on any non-empty list, so no supplier is ever updated | a data source holding one supplier `s`, then `update(s)` | the first supplier with the same `id` is replaced, and a later lookup finds the new one | high; not executed | SupplierRepositories.UpdateCounterexample | SupplierRepositories.UpdateThenGet |
