# Invoice store model

A Dafny model of the in-memory invoicing service of the InvoiceSystem
repository. It covers three pieces of code:

- the invoice store `InvoicingSystem.Services.InMemoryDataService`. It keeps
  two append-only lists, companies and invoices, and rejects a duplicate
  invoice identifier with an `InvalidOperationException`;
- the older store `InvoiceSystem.InMemoryDataService`. Its queries are the
  same, but its `AddInvoice` appends without a check, and it has its own seed;
- the decision logic of `InvoiceController`. `CreateInvoice` runs a fixed
  chain of guards before it calls the store. The two GET actions fall back to
  company `"compA"` when the request carries no identity.

Layout, one module per concern:

- `wrappers.dfy`: `Option` (C#'s `null` is `None`) and `Outcome` (an operation
  that completes, or throws with a message).
- `enumerable.dfy`: the LINQ operators the store uses: `Where`, `Any` and
  `FirstOrDefault`. Also the order-preserving subsequence relation and the
  lemmas that a chain of `Where`s is one `Where` by the conjunction.
- `models.dfy`: the `Invoice` and `Company` records, plus the
  distinct-identifier invariant.
- `queries.dfy`: the sent and received query chains, which both store classes
  share word for word. Each is proved equal to one reference filter, to narrow
  only, and to grow only at the end when the log grows. They are also proved
  dual to each other.
- `services.dfy`: the checked store, as a class with `seq` fields.
- `legacy_service.dfy`: the unchecked store, as a class with the same fields,
  and two scenarios on its seed.
- `controllers.dfy`: the controller. `CreateDecision` specifies the outcome,
  and the `CreateInvoice` method runs the guard chain against the store.
- `controller_tests.dfy`: the repository's xUnit tests as client methods.
  Each postcondition is the test's assertion, proved from the contracts
  above.

Filters are `Option<string>`. `None` is `null` and `Some("")` is the empty
string. Both mean "no constraint", as `string.IsNullOrEmpty` does in the
source. A query returns the snapshot sequence at call time.

Three behaviours of the code that a reader might not expect, all modelled as written:

- Seeding is not idempotent. A second `SeedData` appends both companies
  again. In the checked store it then fails on the duplicate `inv1` and adds
  no invoice. In the legacy store it appends `inv1` a second time.
- An empty company id is never rejected by the queries. A request whose
  identity is the empty string queries for `""`, because the GET actions fall
  back to `"compA"` only for `null`. `CreateInvoice` answers Unauthorized for
  both `null` and `""`.
- Company registration enforces no uniqueness. `GetCompanyById` returns the
  first match.

## Model

| member | source | states |
|---|---|---|
| Enumerable.Where | InvoiceSystem/InvoiceSystem/Services/InMemoryDataService.cs:33 | the result is no longer than the input and holds exactly the input's elements that satisfy the predicate |
| Enumerable.WhereCount | InvoiceSystem/InvoiceSystem/Services/InMemoryDataService.cs:33 | `Where` keeps every copy of a matching element and drops every copy of the others: an element occurs in the result as often as in the input when it matches, and never otherwise |
| Enumerable.Any | InvoiceSystem/InvoiceSystem/Services/InMemoryDataService.cs:23 | true exactly when some element of the list satisfies the predicate |
| Enumerable.FirstOrDefault | InvoiceSystem/InvoiceSystem/Services/InMemoryDataService.cs:17 | None exactly when no element matches; otherwise a matching element at some index before which nothing matches |
| Enumerable.WhereIsSubsequence | InvoiceSystem/InvoiceSystem/Services/InMemoryDataService.cs:33-37 | a `Where` result is an order-preserving subsequence of its input |
| Enumerable.WhereWhere | InvoiceSystem/InvoiceSystem/Services/InMemoryDataService.cs:34-36 | `.Where(p).Where(q)` equals one `Where` by `p && q`, so chained filters combine with AND |
| Models.HasInvoiceIdAfterAppend | InvoiceSystem/InvoiceSystem/Services/InMemoryDataService.cs:23-27 | an identifier is present after an append exactly when it was present before or is the appended invoice's |
| Models.AppendKeepsDistinct | InvoiceSystem/InvoiceSystem/Services/InMemoryDataService.cs:21-28 | appending to a log of distinct identifiers keeps them distinct if and only if the new identifier is absent |
| Queries.SentInvoicesMatch | InvoiceSystem/InvoiceSystem/Services/InMemoryDataService.cs:31-38 | the sent chain equals one filter by: issuer is the company, and each non-empty filter matches counterparty, date and id exactly; membership is exactly that conjunction |
| Queries.ReceivedInvoicesMatch | InvoiceSystem/InvoiceSystem/Services/InMemoryDataService.cs:41-48 | the received chain equals one filter by: counterparty is the company, and the counterparty filter matches the ISSUER field, with date and id matching exactly |
| Queries.SentFiltersOnlyNarrow | InvoiceSystem/InvoiceSystem/Services/InMemoryDataService.cs:33-37 | a filtered sent result is a subsequence of the unfiltered one, which is a subsequence of the whole log |
| Queries.ReceivedFiltersOnlyNarrow | InvoiceSystem/InvoiceSystem/Services/InMemoryDataService.cs:43-47 | a filtered received result is a subsequence of the unfiltered one, which is a subsequence of the whole log |
| Queries.SentAfterAppend | InvoiceSystem/InvoiceSystem/Services/InMemoryDataService.cs:27-37 | after an append, a sent query is the old result followed by the new invoice exactly when it matches |
| Queries.ReceivedAfterAppend | InvoiceSystem/InvoiceSystem/Services/InMemoryDataService.cs:41-48 | after an append, a received query is the old result followed by the new invoice exactly when it matches |
| Queries.ReceivedFromIsSentTo | InvoiceSystem/InvoiceSystem/Services/InMemoryDataService.cs:31-48 | what a company received from a given sender equals, in order, what that sender sent to the company (both ids non-empty) |
| Services.DuplicateMessageSaysAlreadyExists | InvoiceSystem/InvoiceSystem/Services/InMemoryDataService.cs:25 | the duplicate exception message contains "already exists" and the offending identifier |
| Services.InMemoryDataService.constructor | InvoiceSystem/InvoiceSystem/Services/InMemoryDataService.cs:7-8 | a new store has no companies and no invoices |
| Services.InMemoryDataService.AddCompany | InvoiceSystem/InvoiceSystem/Services/InMemoryDataService.cs:10-13 | appends the company and leaves the invoices alone |
| Services.InMemoryDataService.GetCompanyById | InvoiceSystem/InvoiceSystem/Services/InMemoryDataService.cs:15-18 | the first registered company with that id, or None when there is none |
| Services.InMemoryDataService.AddInvoice | InvoiceSystem/InvoiceSystem/Services/InMemoryDataService.cs:21-28 | a stored id fails with the duplicate message and changes nothing; otherwise appends exactly the invoice; companies untouched; distinct ids preserved |
| Services.InMemoryDataService.GetSentInvoices | InvoiceSystem/InvoiceSystem/Services/InMemoryDataService.cs:31-38 | equals one `Where` over the stored invoices by the reference sent filter, so every copy of a matching invoice is kept in order; a subsequence of the stored invoices holding exactly those issued by the company that pass each non-empty filter |
| Services.InMemoryDataService.GetReceivedInvoices | InvoiceSystem/InvoiceSystem/Services/InMemoryDataService.cs:41-48 | equals one `Where` over the stored invoices by the reference received filter, so every copy of a matching invoice is kept in order; a subsequence holding exactly those billed to the company whose issuer, date and id pass the filters |
| Services.InMemoryDataService.SeedData | InvoiceSystem/InvoiceSystem/Services/InMemoryDataService.cs:51-80 | appends compA and compB, then inv1 and inv2; a stored inv1 (or inv2) aborts with its duplicate failure at that point; distinct ids preserved |
| LegacyService.InMemoryDataService.constructor | InvoiceSystem/InvoiceSystem/InMemoryDataService.cs:8-9 | a new store has no companies and no invoices |
| LegacyService.InMemoryDataService.AddCompany | InvoiceSystem/InvoiceSystem/InMemoryDataService.cs:11 | appends the company and leaves the invoices alone |
| LegacyService.InMemoryDataService.GetCompanyById | InvoiceSystem/InvoiceSystem/InMemoryDataService.cs:12 | the first registered company with that id, or None |
| LegacyService.InMemoryDataService.AddInvoice | InvoiceSystem/InvoiceSystem/InMemoryDataService.cs:14 | always appends exactly the invoice; distinct ids survive if and only if its id was absent |
| LegacyService.InMemoryDataService.GetSentInvoices | InvoiceSystem/InvoiceSystem/InMemoryDataService.cs:16-23 | the same sent query: one `Where` by the reference sent filter, so an invoice stored twice is returned twice; a subsequence of the log holding exactly the matching invoices |
| LegacyService.InMemoryDataService.GetReceivedInvoices | InvoiceSystem/InvoiceSystem/InMemoryDataService.cs:25-32 | the same received query: one `Where` by the reference received filter, whose counterparty filter tests the issuer, keeping repeated copies |
| LegacyService.InMemoryDataService.SeedData | InvoiceSystem/InvoiceSystem/InMemoryDataService.cs:34-42 | appends companyA and companyB and then inv1, whatever is already stored |
| LegacyService.SeedFreshStore | InvoiceSystem/InvoiceSystem/InMemoryDataService.cs:34-42 | on a fresh store, compA's sent list is [inv1] while no company "compA" is registered, only "companyA" |
| LegacyService.SeedTwiceDuplicates | InvoiceSystem/InvoiceSystem/InMemoryDataService.cs:14-42 | seeding twice stores both companies twice and inv1 twice, so the ids are not distinct |
| Controllers.CreateDecision | InvoiceSystem/InvoiceSystem/Controllers/InvoiceController.cs:20-37 | Unauthorized iff the identity is null or empty; "Invalid invoice data" iff identity present and id empty, issuer empty or issuer not the caller; Created at "/invoice/" + id iff valid and id not stored; otherwise the store's duplicate message |
| Controllers.CompanyIdOrDefault | InvoiceSystem/InvoiceSystem/Controllers/InvoiceController.cs:43 | a null identity becomes "compA"; any other identity, even "", is used as is |
| Controllers.InvoiceController.constructor | InvoiceSystem/InvoiceSystem/Controllers/InvoiceController.cs:13-16 | the controller uses the given store |
| Controllers.InvoiceController.CreateInvoice | InvoiceSystem/InvoiceSystem/Controllers/InvoiceController.cs:20-37 | answers `CreateDecision` on the store before the call; only Created changes the store, by appending the invoice; companies never change |
| Controllers.InvoiceController.GetSentInvoices | InvoiceSystem/InvoiceSystem/Controllers/InvoiceController.cs:41-46 | Ok with the store's sent query for the identity, or for "compA" when it is null |
| Controllers.InvoiceController.GetReceivedInvoices | InvoiceSystem/InvoiceSystem/Controllers/InvoiceController.cs:50-55 | Ok with the store's received query for the identity, or for "compA" when it is null |
| Controllers.CreatedIsLastSent | InvoiceSystem/InvoiceSystem/Controllers/InvoiceController.cs:30-31 | a created invoice becomes the last entry of the caller's unfiltered sent list, after everything listed before |
| Controllers.CreateKeepsDistinct | InvoiceSystem/InvoiceSystem/Controllers/InvoiceController.cs:20-37 | whatever CreateInvoice answers, distinct ids stay distinct |
| ControllerTests.SetUp | InvoiceSystem/InvoicingSystem.Test/InvoiceControllerTests.cs:15-23 | the fixture: a fresh checked store seeded once holds companies [compA, compB] and invoices [inv1, inv2], behind a controller that uses that store |
| ControllerTests.CreateInvoiceValidDataReturnsCreated | InvoiceSystem/InvoicingSystem.Test/InvoiceControllerTests.cs:26-49 | a valid post is Created at "/invoice/test" and "test" is then among compA's sent invoices |
| ControllerTests.CreateInvoiceDuplicateInvoiceIdReturnsBadRequest | InvoiceSystem/InvoicingSystem.Test/InvoiceControllerTests.cs:52-72 | re-posting inv1 is BadRequest with a message containing "already exists", and the log is unchanged |
| ControllerTests.CreateInvoiceUnauthorizedReturnsUnauthorized | InvoiceSystem/InvoicingSystem.Test/InvoiceControllerTests.cs:75-94 | with no identity the answer is Unauthorized and the log is unchanged |
| ControllerTests.CreateInvoiceInvalidInvoiceDataReturnsBadRequest | InvoiceSystem/InvoicingSystem.Test/InvoiceControllerTests.cs:97-117 | an empty id is BadRequest("Invalid invoice data") and the log is unchanged |
| ControllerTests.GetSentInvoicesAuthenticatedWithFiltersReturnsFilteredInvoices | InvoiceSystem/InvoicingSystem.Test/InvoiceControllerTests.cs:120-135 | compB, the 21 August date and inv1 as filters give exactly [inv1] |
| ControllerTests.GetSentInvoicesUnauthenticatedReturnsDefaultCompanyInvoices | InvoiceSystem/InvoicingSystem.Test/InvoiceControllerTests.cs:138-149 | with no identity the sent list is compA's: [inv1] |
| ControllerTests.GetSentInvoicesPartialFilterByCounterPartyReturnsFilteredInvoices | InvoiceSystem/InvoicingSystem.Test/InvoiceControllerTests.cs:152-176 | after adding inv5 to compC, filtering on compB gives [inv1] |
| ControllerTests.GetSentInvoicesPartialFilterByDateIssuedReturnsFilteredInvoices | InvoiceSystem/InvoicingSystem.Test/InvoiceControllerTests.cs:179-203 | after adding inv4 dated the 23rd, filtering on the 21st gives [inv1] |
| ControllerTests.GetSentInvoicesNoFiltersReturnsAllSentInvoices | InvoiceSystem/InvoicingSystem.Test/InvoiceControllerTests.cs:206-230 | after adding inv3, the unfiltered list is [inv1, inv3] in insertion order |
| ControllerTests.GetSentInvoicesInvalidFilterReturnsEmptyList | InvoiceSystem/InvoicingSystem.Test/InvoiceControllerTests.cs:233-244 | an id filter that matches nothing gives Ok([]) |
| ControllerTests.GetReceivedInvoicesAuthenticatedWithFiltersReturnsFilteredInvoices | InvoiceSystem/InvoicingSystem.Test/InvoiceControllerTests.cs:247-262 | compB's received list filtered on counterparty compA (the issuer), date and id is [inv1] |
| ControllerTests.GetReceivedInvoicesUnauthenticatedReturnsDefaultCompanyInvoices | InvoiceSystem/InvoicingSystem.Test/InvoiceControllerTests.cs:265-276 | with no identity the received list is compA's: [inv2] |
| ControllerTests.SeedTwiceFailsOnInv1 | InvoiceSystem/InvoiceSystem/Services/InMemoryDataService.cs:51-80 | a second seed appends both companies again, then fails on inv1 and leaves the invoices [inv1, inv2] |

## Left out

- `Middleware/AuthMiddleware.cs` is not part of this model. Its bearer-token check is asynchronous HTTP work. The identity it resolves is a parameter of the controller actions: `Some(id)` or `None`.
- `Program.cs` is not part of this model. It registers the legacy `InvoiceSystem.InMemoryDataService` as a singleton and calls its `SeedData` once at startup (InvoiceSystem/InvoiceSystem/Program.cs:5, :13). It never registers `IDataService`, which the controller's constructor asks for, so the application as wired does not connect the controller to any store. The controller is modelled over the checked store, as the tests wire it (InvoiceSystem/InvoicingSystem.Test/InvoiceControllerTests.cs:17-18), not as the application does.
- `Services/IDataService.cs` is not modelled separately. It is an interface, and the checked store class carries all of its signatures.
- Net, VAT and total amounts are single-precision floats in the source. They are carried as opaque integers, and no float arithmetic and no net + VAT = total relation is modelled.
- LINQ deferred execution is not modelled. A query is the snapshot sequence at call time, whereas the source returns a lazy enumerable that would see later appends.
- Concurrency is not modelled. The singleton the application registers is the legacy store, whose `AddInvoice` has no check; parallel appends to its `List<Invoice>` are outside a sequential model. The checked store, with its check-then-append, is not shared by any request pipeline in the repository.
- ASP.NET result objects, `HttpContext` and JSON binding are not modelled. `ActionResult` carries only the kind of answer (401, 400, 201 or 200) with its message, location or invoice list.
- `Company.Users` is carried as a sequence but no operation reads it.
- Aliasing of the records is not modelled. `Invoice` and `Company` are mutable classes with public setters (InvoiceSystem/InvoiceSystem/Models/Invoice.cs:5-12, InvoiceSystem/InvoiceSystem/Models/Company.cs:5-7), and both stores keep the caller's object. A caller that changed an invoice after `AddInvoice` would change the stored entry, and could give two stored invoices the same id, breaking the distinct-identifier invariant. The model stores immutable values. No code in the repository mutates an invoice after storing it.
- Invoice string fields are modelled as never null, as the source declares them (`required string` or a default of `""`). A null `InvoiceId` from a request body is therefore not represented.
