/**
 * The controller's unit tests as client methods: each builds a seeded store
 * and a controller, performs the test's action, and its postcondition is
 * the test's assertion, proved from the contracts of the store and the
 * controller alone.
 */
module ControllerTests {
  import opened Wrappers
  import opened Models
  import opened Queries
  import opened Services
  import opened Controllers

  const Date21 := "2025-08-21T00:00:00Z"
  const Date23 := "2025-08-23T00:00:00Z"

  /** A sent query over a log of two invoices, decided invoice by invoice. */
  lemma SentOfTwo(a: Invoice, b: Invoice, companyId: string,
                  counterParty: Option<string>, dateIssued: Option<string>, invoiceId: Option<string>)
    ensures SentInvoices([a, b], companyId, counterParty, dateIssued, invoiceId)
         == (if IsSentMatch(a, companyId, counterParty, dateIssued, invoiceId) then [a] else [])
            + (if IsSentMatch(b, companyId, counterParty, dateIssued, invoiceId) then [b] else [])
  {
    var empty: seq<Invoice> := [];
    assert SentInvoices(empty, companyId, counterParty, dateIssued, invoiceId) == [];
    SentAfterAppend(empty, a, companyId, counterParty, dateIssued, invoiceId);
    assert empty + [a] == [a];
    SentAfterAppend([a], b, companyId, counterParty, dateIssued, invoiceId);
    assert [a] + [b] == [a, b];
  }

  /** A sent query over a log of three invoices, decided invoice by invoice. */
  lemma SentOfThree(a: Invoice, b: Invoice, c: Invoice, companyId: string,
                    counterParty: Option<string>, dateIssued: Option<string>, invoiceId: Option<string>)
    ensures SentInvoices([a, b, c], companyId, counterParty, dateIssued, invoiceId)
         == (if IsSentMatch(a, companyId, counterParty, dateIssued, invoiceId) then [a] else [])
            + (if IsSentMatch(b, companyId, counterParty, dateIssued, invoiceId) then [b] else [])
            + (if IsSentMatch(c, companyId, counterParty, dateIssued, invoiceId) then [c] else [])
  {
    assert [a, b, c] == [a, b] + [c];
    SentOfTwo(a, b, companyId, counterParty, dateIssued, invoiceId);
    SentAfterAppend([a, b], c, companyId, counterParty, dateIssued, invoiceId);
  }

  /** A received query over a log of two invoices, decided invoice by invoice. */
  lemma ReceivedOfTwo(a: Invoice, b: Invoice, companyId: string,
                      counterParty: Option<string>, dateIssued: Option<string>, invoiceId: Option<string>)
    ensures ReceivedInvoices([a, b], companyId, counterParty, dateIssued, invoiceId)
         == (if IsReceivedMatch(a, companyId, counterParty, dateIssued, invoiceId) then [a] else [])
            + (if IsReceivedMatch(b, companyId, counterParty, dateIssued, invoiceId) then [b] else [])
  {
    var empty: seq<Invoice> := [];
    assert ReceivedInvoices(empty, companyId, counterParty, dateIssued, invoiceId) == [];
    ReceivedAfterAppend(empty, a, companyId, counterParty, dateIssued, invoiceId);
    assert empty + [a] == [a];
    ReceivedAfterAppend([a], b, companyId, counterParty, dateIssued, invoiceId);
    assert [a] + [b] == [a, b];
  }

  /** The seeded log holds no identifier other than inv1 and inv2. */
  lemma SeedLogLacks(id: string)
    requires id != "inv1" && id != "inv2"
    ensures !HasInvoiceId([SeedInvoice1, SeedInvoice2], id)
  {
    var empty: seq<Invoice> := [];
    HasInvoiceIdAfterAppend(empty, SeedInvoice1, id);
    assert empty + [SeedInvoice1] == [SeedInvoice1];
    HasInvoiceIdAfterAppend([SeedInvoice1], SeedInvoice2, id);
    assert [SeedInvoice1] + [SeedInvoice2] == [SeedInvoice1, SeedInvoice2];
  }

  /** The test fixture: a fresh store seeded once, behind a controller. */
  method SetUp() returns (service: InMemoryDataService, controller: InvoiceController)
    ensures fresh(service) && fresh(controller)
    ensures controller.dataService == service
    ensures service.companies == [SeedCompanyA, SeedCompanyB]
    ensures service.invoices == [SeedInvoice1, SeedInvoice2]
  {
    service := new InMemoryDataService();
    controller := new InvoiceController(service);
    var _ := service.SeedData();
  }

  /** A valid invoice from the caller is created at "/invoice/test" and is then among its sent invoices. */
  method CreateInvoiceValidDataReturnsCreated() returns (r: ActionResult, sent: seq<Invoice>)
    ensures r == Created("/invoice/test", Invoice("test", Date21, 100, 20, 120, "Test", "compA", "compB"))
    ensures HasInvoiceId(sent, "test")
  {
    var service, controller := SetUp();
    var invoice := Invoice("test", Date21, 100, 20, 120, "Test", "compA", "compB");
    r := controller.CreateInvoice(Some("compA"), invoice);
    sent := service.GetSentInvoices("compA", None, None, None);
    assert sent[|sent| - 1] == invoice;
  }

  /** Re-posting "inv1" is a bad request whose message says it already exists; the log is unchanged. */
  method CreateInvoiceDuplicateInvoiceIdReturnsBadRequest() returns (r: ActionResult, log: seq<Invoice>)
    ensures r.BadRequest? && Contains(r.message, "already exists")
    ensures log == [SeedInvoice1, SeedInvoice2]
  {
    var service, controller := SetUp();
    r := controller.CreateInvoice(Some("compA"), Invoice("inv1", Date21, 100, 20, 120, "Duplicate Test", "compA", "compB"));
    assert HasInvoiceId(service.invoices, "inv1") by { assert service.invoices[0].invoiceId == "inv1"; }
    DuplicateMessageSaysAlreadyExists("inv1");
    log := service.invoices;
  }

  /** Without an identity the answer is Unauthorized and nothing is stored. */
  method CreateInvoiceUnauthorizedReturnsUnauthorized() returns (r: ActionResult, log: seq<Invoice>)
    ensures r == Unauthorized
    ensures log == [SeedInvoice1, SeedInvoice2]
  {
    var service, controller := SetUp();
    r := controller.CreateInvoice(None, Invoice("test", Date21, 100, 20, 120, "Test", "compA", "compB"));
    log := service.invoices;
  }

  /** An empty invoice identifier is rejected as invalid data before the store is consulted. */
  method CreateInvoiceInvalidInvoiceDataReturnsBadRequest() returns (r: ActionResult, log: seq<Invoice>)
    ensures r == BadRequest("Invalid invoice data")
    ensures log == [SeedInvoice1, SeedInvoice2]
  {
    var service, controller := SetUp();
    r := controller.CreateInvoice(Some("compA"), Invoice("", Date21, 100, 20, 120, "Test", "compA", "compB"));
    log := service.invoices;
  }

  /** All three filters matching inv1 select exactly inv1. */
  method GetSentInvoicesAuthenticatedWithFiltersReturnsFilteredInvoices() returns (r: ActionResult)
    ensures r == Ok([SeedInvoice1])
  {
    var _, controller := SetUp();
    SentOfTwo(SeedInvoice1, SeedInvoice2, "compA", Some("compB"), Some(Date21), Some("inv1"));
    r := controller.GetSentInvoices(Some("compA"), Some("compB"), Some(Date21), Some("inv1"));
  }

  /** With no identity the sent query runs for "compA". */
  method GetSentInvoicesUnauthenticatedReturnsDefaultCompanyInvoices() returns (r: ActionResult)
    ensures r == Ok([SeedInvoice1])
  {
    var _, controller := SetUp();
    SentOfTwo(SeedInvoice1, SeedInvoice2, "compA", None, None, None);
    r := controller.GetSentInvoices(None, None, None, None);
  }

  /** The counterparty filter drops compA's invoice to compC. */
  method GetSentInvoicesPartialFilterByCounterPartyReturnsFilteredInvoices() returns (r: ActionResult)
    ensures r == Ok([SeedInvoice1])
  {
    var service, controller := SetUp();
    var inv5 := Invoice("inv5", Date23, 500, 100, 600, "Test5", "compA", "compC");
    SeedLogLacks("inv5");
    var _ := service.AddInvoice(inv5);
    assert service.invoices == [SeedInvoice1, SeedInvoice2, inv5];
    SentOfThree(SeedInvoice1, SeedInvoice2, inv5, "compA", Some("compB"), None, None);
    assert !IsSentMatch(inv5, "compA", Some("compB"), None, None);
    assert SentInvoices(service.invoices, "compA", Some("compB"), None, None) == [SeedInvoice1];
    r := controller.GetSentInvoices(Some("compA"), Some("compB"), None, None);
  }

  /** The date filter drops compA's invoice of another day. */
  method GetSentInvoicesPartialFilterByDateIssuedReturnsFilteredInvoices() returns (r: ActionResult)
    ensures r == Ok([SeedInvoice1])
  {
    var service, controller := SetUp();
    var inv4 := Invoice("inv4", Date23, 400, 80, 480, "Test4", "compA", "compB");
    SeedLogLacks("inv4");
    var _ := service.AddInvoice(inv4);
    assert service.invoices == [SeedInvoice1, SeedInvoice2, inv4];
    SentOfThree(SeedInvoice1, SeedInvoice2, inv4, "compA", None, Some(Date21), None);
    assert !IsSentMatch(inv4, "compA", None, Some(Date21), None);
    assert SentInvoices(service.invoices, "compA", None, Some(Date21), None) == [SeedInvoice1];
    r := controller.GetSentInvoices(Some("compA"), None, Some(Date21), None);
  }

  /** Without filters all of compA's invoices come back, in insertion order. */
  method GetSentInvoicesNoFiltersReturnsAllSentInvoices() returns (r: ActionResult)
    ensures r == Ok([SeedInvoice1, Invoice("inv3", Date23, 300, 60, 360, "Test3", "compA", "compB")])
  {
    var service, controller := SetUp();
    var inv3 := Invoice("inv3", Date23, 300, 60, 360, "Test3", "compA", "compB");
    SeedLogLacks("inv3");
    var _ := service.AddInvoice(inv3);
    assert service.invoices == [SeedInvoice1, SeedInvoice2, inv3];
    SentOfThree(SeedInvoice1, SeedInvoice2, inv3, "compA", None, None, None);
    assert !IsSentMatch(SeedInvoice2, "compA", None, None, None);
    assert SentInvoices(service.invoices, "compA", None, None, None) == [SeedInvoice1, inv3];
    r := controller.GetSentInvoices(Some("compA"), None, None, None);
  }

  /** An identifier filter that matches nothing gives an empty list, not an error. */
  method GetSentInvoicesInvalidFilterReturnsEmptyList() returns (r: ActionResult)
    ensures r == Ok([])
  {
    var _, controller := SetUp();
    SentOfTwo(SeedInvoice1, SeedInvoice2, "compA", None, None, Some("nonexistent"));
    r := controller.GetSentInvoices(Some("compA"), None, None, Some("nonexistent"));
  }

  /** compB receives inv1 from compA: the counterparty filter names the issuer. */
  method GetReceivedInvoicesAuthenticatedWithFiltersReturnsFilteredInvoices() returns (r: ActionResult)
    ensures r == Ok([SeedInvoice1])
  {
    var _, controller := SetUp();
    ReceivedOfTwo(SeedInvoice1, SeedInvoice2, "compB", Some("compA"), Some(Date21), Some("inv1"));
    r := controller.GetReceivedInvoices(Some("compB"), Some("compA"), Some(Date21), Some("inv1"));
  }

  /** With no identity the received query runs for "compA", which received inv2. */
  method GetReceivedInvoicesUnauthenticatedReturnsDefaultCompanyInvoices() returns (r: ActionResult)
    ensures r == Ok([SeedInvoice2])
  {
    var _, controller := SetUp();
    ReceivedOfTwo(SeedInvoice1, SeedInvoice2, "compA", None, None, None);
    r := controller.GetReceivedInvoices(None, None, None, None);
  }

  /**
   * Seeding the store a second time appends both companies again, then
   * fails on inv1 without adding any invoice.
   */
  method SeedTwiceFailsOnInv1() returns (outcome: Outcome, companies: seq<Company>, log: seq<Invoice>)
    ensures outcome == Fail(DuplicateMessage("inv1"))
    ensures companies == [SeedCompanyA, SeedCompanyB, SeedCompanyA, SeedCompanyB]
    ensures log == [SeedInvoice1, SeedInvoice2]
  {
    var service, _ := SetUp();
    assert HasInvoiceId(service.invoices, "inv1") by { assert service.invoices[0].invoiceId == "inv1"; }
    outcome := service.SeedData();
    companies, log := service.companies, service.invoices;
  }
}
