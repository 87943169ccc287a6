/**
 * The invoice controller: the guard chain in front of `AddInvoice`, and the
 * two query actions with their default company.
 */
module Controllers {
  import opened Wrappers
  import opened Models
  import opened Queries
  import opened Services

  /** The action results the controller produces, without their HTTP wrapping. */
  datatype ActionResult =
    | Unauthorized
    | BadRequest(message: string)
    | Created(location: string, value: Invoice)
    | Ok(invoices: seq<Invoice>)

  const InvalidInvoiceData := "Invalid invoice data"

  /** The company the query actions use when the request carries no identity. */
  const DefaultCompanyId := "compA"

  /** The caller-side validation: identifier and issuer present, issuer is the caller. */
  predicate IsValidFor(invoice: Invoice, companyId: string) {
    invoice.invoiceId != "" && invoice.companyId != "" && invoice.companyId == companyId
  }

  /**
   * What `CreateInvoice` answers for a resolved identity (or `None`), an
   * invoice, and the invoices stored at the time: the checks run in a fixed
   * order, and the last one is the store's duplicate check.
   */
  function CreateDecision(identity: Option<string>, invoice: Invoice, stored: seq<Invoice>): (r: ActionResult)
    ensures r.Unauthorized? <==> IsNullOrEmpty(identity)
    ensures r == BadRequest(InvalidInvoiceData) <==> (!IsNullOrEmpty(identity) && !IsValidFor(invoice, identity.value))
    ensures r.Created? <==>
              (!IsNullOrEmpty(identity) && IsValidFor(invoice, identity.value) && !HasInvoiceId(stored, invoice.invoiceId))
    ensures r.Created? ==> r == Created("/invoice/" + invoice.invoiceId, invoice)
    ensures r.BadRequest? && r.message != InvalidInvoiceData ==>
              HasInvoiceId(stored, invoice.invoiceId) && r.message == DuplicateMessage(invoice.invoiceId)
    ensures !r.Ok?
  {
    if IsNullOrEmpty(identity) then Unauthorized
    else if !IsValidFor(invoice, identity.value) then BadRequest(InvalidInvoiceData)
    else if HasInvoiceId(stored, invoice.invoiceId) then
      assert |DuplicateMessage(invoice.invoiceId)| > |InvalidInvoiceData|;
      BadRequest(DuplicateMessage(invoice.invoiceId))
    else Created("/invoice/" + invoice.invoiceId, invoice)
  }

  /** `HttpContext.Items["CompanyId"]?.ToString() ?? "compA"`: only a null identity falls back. */
  function CompanyIdOrDefault(identity: Option<string>): (companyId: string)
    ensures identity.None? ==> companyId == DefaultCompanyId
    ensures identity.Some? ==> companyId == identity.value
  {
    match identity
    case None => DefaultCompanyId
    case Some(id) => id
  }

  class InvoiceController {
    const dataService: InMemoryDataService

    constructor (dataService: InMemoryDataService)
      ensures this.dataService == dataService
    {
      this.dataService := dataService;
    }

    /**
     * `POST /invoice`. Only the `Created` answer touches the store, and it
     * appends exactly the posted invoice; every rejection leaves both lists
     * as they were.
     */
    method CreateInvoice(identity: Option<string>, invoice: Invoice) returns (r: ActionResult)
      modifies dataService
      ensures r == CreateDecision(identity, invoice, old(dataService.invoices))
      ensures dataService.companies == old(dataService.companies)
      ensures dataService.invoices == if r.Created? then old(dataService.invoices) + [invoice] else old(dataService.invoices)
    {
      if IsNullOrEmpty(identity) {
        return Unauthorized;
      }
      var companyId := identity.value;
      if invoice.invoiceId == "" || invoice.companyId == "" || invoice.companyId != companyId {
        return BadRequest(InvalidInvoiceData);
      }
      var outcome := dataService.AddInvoice(invoice);
      match outcome
      case Pass =>
        r := Created("/invoice/" + invoice.invoiceId, invoice);
      case Fail(message) =>
        r := BadRequest(message);
    }

    /** `GET /invoice/sent`: the store's sent query for the caller, or for "compA" without identity. */
    function GetSentInvoices(identity: Option<string>, counterPartyCompany: Option<string>,
                             dateIssued: Option<string>, invoiceId: Option<string>): (r: ActionResult)
      reads dataService
      ensures r.Ok?
      ensures identity.None? ==>
                r.invoices == SentInvoices(dataService.invoices, DefaultCompanyId, counterPartyCompany, dateIssued, invoiceId)
      ensures identity.Some? ==>
                r.invoices == SentInvoices(dataService.invoices, identity.value, counterPartyCompany, dateIssued, invoiceId)
    {
      Ok(dataService.GetSentInvoices(CompanyIdOrDefault(identity), counterPartyCompany, dateIssued, invoiceId))
    }

    /** `GET /invoice/received`: the store's received query for the caller, or for "compA". */
    function GetReceivedInvoices(identity: Option<string>, counterPartyCompany: Option<string>,
                                 dateIssued: Option<string>, invoiceId: Option<string>): (r: ActionResult)
      reads dataService
      ensures r.Ok?
      ensures identity.None? ==>
                r.invoices == ReceivedInvoices(dataService.invoices, DefaultCompanyId, counterPartyCompany, dateIssued, invoiceId)
      ensures identity.Some? ==>
                r.invoices == ReceivedInvoices(dataService.invoices, identity.value, counterPartyCompany, dateIssued, invoiceId)
    {
      Ok(dataService.GetReceivedInvoices(CompanyIdOrDefault(identity), counterPartyCompany, dateIssued, invoiceId))
    }
  }

  /**
   * A created invoice is what its issuer next sees: it is appended at the
   * end of the caller's unfiltered sent list, after everything listed before.
   */
  lemma CreatedIsLastSent(identity: Option<string>, invoice: Invoice, stored: seq<Invoice>)
    requires CreateDecision(identity, invoice, stored).Created?
    ensures SentInvoices(stored + [invoice], identity.value, None, None, None)
         == SentInvoices(stored, identity.value, None, None, None) + [invoice]
  {
    SentAfterAppend(stored, invoice, identity.value, None, None, None);
  }

  /**
   * A store that started with distinct identifiers keeps them through any
   * `CreateInvoice`, whatever its answer.
   */
  lemma CreateKeepsDistinct(identity: Option<string>, invoice: Invoice, stored: seq<Invoice>)
    requires DistinctIds(stored)
    ensures DistinctIds(if CreateDecision(identity, invoice, stored).Created? then stored + [invoice] else stored)
  {
    if CreateDecision(identity, invoice, stored).Created? {
      AppendKeepsDistinct(stored, invoice);
    }
  }
}
