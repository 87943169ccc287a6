/**
 * The older store at the project root (namespace `InvoiceSystem`): the same
 * two lists and queries, but `AddInvoice` appends without any duplicate
 * check, and its seed registers "companyA"/"companyB" while its only invoice
 * names "compA"/"compB".
 */
module LegacyService {
  import opened Wrappers
  import opened Enumerable
  import opened Models
  import opened Queries

  const SeedCompanyA := Company("companyA", "Company A", ["user1"])
  const SeedCompanyB := Company("companyB", "Company B", ["user2"])
  const SeedInvoice1 := Invoice("inv1", "2025-08-21T00:00:00Z", 100, 20, 120, "Service", "compA", "compB")

  class InMemoryDataService {
    var companies: seq<Company>
    var invoices: seq<Invoice>

    constructor ()
      ensures companies == [] && invoices == []
    {
      companies, invoices := [], [];
    }

    method AddCompany(company: Company)
      modifies this
      ensures companies == old(companies) + [company]
      ensures invoices == old(invoices)
    {
      companies := companies + [company];
    }

    /** The first registered company with identifier `id`, or `None`. */
    function GetCompanyById(id: string): (r: Option<Company>)
      reads this
      ensures r.None? <==> forall k :: 0 <= k < |companies| ==> companies[k].id != id
      ensures r.Some? ==> r.value.id == id && exists k :: 0 <= k < |companies| && companies[k] == r.value
                                               && forall j :: 0 <= j < k ==> companies[j].id != id
    {
      FirstOrDefault(companies, (c: Company) => c.id == id)
    }

    /**
     * Appends `invoice` unconditionally. Distinct identifiers survive only
     * when the new identifier is fresh; otherwise the log now holds a
     * duplicate.
     */
    method AddInvoice(invoice: Invoice)
      modifies this
      ensures companies == old(companies)
      ensures invoices == old(invoices) + [invoice]
      ensures DistinctIds(old(invoices)) ==>
                (DistinctIds(invoices) <==> !HasInvoiceId(old(invoices), invoice.invoiceId))
    {
      if DistinctIds(invoices) {
        AppendKeepsDistinct(invoices, invoice);
      }
      invoices := invoices + [invoice];
    }

    /** The invoices this store holds that `companyId` issued, narrowed by the filters. */
    function GetSentInvoices(companyId: string, counterParty: Option<string>,
                             dateIssued: Option<string>, invoiceId: Option<string>): (r: seq<Invoice>)
      reads this
      ensures r == Where(invoices, SentFilter(companyId, counterParty, dateIssued, invoiceId))
      ensures IsSubsequence(r, invoices)
      ensures forall i :: i in r <==> i in invoices && IsSentMatch(i, companyId, counterParty, dateIssued, invoiceId)
    {
      SentInvoicesMatch(invoices, companyId, counterParty, dateIssued, invoiceId);
      WhereIsSubsequence(invoices, SentFilter(companyId, counterParty, dateIssued, invoiceId));
      SentInvoices(invoices, companyId, counterParty, dateIssued, invoiceId)
    }

    /** The invoices billed to `companyId`; the counterparty filter tests the issuer. */
    function GetReceivedInvoices(companyId: string, counterParty: Option<string>,
                                 dateIssued: Option<string>, invoiceId: Option<string>): (r: seq<Invoice>)
      reads this
      ensures r == Where(invoices, ReceivedFilter(companyId, counterParty, dateIssued, invoiceId))
      ensures IsSubsequence(r, invoices)
      ensures forall i :: i in r <==> i in invoices && IsReceivedMatch(i, companyId, counterParty, dateIssued, invoiceId)
    {
      ReceivedInvoicesMatch(invoices, companyId, counterParty, dateIssued, invoiceId);
      WhereIsSubsequence(invoices, ReceivedFilter(companyId, counterParty, dateIssued, invoiceId));
      ReceivedInvoices(invoices, companyId, counterParty, dateIssued, invoiceId)
    }

    /** Registers companyA and companyB and appends inv1, whatever is already stored. */
    method SeedData()
      modifies this
      ensures companies == old(companies) + [SeedCompanyA, SeedCompanyB]
      ensures invoices == old(invoices) + [SeedInvoice1]
    {
      AddCompany(SeedCompanyA);
      AddCompany(SeedCompanyB);
      AddInvoice(SeedInvoice1);
    }
  }

  /**
   * Seeding a fresh legacy store: inv1 is the only invoice and is sent by
   * "compA", yet no registered company is "compA", since invoice company ids
   * are never checked against the company list.
   */
  method SeedFreshStore() returns (sent: seq<Invoice>, issuer: Option<Company>, registered: Option<Company>)
    ensures sent == [SeedInvoice1]
    ensures issuer == None
    ensures registered == Some(SeedCompanyA)
  {
    var service := new InMemoryDataService();
    service.SeedData();
    SentAfterAppend([], SeedInvoice1, "compA", None, None, None);
    sent := service.GetSentInvoices("compA", None, None, None);
    issuer := service.GetCompanyById("compA");
    registered := service.GetCompanyById("companyA");
  }

  /**
   * Seeding a legacy store twice succeeds both times and leaves inv1 in the
   * log twice: duplicate identifiers are possible in this variant.
   */
  method SeedTwiceDuplicates() returns (companies: seq<Company>, log: seq<Invoice>)
    ensures companies == [SeedCompanyA, SeedCompanyB, SeedCompanyA, SeedCompanyB]
    ensures log == [SeedInvoice1, SeedInvoice1]
    ensures !DistinctIds(log)
  {
    var service := new InMemoryDataService();
    service.SeedData();
    service.SeedData();
    companies, log := service.companies, service.invoices;
    assert log[0].invoiceId == log[1].invoiceId;
  }
}
