/**
 * The in-memory store behind the controller: two append-only lists, with a
 * duplicate check on invoice identifiers.
 */
module Services {
  import opened Wrappers
  import opened Enumerable
  import opened Models
  import opened Queries

  /** The message of the exception `AddInvoice` throws for a duplicate identifier. */
  function DuplicateMessage(invoiceId: string): (message: string) {
    "Invoice with ID '" + invoiceId + "' already exists."
  }

  /** `t` occurs in `s` starting at index `k`. */
  predicate OccursAt(s: string, t: string, k: nat) {
    k + |t| <= |s| && s[k..k + |t|] == t
  }

  /** `t` occurs in `s` as a contiguous piece (C#'s `string.Contains`). */
  ghost predicate Contains(s: string, t: string) {
    exists k: nat :: OccursAt(s, t, k)
  }

  /** The duplicate message names the identifier and says it "already exists". */
  lemma DuplicateMessageSaysAlreadyExists(invoiceId: string)
    ensures Contains(DuplicateMessage(invoiceId), "already exists")
    ensures Contains(DuplicateMessage(invoiceId), invoiceId)
  {
    var m := DuplicateMessage(invoiceId);
    var k := |"Invoice with ID '"| + |invoiceId| + |"' "|;
    assert OccursAt(m, "already exists", k);
    assert OccursAt(m, invoiceId, 17);
  }

  const SeedCompanyA := Company("compA", "Company A", ["user1"])
  const SeedCompanyB := Company("compB", "Company B", ["user2"])
  const SeedInvoice1 := Invoice("inv1", "2025-08-21T00:00:00Z", 100, 20, 120, "Service", "compA", "compB")
  const SeedInvoice2 := Invoice("inv2", "2025-08-22T00:00:00Z", 200, 40, 240, "Service from compB", "compB", "compA")

  class InMemoryDataService {
    var companies: seq<Company>
    var invoices: seq<Invoice>

    constructor ()
      ensures companies == [] && invoices == []
    {
      companies, invoices := [], [];
    }

    method AddCompany(company: Company)
      modifies this
      ensures companies == old(companies) + [company]
      ensures invoices == old(invoices)
    {
      companies := companies + [company];
    }

    /** The first registered company with identifier `id`, or `None`. */
    function GetCompanyById(id: string): (r: Option<Company>)
      reads this
      ensures r.None? <==> forall k :: 0 <= k < |companies| ==> companies[k].id != id
      ensures r.Some? ==> r.value.id == id && exists k :: 0 <= k < |companies| && companies[k] == r.value
                                               && forall j :: 0 <= j < k ==> companies[j].id != id
    {
      FirstOrDefault(companies, (c: Company) => c.id == id)
    }

    /**
     * Appends `invoice` unless its identifier is already stored, in which
     * case it fails with the duplicate message and changes nothing.
     */
    method AddInvoice(invoice: Invoice) returns (outcome: Outcome)
      modifies this
      ensures companies == old(companies)
      ensures HasInvoiceId(old(invoices), invoice.invoiceId) ==>
                outcome == Fail(DuplicateMessage(invoice.invoiceId)) && invoices == old(invoices)
      ensures !HasInvoiceId(old(invoices), invoice.invoiceId) ==>
                outcome == Pass && invoices == old(invoices) + [invoice]
      ensures DistinctIds(old(invoices)) ==> DistinctIds(invoices)
    {
      if Any(invoices, (i: Invoice) => i.invoiceId == invoice.invoiceId) {
        return Fail(DuplicateMessage(invoice.invoiceId));
      }
      if DistinctIds(invoices) {
        AppendKeepsDistinct(invoices, invoice);
      }
      invoices := invoices + [invoice];
      outcome := Pass;
    }

    /** The invoices this store holds that `companyId` issued, narrowed by the filters. */
    function GetSentInvoices(companyId: string, counterParty: Option<string>,
                             dateIssued: Option<string>, invoiceId: Option<string>): (r: seq<Invoice>)
      reads this
      ensures r == Where(invoices, SentFilter(companyId, counterParty, dateIssued, invoiceId))
      ensures IsSubsequence(r, invoices)
      ensures forall i :: i in r <==> i in invoices && IsSentMatch(i, companyId, counterParty, dateIssued, invoiceId)
    {
      SentInvoicesMatch(invoices, companyId, counterParty, dateIssued, invoiceId);
      WhereIsSubsequence(invoices, SentFilter(companyId, counterParty, dateIssued, invoiceId));
      SentInvoices(invoices, companyId, counterParty, dateIssued, invoiceId)
    }

    /** The invoices billed to `companyId`; the counterparty filter tests the issuer. */
    function GetReceivedInvoices(companyId: string, counterParty: Option<string>,
                                 dateIssued: Option<string>, invoiceId: Option<string>): (r: seq<Invoice>)
      reads this
      ensures r == Where(invoices, ReceivedFilter(companyId, counterParty, dateIssued, invoiceId))
      ensures IsSubsequence(r, invoices)
      ensures forall i :: i in r <==> i in invoices && IsReceivedMatch(i, companyId, counterParty, dateIssued, invoiceId)
    {
      ReceivedInvoicesMatch(invoices, companyId, counterParty, dateIssued, invoiceId);
      WhereIsSubsequence(invoices, ReceivedFilter(companyId, counterParty, dateIssued, invoiceId));
      ReceivedInvoices(invoices, companyId, counterParty, dateIssued, invoiceId)
    }

    /**
     * Registers compA and compB, then adds inv1 and inv2. A duplicate
     * identifier aborts the seeding at that invoice with its failure, after
     * the companies have already been appended.
     */
    method SeedData() returns (outcome: Outcome)
      modifies this
      ensures companies == old(companies) + [SeedCompanyA, SeedCompanyB]
      ensures HasInvoiceId(old(invoices), "inv1") ==>
                outcome == Fail(DuplicateMessage("inv1")) && invoices == old(invoices)
      ensures !HasInvoiceId(old(invoices), "inv1") && HasInvoiceId(old(invoices), "inv2") ==>
                outcome == Fail(DuplicateMessage("inv2")) && invoices == old(invoices) + [SeedInvoice1]
      ensures !HasInvoiceId(old(invoices), "inv1") && !HasInvoiceId(old(invoices), "inv2") ==>
                outcome == Pass && invoices == old(invoices) + [SeedInvoice1, SeedInvoice2]
      ensures DistinctIds(old(invoices)) ==> DistinctIds(invoices)
    {
      AddCompany(SeedCompanyA);
      AddCompany(SeedCompanyB);
      outcome := AddInvoice(SeedInvoice1);
      if outcome.Fail? {
        return;
      }
      HasInvoiceIdAfterAppend(old(invoices), SeedInvoice1, "inv2");
      outcome := AddInvoice(SeedInvoice2);
    }
  }
}
