/**
 * The sent and received queries, written the way both store classes write
 * them: a base `Where` followed by up to three narrowing `Where`s, each one
 * skipped when its filter is null or empty.
 */
module Queries {
  import opened Wrappers
  import opened Enumerable
  import opened Models

  /** `string.IsNullOrEmpty`: `None` stands for `null`. */
  predicate IsNullOrEmpty(s: Option<string>) {
    s.None? || s.value == ""
  }

  /** An optional exact-match filter accepts `field`: it is absent, or it equals `field`. */
  predicate Accepts(filter: Option<string>, field: string) {
    IsNullOrEmpty(filter) || filter.value == field
  }

  // The single-field predicates the query chains pass to `Where`.

  function IssuedBy(companyId: string): (p: Invoice -> bool) {
    (i: Invoice) => i.companyId == companyId
  }

  function BilledTo(companyId: string): (p: Invoice -> bool) {
    (i: Invoice) => i.counterPartyCompanyId == companyId
  }

  function DatedOn(dateIssued: string): (p: Invoice -> bool) {
    (i: Invoice) => i.dateIssued == dateIssued
  }

  function WithId(invoiceId: string): (p: Invoice -> bool) {
    (i: Invoice) => i.invoiceId == invoiceId
  }

  /** `GetSentInvoices`: invoices issued by `companyId`, narrowed by each non-empty filter. */
  function SentInvoices(invoices: seq<Invoice>, companyId: string,
                        counterParty: Option<string>, dateIssued: Option<string>, invoiceId: Option<string>): (r: seq<Invoice>)
  {
    var q0 := Where(invoices, IssuedBy(companyId));
    var q1 := if IsNullOrEmpty(counterParty) then q0 else Where(q0, BilledTo(counterParty.value));
    var q2 := if IsNullOrEmpty(dateIssued) then q1 else Where(q1, DatedOn(dateIssued.value));
    if IsNullOrEmpty(invoiceId) then q2 else Where(q2, WithId(invoiceId.value))
  }

  /**
   * `GetReceivedInvoices`: invoices billed to `companyId`. Its counterparty
   * filter is matched against the ISSUER field, since from the receiver's
   * side the counterparty is the sender.
   */
  function ReceivedInvoices(invoices: seq<Invoice>, companyId: string,
                            counterParty: Option<string>, dateIssued: Option<string>, invoiceId: Option<string>): (r: seq<Invoice>)
  {
    var q0 := Where(invoices, BilledTo(companyId));
    var q1 := if IsNullOrEmpty(counterParty) then q0 else Where(q0, IssuedBy(counterParty.value));
    var q2 := if IsNullOrEmpty(dateIssued) then q1 else Where(q1, DatedOn(dateIssued.value));
    if IsNullOrEmpty(invoiceId) then q2 else Where(q2, WithId(invoiceId.value))
  }

  /** Reference meaning of a sent query: one conjunction of exact matches. */
  predicate IsSentMatch(i: Invoice, companyId: string,
                        counterParty: Option<string>, dateIssued: Option<string>, invoiceId: Option<string>)
  {
    && i.companyId == companyId
    && Accepts(counterParty, i.counterPartyCompanyId)
    && Accepts(dateIssued, i.dateIssued)
    && Accepts(invoiceId, i.invoiceId)
  }

  /** Reference meaning of a received query; the counterparty filter tests the issuer. */
  predicate IsReceivedMatch(i: Invoice, companyId: string,
                            counterParty: Option<string>, dateIssued: Option<string>, invoiceId: Option<string>)
  {
    && i.counterPartyCompanyId == companyId
    && Accepts(counterParty, i.companyId)
    && Accepts(dateIssued, i.dateIssued)
    && Accepts(invoiceId, i.invoiceId)
  }

  function SentFilter(companyId: string, counterParty: Option<string>, dateIssued: Option<string>, invoiceId: Option<string>): (p: Invoice -> bool) {
    (i: Invoice) => IsSentMatch(i, companyId, counterParty, dateIssued, invoiceId)
  }

  function ReceivedFilter(companyId: string, counterParty: Option<string>, dateIssued: Option<string>, invoiceId: Option<string>): (p: Invoice -> bool) {
    (i: Invoice) => IsReceivedMatch(i, companyId, counterParty, dateIssued, invoiceId)
  }

  /**
   * The chain of `Where`s in `SentInvoices` is one filter by the conjunction
   * `IsSentMatch`: the result holds exactly the matching invoices, in the
   * store's insertion order.
   */
  lemma SentInvoicesMatch(invoices: seq<Invoice>, companyId: string,
                          counterParty: Option<string>, dateIssued: Option<string>, invoiceId: Option<string>)
    ensures SentInvoices(invoices, companyId, counterParty, dateIssued, invoiceId)
         == Where(invoices, SentFilter(companyId, counterParty, dateIssued, invoiceId))
    ensures forall i :: i in SentInvoices(invoices, companyId, counterParty, dateIssued, invoiceId)
                    <==> i in invoices && IsSentMatch(i, companyId, counterParty, dateIssued, invoiceId)
  {
    var f0 := SentFilter(companyId, None, None, None);
    var f1 := SentFilter(companyId, counterParty, None, None);
    var f2 := SentFilter(companyId, counterParty, dateIssued, None);
    var f3 := SentFilter(companyId, counterParty, dateIssued, invoiceId);
    var q0 := Where(invoices, IssuedBy(companyId));
    WhereCongruent(invoices, IssuedBy(companyId), f0);
    var q1 := if IsNullOrEmpty(counterParty) then q0 else Where(q0, BilledTo(counterParty.value));
    if IsNullOrEmpty(counterParty) {
      WhereCongruent(invoices, f0, f1);
    } else {
      WhereWhere(invoices, f0, BilledTo(counterParty.value), f1);
    }
    assert q1 == Where(invoices, f1);
    var q2 := if IsNullOrEmpty(dateIssued) then q1 else Where(q1, DatedOn(dateIssued.value));
    if IsNullOrEmpty(dateIssued) {
      WhereCongruent(invoices, f1, f2);
    } else {
      WhereWhere(invoices, f1, DatedOn(dateIssued.value), f2);
    }
    assert q2 == Where(invoices, f2);
    if IsNullOrEmpty(invoiceId) {
      WhereCongruent(invoices, f2, f3);
    } else {
      WhereWhere(invoices, f2, WithId(invoiceId.value), f3);
    }
  }

  /** The received chain is one filter by the conjunction `IsReceivedMatch`. */
  lemma ReceivedInvoicesMatch(invoices: seq<Invoice>, companyId: string,
                              counterParty: Option<string>, dateIssued: Option<string>, invoiceId: Option<string>)
    ensures ReceivedInvoices(invoices, companyId, counterParty, dateIssued, invoiceId)
         == Where(invoices, ReceivedFilter(companyId, counterParty, dateIssued, invoiceId))
    ensures forall i :: i in ReceivedInvoices(invoices, companyId, counterParty, dateIssued, invoiceId)
                    <==> i in invoices && IsReceivedMatch(i, companyId, counterParty, dateIssued, invoiceId)
  {
    var f0 := ReceivedFilter(companyId, None, None, None);
    var f1 := ReceivedFilter(companyId, counterParty, None, None);
    var f2 := ReceivedFilter(companyId, counterParty, dateIssued, None);
    var f3 := ReceivedFilter(companyId, counterParty, dateIssued, invoiceId);
    var q0 := Where(invoices, BilledTo(companyId));
    WhereCongruent(invoices, BilledTo(companyId), f0);
    var q1 := if IsNullOrEmpty(counterParty) then q0 else Where(q0, IssuedBy(counterParty.value));
    if IsNullOrEmpty(counterParty) {
      WhereCongruent(invoices, f0, f1);
    } else {
      WhereWhere(invoices, f0, IssuedBy(counterParty.value), f1);
    }
    assert q1 == Where(invoices, f1);
    var q2 := if IsNullOrEmpty(dateIssued) then q1 else Where(q1, DatedOn(dateIssued.value));
    if IsNullOrEmpty(dateIssued) {
      WhereCongruent(invoices, f1, f2);
    } else {
      WhereWhere(invoices, f1, DatedOn(dateIssued.value), f2);
    }
    assert q2 == Where(invoices, f2);
    if IsNullOrEmpty(invoiceId) {
      WhereCongruent(invoices, f2, f3);
    } else {
      WhereWhere(invoices, f2, WithId(invoiceId.value), f3);
    }
  }

  /**
   * Filters only ever remove: a filtered sent query is an order-preserving
   * subsequence of the unfiltered one, which is itself a subsequence of the
   * whole log.
   */
  lemma SentFiltersOnlyNarrow(invoices: seq<Invoice>, companyId: string,
                              counterParty: Option<string>, dateIssued: Option<string>, invoiceId: Option<string>)
    ensures IsSubsequence(SentInvoices(invoices, companyId, counterParty, dateIssued, invoiceId),
                          SentInvoices(invoices, companyId, None, None, None))
    ensures IsSubsequence(SentInvoices(invoices, companyId, None, None, None), invoices)
  {
    var unfiltered := SentInvoices(invoices, companyId, None, None, None);
    var f := SentFilter(companyId, counterParty, dateIssued, invoiceId);
    SentInvoicesMatch(invoices, companyId, counterParty, dateIssued, invoiceId);
    WhereWhere(invoices, IssuedBy(companyId), f, f);
    WhereIsSubsequence(unfiltered, f);
    WhereIsSubsequence(invoices, IssuedBy(companyId));
  }

  /** Filters only ever remove from a received query. */
  lemma ReceivedFiltersOnlyNarrow(invoices: seq<Invoice>, companyId: string,
                                  counterParty: Option<string>, dateIssued: Option<string>, invoiceId: Option<string>)
    ensures IsSubsequence(ReceivedInvoices(invoices, companyId, counterParty, dateIssued, invoiceId),
                          ReceivedInvoices(invoices, companyId, None, None, None))
    ensures IsSubsequence(ReceivedInvoices(invoices, companyId, None, None, None), invoices)
  {
    var unfiltered := ReceivedInvoices(invoices, companyId, None, None, None);
    var f := ReceivedFilter(companyId, counterParty, dateIssued, invoiceId);
    ReceivedInvoicesMatch(invoices, companyId, counterParty, dateIssued, invoiceId);
    WhereWhere(invoices, BilledTo(companyId), f, f);
    WhereIsSubsequence(unfiltered, f);
    WhereIsSubsequence(invoices, BilledTo(companyId));
  }

  /**
   * Appending an invoice to the log extends a sent query by that invoice
   * exactly when it matches, and leaves the earlier results in place.
   */
  lemma SentAfterAppend(invoices: seq<Invoice>, x: Invoice, companyId: string,
                        counterParty: Option<string>, dateIssued: Option<string>, invoiceId: Option<string>)
    ensures SentInvoices(invoices + [x], companyId, counterParty, dateIssued, invoiceId)
         == SentInvoices(invoices, companyId, counterParty, dateIssued, invoiceId)
            + (if IsSentMatch(x, companyId, counterParty, dateIssued, invoiceId) then [x] else [])
  {
    SentInvoicesMatch(invoices, companyId, counterParty, dateIssued, invoiceId);
    SentInvoicesMatch(invoices + [x], companyId, counterParty, dateIssued, invoiceId);
    WhereSnoc(invoices, x, SentFilter(companyId, counterParty, dateIssued, invoiceId));
  }

  /** Appending an invoice extends a received query by it exactly when it matches. */
  lemma ReceivedAfterAppend(invoices: seq<Invoice>, x: Invoice, companyId: string,
                            counterParty: Option<string>, dateIssued: Option<string>, invoiceId: Option<string>)
    ensures ReceivedInvoices(invoices + [x], companyId, counterParty, dateIssued, invoiceId)
         == ReceivedInvoices(invoices, companyId, counterParty, dateIssued, invoiceId)
            + (if IsReceivedMatch(x, companyId, counterParty, dateIssued, invoiceId) then [x] else [])
  {
    ReceivedInvoicesMatch(invoices, companyId, counterParty, dateIssued, invoiceId);
    ReceivedInvoicesMatch(invoices + [x], companyId, counterParty, dateIssued, invoiceId);
    WhereSnoc(invoices, x, ReceivedFilter(companyId, counterParty, dateIssued, invoiceId));
  }

  /**
   * The asymmetric counterparty filter makes the two queries dual: what
   * `receiver` received from `sender` is exactly what `sender` sent to
   * `receiver`, in the same order (both names non-empty, since an empty
   * filter is no filter).
   */
  lemma ReceivedFromIsSentTo(invoices: seq<Invoice>, receiver: string, sender: string,
                             dateIssued: Option<string>, invoiceId: Option<string>)
    requires receiver != "" && sender != ""
    ensures ReceivedInvoices(invoices, receiver, Some(sender), dateIssued, invoiceId)
         == SentInvoices(invoices, sender, Some(receiver), dateIssued, invoiceId)
  {
    ReceivedInvoicesMatch(invoices, receiver, Some(sender), dateIssued, invoiceId);
    SentInvoicesMatch(invoices, sender, Some(receiver), dateIssued, invoiceId);
    WhereCongruent(invoices, ReceivedFilter(receiver, Some(sender), dateIssued, invoiceId),
                   SentFilter(sender, Some(receiver), dateIssued, invoiceId));
  }
}
