/** The two records the store keeps: invoices and companies. */
module Models {

  /**
   * An amount of money. The source keeps amounts as single-precision floats;
   * no operation here reads them, so they are carried as opaque integers.
   */
  type Amount = int

  /**
   * An invoice. The issue date is an opaque token compared only for
   * equality; `companyId` is the issuer and `counterPartyCompanyId` the
   * receiver, and neither is checked against the registered companies.
   */
  datatype Invoice = Invoice(
    invoiceId: string,
    dateIssued: string,
    netAmount: Amount,
    vatAmount: Amount,
    totalAmount: Amount,
    description: string,
    companyId: string,
    counterPartyCompanyId: string)

  /** A company with its display name and its list of user identifiers. */
  datatype Company = Company(id: string, name: string, users: seq<string>)

  /** Some invoice in `s` carries the identifier `id`. */
  predicate HasInvoiceId(s: seq<Invoice>, id: string) {
    exists k :: 0 <= k < |s| && s[k].invoiceId == id
  }

  /** An identifier is in an extended log when it was there before or is the new invoice's. */
  lemma HasInvoiceIdAfterAppend(s: seq<Invoice>, x: Invoice, id: string)
    ensures HasInvoiceId(s + [x], id) <==> HasInvoiceId(s, id) || x.invoiceId == id
  {
    var t := s + [x];
    if HasInvoiceId(t, id) && x.invoiceId != id {
      var k :| 0 <= k < |t| && t[k].invoiceId == id;
      assert k < |s| && t[k] == s[k];
    }
    if HasInvoiceId(s, id) {
      var k :| 0 <= k < |s| && s[k].invoiceId == id;
      assert t[k] == s[k];
    }
    assert t[|s|] == x;
  }

  /** No two invoices in `s` share an identifier. */
  ghost predicate DistinctIds(s: seq<Invoice>) {
    forall i, j :: 0 <= i < j < |s| ==> s[i].invoiceId != s[j].invoiceId
  }

  /**
   * Appending to a log of distinct identifiers keeps them distinct exactly
   * when the new identifier is not already there: the checked store relies
   * on the "if", the unchecked one is broken by the "only if".
   */
  lemma AppendKeepsDistinct(s: seq<Invoice>, x: Invoice)
    requires DistinctIds(s)
    ensures DistinctIds(s + [x]) <==> !HasInvoiceId(s, x.invoiceId)
  {
    var t := s + [x];
    if HasInvoiceId(s, x.invoiceId) {
      var k :| 0 <= k < |s| && s[k].invoiceId == x.invoiceId;
      assert t[k].invoiceId == t[|s|].invoiceId;
    } else {
      forall i, j | 0 <= i < j < |t| ensures t[i].invoiceId != t[j].invoiceId {
        if j == |s| {
          assert t[i] == s[i];
        } else {
          assert t[i] == s[i] && t[j] == s[j];
        }
      }
    }
  }
}
