/**
 * The invoice list's filter (project/src/components/InvoiceList.tsx): a
 * status filter and a case-insensitive search on the invoice number or the
 * client's name, applied with `filter`, and the text shown when nothing is left.
 */
module InvoiceList {
  import opened Js
  import opened Types

  /**
   * `invoice_number.toLowerCase().includes(term.toLowerCase()) ||
   * invoice.client?.name?.toLowerCase().includes(...) || ''`; the trailing `''`
   * is falsy, so an invoice without a client matches only through its number.
   */
  predicate MatchesSearch(invoice: Invoice, term: string) {
    Includes(Lower(invoice.invoiceNumber), Lower(term))
    || (invoice.client.Some? && Includes(Lower(invoice.client.value.name), Lower(term)))
  }

  /** `statusFilter === 'all' || invoice.status === statusFilter`. */
  predicate MatchesStatus(invoice: Invoice, statusFilter: string) {
    statusFilter == "all" || StatusName(invoice.status) == statusFilter
  }

  predicate Keep(invoice: Invoice, term: string, statusFilter: string) {
    MatchesSearch(invoice, term) && MatchesStatus(invoice, statusFilter)
  }

  /** `filteredInvoices`. */
  function FilteredInvoices(invoices: seq<Invoice>, term: string, statusFilter: string): seq<Invoice> {
    Filter(invoices, (inv: Invoice) => Keep(inv, term, statusFilter))
  }

  /** The result is an order-preserving sublist holding exactly the invoices that pass both tests. */
  lemma FilteredIsSublist(invoices: seq<Invoice>, term: string, statusFilter: string)
    ensures Subsequence(FilteredInvoices(invoices, term, statusFilter), invoices)
    ensures forall inv :: inv in FilteredInvoices(invoices, term, statusFilter) <==>
      inv in invoices && MatchesSearch(inv, term) && MatchesStatus(inv, statusFilter)
    ensures forall inv :: multiset(FilteredInvoices(invoices, term, statusFilter))[inv] ==
                          (if MatchesSearch(inv, term) && MatchesStatus(inv, statusFilter) then multiset(invoices)[inv] else 0)
  {
  }

  /** Any filter other than 'all' keeps only invoices of exactly that status. */
  lemma KeptHaveFilteredStatus(invoices: seq<Invoice>, term: string, statusFilter: string)
    requires statusFilter != "all"
    ensures forall inv :: inv in FilteredInvoices(invoices, term, statusFilter) ==> StatusName(inv.status) == statusFilter
  {
  }

  /** An empty search with the filter 'all' keeps the whole list, in order. */
  lemma NoFiltersKeepsAll(invoices: seq<Invoice>)
    ensures FilteredInvoices(invoices, "", "all") == invoices
  {
    forall inv | inv in invoices ensures Keep(inv, "", "all") {
      EmptySearchMatches(inv);
    }
    FilterKeepsAll(invoices, (inv: Invoice) => Keep(inv, "", "all"));
  }

  /** The empty search term matches every invoice. */
  lemma EmptySearchMatches(invoice: Invoice)
    ensures MatchesSearch(invoice, "")
  {
    assert Lower("") == "";
  }

  /** The search ignores the case of the term: searching for it or for its lower-case form is the same. */
  lemma SearchIgnoresCase(invoice: Invoice, term: string)
    ensures MatchesSearch(invoice, term) <==> MatchesSearch(invoice, Lower(term))
  {
    LowerIdempotent(term);
  }

  /** The search ignores the case of the invoice number, too. */
  lemma SearchIgnoresNumberCase(invoice: Invoice, term: string)
    ensures MatchesSearch(invoice, term) <==> MatchesSearch(invoice.(invoiceNumber := Lower(invoice.invoiceNumber)), term)
  {
    LowerIdempotent(invoice.invoiceNumber);
  }

  /** Without a client an invoice is found only through its number. */
  lemma NoClientMatchesByNumber(invoice: Invoice, term: string)
    requires invoice.client.None?
    ensures MatchesSearch(invoice, term) <==> Includes(Lower(invoice.invoiceNumber), Lower(term))
  {
  }

  /** The row shown when the filtered list is empty. */
  function EmptyStateMessage(term: string, statusFilter: string): (m: string)
    ensures m == "No invoices match your filters" <==> term != "" || statusFilter != "all"
    ensures m == "No invoices found" <==> term == "" && statusFilter == "all"
  {
    if term != "" || statusFilter != "all" then "No invoices match your filters" else "No invoices found"
  }
}
