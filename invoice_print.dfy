/**
 * The printed invoice (project/src/components/InvoicePrint.tsx): the three
 * figures of each line, the padding of the line table to eight rows, the
 * summary box, and the guard, URL and file name of the PDF download.
 */
module InvoicePrint {
  import opened Wrappers
  import opened Js
  import opened Types

  // ---------------------------------------------------------------------
  // Line arithmetic
  // ---------------------------------------------------------------------

  datatype LineTotals = LineTotals(total: real, vat: real, amount: real)

  /** `getItemTotals`: the net line total, the VAT on it, and the two together. */
  function ItemTotals(item: InvoiceItem): LineTotals {
    var total := item.quantity * item.unitPrice;
    var vat := total * (item.vatRate / 100.0);
    LineTotals(total, vat, total + vat)
  }

  /** Each figure in closed form: the amount is quantity x price x (1 + rate/100). */
  lemma ItemTotalsClosedForm(item: InvoiceItem)
    ensures ItemTotals(item).total == item.quantity * item.unitPrice
    ensures ItemTotals(item).vat == item.quantity * item.unitPrice * item.vatRate / 100.0
    ensures ItemTotals(item).amount == item.quantity * item.unitPrice * (1.0 + item.vatRate / 100.0)
  {
    var q, p, v := item.quantity, item.unitPrice, item.vatRate;
    calc {
      ItemTotals(item).amount;
      q * p + q * p * (v / 100.0);
      { assert q * p * (v / 100.0) == q * p * v / 100.0; }
      q * p * (1.0 + v / 100.0);
    }
  }

  /** A zero rate adds no VAT: the amount is the net total. */
  lemma ZeroRateAddsNothing(item: InvoiceItem)
    requires item.vatRate == 0.0
    ensures ItemTotals(item).vat == 0.0
    ensures ItemTotals(item).amount == ItemTotals(item).total
  {
  }

  /** With non-negative inputs every figure is non-negative and VAT never lowers the amount. */
  lemma ItemTotalsNonNegative(item: InvoiceItem)
    requires item.quantity >= 0.0 && item.unitPrice >= 0.0 && item.vatRate >= 0.0
    ensures ItemTotals(item).total >= 0.0
    ensures ItemTotals(item).vat >= 0.0
    ensures ItemTotals(item).amount >= ItemTotals(item).total
  {
    var t := item.quantity * item.unitPrice;
    assert t >= 0.0;
    assert t * (item.vatRate / 100.0) >= 0.0;
  }

  /** Two units at 100.00 with 15% VAT: 200.00 net, 30.00 VAT, 230.00 in all. */
  lemma ItemTotalsExample()
    ensures ItemTotals(InvoiceItem("", "", "", 2.0, 100.0, 15.0)) == LineTotals(200.0, 30.0, 230.0)
  {
  }

  // ---------------------------------------------------------------------
  // Table layout
  // ---------------------------------------------------------------------

  /** The table always shows at least this many rows. */
  const MinTableRows: nat := 8

  /** `invoice.items?.length || 0`. */
  function ItemCount(items: Option<seq<InvoiceItem>>): nat {
    if items.Some? then |items.value| else 0
  }

  function Max(a: int, b: int): int {
    if a >= b then a else b
  }

  /** `Math.max(0, 8 - (invoice.items?.length || 0))`: the empty rows printed after the lines. */
  function PaddingRows(invoice: Invoice): (r: nat)
    ensures ItemCount(invoice.items) + r == Max(MinTableRows, ItemCount(invoice.items))
    ensures r == 0 <==> ItemCount(invoice.items) >= MinTableRows
  {
    Max(0, MinTableRows - ItemCount(invoice.items))
  }

  /** Line rows plus padding rows: never fewer than eight, and exactly the lines once there are eight or more. */
  lemma TableRowCount(invoice: Invoice)
    ensures ItemCount(invoice.items) + PaddingRows(invoice) >= MinTableRows
    ensures ItemCount(invoice.items) >= MinTableRows ==> ItemCount(invoice.items) + PaddingRows(invoice) == ItemCount(invoice.items)
    ensures invoice.items.None? ==> PaddingRows(invoice) == MinTableRows
  {
  }

  // ---------------------------------------------------------------------
  // Summary box
  // ---------------------------------------------------------------------

  datatype Summary = Summary(subTotal: real, taxAmount: real, totalAmount: real, currency: string)

  /** `businessDetails?.currency || 'R'`. */
  function Currency(details: Option<BusinessDetails>): (c: string)
    ensures c != ""
    ensures details.Some? && details.value.currency.Some? && details.value.currency.value != "" ==> c == details.value.currency.value

    ensures !(details.Some? && details.value.currency.Some? && details.value.currency.value != "") ==> c == "R"
  {
    OrText(if details.Some? then details.value.currency else None, "R")
  }

  /** The summary box: the invoice's stored columns, each `|| 0`, and the currency symbol. */
  function SummaryBox(invoice: Invoice, details: Option<BusinessDetails>): Summary {
    Summary(
      OrNumber(invoice.subtotal, 0.0),
      OrNumber(invoice.taxAmount, 0.0),
      OrNumber(invoice.totalAmount, 0.0),
      Currency(details))
  }

  /**
   * The summary shows the stored columns (0 when missing) and is not
   * computed from the lines: replacing the lines leaves it unchanged.
   */
  lemma SummaryShowsStoredColumns(invoice: Invoice, details: Option<BusinessDetails>, otherLines: Option<seq<InvoiceItem>>)
    ensures SummaryBox(invoice, details).subTotal == invoice.subtotal.GetOr(0.0)
    ensures SummaryBox(invoice, details).taxAmount == invoice.taxAmount.GetOr(0.0)
    ensures SummaryBox(invoice, details).totalAmount == invoice.totalAmount.GetOr(0.0)
    ensures details.None? ==> SummaryBox(invoice, details).currency == "R"
    ensures SummaryBox(invoice.(items := otherLines), details) == SummaryBox(invoice, details)
  {
  }

  // ---------------------------------------------------------------------
  // PDF download
  // ---------------------------------------------------------------------

  /** How the `fetch` of the PDF ended: an ok response, a non-ok one, or a thrown error. */
  datatype FetchOutcome = FetchOk | FetchNotOk | FetchThrew

  /** What the download leaves behind in the browser. */
  datatype ClientEffect = Alert(message: string) | Fetch(url: string) | SaveAs(fileName: string)

  function PdfPath(id: string): string {
    "/api/invoices/" + id + "/pdf"
  }

  function PdfFileName(id: string): string {
    "invoice-" + id + ".pdf"
  }

  /**
   * `downloadPdf`: a missing id only alerts; otherwise one fetch of the PDF
   * route, then either a download under `invoice-{id}.pdf` or an alert.
   */
  method DownloadPdf(id: Option<string>, outcome: FetchOutcome) returns (effects: seq<ClientEffect>)
    ensures (id.None? || id.value == "") ==> effects == [Alert("Missing invoice id")]
    ensures id.Some? && id.value != "" ==>
      && |effects| == 2
      && effects[0] == Fetch("/api/invoices/" + id.value + "/pdf")
      && (outcome == FetchOk ==> effects[1] == SaveAs("invoice-" + id.value + ".pdf"))
      && (outcome != FetchOk ==> effects[1] == Alert("Failed to download PDF"))
    ensures (exists i :: 0 <= i < |effects| && effects[i].Fetch?) <==> id.Some? && id.value != ""
  {
    if id.None? || id.value == "" {
      effects := [Alert("Missing invoice id")];
      return;
    }
    var key := id.value;
    effects := [Fetch(PdfPath(key))];
    if outcome == FetchOk {
      effects := effects + [SaveAs(PdfFileName(key))];
    } else {
      effects := effects + [Alert("Failed to download PDF")];
    }
  }
}
