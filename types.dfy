/** The records the application passes around (project/src/types/index.ts). Money is `real`. */
module Types {
  import opened Wrappers

  /** `Invoice.status`: one of four values. */
  datatype Status = Draft | Sent | Paid | Overdue

  /** The string stored for a status. */
  function StatusName(s: Status): string {
    match s
    case Draft => "draft"
    case Sent => "sent"
    case Paid => "paid"
    case Overdue => "overdue"
  }

  datatype Client = Client(
    id: string,
    name: string,
    address: Option<string>,
    phone: Option<string>,
    email: Option<string>)

  /** A stored invoice line. */
  datatype InvoiceItem = InvoiceItem(
    id: string,
    invoiceId: string,
    description: string,
    quantity: real,
    unitPrice: real,
    vatRate: real)

  /**
   * A stored invoice. The money columns and the joined `items` may be missing
   * (`null`) in a fetched row, which is why the screens write `|| 0` and `?.`.
   */
  datatype Invoice = Invoice(
    id: string,
    invoiceNumber: string,
    clientId: string,
    client: Option<Client>,
    status: Status,
    issueDate: string,
    dueDate: Option<string>,
    taxRate: real,
    notes: Option<string>,
    terms: Option<string>,
    subtotal: Option<real>,
    taxAmount: Option<real>,
    totalAmount: Option<real>,
    items: Option<seq<InvoiceItem>>)

  /** The single business-details row; every optional column may be missing. */
  datatype BusinessDetails = BusinessDetails(
    name: Option<string>,
    address: Option<string>,
    phone: Option<string>,
    email: Option<string>,
    website: Option<string>,
    logoUrl: Option<string>,
    labourRatePerHour: Option<real>,
    bankAccountHolder: Option<string>,
    bankAccountType: Option<string>,
    bankAccountNumber: Option<string>,
    bankName: Option<string>,
    bankBranchCode: Option<string>,
    currency: Option<string>,
    defaultVatRate: Option<real>,
    invoiceTerms: Option<string>)

  /** One line of the invoice form. */
  datatype FormItem = FormItem(description: string, quantity: real, unitPrice: real, vatRate: real)

  /** The invoice form's state (`InvoiceFormData`). */
  datatype InvoiceFormData = InvoiceFormData(
    clientId: string,
    status: string,
    issueDate: string,
    dueDate: string,
    taxRate: real,
    notes: string,
    terms: string,
    items: seq<FormItem>)
}
