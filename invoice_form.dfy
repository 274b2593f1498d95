/**
 * The invoice form (project/src/components/InvoiceForm.tsx): its initial
 * state, the line-list edits, the form built from a fetched invoice, and the
 * client guard of submission. The list edits are the pure `prev => next`
 * transforms the component hands to `setFormData`; `InvoiceEditor` holds the
 * mutable form state they are applied to.
 */
module InvoiceForm {
  import opened Wrappers
  import opened Js
  import opened Types

  /** `businessDetails?.default_vat_rate || 15`: a missing or zero default becomes 15. */
  function DefaultVatRate(details: Option<BusinessDetails>): (r: real)
    ensures r != 0.0
    ensures details.None? || details.value.defaultVatRate.None? ==> r == 15.0
    ensures details.Some? && details.value.defaultVatRate.Some? ==>
      r == if details.value.defaultVatRate.value == 0.0 then 15.0 else details.value.defaultVatRate.value
  {
    OrNumber(if details.Some? then details.value.defaultVatRate else None, 15.0)
  }

  /** The line the form adds: no description, quantity 1, price 0, the default rate. */
  function BlankItem(vatRate: real): FormItem {
    FormItem("", 1.0, 0.0, vatRate)
  }

  /** The form before anything is loaded or typed. `today` is the ISO date of `new Date()`. */
  function InitialForm(details: Option<BusinessDetails>, today: string): (f: InvoiceFormData)
    ensures f.clientId == "" && f.status == "draft" && f.dueDate == "" && f.notes == ""
    ensures f.items == [FormItem("", 1.0, 0.0, DefaultVatRate(details))]
    ensures f.taxRate == DefaultVatRate(details)
  {
    InvoiceFormData(
      "", "draft", today, "", DefaultVatRate(details), "",
      OrText(if details.Some? then details.value.invoiceTerms else None, ""),
      [BlankItem(DefaultVatRate(details))])
  }

  // ---------------------------------------------------------------------
  // Line-list edits
  // ---------------------------------------------------------------------

  /** `addItem`: `[...prev.items, blank]`. */
  function AddItem(items: seq<FormItem>, vatRate: real): (r: seq<FormItem>)
    ensures |r| == |items| + 1
    ensures r[..|items|] == items
    ensures r[|items|] == FormItem("", 1.0, 0.0, vatRate)
  {
    items + [BlankItem(vatRate)]
  }

  /** `items.filter((_, i) => i !== index)`, where `offset` is the position of `items[0]` in the whole list. */
  function DropIndex(items: seq<FormItem>, index: int, offset: nat): (r: seq<FormItem>)
    ensures offset <= index < offset + |items| ==>
      r == items[..index - offset] + items[index - offset + 1..]
    ensures !(offset <= index < offset + |items|) ==> r == items
    decreases |items|
  {
    if items == [] then []
    else (if offset == index then [] else [items[0]]) + DropIndex(items[1..], index, offset + 1)
  }

  /**
   * `removeItem`: only a list of two or more lines loses the line at `index`;
   * an index outside the list removes nothing.
   */
  function RemoveItem(items: seq<FormItem>, index: int): (r: seq<FormItem>)
    ensures |items| > 1 && 0 <= index < |items| ==> r == items[..index] + items[index + 1..]
    ensures |items| <= 1 || !(0 <= index < |items|) ==> r == items
    ensures |items| >= 1 ==> |r| >= 1
  {
    if |items| > 1 then DropIndex(items, index, 0) else items
  }

  /** A value typed into one field of a line (`updateItem(index, field, value)`). */
  datatype FieldUpdate =
    | SetDescription(description: string)
    | SetQuantity(quantity: real)
    | SetUnitPrice(unitPrice: real)
    | SetVatRate(vatRate: real)

  /** `{ ...item, [field]: value }`. */
  function UpdateField(item: FormItem, u: FieldUpdate): (r: FormItem)
    ensures u.SetDescription? ==> r == item.(description := u.description)
    ensures u.SetQuantity? ==> r == item.(quantity := u.quantity)
    ensures u.SetUnitPrice? ==> r == item.(unitPrice := u.unitPrice)
    ensures u.SetVatRate? ==> r == item.(vatRate := u.vatRate)
  {
    match u
    case SetDescription(d) => FormItem(d, item.quantity, item.unitPrice, item.vatRate)
    case SetQuantity(q) => FormItem(item.description, q, item.unitPrice, item.vatRate)
    case SetUnitPrice(p) => FormItem(item.description, item.quantity, p, item.vatRate)
    case SetVatRate(v) => FormItem(item.description, item.quantity, item.unitPrice, v)
  }

  /** `items.map((item, i) => i === index ? { ...item, [field]: value } : item)`. */
  function UpdateItem(items: seq<FormItem>, index: int, u: FieldUpdate): (r: seq<FormItem>)
    ensures |r| == |items|
    ensures forall i :: 0 <= i < |items| && i != index ==> r[i] == items[i]
    ensures 0 <= index < |items| ==> r[index] == UpdateField(items[index], u)
  {
    seq(|items|, i requires 0 <= i < |items| => if i == index then UpdateField(items[i], u) else items[i])
  }

  /** Any edit the line list can receive from the form. */
  datatype ItemEdit = Add | Remove(index: int) | Update(index: int, update: FieldUpdate)

  function ApplyEdit(items: seq<FormItem>, e: ItemEdit, vatRate: real): seq<FormItem> {
    match e
    case Add => AddItem(items, vatRate)
    case Remove(i) => RemoveItem(items, i)
    case Update(i, u) => UpdateItem(items, i, u)
  }

  function ApplyEdits(items: seq<FormItem>, edits: seq<ItemEdit>, vatRate: real): seq<FormItem>
    decreases |edits|
  {
    if edits == [] then items else ApplyEdits(ApplyEdit(items, edits[0], vatRate), edits[1..], vatRate)
  }

  /** The line list never becomes empty, whatever the edits. */
  lemma {:induction false} EditsKeepLines(items: seq<FormItem>, edits: seq<ItemEdit>, vatRate: real)
    requires |items| >= 1
    ensures |ApplyEdits(items, edits, vatRate)| >= 1
    decreases |edits|
  {
    if edits != [] {
      EditsKeepLines(ApplyEdit(items, edits[0], vatRate), edits[1..], vatRate);
    }
  }

  /** Removing a line of a list of two or more shortens it by one; any other removal keeps its length. */
  lemma RemoveItemLength(items: seq<FormItem>, index: int)
    ensures |RemoveItem(items, index)| == if |items| > 1 && 0 <= index < |items| then |items| - 1 else |items|
  {
  }

  // ---------------------------------------------------------------------
  // Loading a stored invoice
  // ---------------------------------------------------------------------

  function ToFormItem(item: InvoiceItem): FormItem {
    FormItem(item.description, item.quantity, item.unitPrice, item.vatRate)
  }

  /** `data.items?.length ? data.items.map(...) : [blank]`. */
  function LoadedItems(items: Option<seq<InvoiceItem>>, details: Option<BusinessDetails>): (r: seq<FormItem>)
    ensures |r| >= 1
    ensures items.Some? && |items.value| > 0 ==>
      |r| == |items.value| && forall i :: 0 <= i < |r| ==> r[i] == ToFormItem(items.value[i])
    ensures items.None? || |items.value| == 0 ==> r == [FormItem("", 1.0, 0.0, DefaultVatRate(details))]
  {
    if items.Some? && |items.value| > 0
    then seq(|items.value|, i requires 0 <= i < |items.value| => ToFormItem(items.value[i]))
    else [BlankItem(DefaultVatRate(details))]
  }

  /** The form state `fetchInvoice` builds from a fetched row. */
  function FormFromInvoice(data: Invoice, details: Option<BusinessDetails>): (f: InvoiceFormData)
    ensures f.clientId == data.clientId && f.status == StatusName(data.status)
    ensures |f.items| >= 1
  {
    InvoiceFormData(
      data.clientId, StatusName(data.status), data.issueDate,
      OrText(data.dueDate, ""), data.taxRate,
      OrText(data.notes, ""), OrText(data.terms, ""),
      LoadedItems(data.items, details))
  }

  // ---------------------------------------------------------------------
  // The component's state
  // ---------------------------------------------------------------------

  /** What submission leaves behind, besides the form state. */
  datatype SubmitEffect = Alert(message: string) | Save(form: InvoiceFormData) | Navigate(path: string)

  class InvoiceEditor {
    var formData: InvoiceFormData
    var saving: bool
    /** The business details the details hook currently holds; none until they arrive. */
    var details: Option<BusinessDetails>

    /** The form always has at least one line. */
    predicate Valid()
      reads this
    {
      |formData.items| >= 1
    }

    /**
     * The first render: the details hook has not answered yet, so the first
     * line and the tax rate take the 15% default.
     */
    constructor (today: string)
      ensures Valid() && !saving && details == None
      ensures formData == InitialForm(None, today)
      ensures formData.items == [FormItem("", 1.0, 0.0, 15.0)]
    {
      details := None;
      formData := InitialForm(None, today);
      saving := false;
    }

    /**
     * The details hook answering: later handlers read the new details, but
     * the form state, set once by `useState`, is left as it is.
     */
    method DetailsArrived(d: Option<BusinessDetails>)
      modifies this
      ensures details == d
      ensures formData == old(formData) && saving == old(saving)
    {
      details := d;
    }

    /** The effect of a successful `fetchInvoice`. */
    method Load(data: Invoice)
      modifies this
      ensures Valid() && saving == old(saving) && details == old(details)
      ensures formData == FormFromInvoice(data, details)
    {
      formData := FormFromInvoice(data, details);
    }

    /** `addItem`: a blank line at the default rate of the details held now. */
    method AddLine()
      requires Valid()
      modifies this
      ensures Valid() && saving == old(saving) && details == old(details)
      ensures formData == old(formData).(items := AddItem(old(formData.items), DefaultVatRate(details)))
    {
      formData := formData.(items := AddItem(formData.items, DefaultVatRate(details)));
    }

    method RemoveLine(index: int)
      requires Valid()
      modifies this
      ensures Valid() && saving == old(saving) && details == old(details)
      ensures formData == old(formData).(items := RemoveItem(old(formData.items), index))
    {
      if |formData.items| > 1 {
        formData := formData.(items := DropIndex(formData.items, index, 0));
      }
    }

    method UpdateLine(index: int, u: FieldUpdate)
      requires Valid()
      modifies this
      ensures Valid() && saving == old(saving) && details == old(details)
      ensures formData == old(formData).(items := UpdateItem(old(formData.items), index, u))
    {
      formData := formData.(items := UpdateItem(formData.items, index, u));
    }

    /**
     * `handleSubmit`: without a client it alerts and saves nothing; otherwise it
     * saves the form (outcome `saved`), then navigates back to the list or alerts.
     * `saving` is cleared on every exit that set it.
     */
    method Submit(saved: bool) returns (effects: seq<SubmitEffect>)
      requires Valid()
      modifies this
      ensures Valid() && formData == old(formData) && details == old(details)
      ensures old(formData.clientId) == "" ==> effects == [Alert("Please select a client")] && saving == old(saving)
      ensures old(formData.clientId) != "" ==> !saving && |effects| == 2 && effects[0] == Save(old(formData))
      ensures old(formData.clientId) != "" ==>
        effects[1] == if saved then Navigate("/invoices") else Alert("Failed to save invoice")
    {
      if formData.clientId == "" {
        effects := [Alert("Please select a client")];
        return;
      }
      saving := true;
      effects := [Save(formData)];
      if saved {
        effects := effects + [Navigate("/invoices")];
      } else {
        effects := effects + [Alert("Failed to save invoice")];
      }
      saving := false;
    }
  }
}
