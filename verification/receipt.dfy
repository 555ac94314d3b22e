/**
 * The payment receipt (components/PaymentReceipt.tsx): the editable receipt fields, their
 * reset when the receipt opens, the balance still due and the partial-payment flag.
 */
module Receipt {
  import opened Wrappers
  import opened Types

  /** The payment modes the receipt offers. */
  datatype PaymentMethod = BankTransfer | Cash | Pos | Cheque | Transfer

  function MethodLabel(m: PaymentMethod): string {
    match m
    case BankTransfer => "Bank Transfer"
    case Cash => "Cash"
    case Pos => "POS"
    case Cheque => "Cheque"
    case Transfer => "Transfer"
  }

  /** The value of a selected option; only the five labels are modes. */
  function ParseMethod(text: string): (r: Option<PaymentMethod>)
    ensures r.Some? ==> MethodLabel(r.value) == text
    ensures r.None? ==> text !in {"Bank Transfer", "Cash", "POS", "Cheque", "Transfer"}
  {
    if text == "Bank Transfer" then Some(BankTransfer)
    else if text == "Cash" then Some(Cash)
    else if text == "POS" then Some(Pos)
    else if text == "Cheque" then Some(Cheque)
    else if text == "Transfer" then Some(Transfer)
    else None
  }

  lemma MethodLabelRoundTrip(m: PaymentMethod)
    ensures ParseMethod(MethodLabel(m)) == Some(m)
  {
  }

  /**
   * The receipt's local state. The amount is `None` when the typed amount does not parse
   * as a number (JavaScript's NaN).
   */
  datatype ReceiptForm = ReceiptForm(isEditing: bool, amount: Option<real>, date: string, payer: string, mode: PaymentMethod)

  /** The state when the receipt is first created: the invoice total, today, the client, bank transfer. */
  function InitialForm(data: InvoiceData, today: string): (f: ReceiptForm)
    ensures !f.isEditing && f.amount == Some(data.totalAmount) && f.date == today
    ensures f.payer == data.clientName && f.mode == BankTransfer
  {
    ReceiptForm(false, Some(data.totalAmount), today, data.clientName, BankTransfer)
  }

  /** Opening the receipt resets amount, date, payer and the edit flag; the payment mode is kept. */
  function OnOpen(form: ReceiptForm, data: InvoiceData, today: string): (r: ReceiptForm)
    ensures r.amount == Some(data.totalAmount) && r.date == today && r.payer == data.clientName
    ensures !r.isEditing
    ensures r.mode == form.mode
    ensures r == InitialForm(data, today).(mode := form.mode)
  {
    form.(isEditing := false, amount := Some(data.totalAmount), date := today, payer := data.clientName)
  }

  /** `Math.max(0, total - amount)`; NaN when the amount is NaN. */
  function BalanceDue(total: real, amount: Option<real>): (r: Option<real>)
    ensures r.Some? <==> amount.Some?
    ensures r.Some? ==> r.value >= 0.0
    ensures r.Some? ==> r.value >= total - amount.value
    ensures r.Some? && r.value > 0.0 ==> r.value == total - amount.value
  {
    match amount
    case Some(a) => Some(if total - a > 0.0 then total - a else 0.0)
    case None => None
  }

  /** `receiptAmount < totalAmount`, false for NaN. */
  predicate IsPartialPayment(total: real, amount: Option<real>) {
    amount.Some? && amount.value < total
  }

  /** The balance line is shown exactly for a partial payment, and then the amount and the balance make up the total. */
  lemma BalanceShownIffPartial(total: real, amount: Option<real>)
    ensures var b := BalanceDue(total, amount);
      (b.Some? && b.value > 0.0) <==> IsPartialPayment(total, amount)
    ensures IsPartialPayment(total, amount) ==> amount.value + BalanceDue(total, amount).value == total
    ensures !IsPartialPayment(total, amount) && amount.Some? ==> BalanceDue(total, amount) == Some(0.0)
  {
  }

  /** The amount shown when not editing: `receiptAmount || 0`. */
  function ShownAmount(amount: Option<real>): (r: real)
    ensures amount.Some? ==> r == amount.value
    ensures amount.None? ==> r == 0.0
  {
    amount.GetOr(0.0)
  }

  function StartEditing(form: ReceiptForm): (r: ReceiptForm)
    ensures r.isEditing && r.(isEditing := form.isEditing) == form
  {
    form.(isEditing := true)
  }

  function FinishEditing(form: ReceiptForm): (r: ReceiptForm)
    ensures !r.isEditing && r.(isEditing := form.isEditing) == form
  {
    form.(isEditing := false)
  }

  /** Print and PDF are offered only outside editing. */
  predicate ExportEnabled(form: ReceiptForm) {
    !form.isEditing
  }

  /** Print or PDF: refused while editing; otherwise the form leaves edit mode, nothing else changes. */
  function Export(form: ReceiptForm): (r: Option<ReceiptForm>)
    ensures r.Some? <==> ExportEnabled(form)
    ensures r.Some? ==> !r.value.isEditing && r.value.(isEditing := form.isEditing) == form
  {
    if form.isEditing then None else Some(form.(isEditing := false))
  }

  /** An export after editing never shows the editing controls and keeps every entered value. */
  lemma ExportAfterEditing(form: ReceiptForm)
    ensures var r := Export(FinishEditing(form));
      r.Some? && !r.value.isEditing && r.value.amount == form.amount && r.value.payer == form.payer
      && r.value.date == form.date && r.value.mode == form.mode
  {
  }
}
