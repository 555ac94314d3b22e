/**
 * The invoice draft engine (App.tsx `createDefaultInvoice`, `handleManualUpdate` and the
 * line-item handlers): every item change or deletion recomputes the totals.
 */
module Draft {
  import opened Wrappers
  import opened Types
  import opened Seqs
  import Allocator

  /** `Number(item.amount) || 0`. */
  function ItemAmount(item: InvoiceItem): real {
    NumberOrZero(item.amount)
  }

  /** The sum of the item amounts, a non-numeric amount counting as zero. */
  function ItemsTotal(items: seq<InvoiceItem>): real {
    Sum(items, ItemAmount)
  }

  /** The totals invariant: `subtotal == totalAmount == Σ amount`. */
  predicate TotalsConsistent(d: InvoiceData) {
    d.subtotal == ItemsTotal(d.items) && d.totalAmount == ItemsTotal(d.items)
  }

  const DefaultClosingMessage := "Thank you for your business."

  /** A fresh draft: no client, today's date, the proposed number, no items, zero totals, PENDING. */
  function CreateDefaultInvoice(store: Allocator.Store, today: string): (d: InvoiceData)
    ensures d.items == [] && d.totalAmount == 0.0 && TotalsConsistent(d)
    ensures d.status == Pending
    ensures d.invoiceNumber == Some(Allocator.PeekNext(store))
    ensures d.clientName == "" && d.clientAddress == Some("") && d.invoiceDate == today
    ensures d.closingMessage == DefaultClosingMessage
  {
    InvoiceData(Some(Allocator.PeekNext(store)), "", Some(""), today, [], 0.0, 0.0, DefaultClosingMessage, Pending)
  }

  /** The top-level fields the details form edits, each with its new value. */
  datatype DraftField =
    | InvoiceNumberField(number: string)
    | ClientNameField(name: string)
    | ClientAddressField(address: string)
    | InvoiceDateField(date: string)
    | StatusField(status: InvoiceStatus)
    | ClosingMessageField(message: string)

  /** `d` holds the value the edit carries. */
  predicate Holds(d: InvoiceData, f: DraftField) {
    match f
    case InvoiceNumberField(v) => d.invoiceNumber == Some(v)
    case ClientNameField(v) => d.clientName == v
    case ClientAddressField(v) => d.clientAddress == Some(v)
    case InvoiceDateField(v) => d.invoiceDate == v
    case StatusField(v) => d.status == v
    case ClosingMessageField(v) => d.closingMessage == v
  }

  /** `a` and `b` agree on every field except the one `f` names. */
  predicate SameExcept(a: InvoiceData, b: InvoiceData, f: DraftField) {
    match f
    case InvoiceNumberField(_) => a.(invoiceNumber := b.invoiceNumber) == b
    case ClientNameField(_) => a.(clientName := b.clientName) == b
    case ClientAddressField(_) => a.(clientAddress := b.clientAddress) == b
    case InvoiceDateField(_) => a.(invoiceDate := b.invoiceDate) == b
    case StatusField(_) => a.(status := b.status) == b
    case ClosingMessageField(_) => a.(closingMessage := b.closingMessage) == b
  }

  /** `{ ...prev, [field]: value }`: sets exactly one field, without validation. */
  function ManualUpdate(d: InvoiceData, f: DraftField): (r: InvoiceData)
    ensures Holds(r, f) && SameExcept(d, r, f)
  {
    match f
    case InvoiceNumberField(v) => d.(invoiceNumber := Some(v))
    case ClientNameField(v) => d.(clientName := v)
    case ClientAddressField(v) => d.(clientAddress := Some(v))
    case InvoiceDateField(v) => d.(invoiceDate := v)
    case StatusField(v) => d.(status := v)
    case ClosingMessageField(v) => d.(closingMessage := v)
  }

  /** One edit of one item field; an amount edit carries `parseFloat` of the input, maybe NaN. */
  datatype ItemEdit =
    | EditDate(date: string)
    | EditDescription(description: string)
    | EditTimeIn(timeIn: string)
    | EditTimeOut(timeOut: string)
    | EditAmount(amount: Option<real>)

  function ApplyEdit(item: InvoiceItem, e: ItemEdit): InvoiceItem {
    match e
    case EditDate(v) => item.(date := v)
    case EditDescription(v) => item.(description := v)
    case EditTimeIn(v) => item.(timeIn := Some(v))
    case EditTimeOut(v) => item.(timeOut := Some(v))
    case EditAmount(v) => item.(amount := v)
  }

  /** The draft with new items and both totals set to their sum; nothing else changes. */
  function WithItems(d: InvoiceData, items: seq<InvoiceItem>): (r: InvoiceData)
    ensures r.items == items && TotalsConsistent(r)
    ensures r.(items := d.items, subtotal := d.subtotal, totalAmount := d.totalAmount) == d
  {
    var total := ItemsTotal(items);
    d.(items := items, subtotal := total, totalAmount := total)
  }

  /** `handleLineItemChange`: edits one field of one item, then recomputes the totals. */
  function ChangeLineItem(d: InvoiceData, index: nat, e: ItemEdit): (r: InvoiceData)
    requires index < |d.items|
    ensures TotalsConsistent(r)
    ensures |r.items| == |d.items| && r.items[index] == ApplyEdit(d.items[index], e)
    ensures forall i | 0 <= i < |d.items| && i != index :: r.items[i] == d.items[i]
    ensures r.(items := d.items, subtotal := d.subtotal, totalAmount := d.totalAmount) == d
  {
    WithItems(d, d.items[index := ApplyEdit(d.items[index], e)])
  }

  /** `items.filter((_, i) => i !== index)`. */
  function RemoveAt<T>(s: seq<T>, index: int): (r: seq<T>)
    ensures 0 <= index < |s| ==> r == s[..index] + s[index + 1..]
    ensures !(0 <= index < |s|) ==> r == s
  {
    if |s| == 0 then []
    else
      assert s == [s[0]] + s[1..];
      (if index == 0 then [] else [s[0]]) + RemoveAt(s[1..], index - 1)
  }

  /** `handleDeleteLineItem`: removes the item at `index`, if any, then recomputes the totals. */
  function DeleteLineItem(d: InvoiceData, index: int): (r: InvoiceData)
    ensures TotalsConsistent(r)
    ensures 0 <= index < |d.items| ==> r.items == d.items[..index] + d.items[index + 1..]
    ensures !(0 <= index < |d.items|) ==> r.items == d.items
    ensures r.(items := d.items, subtotal := d.subtotal, totalAmount := d.totalAmount) == d
  {
    WithItems(d, RemoveAt(d.items, index))
  }

  /** The placeholder line `handleAddLineItem` appends. */
  function NewTrip(date: string): InvoiceItem {
    InvoiceItem(date, "New Trip", None, None, Some(0.0))
  }

  /** `handleAddLineItem`: appends a zero-amount trip dated like the invoice; totals are not touched. */
  function AddLineItem(d: InvoiceData): (r: InvoiceData)
    ensures r.items == d.items + [NewTrip(d.invoiceDate)]
    ensures r.(items := d.items) == d
    ensures TotalsConsistent(d) ==> TotalsConsistent(r)
  {
    var items := d.items + [NewTrip(d.invoiceDate)];
    assert items[..|items| - 1] == d.items;
    d.(items := items)
  }

  /** A line-item mutation as the edit-mode table issues it. */
  datatype ItemOp = Change(index: nat, edit: ItemEdit) | Delete(position: int) | Add

  /** Every change in `ops` names an item that exists when it is applied. */
  predicate OpsValid(d: InvoiceData, ops: seq<ItemOp>)
    decreases |ops|
  {
    |ops| == 0 || (ApplicableOp(d, ops[0]) && OpsValid(ApplyOp(d, ops[0]), ops[1..]))
  }

  predicate ApplicableOp(d: InvoiceData, op: ItemOp) {
    !op.Change? || op.index < |d.items|
  }

  function ApplyOp(d: InvoiceData, op: ItemOp): InvoiceData
    requires ApplicableOp(d, op)
  {
    match op
    case Change(i, e) => ChangeLineItem(d, i, e)
    case Delete(i) => DeleteLineItem(d, i)
    case Add => AddLineItem(d)
  }

  function ApplyOps(d: InvoiceData, ops: seq<ItemOp>): InvoiceData
    requires OpsValid(d, ops)
    decreases |ops|
  {
    if |ops| == 0 then d else ApplyOps(ApplyOp(d, ops[0]), ops[1..])
  }

  /** After any sequence of item mutations the totals invariant still holds. */
  lemma {:induction false} ItemOpsKeepTotals(d: InvoiceData, ops: seq<ItemOp>)
    requires OpsValid(d, ops) && TotalsConsistent(d)
    ensures TotalsConsistent(ApplyOps(d, ops))
    decreases |ops|
  {
    if |ops| > 0 {
      ItemOpsKeepTotals(ApplyOp(d, ops[0]), ops[1..]);
    }
  }

  /** Deleting the first of the items 100 and 250.5 leaves 250.5 as the only item and the total. */
  lemma DeleteFirstOfTwo(d: InvoiceData)
    requires |d.items| == 2 && d.items[0].amount == Some(100.0) && d.items[1].amount == Some(250.5)
    ensures DeleteLineItem(d, 0).items == [d.items[1]]
    ensures DeleteLineItem(d, 0).totalAmount == 250.5
  {
    var r := DeleteLineItem(d, 0);
    assert r.items == [d.items[1]];
    assert [d.items[1]][..0] == [];
    assert ItemsTotal([d.items[1]]) == ItemsTotal([]) + ItemAmount(d.items[1]);
  }
}
