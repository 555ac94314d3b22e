/**
 * The archive list (components/InvoiceArchive.tsx): the search filter, the newest-first
 * ordering and the three-state status cycle.
 */
module ArchiveBrowser {
  import opened Wrappers
  import opened Text
  import opened Seqs
  import opened Types
  import Archive

  /**
   * An invoice is kept when its lower-cased client name or lower-cased number (absent
   * reads as empty) contains the lower-cased term, or when its date, as written, does.
   */
  predicate Matches(inv: ArchivedInvoice, term: string) {
    var lower := ToLower(term);
    || Contains(ToLower(inv.data.clientName), lower)
    || Contains(ToLower(Or(inv.data.invoiceNumber, "")), lower)
    || Contains(inv.data.invoiceDate, lower)
  }

  function CreatedAt(inv: ArchivedInvoice): int {
    inv.createdAt
  }

  /** `filteredInvoices`: the matching invoices, newest first. */
  function FilteredInvoices(invoices: seq<ArchivedInvoice>, term: string): (r: seq<ArchivedInvoice>)
    ensures SortedDesc(r, CreatedAt)
    ensures multiset(r) == multiset(Filter(invoices, inv => Matches(inv, term)))
    ensures forall i | 0 <= i < |r| :: Matches(r[i], term)
    ensures forall inv | inv in invoices :: inv in r <==> Matches(inv, term)
    ensures forall inv | inv in r :: inv in invoices
  {
    FilterSortMembers(invoices, inv => Matches(inv, term), CreatedAt);
    SortDesc(Filter(invoices, inv => Matches(inv, term)), CreatedAt)
  }

  /** An empty search keeps every invoice. */
  lemma EmptySearchKeepsAll(invoices: seq<ArchivedInvoice>)
    ensures multiset(FilteredInvoices(invoices, "")) == multiset(invoices)
  {
    forall i | 0 <= i < |invoices| ensures Matches(invoices[i], "") {
      ContainsEmpty(invoices[i].data.invoiceDate);
    }
    FilterAll(invoices, inv => Matches(inv, ""));
  }

  /** The date is searched as written: an upper-case term does not find its own date. */
  lemma DateSearchIsCaseSensitive()
    ensures var inv := ArchivedInvoice("1", 1, InvoiceDataWith("x", "M"));
      Contains(inv.data.invoiceDate, "M") && !Matches(inv, "M")
  {
    var inv := ArchivedInvoice("1", 1, InvoiceDataWith("x", "M"));
    assert OccursAt("M", "M", 0);
    assert ToLower("M") == "m";
    assert ToLower("x") == "x";
    assert ToLower("") == "";
    assert "x"[0..1] == "x" && "x" != "m";
    assert "M"[0..1] == "M" && "M" != "m";
    assert !OccursAt("x", "m", 0);
    assert !OccursAt("M", "m", 0);
  }

  /** A draft with only a client name and a date set. */
  function InvoiceDataWith(clientName: string, invoiceDate: string): (d: InvoiceData)
    ensures d.clientName == clientName && d.invoiceDate == invoiceDate && d.invoiceNumber == None
  {
    InvoiceData(None, clientName, None, invoiceDate, [], 0.0, 0.0, "", Pending)
  }

  /** The order the status pill cycles through. */
  const StatusCycle: seq<InvoiceStatus> := [Pending, Paid, Overdue]

  /** A stored status that is missing reads as PENDING. */
  function DisplayStatus(stored: Option<InvoiceStatus>): (s: InvoiceStatus)
    ensures stored.Some? ==> s == stored.value
    ensures stored.None? ==> s == Pending
  {
    stored.GetOr(Pending)
  }

  function StatusIndex(s: InvoiceStatus): (i: nat)
    ensures i < |StatusCycle| && StatusCycle[i] == s
  {
    match s
    case Pending => 0
    case Paid => 1
    case Overdue => 2
  }

  /** The status after one click: the next one in the cycle, wrapping round. */
  function NextStatus(s: InvoiceStatus): (r: InvoiceStatus)
    ensures r == StatusCycle[(StatusIndex(s) + 1) % |StatusCycle|]
    ensures r != s
  {
    match s
    case Pending => Paid
    case Paid => Overdue
    case Overdue => Pending
  }

  /** Three clicks return to the starting status, passing through both others. */
  lemma StatusCycleReturns(s: InvoiceStatus)
    ensures NextStatus(NextStatus(NextStatus(s))) == s
    ensures {s, NextStatus(s), NextStatus(NextStatus(s))} == {Pending, Paid, Overdue}
  {
  }

  /** `toggleStatus`: the entry with the id gets the status after its displayed one. */
  function ToggleStatus(archive: seq<ArchivedInvoice>, id: string, current: Option<InvoiceStatus>)
    : (r: seq<ArchivedInvoice>)
    ensures |r| == |archive|
    ensures forall i | 0 <= i < |r| && archive[i].id == id ::
      r[i].data.status == NextStatus(DisplayStatus(current)) && r[i].data.status != DisplayStatus(current)
    ensures forall i | 0 <= i < |r| && archive[i].id != id :: r[i] == archive[i]
  {
    Archive.UpdateArchiveStatus(archive, id, NextStatus(DisplayStatus(current)))
  }

  /** Clicking an entry's pill, which passes that entry's own status, always changes it. */
  lemma ToggleClickedChanges(archive: seq<ArchivedInvoice>, k: nat)
    requires k < |archive|
    ensures var r := ToggleStatus(archive, archive[k].id, Some(archive[k].data.status));
      r[k].data.status != archive[k].data.status
      && r[k].data.status == NextStatus(archive[k].data.status)
  {
  }

  /** The colour family of the status pill. */
  datatype Tone = Green | Red | Amber

  function StatusTone(s: InvoiceStatus): (t: Tone)
    ensures t == Green <==> s == Paid
    ensures t == Red <==> s == Overdue
    ensures t == Amber <==> s == Pending
  {
    match s
    case Paid => Green
    case Overdue => Red
    case Pending => Amber
  }

  /** The receipt action is offered only on paid invoices. */
  predicate OffersReceipt(inv: ArchivedInvoice) {
    inv.data.status == Paid
  }
}
