/**
 * The archive manager (App.tsx `saveToArchive`, `handleDeleteArchive`,
 * `handleArchiveStatusUpdate`): archived invoices, most recent first, and the client
 * book that archiving feeds.
 */
module Archive {
  import opened Text
  import opened Types
  import opened Seqs
  import opened ClientDirectory

  /** The two persisted lists archiving updates together. */
  datatype Ledger = Ledger(archive: seq<ArchivedInvoice>, clients: seq<Client>)

  /** A draft with no items and no client name is not worth archiving. */
  predicate Archivable(d: InvoiceData) {
    !(|d.items| == 0 && d.clientName == "")
  }

  /**
   * `saveToArchive`: records the client, then puts the draft itself in front of the archive
   * with an id and a timestamp taken from the clock.
   */
  function SaveToArchive(ledger: Ledger, d: InvoiceData, now: nat): (r: Ledger)
    ensures !Archivable(d) ==> r == ledger
    ensures Archivable(d) ==> |r.archive| == |ledger.archive| + 1 && r.archive[1..] == ledger.archive
    ensures Archivable(d) ==> r.archive[0].data == d && r.archive[0].createdAt == now
    ensures Archivable(d) ==> r.archive[0].id == NatToString(now)
    ensures Archivable(d) ==> r.clients == SaveClientIfNew(ledger.clients, d.clientName, d.clientAddress, now)
  {
    if !Archivable(d) then ledger
    else
      var clients := SaveClientIfNew(ledger.clients, d.clientName, d.clientAddress, now);
      Ledger([ArchivedInvoice(NatToString(now), now, d)] + ledger.archive, clients)
  }

  /** `handleDeleteArchive`: drops every entry with the id, keeping the others in order. */
  function DeleteArchive(archive: seq<ArchivedInvoice>, id: string): (r: seq<ArchivedInvoice>)
    ensures forall i | 0 <= i < |r| :: r[i].id != id
    ensures forall e | e in archive && e.id != id :: multiset(r)[e] == multiset(archive)[e]
    ensures multiset(r) <= multiset(archive)
    ensures (forall i | 0 <= i < |archive| :: archive[i].id != id) ==> r == archive
  {
    var keep := (e: ArchivedInvoice) => e.id != id;
    var r := Filter(archive, keep);
    assert (forall i | 0 <= i < |archive| :: archive[i].id != id) ==> r == archive by {
      if forall i | 0 <= i < |archive| :: archive[i].id != id {
        FilterAll(archive, keep);
      }
    }
    r
  }

  /** Deletion works piecewise, so the survivors keep their relative order. */
  lemma DeleteArchiveConcat(a: seq<ArchivedInvoice>, b: seq<ArchivedInvoice>, id: string)
    ensures DeleteArchive(a + b, id) == DeleteArchive(a, id) + DeleteArchive(b, id)
  {
    FilterConcat(a, b, (e: ArchivedInvoice) => e.id != id);
  }

  /** `handleArchiveStatusUpdate`: sets `data.status` of the entries with the id, nothing else. */
  function UpdateArchiveStatus(archive: seq<ArchivedInvoice>, id: string, status: InvoiceStatus)
    : (r: seq<ArchivedInvoice>)
    ensures |r| == |archive|
    ensures forall i | 0 <= i < |r| ::
      && r[i].id == archive[i].id
      && r[i].createdAt == archive[i].createdAt
      && r[i].data.(status := archive[i].data.status) == archive[i].data
    ensures forall i | 0 <= i < |r| && archive[i].id == id :: r[i].data.status == status
    ensures forall i | 0 <= i < |r| && archive[i].id != id :: r[i] == archive[i]
  {
    seq(|archive|, i requires 0 <= i < |archive| =>
      if archive[i].id == id then archive[i].(data := archive[i].data.(status := status)) else archive[i])
  }
}
