/**
 * The application state machine of App.tsx: generation (IDLE/SUCCESS/ERROR -> PROCESSING ->
 * SUCCESS or ERROR), new invoice, edit mode with snapshot/restore, archive load-back and the
 * template cycle. Each handler is one sequential transition of the whole application state.
 */
module Lifecycle {
  import opened Wrappers
  import opened Text
  import opened Types
  import opened ClientDirectory
  import opened Archive
  import opened Draft
  import opened Allocator

  /** Everything the handlers read and write. */
  datatype App = App(
    state: AppState,
    draft: InvoiceData,
    error: Option<string>,
    editing: bool,
    backup: Option<InvoiceData>,
    ledger: Ledger,
    profile: CompanyProfile,
    store: Store)

  /** What the extraction service returns: a record, or an error with its message (maybe empty). */
  datatype Extraction = Extracted(data: InvoiceData) | ExtractionFailed(message: string)

  const FallbackError := "The Keeper could not decipher these notes. Please try again."

  /** Start of `handleGenerate`: PROCESSING, no error, edit mode left without restoring. */
  function BeginGenerate(app: App): (r: App)
    ensures r.state == Processing && r.error == None && !r.editing && r.backup == None
    ensures r.(state := app.state, error := app.error, editing := app.editing, backup := app.backup) == app
  {
    app.(state := Processing, error := None, editing := false, backup := None)
  }

  /**
   * Fills in the address of an extracted invoice from the first known client whose lower-cased
   * name equals the trimmed, lower-cased extracted name, when the extraction gave no address.
   */
  function BackfillAddress(data: InvoiceData, clients: seq<Client>): (r: InvoiceData)
    ensures r.(clientAddress := data.clientAddress) == data
    ensures Truthy(data.clientAddress) ==> r == data
    ensures !Truthy(data.clientAddress) ==>
      match FindByLowerName(clients, ToLower(Trim(data.clientName)))
      case Some(i) => r.clientAddress == Some(clients[i].address)
      case None => r == data
  {
    match FindByLowerName(clients, ToLower(Trim(data.clientName)))
    case Some(i) => if Truthy(data.clientAddress) then data else data.(clientAddress := Some(clients[i].address))
    case None => data
  }

  /** Completion of `handleGenerate`: SUCCESS with the extracted draft, or ERROR with a message. */
  function FinishGenerate(app: App, outcome: Extraction): (r: App)
    ensures r.(state := app.state, draft := app.draft, error := app.error) == app
    ensures outcome.Extracted? ==>
      r.state == Succeeded && r.draft == BackfillAddress(outcome.data, app.ledger.clients) && r.error == app.error
    ensures outcome.ExtractionFailed? ==>
      && r.state == Errored && r.draft == app.draft
      && r.error.Some? && r.error.value != ""
      && (outcome.message != "" ==> r.error.value == outcome.message)
  {
    match outcome
    case Extracted(data) => app.(state := Succeeded, draft := BackfillAddress(data, app.ledger.clients))
    case ExtractionFailed(message) =>
      app.(state := Errored, error := Some(if message != "" then message else FallbackError))
  }

  /** `handleGenerate` as one transition. */
  function HandleGenerate(app: App, outcome: Extraction): (r: App)
    ensures !r.editing && r.backup == None
    ensures r.ledger == app.ledger && r.store == app.store && r.profile == app.profile
    ensures outcome.Extracted? ==> r.state == Succeeded && r.error == None
    ensures outcome.ExtractionFailed? ==> r.state == Errored && r.draft == app.draft && r.error.Some?
  {
    FinishGenerate(BeginGenerate(app), outcome)
  }

  /** An extracted "Acme" without address takes the address of the known client "Acme". */
  lemma GenerateBackfillsKnownAddress(app: App, data: InvoiceData, i: nat)
    requires i < |app.ledger.clients| && data.clientAddress == None
    requires FindByLowerName(app.ledger.clients, ToLower(Trim(data.clientName))) == Some(i)
    ensures HandleGenerate(app, Extracted(data)).draft.clientAddress == Some(app.ledger.clients[i].address)
  {
  }

  /**
   * `handleNewInvoice`: archives a draft that has items or a positive total, commits the
   * invoice number whenever there is one (archived or not), then starts over in IDLE with a
   * fresh draft numbered from the updated store.
   */
  function HandleNewInvoice(app: App, now: nat, today: string): (r: App)
    ensures r.state == Idle && r.error == None && !r.editing && r.backup == None
    ensures r.profile == app.profile
    ensures r.draft == CreateDefaultInvoice(r.store, today)
    ensures (|app.draft.items| > 0 || app.draft.totalAmount > 0.0) ==>
      r.ledger == SaveToArchive(app.ledger, app.draft, now)
    ensures !(|app.draft.items| > 0 || app.draft.totalAmount > 0.0) ==> r.ledger == app.ledger
    ensures Truthy(app.draft.invoiceNumber) ==> r.store == Commit(app.store, app.draft.invoiceNumber.value)
    ensures !Truthy(app.draft.invoiceNumber) ==> r.store == app.store
  {
    var d := app.draft;
    var ledger := if |d.items| > 0 || d.totalAmount > 0.0 then SaveToArchive(app.ledger, d, now) else app.ledger;
    var store := if Truthy(d.invoiceNumber) then Commit(app.store, d.invoiceNumber.value) else app.store;
    App(Idle, CreateDefaultInvoice(store, today), None, false, None, ledger, app.profile, store)
  }

  /** Finishing a draft that carries the proposed number makes the next draft the following number. */
  lemma NewInvoiceProposesFollowingNumber(app: App, now: nat, today: string, n: nat)
    requires n + 2 <= MaxSafeInteger
    requires SequenceKey in app.store && app.store[SequenceKey] == NatToString(n)
    requires app.draft.invoiceNumber == Some(PeekNext(app.store))
    ensures HandleNewInvoice(app, now, today).draft.invoiceNumber == Some(FormatInvoiceNumber(Some(n + 2)))
  {
    var r := HandleNewInvoice(app, now, today);
    CommitPeekAdvances(app.store, n);
    NextSequenceOfStored(r.store, n + 1);
  }

  /** An empty draft is not archived, yet its number is still consumed. */
  lemma NewInvoiceOnEmptyDraftConsumesNumber(app: App, now: nat, today: string, n: nat)
    requires app.draft.items == [] && app.draft.totalAmount <= 0.0
    requires n + 1 <= MaxSafeInteger
    requires SequenceKey in app.store && app.store[SequenceKey] == NatToString(n)
    requires app.draft.invoiceNumber == Some(PeekNext(app.store))
    ensures HandleNewInvoice(app, now, today).ledger == app.ledger
    ensures HandleNewInvoice(app, now, today).store[SequenceKey] == NatToString(n + 1)
  {
    CommitPeekAdvances(app.store, n);
  }

  /** `toggleEditMode`: entering snapshots the draft; leaving restores the snapshot, if any. */
  function ToggleEditMode(app: App): (r: App)
    ensures !app.editing ==> r.editing && r.backup == Some(app.draft) && r.draft == app.draft
    ensures app.editing ==> !r.editing && r.backup == None && r.draft == app.backup.GetOr(app.draft)
    ensures r.(editing := app.editing, backup := app.backup, draft := app.draft) == app
  {
    if app.editing then
      app.(draft := app.backup.GetOr(app.draft), editing := false, backup := None)
    else
      app.(backup := Some(app.draft), editing := true)
  }

  /** `saveEdits`: leaves edit mode keeping the edited draft. */
  function SaveEdits(app: App): (r: App)
    ensures !r.editing && r.backup == None && r.draft == app.draft
    ensures r.(editing := app.editing, backup := app.backup) == app
  {
    app.(editing := false, backup := None)
  }

  /** Line-item edits made in edit mode are undone by cancelling: the draft is the one snapshot. */
  lemma CancelEditRestoresDraft(app: App, ops: seq<ItemOp>)
    requires !app.editing
    requires OpsValid(app.draft, ops)
    ensures var editing := ToggleEditMode(app);
      var edited := editing.(draft := ApplyOps(editing.draft, ops));
      var cancelled := ToggleEditMode(edited);
      cancelled.draft == app.draft && !cancelled.editing && cancelled.backup == None
  {
  }

  /** Saving after edits keeps them. */
  lemma SaveEditKeepsDraft(app: App, ops: seq<ItemOp>)
    requires !app.editing
    requires OpsValid(app.draft, ops)
    ensures var editing := ToggleEditMode(app);
      var edited := editing.(draft := ApplyOps(editing.draft, ops));
      SaveEdits(edited).draft == ApplyOps(app.draft, ops)
  {
  }

  /** The "Save" button: archives the current draft; nothing but the archive and clients changes. */
  function HandleSaveToArchive(app: App, now: nat): (r: App)
    ensures Archivable(app.draft) ==>
      |r.ledger.archive| == |app.ledger.archive| + 1 && r.ledger.archive[0].data == app.draft && r.ledger.archive[1..] == app.ledger.archive
    ensures !Archivable(app.draft) ==> r == app
    ensures r.(ledger := app.ledger) == app
  {
    app.(ledger := SaveToArchive(app.ledger, app.draft, now))
  }

  /** `handleLoadArchive`: the archived invoice replaces the draft wholesale. */
  function HandleLoadArchive(app: App, entry: ArchivedInvoice): (r: App)
    ensures r.draft == entry.data
    ensures r.(draft := app.draft) == app
  {
    app.(draft := entry.data)
  }

  /** Archiving then loading the new entry back gives the draft, whatever was edited in between. */
  lemma ArchiveLoadRoundTrip(app: App, now: nat, later: InvoiceData)
    requires Archivable(app.draft)
    ensures var saved := HandleSaveToArchive(app, now);
      HandleLoadArchive(saved.(draft := later), saved.ledger.archive[0]).draft == app.draft
  {
  }

  /** `handleAutoGenerateInvoiceNumber`: the draft takes the proposed number. */
  function HandleAutoGenerateInvoiceNumber(app: App): (r: App)
    ensures r.draft.invoiceNumber == Some(PeekNext(app.store))
    ensures r.draft.(invoiceNumber := app.draft.invoiceNumber) == app.draft
    ensures r.(draft := app.draft) == app
  {
    app.(draft := app.draft.(invoiceNumber := Some(PeekNext(app.store))))
  }

  /** `handleManualUpdate`: one field of the draft. */
  function HandleManualUpdate(app: App, f: DraftField): (r: App)
    ensures Holds(r.draft, f) && SameExcept(app.draft, r.draft, f)
    ensures r.(draft := app.draft) == app
  {
    app.(draft := ManualUpdate(app.draft, f))
  }

  /** The template order of `cycleTemplate`. */
  const Templates: seq<TemplateType> := [Executive, Modern, Classic]

  function TemplateIndex(t: TemplateType): (i: nat)
    ensures i < |Templates| && Templates[i] == t
  {
    match t
    case Executive => 0
    case Modern => 1
    case Classic => 2
  }

  /** `templates[(templates.indexOf(current) + 1) % templates.length]`. */
  function NextTemplate(t: TemplateType): TemplateType {
    Templates[(TemplateIndex(t) + 1) % |Templates|]
  }

  /** `cycleTemplate`: only the selected template changes. */
  function CycleTemplate(app: App): (r: App)
    ensures r.profile.selectedTemplate == NextTemplate(app.profile.selectedTemplate)
    ensures r.profile.(selectedTemplate := app.profile.selectedTemplate) == app.profile
    ensures r.(profile := app.profile) == app
  {
    app.(profile := app.profile.(selectedTemplate := NextTemplate(app.profile.selectedTemplate)))
  }

  /** The cycle visits executive, modern, classic in that order and returns after three steps. */
  lemma TemplateCycleOrder(t: TemplateType)
    ensures NextTemplate(Executive) == Modern
    ensures NextTemplate(Modern) == Classic
    ensures NextTemplate(Classic) == Executive
    ensures NextTemplate(NextTemplate(NextTemplate(t))) == t
    ensures NextTemplate(t) != t
  {
  }
}
