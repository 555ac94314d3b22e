/**
 * The settings dialog (components/SettingsModal.tsx): editing the company profile, the
 * image-resize dimension rule, and backing up and restoring the stored data. JSON
 * encoding and decoding are parameters; the store is the key/value map of the allocator.
 */
module Settings {
  import opened Wrappers
  import opened Types
  import Allocator

  // ----- Profile form -----

  /** The form inputs that edit a profile field by name. */
  datatype ProfileField =
    | CompanyName | CompanyAddress | Email | Phone | BankDetails
    | TermsAndConditions | BrandColor | CurrencySymbol

  function FieldValue(p: CompanyProfile, f: ProfileField): string {
    match f
    case CompanyName => p.companyName
    case CompanyAddress => p.companyAddress
    case Email => p.email
    case Phone => p.phone
    case BankDetails => p.bankDetails
    case TermsAndConditions => p.termsAndConditions
    case BrandColor => p.brandColor
    case CurrencySymbol => p.currencySymbol
  }

  /** What no form input edits by name. */
  predicate SameNonFormFields(p: CompanyProfile, q: CompanyProfile) {
    p.website == q.website && p.taxId == q.taxId && p.logoBase64 == q.logoBase64
    && p.signatureBase64 == q.signatureBase64 && p.selectedTemplate == q.selectedTemplate
  }

  /** `handleChange`: the named field takes the typed value, every other field is kept. */
  function HandleChange(p: CompanyProfile, f: ProfileField, value: string): (r: CompanyProfile)
    ensures FieldValue(r, f) == value
    ensures forall g: ProfileField | g != f :: FieldValue(r, g) == FieldValue(p, g)
    ensures SameNonFormFields(r, p)
  {
    match f
    case CompanyName => p.(companyName := value)
    case CompanyAddress => p.(companyAddress := value)
    case Email => p.(email := value)
    case Phone => p.(phone := value)
    case BankDetails => p.(bankDetails := value)
    case TermsAndConditions => p.(termsAndConditions := value)
    case BrandColor => p.(brandColor := value)
    case CurrencySymbol => p.(currencySymbol := value)
  }

  /** Changing a field back to what it was restores the profile. */
  lemma HandleChangeUndo(p: CompanyProfile, f: ProfileField, value: string)
    ensures HandleChange(HandleChange(p, f, value), f, FieldValue(p, f)) == p
  {
  }

  function SelectTemplate(p: CompanyProfile, t: TemplateType): (r: CompanyProfile)
    ensures r.selectedTemplate == t && r.(selectedTemplate := p.selectedTemplate) == p
  {
    p.(selectedTemplate := t)
  }

  /** A resized logo replaces the logo. */
  function SetLogo(p: CompanyProfile, image: string): (r: CompanyProfile)
    ensures r.logoBase64 == Some(image) && r.(logoBase64 := p.logoBase64) == p
  {
    p.(logoBase64 := Some(image))
  }

  function RemoveLogo(p: CompanyProfile): (r: CompanyProfile)
    ensures r.logoBase64.None? && r.(logoBase64 := p.logoBase64) == p
  {
    p.(logoBase64 := None)
  }

  /** An uploaded or drawn signature replaces the signature. */
  function SetSignature(p: CompanyProfile, image: string): (r: CompanyProfile)
    ensures r.signatureBase64 == Some(image) && r.(signatureBase64 := p.signatureBase64) == p
  {
    p.(signatureBase64 := Some(image))
  }

  function ClearSignature(p: CompanyProfile): (r: CompanyProfile)
    ensures r.signatureBase64.None? && r.(signatureBase64 := p.signatureBase64) == p
  {
    p.(signatureBase64 := None)
  }

  // ----- Image resizing -----

  /** The width logos and signatures are resized to. */
  const UploadMaxWidth: real := 400.0

  datatype Dimensions = Dimensions(width: real, height: real)

  /** `resizeImage`'s dimension rule: wider than the limit scales down to the limit, keeping the aspect ratio. */
  function Resize(d: Dimensions, maxWidth: real): (r: Dimensions)
    requires maxWidth > 0.0
    ensures d.width > maxWidth ==> r.width == maxWidth
    ensures d.width <= maxWidth ==> r == d
    ensures r.width <= maxWidth
    ensures r.height * d.width == d.height * r.width
  {
    if d.width > maxWidth then Dimensions(maxWidth, d.height * (maxWidth / d.width)) else d
  }

  /** Resizing twice is resizing once. */
  lemma ResizeIdempotent(d: Dimensions, maxWidth: real)
    requires maxWidth > 0.0
    ensures Resize(Resize(d, maxWidth), maxWidth) == Resize(d, maxWidth)
  {
  }

  // ----- Backup and restore -----

  const ProfileKey := "keeper_company_profile"
  const ArchiveKey := "keeper_invoice_archive"
  const ClientsKey := "keeper_saved_clients"

  /** `localStorage.getItem`: absent reads as null. */
  function Get(store: Allocator.Store, key: string): (r: Option<string>)
    ensures r.Some? <==> key in store
    ensures r.Some? ==> r.value == store[key]
  {
    if key in store then Some(store[key]) else None
  }

  /** The backup file's content: the form profile, the raw stored archive, clients and sequence, and a timestamp. */
  datatype BackupDoc = BackupDoc(
    profile: Option<CompanyProfile>,
    archive: Option<string>,
    clients: Option<string>,
    sequence: Option<string>,
    timestamp: string)

  /** `handleBackup`: the record written to the backup file. */
  function Backup(form: CompanyProfile, store: Allocator.Store, timestamp: string): (b: BackupDoc)
    ensures b.profile == Some(form) && b.timestamp == timestamp
    ensures b.archive == Get(store, ArchiveKey)
    ensures b.clients == Get(store, ClientsKey)
    ensures b.sequence == Get(store, Allocator.SequenceKey)
  {
    BackupDoc(Some(form), Get(store, ArchiveKey), Get(store, ClientsKey), Get(store, Allocator.SequenceKey), timestamp)
  }

  /** The result of choosing a backup file. */
  datatype RestoreOutcome =
    | Failed            // unreadable JSON or no profile: nothing is written
    | Cancelled         // the user declined the overwrite: nothing is written
    | Restored(store: Allocator.Store)

  /** `if (value) localStorage.setItem(key, value)`: only a present, non-empty string is written. */
  function SetIfPresent(store: Allocator.Store, key: string, value: Option<string>): (r: Allocator.Store)
    ensures value.Some? && value.value != "" ==> r == store[key := value.value]
    ensures !(value.Some? && value.value != "") ==> r == store
  {
    if value.Some? && value.value != "" then store[key := value.value] else store
  }

  /**
   * `handleRestore`: a document that does not parse or has no profile fails; otherwise,
   * once confirmed, the profile is written and then archive, clients and sequence when present
   * and non-empty.
   */
  function Restore(store: Allocator.Store, text: string, parse: string -> Option<BackupDoc>,
                   encodeProfile: CompanyProfile -> string, confirmed: bool): (r: RestoreOutcome)
    ensures (parse(text).None? || parse(text).value.profile.None?) <==> r.Failed?
    ensures r.Cancelled? <==> (parse(text).Some? && parse(text).value.profile.Some? && !confirmed)
    ensures r.Restored? ==>
      var doc := parse(text).value;
      && ProfileKey in r.store && r.store[ProfileKey] == encodeProfile(doc.profile.value)
      && (forall k | k !in {ProfileKey, ArchiveKey, ClientsKey, Allocator.SequenceKey} ::
            (k in r.store <==> k in store) && (k in store ==> r.store[k] == store[k]))
  {
    match parse(text)
    case None => Failed
    case Some(doc) =>
      match doc.profile
      case None => Failed
      case Some(profile) =>
        if !confirmed then Cancelled
        else
          var s1 := store[ProfileKey := encodeProfile(profile)];
          var s2 := SetIfPresent(s1, ArchiveKey, doc.archive);
          var s3 := SetIfPresent(s2, ClientsKey, doc.clients);
          Restored(SetIfPresent(s3, Allocator.SequenceKey, doc.sequence))
  }

  /** A key among archive, clients and sequence ends up with the backed-up value when that is non-empty, else untouched. */
  lemma RestoreDataKeys(store: Allocator.Store, text: string, parse: string -> Option<BackupDoc>,
                        encodeProfile: CompanyProfile -> string)
    requires parse(text).Some? && parse(text).value.profile.Some?
    ensures var r := Restore(store, text, parse, encodeProfile, true);
      var doc := parse(text).value;
      && r.Restored?
      && Get(r.store, ArchiveKey) == (if doc.archive.Some? && doc.archive.value != "" then doc.archive else Get(store, ArchiveKey))
      && Get(r.store, ClientsKey) == (if doc.clients.Some? && doc.clients.value != "" then doc.clients else Get(store, ClientsKey))
      && Get(r.store, Allocator.SequenceKey) ==
           (if doc.sequence.Some? && doc.sequence.value != "" then doc.sequence else Get(store, Allocator.SequenceKey))
  {
  }

  /**
   * Restoring a backup of the same store, read back faithfully, changes only the stored
   * profile: archive, clients and sequence keep their values, present or not.
   */
  lemma RestoreOwnBackup(form: CompanyProfile, store: Allocator.Store, timestamp: string, text: string,
                         parse: string -> Option<BackupDoc>, encodeProfile: CompanyProfile -> string)
    requires parse(text) == Some(Backup(form, store, timestamp))
    ensures Restore(store, text, parse, encodeProfile, true) == Restored(store[ProfileKey := encodeProfile(form)])
  {
    var doc := Backup(form, store, timestamp);
    var s1 := store[ProfileKey := encodeProfile(form)];
    var s2 := SetIfPresent(s1, ArchiveKey, doc.archive);
    var s3 := SetIfPresent(s2, ClientsKey, doc.clients);
    var s4 := SetIfPresent(s3, Allocator.SequenceKey, doc.sequence);
    assert s2 == s1;
    assert s3 == s1;
    assert s4 == s1;
  }
}
