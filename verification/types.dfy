/** The records of the invoice data lifecycle (types.ts) and the JavaScript truthiness helpers over them. */
module Types {
  import opened Wrappers

  /** `InvoiceStatus`: exactly three states. */
  datatype InvoiceStatus = Paid | Pending | Overdue

  function StatusLabel(s: InvoiceStatus): string {
    match s
    case Paid => "PAID"
    case Pending => "PENDING"
    case Overdue => "OVERDUE"
  }

  /** Reads a status label back; only the three labels are statuses. */
  function ParseStatus(text: string): (r: Option<InvoiceStatus>)
    ensures r.Some? <==> text in {"PAID", "PENDING", "OVERDUE"}
    ensures r.Some? ==> StatusLabel(r.value) == text
  {
    if text == "PAID" then Some(Paid)
    else if text == "PENDING" then Some(Pending)
    else if text == "OVERDUE" then Some(Overdue)
    else None
  }

  lemma StatusLabelRoundTrip(s: InvoiceStatus)
    ensures ParseStatus(StatusLabel(s)) == Some(s)
  {
  }

  /** `InvoiceTemplateType`: exactly three visual variants. */
  datatype TemplateType = Executive | Modern | Classic

  function TemplateLabel(t: TemplateType): string {
    match t
    case Executive => "executive"
    case Modern => "modern"
    case Classic => "classic"
  }

  /** Reads a template name back; only the three names are templates. */
  function ParseTemplate(text: string): (r: Option<TemplateType>)
    ensures r.Some? <==> text in {"executive", "modern", "classic"}
    ensures r.Some? ==> TemplateLabel(r.value) == text
  {
    if text == "executive" then Some(Executive)
    else if text == "modern" then Some(Modern)
    else if text == "classic" then Some(Classic)
    else None
  }

  lemma TemplateLabelRoundTrip(t: TemplateType)
    ensures ParseTemplate(TemplateLabel(t)) == Some(t)
  {
  }

  /** `AppState`: the four states of the generation lifecycle. */
  datatype AppState = Idle | Processing | Succeeded | Errored

  function AppStateLabel(s: AppState): string {
    match s
    case Idle => "IDLE"
    case Processing => "PROCESSING"
    case Succeeded => "SUCCESS"
    case Errored => "ERROR"
  }

  /** Reads a state value back; only the four values are states. */
  function ParseAppState(text: string): (r: Option<AppState>)
    ensures r.Some? <==> text in {"IDLE", "PROCESSING", "SUCCESS", "ERROR"}
    ensures r.Some? ==> AppStateLabel(r.value) == text
  {
    if text == "IDLE" then Some(Idle)
    else if text == "PROCESSING" then Some(Processing)
    else if text == "SUCCESS" then Some(Succeeded)
    else if text == "ERROR" then Some(Errored)
    else None
  }

  lemma AppStateLabelRoundTrip(s: AppState)
    ensures ParseAppState(AppStateLabel(s)) == Some(s)
  {
  }

  /** One billable line. `amount` is `None` when the edited text did not parse (NaN). */
  datatype InvoiceItem = InvoiceItem(
    date: string,
    description: string,
    timeIn: Option<string>,
    timeOut: Option<string>,
    amount: Option<real>)

  /** The draft or archived invoice. */
  datatype InvoiceData = InvoiceData(
    invoiceNumber: Option<string>,
    clientName: string,
    clientAddress: Option<string>,
    invoiceDate: string,
    items: seq<InvoiceItem>,
    subtotal: real,
    totalAmount: real,
    closingMessage: string,
    status: InvoiceStatus)

  /** An entry of the client address book; `lastSeen` is a millisecond timestamp. */
  datatype Client = Client(id: string, name: string, address: string, lastSeen: nat)

  /** An archived invoice: a time-derived id, the archival timestamp and the invoice itself. */
  datatype ArchivedInvoice = ArchivedInvoice(id: string, createdAt: nat, data: InvoiceData)

  /** The company profile; the two images are `None` when removed (`null`). */
  datatype CompanyProfile = CompanyProfile(
    companyName: string,
    companyAddress: string,
    email: string,
    phone: string,
    website: string,
    taxId: string,
    bankDetails: string,
    logoBase64: Option<string>,
    signatureBase64: Option<string>,
    brandColor: string,
    currencySymbol: string,
    termsAndConditions: string,
    selectedTemplate: TemplateType)

  /** The profile installed on first run and on reset. */
  const DefaultProfile := CompanyProfile(
    "amm empress car hire service",
    "Adeleke Adedoyin Victoria Island, Eti Osa, Lagos",
    "ammempresscarhire@gmail.com",
    "08032127110",
    "",
    "",
    "Bank Name: Kuda\nAccount Number: 3002574195\nAccount Name: Amm Empress Car Hire Services",
    None,
    None,
    "#0F172A",
    "\U{20A6}",
    "",
    Executive)

  /** A string is truthy in JavaScript when present and non-empty. */
  predicate Truthy(s: Option<string>) {
    s.Some? && s.value != ""
  }

  /** `s || fallback` for an optional string. */
  function Or(s: Option<string>, fallback: string): (r: string)
    ensures Truthy(s) ==> r == s.value
    ensures !Truthy(s) ==> r == fallback
  {
    if Truthy(s) then s.value else fallback
  }

  /** `Number(x) || 0`: NaN and zero both read as zero. */
  function NumberOrZero(x: Option<real>): real {
    match x
    case Some(v) => v
    case None => 0.0
  }
}
