# Invoice Generator: a Dafny model of the invoice data lifecycle

This project models the core of an invoice generator for a car-hire business, written in
TypeScript and React. A user pastes trip notes, or drops an image, audio recording or text file.
An extraction service turns them into a structured invoice draft. The user then edits the
draft's line items, whose totals are recomputed on every change. Finished drafts are archived
with a client address book kept beside them, and invoice numbers come from a persisted sequence
(`INV-001`, `INV-002`, …). Archived invoices can be searched, re-statused and summarised in a
revenue dashboard. A draft can be exported as CSV, a payment receipt can be issued for it, and
the whole local store can be backed up and restored.

The model is pure Dafny: immutable datatypes for the records of `types.ts`, and one function per
handler, each a transition of the state it touches. Anything the browser provides is a
parameter:
- the clock and "today";
- the extraction result;
- JSON parsing and serialisation;
- date parsing;
- number formatting (`toFixed`).

Modules follow the program:

| module | models |
|---|---|
| `Types` | records, statuses, templates, app states, the default profile, JavaScript truthiness |
| `Text` | trim, ASCII lower-casing, `includes`, `padStart`, `parseInt`, trailing digit runs |
| `Seqs` | sums, filter, a descending insertion sort, top-n selection |
| `Allocator` | the invoice-number sequence over the local store |
| `ClientDirectory` | the case-insensitive client upsert |
| `Draft` | default draft, manual field updates, line-item handlers and the totals invariant |
| `Archive` | save, delete and status update on the archive |
| `Lifecycle` | the application state machine: generate, new invoice, edit mode, load, template cycle |
| `Csv` | field escaping, row flattening, CSV text and file name, plus a CSV reader as partner |
| `ArchiveBrowser` | search filter, newest-first order, status cycle, status colour |
| `Dashboard` | revenue totals, period revenue, per-client tallies, top five clients |
| `InputSection` | file routing, client-name autofill, submission gate |
| `Receipt` | receipt form reset, balance due, edit/export gating, payment modes |
| `Settings` | profile form, image resize rule, backup and restore of the local store |

The model follows the code in these places:
- **New invoice.** Starting a new invoice commits the current invoice number even when the draft
  is empty and is not archived (`Lifecycle.NewInvoiceOnEmptyDraftConsumesNumber`).
- **Total-only drafts.** A draft with a positive total but no items and no client name reaches
  `saveToArchive`, which then archives nothing.
- **Whitespace-only client names.** The client upsert tests the untrimmed name for emptiness, so
  a name of blanks is stored under the empty name.
- **Date search.** The archive search lower-cases the term but not the date it searches, so an
  upper-case term never matches a date (`ArchiveBrowser.DateSearchIsCaseSensitive`).
- **Carriage returns in CSV.** CSV escaping quotes a field for a comma, a double quote or a line
  feed only. A carriage return alone does not trigger quoting (`Csv.CarriageReturnNotQuoted`).
- **The Generate button.** The button is enabled by untrimmed text, but submission tests trimmed
  text. Whitespace-only notes therefore enable the button and send nothing
  (`InputSection.BlankTextEnablesButNotSubmit`).
- **Emoji in CSV file names.** The file-name pattern has no `u` flag, so it replaces UTF-16 code
  units: a character outside the Basic Multilingual Plane becomes two underscores
  (`Csv.EmojiClientFileName`).
- **Clients named after `Object.prototype` properties.** The dashboard groups clients in a
  plain object. A client called `constructor`, `toString` or `__proto__` finds an inherited
  value, gets no entry of its own, and is missing from the tallies
  (`Dashboard.InheritedClientUnlisted`).

## Model

| member | source | states |
|---|---|---|
| `Types.ParseStatus` | types.ts:10 | exactly the three status labels are statuses, and a parsed status prints back as its label |
| `Types.StatusLabelRoundTrip` | types.ts:10 | every status survives printing and parsing |
| `Types.ParseTemplate` | types.ts:37 | exactly the three template names are templates, and a parsed template prints back as its name |
| `Types.TemplateLabelRoundTrip` | types.ts:37 | every template survives printing and parsing |
| `Types.ParseAppState` | types.ts:55-60 | exactly the four enum values are application states, each printing back as itself |
| `Types.AppStateLabelRoundTrip` | types.ts:55-60 | every application state survives printing and parsing |
| `Types.Or` | App.tsx:164 | `s \|\| fallback`: a present non-empty string wins, anything else yields the fallback |
| `Text.Trim` | App.tsx:155 | the result is a contiguous slice of the input with only white space cut from each end, and it neither starts nor ends with white space |
| `Text.ToLower` | App.tsx:158 | lower-casing keeps the length and maps each character independently |
| `Text.PadStart` | App.tsx:37 | the padded text ends with the original, is at least the requested width, and is filled in front only |
| `Text.NatToString` | App.tsx:48 | the decimal rendering is non-empty, digits only, without a leading zero, and denotes the number |
| `Text.ParseIntOfNatToString` | App.tsx:36 | `parseInt` reads back what `toString` wrote |
| `Text.TrimCut` | App.tsx:155 | cutting leading white space and then trailing white space leaves a slice of the input with only white space cut from each end and none left at either end |
| `Text.TrailingDigits` | App.tsx:41 | the result is the longest run of digits at the end of the text |
| `Allocator.PeekNext` | App.tsx:33-38 | the proposal is `INV-` and the text of the next sequence, zero-padded in front to three characters when shorter and not padded otherwise; it is `INV-001` on a store without a sequence |
| `Allocator.PeekNextValue` | App.tsx:33-38 | with sequence `n` stored and `n + 1` a safe integer, the digits after `INV-` form the whole trailing digit run, denote `n + 1`, and are zero-padded to exactly three digits when shorter and not at all otherwise |
| `Allocator.PeekNextOfStored` | App.tsx:33-38 | with sequence `n` stored and `n + 1` a safe integer, the proposal is `INV-` and `n + 1` padded to three digits |
| `Allocator.NextSequenceOfStored` | App.tsx:35-36 | a stored decimal `n` makes the next sequence `n + 1`, while that is a safe integer |
| `Allocator.Commit` | App.tsx:40-50 | only the sequence key changes; it holds the value of the number's trailing digits, or the proposal when there are none |
| `Allocator.CommitThenPeek` | App.tsx:40-50 | after committing a number whose digits denote `v`, with `v + 1` a safe integer, the next proposal is number `v + 1` |
| `Allocator.CommitPeekAdvances` | App.tsx:33-50 | committing the number just proposed advances the stored sequence by exactly one, while it stays a safe integer |
| `Allocator.CommitWithoutDigits` | App.tsx:44-48 | committing a number with no trailing digits still advances the sequence by one, while it stays a safe integer |
| `Allocator.CommitSevenProposesEight` | App.tsx:40-50 | committing `INV-007` makes the next proposal `INV-008`, whatever was stored |
| `ClientDirectory.FindByLowerName` | App.tsx:158 | the result is the first client whose lower-cased name equals the key; none means no client matches |
| `ClientDirectory.Touch` | App.tsx:161-165 | a known client keeps id and name, is seen now, and gets the new address only if it is non-empty |
| `ClientDirectory.NewClient` | App.tsx:167-172 | a new client is stored under the trimmed name, with a time-derived id and the address or empty |
| `ClientDirectory.SaveClientIfNew` | App.tsx:153-180 | an empty name changes nothing; otherwise the book is ordered most recent first and is the old book with the match touched, or with one new client added |
| `ClientDirectory.SaveClientKeepsNamesUnique` | App.tsx:153-180 | the upsert never creates two entries whose names differ only in case |
| `ClientDirectory.UpsertFindsCaseInsensitively` | App.tsx:155-158 | upserting " Acme " when "acme" is known adds no entry |
| `Draft.CreateDefaultInvoice` | App.tsx:53-63 | a fresh draft has no client and no items, zero consistent totals, status PENDING, the proposed number, today's date and the default closing message |
| `Draft.ManualUpdate` | App.tsx:225-227 | the named field takes the value and every other field is unchanged |
| `Draft.WithItems` | App.tsx:411-413 | the new items are installed, subtotal and total equal their sum, and nothing else changes |
| `Draft.ChangeLineItem` | App.tsx:408-415 | the edited item changes, all others stay, and both totals equal the sum of the amounts |
| `Draft.RemoveAt` | App.tsx:419 | an in-range index drops exactly that element; any other index leaves the list as it was |
| `Draft.DeleteLineItem` | App.tsx:417-423 | the item at the index is removed if it exists, and both totals equal the sum of what remains |
| `Draft.AddLineItem` | App.tsx:425-430 | a zero-amount "New Trip" dated like the invoice is appended; consistent totals stay consistent |
| `Draft.ItemOpsKeepTotals` | App.tsx:408-430 | after any sequence of line-item changes, deletions and additions, subtotal and total equal the sum of the amounts |
| `Draft.DeleteFirstOfTwo` | App.tsx:417-423 | deleting the first of the items 100 and 250.5 leaves a total of 250.5 |
| `Archive.SaveToArchive` | App.tsx:183-196 | a draft without items and client name is ignored; otherwise it goes in front of the archive with a time-derived id and its client is upserted |
| `Archive.DeleteArchive` | App.tsx:198-202 | no entry with the id survives, every other entry survives as often as before, and an absent id changes nothing |
| `Archive.DeleteArchiveConcat` | App.tsx:199 | deletion works piecewise, so the survivors keep their relative order |
| `Archive.UpdateArchiveStatus` | App.tsx:204-210 | the entries with the id get the new status, nothing else of them changes, and all other entries are untouched |
| `Lifecycle.BeginGenerate` | App.tsx:234-238 | generation enters PROCESSING with no error and leaves edit mode without restoring |
| `Lifecycle.BackfillAddress` | App.tsx:262-268 | an extracted invoice without address takes the address of the first client matching its trimmed lower-cased name; nothing else changes |
| `Lifecycle.FinishGenerate` | App.tsx:270-277 | success installs the backfilled draft; failure keeps the draft and reports the message, or the fallback text when it is empty |
| `Lifecycle.HandleGenerate` | App.tsx:234-278 | generation always ends outside edit mode, in SUCCESS without error or in ERROR with one, and never touches archive, store or profile |
| `Lifecycle.GenerateBackfillsKnownAddress` | App.tsx:262-268 | an extraction without address for a known client gets that client's address |
| `Lifecycle.HandleNewInvoice` | App.tsx:365-380 | a draft with items or a positive total is archived; a numbered draft is committed; the app returns to IDLE with a fresh draft numbered from the updated store |
| `Lifecycle.NewInvoiceProposesFollowingNumber` | App.tsx:365-380 | finishing a draft that carries the proposal `n + 1` makes the next draft number `n + 2`, while that is a safe integer |
| `Lifecycle.NewInvoiceOnEmptyDraftConsumesNumber` | App.tsx:365-372 | an empty draft is not archived, yet its number is consumed, while the sequence stays a safe integer |
| `Lifecycle.ToggleEditMode` | App.tsx:392-401 | entering edit mode snapshots the draft; leaving it restores the snapshot, if any, and drops it |
| `Lifecycle.SaveEdits` | App.tsx:403-406 | saving leaves edit mode keeping the edited draft |
| `Lifecycle.CancelEditRestoresDraft` | App.tsx:392-401 | any line-item edits made in edit mode are undone by toggling edit mode off |
| `Lifecycle.SaveEditKeepsDraft` | App.tsx:403-406 | saving after line-item edits keeps exactly those edits |
| `Lifecycle.HandleSaveToArchive` | App.tsx:588 | the Save button archives an archivable draft in front of the archive and changes nothing but the ledger |
| `Lifecycle.HandleLoadArchive` | App.tsx:212-216 | loading replaces the draft with the archived invoice and nothing else |
| `Lifecycle.ArchiveLoadRoundTrip` | App.tsx:183-216 | archiving a draft and loading the new entry back restores the draft, whatever was edited in between |
| `Lifecycle.HandleAutoGenerateInvoiceNumber` | App.tsx:229-232 | only the draft's number changes, to the allocator's proposal |
| `Lifecycle.HandleManualUpdate` | App.tsx:225-227 | one draft field is set and the rest of the application state is untouched |
| `Lifecycle.TemplateIndex` | App.tsx:383-384 | each template sits at its index in the cycle order |
| `Lifecycle.CycleTemplate` | App.tsx:382-390 | only the selected template changes, to the next one in the cycle |
| `Lifecycle.TemplateCycleOrder` | App.tsx:382-390 | the cycle goes executive, modern, classic, never stays put, and returns after three steps |
| `Csv.EscapeField` | services/csvGenerator.ts:4-14 | an absent field is empty, a field without comma, quote or line feed is unchanged, and any other is quoted so that un-doubling its inside recovers it |
| `Csv.UndoubleDoubleQuotes` | services/csvGenerator.ts:11 | un-doubling quotes inverts doubling them |
| `Csv.EscapeFieldRoundTrip` | services/csvGenerator.ts:4-14 | unescaping an escaped field gives the field back |
| `Csv.EscapeFieldQuotedIffSpecial` | services/csvGenerator.ts:10-11 | an escaped field starts with a quote exactly when the field needs quoting |
| `Csv.EscapeFieldInjective` | services/csvGenerator.ts:4-14 | different fields escape differently |
| `Csv.CarriageReturnNotQuoted` | services/csvGenerator.ts:10 | a field with a carriage return but none of the special characters is exported unquoted |
| `Csv.Rows` | services/csvGenerator.ts:34-63 | one 11-cell row per item repeating the invoice cells and total, or one placeholder row with empty trip cells and amount `0.00` when there are no items |
| `Csv.ParseFieldRoundTrip` | services/csvGenerator.ts:4-14 | reading an escaped field followed by a separator yields the field and the separator |
| `Csv.ParseRecordRoundTrip` | services/csvGenerator.ts:67-68 | reading an encoded row yields the text of each of its cells |
| `Csv.ParseCsvRoundTrip` | services/csvGenerator.ts:66-69 | reading line-feed-joined encoded rows yields every row's cell texts |
| `Csv.CsvContentRoundTrip` | services/csvGenerator.ts:16-69 | reading the exported CSV text gives back the header and every cell of every row |
| `Csv.CsvContentNoTrailingLineFeed` | services/csvGenerator.ts:66-69 | the CSV text is non-empty and does not end with a line feed |
| `Csv.Utf16Length` | services/csvGenerator.ts:76 | a JavaScript string is at least as long as its count of characters |
| `Csv.Utf16LengthBmp` | services/csvGenerator.ts:76 | the JavaScript length equals the character count exactly when no character lies outside the Basic Multilingual Plane |
| `Csv.SanitizeChar` | services/csvGenerator.ts:76 | an ASCII letter or digit is kept; any other character becomes one underscore per UTF-16 code unit |
| `Csv.SanitizeName` | services/csvGenerator.ts:76 | the result is as long as the name in UTF-16 code units and holds only letters, digits and underscores |
| `Csv.SanitizeNameBmp` | services/csvGenerator.ts:76 | for a name inside the Basic Multilingual Plane, each ASCII letter or digit is kept and every other character becomes one underscore |
| `Csv.SanitizeNameEmoji` | services/csvGenerator.ts:76 | an emoji, one character of two code units, becomes two underscores |
| `Csv.SanitizeNameSafe` | services/csvGenerator.ts:76 | the sanitised name holds only letters, digits and underscores, and sanitising changes a name exactly when it held something else |
| `Csv.CsvFileName` | services/csvGenerator.ts:76-78 | the file name is `Invoice_`, the sanitised client (or `Client`) of its UTF-16 length and safe characters only, `_`, the number (or `Draft`) and `.csv`; a client inside the Basic Multilingual Plane is mapped character by character |
| `Csv.EmojiClientFileName` | services/csvGenerator.ts:76-78 | a client `A` plus an emoji with no number downloads as `Invoice_A___Draft.csv` |
| `ArchiveBrowser.FilteredInvoices` | components/InvoiceArchive.tsx:21-30 | the result is exactly the matching invoices, each as often as in the input, newest first |
| `ArchiveBrowser.EmptySearchKeepsAll` | components/InvoiceArchive.tsx:21-29 | an empty search lists every invoice |
| `ArchiveBrowser.DateSearchIsCaseSensitive` | components/InvoiceArchive.tsx:27 | a date containing "M" is not found by searching "M" |
| `ArchiveBrowser.DisplayStatus` | components/InvoiceArchive.tsx:113-116 | a missing status is shown as PENDING; a stored one as itself |
| `ArchiveBrowser.NextStatus` | components/InvoiceArchive.tsx:43-44 | a click moves to the next status in the order PENDING, PAID, OVERDUE, wrapping round, and always changes it |
| `ArchiveBrowser.StatusCycleReturns` | components/InvoiceArchive.tsx:41-46 | three clicks return to the start, passing through all three statuses |
| `ArchiveBrowser.ToggleStatus` | components/InvoiceArchive.tsx:41-46 | the clicked invoice gets a different status, the next after its shown one, and all others are untouched |
| `ArchiveBrowser.ToggleClickedChanges` | components/InvoiceArchive.tsx:41-46 | clicking an entry's pill with that entry's own status moves it to the next status, so it always changes |
| `ArchiveBrowser.StatusTone` | components/InvoiceArchive.tsx:32-38 | PAID is green, OVERDUE red and PENDING amber, and each colour belongs to one status only |
| `Dashboard.ClientKey` | components/Dashboard.tsx:40 | the grouping key is the trimmed client name, or "Unknown Client" when that is empty; never empty |
| `Dashboard.Bump` | components/Dashboard.tsx:41-45 | a client with an own entry gets its count bumped by one and its revenue by the amount; a client without one gets a new tally at the end |
| `Dashboard.AddToTally` | components/Dashboard.tsx:24-45 | a client named after an `Object.prototype` property leaves the tally unchanged; any other client is bumped |
| `Dashboard.TalliesExact` | components/Dashboard.tsx:24-46 | each tally counts exactly the entries with its key and sums exactly their amounts, names are distinct and never inherited property names, and other keys without a tally have no entries |
| `Dashboard.TalliesAddUp` | components/Dashboard.tsx:24-46 | the tally counts add up to the number of entries with a key of their own and the revenues to those entries' total amount |
| `Dashboard.ClientTalliesExact` | components/Dashboard.tsx:24-46 | each client's tally counts exactly that client's invoices and revenue, once per client, and no tally is an inherited property name |
| `Dashboard.ClientTalliesCover` | components/Dashboard.tsx:24-46 | an invoice's client has a tally exactly when its name is not an inherited property name, and every tally has an invoice |
| `Dashboard.ClientTalliesAddUp` | components/Dashboard.tsx:24-59 | per-client counts add up to the number of listed invoices and revenues to their total; with no inherited names, to the invoice count and the total revenue |
| `Dashboard.InheritedClientUnlisted` | components/Dashboard.tsx:24-41 | a client called `constructor`, `toString` or any other `Object.prototype` property never gets a tally |
| `Dashboard.TopClients` | components/Dashboard.tsx:48-51 | at most five tallies, busiest first, drawn from the tallies, and no tally left out has a higher count than one kept |
| `Dashboard.Accumulate` | components/Dashboard.tsx:27-45 | one invoice adds its amount to the total, and to the month and week figures exactly when it falls in them |
| `Dashboard.RunningOfSums` | components/Dashboard.tsx:26-39 | the pass computes the total and, for each period, the sum over the invoices in it |
| `Dashboard.RunningOfTallies` | components/Dashboard.tsx:40-46 | the pass builds the client tally |
| `Dashboard.PeriodRevenue` | components/Dashboard.tsx:32-38 | adding in-period shares is summing the amounts of the invoices in the period |
| `Dashboard.ComputeStats` | components/Dashboard.tsx:12-60 | the overview counts all invoices, sums all amounts, sums the amounts dated this month and this week, and ranks the client tallies, none of which is an inherited property name |
| `InputSection.AppendText` | components/InputSection.tsx:43 | text file content becomes the notes when they are empty, else follows them after a blank line |
| `InputSection.ProcessFile` | components/InputSection.tsx:33-47 | an image or audio file fills its slot, a plain-text file is appended to the notes, any other file changes nothing |
| `InputSection.ProcessFilesConcat` | components/InputSection.tsx:32-49 | processing a batch is processing its parts one after the other |
| `InputSection.ProcessFilesImage` | components/InputSection.tsx:34-36 | the image slot ends up with the batch's last image, or keeps its old content if there is none |
| `InputSection.ProcessFilesAudio` | components/InputSection.tsx:37-38 | the audio slot ends up with the batch's last audio file, or keeps its old content if there is none |
| `InputSection.ProcessFilesText` | components/InputSection.tsx:39-46 | with notes present, every text file is appended after a blank line, in batch order |
| `InputSection.IgnoredFilesChangeNothing` | components/InputSection.tsx:32-49 | dropping files of unhandled types first gives the same inputs |
| `InputSection.ClientNameChange` | components/InputSection.tsx:68-75 | the name is set, and the address changes only to the non-empty address of the first client with the same lower-cased name |
| `InputSection.Submit` | components/InputSection.tsx:94-97 | the inputs are sent unchanged unless the trimmed text is empty and there is no image and no audio |
| `InputSection.SubmitWhenEnabled` | components/InputSection.tsx:94-97 | outside processing, whatever can be sent has an enabled button, and an enabled button that sends nothing means blank text only |
| `InputSection.BlankTextEnablesButNotSubmit` | components/InputSection.tsx:281 | whitespace-only notes enable the Generate button yet send nothing |
| `InputSection.RemoveImage` | components/InputSection.tsx:83-87 | removing the image clears only the image |
| `InputSection.RemoveAudio` | components/InputSection.tsx:89-92 | removing the audio clears only the audio |
| `Receipt.ParseMethod` | components/PaymentReceipt.tsx:264-268 | only the five option values are payment modes, each reading back as its label |
| `Receipt.MethodLabelRoundTrip` | components/PaymentReceipt.tsx:264-268 | every payment mode survives printing and parsing |
| `Receipt.InitialForm` | components/PaymentReceipt.tsx:16-20 | a new receipt shows the invoice total, today, the client as payer and bank transfer, not editing |
| `Receipt.OnOpen` | components/PaymentReceipt.tsx:23-30 | opening resets amount, date, payer and the edit flag to their initial values and keeps the payment mode |
| `Receipt.BalanceDue` | components/PaymentReceipt.tsx:35-36 | the balance is never negative, is total minus amount when positive, and is NaN exactly when the amount is |
| `Receipt.BalanceShownIffPartial` | components/PaymentReceipt.tsx:36-37 | the balance line shows exactly for a partial payment, where amount and balance make up the total; otherwise the balance is zero |
| `Receipt.ShownAmount` | components/PaymentReceipt.tsx:203 | a NaN amount is shown as zero; any other as itself |
| `Receipt.StartEditing` | components/PaymentReceipt.tsx:322 | editing starts and nothing else changes |
| `Receipt.FinishEditing` | components/PaymentReceipt.tsx:315 | editing ends and nothing else changes |
| `Receipt.Export` | components/PaymentReceipt.tsx:39-81 | print and PDF are refused while editing; otherwise they leave edit mode and keep every entered value |
| `Receipt.ExportAfterEditing` | components/PaymentReceipt.tsx:315-350 | after "Done Editing" an export is always possible and keeps every entered value |
| `Settings.HandleChange` | components/SettingsModal.tsx:85-88 | the named field takes the value, every other form field and every non-form field is kept |
| `Settings.HandleChangeUndo` | components/SettingsModal.tsx:85-88 | typing a field's old value back restores the profile |
| `Settings.SelectTemplate` | components/SettingsModal.tsx:90-92 | only the selected template changes |
| `Settings.SetLogo` | components/SettingsModal.tsx:95-105 | only the logo changes, to the resized image |
| `Settings.RemoveLogo` | components/SettingsModal.tsx:107-110 | only the logo changes, to none |
| `Settings.SetSignature` | components/SettingsModal.tsx:113-123 | only the signature changes, to the new image |
| `Settings.ClearSignature` | components/SettingsModal.tsx:185-188 | only the signature changes, to none |
| `Settings.Resize` | components/SettingsModal.tsx:22-28 | an image no wider than the limit is kept; a wider one is scaled to the limit's width with its aspect ratio kept |
| `Settings.ResizeIdempotent` | components/SettingsModal.tsx:13-44 | resizing an already resized image changes nothing |
| `Settings.Get` | components/SettingsModal.tsx:195-197 | reading a key yields its value when stored and null otherwise |
| `Settings.Backup` | components/SettingsModal.tsx:192-199 | the backup holds the form profile, the stored archive, clients and sequence as stored, and the timestamp |
| `Settings.SetIfPresent` | components/SettingsModal.tsx:226-228 | a key is written only with a present, non-empty value; otherwise the store is unchanged |
| `Settings.Restore` | components/SettingsModal.tsx:212-239 | a file that does not parse or has no profile fails; declining the confirmation changes nothing; a confirmed restore writes the profile and touches no other keys |
| `Settings.RestoreDataKeys` | components/SettingsModal.tsx:225-228 | each of archive, clients and sequence takes the backed-up value when it is non-empty and is untouched otherwise |
| `Settings.RestoreOwnBackup` | components/SettingsModal.tsx:192-228 | restoring a backup of the same store writes back only the profile |

## Left out

- File reading, image decoding, the canvas, JPEG compression, blobs, downloads, printing,
  DOCX and PDF generation, and the invoice template rendering: these are output devices. The
  model stops at the data they receive.
- The extraction service: it is a remote model call. `Lifecycle.HandleGenerate` takes its
  outcome as a parameter, and the service's status default appears only as
  `ArchiveBrowser.DisplayStatus` (services/geminiService.ts:135).
- JSON parsing and serialisation, `toFixed`, `toLocaleString` and `Date` parsing are passed in
  as functions. The calendar arithmetic behind the start of the week is a `Clock` parameter.
- Each `Date.now()` in one handler is one `now` parameter, although the code reads the clock
  more than once.
- React state batching and the stale closures of `saveToArchive` and `handleGenerate` are not
  modelled. Each handler is a single sequential transition over the current state.
- The JSON write-through of archive, clients and profile to the local store is not modelled,
  and neither are the persisted profile writes on template cycle and profile save. The archive
  and the client book are in-memory lists. The store is modelled only for the invoice sequence,
  backup and restore.
- The server-side branch of `getNextInvoiceNumber` (no `window`) is not modelled.
- A client named `__proto__` makes the code write NaN `count` and `revenue` onto
  `Object.prototype` itself. The model only leaves that client out of the tally.
- `Object.entries` lists integer-like keys first. The dashboard tallies are kept in first-seen
  order.
- NaN invoice totals are not modelled. Totals are reals computed from the amounts, where a NaN
  amount counts as zero. A NaN item amount is modelled (`Option<real>`).
- Floating-point rounding is not modelled: amounts are exact reals.
- Canvas dimensions are reals, not truncated to integers.
- `FileReader` callbacks may complete out of order. The model appends text files in batch order.
- Text.NatToString: writes every natural number exactly. A JavaScript Number holds integers
  exactly only up to 2^53 - 1 (`Number.MAX_SAFE_INTEGER`, `Text.MaxSafeInteger`), and
  `toString` writes values of 10^21 and more in exponent form (`1e+21`).
- Text.ParseInt: reads any digit run exactly, where `parseInt` rounds a run at or above 2^53
  to the nearest Number.
- Text.ParseIntOfNatToString: holds for every natural in the model, but in the code only up to
  `Number.MAX_SAFE_INTEGER`.
- Allocator.Commit: stores the exact value of the trailing digits. The code rounds a run at or
  above 2^53 (`INV-9007199254740993` stores `9007199254740992`, and the same number is then
  proposed again) and stores `1e+21` for `INV-1000000000000000000000`, after which the proposal
  is `INV-002`.
- Allocator.NextSequenceOfStored: requires the numbers involved to stay at or below `Number.MAX_SAFE_INTEGER`.
- Allocator.PeekNextValue: requires the numbers involved to stay at or below `Number.MAX_SAFE_INTEGER`.
- Allocator.PeekNextOfStored: requires the numbers involved to stay at or below `Number.MAX_SAFE_INTEGER`.
- Allocator.CommitThenPeek: requires the numbers involved to stay at or below `Number.MAX_SAFE_INTEGER`.
- Allocator.CommitPeekAdvances: requires the numbers involved to stay at or below `Number.MAX_SAFE_INTEGER`.
- Allocator.CommitWithoutDigits: requires the numbers involved to stay at or below `Number.MAX_SAFE_INTEGER`.
- Lifecycle.NewInvoiceProposesFollowingNumber: requires the sequence to stay at or below `Number.MAX_SAFE_INTEGER`.
- Lifecycle.NewInvoiceOnEmptyDraftConsumesNumber: requires the sequence to stay at or below `Number.MAX_SAFE_INTEGER`.
- Text.ToLower: lower-cases ASCII letters only, where JavaScript lower-cases all of Unicode.
- Seqs.SortDesc: sortedness and permutation are proved, not the stability of
  `Array.prototype.sort`.
- Dashboard.TopClients: ties in count may be ordered differently from the code, since stability
  is not proved.
- Receipt.BalanceDue: a NaN total is not modelled, so the balance is NaN only for a NaN amount.
- Draft.ChangeLineItem: requires an existing index. The table only edits rendered rows, and the
  code would create a partial item otherwise.
