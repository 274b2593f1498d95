# Invoice rendering and invoice screens, modelled in Dafny

This project models the core of a small invoicing application. The app has React screens, an express PDF server and a few serverless handlers. The model covers:

- **Money shown on an invoice.** Each line's net total, VAT and amount on the printed invoice. The padding of the line table to eight rows. The summary box, which shows the invoice's stored columns.
- **Dashboard figures.** The total and paid revenue, the five most recent invoices and the two counts.
- **The invoice list's filter.** A case-insensitive search on the invoice number or the client's name, a status filter, and the text shown when nothing is left.
- **The invoice form.** Its initial state and defaults, the line-list edits (add, remove and update a line), loading a stored invoice, and the guard on submission.
- **The PDF server's render route.** It launches a headless browser, opens a page, sets an optional bearer header, loads the print view, switches to print media and prints an A4 PDF. It always closes what it launched.
- **The serverless launch-option selection.** A constrained or unrestricted profile, picked by `VERCEL`.
- **The plain-text fallback.** An attachment that names the invoice and the export time.
- **Uploading a business logo.** There are two server routes. The settings screen checks the file on the client, and when the server route fails it uploads directly to storage.
- **The settings form's defaults.** What the form shows when stored fields are missing.
- **The install-as-app state and its banner.**

Each source file has its own Dafny module:

| Dafny module | Source file |
|---|---|
| `InvoicePrint` | `project/src/components/InvoicePrint.tsx` |
| `InvoiceForm` | `project/src/components/InvoiceForm.tsx` |
| `Dashboard` | `project/src/components/Dashboard.tsx` |
| `InvoiceList` | `project/src/components/InvoiceList.tsx` |
| `PdfServer` | `project/server/index.js` |
| `BrowserLaunch` | `project/api/utils/browser.ts` |
| `PdfText` | `project/api/pdf-text.ts` |
| `LogoUpload` | `project/api/logo.ts` |
| `Settings` | `project/src/components/Settings.tsx` |
| `Pwa` | `project/src/hooks/usePWA.ts` and `project/src/components/InstallPWA.tsx` |

Shared modules:

- `Types` holds the records of `project/src/types/index.ts`.
- `Http` holds a handler's reply as a value: status, headers and body.
- `Wrappers` holds `Option`.
- `Js` holds the JavaScript runtime behaviour the code relies on:
  - the `a || b` fallback on strings and numbers;
  - `process.env` lookups;
  - `String.prototype.toLowerCase`, `includes`, `startsWith` and `endsWith`;
  - `split(sep).pop()`;
  - `Array.prototype.filter`;
  - the decimal text of a whole number.

How the modules are written:

- **Money is `real`.** A JavaScript `x || 0` on a number is `OrNumber`: a missing value or `0` is replaced by the default.
- **Handlers return values.** Each HTTP handler is a method that returns a `Reply`, instead of writing into a framework `res` object.
- **The browser is a resource whose calls can throw.** Any run of it is fixed by a `Plan`: the set of calls that throw and the length of the PDF. `RenderInvoicePdf` returns the trace of calls it made, and every event in it resolved exactly when the plan does not make its call throw. Its contract therefore holds for every possible failure pattern.
- **Component state is a class.** The invoice form, the settings screen, the install hook and the install banner are classes whose fields are the component's state. The handlers are methods. Anything the handlers do outside that state (alerts, fetches, storage calls, saves, navigation) is returned as a list of effects. What a collaborator answers (the storage client, the server, the details hook, the user's confirmation or install choice) is a parameter.

Several behaviours of the code are easy to assume otherwise. The model follows the code:

- **The summary box.** It shows the subtotal, tax amount and total stored on the invoice (`project/src/components/InvoicePrint.tsx:74-76`). It does not recompute them from the lines.
- **Sandbox flags.** The sandbox-disabling flags `--no-sandbox --disable-setuid-sandbox` are used on the unrestricted profile. The constrained profile uses the flags the chromium package supplies (`project/api/utils/browser.ts:11`). The express server always uses the fixed flags and does not call `launchBrowser` (`project/server/index.js:45`).
- **No navigation timeout.** The page load sets none (`project/server/index.js:53`). A load that fails for any reason is modelled as a `Goto` call that throws.
- **Multi-value ids.** These are not rejected structurally. Only a missing or empty id is refused (`project/server/index.js:39`, `project/api/pdf-text.ts:5`).
- **Cleared settings come back.** Saving stores the form as it stands, but loading applies `|| default` again (`project/src/components/Settings.tsx:31-44`). A currency or account type cleared to '' or a VAT rate set to 0 therefore reloads as 'R', 'BUSINESS ACCOUNT' or 15.
- **No automatic text fallback.** The text fallback is a separate route. A failed PDF render answers 500 and does not switch to it (`project/server/index.js:60-62`).

## Model

| member | source | states |
|---|---|---|
| Js.Lower | project/api/logo.ts:35 | `toLowerCase` keeps the length and maps every character by the ASCII case mapping |
| Js.LowerIdempotent | project/src/components/InvoiceList.tsx:16 | lower-casing twice is the same as lower-casing once |
| Js.LowerOfLower | project/api/logo.ts:35-36 | a text with no upper-case letter is left unchanged |
| Js.LowerKeepsChar | project/api/logo.ts:35 | a character that is not a letter (such as '.') occurs in the lowered text iff it occurs in the original |
| Js.IncludesAt | project/src/components/InvoiceList.tsx:16 | `includes(sub)` holds iff `sub` occurs at some offset |
| Js.IncludesMiddle | project/api/pdf-text.ts:18-20 | a text includes whatever stands between a prefix and a suffix |
| Js.StartsWithConcat | project/api/pdf-text.ts:18-19 | a prefix of a prefix is a prefix of the whole |
| Js.LastSegment | project/api/logo.ts:35 | `split(sep).pop()` is a suffix of the text, contains no `sep`, and is preceded by `sep` unless it is the whole text |
| Js.LastSegmentUnique | project/api/logo.ts:35 | those three properties determine the last segment |
| Js.LastSegmentAfter | project/api/logo.ts:35 | the last segment of `a + sep + b` is `b` when `b` has no `sep` |
| Js.DigitChar | project/api/logo.ts:40 | a digit value below ten gives a character between '0' and '9' that stands for that value |
| Js.Decimal | project/api/logo.ts:40 | the decimal text of `Date.now()` is non-empty and all digits, with a leading '0' only for the number 0 |
| Js.DecimalDenotes | project/api/logo.ts:40 | the decimal text of `n` reads back as `n` |
| Js.Filter | project/src/components/InvoiceList.tsx:15-20 | `filter` keeps exactly the elements that pass, in their order, as a subsequence no longer than the input; each passing value occurs as often as in the input and each failing value not at all |
| Js.FilterKeepsAll | project/src/components/InvoiceList.tsx:15-20 | `filter` returns the whole list iff every element passes |
| InvoicePrint.ItemTotals | project/src/components/InvoicePrint.tsx:44-49 | `getItemTotals`: the net line total, the VAT at the line's rate and their sum. Its properties are stated by `ItemTotalsClosedForm`, `ZeroRateAddsNothing`, `ItemTotalsNonNegative` and `ItemTotalsExample` |
| InvoicePrint.ItemTotalsClosedForm | project/src/components/InvoicePrint.tsx:44-49 | total = quantity × price, VAT = total × rate / 100, amount = quantity × price × (1 + rate/100) |
| InvoicePrint.ZeroRateAddsNothing | project/src/components/InvoicePrint.tsx:46-47 | a zero rate gives zero VAT and an amount equal to the total |
| InvoicePrint.ItemTotalsNonNegative | project/src/components/InvoicePrint.tsx:45-47 | non-negative inputs give a non-negative total and VAT, and amount ≥ total |
| InvoicePrint.ItemTotalsExample | project/src/components/InvoicePrint.tsx:44-49 | 2 × 100.00 at 15% gives 200.00, 30.00 and 230.00 |
| InvoicePrint.PaddingRows | project/src/components/InvoicePrint.tsx:184 | line rows plus padding rows = max(8, line count); there is no padding iff there are eight lines or more |
| InvoicePrint.TableRowCount | project/src/components/InvoicePrint.tsx:184 | the table never has fewer than eight rows; an invoice without items gets eight empty rows |
| InvoicePrint.Currency | project/src/components/InvoicePrint.tsx:77 | the currency symbol is never empty; it is the stored currency when that is non-empty, and 'R' otherwise (no details, or a missing or empty currency) |
| InvoicePrint.SummaryBox | project/src/components/InvoicePrint.tsx:74-77 | the summary box: the stored subtotal, tax amount and total, each `|| 0`, and the currency symbol. What it shows is stated by `SummaryShowsStoredColumns` and `Currency` |
| InvoicePrint.SummaryShowsStoredColumns | project/src/components/InvoicePrint.tsx:74-77 | the summary shows the stored subtotal, tax and total (0 when missing) and 'R' without details; changing the lines does not change it |
| InvoicePrint.DownloadPdf | project/src/components/InvoicePrint.tsx:250-269 | a missing id only alerts; otherwise one fetch of `/api/invoices/{id}/pdf`, then a download as `invoice-{id}.pdf` or an alert; a fetch happens iff there is an id |
| InvoiceForm.DefaultVatRate | project/src/components/InvoiceForm.tsx:21-24 | the default rate is never 0: 15 when missing or 0, else the stored rate |
| InvoiceForm.InitialForm | project/src/components/InvoiceForm.tsx:16-25 | the initial form has status 'draft', no client, and exactly one blank line at the default rate, which is also its tax rate |
| InvoiceForm.AddItem | project/src/components/InvoiceForm.tsx:74-79 | the list grows by one, earlier lines are unchanged, and the new last line is blank at the given rate |
| InvoiceForm.DropIndex | project/src/components/InvoiceForm.tsx:85 | `filter((_, i) => i !== index)` removes exactly the line at the index, and nothing when the index is outside the list |
| InvoiceForm.RemoveItem | project/src/components/InvoiceForm.tsx:81-88 | only a list of two or more lines loses the line at an in-range index; a non-empty list stays non-empty |
| InvoiceForm.RemoveItemLength | project/src/components/InvoiceForm.tsx:81-88 | a removal shortens the list by one exactly when it removes something |
| InvoiceForm.UpdateField | project/src/components/InvoiceForm.tsx:94 | only the named field of the line changes |
| InvoiceForm.UpdateItem | project/src/components/InvoiceForm.tsx:90-97 | same length, every other line unchanged, and the line at the index gets the new field |
| InvoiceForm.EditsKeepLines | project/src/components/InvoiceForm.tsx:74-97 | after any sequence of add, remove and update edits the line list is still non-empty |
| InvoiceForm.LoadedItems | project/src/components/InvoiceForm.tsx:58-63 | stored lines are mapped one to one; no lines or an empty list gives one blank line; never empty |
| InvoiceForm.FormFromInvoice | project/src/components/InvoiceForm.tsx:50-64 | the loaded form keeps the client and status and has at least one line |
| InvoiceForm.InvoiceEditor.constructor | project/src/components/InvoiceForm.tsx:13-28 | the editor starts before the details hook has answered: the initial form for no details, so one blank line at 15%, and not saving |
| InvoiceForm.InvoiceEditor.DetailsArrived | project/src/components/InvoiceForm.tsx:13 | the details hook answering changes the details later handlers read, and leaves the form state as it is |
| InvoiceForm.InvoiceEditor.Load | project/src/components/InvoiceForm.tsx:50-64 | a fetched invoice replaces the form; the details stay |
| InvoiceForm.InvoiceEditor.AddLine | project/src/components/InvoiceForm.tsx:74-79 | the form's lines become `AddItem` of the old lines at the default rate of the details held now; nothing else changes |
| InvoiceForm.InvoiceEditor.RemoveLine | project/src/components/InvoiceForm.tsx:81-88 | the form's lines become `RemoveItem` of the old lines; the form keeps at least one line |
| InvoiceForm.InvoiceEditor.UpdateLine | project/src/components/InvoiceForm.tsx:90-97 | the form's lines become `UpdateItem` of the old lines |
| InvoiceForm.InvoiceEditor.Submit | project/src/components/InvoiceForm.tsx:99-173 | an empty client only alerts and saves nothing; otherwise the form is saved, then navigation back to the list or an alert, and `saving` is cleared |
| Dashboard.Reduce | project/src/components/Dashboard.tsx:13-16 | the `reduce` over the amounts, left to right from `acc`; with non-negative amounts the result is at least `acc`. It equals `acc` plus the reference sum (`ReduceIsSum`) |
| Dashboard.ReduceIsSum | project/src/components/Dashboard.tsx:13-16 | the left fold from `acc` is `acc` plus the sum of the amounts, with a missing amount counted as 0 |
| Dashboard.TotalRevenue | project/src/components/Dashboard.tsx:13-16 | the total-revenue card is the fold from 0 over every invoice, and is never negative when no amount is |
| Dashboard.PaidRevenue | project/src/components/Dashboard.tsx:17-21 | the paid-revenue card is the fold from 0 over the invoices whose status is 'paid'. Its relation to the total is stated by `RevenueSplits` and `PaidAtMostTotal` |
| Dashboard.SumSplitsByStatus | project/src/components/Dashboard.tsx:17-21 | the sum over paid invoices plus the sum over the others is the whole sum |
| Dashboard.SumNonNegative | project/src/components/Dashboard.tsx:13-16 | a sum of non-negative amounts is non-negative |
| Dashboard.RevenueSplits | project/src/components/Dashboard.tsx:13-21 | total revenue = paid revenue + the revenue of unpaid invoices |
| Dashboard.PaidAtMostTotal | project/src/components/Dashboard.tsx:13-21 | with non-negative amounts, 0 ≤ paid revenue ≤ total revenue |
| Dashboard.RecentInvoices | project/src/components/Dashboard.tsx:50 | the recent list is the first min(5, n) invoices, in input order |
| Dashboard.DashboardStats | project/src/components/Dashboard.tsx:23-48 | the invoice and client counts are the list lengths |
| Dashboard.EmptyDashboard | project/src/components/Dashboard.tsx:13-21 | no invoices gives both revenues 0 and an empty recent list |
| Dashboard.RecentEmptyIffNoInvoices | project/src/components/Dashboard.tsx:50 | the recent list is empty iff there are no invoices |
| InvoiceList.MatchesSearch | project/src/components/InvoiceList.tsx:16-17 | the search test: the lowered term occurs in the lowered invoice number or in the lowered client name; without a client only the number counts. Its properties are stated by `EmptySearchMatches`, `SearchIgnoresCase`, `SearchIgnoresNumberCase` and `NoClientMatchesByNumber` |
| InvoiceList.FilteredInvoices | project/src/components/InvoiceList.tsx:15-20 | `filteredInvoices` filters the list by the search test and the status test together. What it keeps is stated by `FilteredIsSublist`, `KeptHaveFilteredStatus` and `NoFiltersKeepsAll` |
| InvoiceList.FilteredIsSublist | project/src/components/InvoiceList.tsx:15-20 | the filtered list is an order-preserving sublist holding exactly the invoices that pass the search and the status test, each as often as in the input |
| InvoiceList.KeptHaveFilteredStatus | project/src/components/InvoiceList.tsx:18 | with a filter other than 'all', every kept invoice has exactly that status |
| InvoiceList.NoFiltersKeepsAll | project/src/components/InvoiceList.tsx:15-20 | an empty search with 'all' keeps the whole list |
| InvoiceList.EmptySearchMatches | project/src/components/InvoiceList.tsx:16 | the empty term matches every invoice |
| InvoiceList.SearchIgnoresCase | project/src/components/InvoiceList.tsx:16-17 | a term and its lower-case form match the same invoices |
| InvoiceList.SearchIgnoresNumberCase | project/src/components/InvoiceList.tsx:16 | the case of the invoice number does not affect the match |
| InvoiceList.NoClientMatchesByNumber | project/src/components/InvoiceList.tsx:16-17 | an invoice without a client matches iff its number contains the term, ignoring case |
| InvoiceList.EmptyStateMessage | project/src/components/InvoiceList.tsx:176 | 'No invoices match your filters' iff there is a search or a status filter, 'No invoices found' iff there is neither |
| PdfServer.AppUrl | project/server/index.js:13 | the app URL is APP_URL when it is set, else 'http://localhost:5173' |
| PdfServer.Pipeline | project/server/index.js:45-56 | the calls of a fully successful render in order: launch, new page, the bearer header only with a token, the page load, print media, the PDF. Its shape is stated by `PipelineShape` |
| PdfServer.PipelineShape | project/server/index.js:45-56 | launch and page first; load with networkidle0, print media and an A4 PDF last; a bearer header call exactly when SERVICE_TOKEN is set |
| PdfServer.TryRender | project/server/index.js:44-57 | the `try` block's calls follow the pipeline from the launch on and stop at the first that throws; each call resolves iff the plan does not make it throw; the block succeeds iff no pipeline call is in the plan's failing set; a browser exists iff the launch resolved, which is iff the plan lets the launch succeed, and nothing is closed yet |
| PdfServer.PrintPage | project/server/index.js:46-56 | after a launch, the page calls follow the pipeline in order, each resolves iff the plan does not make it throw, and they stop at the first that throws |
| PdfServer.PlanDecides | project/server/index.js:44-62 | a run that follows the pipeline and obeys the plan succeeds iff none of the pipeline's calls is in the plan's failing set |
| PdfServer.Browser.constructor | project/server/index.js:45 | a launched browser starts open |
| PdfServer.Browser.Close | project/server/index.js:64 | closing requires an open browser and leaves it closed, so no browser is closed twice |
| PdfServer.RenderInvoicePdf | project/server/index.js:37-66 | an empty id gives 400 'Missing id' with no browser calls. Otherwise the calls before the closing one follow the pipeline for `{APP_URL}/invoices/{id}/print?pdf=1` in order, every one but the last resolved, and they end in a call that threw unless the answer is 200. So the bearer header is set iff SERVICE_TOKEN is set, whenever the run gets that far. 200 with application/pdf and the buffer's length iff every pipeline call resolved, else 500 'PDF generation failed'. The browser is closed exactly once iff it was launched, as the last call. Every event resolves iff the plan does not make its call throw, so the answer is 200 iff no pipeline call is in the plan's failing set, and the browser is launched iff the id is non-empty and the plan lets the launch succeed |
| PdfServer.UploadLogo | project/server/index.js:69-90 | 500 without storage configuration, 400 without a file or with an extension outside the allow-list, each before any upload; otherwise one upload under 'logos/' and the URL, the storage error (400) or 'Upload failed' (500) |
| BrowserLaunch.ProfileOf | project/api/utils/browser.ts:7 | the profile is constrained iff VERCEL is set and non-empty |
| BrowserLaunch.LaunchBrowser | project/api/utils/browser.ts:6-27 | exactly one launch, as the last call. The path is looked up only on the constrained profile. Args follow the profile, headless is true and the viewport is chromium's. An executable path is passed iff the profile is constrained and the lookup succeeded |
| PdfText.FallbackBody | project/api/pdf-text.ts:18-33 | the fallback text: the title and rule, the invoice id line, and the export date, time and closing note. Its content is stated by `FallbackBodyOpensWithTitle` and `FallbackBodyNamesInvoice` |
| PdfText.FallbackBodyOpensWithTitle | project/api/pdf-text.ts:18-19 | the fallback text begins with 'INVOICE EXPORT (TEXT FALLBACK)' |
| PdfText.FallbackBodyNamesInvoice | project/api/pdf-text.ts:18-20 | the fallback text contains the line 'Invoice ID: {id}' |
| PdfText.Handler | project/api/pdf-text.ts:2-39 | a missing or empty id gives 400 'Missing invoice ID' with no headers. Otherwise 200 with text/plain and the attachment name `invoice-{id}-text.txt`, and a body that depends only on the id, date and time. A thrown error gives 500 'Error generating text fallback: ' and its message |
| LogoUpload.Extension | project/api/logo.ts:35 | the extension is never empty and never contains '.' |
| LogoUpload.ExtensionOfName | project/api/logo.ts:35 | the extension is the lower-cased text after the last '.', the whole name when there is no '.', and 'png' only when that text is empty |
| LogoUpload.ExtensionOfSegment | project/api/logo.ts:35 | the extension is the lower-cased last segment of the name, or 'png' when that segment is empty |
| LogoUpload.StorageKeyShape | project/api/logo.ts:40 | every storage key starts with 'logos/' and ends with '.' + ext |
| LogoUpload.StorageKeyRoundTrip | project/api/logo.ts:35-40 | the extension read back from a key is the allowed extension it was built with |
| LogoUpload.SelectFile | project/api/logo.ts:31 | an array of files gives its first element, a single file gives itself, and no file gives none |
| LogoUpload.FileName | project/api/logo.ts:34 | the name is originalFilename, else newFilename, else 'logo'; never empty |
| LogoUpload.Handler | project/api/logo.ts:12-49 | 405 for a method other than POST, then 500 without configuration, 400 'No file provided', 400 'Unsupported file type'; an upload happens iff every guard passes, under a 'logos/' key with the file's type or 'application/octet-stream'; then 200 with the URL or 400 with the storage error |
| Settings.FormFrom | project/src/components/Settings.tsx:10-46 | the form for the stored details, each field with its `|| default`; the same rule for the initial state and for arriving details. Its defaults are stated by `FormFromDefaults` and its round trip by `SaveThenReload` |
| Settings.FormFromDefaults | project/src/components/Settings.tsx:10-47 | without details every field takes its default ('' text, 'BUSINESS ACCOUNT', 'R', 15, 0). With details, a non-empty stored currency, account type, name or logo is shown as stored, and a missing text field becomes '', a missing or empty currency 'R', a missing or empty account type 'BUSINESS ACCOUNT', a missing or zero rate 15 and a missing or zero labour rate 0. Currency and account type are never empty. The VAT rate is never 0 and agrees with the invoice form's default |
| Settings.SaveThenReload | project/src/components/Settings.tsx:28-61 | a form loaded from stored details survives a save and reload unchanged |
| Settings.ReloadRestoresDefaults | project/src/components/Settings.tsx:28-61 | an edited form survives a save and reload iff its currency and account type are non-empty and its VAT rate is non-zero; otherwise the reload shows 'R', 'BUSINESS ACCOUNT' or 15 in their place |
| Settings.CheckLogoFile | project/src/components/Settings.tsx:66-72 | a file is accepted iff its type is png, jpeg, svg+xml or webp and it is at most 2 MiB; a wrong type is reported before size |
| Settings.CheckLogoFileOrder | project/src/components/Settings.tsx:66-72 | a wrong type is refused whatever the size; exactly 2 MiB passes and one byte more is refused as too large |
| Settings.ClientKeyShape | project/src/components/Settings.tsx:93-94 | the direct-upload key lies under 'logos/' and ends in the extension of the file name, which reads back from the key when allowed |
| Settings.DirectUploadEffects | project/src/components/Settings.tsx:91-111 | the direct upload stores first, then saves the URL when storing worked; it ends in an alert iff storing or saving failed |
| Settings.UploadEffects | project/src/components/Settings.tsx:73-111 | the effects of an accepted upload: the post to the server route, its save, then the direct upload only when the server route did not finish. Its outcome is stated by `UploadEffectsOutcome` |
| Settings.UploadEffectsOutcome | project/src/components/Settings.tsx:73-111 | the file is stored directly iff the server route did not finish; the upload alerts iff neither route saved the logo; the file is posted once, first |
| Settings.SettingsPage.constructor | project/src/components/Settings.tsx:7-26 | the screen starts with the form for the details, not saving, not uploading, with an empty file input |
| Settings.SettingsPage.LoadDetails | project/src/components/Settings.tsx:28-48 | arriving details replace the form; absent details leave it |
| Settings.SettingsPage.HandleSubmit | project/src/components/Settings.tsx:50-61 | the whole form is saved, then a success or failure alert; `saving` is cleared |
| Settings.SettingsPage.HandleLogoUpload | project/src/components/Settings.tsx:63-117 | no file does nothing; a refused file only alerts and changes no state; an accepted file is posted, with the direct upload as fallback; only the logo URL can change; uploading is off and the input cleared afterwards |
| Settings.SettingsPage.UploadAccepted | project/src/components/Settings.tsx:73-116 | the effects are the post, the server route's save, and the direct upload when the server route did not finish. The logo is the direct URL, else the server URL, else unchanged |
| Settings.SettingsPage.UploadDirectly | project/src/components/Settings.tsx:91-111 | a stored file's URL becomes the form's logo; a storage failure leaves the form unchanged |
| Settings.SettingsPage.HandleRemoveLogo | project/src/components/Settings.tsx:119-130 | without confirmation nothing happens; otherwise the logo becomes '' in the form and in the update, with an alert if that fails, and `saving` is cleared |
| Pwa.PwaInstall.constructor | project/src/hooks/usePWA.ts:9-11 | no stored prompt, not installable, not installed |
| Pwa.PwaInstall.Mount | project/src/hooks/usePWA.ts:13-18 | standalone display mode at mount marks the app installed; nothing else changes |
| Pwa.PwaInstall.OnBeforeInstallPrompt | project/src/hooks/usePWA.ts:21-26 | the prompt is stored and the app becomes installable |
| Pwa.PwaInstall.OnAppInstalled | project/src/hooks/usePWA.ts:29-34 | installed, not installable, no stored prompt |
| Pwa.PwaInstall.InstallApp | project/src/hooks/usePWA.ts:46-59 | without a stored prompt it returns false and changes nothing. Otherwise it shows the prompt. Success iff accepted; then the prompt is cleared and installable false. A dismissed prompt leaves everything unchanged. Installed is never reset and installable stays true exactly while a prompt is stored |
| Pwa.InstallBanner.Visible | project/src/components/InstallPWA.tsx:9-11 | the banner shows iff the app is installable, not installed and the banner was not dismissed; the banner methods state how each event changes it |
| Pwa.InstallBanner.constructor | project/src/components/InstallPWA.tsx:6-7 | the banner starts not dismissed |
| Pwa.InstallBanner.NotNow | project/src/components/InstallPWA.tsx:44 | 'Not now' dismisses the banner and hides it |
| Pwa.InstallBanner.CloseBanner | project/src/components/InstallPWA.tsx:52 | the close button dismisses the banner and hides it |
| Pwa.InstallBanner.Install | project/src/components/InstallPWA.tsx:13-18 | installing delegates to `installApp`; success iff accepted, which clears the stored prompt and the installable flag and hides the banner; a dismissed prompt keeps the prompt and the banner shown; installed is unchanged |
| Pwa.InstallBanner.AppInstalled | project/src/components/InstallPWA.tsx:9-11 | once the app is installed the hook holds installed, not installable and no prompt, and the banner is hidden |
| Pwa.InstallBanner.PromptArrived | project/src/components/InstallPWA.tsx:9-11 | a new prompt is stored and makes the app installable, installed is unchanged, and the banner shows again only if it was not dismissed and the app is not installed |

## Left out

- The database behind the screens (invoice, client and details queries, inserts, updates and deletes). The model keeps only what the screens do with the answers. Invoices and details are passed in, and a save is an effect with its outcome as a parameter.
- The internals of puppeteer and chromium. The browser is a resource whose calls resolve or throw according to a `Plan`, and the PDF's bytes are only a length.
- IEEE-754 floating point. Money is `real`, so rounding, `NaN` (which `|| 0` does not replace) and `toFixed(2)` formatting are not modelled.
- Locale formatting: `toLocaleDateString`/`toLocaleTimeString` and `date-fns`. The fallback text's date and time are parameters.
- `toLowerCase` beyond ASCII. Only the letters A–Z are mapped, so Unicode case folding is not modelled.
- The clock and randomness. `Date.now()` is the parameter `now`, and the random text in storage keys is the parameter `nonce`.
- Multipart parsing. This covers formidable's and multer's 2 MB limits, a parse failure in `project/api/logo.ts:24-29`, and reading the temporary file (`project/api/logo.ts:39`, `51-54`). The handler receives the parsed file field.
- LogoUpload.Handler: a thrown storage call is modelled as no reply (`None`). The serverless platform's own error answer is not modelled.
- PdfServer.UploadLogo: of the route's `catch`, only a thrown storage call is modelled. It is the only call inside the `try` that can throw in the model.
- PdfServer.RenderInvoicePdf: a `close` that throws in `finally` is only recorded as a failed event. It happens after the reply is chosen, so the reply is unaffected.
- The serverless PDF route `project/api/invoices/[id]/pdf.ts` is not part of this model. It does not call `launchBrowser`; it launches inline with the same options and then makes the same page calls as the express route. It differs from what is modelled in three ways: it refuses an array `id` (`pdf.ts:6`), it falls back to `https://{VERCEL_URL}` before localhost for the app URL (`pdf.ts:10`), and its executable-path lookup is inside the `try`, so a failed lookup answers 500 instead of being swallowed (`pdf.ts:16`).
- The PDF server's start-up: the best-effort bucket creation in `project/server/index.js:20-35` and `listen`.
- Rendering, routing and styling. This covers JSX layout, the layout's `pdf=1` check, the online-status indicator, the health and debug endpoints, and the vehicle, registration, mileage and job-card fields shown on the printed invoice.
- Logging (`console.*`).
- Stale React closures. Each handler is modelled on the state at the moment it runs, and the invoice editor's handlers read the details the hook holds at that moment.
- InvoiceForm.InvoiceEditor.Load: the fallback rate of a fetched invoice without lines comes from the details held when `Load` runs. In the source the fetch is started by the mount effect, whose closure holds the details of the render that started it.
- InvoiceForm.FormFromInvoice: states only the client, the status and the non-empty line list; the remaining fields are copied as stored (with `|| ''` on the optional texts), which the function's body shows directly.
- Pwa.InstallBanner.Install: requires the banner to be visible, because the Install button exists only on a shown banner.
