# Ai-Quotationer core, modelled in Dafny

Ai-Quotationer turns a consultant's raw meeting notes into a priced business
proposal. The user types notes into a proposal editor. A generation route
builds a prompt from the notes and a tone, and a text-generation service
answers with Markdown and line items. The editor keeps those items in a
line-item calculator whose total follows every edit, renders the proposal
as a themed PDF and saves it through the proposals route. Four account
routes (register, login, update, me) keep a user table and a session
cookie.

The project models these pieces:

- `Js`: the JavaScript behaviour the code relies on: `||` on optional
  strings, `String.prototype.trim`, `startsWith` and `split` on a
  one-character separator.
- `LineItemCalculator`: the total and the row subtotals. Also `addItem`,
  `removeItem` and `handleItemChange`, over a list of line-item objects
  that the calculator shares with its caller.
- `PDFPreview`: theme selection, the line-based Markdown classifier, the
  filter of blank-description items, the pricing table and the title.
- `LiveEditor`: the editor's ten pieces of state. This is a class whose
  methods take the server's answers as arguments. Each handler is also a
  function on an `EditorState` value, and each method is proved to move
  the state exactly as that function says.
- `GenerateRoute`: validation, the prompt with its tone default, and the
  shaping of the answer.
- `Database`: an in-memory user table and proposal table. They stand in
  for the database client and raise the same errors as its unique and
  foreign keys.
- `ProposalsRoute`: `ensureDefaultUser`, `POST` with its field defaults,
  and `GET` newest first.
- `AuthLib`, `RegisterRoute`, `LoginRoute`, `UpdateRoute`, `MeRoute`: the
  account handlers, their token check and their cookie.

Amounts are integers, for example cents. Password hashing, token signing,
token verification, the text-generation call, `JSON.parse`, generated ids
and the clock are parameters.

The model follows the code as it stands:

- There is no generation quota, no anonymous counter and no 403 answer.
- The generate route does not check that `lineItems` is an array.
- The PDF renderer does not interpret inline bold or italic.
- The PDF bullet is written as a mis-encoded literal, and the document is
  modelled with that literal. The corrected renderer and document sit
  beside it (see Findings).

## Model

| member | source | states |
|---|---|---|
| LineItemCalculator.SumIsSumOfRows | src/components/LineItemCalculator.tsx:37 | the total is the sum of quantity × unit price over all items; it is 0 for the empty list |
| LineItemCalculator.TotalIsSumOfSubtotals | src/components/LineItemCalculator.tsx:84-105 | the displayed row subtotals add up to the displayed total |
| LineItemCalculator.SumRemove | src/components/LineItemCalculator.tsx:31-34 | removing row i lowers the total by exactly that row's subtotal |
| LineItemCalculator.SumReplace | src/components/LineItemCalculator.tsx:18-21 | replacing row i changes the total by the new subtotal minus the old one |
| LineItemCalculator.Without | src/components/LineItemCalculator.tsx:32 | `filter((_, i) => i !== index)` removes position index and keeps the rest in order; an index outside the list leaves it unchanged |
| LineItemCalculator.ChangeRow | src/components/LineItemCalculator.tsx:18-21 | one field of row index is edited: the length is kept, every other row is unchanged, and the total moves by the difference of the subtotals |
| LineItemCalculator.ApplyChangesOneField | src/components/LineItemCalculator.tsx:20 | writing one field leaves the other two fields of the item as they were |
| LineItemCalculator.LineItem.constructor | src/components/LineItemCalculator.tsx:26 | a new row object holds the given values |
| LineItemCalculator.LineItem.Set | src/components/LineItemCalculator.tsx:20 | the write changes exactly the named field of that object |
| LineItemCalculator.HandleItemChange | src/components/LineItemCalculator.tsx:18-23 | the reported list is the caller's list, object for object; the write lands in the shared object; the other rows keep their values; the reported total is the sum over the reported list, moved by the difference of the row's subtotals |
| LineItemCalculator.AddItem | src/components/LineItemCalculator.tsx:25-29 | the earlier rows, then one fresh ("", 1, 0) row at the end; the total does not change |
| LineItemCalculator.RemoveItem | src/components/LineItemCalculator.tsx:31-35 | only position index is dropped and the order is kept; an index out of range leaves the list unchanged; the total loses that row's subtotal |
| LineItemCalculator.SnapshotWithout | src/components/LineItemCalculator.tsx:32 | filtering the objects and then reading their values equals reading the values and then filtering |
| PDFPreview.GetStyles | src/components/PDFPreview.tsx:24-30 | "creative" and "minimal" pick their styles; any other value, known or not, picks corporate (both directions) |
| PDFPreview.TrimmedBlock | src/components/PDFPreview.tsx:40-50 | "# " gives a header without that prefix; "## " or "### " gives a sub-header without the hashes and one space; "* " or "- " gives the bullet literal and the rest of the line; any other line is kept as it is |
| PDFPreview.LineBlockWith | src/components/PDFPreview.tsx:37-38 | a line that is blank once trimmed gives a text block of one space; any other line is classified after trimming |
| PDFPreview.RenderWith | src/components/PDFPreview.tsx:32-36 | empty Markdown gives no blocks; otherwise there is one block per `\n`-separated line, in order |
| PDFPreview.RenderLines | src/components/PDFPreview.tsx:34-36 | a body made of lines renders the i-th line as the i-th block |
| PDFPreview.RenderOneLine | src/components/PDFPreview.tsx:34-36 | a body without a line break renders as one block |
| PDFPreview.BulletLine | src/components/PDFPreview.tsx:44-45 | a bullet line becomes the bullet literal followed by the line without its two-character marker, with either literal |
| PDFPreview.MoreHashesArePlainText | src/components/PDFPreview.tsx:40-49 | "####…" and "#x" are neither headers nor sub-headers and stay plain text |
| PDFPreview.NumberedLineKeepsNumeral | src/components/PDFPreview.tsx:46-47 | a numbered line is drawn as the trimmed line, numeral included |
| PDFPreview.PlainLine | src/components/PDFPreview.tsx:48-49 | a line that starts with no marker character is drawn unchanged |
| PDFPreview.DashLine | src/components/PDFPreview.tsx:44-45 | "- " followed by text becomes the bullet literal followed by that text |
| PDFPreview.SampleHeaderLine | src/components/PDFPreview.tsx:40-41 | "# Title" becomes the header "Title" |
| PDFPreview.SampleTextLine | src/components/PDFPreview.tsx:48-49 | a paragraph with emphasis markers is kept verbatim |
| PDFPreview.SampleBulletLine | src/components/PDFPreview.tsx:44-45 | with the intended glyph (the corrected renderer; see Findings), "- item one" becomes "• item one" |
| PDFPreview.SampleDocument | src/components/PDFPreview.tsx:32-52 | with the intended glyph (the corrected renderer; see Findings), the four-line sample body renders as a header, a blank text line, the paragraph verbatim and the bullet "• item one" |
| PDFPreview.WrittenBulletLine | src/components/PDFPreview.tsx:44-45 | as written, "- item one" becomes "â€¢ item one" |
| PDFPreview.GarbledBulletLine | src/components/PDFPreview.tsx:45 | as written, "- item one" becomes "â€¢ item one"; with the intended glyph it becomes "• item one" |
| PDFPreview.BulletAsWrittenIsGarbled | src/components/PDFPreview.tsx:45 | the renderer as written and the corrected renderer differ on a one-line bullet body |
| PDFPreview.ValidItems | src/components/PDFPreview.tsx:56 | the rows kept all have a non-blank trimmed description, and every such item of the list is kept |
| PDFPreview.ValidItemsAppend | src/components/PDFPreview.tsx:56 | the filter works piece by piece, so it keeps the original order |
| PDFPreview.ValidItemsEmpty | src/components/PDFPreview.tsx:56-69 | nothing is kept exactly when no item has a non-blank description |
| PDFPreview.SumSplitsByFilter | src/components/PDFPreview.tsx:56 | the full total is the total of the kept rows plus the total of the dropped rows |
| PDFPreview.PricingTable | src/components/PDFPreview.tsx:69-91 | a table exists exactly when some item is described; it has one row per described item, in order; its total line shows the amount passed in |
| PDFPreview.TableTotalCountsHiddenRows | src/components/PDFPreview.tsx:88-89 | given the editor's total, the total line exceeds the sum of the shown rows by the subtotals of the hidden rows |
| PDFPreview.Title | src/components/PDFPreview.tsx:62 | "Proposal for " followed by the client name, or "Client" when the name is empty |
| PDFPreview.ProposalPDF | src/components/PDFPreview.tsx:54-96 | the document as written: the styles of the theme, the title, one body block per line drawn with the literal of line 45, and a table present exactly when some item is described, showing the amount passed in |
| PDFPreview.ProposalPDFCorrected | src/components/PDFPreview.tsx:54-96 | the same document with the intended bullet glyph |
| PDFPreview.CorrectionTouchesOnlyBullets | src/components/PDFPreview.tsx:45 | the written and the corrected document agree on styles, title, table and block count; a block differs exactly when its line is a bullet line |
| LiveEditor.InitialIsConsistent | src/components/LiveEditor.tsx:21-30 | the initial state holds a total equal to the sum of its (no) items, a non-empty status and an offered theme |
| LiveEditor.Shown | src/components/LiveEditor.tsx:157 | the calculator gets the line items, or one ("", 1, 0) row when there are none |
| LiveEditor.SumShown | src/components/LiveEditor.tsx:157 | the stand-in row adds nothing to the total |
| LiveEditor.GenerateRequest | src/components/LiveEditor.tsx:33-40 | nothing is sent exactly when the trimmed notes are empty; otherwise the request sends the notes and the selected theme as the tone |
| LiveEditor.AfterGenerate | src/components/LiveEditor.tsx:32-56 | blank notes change nothing; a truthy markdown replaces the markdown; items and total are replaced only by a non-empty array, with the total as the sum of quantity × unit price; otherwise they stay; the invariant total == sum is preserved |
| LiveEditor.GenerateRequestIsAccepted | src/components/LiveEditor.tsx:36-40 | every request the editor sends passes the route's 400 check, and its prompt carries the theme as the tone |
| LiveEditor.GeneratedMarkdownReachesEditor | src/components/LiveEditor.tsx:42-47 | a successful answer's markdown and non-empty items reach the editor |
| LiveEditor.SaveStatus | src/components/LiveEditor.tsx:60 | the new status if it is given (non-empty), else the current one |
| LiveEditor.PayloadOf | src/components/LiveEditor.tsx:63-70 | "Untitled Client" stands in for an empty client name; the notes, markdown, status, total and items are sent as held |
| LiveEditor.SaveRequestOf | src/components/LiveEditor.tsx:73-85 | a PUT to the remembered id exactly when there is one, else a POST; the status sent is the new one |
| LiveEditor.AfterSave | src/components/LiveEditor.tsx:58-95 | the status becomes the save status whatever the outcome; a first save records a returned id; nothing else changes |
| LiveEditor.SavedIdIsKept | src/components/LiveEditor.tsx:74-88 | once an id is recorded, every later save PUTs to that id |
| LiveEditor.Sent | src/app/api/proposals/route.ts:39 | the proposals route reads every payload field as present |
| LiveEditor.FirstSaveStoresEditor | src/components/LiveEditor.tsx:63-70 | a first save from a consistent editor stores its name (or "Untitled Client"), notes, markdown, status and items, with a total that is their sum |
| LiveEditor.Editor.constructor | src/components/LiveEditor.tsx:21-30 | the ten initial values; the invariant holds |
| LiveEditor.Editor.EditClientName | src/components/LiveEditor.tsx:109 | only the client name changes |
| LiveEditor.Editor.EditNotes | src/components/LiveEditor.tsx:133 | only the notes change |
| LiveEditor.Editor.EditMarkdown | src/components/LiveEditor.tsx:151 | only the markdown changes |
| LiveEditor.Editor.SelectTheme | src/components/LiveEditor.tsx:169-176 | only the theme changes, to one of the three offered |
| LiveEditor.Editor.OnItemsChange | src/components/LiveEditor.tsx:158-161 | items and total are taken as reported; the invariant survives when the total is the sum of those items |
| LiveEditor.Editor.EditItem | src/components/LiveEditor.tsx:156-161 | an edit in the calculator leaves the shown rows with one field of one row changed; the total moves by the difference of the subtotals; the invariant holds |
| LiveEditor.Editor.AddRow | src/components/LiveEditor.tsx:156-161 | one blank row is appended to the shown rows, so an empty list becomes two rows; the total is unchanged; the invariant holds |
| LiveEditor.Editor.RemoveRow | src/components/LiveEditor.tsx:156-161 | the shown rows without position index; the total drops by that row's subtotal; the invariant holds |
| LiveEditor.Editor.Generate | src/components/LiveEditor.tsx:32-56 | the request sent and the new state are those of GenerateRequest and AfterGenerate; the invariant holds |
| LiveEditor.Editor.Save | src/components/LiveEditor.tsx:58-95 | the request sent and the new state are those of SaveRequestOf and AfterSave; the invariant holds |
| GenerateRoute.Tone | src/app/api/generate/route.ts:18 | the given tone, or "Professional" when it is absent or empty |
| GenerateRoute.PromptLayout | src/app/api/generate/route.ts:17-24 | the prompt holds the tone right after the fixed head and ends with the raw notes verbatim |
| GenerateRoute.PromptDeterminesNotes | src/app/api/generate/route.ts:23-24 | different notes under one tone give different prompts |
| GenerateRoute.MarkdownOut | src/app/api/generate/route.ts:45 | the parsed markdown trimmed, "" when absent, and a failure when it is not a string |
| GenerateRoute.ItemsOut | src/app/api/generate/route.ts:46 | the parsed items as they are, [] when absent or falsy; no array check |
| GenerateRoute.Post | src/app/api/generate/route.ts:6-52 | a call is made exactly when the notes are truthy, with the filled-in prompt; missing notes give 400 "rawNotes are required."; unparseable text gives 500 "Failed to parse AI output."; a failed call, a non-JSON body, a JSON `null` answer and a markdown that is not a string give 500 "Failed to generate proposal."; a success has trimmed markdown |
| GenerateRoute.SuccessShape | src/app/api/generate/route.ts:44-47 | the exact success response for each shape of parsed value |
| GenerateRoute.BlankNotesAreSent | src/app/api/generate/route.ts:10-12 | notes of white space only pass the check |
| Database.FindUnique | src/app/api/auth/me/route.ts:22-33 | the user found has the key; none is found exactly when no user has it |
| Database.FindUniqueFinds | src/app/api/auth/register/route.ts:15 | with unique keys, a lookup finds the one user that has the key |
| Database.SetKey | src/app/api/auth/update/route.ts:25-28 | only the user with that id gets the key; every other row is unchanged |
| Database.SetKeyLookups | src/app/api/auth/update/route.ts:25-28 | keys stay unique; the updated user is found carrying the new key; other users stay |
| Database.FindUniqueAfterSetKey | src/app/api/auth/update/route.ts:25-28 | after the update, every lookup finds the same row as before, with the new key when it is the updated user |
| Database.Db.constructor | src/lib/prisma.ts:13 | an empty store with unique keys |
| Database.Db.CreateUser | src/app/api/auth/register/route.ts:21-27 | the insert succeeds exactly when the id and the email are free; it appends the user, or changes nothing |
| Database.Db.UpdateCustomKey | src/app/api/auth/update/route.ts:25-28 | a missing id fails and changes nothing; otherwise that user's key is set and the updated row is returned |
| Database.Db.CreateProposal | src/app/api/proposals/route.ts:41-54 | the insert succeeds exactly when the id is free and the owner exists; it appends the proposal, or changes nothing |
| ProposalsRoute.EnsureDefaultUser | src/app/api/proposals/route.ts:6-19 | afterwards the default user exists, unless another user holds its email; an existing user is not modified; a second call changes nothing |
| ProposalsRoute.AmountOrZero | src/app/api/proposals/route.ts:47 | `total_amount \|\| 0` |
| ProposalsRoute.NewProposal | src/app/api/proposals/route.ts:41-54 | defaults "New Client", "", "", "Draft", 0 and no items; the owner is always the default user; the total is stored as sent |
| ProposalsRoute.TotalIsNotRecomputed | src/app/api/proposals/route.ts:47 | a stored total can differ from the sum of the stored items |
| ProposalsRoute.Post | src/app/api/proposals/route.ts:34-61 | the default user is ensured first; success appends exactly the new proposal and leaves the others; a failure gives 500 "Failed to create proposal." and adds no proposal |
| ProposalsRoute.Insert | src/app/api/proposals/route.ts:23 | inserting into a list that is newest first keeps it newest first, with the same elements plus one |
| ProposalsRoute.SortNewestFirst | src/app/api/proposals/route.ts:23 | a permutation of the stored proposals, newest first |
| ProposalsRoute.Get | src/app/api/proposals/route.ts:21-32 | every stored proposal, each as often as stored, newest first; a failed read gives 500 "Failed to fetch proposals." |
| ProposalsRoute.ListingKeepsEveryProposal | src/app/api/proposals/route.ts:21-28 | the listing has as many proposals as are stored, and holds exactly the stored ones |
| AuthLib.SessionCookie | src/app/api/auth/register/route.ts:32-37 | auth_token, httpOnly, sameSite strict, secure in production, maxAge 604800 |
| AuthLib.SignedInAs | src/app/api/auth/register/route.ts:29-37 | the response carries the user's id and email, and the cookie holds a token signed over exactly those |
| AuthLib.Authenticate | src/app/api/auth/me/route.ts:10-20 | an id exactly when the cookie is present and non-empty, the token verifies, and its id claim is non-empty |
| RegisterRoute.NewUser | src/app/api/auth/register/route.ts:20-27 | the row stores the email, the company name and the password's hash, with the table defaults |
| RegisterRoute.Post | src/app/api/auth/register/route.ts:7-43 | missing fields give 400 and a taken email gives 400 "User already exists", both changing nothing; success appends exactly one user holding the hash, never the password, and signs it in |
| LoginRoute.Post | src/app/api/auth/login/route.ts:7-39 | missing fields give 400; an unknown email and a wrong password give the same 401 "Invalid credentials"; success exactly when the password matches that user's hash, returning that user |
| LoginRoute.RegisteredUserCanLogIn | src/app/api/auth/login/route.ts:15-27 | a user just registered logs in with the same email and password |
| UpdateRoute.StoredKey | src/app/api/auth/update/route.ts:27 | an empty or absent key clears it; a non-empty one is stored as given |
| UpdateRoute.Put | src/app/api/auth/update/route.ts:8-34 | no valid token gives 401 "Unauthorized" and changes nothing; otherwise only that user's key changes, and `has_custom_key` is true exactly when a key is now stored |
| MeRoute.ProfileOf | src/app/api/auth/me/route.ts:39-50 | the projection: id, email, company name, logo, count and rate as stored, and whether there is a key |
| MeRoute.Get | src/app/api/auth/me/route.ts:8-50 | authenticated exactly when the token gives an id that has a user, with that user's profile; otherwise 401 |
| MeRoute.KeyIsNotDisclosed | src/app/api/auth/me/route.ts:46 | two stores differing only in a key's value, but not in whether there is one, give every caller the same answer |
| MeRoute.ProfileShowsStoredKey | src/app/api/auth/me/route.ts:46 | after a key update, the profile reports whether a key is stored |

## Left out

- The text-generation call, `JSON.parse`, bcrypt and jsonwebtoken are
  foreign libraries. Their outcomes are parameters: an `Upstream` value,
  a `hash` function, a `sign` function and a map from the tokens that
  verify to their claims. Expiry of tokens is not modelled.
- LoginRoute.Post: `bcrypt.compare` is modelled as equality between the
  password's hash and the stored hash. Salting is not modelled. A stored
  value that is not a bcrypt hash, such as the default user's "hashed",
  never matches in the source, but can match here when `hash` returns it.
- Generated ids (cuid defaults) and `now()` are parameters of the inserts.
  Fields the handlers never set take the table's defaults: no logo, no key,
  no rate and a count of 0. The schema file that declares them is not part
  of this model.
- The database client singleton (src/lib/prisma.ts) is replaced by the
  in-memory `Database.Db`. Connection and storage failures other than the
  key violations are not modelled.
- MeRoute.Get: the 500 answer for a failure of the cookie store or of the
  read is not modelled; the function always reaches a 200 or a 401.
- UpdateRoute.Put: of the store failures, only a token id with no user
  (the update throws) is modelled.
- ProposalsRoute.SortNewestFirst: the order among proposals with the same
  creation time is not specified by the database call; the model fixes
  one order.
- LiveEditor.Editor keeps its line items as values. The calculator writing
  into row objects that it shares with the editor is modelled by
  LineItemCalculator.HandleItemChange, not inside the editor. The editor's
  item methods use the value-level images of the three calculator
  operations that those methods' contracts state.
- LiveEditor.Editor.Generate: `isGenerating` and `isSaving` are modelled
  only at their final values. The moment during a request when they are
  true is not observable in the model.
- The `alert` calls, the Generate and Save buttons' disabled states and
  `res.ok` are not modelled; they do not change the state.
- Line items arriving in a generate answer or a save payload are assumed
  to be well-formed items with integer quantity and price. Malformed JSON
  items are not modelled.
- `toFixed(2)`, floating-point amounts and `Number(e.target.value)` are not
  modelled; amounts are integers, for example cents.
- The style tables (src/styles/pdfThemes.ts), page layout, column widths
  and pagination are library rendering and are not modelled; only the
  choice of style table is.
- Inline bold and italic are not interpreted by the code, and are not
  modelled as if they were.
- The code implements no generation quota, counter check or selection of
  a custom key; none is modelled.
- The routes under src/app/api/proposals/[id], the settings and sign-in
  dialogs and the page shell are not part of this model.

## Findings

| source | as written | input that shows it | evidently intended | confidence | as-written member | corrected member |
|---|---|---|---|---|---|---|
| src/components/PDFPreview.tsx:45 | the bullet literal is "â€¢ ", the UTF-8 bytes of U+2022 read back as Windows-1252 | the Markdown body "- item one" renders as "â€¢ item one" | the bullet glyph "• " followed by the item text | high (not executed) | PDFPreview.RenderMarkdownAsWritten, PDFPreview.BulletAsWrittenIsGarbled | PDFPreview.RenderMarkdown, PDFPreview.ProposalPDFCorrected |
