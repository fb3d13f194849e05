# Bill splitter: the bill editor

A Dafny model of the bill-editing screen of the bill splitter
(`frontend/src/components/BillSplitter.jsx`). Users enter bills. Each bill has
a payer, a tax and a service-charge rate, and item rows; each row has a name,
a price, a quantity and the names of the people who consumed it. The saved
bills are sent to a split endpoint, and the payment plans it answers with are
listed. The repository contains no allocation or settle-up computation: its
split endpoint returns fixed example plans. What carries logic is the editor's
state handling, and that is what is modelled here, without React and without
I/O.

- `Text` models JavaScript's `String.prototype.trim`, with the full ECMAScript
  whitespace and line-terminator set. `IsBlank` (all whitespace) is the
  meaning of the source's `!s.trim()`; `TrimEmptyIff` connects the two.
- `Lists` is `Array.prototype.filter` (`Filter`), with its exact
  characterisation: every element with its multiplicity if it passes, none if
  it does not, in the original order (`IsSubsequence`).
- `Model` holds the values: `Item`, `Bill`, `Plan`, `Payment`, the scanner's
  `Scan`, and the validity predicates the save enforces.
- `BillList`, `ItemForm` and `Results` are the fresh arrays the handlers build:
  deleting and replacing bills, building the bill a save stores, deleting an
  item row, editing a field, adding and removing consumers, and the plan
  filter of the results view.
- `Editor.BillSplitter` is the component as a state machine. It has one field
  per piece of React state the editor uses and one method per handler. Each
  method's frame names exactly the fields its handler sets. Its invariant
  `Valid()` says that every saved bill passed the save's checks.
- `AliasedEditor` models item rows as shared objects. These are the objects
  the source really mutates. It exhibits the finding below.

Inputs the component gets from outside are parameters. The fresh bill id
(`Date.now().toString()`) is `freshId`. The receipt scanner's answer and the
split endpoint's answer are `Option` values, where `None` stands for a failed
request. The key pressed and the text in a consumer field are plain
parameters. The `alert` calls of the save and the split request become the `Err` and
`SplitOutcome` values those methods return. The two alerts of the receipt
upload have no counterpart: `ApplyScan` returns nothing.

## Model

| member | source | states |
|---|---|---|
| `Text.Trim` | frontend/src/components/BillSplitter.jsx:70 | the trimmed text is no longer than the input and neither starts nor ends with whitespace |
| `Text.TrimIsInfix` | frontend/src/components/BillSplitter.jsx:70 | the input is a blank prefix, then the trimmed text, then a blank suffix: trim removes only whitespace and only at the two ends |
| `Text.TrimEmptyIff` | frontend/src/components/BillSplitter.jsx:54 | `s.trim()` is empty exactly when every character of `s` is whitespace |
| `Text.TrimOfPadded` | frontend/src/components/BillSplitter.jsx:118 | trimming whitespace + core + whitespace yields exactly the core when the core neither starts nor ends with whitespace; with TrimIsInfix this fixes the result of trim on every input |
| `Text.TrimIdempotent` | frontend/src/components/BillSplitter.jsx:70 | trimming an already trimmed payer or consumer name changes nothing |
| `Lists.Filter` | frontend/src/components/BillSplitter.jsx:50 | the result holds every element that passes, with its multiplicity, no element that fails, and keeps the input order |
| `BillList.RemoveBill` | frontend/src/components/BillSplitter.jsx:49-51 | deleting removes every bill with the id; every other bill stays, as often as before and in its original order |
| `BillList.RemoveAbsentBill` | frontend/src/components/BillSplitter.jsx:50 | deleting an id that no bill has leaves the list unchanged |
| `BillList.ReplaceBill` | frontend/src/components/BillSplitter.jsx:76-77 | saving an edit keeps the list length; each position whose bill had the edited id holds the new bill, and every other position is unchanged |
| `BillList.ReplaceAbsentBill` | frontend/src/components/BillSplitter.jsx:77 | saving while editing an id that no bill has leaves the list unchanged |
| `BillList.ReplaceKeepsIds` | frontend/src/components/BillSplitter.jsx:69-77 | the edited bill keeps its id, so saving an edit leaves the sequence of ids unchanged |
| `BillList.ReplaceThenRemove` | frontend/src/components/BillSplitter.jsx:49-80 | saving an edit and then deleting that id leaves the same list as deleting it straight away |
| `BillList.ReplaceKeepsValid` | frontend/src/components/BillSplitter.jsx:76-77 | replacing with a valid bill keeps every saved bill valid |
| `BillList.AppendKeepsValid` | frontend/src/components/BillSplitter.jsx:78-80 | appending a valid bill keeps every saved bill valid |
| `BillList.ValidItems` | frontend/src/components/BillSplitter.jsx:59-61 | the saved items are exactly the form rows with a non-blank name, price > 0, quantity > 0 and at least one consumer, with their multiplicity and order |
| `BillList.BuildBill` | frontend/src/components/BillSplitter.jsx:53-74 | refused with MissingPayer exactly when the payer is blank; otherwise refused with NoValidItems exactly when no row is valid; otherwise a valid bill with the given id, the trimmed payer, the valid rows, and the rates as fractions of the percentages |
| `BillList.OneValidRowSaves` | frontend/src/components/BillSplitter.jsx:53-74 | a non-blank payer and a single valid row are all a save needs: the result is that bill, with the trimmed payer and the rates as fractions |
| `ItemForm.RemoveItemAt` | frontend/src/components/BillSplitter.jsx:93 | the row at the index goes: earlier rows keep their position, later rows move up one, one row fewer and exactly that row missing from the multiset; an index past the end removes nothing |
| `ItemForm.AddThenRemoveItem` | frontend/src/components/BillSplitter.jsx:86-93 | deleting the row just added gives back the earlier rows |
| `ItemForm.ApplyEdit` | frontend/src/components/BillSplitter.jsx:99-110 | the edited field takes the new value and the other three keep theirs |
| `ItemForm.LaterEditWins` | frontend/src/components/BillSplitter.jsx:99-110 | of two changes to the same field, the later one alone determines the row |
| `ItemForm.AddConsumer` | frontend/src/components/BillSplitter.jsx:114-123 | the old list is a prefix of the new one, with at most one name more; a name is listed afterwards exactly when it was listed before or is the non-blank trimmed input; blank text, or a name already listed, changes nothing; a duplicate-free list stays duplicate-free |
| `ItemForm.AddConsumerIdempotent` | frontend/src/components/BillSplitter.jsx:114-123 | entering the same name twice adds it once |
| `ItemForm.RemoveConsumer` | frontend/src/components/BillSplitter.jsx:133 | every occurrence of the name goes; every other consumer stays, as often as before and in order |
| `ItemForm.RemoveConsumerNoDuplicates` | frontend/src/components/BillSplitter.jsx:133 | removing a consumer keeps a duplicate-free list duplicate-free |
| `ItemForm.AddThenRemoveConsumer` | frontend/src/components/BillSplitter.jsx:114-134 | adding a name and then removing it equals removing it; if the name was not listed before, the list is back to what it was |
| `ItemForm.FromScan` | frontend/src/components/BillSplitter.jsx:162-167 | one form row per scanned line, with its name, price and quantity and no consumers |
| `ItemForm.ScannedRowsNeedConsumers` | frontend/src/components/BillSplitter.jsx:162-169 | no row filled in from a scan passes the save's filter until a consumer is added |
| `Results.PlansWithPayments` | frontend/src/components/BillSplitter.jsx:474 | the plans shown are exactly those with at least one payment, each as often as given and in the given order |
| `Results.PlansWithPaymentsIdempotent` | frontend/src/components/BillSplitter.jsx:474 | filtering the shown plans again shows the same plans |
| `Editor.BillSplitter.constructor` | frontend/src/components/BillSplitter.jsx:5-14 | no bills, no plans, both panels closed, and the form in its reset state |
| `Editor.BillSplitter.ResetForm` | frontend/src/components/BillSplitter.jsx:23-29 | no payer, 5% tax, 0% service, one blank row (quantity 1, no consumers), nothing being edited; no other field changes |
| `Editor.BillSplitter.AddBill` | frontend/src/components/BillSplitter.jsx:31-36 | opens the form, closes and clears the results, resets the form; the bills are untouched |
| `Editor.BillSplitter.EditBill` | frontend/src/components/BillSplitter.jsx:38-47 | loads the bill's id, payer, rows and rates (as percentages) into the form, opens it, and clears the results |
| `Editor.BillSplitter.Cancel` | frontend/src/components/BillSplitter.jsx:441-445 | closes and resets the form; the bills are untouched (the close button at lines 275-278 does the same) |
| `Editor.BillSplitter.SetPaidBy` | frontend/src/components/BillSplitter.jsx:312 | the payer field holds the typed text as it is, untrimmed; nothing else changes |
| `Editor.BillSplitter.SetTaxPercent` | frontend/src/components/BillSplitter.jsx:326 | the tax field holds the typed percentage; nothing else changes |
| `Editor.BillSplitter.SetServicePercent` | frontend/src/components/BillSplitter.jsx:341 | the service-charge field holds the typed percentage; nothing else changes |
| `Editor.BillSplitter.DeleteBill` | frontend/src/components/BillSplitter.jsx:49-51 | the bills become RemoveBill of the old bills; every saved bill stays valid |
| `Editor.BillSplitter.SaveBill` | frontend/src/components/BillSplitter.jsx:53-84 | returns the BuildBill result; a refused save changes nothing; an accepted save while editing gives the bill the edited id and replaces by id (ReplaceBill), keeping the length and every position's id; otherwise the bill gets the fresh id and is appended as exactly one bill at the end; then it closes and resets the form; every saved bill stays valid |
| `Editor.BillSplitter.StoreBill` | frontend/src/components/BillSplitter.jsx:76-83 | the accepted half of a save: while editing, the bill replaces by id and every position keeps its id; otherwise it is appended; the list never shrinks, the form is closed and reset, and every saved bill stays valid |
| `Editor.BillSplitter.AddItem` | frontend/src/components/BillSplitter.jsx:86-88 | appends one blank row (no name, price 0, quantity 1, no consumers) |
| `Editor.BillSplitter.DeleteItem` | frontend/src/components/BillSplitter.jsx:90-97 | refused while one row or none is left, so a non-empty form never becomes empty; otherwise exactly the row at the index is removed |
| `Editor.BillSplitter.ChangeItem` | frontend/src/components/BillSplitter.jsx:99-110 | only the row at the index changes, by ApplyEdit; the saved bills are untouched |
| `Editor.BillSplitter.ConsumerKeyDown` | frontend/src/components/BillSplitter.jsx:112-128 | Enter on non-blank text applies AddConsumer to that row only and clears the field; any other key or blank text changes nothing |
| `Editor.BillSplitter.RemoveConsumerOf` | frontend/src/components/BillSplitter.jsx:130-137 | only that row's consumers change, by RemoveConsumer; every other row is untouched |
| `Editor.BillSplitter.ApplyScan` | frontend/src/components/BillSplitter.jsx:158-176 | a scan sets the rates as percentages and replaces the rows by FromScan; a failed scan changes nothing |
| `Editor.BillSplitter.CalculateSplit` | frontend/src/components/BillSplitter.jsx:178-205 | without bills it returns NoBills and changes nothing; a failed request changes nothing; otherwise it stores the returned plans and shows the results |
| `Editor.BillSplitter.BackToBills` | frontend/src/components/BillSplitter.jsx:622 | hides the results panel and changes nothing else |
| `Editor.EditChangeCancel` | frontend/src/components/BillSplitter.jsx:38-47 | opening a bill, changing a row and cancelling leaves the saved bills exactly as they were |
| `AliasedEditor.AliasingBillSplitter.EditBill` | frontend/src/components/BillSplitter.jsx:43 | the form holds the saved bill's own item objects, not copies |
| `AliasedEditor.AliasingBillSplitter.ChangeItem` | frontend/src/components/BillSplitter.jsx:101-105 | the item object at the index is changed in place by ApplyEdit |
| `AliasedEditor.AliasingBillSplitter.Cancel` | frontend/src/components/BillSplitter.jsx:441-445 | the form gets one new blank object, and no object is restored |
| `AliasedEditor.CancelledEditChangesSavedBill` | frontend/src/components/BillSplitter.jsx:43 | after opening a saved valid item, clearing its name and cancelling, the saved bill holds that item with a blank name, which is no longer a valid item |

## Left out

- Allocation, balances and settle-up: the repository has none. Its split endpoint (`app/api/v1/endpoints/outing.py:10-27`) returns fixed example plans, so no settlement algorithm is modelled and none is invented.
- Floating point: prices and rates are exact `real`s. The tax and service fields hold the typed text (lines 326, 341), which the save parses (lines 71-72); `SetTaxPercent` and `SetServicePercent` take the number that text parses to. The number fields' `parseFloat`/`parseInt` conversions (with `|| 0` and `|| 1`) are not modelled, nor is text that parses to NaN. The rounding of `* 100` and `/ 100` between percentages and fractions is not modelled either. Prices are only compared with zero.
- Bill totals and plan totals (`reduce` over `price * quantity` and over payment amounts): display-only floating-point sums.
- The `fetch` calls to `/ocr` and `/split`, `alert`, the `isUploading` flag, the window-resize handling and all rendering. The answers of the requests are parameters.
- `Date.now()`: the fresh id is the `freshId` parameter. Nothing requires it to differ from existing ids, as nothing in the source checks that.
- `handleItemChange` accepts any field name. The model covers name, price and quantity, the fields the form edits (lines 371, 380, 389). It also covers `consumed_by`, the branch at lines 102-103, which the form never calls.
- The backend: the Gemini receipt service and its prompt and schema, the FastAPI routing and content-type check, the Pydantic schemas and the health test. These are foreign calls or library behaviour.
- Editor.BillSplitter: the main model copies item rows by value, so it does not reproduce the sharing of item objects between the form and the saved bill. `AliasedEditor` models that sharing for editing, changing a field and cancelling. It does not cover the consumer handlers, which share objects in the same way.
- Editor.BillSplitter.ConsumerKeyDown, Editor.BillSplitter.ChangeItem, Editor.BillSplitter.RemoveConsumerOf and AliasedEditor.AliasingBillSplitter.ChangeItem: all require the row index to be in range, as the rendered rows always pass. On another index `handleItemChange` and `removeConsumer` throw a TypeError. `handleConsumerKeyDown` reads the row only on Enter with non-blank text (lines 114-117), so with any other key or blank text an out-of-range index is a silent no-op there; only on Enter with non-blank text would it throw.
- Editor.BillSplitter.ApplyScan and Editor.BillSplitter.CalculateSplit: both requests are modelled as atomic. In the source they await a `fetch` (lines 149, 185), so other handlers can run before the answer lands. A late /split answer shows plans again after Add bill has cleared them (lines 199-200). A late scan overwrites rows typed meanwhile, even in a form since opened on another bill. The model checks `bills` and stores the answer in one step.

## Findings

| source | as written | input that shows it | evidently intended | confidence | as-written member | corrected member |
|---|---|---|---|---|---|---|
| frontend/src/components/BillSplitter.jsx:43 | `setItems(bill.items)` puts the saved bill's own item objects in the form, and `handleItemChange` (lines 101-105) and the consumer handlers (lines 121, 133) assign into those objects, so editing a row changes the saved bill at once, and Cancel (lines 441-445) does not undo it | save bill "1" paid by A with item Pizza, 20, 1, [A, B]; open it, clear the item's name, cancel: bill "1" now has an item with a blank name | form edits reach the saved bills only through Save; Cancel leaves them as they were | high (not executed) | `AliasedEditor.CancelledEditChangesSavedBill` | `Editor.EditChangeCancel` |
