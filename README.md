# Quote and receipt generator: a Dafny model

This project models the core of a small web application (a quote and receipt
generator for the company EKIPHELP). An operator fills in a quote: the client,
the company, a list of line items and some notes. Submitting it appends a
snapshot to a store. The page then shows the quote as a printable document.
That document can be titled as an estimate ("ORÇAMENTO") or as a payment
receipt ("RECIBO DE PAGAMENTO"), edited again, replaced by a new quote, or
exported to a PDF file.

Four modules:

- `Quotes` (`quotes.dfy`): the shapes both components declare: a line item,
  the company data, the sealed quote record, and the document type. Money is
  whole cents.
- `QuoteForm` (`quote_form.dfy`): the editor. The item operations (add,
  remove, update) and the total are pure sequence functions. The class `Form`
  holds the component's five state fields and has one method per handler.
  `Submit` builds the snapshot, appends it to the store when the append
  succeeds, and only then hands it to the completion callback.
- `QuotePdf` (`quote_pdf.dfy`): the document. `Render` is a pure function
  from a quote to a fixed sequence of blocks: title, client, date, company,
  items table, total, optional notes, footer.
- `IndexPage` (`index_page.dfy`): the page controller. The class `Index` holds
  `currentQuote`, `isEditing` and `documentType`, with one method per handler.
  Its invariant `Valid` says that editing happens only while a quote exists,
  and that the current quote always carries the selected document type.
  `CurrentScreen` picks the screen. `FileName` builds the export file
  name.

Collaborators become parameters:
- the store append is the flag `appendSucceeds`, and the store is a sequence
  of records;
- the clock is `now` (the ISO timestamp on the record) and `today` (the
  locale date string in the file name);
- the PDF exporter gets an `ExportRequest`: the rendered document and the
  file name.

Points where the code behaves differently from what a reader might assume:
- Submission performs no validation.
- `removeItem` has no guard. Only the rendered form hides the remove button
  when a single item is left (`UiKeepsAnItem`).
- The total is not rounded.
- The export file name uses the clock's current date, not the quote's date.

## Model

| member | source | states |
|---|---|---|
| `QuoteForm.SeedFrom` | src/components/QuoteForm.tsx:50-58 | seeding reads exactly the client name, phone, items, notes and company of the quote passed as `initialData` |
| `QuoteForm.AppendBlank` | src/components/QuoteForm.tsx:60-62 | adding an item makes the list one longer, keeps every earlier item, and puts `{"", 1, 0}` at the end |
| `QuoteForm.KeepOthers` | src/components/QuoteForm.tsx:65 | the positional `filter` walk: its result is one shorter exactly when `index` falls within the walked positions, and as long as its input otherwise; `KeepOthersSlices` gives its contents |
| `QuoteForm.RemoveAt` | src/components/QuoteForm.tsx:64-66 | `removeItem`'s filter: an in-range index gives the list with that position cut out, any other index gives the list unchanged |
| `QuoteForm.KeepOthersSlices` | src/components/QuoteForm.tsx:65 | the index-filter walk drops exactly the element at `index` when it lies in the walked range, and otherwise returns its input |
| `QuoteForm.RemoveItemSpec` | src/components/QuoteForm.tsx:64-66 | position by position: removing an in-range index makes the list one shorter, keeps every item before it in place and moves every item after it down by one |
| `QuoteForm.Edited` | src/components/QuoteForm.tsx:70 | an item edit replaces only the named field; the other two fields keep their values |
| `QuoteForm.UpdateAt` | src/components/QuoteForm.tsx:68-72 | updating item `index` keeps the length and every other item; item `index` becomes the edited one |
| `QuoteForm.Reduce` | src/components/QuoteForm.tsx:75 | the `reduce` left fold; it has no contract of its own, and `ReduceIsSum` states its value |
| `QuoteForm.CalculateTotal` | src/components/QuoteForm.tsx:74-76 | `calculateTotal` equals the sum of quantity times price over the items |
| `QuoteForm.ReduceIsSum` | src/components/QuoteForm.tsx:75 | the reduce fold from any start value equals that value plus the sum of the line totals |
| `QuoteForm.SumOfLinesConcat` | src/components/QuoteForm.tsx:74-76 | the reference sum of line totals is additive over concatenation |
| `QuoteForm.TotalConcat` | src/components/QuoteForm.tsx:74-76 | the total of a concatenation is the sum of the totals |
| `QuoteForm.TotalOfOne` | src/components/QuoteForm.tsx:74-76 | the total of a single item is its line total |
| `QuoteForm.AddItemKeepsTotal` | src/components/QuoteForm.tsx:60-62 | adding the blank item leaves the total unchanged |
| `QuoteForm.RemoveItemTotal` | src/components/QuoteForm.tsx:64-66 | removing an in-range item lowers the total by that item's line total; an out-of-range index keeps it |
| `QuoteForm.UpdateItemTotal` | src/components/QuoteForm.tsx:68-72 | editing one item changes the total by exactly the change in that item's line total |
| `QuoteForm.Offered` | src/components/QuoteForm.tsx:154-196 | add is always offered; a row's remove button only while more than one item exists; edits and removals only on rendered rows; it has no contract of its own, and `UiKeepsAnItem` relies on it |
| `QuoteForm.Perform` | src/components/QuoteForm.tsx:148-192 | each offered click or edit goes to `addItem`, `removeItem` or `updateItem`; it has no contract of its own, and `UiKeepsAnItem` states its property |
| `QuoteForm.UiKeepsAnItem` | src/components/QuoteForm.tsx:186-196 | any sequence of add, remove and edit actions that the rendered form offers keeps at least one item, starting from a non-empty list such as the initial one |
| `QuoteForm.Form.constructor` | src/components/QuoteForm.tsx:39-58 | an unseeded form starts with empty texts and the single blank item; a seeded form takes all five fields from `initialData` |
| `QuoteForm.Form.SetClientName` | src/components/QuoteForm.tsx:128 | replaces the client name and nothing else |
| `QuoteForm.Form.SetClientPhone` | src/components/QuoteForm.tsx:138 | replaces the client phone and nothing else |
| `QuoteForm.Form.SetNotes` | src/components/QuoteForm.tsx:207 | replaces the notes and nothing else |
| `QuoteForm.Form.SetCompanyName` | src/components/QuoteForm.tsx:231 | replaces the company name; the other company fields and the rest of the state are kept |
| `QuoteForm.Form.SetCompanyPhone` | src/components/QuoteForm.tsx:241 | replaces the company phone; everything else is kept |
| `QuoteForm.Form.SetCompanyAddress` | src/components/QuoteForm.tsx:251 | replaces the company address; everything else is kept |
| `QuoteForm.Form.SetCompanyCnpj` | src/components/QuoteForm.tsx:260 | replaces the company CNPJ; everything else is kept |
| `QuoteForm.Form.AddItem` | src/components/QuoteForm.tsx:60-62 | the item list becomes the old one plus a blank item, the other fields are kept, and the total does not change |
| `QuoteForm.Form.RemoveItem` | src/components/QuoteForm.tsx:64-66 | the item list loses position `index` when it is in range and is unchanged otherwise; the other fields are kept |
| `QuoteForm.Form.UpdateItem` | src/components/QuoteForm.tsx:68-72 | the copied-and-patched list is the old list with only item `index` edited; the other fields are kept |
| `QuoteForm.Form.Snapshot` | src/components/QuoteForm.tsx:81-89 | the submitted record carries exactly the current client, phone, items, notes and company, the time `now`, no document type, and the sum of the line totals as total |
| `QuoteForm.Form.Submit` | src/components/QuoteForm.tsx:78-106 | a successful append adds the snapshot to the end of the store and hands that snapshot to the callback; a failed one leaves the store alone and invokes no callback; the form state never changes |
| `QuoteForm.ResubmitUnchanged` | src/components/QuoteForm.tsx:50-89 | editing a submitted quote and submitting at once appends a new record with the same client, items, notes and company, the total recomputed from the items, and the same total when the original was sealed by the form |
| `QuotePdf.DocumentTitle` | src/components/QuotePDF.tsx:29 | the title is "RECIBO DE PAGAMENTO" iff the document type is a receipt, and "ORÇAMENTO" otherwise, including when the type is absent |
| `QuotePdf.RowOf` | src/components/QuotePDF.tsx:72-79 | one table row; it has no contract of its own, and `Rows` states each row's description, quantity, price and line total |
| `QuotePdf.Rows` | src/components/QuotePDF.tsx:71-80 | one row per item, in item order, each showing the item's description, quantity and price, with line total quantity times price |
| `QuotePdf.Render` | src/components/QuotePDF.tsx:28-107 | the blocks follow the fixed order title, client, date, company, table, total, optional notes, footer; the total line shows the stored total, not a recomputed one; a notes block exists iff notes are non-empty, and holds them verbatim |
| `QuotePdf.KindOnlyChangesTitle` | src/components/QuotePDF.tsx:29-105 | changing only the document type changes only the title; all later blocks are identical |
| `IndexPage.ReplaceSlashes` | src/pages/Index.tsx:27 | each "/" becomes "-", every other character and the length are kept, and no "/" remains |
| `IndexPage.FilePrefix` | src/pages/Index.tsx:25 | the prefix is "Recibo" iff the type is a receipt, and "Orcamento" for an estimate; it has no "/" |
| `IndexPage.FileName` | src/pages/Index.tsx:25-27 | the name is "EKIPHELP_", then "Recibo" iff the type is a receipt and "Orcamento" otherwise, then "_", the date with slashes replaced, and ".pdf"; it contains no "/" |
| `IndexPage.RowsTotalIsSum` | src/components/QuotePDF.tsx:71-80 | the line totals shown in the table add up to the sum of quantity times price over the items |
| `IndexPage.SealedTotalMatchesRows` | src/components/QuotePDF.tsx:88-90 | for a quote whose stored total came from the form, the total line equals the sum of the table's line totals |
| `IndexPage.TwoItemScenario` | src/components/QuoteForm.tsx:74-76 | 2 x 50.00 plus 1 x 30.00 totals 130.00; the two rows show 100.00 and 30.00, there is no notes block, and the total line shows 130.00 |
| `IndexPage.TitleAgreesWithFileName` | src/pages/Index.tsx:25 | a quote carrying the selected type shows the receipt title iff its export file is named as a receipt |
| `IndexPage.Index.CurrentScreen` | src/pages/Index.tsx:44-51 | the document is shown iff not editing and a quote exists, and it is the current quote; editing an existing quote shows the form seeded from it; no quote shows the empty form |
| `IndexPage.Index.constructor` | src/pages/Index.tsx:11-13 | no quote, not editing, estimate selected, the empty form shown, and the invariant holds |
| `IndexPage.Index.HandleQuoteGenerated` | src/pages/Index.tsx:17-20 | the current quote becomes the given one stamped with the selected document type, editing ends, the document is shown |
| `IndexPage.Index.ChangeDocumentType` | src/pages/Index.tsx:60-63 | the selected type and the quote's type both become the new value, every other field of the quote is kept, and every block after the title renders the same |
| `IndexPage.Index.Edit` | src/pages/Index.tsx:77 | editing starts, and the form is shown seeded from the unchanged current quote |
| `IndexPage.Index.NewQuote` | src/pages/Index.tsx:80 | the quote is dropped and the empty form is shown; the selected type is kept, so the next quote inherits it |
| `IndexPage.Index.DownloadPdf` | src/pages/Index.tsx:22-42 | an export is requested iff the document is mounted, with the rendered current quote and the file name from the selected type and today's date; under the page invariant the document carries the receipt title iff the file is named as a receipt; no state changes |

## Left out

- The store is Firebase `push`. Its outcome is the parameter `appendSucceeds` and the store is a value. Its generated key, the network and any read-back are not modelled.
- The PDF rasterization (`react-to-pdf`) is a foreign call: the model only builds the request it is given. Its success or failure only changes a notification.
- Toast notifications, JSX markup, CSS and the UI library widgets are left out. So are the headings and fixed labels in the document ("Dados do Cliente:", "CNPJ: ", table headers).
- Prices are whole cents and quantities whole numbers. JavaScript floating point, `toFixed(2)` and the "R$" formatting are not modelled; the blocks carry the amounts.
- `new Date().toISOString()`, `new Date(date).toLocaleDateString('pt-BR')` and the export's own clock reading are not modelled. They enter as the strings `now` and `today`, and the date block carries the record's date string unformatted.
- `parseInt`/`parseFloat` giving NaN, and the browser's `required` and `min` checks, are native widget behaviour. Quantities and prices may be any integers.
- `QuoteForm.UpdateAt` and `QuoteForm.Form.UpdateItem`: require an in-range index, because every call site passes the index of a rendered row. JavaScript's result for an index past the end (a sparse array holding a partial item) is not modelled.
- `IndexPage.Index.ChangeDocumentType`, `IndexPage.Index.Edit` and `IndexPage.Index.NewQuote`: require the document screen, because their controls are rendered only there. The object `{...null, documentType}` that the type switch would build with no current quote is not modelled.
- `QuoteForm.Form.constructor`: models mounting, which applies `initialData` once. A change of the prop while the same form stays mounted does not happen on this page and is not modelled. React scheduling of the effect is left out too.
- Double submission and overlapping exports are concurrency, which the code does not guard; the model treats each handler as atomic.
