# Invoice page layout of PdfGenerator.generate

This project models the page layout of the VTM invoice generator:
`PdfGenerator.generate` draws one invoice on a single 595 x 842 page
(A4 at 72 units per inch) by issuing a fixed sequence of canvas calls.
The model records those calls in order and proves where each lands.

- `Invoice` holds the invoice record: items, customer, footer, language code, template and grand total.
- `Canvas` holds the draw calls (`DrawOp`) and the text of each text call (`TextRun`).
  `TextRun` keeps the shape of the Kotlin string template that builds the text.
  `TextOf` gives the characters it puts on the page.
  `RecordingCanvas` is a canvas that appends each call to its `ops` sequence.
- `Decimal` is Kotlin's `Int.toString`, the rupee-prefixed amount, and a parser that reads numbers back.
- `Layout` is the specification: `PageOps` is the list of calls for an invoice, a signature and the string resources.
  It is built from `HeadOps`, `Rows` (four calls per item, `RowOps`) and `TailOps`.
  `TailOps` is built from `TotalsOps`, `SignatureOps` and `BorderOps`.
- `PdfGenerator.Generate` is the imperative renderer.
  It allocates the canvas, draws the heading, loops over the items with the cursor `y` (invariant `y == 168 + 18 i`), and draws the closing part.
  It is proved to produce exactly `PageOps`.
  The heading and closing parts are the helper methods `DrawHeading` and `DrawClosing`, which follow the commented sections of the source.
- `LayoutProperties` proves what the layout promises: exact positions, input order, the number of calls, the language fallback, and exactly what the signature and template switches add.

Three details of the program are worth stating plainly:
- Labels (invoice number, bill-to, column titles, grand total, signature) come from the application context's current locale.
  Only the business name depends on the invoice's language code (`data.language`).
- The separator after the rows is 28 units below the last row's baseline.
  The grand-total line is 46 units below it, at `196 + 18 n`.
- Quantities and prices are not checked to be non-negative; any integer is printed.

## Model

| member | source | states |
|---|---|---|
| `Canvas.RecordingCanvas.constructor` | PdfGenerator.kt:16-19 | a new page canvas has the requested size and no calls yet |
| `Canvas.RecordingCanvas.DrawColorWhite` | PdfGenerator.kt:25 | the white fill is appended to the recorded calls and nothing else changes |
| `Canvas.RecordingCanvas.DrawBitmap` | PdfGenerator.kt:31 | an image placement (kind, position, scaled size, alpha) is appended |
| `Canvas.RecordingCanvas.DrawText` | PdfGenerator.kt:47 | a text run at a position with a weight is appended |
| `Canvas.RecordingCanvas.DrawLine` | PdfGenerator.kt:72 | a line between two points is appended |
| `Canvas.RecordingCanvas.DrawRect` | PdfGenerator.kt:102 | a stroked rectangle with its stroke width is appended |
| `Canvas.TextOf` | PdfGenerator.kt:62-63 | the characters of each text run: a label-value run is the label, ": " and the value; a caption ends in ':' as at :86; a number and a rupee amount parse back to their value |
| `Decimal.IntToString` | PdfGenerator.kt:77 | `Int.toString`: a '-' exactly for negative numbers, then only digits, with a leading '0' only for zero |
| `Decimal.Currency` | PdfGenerator.kt:78-79 | `"₹${n}"`: the rupee sign followed by text that parses back to n (also the grand total at :87) |
| `Layout.BusinessNameId` | PdfGenerator.kt:42-46 | the `when` on the language: Kannada exactly for "kn", Marathi exactly for "mr", English for every other code |
| `Layout.Strings.Get` | PdfGenerator.kt:39-57 | `context.getString(id)`: the lookup of one resource id in the locale's string table (also the signature label at :97); it has no contract of its own, the table's contents being external |
| `Layout.PageOps` | PdfGenerator.kt:25-103 | the whole call sequence: it has at least 15 calls, opens with the white fill and the watermark, and closes with the border for CLASSIC and with the signature label otherwise |
| `Canvas.NumberReadsBack` | PdfGenerator.kt:77 | the printed quantity `qty.toString()` parses back to the quantity |
| `Canvas.AmountReadsBack` | PdfGenerator.kt:78-79 | a printed amount is the rupee sign followed by digits that parse back to the amount |
| `Decimal.ParseIntToString` | PdfGenerator.kt:77-79 | decimal rendering of any integer round-trips through the parser |
| `Decimal.CurrencyInjective` | PdfGenerator.kt:87 | two amounts print the same text if and only if they are equal |
| `PdfGenerator.Generate` | PdfGenerator.kt:15-103 | the page is 595 x 842 and its calls are exactly `PageOps`; there are 15 + 4n calls plus one for a signature and one for CLASSIC |
| `PdfGenerator.DrawHeading` | PdfGenerator.kt:24-73 | appends the fill, watermark, business name, meta lines and table header, and leaves the cursor at 168 |
| `PdfGenerator.DrawClosing` | PdfGenerator.kt:83-103 | from the cursor below the last row, appends separator, grand total, footer, optional signature, its label and the optional border |
| `LayoutProperties.RowsLength` | PdfGenerator.kt:75-81 | every item produces exactly four calls |
| `LayoutProperties.RowsAt` | PdfGenerator.kt:75-81 | call j of item i is at position 4i + j of the rows |
| `LayoutProperties.RowsAreText` | PdfGenerator.kt:75-81 | the rows contain only normal-weight text between y = 168 and the cursor after the loop |
| `LayoutProperties.PageOpsCount` | PdfGenerator.kt:25-103 | the page has 15 + 4n calls, plus one if a signature is given, plus one for CLASSIC |
| `LayoutProperties.BackgroundThenWatermark` | PdfGenerator.kt:25-31 | call 0 is the white fill and call 1 the 260 x 260 logo at (167.5, 291) with alpha 35; neither occurs again |
| `LayoutProperties.BusinessNameHeader` | PdfGenerator.kt:39-47 | call 2 is the bold business name at (40, 60): Kannada for "kn", Marathi for "mr", English otherwise |
| `LayoutProperties.BusinessNameFallback` | PdfGenerator.kt:42-46 | the English name is chosen exactly when the code is neither "kn" nor "mr" |
| `LayoutProperties.MetaLines` | PdfGenerator.kt:62-63 | "invoice-no label: number" at (40, 90) and "bill-to label: customer" at (40, 110) |
| `LayoutProperties.TableHeader` | PdfGenerator.kt:66-72 | bold column labels at y = 140 and x = 40, 330, 380, 470, then the line (40, 152)-(555, 152) |
| `LayoutProperties.ItemRowPlacement` | PdfGenerator.kt:75-81 | item i, whatever its quantity, draws name, quantity, rupee price and rupee total at x = 40, 340, 380, 470 and y = 168 + 18i, at calls 10 + 4i to 13 + 4i |
| `LayoutProperties.ItemsInInputOrder` | PdfGenerator.kt:75-81 | for i < j, item i's name is drawn before and above item j's |
| `LayoutProperties.TotalsBelowRows` | PdfGenerator.kt:83-87 | line (320, 178 + 18n)-(555, 178 + 18n), bold "grand-total label:" and rupee grand total at y = 196 + 18n, strictly below every row |
| `LayoutProperties.FooterAndSignatureLabel` | PdfGenerator.kt:90-97 | footer at (40, 800) and signature label at (400, 820) for any number of rows, with or without a signature |
| `LayoutProperties.RowsNotClamped` | PdfGenerator.kt:75-90 | with more than 36 items, the 37th row is drawn at y = 816, below the footer line |
| `LayoutProperties.SignatureSwitch` | PdfGenerator.kt:93-96 | a signature inserts exactly the 140 x 40 stamp at (400, 760) between the footer and the signature label; all other calls are identical |
| `LayoutProperties.SignatureStampIffSupplied` | PdfGenerator.kt:93-96 | the signature stamp is on the page if and only if a signature is supplied |
| `LayoutProperties.TemplateSwitch` | PdfGenerator.kt:100-103 | CLASSIC draws exactly the MODERN calls followed by the border rectangle |
| `LayoutProperties.BorderIffClassic` | PdfGenerator.kt:100-103 | the border (20, 20)-(575, 822) with stroke 3 is on the page if and only if the template is CLASSIC |
| `LayoutProperties.SampleInvoiceGrandTotal` | PdfGenerator.kt:86-87 | for the three-service sample invoice, the grand total is drawn as "₹10000" at (470, 250) |

## Left out

- Bitmap decoding and scaling (`BitmapFactory.decodeResource`, `Bitmap.createScaledBitmap`) are foreign graphics calls. Images are placement records with the target size; a scaling failure on a bad bitmap is not modelled.
- Paint details (colour, typeface, text size, anti-aliasing) are rendering style. Only a bold/normal weight, the image alpha and the border's stroke width are kept.
- The `PdfDocument` page lifecycle and serialisation (`finishPage`, `writeTo`, `close`) are library code that is not part of this model. `Generate` returns the finished page's calls instead of a file.
- The output file in the cache directory and its `System.currentTimeMillis()` name are I/O and clock reads.
- `context.getString` contents are external resources. They are the `Strings` record, one field per resource id.
- Line totals and the grand total are taken as the values `InvoiceItem.total` and `InvoiceData.grandTotal` report. Their arithmetic, including 32-bit wrap-around, is not part of this model.
- Kotlin `Int` values are unbounded integers here. The layout only prints them, so their width does not change any call.
- Coordinates are exact reals. Kotlin adds 32-bit floats, which are exact for every coordinate here while `y` stays below 2^24.
- Text is recorded as a `TextRun` (the string template and its arguments) rather than as the concatenated string. `TextOf` gives the characters.
