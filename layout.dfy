/**
 * The page that PdfGenerator.generate draws, written as the ordered list of
 * canvas calls it issues for a given invoice, signature and string table.
 * This is the specification the imperative renderer is proved against.
 */
module Layout {
  import opened Wrappers
  import opened Invoice
  import opened Canvas
  import opened Decimal

  /** A4 at 72 units per inch. */
  const PageWidth: nat := 595
  const PageHeight: nat := 842

  /** The string resources the renderer looks up. */
  datatype StringId =
    | BusinessNameEn | BusinessNameKn | BusinessNameMr
    | InvoiceNoLabel | BillTo | ItemLabel | QtyLabel | PriceLabel | TotalLabel | GrandTotalLabel
    | SignatureLabel

  /** The string resources of the application context, for its current locale. */
  datatype Strings = Strings(
    businessNameEn: string, businessNameKn: string, businessNameMr: string,
    invoiceNo: string, billTo: string, item: string, qty: string, price: string,
    total: string, grandTotal: string, signature: string)
  {
    /** context.getString(id) */
    function Get(id: StringId): string
    {
      match id
      case BusinessNameEn => businessNameEn
      case BusinessNameKn => businessNameKn
      case BusinessNameMr => businessNameMr
      case InvoiceNoLabel => invoiceNo
      case BillTo => billTo
      case ItemLabel => item
      case QtyLabel => qty
      case PriceLabel => price
      case TotalLabel => total
      case GrandTotalLabel => grandTotal
      case SignatureLabel => signature
    }
  }

  /** A caller-supplied signature raster before scaling; only its presence matters. */
  datatype Bitmap = Bitmap(width: nat, height: nat)

  /** Business name by invoice language; every other code falls back to English. */
  function BusinessNameId(language: string): (id: StringId)
    ensures id == BusinessNameKn <==> language == "kn"
    ensures id == BusinessNameMr <==> language == "mr"
    ensures id == BusinessNameEn <==> language != "kn" && language != "mr"
  {
    if language == "kn" then BusinessNameKn
    else if language == "mr" then BusinessNameMr
    else BusinessNameEn
  }

  /** The logo, scaled to 260 x 260, centred on the page, alpha 35 of 255. */
  const Watermark: DrawOp :=
    Image(Logo, (PageWidth - 260) as real / 2.0, (PageHeight - 260) as real / 2.0, 260, 260, 35)

  /** The signature, scaled to 140 x 40, drawn opaque at (400, 760). */
  const SignatureStamp: DrawOp := Image(SignatureImage, 400.0, 760.0, 140, 40, 255)

  /** The classic template's border, inset 20 units, stroke 3. */
  const Border: DrawOp := Rect(20.0, 20.0, 575.0, 822.0, 3.0)

  /** Baseline of item row i (0-based). */
  function RowY(i: nat): real
  {
    168.0 + 18.0 * i as real
  }

  /** The four cells of item row i. */
  function RowOps(item: InvoiceItem, i: nat): seq<DrawOp>
  {
    [ Text(Plain(item.name), 40.0, RowY(i), Normal),
      Text(Number(item.qty), 340.0, RowY(i), Normal),
      Text(Amount(item.price), 380.0, RowY(i), Normal),
      Text(Amount(item.total), 470.0, RowY(i), Normal) ]
  }

  /** All item rows, in input order. */
  function Rows(items: seq<InvoiceItem>): seq<DrawOp>
    decreases |items|
  {
    if |items| == 0 then []
    else Rows(items[..|items| - 1]) + RowOps(items[|items| - 1], |items| - 1)
  }

  /** Background, watermark, business name, meta lines and the table header. */
  function HeadOps(data: InvoiceData, strings: Strings): seq<DrawOp>
  {
    [ FillWhite,
      Watermark,
      Text(Plain(strings.Get(BusinessNameId(data.language))), 40.0, 60.0, Bold),
      Text(Labelled(strings.Get(InvoiceNoLabel), data.invoiceNo), 40.0, 90.0, Normal),
      Text(Labelled(strings.Get(BillTo), data.customer), 40.0, 110.0, Normal),
      Text(Plain(strings.Get(ItemLabel)), 40.0, 140.0, Bold),
      Text(Plain(strings.Get(QtyLabel)), 330.0, 140.0, Bold),
      Text(Plain(strings.Get(PriceLabel)), 380.0, 140.0, Bold),
      Text(Plain(strings.Get(TotalLabel)), 470.0, 140.0, Bold),
      Line(40.0, 152.0, 555.0, 152.0) ]
  }

  /** Separator and grand total below the last row, then the footer. */
  function TotalsOps(data: InvoiceData, strings: Strings): seq<DrawOp>
  {
    var n := |data.items|;
    [ Line(320.0, RowY(n) + 10.0, 555.0, RowY(n) + 10.0),
      Text(Caption(strings.Get(GrandTotalLabel)), 380.0, RowY(n) + 28.0, Bold),
      Text(Amount(data.grandTotal), 470.0, RowY(n) + 28.0, Bold),
      Text(Plain(data.footer), 40.0, 800.0, Normal) ]
  }

  /** The signature stamp when there is a signature, then its label in any case. */
  function SignatureOps(signature: Option<Bitmap>, strings: Strings): seq<DrawOp>
  {
    (if signature.Some? then [SignatureStamp] else [])
    + [Text(Plain(strings.Get(SignatureLabel)), 400.0, 820.0, Normal)]
  }

  /** The border of the classic template. */
  function BorderOps(template: Template): seq<DrawOp>
  {
    if template == Classic then [Border] else []
  }

  /** Everything after the item rows. */
  function TailOps(data: InvoiceData, signature: Option<Bitmap>, strings: Strings): seq<DrawOp>
  {
    TotalsOps(data, strings) + SignatureOps(signature, strings) + BorderOps(data.template)
  }

  /** Every canvas call of one page, in order: it opens with the white fill
      and the watermark and closes with the border or, without one, the
      signature label. */
  function PageOps(data: InvoiceData, signature: Option<Bitmap>, strings: Strings): (ops: seq<DrawOp>)
    ensures |ops| >= 15 && ops[0] == FillWhite && ops[1] == Watermark
    ensures ops[|ops| - 1] == if data.template == Classic then Border
                              else Text(Plain(strings.Get(SignatureLabel)), 400.0, 820.0, Normal)
  {
    var ops := HeadOps(data, strings) + Rows(data.items) + TailOps(data, signature, strings);
    assert ops[..10] == HeadOps(data, strings);
    ops
  }
}
