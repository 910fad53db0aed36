/**
 * PdfGenerator.generate: the draw calls it makes on its single page, from
 * the white fill to the classic border. Page lifecycle, bitmap decoding and
 * the file written afterwards are not part of this model.
 */
module PdfGenerator {
  import opened Wrappers
  import opened Invoice
  import opened Canvas
  import opened Decimal
  import opened Layout
  import LayoutProperties

  /** Draws the invoice on a fresh 595 x 842 page and returns that page. */
  method Generate(data: InvoiceData, signature: Option<Bitmap>, strings: Strings) returns (page: Page)
    ensures page == Page(PageWidth, PageHeight, PageOps(data, signature, strings))
    ensures |page.ops| == 15 + 4 * |data.items|
                         + (if signature.Some? then 1 else 0)
                         + (if data.template == Classic then 1 else 0)
  {
    var c := new RecordingCanvas(595, 842);
    var y := DrawHeading(c, data, strings);

    assert data.items[..0] == [];
    for i := 0 to |data.items|
      invariant y == RowY(i)
      invariant c.ops == HeadOps(data, strings) + Rows(data.items[..i])
    {
      var it := data.items[i];
      c.DrawText(Plain(it.name), 40.0, y, Normal);
      c.DrawText(Number(it.qty), 340.0, y, Normal);
      c.DrawText(Amount(it.price), 380.0, y, Normal);
      c.DrawText(Amount(it.total), 470.0, y, Normal);
      y := y + 18.0;
      assert data.items[..i + 1][..i] == data.items[..i];
    }
    assert data.items[..|data.items|] == data.items;

    DrawClosing(c, data, signature, strings, y);

    page := Page(c.width, c.height, c.ops);
    LayoutProperties.PageOpsCount(data, signature, strings);
  }

  /** Background, watermark, business name, meta lines and table header;
      returns the cursor at the first item row. */
  method DrawHeading(c: RecordingCanvas, data: InvoiceData, strings: Strings) returns (y: real)
    modifies c
    ensures c.ops == old(c.ops) + HeadOps(data, strings)
    ensures y == RowY(0)
  {
    c.DrawColorWhite();
    c.DrawBitmap(Logo, 260, 260, (595 - 260) as real / 2.0, (842 - 260) as real / 2.0, 35);

    var businessEn := strings.Get(BusinessNameEn);
    var businessKn := strings.Get(BusinessNameKn);
    var businessMr := strings.Get(BusinessNameMr);
    var biz := if data.language == "kn" then businessKn
               else if data.language == "mr" then businessMr
               else businessEn;
    c.DrawText(Plain(biz), 40.0, 60.0, Bold);

    var tInvoiceNo := strings.Get(InvoiceNoLabel);
    var tBillTo := strings.Get(BillTo);
    var tItem := strings.Get(ItemLabel);
    var tQty := strings.Get(QtyLabel);
    var tPrice := strings.Get(PriceLabel);
    var tTotal := strings.Get(TotalLabel);

    c.DrawText(Labelled(tInvoiceNo, data.invoiceNo), 40.0, 90.0, Normal);
    c.DrawText(Labelled(tBillTo, data.customer), 40.0, 110.0, Normal);

    y := 140.0;
    c.DrawText(Plain(tItem), 40.0, y, Bold);
    c.DrawText(Plain(tQty), 330.0, y, Bold);
    c.DrawText(Plain(tPrice), 380.0, y, Bold);
    c.DrawText(Plain(tTotal), 470.0, y, Bold);
    y := y + 12.0;
    c.DrawLine(40.0, y, 555.0, y);
    y := y + 16.0;
  }

  /** Separator, grand total, footer, optional signature, its label and the
      classic border, starting from the cursor left below the last row. */
  method DrawClosing(c: RecordingCanvas, data: InvoiceData, signature: Option<Bitmap>,
                     strings: Strings, y0: real)
    requires y0 == RowY(|data.items|)
    modifies c
    ensures c.ops == old(c.ops) + TailOps(data, signature, strings)
  {
    var tGrand := strings.Get(GrandTotalLabel);
    var y := y0 + 10.0;
    c.DrawLine(320.0, y, 555.0, y);
    y := y + 18.0;
    c.DrawText(Caption(tGrand), 380.0, y, Bold);
    c.DrawText(Amount(data.grandTotal), 470.0, y, Bold);

    c.DrawText(Plain(data.footer), 40.0, 800.0, Normal);

    if signature.Some? {
      c.DrawBitmap(SignatureImage, 140, 40, 400.0, 760.0, 255);
    }
    c.DrawText(Plain(strings.Get(SignatureLabel)), 400.0, 820.0, Normal);

    if data.template == Classic {
      c.DrawRect(20.0, 20.0, 575.0, 822.0, 3.0);
    }
  }
}
