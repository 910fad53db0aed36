/**
 * What the page layout promises: where every call lands, in which order,
 * how many calls there are, and exactly what the signature and template
 * switches add.
 */
module LayoutProperties {
  import opened Wrappers
  import opened Invoice
  import opened Canvas
  import opened Decimal
  import opened Layout

  /** Every item contributes exactly four calls. */
  lemma {:induction false} RowsLength(items: seq<InvoiceItem>)
    ensures |Rows(items)| == 4 * |items|
    decreases |items|
  {
    if |items| > 0 {
      RowsLength(items[..|items| - 1]);
    }
  }

  /** Call j of item i sits at position 4i + j of the rows, so rows keep input order. */
  lemma {:induction false} RowsAt(items: seq<InvoiceItem>, i: nat, j: nat)
    requires i < |items| && j < 4
    ensures |Rows(items)| == 4 * |items|
    ensures Rows(items)[4 * i + j] == RowOps(items[i], i)[j]
    decreases |items|
  {
    RowsLength(items);
    var m := |items| - 1;
    var prefix := items[..m];
    RowsLength(prefix);
    assert Rows(items) == Rows(prefix) + RowOps(items[m], m);
    if i < m {
      RowsAt(prefix, i, j);
      assert prefix[i] == items[i];
      assert Rows(items)[4 * i + j] == Rows(prefix)[4 * i + j];
    } else {
      assert Rows(items)[4 * i + j] == RowOps(items[m], m)[j];
    }
  }

  /** The rows hold only plain text, each above the cursor left after the last row. */
  lemma {:induction false} RowsAreText(items: seq<InvoiceItem>)
    ensures |Rows(items)| == 4 * |items|
    ensures forall k :: 0 <= k < |Rows(items)| ==>
              Rows(items)[k].Text? && Rows(items)[k].weight == Normal
              && 168.0 <= Rows(items)[k].y < RowY(|items|)
  {
    RowsLength(items);
    forall k | 0 <= k < |Rows(items)|
      ensures Rows(items)[k].Text? && Rows(items)[k].weight == Normal
              && 168.0 <= Rows(items)[k].y < RowY(|items|)
    {
      RowsAt(items, k / 4, k % 4);
    }
  }

  /** Where each part of the page starts. */
  lemma PageOpsLayout(data: InvoiceData, signature: Option<Bitmap>, strings: Strings)
    ensures var ops := PageOps(data, signature, strings);
            var n := |data.items|;
            && |HeadOps(data, strings)| == 10
            && |Rows(data.items)| == 4 * n
            && |ops| == 10 + 4 * n + |TailOps(data, signature, strings)|
            && ops[..10] == HeadOps(data, strings)
            && ops[10..10 + 4 * n] == Rows(data.items)
            && ops[10 + 4 * n..] == TailOps(data, signature, strings)
  {
    RowsLength(data.items);
  }

  /** 15 fixed calls, four per item, one for a signature and one for the classic border. */
  lemma PageOpsCount(data: InvoiceData, signature: Option<Bitmap>, strings: Strings)
    ensures |PageOps(data, signature, strings)| ==
              15 + 4 * |data.items|
              + (if signature.Some? then 1 else 0)
              + (if data.template == Classic then 1 else 0)
  {
    RowsLength(data.items);
  }

  /** The page is first filled white; the watermark comes next and only there. */
  lemma BackgroundThenWatermark(data: InvoiceData, signature: Option<Bitmap>, strings: Strings)
    ensures var ops := PageOps(data, signature, strings);
            && |ops| > 2
            && ops[0] == FillWhite
            && ops[1] == Image(Logo, 167.5, 291.0, 260, 260, 35)
            && forall k :: 2 <= k < |ops| ==> !ops[k].FillWhite? && !(ops[k].Image? && ops[k].kind == Logo)
  {
    var ops := PageOps(data, signature, strings);
    var n := |data.items|;
    PageOpsLayout(data, signature, strings);
    RowsAreText(data.items);
    forall k | 2 <= k < |ops|
      ensures !ops[k].FillWhite? && !(ops[k].Image? && ops[k].kind == Logo)
    {
      if 10 <= k < 10 + 4 * n {
        assert ops[k] == Rows(data.items)[k - 10];
      } else if k >= 10 + 4 * n {
        assert ops[k] == TailOps(data, signature, strings)[k - 10 - 4 * n];
      } else {
        assert ops[k] == HeadOps(data, strings)[k];
      }
    }
  }

  /** The business name follows the invoice language, falling back to English, at (40, 60). */
  lemma BusinessNameHeader(data: InvoiceData, signature: Option<Bitmap>, strings: Strings)
    ensures var ops := PageOps(data, signature, strings);
            && |ops| > 2
            && ops[2].Text? && ops[2].x == 40.0 && ops[2].y == 60.0 && ops[2].weight == Bold
            && (data.language == "kn" ==> ops[2].run == Plain(strings.Get(BusinessNameKn)))
            && (data.language == "mr" ==> ops[2].run == Plain(strings.Get(BusinessNameMr)))
            && (data.language != "kn" && data.language != "mr" ==> ops[2].run == Plain(strings.Get(BusinessNameEn)))
  {
  }

  /** BusinessNameId picks English exactly when the code is neither "kn" nor "mr". */
  lemma BusinessNameFallback(language: string)
    ensures BusinessNameId(language) == BusinessNameKn <==> language == "kn"
    ensures BusinessNameId(language) == BusinessNameMr <==> language == "mr"
    ensures BusinessNameId(language) == BusinessNameEn <==> language != "kn" && language != "mr"
  {
  }

  /** "label: value" lines for the invoice number and the customer. */
  lemma MetaLines(data: InvoiceData, signature: Option<Bitmap>, strings: Strings)
    ensures var ops := PageOps(data, signature, strings);
            && |ops| > 4
            && ops[3] == Text(Labelled(strings.Get(InvoiceNoLabel), data.invoiceNo), 40.0, 90.0, Normal)
            && ops[4] == Text(Labelled(strings.Get(BillTo), data.customer), 40.0, 110.0, Normal)
  {
  }

  /** Column labels at y = 140, then the full-width separator at y = 152. */
  lemma TableHeader(data: InvoiceData, signature: Option<Bitmap>, strings: Strings)
    ensures var ops := PageOps(data, signature, strings);
            && |ops| > 10
            && ops[5..10] == [ Text(Plain(strings.Get(ItemLabel)), 40.0, 140.0, Bold),
                               Text(Plain(strings.Get(QtyLabel)), 330.0, 140.0, Bold),
                               Text(Plain(strings.Get(PriceLabel)), 380.0, 140.0, Bold),
                               Text(Plain(strings.Get(TotalLabel)), 470.0, 140.0, Bold),
                               Line(40.0, 152.0, 555.0, 152.0) ]
  {
    PageOpsLayout(data, signature, strings);
  }

  /** Item i, whatever its quantity, draws its four cells at y = 168 + 18 i. */
  lemma ItemRowPlacement(data: InvoiceData, signature: Option<Bitmap>, strings: Strings, i: nat)
    requires i < |data.items|
    ensures var ops := PageOps(data, signature, strings);
            var it := data.items[i];
            var y := 168.0 + 18.0 * i as real;
            && |ops| > 13 + 4 * i
            && ops[10 + 4 * i] == Text(Plain(it.name), 40.0, y, Normal)
            && ops[11 + 4 * i] == Text(Number(it.qty), 340.0, y, Normal)
            && ops[12 + 4 * i] == Text(Amount(it.price), 380.0, y, Normal)
            && ops[13 + 4 * i] == Text(Amount(it.total), 470.0, y, Normal)
  {
    var ops := PageOps(data, signature, strings);
    PageOpsLayout(data, signature, strings);
    forall j | 0 <= j < 4
      ensures ops[10 + 4 * i + j] == RowOps(data.items[i], i)[j]
    {
      RowsAt(data.items, i, j);
      assert ops[10 + 4 * i + j] == Rows(data.items)[4 * i + j];
    }
    assert ops[10 + 4 * i + 0] == RowOps(data.items[i], i)[0];
    assert ops[10 + 4 * i + 1] == RowOps(data.items[i], i)[1];
    assert ops[10 + 4 * i + 2] == RowOps(data.items[i], i)[2];
    assert ops[10 + 4 * i + 3] == RowOps(data.items[i], i)[3];
  }

  /** The item names appear on the page in input order, each row lower than the one before. */
  lemma ItemsInInputOrder(data: InvoiceData, signature: Option<Bitmap>, strings: Strings, i: nat, j: nat)
    requires i < j < |data.items|
    ensures var ops := PageOps(data, signature, strings);
            && |ops| > 10 + 4 * j
            && ops[10 + 4 * i].Text? && ops[10 + 4 * j].Text?
            && ops[10 + 4 * i].run == Plain(data.items[i].name)
            && ops[10 + 4 * j].run == Plain(data.items[j].name)
            && ops[10 + 4 * i].y < ops[10 + 4 * j].y
  {
    ItemRowPlacement(data, signature, strings, i);
    ItemRowPlacement(data, signature, strings, j);
  }

  /** Separator and bold grand total follow the rows, strictly below every one of them. */
  lemma TotalsBelowRows(data: InvoiceData, signature: Option<Bitmap>, strings: Strings)
    ensures var ops := PageOps(data, signature, strings);
            var n := |data.items|;
            && |ops| > 12 + 4 * n
            && ops[10 + 4 * n] == Line(320.0, 178.0 + 18.0 * n as real, 555.0, 178.0 + 18.0 * n as real)
            && ops[11 + 4 * n] == Text(Caption(strings.Get(GrandTotalLabel)), 380.0, 196.0 + 18.0 * n as real, Bold)
            && ops[12 + 4 * n] == Text(Amount(data.grandTotal), 470.0, 196.0 + 18.0 * n as real, Bold)
            && forall k :: 10 <= k < 10 + 4 * n ==>
                 ops[k].Text? && ops[k].y < ops[10 + 4 * n].y1 < ops[11 + 4 * n].y
  {
    var ops := PageOps(data, signature, strings);
    var n := |data.items|;
    PageOpsLayout(data, signature, strings);
    RowsAreText(data.items);
    var tail := TailOps(data, signature, strings);
    assert ops[10 + 4 * n] == tail[0];
    assert ops[11 + 4 * n] == tail[1];
    assert ops[12 + 4 * n] == tail[2];
    forall k | 10 <= k < 10 + 4 * n
      ensures ops[k].Text? && ops[k].y < ops[10 + 4 * n].y1
    {
      assert ops[k] == Rows(data.items)[k - 10];
    }
  }

  /** Footer at (40, 800) and signature label at (400, 820), for any number of rows, with or without a signature. */
  lemma FooterAndSignatureLabel(data: InvoiceData, signature: Option<Bitmap>, strings: Strings)
    ensures var ops := PageOps(data, signature, strings);
            var n := |data.items|;
            var s := if signature.Some? then 1 else 0;
            && |ops| > 14 + 4 * n + s
            && ops[13 + 4 * n] == Text(Plain(data.footer), 40.0, 800.0, Normal)
            && ops[14 + 4 * n + s] == Text(Plain(strings.Get(SignatureLabel)), 400.0, 820.0, Normal)
  {
    var ops := PageOps(data, signature, strings);
    var n := |data.items|;
    var s := if signature.Some? then 1 else 0;
    PageOpsLayout(data, signature, strings);
    var tail := TailOps(data, signature, strings);
    assert ops[13 + 4 * n] == tail[3];
    assert ops[14 + 4 * n + s] == tail[4 + s];
  }

  /** Rows are never clamped: from the 37th item on they reach past the footer line. */
  lemma RowsNotClamped(data: InvoiceData, signature: Option<Bitmap>, strings: Strings)
    requires |data.items| > 36
    ensures var ops := PageOps(data, signature, strings);
            && |ops| > 154 && |ops| > 13 + 4 * |data.items|
            && ops[154] == Text(Plain(data.items[36].name), 40.0, 816.0, Normal)
            && ops[13 + 4 * |data.items|].Text?
            && ops[154].y > ops[13 + 4 * |data.items|].y
  {
    ItemRowPlacement(data, signature, strings, 36);
    FooterAndSignatureLabel(data, signature, strings);
  }

  /** A signature adds exactly one call, the stamp, between the footer and the signature label. */
  lemma SignatureSwitch(data: InvoiceData, b: Bitmap, strings: Strings)
    ensures var without := PageOps(data, None, strings);
            var k := 14 + 4 * |data.items|;
            && k <= |without|
            && PageOps(data, Some(b), strings) == without[..k] + [SignatureStamp] + without[k..]
  {
    var n := |data.items|;
    var without := PageOps(data, None, strings);
    var with := PageOps(data, Some(b), strings);
    PageOpsLayout(data, None, strings);
    PageOpsLayout(data, Some(b), strings);
    var tw := TailOps(data, None, strings);
    var tb := TailOps(data, Some(b), strings);
    assert tb == tw[..4] + [SignatureStamp] + tw[4..];
    calc {
      with;
      HeadOps(data, strings) + Rows(data.items) + tb;
      (HeadOps(data, strings) + Rows(data.items) + tw[..4]) + [SignatureStamp] + tw[4..];
      { assert without[..14 + 4 * n] == HeadOps(data, strings) + Rows(data.items) + tw[..4];
        assert without[14 + 4 * n..] == tw[4..]; }
      without[..14 + 4 * n] + [SignatureStamp] + without[14 + 4 * n..];
    }
  }

  /** The classic template adds exactly one call, the border, after everything else. */
  lemma TemplateSwitch(data: InvoiceData, signature: Option<Bitmap>, strings: Strings)
    ensures PageOps(data.(template := Classic), signature, strings)
            == PageOps(data.(template := Modern), signature, strings) + [Border]
  {
  }

  /** No call outside the tail is an image of the signature or a rectangle. */
  lemma OnlyTailHasStampOrBorder(data: InvoiceData, signature: Option<Bitmap>, strings: Strings)
    ensures var ops := PageOps(data, signature, strings);
            (SignatureStamp in ops <==> SignatureStamp in TailOps(data, signature, strings))
            && (Border in ops <==> Border in TailOps(data, signature, strings))
  {
    var ops := PageOps(data, signature, strings);
    var head := HeadOps(data, strings);
    var rows := Rows(data.items);
    var tail := TailOps(data, signature, strings);
    RowsAreText(data.items);
    assert SignatureStamp !in head && Border !in head;
    assert SignatureStamp !in rows && Border !in rows;
    assert ops == head + rows + tail;
  }

  /** The signature stamp is on the page exactly when a signature is supplied. */
  lemma SignatureStampIffSupplied(data: InvoiceData, signature: Option<Bitmap>, strings: Strings)
    ensures SignatureStamp in PageOps(data, signature, strings) <==> signature.Some?
  {
    OnlyTailHasStampOrBorder(data, signature, strings);
    var tail := TailOps(data, signature, strings);
    if signature.None? {
      assert forall k :: 0 <= k < |tail| ==> tail[k] != SignatureStamp;
    }
  }

  /** The border is on the page exactly when the template is CLASSIC. */
  lemma BorderIffClassic(data: InvoiceData, signature: Option<Bitmap>, strings: Strings)
    ensures Border in PageOps(data, signature, strings) <==> data.template == Classic
  {
    OnlyTailHasStampOrBorder(data, signature, strings);
    var tail := TailOps(data, signature, strings);
    if data.template == Classic {
      assert tail[|tail| - 1] == Border;
    }
  }

  /** The sample invoice of three one-off services prints its grand total as "₹10000". */
  lemma SampleInvoiceGrandTotal(invoiceNo: string, customer: string, footer: string,
                                language: string, template: Template,
                                signature: Option<Bitmap>, strings: Strings)
    ensures var data := InvoiceData(invoiceNo, customer,
                          [ InvoiceItem("Stage Decoration", 1, 5000, 5000),
                            InvoiceItem("Sound System Setup", 1, 3000, 3000),
                            InvoiceItem("Lighting Arrangement", 1, 2000, 2000) ],
                          footer, language, template, 10000);
            var ops := PageOps(data, signature, strings);
            && |ops| > 24
            && ops[24] == Text(Amount(10000), 470.0, 250.0, Bold)
            && TextOf(ops[24].run) == [Rupee] + "10000"
  {
    var data := InvoiceData(invoiceNo, customer,
                  [ InvoiceItem("Stage Decoration", 1, 5000, 5000),
                    InvoiceItem("Sound System Setup", 1, 3000, 3000),
                    InvoiceItem("Lighting Arrangement", 1, 2000, 2000) ],
                  footer, language, template, 10000);
    TotalsBelowRows(data, signature, strings);
    assert NatToString(1) == "1";
    assert NatToString(10) == "10";
    assert NatToString(100) == "100";
    assert NatToString(1000) == "1000";
    assert NatToString(10000) == "10000";
  }
}
