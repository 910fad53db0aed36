/**
 * The page canvas as the renderer uses it: a recording canvas that keeps
 * every draw call, in order, instead of painting pixels. Paint styling is
 * reduced to what distinguishes the calls: a text weight, an image alpha
 * and a rectangle's stroke width.
 */
module Canvas {
  import opened Wrappers
  import opened Decimal

  datatype Weight = Normal | Bold

  /** The two rasters the page can carry. */
  datatype ImageKind = Logo | SignatureImage

  /** The text of a drawText call, kept in the shape of the string template that builds it. */
  datatype TextRun =
    | Plain(s: string)                        // a value or a label, as it is
    | Labelled(title: string, value: string)  // "$title: $value"
    | Caption(title: string)                  // "$title:"
    | Number(n: int)                          // n.toString()
    | Amount(n: int)                          // "₹$n"

  /** The characters a text run puts on the page; each kind of run can be
      taken apart again into what was interpolated. */
  function TextOf(run: TextRun): (r: string)
    ensures run.Plain? ==> r == run.s
    ensures run.Labelled? ==>
              var t := |run.title|;
              && |r| == t + 2 + |run.value|
              && r[..t] == run.title && r[t..t + 2] == ": " && r[t + 2..] == run.value
    ensures run.Caption? ==>
              && |r| == |run.title| + 1
              && r[..|run.title|] == run.title && r[|run.title|] == ':'
    ensures run.Number? ==> ParseInt(r) == Some(run.n)
    ensures run.Amount? ==> |r| > 1 && r[0] == Rupee && ParseInt(r[1..]) == Some(run.n)
  {
    match run
    case Plain(s) => s
    case Labelled(title, value) =>
      var r := title + ": " + value;
      assert r[..|title|] == title && r[|title|..|title| + 2] == ": " && r[|title| + 2..] == value;
      r
    case Caption(title) =>
      var r := title + ":";
      assert r[..|title|] == title;
      r
    case Number(n) => ParseIntToString(n); IntToString(n)
    case Amount(n) => Currency(n)
  }

  /** A printed quantity reads back as the quantity. */
  lemma NumberReadsBack(n: int)
    ensures ParseInt(TextOf(Number(n))) == Some(n)
  {
  }

  /** A printed amount is the rupee sign followed by text that reads back as the amount. */
  lemma AmountReadsBack(n: int)
    ensures |TextOf(Amount(n))| > 1 && TextOf(Amount(n))[0] == Rupee
    ensures ParseInt(TextOf(Amount(n))[1..]) == Some(n)
  {
  }

  /** One canvas call. Coordinates are page units, y growing downwards. */
  datatype DrawOp =
    | FillWhite
    | Image(kind: ImageKind, x: real, y: real, width: nat, height: nat, alpha: nat)
    | Text(run: TextRun, x: real, y: real, weight: Weight)
    | Line(x1: real, y1: real, x2: real, y2: real)
    | Rect(left: real, top: real, right: real, bottom: real, stroke: real)

  /** A finished page: its size and what was drawn on it. */
  datatype Page = Page(width: nat, height: nat, ops: seq<DrawOp>)

  /** The canvas of one page; each method appends the call it records. */
  class RecordingCanvas {
    const width: nat
    const height: nat
    var ops: seq<DrawOp>

    constructor (width: nat, height: nat)
      ensures this.width == width && this.height == height
      ensures ops == []
    {
      this.width := width;
      this.height := height;
      ops := [];
    }

    /** drawColor(Color.WHITE) */
    method DrawColorWhite()
      modifies this
      ensures ops == old(ops) + [FillWhite]
    {
      ops := ops + [FillWhite];
    }

    /** drawBitmap of an already scaled raster; alpha 255 is a null paint. */
    method DrawBitmap(kind: ImageKind, width: nat, height: nat, x: real, y: real, alpha: nat)
      modifies this
      ensures ops == old(ops) + [Image(kind, x, y, width, height, alpha)]
    {
      ops := ops + [Image(kind, x, y, width, height, alpha)];
    }

    method DrawText(run: TextRun, x: real, y: real, weight: Weight)
      modifies this
      ensures ops == old(ops) + [Text(run, x, y, weight)]
    {
      ops := ops + [Text(run, x, y, weight)];
    }

    method DrawLine(x1: real, y1: real, x2: real, y2: real)
      modifies this
      ensures ops == old(ops) + [Line(x1, y1, x2, y2)]
    {
      ops := ops + [Line(x1, y1, x2, y2)];
    }

    /** drawRect with a stroking paint of the given width. */
    method DrawRect(left: real, top: real, right: real, bottom: real, stroke: real)
      modifies this
      ensures ops == old(ops) + [Rect(left, top, right, bottom, stroke)]
    {
      ops := ops + [Rect(left, top, right, bottom, stroke)];
    }
  }
}
