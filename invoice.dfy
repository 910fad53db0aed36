/**
 * The invoice record handed to the renderer (InvoiceItem, Template and
 * InvoiceData of the data package). The renderer only reads it.
 */
module Invoice {

  /** One line of the invoice. `total` is the line total as the data class
      reports it; the renderer prints it and never recomputes it. */
  datatype InvoiceItem = InvoiceItem(name: string, qty: int, price: int, total: int)

  /** The two visual styles; only CLASSIC draws a border. */
  datatype Template = Modern | Classic

  /** Everything the renderer reads from the invoice. `grandTotal` is the
      value the data class reports. */
  datatype InvoiceData = InvoiceData(
    invoiceNo: string,
    customer: string,
    items: seq<InvoiceItem>,
    footer: string,
    language: string,
    template: Template,
    grandTotal: int)
}
