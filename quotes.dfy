/** Shapes shared by the quote editor, the printable document and the page
    controller: a line item, the issuing company and the sealed quote record.
    Both components declare the item and company shapes; they are modelled once
    here. Money is whole cents (an `int`), never a floating-point number. */
module Quotes {

  datatype Option<+T> = None | Some(value: T)

  /** An amount of money in cents. */
  type Cents = int

  /** One billable row: what was done, how many times, and the unit price. */
  datatype QuoteItem = QuoteItem(description: string, quantity: int, price: Cents)

  /** The issuing company, embedded by value in every quote. */
  datatype CompanyData = CompanyData(name: string, phone: string, address: string, cnpj: string)

  /** Which title the document carries: an estimate or a payment receipt. */
  datatype DocumentType = Orcamento | Recibo

  /** A sealed quote as submitted by the editor. `documentType` is absent on the
      record the editor builds and is filled in by the page controller. */
  datatype QuoteData = QuoteData(
    clientName: string,
    clientPhone: string,
    items: seq<QuoteItem>,
    notes: string,
    total: Cents,
    date: string,
    companyData: CompanyData,
    documentType: Option<DocumentType>)

  /** The amount one item contributes: quantity times unit price, not rounded. */
  function LineTotal(item: QuoteItem): Cents
  {
    item.quantity * item.price
  }
}
