/** The printable document: a pure projection of a quote into a fixed sequence
    of blocks. Amounts stay in cents; the `R$` prefix with two decimals and the
    locale date format are presentation applied to these values. */
module QuotePdf {
  import opened Quotes

  const Brand := "EKIPHELP"
  const ReceiptTitle := "RECIBO DE PAGAMENTO"
  const EstimateTitle := "ORÇAMENTO"
  const Thanks := "Agradecemos a preferência!"
  const Signature := "EKIPHELP - Serviços Profissionais"

  /** One table row: description, quantity, unit price and line total. */
  datatype Row = Row(description: string, quantity: int, price: Cents, lineTotal: Cents)

  datatype Block =
    | Header(brand: string, title: string)
    | ClientBlock(name: string, phone: string)
    | DateBlock(date: string)
    | CompanyBlock(name: string, phone: string, address: string, cnpj: string)
    | ItemsTable(rows: seq<Row>)
    | TotalLine(amount: Cents)
    | NotesBlock(text: string)
    | Footer(thanks: string, signature: string)

  datatype Document = Document(blocks: seq<Block>)

  /** The title line: the receipt title exactly for a receipt, the estimate
      title otherwise, including when no document type is set. */
  function DocumentTitle(documentType: Option<DocumentType>): (title: string)
    ensures title == ReceiptTitle <==> documentType == Some(Recibo)
    ensures title == ReceiptTitle || title == EstimateTitle
  {
    assert ReceiptTitle[0] != EstimateTitle[0];
    if documentType == Some(Recibo) then ReceiptTitle else EstimateTitle
  }

  /** One `<tr>` of the items table. */
  function RowOf(item: QuoteItem): (row: Row)
  {
    Row(item.description, item.quantity, item.price, LineTotal(item))
  }

  /** `items.map(...)`: one row per item, in item order. */
  function Rows(items: seq<QuoteItem>): (rows: seq<Row>)
    ensures |rows| == |items|
    ensures forall k :: 0 <= k < |items| ==>
      rows[k].description == items[k].description &&
      rows[k].quantity == items[k].quantity &&
      rows[k].price == items[k].price &&
      rows[k].lineTotal == items[k].quantity * items[k].price
  {
    if items == [] then [] else [RowOf(items[0])] + Rows(items[1..])
  }

  /** Block kinds in layout order: title, client, date, company, table, total,
      then the notes block if there is one, then the footer. */
  predicate InLayoutOrder(blocks: seq<Block>)
  {
    (|blocks| == 7 || |blocks| == 8) &&
    blocks[0].Header? && blocks[1].ClientBlock? && blocks[2].DateBlock? &&
    blocks[3].CompanyBlock? && blocks[4].ItemsTable? && blocks[5].TotalLine? &&
    (|blocks| == 8 ==> blocks[6].NotesBlock?) &&
    blocks[|blocks| - 1].Footer?
  }

  /** The `QuotePDF` component. */
  function Render(quote: QuoteData): (doc: Document)
    ensures InLayoutOrder(doc.blocks)
    ensures doc.blocks[0] == Header(Brand, DocumentTitle(quote.documentType))
    ensures doc.blocks[1] == ClientBlock(quote.clientName, quote.clientPhone)
    ensures doc.blocks[2] == DateBlock(quote.date)
    ensures doc.blocks[3] == CompanyBlock(quote.companyData.name, quote.companyData.phone,
                                          quote.companyData.address, quote.companyData.cnpj)
    ensures doc.blocks[4] == ItemsTable(Rows(quote.items))
    ensures doc.blocks[5] == TotalLine(quote.total)
    ensures (exists k :: 0 <= k < |doc.blocks| && doc.blocks[k].NotesBlock?) <==> quote.notes != ""
    ensures forall k :: 0 <= k < |doc.blocks| && doc.blocks[k].NotesBlock? ==>
      doc.blocks[k].text == quote.notes
    ensures doc.blocks[|doc.blocks| - 1] == Footer(Thanks, Signature)
  {
    var c := quote.companyData;
    var fixedPart := [
      Header(Brand, DocumentTitle(quote.documentType)),
      ClientBlock(quote.clientName, quote.clientPhone),
      DateBlock(quote.date),
      CompanyBlock(c.name, c.phone, c.address, c.cnpj),
      ItemsTable(Rows(quote.items)),
      TotalLine(quote.total)
    ];
    var notes := if quote.notes != "" then [NotesBlock(quote.notes)] else [];
    var doc := Document(fixedPart + notes + [Footer(Thanks, Signature)]);
    assert quote.notes != "" ==> doc.blocks[6].NotesBlock?;
    doc
  }

  /** Switching the document type changes the title and nothing else. */
  lemma KindOnlyChangesTitle(quote: QuoteData, documentType: Option<DocumentType>)
    ensures Render(quote.(documentType := documentType)).blocks[1..] == Render(quote).blocks[1..]
    ensures Render(quote.(documentType := documentType)).blocks[0]
         == Render(quote).blocks[0].(title := DocumentTitle(documentType))
  {
  }
}
