/** The page controller: which quote is current, whether it is being edited,
    and which document type is selected; the screen those three choose; and the
    export request with its file name. */
module IndexPage {
  import opened Quotes
  import QuoteForm
  import QuotePdf

  /** What the page shows: the editor (empty or seeded), or the rendered
      document with its controls. */
  datatype Screen = Editor(initialData: Option<QuoteForm.InitialData>) | Review(quote: QuoteData)

  /** What the export collaborator is asked to do: rasterize `document` into
      the file `filename`. */
  datatype ExportRequest = ExportRequest(document: QuotePdf.Document, filename: string)

  /** `.replace(/\//g, '-')`. */
  function ReplaceSlashes(s: string): (r: string)
    ensures |r| == |s|
    ensures forall k :: 0 <= k < |s| ==> r[k] == (if s[k] == '/' then '-' else s[k])
    ensures '/' !in r
  {
    if s == [] then [] else [if s[0] == '/' then '-' else s[0]] + ReplaceSlashes(s[1..])
  }

  /** The document type's word in the file name: "Recibo" exactly for a
      receipt, "Orcamento" for an estimate. */
  function FilePrefix(documentType: DocumentType): (prefix: string)
    ensures prefix == "Recibo" <==> documentType == Recibo
    ensures documentType == Orcamento ==> prefix == "Orcamento"
    ensures |prefix| >= 6 && '/' !in prefix
  {
    if documentType == Recibo then "Recibo" else "Orcamento"
  }

  /** The export file name for the selected document type and the date string
      `today` (the clock's current date, in the page's locale). */
  function FileName(documentType: DocumentType, today: string): (name: string)
    ensures '/' !in name
    ensures |name| == 14 + |FilePrefix(documentType)| + |today|
    ensures name[..9] == "EKIPHELP_" && name[|name| - 4..] == ".pdf"
    ensures name[9..16] == "Recibo_" <==> documentType == Recibo
    ensures name[9..9 + |FilePrefix(documentType)|] == FilePrefix(documentType)
    ensures name[9 + |FilePrefix(documentType)|] == '_'
    ensures name[10 + |FilePrefix(documentType)|..|name| - 4] == ReplaceSlashes(today)
  {
    var prefix, body := FilePrefix(documentType), ReplaceSlashes(today);
    var tail := "_" + body + ".pdf";
    FileNameShape(prefix, body);
    PrefixMarksReceipt(documentType, ("EKIPHELP_" + prefix + tail)[9..16], prefix, tail);
    "EKIPHELP_" + prefix + tail
  }

  /** The parts of a file name built from any prefix and date without slashes. */
  lemma FileNameShape(prefix: string, body: string)
    requires '/' !in prefix && '/' !in body
    ensures var tail := "_" + body + ".pdf";
      var name := "EKIPHELP_" + prefix + tail;
      '/' !in name && |name| == 14 + |prefix| + |body| &&
      name[..9] == "EKIPHELP_" && name[|name| - 4..] == ".pdf" &&
      name[9..] == prefix + tail && name[9..9 + |prefix|] == prefix &&
      name[9 + |prefix|] == '_' &&
      name[10 + |prefix|..|name| - 4] == body
  {
    var tail := "_" + body + ".pdf";
    var name := "EKIPHELP_" + prefix + tail;
    assert name[9..] == prefix + tail;
    assert name[9 + |prefix|..] == tail;
    assert tail[1..|tail| - 4] == body;
    assert '/' !in "EKIPHELP_" && '/' !in tail;
  }

  /** The seven characters after "EKIPHELP_" spell "Recibo_" exactly for a receipt. */
  lemma PrefixMarksReceipt(documentType: DocumentType, window: string, prefix: string, tail: string)
    requires prefix == FilePrefix(documentType) && |tail| >= 1 && tail[0] == '_'
    requires window == (prefix + tail)[..7]
    ensures window == "Recibo_" <==> documentType == Recibo
  {
    if documentType == Recibo {
      assert window == prefix + [tail[0]];
    } else {
      assert window[0] == 'O';
    }
  }

  /** The sum of the line totals a document's table shows. */
  function RowsTotal(rows: seq<QuotePdf.Row>): (total: Cents)
  {
    if rows == [] then 0 else rows[0].lineTotal + RowsTotal(rows[1..])
  }

  lemma {:induction false} RowsTotalIsSum(items: seq<QuoteItem>)
    ensures RowsTotal(QuotePdf.Rows(items)) == QuoteForm.SumOfLines(items)
    decreases |items|
  {
    if items != [] {
      var rows := QuotePdf.Rows(items);
      assert rows[1..] == QuotePdf.Rows(items[1..]);
      RowsTotalIsSum(items[1..]);
    }
  }

  /** The document shows the stored total; for a quote sealed by the editor that
      total is the sum of the line totals in its table. */
  lemma SealedTotalMatchesRows(quote: QuoteData)
    requires quote.total == QuoteForm.CalculateTotal(quote.items)
    ensures QuotePdf.Render(quote).blocks[5]
         == QuotePdf.TotalLine(RowsTotal(QuotePdf.Render(quote).blocks[4].rows))
  {
    RowsTotalIsSum(quote.items);
  }

  /** Two items, 2 x 50.00 and 1 x 30.00: a total of 130.00 over two rows with
      line totals 100.00 and 30.00. */
  lemma TwoItemScenario(client: string, phone: string, date: string, company: CompanyData)
    ensures var items := [QuoteItem("Cable repair", 2, 5000), QuoteItem("Service fee", 1, 3000)];
      var quote := QuoteData(client, phone, items, "", QuoteForm.CalculateTotal(items), date, company, None);
      var doc := QuotePdf.Render(quote);
      quote.total == 13000 && |doc.blocks| == 7 &&
      doc.blocks[4].rows[0].lineTotal == 10000 && doc.blocks[4].rows[1].lineTotal == 3000 &&
      doc.blocks[5] == QuotePdf.TotalLine(13000)
  {
    var items := [QuoteItem("Cable repair", 2, 5000), QuoteItem("Service fee", 1, 3000)];
    assert items[1..][1..] == [];
  }

  /** A quote carrying the selected type renders with the receipt title exactly
      when its export file is named as a receipt. */
  lemma TitleAgreesWithFileName(quote: QuoteData, documentType: DocumentType, today: string)
    requires quote.documentType == Some(documentType)
    ensures QuotePdf.Render(quote).blocks[0].title == QuotePdf.ReceiptTitle
        <==> FileName(documentType, today)[9..16] == "Recibo_"
  {
  }

  /** The `Index` page. */
  class Index {
    var currentQuote: Option<QuoteData>
    var isEditing: bool
    var documentType: DocumentType

    /** Editing happens only on an existing quote, and the current quote always
        carries the selected document type. */
    ghost predicate Valid()
      reads this
    {
      (isEditing ==> currentQuote.Some?) &&
      (currentQuote.Some? ==> currentQuote.value.documentType == Some(documentType))
    }

    /** The screen: the seeded editor while editing, the empty editor when there
        is no quote, and the document otherwise. */
    function CurrentScreen(): (s: Screen)
      reads this
      ensures s.Review? <==> !isEditing && currentQuote.Some?
      ensures s.Review? ==> s.quote == currentQuote.value
      ensures isEditing && currentQuote.Some? ==> s == Editor(Some(QuoteForm.SeedFrom(currentQuote.value)))
      ensures currentQuote.None? ==> s == Editor(None)
    {
      if isEditing then
        Editor(if currentQuote.Some? then Some(QuoteForm.SeedFrom(currentQuote.value)) else None)
      else if currentQuote.None? then Editor(None)
      else Review(currentQuote.value)
    }

    constructor ()
      ensures Valid()
      ensures currentQuote == None && !isEditing && documentType == Orcamento
      ensures CurrentScreen() == Editor(None)
    {
      currentQuote, isEditing, documentType := None, false, Orcamento;
    }

    /** `handleQuoteGenerated`: the callback the editor calls after a
        successful append. */
    method HandleQuoteGenerated(quote: QuoteData)
      requires Valid()
      modifies this
      ensures Valid()
      ensures currentQuote == Some(quote.(documentType := Some(old(documentType))))
      ensures !isEditing && documentType == old(documentType)
      ensures CurrentScreen() == Review(quote.(documentType := Some(documentType)))
    {
      currentQuote := Some(quote.(documentType := Some(documentType)));
      isEditing := false;
    }

    /** The document-type radio group, shown with the document. */
    method ChangeDocumentType(value: DocumentType)
      requires Valid() && CurrentScreen().Review?
      modifies this
      ensures Valid()
      ensures documentType == value && isEditing == old(isEditing)
      ensures currentQuote == Some(old(currentQuote).value.(documentType := Some(value)))
      ensures QuotePdf.Render(currentQuote.value).blocks[1..]
           == QuotePdf.Render(old(currentQuote).value).blocks[1..]
    {
      QuotePdf.KindOnlyChangesTitle(currentQuote.value, Some(value));
      documentType := value;
      currentQuote := Some(currentQuote.value.(documentType := Some(value)));
    }

    /** The "edit" button: the editor is shown seeded from the current quote. */
    method Edit()
      requires Valid() && CurrentScreen().Review?
      modifies this
      ensures Valid()
      ensures isEditing && currentQuote == old(currentQuote) && documentType == old(documentType)
      ensures CurrentScreen() == Editor(Some(QuoteForm.SeedFrom(currentQuote.value)))
    {
      isEditing := true;
    }

    /** The "new quote" button: the quote is dropped, the document type kept. */
    method NewQuote()
      requires Valid() && CurrentScreen().Review?
      modifies this
      ensures Valid()
      ensures currentQuote == None && isEditing == old(isEditing) && documentType == old(documentType)
      ensures CurrentScreen() == Editor(None)
    {
      currentQuote := None;
    }

    /** `downloadPDF`: when the document is mounted, the exporter is asked to
        rasterize it under the file name built from the selected type and the
        clock's date `today`; otherwise nothing happens. No state changes either
        way, whatever the exporter then reports. */
    method DownloadPdf(today: string) returns (request: Option<ExportRequest>)
      requires Valid()
      ensures request.Some? <==> CurrentScreen().Review?
      ensures request.Some? ==>
        request.value.document == QuotePdf.Render(currentQuote.value) &&
        request.value.filename == FileName(documentType, today)
      ensures request.Some? ==>
        (request.value.document.blocks[0].title == QuotePdf.ReceiptTitle
         <==> request.value.filename[9..16] == "Recibo_")
    {
      if !isEditing && currentQuote.Some? {
        TitleAgreesWithFileName(currentQuote.value, documentType, today);
        request := Some(ExportRequest(QuotePdf.Render(currentQuote.value), FileName(documentType, today)));
      } else {
        request := None;
      }
    }
  }
}
