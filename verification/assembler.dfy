/** `PdfYeah`: the document assembler. It owns one renderer document and adds a title, text blocks
    and pages to it in the order the caller asks, then writes it out. */
module Assembler {
  import opened Results
  import opened PyValues
  import opened Renderer

  /** What `add_text_to_page` accepts: anything but a list or a tuple. */
  predicate Drawable(v: PyValue) {
    !(v.List? || v.Tuple?)
  }

  /** The `type` and `size` entries of the optional font dict. */
  datatype FontSpec = FontSpec(family: string, size: int)

  /** What one `add_text_to_page` draws: the wrapped text, a line break, an empty full-width cell
      and another line break, all in font `f`. */
  function TextBlocks(text: string, f: Font): (r: seq<Block>)
    ensures |r| == 4 && r[0] == Text(text, f) && r[|r| - 1] == LineBreak
    ensures forall k :: 0 <= k < |r| && r[k].Text? ==> r[k].font == f
    ensures forall k :: 1 <= k < |r| && r[k].Text? ==> r[k].text == ""
  {
    [Text(text, f), LineBreak, Text("", f), LineBreak]
  }

  /** The pages after one `add_text_to_page` of `text` on `pages`, with `overflow` pages started
      by the renderer while wrapping it: exactly `overflow` pages more, and the document's blocks
      grow by exactly the drawn ones. */
  function DrawText(pages: seq<Page>, text: string, f: Font, overflow: nat): (r: seq<Page>)
    requires pages != []
    ensures |r| == |pages| + overflow
    ensures Blocks(r) == Blocks(pages) + TextBlocks(text, f)
  {
    var drawn := AppendToLast(pages, Text(text, f));
    BlocksConcat(drawn, BlankPages(overflow));
    BlankPagesHaveNoBlocks(overflow);
    var wrapped := drawn + BlankPages(overflow);
    AppendToLast(AppendToLast(AppendToLast(wrapped, LineBreak), Text("", f)), LineBreak)
  }

  /** Drawing a text block leaves every page before the current one as it was. */
  lemma DrawTextKeepsEarlierPages(pages: seq<Page>, text: string, f: Font, overflow: nat)
    requires pages != []
    ensures DrawText(pages, text, f, overflow)[..|pages| - 1] == pages[..|pages| - 1]
  {
    var k := |pages| - 1;
    var p1 := AppendToLast(pages, Text(text, f));
    var p2 := p1 + BlankPages(overflow);
    DrawKeeps(pages, Text(text, f), k);
    assert p2[..k] == p1[..k];
    var p3 := AppendToLast(p2, LineBreak);
    DrawKeeps(p2, LineBreak, k);
    var p4 := AppendToLast(p3, Text("", f));
    DrawKeeps(p3, Text("", f), k);
    DrawKeeps(p4, LineBreak, k);
  }

  /** The text block is drawn on the current (last) page, after what that page already held. */
  lemma DrawTextLandsOnCurrentPage(pages: seq<Page>, text: string, f: Font, overflow: nat)
    requires pages != []
    ensures var k := |pages| - 1;
      var drawn := DrawText(pages, text, f, overflow);
      |drawn| > k && |drawn[k].blocks| > |pages[k].blocks|
      && drawn[k].blocks[..|pages[k].blocks|] == pages[k].blocks
      && drawn[k].blocks[|pages[k].blocks|] == Text(text, f)
  {
    var k := |pages| - 1;
    var n := |pages[k].blocks|;
    var p1 := AppendToLast(pages, Text(text, f));
    var p2 := p1 + BlankPages(overflow);
    assert p2[k] == p1[k];
    if overflow == 0 {
      assert p2 == p1;
      var p3 := AppendToLast(p2, LineBreak);
      var p4 := AppendToLast(p3, Text("", f));
      var p5 := AppendToLast(p4, LineBreak);
      assert p5[k].blocks == p1[k].blocks + [LineBreak, Text("", f), LineBreak];
    } else {
      DrawKeeps(p2, LineBreak, k + 1);
      var p3 := AppendToLast(p2, LineBreak);
      assert p3[k] == p3[..k + 1][k] == p2[..k + 1][k];
      DrawKeeps(p3, Text("", f), k + 1);
      var p4 := AppendToLast(p3, Text("", f));
      assert p4[k] == p4[..k + 1][k] == p3[..k + 1][k];
      DrawKeeps(p4, LineBreak, k + 1);
      var p5 := AppendToLast(p4, LineBreak);
      assert p5[k] == p5[..k + 1][k] == p4[..k + 1][k];
    }
  }

  /** Drawing a text block keeps the title leading the first page. */
  lemma DrawTextKeepsTitle(pages: seq<Page>, text: string, f: Font, overflow: nat, t: string, tf: Font)
    requires pages != [] && TitleLeads(pages, t, tf)
    ensures TitleLeads(DrawText(pages, text, f, overflow), t, tf)
  {
    var p1 := AppendToLast(pages, Text(text, f));
    var p2 := p1 + BlankPages(overflow);
    AppendKeepsTitle(pages, Text(text, f), t, tf);
    assert p2[0] == p1[0];
    var p3 := AppendToLast(p2, LineBreak);
    AppendKeepsTitle(p2, LineBreak, t, tf);
    var p4 := AppendToLast(p3, Text("", f));
    AppendKeepsTitle(p3, Text("", f), t, tf);
    AppendKeepsTitle(p4, LineBreak, t, tf);
  }

  /** The title, once set, is the first thing on the first page. */
  predicate TitleLeads(pages: seq<Page>, t: string, f: Font) {
    |pages| >= 1 && |pages[0].blocks| >= 1 && pages[0].blocks[0] == Text(t, f)
  }

  lemma AppendKeepsTitle(pages: seq<Page>, b: Block, t: string, f: Font)
    requires TitleLeads(pages, t, f)
    ensures TitleLeads(AppendToLast(pages, b), t, f)
  {
    AppendToLastKeepsFirst(pages, b);
  }

  /** Drawing on the last page keeps every page before the last. */
  lemma DrawKeeps(pages: seq<Page>, b: Block, k: nat)
    requires pages != [] && k < |pages|
    ensures AppendToLast(pages, b)[..k] == pages[..k]
  {
    var r := AppendToLast(pages, b);
    assert r[..k] == r[..|pages| - 1][..k];
    assert pages[..k] == pages[..|pages| - 1][..k];
  }

  class PdfYeah {
    const document: Document
    /** The path the document is written to: the directory prefix followed by the name. */
    const filename: string
    const fontType: string
    const fontSize: int

    /** The configured body font. */
    function BodyFont(): Font
      reads this
    {
      Font(fontType, "", fontSize)
    }

    /** The font of the title line: the body family, bold and underlined, size 30. */
    function TitleFont(): Font
      reads this
    {
      Font(fontType, "BU", 30)
    }

    /** Between calls the document's current font is the body font, and a title, once set,
        leads the first page. */
    ghost predicate Valid()
      reads this, document
    {
      document.font == Some(BodyFont())
      && (document.title.Some? ==> TitleLeads(document.pages, document.title.value, TitleFont()))
    }

    constructor (pdfName: string, pdfDirectory: Option<string> := None, fontDict: Option<FontSpec> := None)
      ensures Valid() && fresh(document)
      ensures filename == (if pdfDirectory.Some? then pdfDirectory.value else "") + pdfName
      ensures fontDict.None? ==> fontType == "Arial" && fontSize == 10
      ensures fontDict.Some? ==> fontType == fontDict.value.family && fontSize == fontDict.value.size
      ensures document.pages == [] && document.title == None
    {
      var doc := new Document();
      document := doc;
      var outputDirectory := if pdfDirectory.Some? then pdfDirectory.value else "";
      filename := outputDirectory + pdfName;
      if fontDict.None? {
        fontType, fontSize := "Arial", 10;
      } else {
        fontType, fontSize := fontDict.value.family, fontDict.value.size;
      }
      new;
      document.SetFont(fontType, "", fontSize);
    }

    /** `add_title`: only a str, and only while the document has no page. On success the document
        has exactly one page holding the title line in the title font and a line break, the metadata
        title is the text and the current font is the body font again. */
    method AddTitle(titleText: PyValue) returns (o: Outcome)
      requires Valid()
      modifies document
      ensures Valid()
      ensures !titleText.Str? ==>
        o == Fail(PageException("incorrect data type to add to title")) && unchanged(document)
      ensures titleText.Str? && old(document.pages) != [] ==>
        o == Fail(PageException("Title must be added before text")) && unchanged(document)
      ensures titleText.Str? && old(document.pages) == [] ==>
        o == Pass && document.pages == [Page([Text(titleText.s, TitleFont()), LineBreak])]
        && document.title == Some(titleText.s)
      ensures o.Fail? ==> o.error.PageException?
    {
      if !titleText.Str? {
        return Fail(PageException("incorrect data type to add to title"));
      }
      if |document.pages| != 0 {
        return Fail(PageException("Title must be added before text"));
      }
      document.SetFont(fontType, "BU", 30);
      document.AddPage();
      assert document.pages == [Page([])];
      o := document.Cell(titleText.s);
      assert document.font == Some(TitleFont());
      AppendToSinglePage([], Text(titleText.s, TitleFont()));
      assert [] + [Text(titleText.s, TitleFont())] == [Text(titleText.s, TitleFont())];
      assert document.pages == [Page([Text(titleText.s, TitleFont())])];
      document.SetFont(fontType, "", fontSize);
      document.SetTitle(titleText.s);
      document.Ln();
      AppendToSinglePage([Text(titleText.s, TitleFont())], LineBreak);
      assert [Text(titleText.s, TitleFont())] + [LineBreak] == [Text(titleText.s, TitleFont()), LineBreak];
    }

    /** `add_text_to_page`: a list or tuple is refused before the document is touched; any other
        value is drawn as its `str()`, followed by a spacer, on the current page. The renderer may
        start `overflow` further pages while wrapping the text. No page is ever removed, earlier
        pages stay as they were, and the document's blocks grow by exactly the drawn ones. */
    method AddTextToPage(textToAdd: PyValue, overflow: nat := 0) returns (o: Outcome)
      requires Valid()
      modifies document
      ensures Valid()
      ensures document.title == old(document.title)
      ensures !Drawable(textToAdd) ==>
        o == Fail(PageException("TODO - handle lists")) && unchanged(document)
      ensures Drawable(textToAdd) && old(document.pages) == [] ==>
        o == Fail(RendererError("no page open")) && unchanged(document)
      ensures Drawable(textToAdd) && old(document.pages) != [] ==>
        var before, text := old(document.pages), ToStr(textToAdd);
        o == Pass
        && document.pages == DrawText(before, text, BodyFont(), overflow)
        && |document.pages| == |before| + overflow
        && document.pages[..|before| - 1] == before[..|before| - 1]
        && Blocks(document.pages) == Blocks(before) + TextBlocks(text, BodyFont())
        && var k := |before| - 1;
           document.pages[k].blocks[..|before[k].blocks|] == before[k].blocks
           && document.pages[k].blocks[|before[k].blocks|] == Text(text, BodyFont())
    {
      if !Drawable(textToAdd) {
        return Fail(PageException("TODO - handle lists"));
      }
      ghost var before := document.pages;
      var text := ToStr(textToAdd);
      o := document.MultiCell(text, overflow);
      if o.Fail? {
        return;
      }
      document.Ln();
      o := document.Cell("");
      document.Ln();
      assert document.pages == DrawText(before, text, BodyFont(), overflow);
      DrawTextKeepsEarlierPages(before, text, BodyFont(), overflow);
      DrawTextLandsOnCurrentPage(before, text, BodyFont(), overflow);
      if document.title.Some? {
        DrawTextKeepsTitle(before, text, BodyFont(), overflow, document.title.value, TitleFont());
      }
    }

    /** `add_page`: one more page at the end; the existing pages are unchanged. */
    method AddPage()
      requires Valid()
      modifies document
      ensures Valid()
      ensures document.pages == old(document.pages) + [Page([])]
      ensures Blocks(document.pages) == Blocks(old(document.pages))
      ensures document.title == old(document.title)
    {
      document.AddPage();
      BlocksOfNewPage(old(document.pages));
      if document.title.Some? {
        assert document.pages[0] == old(document.pages)[0];
      }
    }

    /** `save_pdf`: writes the document to `filename` in `fs`. Closing a document that has no
        page starts a blank one; otherwise nothing drawn changes, and the file holds exactly the
        document's pages. */
    method SavePdf(fs: FileSystem)
      requires Valid()
      modifies document, fs
      ensures Valid()
      ensures document.pages == if old(document.pages) == [] then [Page([])] else old(document.pages)
      ensures document.title == old(document.title)
      ensures fs.files == old(fs.files) + [(filename, document.pages)]
    {
      document.Output(filename, fs);
    }
  }

  /** The title-ordering test: on a new document the first `add_title` succeeds and a second one
      fails with a PageException, whatever it is given. */
  method SecondTitleRejected(pdfName: string, first: string, second: PyValue) returns (o1: Outcome, o2: Outcome)
    ensures o1 == Pass
    ensures o2.Fail? && o2.error.PageException? && o2.error.IsPdfException()
    ensures second.Str? ==> o2 == Fail(PageException("Title must be added before text"))
  {
    var pdf := new PdfYeah(pdfName);
    o1 := pdf.AddTitle(Str(first));
    o2 := pdf.AddTitle(second);
  }

  /** A list given to `add_text_to_page` after the title is refused and the title page stays as it was. */
  method ListTextRejected(pdfName: string, title: string, items: string) returns (o: Outcome, pages: seq<Page>)
    ensures o == Fail(PageException("TODO - handle lists"))
    ensures pages == [Page([Text(title, Font("Arial", "BU", 30)), LineBreak])]
  {
    var pdf := new PdfYeah(pdfName);
    o := pdf.AddTitle(Str(title));
    o := pdf.AddTextToPage(List(items));
    pages := pdf.document.pages;
  }

  /** Saving a document nothing was added to writes a file of one blank page. */
  method EmptyDocumentSaved(pdfName: string) returns (written: seq<(string, seq<Page>)>)
    ensures written == [(pdfName, [Page([])])]
  {
    var fs := new FileSystem();
    var pdf := new PdfYeah(pdfName);
    assert "" + pdfName == pdfName;
    pdf.SavePdf(fs);
    written := fs.files;
  }
}
