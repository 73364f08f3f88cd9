/** `make_pdf_worksheet` and `make_pdf_answers`: validate the record, derive the file name, then
    drive a `PdfYeah` through a fixed script and save. */
module Builders {
  import opened Results
  import opened PyValues
  import opened Validator
  import opened Filename
  import opened Renderer
  import opened Assembler

  /** The worksheet's second text: the main text, a blank line and the source attribution. */
  function WithAttribution(mainText: PyValue, url: PyValue): (r: string)
    ensures |r| == |ToStr(mainText)| + |ToStr(url)| + 23
    ensures r[..|ToStr(mainText)|] == ToStr(mainText)
    ensures r[|ToStr(mainText)|..|ToStr(mainText)| + 22] == "\n\nText extracted from "
    ensures r[|r| - |ToStr(url)| - 1..] == ToStr(url) + "."
  {
    ToStr(mainText) + "\n\nText extracted from " + ToStr(url) + "."
  }

  /** A record that passed validation holds every field the builders look up. */
  lemma ValidatedFields(record: PyValue)
    requires ValidateLazyDataDict(record, RequiredKeys) == Pass
    ensures record.Dict?
    ensures var r := record.entries;
      "title" in r && "instructions" in r && "main_text_final" in r && "removed_words_final" in r
      && "answers_final" in r && "url" in r && "exercise_type" in r
  {
    assert "title" in RequiredKeys && "instructions" in RequiredKeys && "main_text_final" in RequiredKeys;
    assert "removed_words_final" in RequiredKeys && "answers_final" in RequiredKeys;
    assert "url" in RequiredKeys && "exercise_type" in RequiredKeys;
  }

  /** A document fresh from the constructor. */
  ghost predicate Blank(pdf: PdfYeah)
    reads pdf, pdf.document
  {
    pdf.Valid() && pdf.document.pages == [] && pdf.document.title == None
  }

  /** The first part of the worksheet script: the title, the instructions and the attributed main
      text, all starting on the title page. */
  method WorksheetOpening(pdf: PdfYeah, title: PyValue, instructions: PyValue, mainText: string,
                          instructionsOverflow: nat, mainTextOverflow: nat)
    returns (o: Outcome)
    requires Blank(pdf)
    modifies pdf.document
    ensures pdf.Valid()
    ensures o == Pass <==> title.Str? && Drawable(instructions)
    ensures o.Fail? ==> o.error.PageException?
    ensures o == Pass ==>
      pdf.document.title == Some(title.s)
      && |pdf.document.pages| == 1 + instructionsOverflow + mainTextOverflow
      && Blocks(pdf.document.pages) == [Text(title.s, pdf.TitleFont()), LineBreak]
           + TextBlocks(ToStr(instructions), pdf.BodyFont())
           + TextBlocks(mainText, pdf.BodyFont())
  {
    o := pdf.AddTitle(title);
    if o.Fail? {
      return;
    }
    assert Blocks(pdf.document.pages) == [Text(title.s, pdf.TitleFont()), LineBreak] by {
      assert pdf.document.pages[..0] == [];
    }
    o := pdf.AddTextToPage(instructions, instructionsOverflow);
    if o.Fail? {
      return;
    }
    o := pdf.AddTextToPage(Str(mainText), mainTextOverflow);
  }

  /** The drawing script of `make_pdf_worksheet`, run on a blank document: the title, the
      instructions, the attributed main text, a new page, the removed words, then the save. */
  method WorksheetScript(pdf: PdfYeah, fs: FileSystem, title: PyValue, instructions: PyValue, mainText: string,
                         removedWords: PyValue, instructionsOverflow: nat, mainTextOverflow: nat,
                         removedWordsOverflow: nat)
    returns (o: Outcome)
    requires Blank(pdf)
    modifies pdf.document, fs
    ensures o == Pass <==> title.Str? && Drawable(instructions) && Drawable(removedWords)
    ensures o.Fail? ==> o.error.PageException? && fs.files == old(fs.files)
    ensures o == Pass ==>
      var pages := pdf.document.pages;
      var firstPageCount := 1 + instructionsOverflow + mainTextOverflow;
      fs.files == old(fs.files) + [(pdf.filename, pages)]
      && pdf.document.title == Some(title.s)
      && |pages| == firstPageCount + 1 + removedWordsOverflow
      && Blocks(pages) == [Text(title.s, pdf.TitleFont()), LineBreak]
           + TextBlocks(ToStr(instructions), pdf.BodyFont())
           + TextBlocks(mainText, pdf.BodyFont())
           + TextBlocks(ToStr(removedWords), pdf.BodyFont())
      && pages[firstPageCount].blocks != []
      && pages[firstPageCount].blocks[0] == Text(ToStr(removedWords), pdf.BodyFont())
  {
    o := WorksheetOpening(pdf, title, instructions, mainText, instructionsOverflow, mainTextOverflow);
    if o.Fail? {
      return;
    }
    pdf.AddPage();
    ghost var broken := pdf.document.pages;
    assert broken[|broken| - 1].blocks == [];
    o := pdf.AddTextToPage(removedWords, removedWordsOverflow);
    if o.Fail? {
      return;
    }
    pdf.SavePdf(fs);
  }

  /** The drawing script of `make_pdf_answers`, run on a blank document: the title, the answers,
      a trailing blank page, then the save. */
  method AnswersScript(pdf: PdfYeah, fs: FileSystem, title: PyValue, answers: PyValue, answersOverflow: nat)
    returns (o: Outcome)
    requires Blank(pdf)
    modifies pdf.document, fs
    ensures o == Pass <==> title.Str? && Drawable(answers)
    ensures o.Fail? ==> o.error.PageException? && fs.files == old(fs.files)
    ensures o == Pass ==>
      var pages := pdf.document.pages;
      fs.files == old(fs.files) + [(pdf.filename, pages)]
      && pdf.document.title == Some(title.s)
      && |pages| == 2 + answersOverflow
      && Blocks(pages) == [Text(title.s, pdf.TitleFont()), LineBreak]
           + TextBlocks(ToStr(answers), pdf.BodyFont())
      && pages[|pages| - 1] == Page([])
  {
    o := pdf.AddTitle(title);
    if o.Fail? {
      return;
    }
    assert Blocks(pdf.document.pages) == [Text(title.s, pdf.TitleFont()), LineBreak] by {
      assert pdf.document.pages[..0] == [];
    }
    o := pdf.AddTextToPage(answers, answersOverflow);
    if o.Fail? {
      return;
    }
    ghost var drawn := pdf.document.pages;
    assert |drawn| == 1 + answersOverflow;
    pdf.AddPage();
    assert pdf.document.pages[|drawn|] == Page([]);
    pdf.SavePdf(fs);
  }

  /** `make_pdf_worksheet`. `md5` and `clock` stand for the digest and `round(time.time())`; the three
      overflow counts are the pages the renderer starts while wrapping each text block. The record
      is validated before any document exists: an invalid record, or a url that is not a str,
      gives no document at all and writes nothing to `fs`. Once the document exists the script
      either fails with a PageException and writes nothing, or, as its last step, writes exactly one
      file: the finished document, under the derived name. */
  method MakePdfWorksheet(record: PyValue, md5: string -> string, clock: nat, fs: FileSystem,
                          instructionsOverflow: nat := 0, mainTextOverflow: nat := 0, removedWordsOverflow: nat := 0)
    returns (pdf: PdfYeah?, o: Outcome)
    modifies fs
    ensures ValidateLazyDataDict(record, RequiredKeys).Fail? ==>
      pdf == null && o == ValidateLazyDataDict(record, RequiredKeys) && fs.files == old(fs.files)
    ensures ValidateLazyDataDict(record, RequiredKeys) == Pass && !record.entries["url"].Str? ==>
      pdf == null && o == Fail(AttributeError("url has no attribute 'encode'")) && fs.files == old(fs.files)
    ensures ValidateLazyDataDict(record, RequiredKeys) == Pass && record.entries["url"].Str? ==>
      pdf != null && fresh(pdf) && fresh(pdf.document) && pdf.fontType == "Arial" && pdf.fontSize == 10
      && pdf.filename == GetFilename(md5, record.entries["url"].s, clock, ToStr(record.entries["exercise_type"]))
    ensures pdf != null ==>
      var r := record.entries;
      var pages := pdf.document.pages;
      var firstPageCount := 1 + instructionsOverflow + mainTextOverflow;
      (o == Pass <==> r["title"].Str? && Drawable(r["instructions"]) && Drawable(r["removed_words_final"]))
      && (o.Fail? ==> o.error.PageException? && fs.files == old(fs.files))
      && (o == Pass ==>
        fs.files == old(fs.files) + [(pdf.filename, pages)]
        && pdf.document.title == Some(r["title"].s)
        && |pages| == firstPageCount + 1 + removedWordsOverflow
        && Blocks(pages) == [Text(r["title"].s, pdf.TitleFont()), LineBreak]
             + TextBlocks(ToStr(r["instructions"]), pdf.BodyFont())
             + TextBlocks(WithAttribution(r["main_text_final"], r["url"]), pdf.BodyFont())
             + TextBlocks(ToStr(r["removed_words_final"]), pdf.BodyFont())
        && pages[firstPageCount].blocks != []
        && pages[firstPageCount].blocks[0] == Text(ToStr(r["removed_words_final"]), pdf.BodyFont()))
  {
    o := ValidateLazyDataDict(record, RequiredKeys);
    if o.Fail? {
      return null, o;
    }
    ValidatedFields(record);
    var r := record.entries;
    if !r["url"].Str? {
      return null, Fail(AttributeError("url has no attribute 'encode'"));
    }
    pdf := new PdfYeah(GetFilename(md5, r["url"].s, clock, ToStr(r["exercise_type"])));
    o := WorksheetScript(pdf, fs, r["title"], r["instructions"], WithAttribution(r["main_text_final"], r["url"]),
                         r["removed_words_final"], instructionsOverflow, mainTextOverflow, removedWordsOverflow);
  }

  /** `make_pdf_answers`: as the worksheet, with the mode "answers" in the file name; the script is
      the title, the answers and a trailing blank page, then the save. */
  method MakePdfAnswers(record: PyValue, md5: string -> string, clock: nat, fs: FileSystem,
                        answersOverflow: nat := 0)
    returns (pdf: PdfYeah?, o: Outcome)
    modifies fs
    ensures ValidateLazyDataDict(record, RequiredKeys).Fail? ==>
      pdf == null && o == ValidateLazyDataDict(record, RequiredKeys) && fs.files == old(fs.files)
    ensures ValidateLazyDataDict(record, RequiredKeys) == Pass && !record.entries["url"].Str? ==>
      pdf == null && o == Fail(AttributeError("url has no attribute 'encode'")) && fs.files == old(fs.files)
    ensures ValidateLazyDataDict(record, RequiredKeys) == Pass && record.entries["url"].Str? ==>
      pdf != null && fresh(pdf) && fresh(pdf.document) && pdf.fontType == "Arial" && pdf.fontSize == 10
      && pdf.filename == GetFilename(md5, record.entries["url"].s, clock, ToStr(record.entries["exercise_type"]), "answers")
    ensures pdf != null ==>
      var r := record.entries;
      var pages := pdf.document.pages;
      (o == Pass <==> r["title"].Str? && Drawable(r["answers_final"]))
      && (o.Fail? ==> o.error.PageException? && fs.files == old(fs.files))
      && (o == Pass ==>
        fs.files == old(fs.files) + [(pdf.filename, pages)]
        && pdf.document.title == Some(r["title"].s)
        && |pages| == 2 + answersOverflow
        && Blocks(pages) == [Text(r["title"].s, pdf.TitleFont()), LineBreak]
             + TextBlocks(ToStr(r["answers_final"]), pdf.BodyFont())
        && pages[|pages| - 1] == Page([]))
  {
    o := ValidateLazyDataDict(record, RequiredKeys);
    if o.Fail? {
      return null, o;
    }
    ValidatedFields(record);
    var r := record.entries;
    if !r["url"].Str? {
      return null, Fail(AttributeError("url has no attribute 'encode'"));
    }
    pdf := new PdfYeah(GetFilename(md5, r["url"].s, clock, ToStr(r["exercise_type"]), "answers"));
    o := AnswersScript(pdf, fs, r["title"], r["answers_final"], answersOverflow);
  }

  /** `s * n` in Python. */
  function Repeat(s: string, n: nat): string {
    if n == 0 then "" else Repeat(s, n - 1) + s
  }

  /** The record of the end-to-end worksheet test. */
  function TestRecord(): PyValue {
    Dict(map["title" := Str("Fill the Gaps!"),
             "instructions" := Str("Read the below text. Can you fill the gaps with the words in the list below?"),
             "main_text_final" := Str(Repeat("this is the main text   ", 400)),
             "question_title" := Int(1),
             "removed_words_final" := Str("word_1,\n word_2"),
             "answer_title" := Int(1),
             "answers_final" := Int(1),
             "url" := Str("test36636.com"),
             "exercise_type" := Str("worksheet_test_type")], "")
  }

  lemma TestRecordValid()
    ensures ValidateLazyDataDict(TestRecord(), RequiredKeys) == Pass
  {
    var keys := TestRecord().entries.Keys;
    assert "title" in keys && "instructions" in keys && "main_text_final" in keys;
    assert "question_title" in keys && "removed_words_final" in keys && "answer_title" in keys;
    assert "answers_final" in keys && "url" in keys && "exercise_type" in keys;
    assert RequiredKeys <= keys;
  }

  /** The end-to-end worksheet test: the test record gives exactly one written file, under the
      derived name, holding at least two pages, however many pages the long main text overflows
      onto. */
  method WorksheetTestScenario(md5: string -> string, clock: nat, instructionsOverflow: nat,
                               mainTextOverflow: nat, removedWordsOverflow: nat)
    returns (o: Outcome, written: seq<(string, seq<Page>)>)
    ensures o == Pass && |written| == 1
    ensures written[0].0 == GetFilename(md5, "test36636.com", clock, "worksheet_test_type")
    ensures |written[0].1| >= 2
  {
    TestRecordValid();
    assert TestRecord().entries["url"] == Str("test36636.com");
    assert ToStr(TestRecord().entries["exercise_type"]) == "worksheet_test_type";
    var fs := new FileSystem();
    var pdf, outcome := MakePdfWorksheet(TestRecord(), md5, clock, fs, instructionsOverflow,
                                         mainTextOverflow, removedWordsOverflow);
    o := outcome;
    written := fs.files;
  }

  /** The answers counterpart: exactly one written file, under the "answers" name, of at least two
      pages, the last one blank. */
  method AnswersTestScenario(md5: string -> string, clock: nat, answersOverflow: nat)
    returns (o: Outcome, written: seq<(string, seq<Page>)>)
    ensures o == Pass && |written| == 1
    ensures written[0].0 == GetFilename(md5, "test36636.com", clock, "worksheet_test_type", "answers")
    ensures |written[0].1| >= 2 && written[0].1[|written[0].1| - 1] == Page([])
  {
    TestRecordValid();
    assert TestRecord().entries["url"] == Str("test36636.com");
    assert ToStr(TestRecord().entries["exercise_type"]) == "worksheet_test_type";
    var fs := new FileSystem();
    var pdf, outcome := MakePdfAnswers(TestRecord(), md5, clock, fs, answersOverflow);
    o := outcome;
    written := fs.files;
  }

  /** An invalid record is refused before any document exists, so nothing is written. */
  method InvalidRecordNotSaved(record: PyValue, md5: string -> string, clock: nat)
    returns (o: Outcome, documentCreated: bool, written: seq<(string, seq<Page>)>)
    requires ValidateLazyDataDict(record, RequiredKeys).Fail?
    ensures o.Fail? && o.error.IsPdfException() && !documentCreated && written == []
    ensures !record.Dict? ==> o == Fail(PdfException("input not dict"))
    ensures record.Dict? ==> o == Fail(PdfException("incomplete keys"))
  {
    var fs := new FileSystem();
    var pdf, outcome := MakePdfWorksheet(record, md5, clock, fs);
    o := outcome;
    documentCreated := pdf != null;
    written := fs.files;
  }
}
