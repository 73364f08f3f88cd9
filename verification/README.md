# lazy-pdf core, modelled in Dafny

lazy-pdf turns a worksheet record into a PDF. The record is a dict holding a title, instructions, the
main text, a question title, the removed words, an answer title, the answers, the source url and the
exercise type. There are two
documents: a student worksheet and an answer sheet. All of the logic is in `src/pdf_creator.py`.
The rest is calls into the FPDF renderer. This project models that logic:

- **Validator** (`validator.dfy`): `validate_lazy_data_dict`. A non-dict fails with
  "input not dict". A dict fails with "incomplete keys" exactly when some required key is missing.
  The production validator hard-codes the key set, while the tests pass it as `expected_keys`; the
  model takes it as a parameter, and the builders pass `RequiredKeys`. That is the source's literal,
  which lists `exercise_type` twice and so holds nine keys.
- **File name** (`filename.dfy`): `get_filename` builds `<md5 hex>_<clock>_<exercise type>_<mode>.pdf`.
  The MD5 digest is a function parameter `md5` and the clock is a `nat` parameter. The name can be
  read back: its first two fields are the digest and the clock.
- **Python values** (`py_values.dfy`): the value shapes that the core tells apart (str, int, list,
  tuple, dict, anything else). It also holds Python's `str()` on them and a decimal printer
  with its reading direction.
- **Renderer** (`renderer.dfy`): the FPDF document cut down to what the core can observe. That is the
  pages and the text blocks and line breaks drawn on them, the current font and the metadata title.
  It is a `Document` class with one method per primitive the assembler calls. A `FileSystem` class
  holds every file `output` writes, in order, each as its path and the pages it holds.
- **Assembler** (`assembler.dfy`): the class `PdfYeah`, with its constructor, `add_title`,
  `add_text_to_page`, `add_page` and `save_pdf`. These mutate the document in place. The object
  invariant `Valid()` says two things. Between calls the current font is the body font. A title,
  once set, is the first block of the first page.
- **Builders** (`builders.dfy`): `make_pdf_worksheet` and `make_pdf_answers`. Each validates, derives
  the name, builds a fresh `PdfYeah`, runs its fixed script and saves.

Exceptions become values. `Outcome` is `Pass | Fail(error)`, and `PdfError` has one constructor per
exception kind. `PageException` is the subclass of `PdfException`, so `IsPdfException()` holds for
both.

## Model

| member | source | states |
|---|---|---|
| `Validator.ValidateLazyDataDict` | src/pdf_creator.py:21-53 | A non-dict fails with PdfException("input not dict"). A dict passes exactly when the expected keys are a subset of its keys. It fails with "incomplete keys" exactly when some expected key is missing. Every failure is a PdfException. |
| `Validator.RequiredKeysCount` | src/pdf_creator.py:39-48 | The key-set literal, which names `exercise_type` twice, holds exactly nine keys. |
| `Validator.ExtraKeysAccepted` | src/pdf_creator.py:50-53 | A record that passes still passes with any extra keys. |
| `Validator.AnyValuesAccepted` | tests/test_pdf.py:27-38 | Any dict holding the nine required keys passes, whatever its values. |
| `Validator.TestRecordAccepted` | tests/test_pdf.py:27-38 | The test's record of nine keys, each mapped to 1, passes. |
| `Validator.TestRecordMissingKeysRejected` | tests/test_pdf.py:46-55 | The test's six-key record fails with "incomplete keys". |
| `Validator.TestListRejected` | tests/test_pdf.py:40-44 | The list `['not a dict!']` fails with "input not dict". |
| `PyValues.NatToDecimal` | src/pdf_creator.py:18 | `str()` of a non-negative int is a non-empty run of decimal digits with no leading zero. |
| `PyValues.DecimalRoundTrip` | src/pdf_creator.py:18 | Reading back the printed clock value gives the clock value. |
| `PyValues.IntToDecimal` | src/pdf_creator.py:144 | `str()` of an int is non-empty, starts with "-" exactly when the int is negative, and is otherwise all decimal digits. |
| `PyValues.IntToDecimalRoundTrip` | src/pdf_creator.py:144 | `str()` of any int, sign included, reads back as that int. |
| `PyValues.ToStr` | src/pdf_creator.py:144 | `str()` of a str is that str; `str()` of an int reads back as that int. |
| `Filename.GetFilename` | src/pdf_creator.py:13-18 | The derived name always ends in ".pdf". |
| `Filename.FilenameFields` | src/pdf_creator.py:13-18 | When the digest is 32 hex digits, splitting the name at underscores gives back the digest, then the clock (digits whose value is the clock), then `<exercise type>_<mode>.pdf`. |
| `Filename.ModesDifferOnlyInMode` | src/pdf_creator.py:13 | The default mode is "worksheet". The worksheet and answers names share the prefix `<digest>_<clock>_<exercise type>_` and differ after it. |
| `Filename.TestFilenameWorksheet` | tests/test_pdf.py:57-64 | With the tests' digest for "test.com" and clock 123, the worksheet name is `c97c1b3671fef2055e175ca2154d217a_123_test_exercise_worksheet.pdf`. |
| `Filename.TestFilenameAnswers` | tests/test_pdf.py:66-73 | Under the same inputs the answers name ends in `_answers.pdf`. |
| `Assembler.PdfYeah.constructor` | src/pdf_creator.py:99-116 | The target path is the directory prefix, or "" when none is given, followed by the name. The body font is ("Arial", 10) unless a font dict supplies type and size. The document is fresh and empty, with the body font current. |
| `Assembler.PdfYeah.AddTitle` | src/pdf_creator.py:118-137 | A non-str fails with "incorrect data type to add to title". This check comes first. A document that already has a page fails with "Title must be added before text". Both failures leave the document unchanged. On success there is exactly one page, holding the title in the body family at BU/30 and then a line break. The metadata title is the text, and the body font is current again. |
| `Assembler.PdfYeah.AddTextToPage` | src/pdf_creator.py:139-148 | A list or tuple fails with PageException before the document is touched. Otherwise `str()` of the value is drawn on the current page, after what the page held, followed by a spacer. The page count grows by exactly the renderer's overflow count, and the pages before the current one are unchanged. The document's blocks grow by exactly the drawn blocks. |
| `Assembler.PdfYeah.AddPage` | src/pdf_creator.py:152-153 | Exactly one blank page is appended. Existing pages and all drawn blocks are unchanged. |
| `Assembler.PdfYeah.SavePdf` | src/pdf_creator.py:155-156 | Exactly one file is added to the file system: the path `filename` and the document's pages. A document with no page is closed with one blank page first; otherwise nothing drawn changes. |
| `Assembler.EmptyDocumentSaved` | src/pdf_creator.py:155-156 | Saving a new document to which nothing was added writes one file of a single blank page. |
| `Assembler.TextBlocks` | src/pdf_creator.py:144-148 | One text block draws four blocks, all in the given font: the text first, a line break last, and no other non-empty text. |
| `Assembler.DrawText` | src/pdf_creator.py:144-148 | One text block adds exactly `overflow` pages, and the document's blocks grow by exactly the drawn blocks. |
| `Assembler.DrawTextKeepsEarlierPages` | src/pdf_creator.py:144-148 | One text block keeps every page before the current one. |
| `Assembler.DrawTextLandsOnCurrentPage` | src/pdf_creator.py:144 | The wrapped text starts on the page that was current, right after that page's earlier blocks. |
| `Assembler.DrawTextKeepsTitle` | src/pdf_creator.py:123-148 | Drawing text never displaces the title from the head of the first page. |
| `Assembler.SecondTitleRejected` | src/pdf_creator.py:118-124 | On a new document the first `add_title` succeeds. A second one always fails with a PageException, with the ordering message when given a str. |
| `Assembler.ListTextRejected` | src/pdf_creator.py:139-142 | A list after the title fails with "TODO - handle lists". The title page stays exactly as the title left it. |
| `Builders.ValidatedFields` | src/pdf_creator.py:181-188 | A record that passed validation holds every field the builders look up. |
| `Builders.WithAttribution` | src/pdf_creator.py:186 | The worksheet's second text is the main text's `str()`, then "\n\nText extracted from ", then the url's `str()` and a full stop. |
| `Builders.WorksheetOpening` | src/pdf_creator.py:184-186 | Title, instructions, then the attributed main text. It succeeds exactly when the title is a str and the instructions are not a list or tuple. Its page count and its block sequence are exactly those drawn. |
| `Builders.WorksheetScript` | src/pdf_creator.py:184-190 | The worksheet script succeeds exactly when the title is a str and neither the instructions nor the removed words are a list or tuple. On failure nothing is written to the file system. On success exactly one file is added, as the last step: the filename with the finished document's pages. That document has `2 + overflows` pages. Its blocks are the title, the instructions, the main text and the removed words, in order, and the page added by `add_page` starts with the removed words. |
| `Builders.AnswersScript` | src/pdf_creator.py:219-223 | The answers script succeeds exactly when the title is a str and the answers are not a list or tuple. On failure nothing is written. On success exactly one file is added, as the last step: the filename with the finished document's pages. That document has `2 + overflow` pages, its blocks are the title and the answers, and the last page is blank. |
| `Builders.MakePdfWorksheet` | src/pdf_creator.py:159-190 | A record that fails validation returns that error before any document exists, and nothing is written. So does a url that is not a str, with AttributeError. Otherwise the document is fresh, its body font is Arial at 10 (no font dict is passed), and its path is the derived worksheet name, and the script's outcome and final state are as in WorksheetScript. The main text carries "\n\nText extracted from <url>.". |
| `Builders.MakePdfAnswers` | src/pdf_creator.py:193-223 | The same order of checks, with the "answers" name and the Arial 10 body font. The final state is as in AnswersScript. |
| `Builders.TestRecordValid` | tests/test_pdf.py:79-87 | The end-to-end test's record passes validation. |
| `Builders.WorksheetTestScenario` | tests/test_pdf.py:75-92 | The test's record succeeds and writes exactly one file, under the derived name, holding at least two pages, however far the long main text overflows. |
| `Builders.AnswersTestScenario` | src/pdf_creator.py:215-223 | The same record succeeds and writes exactly one file, under the "answers" name, of at least two pages with a blank last page. |
| `Builders.InvalidRecordNotSaved` | src/pdf_creator.py:181 | An invalid record fails with the validator's PdfException, no document is created, and no file is written. |

## Left out

- FPDF's rendering primitives (`cell`, `multi_cell`, `ln`, `set_font` and the rest): geometry, font metrics, text colour and the PDF bytes are foreign library code. The model keeps only the drawn text, the fonts and the line breaks, as blocks on pages.
- The `PDF.header` and `PDF.footer` overrides (src/pdf_creator.py:70-94): pure layout that the renderer draws on every page. Pages in the model do not hold them.
- The MD5 computation and `time.time()` with `round`: the digest is the function parameter `md5`, and the clock is a `nat` parameter, so the clock is taken as non-negative (a system clock set before 1970 is not modelled).
- Writing the file: `output` adds the path and the pages to `FileSystem.files`. The PDF bytes, directories and write errors are not modelled, and a later file at the same path is listed after the earlier one rather than replacing it.
- Drawing after `save_pdf`: the renderer closes the document on output; the model does not mark it closed, so further drawing is not refused. The builders save as their last step.
- Assembler.PdfYeah.constructor: `set_font` raises "Undefined font" for a family that is not a core font and was not added with `add_font`. The model accepts any family in a font dict; with the default "Arial" the constructor always succeeds.
- PyValues.IntToDecimal: CPython 3.11 and later raise ValueError for `str()` of an int of more than 4300 digits (the default integer string conversion limit). The model assumes every int is within that limit and prints it.
- PyValues.IntToDecimalRoundTrip: the round trip is stated for every int, while the source can print only ints within the 4300-digit limit; beyond it `str()` raises ValueError.
- PyValues.ToStr: `str()` and the f-string of an int past the 4300-digit limit raise ValueError in the source (src/pdf_creator.py:144, :186, and `get_filename` at :18). The model gives every int its decimal text.
- Builders.MakePdfWorksheet, Builders.MakePdfAnswers, Assembler.PdfYeah.AddTitle, Assembler.PdfYeah.AddTextToPage and Assembler.PdfYeah.SavePdf: the core fonts encode text as latin-1, so a title or text outside latin-1 raises in the renderer (at output in older versions, so in `save_pdf`; at drawing in newer ones, so in `add_title` and `add_text_to_page`). The model does not check the encoding; the success conditions of these members hold for latin-1 text only. The builders' success conditions also assume every int in the record is within CPython's `str()` digit limit (see `PyValues.ToStr`): past it the source raises ValueError and writes no file.
- Automatic page breaks: how many pages a block overflows onto depends on font metrics and the cursor. Each `add_text_to_page` takes that count as the parameter `overflow`.
- Assembler.PdfYeah.AddTextToPage: the overflow pages are recorded as blank pages after the page where the text starts. Which page holds the wrapped tail is not captured. Neither is a break caused by the empty spacer cell.
- Drawing text while no page is open gives `RendererError("no page open")`. The renderer version is not pinned, and versions differ here.
- Assembler.PdfYeah.constructor: a font dict missing `type` or `size` raises KeyError in the source. The model takes both entries as given (`FontSpec`).
- Assembler.PdfYeah.constructor: a font dict with size 0 makes the renderer's `set_font` keep its current size (its default 12 at construction, then the title's 30 after `add_title`), whereas the model records size 0 as the body font's size. `FontSpec.size` is an int, so a fractional size such as 10.5, which the source passes through, is not represented. The builders never pass a font dict, so they always use Arial at 10.
- `str()` of lists, tuples, dicts and other objects is their repr, which the model does not compute: each such value carries its text as `shown`. Dict keys that are not strings are not kept, since every key the core looks up is a string.
- The message of the AttributeError for a url that is not a str ("url has no attribute 'encode'") is the model's own wording.
- The second `PdfException` declaration (src/pdf_creator.py:56) shadows the first. The model has one error kind.
- The end-to-end test replaces `get_filename` by a stub returning 'my_test.pdf'. The scenario uses the derived name. The tests' `clean_up_pdfs` is file-system housekeeping.
- setup.py is packaging metadata.
- `pdfyeah/enums.py` is not part of this model. The tests import `KEYS_REQUIRED_FOR_GAP_FILLER_WORKSHEET` from it, and `Validator.RequiredKeys` stands in for it. The tests also pass `expected_keys`, a keyword the production signature lacks.
