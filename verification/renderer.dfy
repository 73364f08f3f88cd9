/** The document renderer that the assembler drives (the FPDF document), reduced to what the core
    can observe: the pages and the blocks drawn on them, the current font, the metadata title and
    the files written. Geometry, font metrics, the header and footer and the PDF bytes are not modelled. */
module Renderer {
  import opened Results

  datatype Font = Font(family: string, style: string, size: int)

  /** What one drawing call leaves on a page: a text (single line or wrapped) in a font, or a line break. */
  datatype Block = Text(text: string, font: Font) | LineBreak

  datatype Page = Page(blocks: seq<Block>)

  /** The pages after `b` is drawn on the last one. */
  function AppendToLast(pages: seq<Page>, b: Block): (r: seq<Page>)
    requires pages != []
    ensures |r| == |pages|
    ensures Blocks(r) == Blocks(pages) + [b]
  {
    var r := pages[..|pages| - 1] + [Page(pages[|pages| - 1].blocks + [b])];
    assert r[..|r| - 1] == pages[..|pages| - 1];
    r
  }

  /** Drawing on a document of one page extends that page. */
  lemma AppendToSinglePage(blocks: seq<Block>, b: Block)
    ensures AppendToLast([Page(blocks)], b) == [Page(blocks + [b])]
  {
    assert [Page(blocks)][..0] == [];
  }

  /** `n` pages with nothing drawn on them (the header and footer are not modelled). */
  function BlankPages(n: nat): seq<Page> {
    seq(n, _ => Page([]))
  }

  /** Every block of the document, page after page, in drawing order. */
  function Blocks(pages: seq<Page>): seq<Block> {
    if pages == [] then [] else Blocks(pages[..|pages| - 1]) + pages[|pages| - 1].blocks
  }

  lemma {:induction false} BlocksConcat(p: seq<Page>, q: seq<Page>)
    ensures Blocks(p + q) == Blocks(p) + Blocks(q)
    decreases |q|
  {
    if q != [] {
      var last := q[|q| - 1];
      assert (p + q)[..|p + q| - 1] == p + q[..|q| - 1];
      BlocksConcat(p, q[..|q| - 1]);
      assert Blocks(p + q) == Blocks(p + q[..|q| - 1]) + last.blocks;
    } else {
      assert p + q == p;
    }
  }

  /** A new blank page adds no blocks. */
  lemma BlocksOfNewPage(pages: seq<Page>)
    ensures Blocks(pages + [Page([])]) == Blocks(pages)
  {
    assert (pages + [Page([])])[..|pages|] == pages;
  }

  /** Pages with nothing drawn on them add no blocks. */
  lemma {:induction false} BlankPagesHaveNoBlocks(n: nat)
    ensures Blocks(BlankPages(n)) == []
  {
    if n > 0 {
      assert BlankPages(n)[..n - 1] == BlankPages(n - 1);
      BlankPagesHaveNoBlocks(n - 1);
    }
  }

  /** Drawing on the last page never disturbs the first block of the first page. */
  lemma AppendToLastKeepsFirst(pages: seq<Page>, b: Block)
    requires pages != [] && pages[0].blocks != []
    ensures AppendToLast(pages, b)[0].blocks != []
    ensures AppendToLast(pages, b)[0].blocks[0] == pages[0].blocks[0]
  {
    var r := AppendToLast(pages, b);
    if |pages| > 1 {
      assert r[0] == r[..|pages| - 1][0] == pages[..|pages| - 1][0] == pages[0];
    }
  }

  /** The renderer's document. Each method stands for one renderer primitive the assembler calls. */
  class Document {
    var pages: seq<Page>
    /** The current font; none until the first `set_font`. */
    var font: Option<Font>
    /** The metadata title (`set_title`); it draws nothing. */
    var title: Option<string>
    constructor ()
      ensures pages == [] && font == None && title == None
    {
      pages, font, title := [], None, None;
    }

    /** `set_font(family, style, size)`. */
    method SetFont(family: string, style: string, size: int)
      modifies this
      ensures font == Some(Font(family, style, size))
      ensures pages == old(pages) && title == old(title)
    {
      font := Some(Font(family, style, size));
    }

    /** `add_page()`: a new page at the end; the current font carries over. */
    method AddPage()
      modifies this
      ensures pages == old(pages) + [Page([])]
      ensures font == old(font) && title == old(title)
    {
      pages := pages + [Page([])];
    }

    /** `cell(...)`: one line of text in the current font on the current page; the renderer
        refuses to draw while no page is open. */
    method Cell(text: string) returns (o: Outcome)
      requires font.Some?
      modifies this
      ensures old(pages) == [] ==> o == Fail(RendererError("no page open")) && unchanged(this)
      ensures font == old(font) && title == old(title)
      ensures old(pages) != [] ==> o == Pass && pages == AppendToLast(old(pages), Text(text, font.value))
    {
      if pages == [] {
        o := Fail(RendererError("no page open"));
      } else {
        o := Pass;
        pages := AppendToLast(pages, Text(text, font.value));
      }
    }

    /** `multi_cell(...)`: wrapped text in the current font. `overflow` is the number of pages the
        renderer's automatic page break starts while laying the text out, which depends on font
        metrics and the cursor position; the block is recorded on the page where it starts. */
    method MultiCell(text: string, overflow: nat) returns (o: Outcome)
      requires font.Some?
      modifies this
      ensures old(pages) == [] ==> o == Fail(RendererError("no page open")) && unchanged(this)
      ensures font == old(font) && title == old(title)
      ensures old(pages) != [] ==>
        o == Pass && pages == AppendToLast(old(pages), Text(text, font.value)) + BlankPages(overflow)
    {
      if pages == [] {
        o := Fail(RendererError("no page open"));
      } else {
        o := Pass;
        pages := AppendToLast(pages, Text(text, font.value)) + BlankPages(overflow);
      }
    }

    /** `ln()`: a line break on the current page; it only moves the cursor while no page is open. */
    method Ln()
      modifies this
      ensures pages == if old(pages) == [] then old(pages) else AppendToLast(old(pages), LineBreak)
      ensures font == old(font) && title == old(title)
    {
      if pages != [] {
        pages := AppendToLast(pages, LineBreak);
      }
    }

    /** `set_title(t)`. */
    method SetTitle(t: string)
      modifies this
      ensures title == Some(t)
      ensures pages == old(pages) && font == old(font)
    {
      title := Some(t);
    }

    /** `output(path)`: closes the document, which starts a page first when none is open, and
        writes it to `path` in `fs`. */
    method Output(path: string, fs: FileSystem)
      modifies this, fs
      ensures pages == if old(pages) == [] then [Page([])] else old(pages)
      ensures fs.files == old(fs.files) + [(path, pages)]
      ensures font == old(font) && title == old(title)
    {
      if pages == [] {
        pages := [Page([])];
      }
      fs.files := fs.files + [(path, pages)];
    }
  }

  /** The files the documents are written to, in the order they are written, each with the pages
      it holds. */
  class FileSystem {
    var files: seq<(string, seq<Page>)>

    constructor ()
      ensures files == []
    {
      files := [];
    }
  }
}
