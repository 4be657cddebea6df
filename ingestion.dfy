/**
 * The page-extraction loop of `get_pdf_text_and_metadata`: one document per
 * non-empty page of every readable file, tagged with the file name and the
 * 1-based page number. PyPDF2 is replaced by what it yields for each file.
 */
module Ingestion {
  import opened Documents
  import Text

  /** An entry of the input list: a path on disk, or an uploaded file object with a `.name`. */
  datatype Handle = FilePath(path: string) | Upload(name: string)

  /**
   * What PyPDF2 yields for one file: the extracted text of every page and,
   * when reading raises, the index of the page at which it does (0 when the
   * reader cannot open the file at all).
   */
  datatype Reading = Reading(pages: seq<string>, failsAt: Option<nat>)

  datatype PdfFile = PdfFile(handle: Handle, reading: Reading)

  /** `os.path.basename`: what follows the last `/`. */
  function Basename(path: string): (r: string)
    ensures |r| <= |path| && r == path[|path| - |r|..]
    ensures forall i :: 0 <= i < |r| ==> r[i] != '/'
    ensures |r| < |path| ==> path[|path| - |r| - 1] == '/'
    decreases |path|
  {
    if path == [] || path[|path| - 1] == '/' then []
    else Basename(path[..|path| - 1]) + [path[|path| - 1]]
  }

  /** The `source` tag: the basename of a path, the `.name` of an uploaded file. */
  function SourceName(h: Handle): string {
    match h
    case FilePath(p) => Basename(p)
    case Upload(n) => n
  }

  /**
   * How many pages are read: every page before the one at which the reader
   * raises, and reading stops short of the last page only at that page.
   */
  function ReadableCount(r: Reading): (n: nat)
    ensures n <= |r.pages|
    ensures r.failsAt.Some? ==> n <= r.failsAt.value
    ensures n < |r.pages| ==> r.failsAt == Some(n)
  {
    if r.failsAt.Some? && r.failsAt.value < |r.pages| then r.failsAt.value else |r.pages|
  }

  function PageMetadata(source: string, page: int): Metadata {
    map["source" := Str(source), "page" := Int(page)]
  }

  /** The document for page index `i` (0-based) of a file. */
  function PageDoc(source: string, texts: seq<string>, i: nat): Document
    requires i < |texts|
  {
    Document(texts[i], PageMetadata(source, i + 1))
  }

  /** The documents the inner loop appends after reading the pages `texts`. */
  function PageDocs(source: string, texts: seq<string>): seq<Document>
    decreases |texts|
  {
    if texts == [] then []
    else
      var n := |texts| - 1;
      PageDocs(source, texts[..n]) + (if texts[n] != "" then [PageDoc(source, texts, n)] else [])
  }

  /** The documents one input entry contributes; `None` entries contribute none. */
  function FileDocs(entry: Option<PdfFile>): seq<Document> {
    match entry
    case None => []
    case Some(f) => PageDocs(SourceName(f.handle), f.reading.pages[..ReadableCount(f.reading)])
  }

  /** The documents `get_pdf_text_and_metadata` returns for the input list. */
  function Extract(pdfDocs: seq<Option<PdfFile>>): seq<Document>
    decreases |pdfDocs|
  {
    if pdfDocs == [] then []
    else Extract(pdfDocs[..|pdfDocs| - 1]) + FileDocs(pdfDocs[|pdfDocs| - 1])
  }

  method GetPdfTextAndMetadata(pdfDocs: seq<Option<PdfFile>>) returns (documents: seq<Document>)
    ensures documents == Extract(pdfDocs)
  {
    documents := [];
    var f := 0;
    while f < |pdfDocs|
      invariant 0 <= f <= |pdfDocs|
      invariant documents == Extract(pdfDocs[..f])
    {
      assert pdfDocs[..f + 1][..f] == pdfDocs[..f];
      var pdf := pdfDocs[f];
      if pdf.None? {
        f := f + 1;
        continue;
      }
      var file := pdf.value;
      var sourceName := SourceName(file.handle);
      var pages := file.reading.pages;
      ghost var before := documents;
      var pageNum := 0;
      while pageNum < |pages|
        invariant 0 <= pageNum <= ReadableCount(file.reading)
        invariant documents == before + PageDocs(sourceName, pages[..pageNum])
      {
        if file.reading.failsAt == Some(pageNum) {
          break;
        }
        var text := pages[pageNum];
        assert pages[..pageNum + 1][..pageNum] == pages[..pageNum];
        if text != "" {
          documents := documents + [Document(text, PageMetadata(sourceName, pageNum + 1))];
        }
        pageNum := pageNum + 1;
      }
      assert pageNum == ReadableCount(file.reading);
      assert documents == Extract(pdfDocs[..f]) + FileDocs(pdf);
      f := f + 1;
    }
    assert pdfDocs[..f] == pdfDocs;
  }

  /** The indices of the non-empty pages, in increasing order: a reference for the filter. */
  function NonEmptyPages(texts: seq<string>): (idx: seq<nat>)
    ensures forall k :: 0 <= k < |idx| ==> idx[k] < |texts| && texts[idx[k]] != ""
    ensures forall k, l :: 0 <= k < l < |idx| ==> idx[k] < idx[l]
    ensures forall i :: 0 <= i < |texts| && texts[i] != "" ==> i in idx
    decreases |texts|
  {
    if texts == [] then []
    else
      var n := |texts| - 1;
      var front := NonEmptyPages(texts[..n]);
      assert forall k :: 0 <= k < |front| ==> texts[..n][front[k]] == texts[front[k]];
      front + (if texts[n] != "" then [n] else [])
  }

  /**
   * The documents of a file are exactly its non-empty pages, in page order,
   * each carrying its text, the source name and its 0-based index + 1.
   */
  lemma {:induction false} PageDocsAreNonEmptyPages(source: string, texts: seq<string>)
    ensures |PageDocs(source, texts)| == |NonEmptyPages(texts)|
    ensures forall k :: 0 <= k < |NonEmptyPages(texts)| ==>
      PageDocs(source, texts)[k] == PageDoc(source, texts, NonEmptyPages(texts)[k])
    decreases |texts|
  {
    if texts != [] {
      var n := |texts| - 1;
      PageDocsAreNonEmptyPages(source, texts[..n]);
      var docs := PageDocs(source, texts[..n]);
      var idx := NonEmptyPages(texts[..n]);
      var extra := if texts[n] != "" then [PageDoc(source, texts, n)] else [];
      var more := if texts[n] != "" then [n] else [];
      assert PageDocs(source, texts) == docs + extra;
      assert NonEmptyPages(texts) == idx + more;
      forall k | 0 <= k < |idx + more|
        ensures (docs + extra)[k] == PageDoc(source, texts, (idx + more)[k])
      {
        if k < |idx| {
          assert (docs + extra)[k] == docs[k];
          assert (idx + more)[k] == idx[k];
          assert texts[..n][idx[k]] == texts[idx[k]];
        }
      }
    }
  }

  /** Every document of a file has non-empty content and a page number between 1 and the page count. */
  lemma PageDocsShape(source: string, texts: seq<string>, d: Document)
    requires d in PageDocs(source, texts)
    ensures d.pageContent != ""
    ensures exists i :: 0 <= i < |texts| && texts[i] != "" && d == PageDoc(source, texts, i)
  {
    PageDocsAreNonEmptyPages(source, texts);
    var k :| 0 <= k < |PageDocs(source, texts)| && PageDocs(source, texts)[k] == d;
    var i := NonEmptyPages(texts)[k];
    assert d == PageDoc(source, texts, i);
  }

  /** A file contributes at most one document per page it read. */
  lemma {:induction false} PageDocsLength(source: string, texts: seq<string>)
    ensures |PageDocs(source, texts)| <= |texts|
    decreases |texts|
  {
    if texts != [] {
      PageDocsLength(source, texts[..|texts| - 1]);
    }
  }

  /** Reading fewer pages yields a prefix of the documents: nothing already appended is lost. */
  lemma {:induction false} PageDocsPrefix(source: string, texts: seq<string>, n: nat)
    requires n <= |texts|
    ensures PageDocs(source, texts[..n]) <= PageDocs(source, texts)
    decreases |texts| - n
  {
    if n < |texts| {
      var m := |texts| - 1;
      assert texts[..m][..n] == texts[..n];
      PageDocsPrefix(source, texts[..m], n);
    } else {
      assert texts[..n] == texts;
    }
  }

  /**
   * A file whose reading raises keeps the documents of the pages read before
   * the failure, which are a prefix of what a failure-free read would give.
   */
  lemma FailureKeepsEarlierPages(f: PdfFile)
    ensures FileDocs(Some(f)) <= FileDocs(Some(PdfFile(f.handle, Reading(f.reading.pages, None))))
    ensures f.reading.failsAt == Some(0) ==> FileDocs(Some(f)) == []
  {
    var pages := f.reading.pages;
    assert pages[..|pages|] == pages;
    PageDocsPrefix(SourceName(f.handle), pages, ReadableCount(f.reading));
  }

  /** Files are processed in input order: the documents of a concatenation are concatenated. */
  lemma {:induction false} ExtractAppend(a: seq<Option<PdfFile>>, b: seq<Option<PdfFile>>)
    ensures Extract(a + b) == Extract(a) + Extract(b)
    decreases |b|
  {
    if b == [] {
      assert a + b == a;
    } else {
      var n := |b| - 1;
      var ab := a + b;
      assert ab[..|ab| - 1] == a + b[..n];
      assert ab[|ab| - 1] == b[n];
      assert Extract(ab) == Extract(a + b[..n]) + FileDocs(b[n]);
      ExtractAppend(a, b[..n]);
      assert Extract(b) == Extract(b[..n]) + FileDocs(b[n]);
      Text.ConcatAssociative(Extract(a), Extract(b[..n]), FileDocs(b[n]));
    }
  }

  /** A `None` entry produces nothing and does not stop the files after it. */
  lemma NoneIsSkipped(a: seq<Option<PdfFile>>, b: seq<Option<PdfFile>>)
    ensures Extract(a + [None] + b) == Extract(a + b)
  {
    var none: seq<Option<PdfFile>> := [None];
    assert none[..0] == [];
    assert Extract(none) == [];
    ExtractAppend(a, none);
    assert Extract(a + none) == Extract(a);
    ExtractAppend(a + none, b);
    ExtractAppend(a, b);
  }

  /** A list with no readable entry (in particular the empty list) gives no documents. */
  lemma {:induction false} NothingToRead(pdfDocs: seq<Option<PdfFile>>)
    requires forall i :: 0 <= i < |pdfDocs| ==> pdfDocs[i].None?
    ensures Extract(pdfDocs) == []
    decreases |pdfDocs|
  {
    if pdfDocs != [] {
      NothingToRead(pdfDocs[..|pdfDocs| - 1]);
    }
  }

  /**
   * Every output document is the document of a non-empty page of some
   * readable entry, read before that entry's failure.
   */
  lemma {:induction false} ExtractProvenance(pdfDocs: seq<Option<PdfFile>>, d: Document)
    requires d in Extract(pdfDocs)
    ensures d.pageContent != ""
    ensures exists j :: 0 <= j < |pdfDocs| && pdfDocs[j].Some? && d in FileDocs(pdfDocs[j])
    decreases |pdfDocs|
  {
    var n := |pdfDocs| - 1;
    var front := pdfDocs[..n];
    if d in Extract(front) {
      ExtractProvenance(front, d);
      var j :| 0 <= j < |front| && front[j].Some? && d in FileDocs(front[j]);
      assert pdfDocs[j] == front[j];
    } else {
      var f := pdfDocs[n].value;
      PageDocsShape(SourceName(f.handle), f.reading.pages[..ReadableCount(f.reading)], d);
    }
  }

  /** The number of pages of the readable entries. */
  function TotalPages(pdfDocs: seq<Option<PdfFile>>): nat
    decreases |pdfDocs|
  {
    if pdfDocs == [] then 0
    else
      var last := pdfDocs[|pdfDocs| - 1];
      TotalPages(pdfDocs[..|pdfDocs| - 1]) + (if last.Some? then |last.value.reading.pages| else 0)
  }

  /** There are at most as many documents as pages. */
  lemma {:induction false} ExtractLength(pdfDocs: seq<Option<PdfFile>>)
    ensures |Extract(pdfDocs)| <= TotalPages(pdfDocs)
    decreases |pdfDocs|
  {
    if pdfDocs != [] {
      var n := |pdfDocs| - 1;
      ExtractLength(pdfDocs[..n]);
      if pdfDocs[n].Some? {
        var f := pdfDocs[n].value;
        PageDocsLength(SourceName(f.handle), f.reading.pages[..ReadableCount(f.reading)]);
      }
    }
  }

  /** An uploaded file's documents are tagged with its `.name`, a path's with its basename. */
  lemma SourceTags(f: PdfFile, d: Document)
    requires d in FileDocs(Some(f))
    ensures "source" in d.metadata && "page" in d.metadata
    ensures f.handle.Upload? ==> d.metadata["source"] == Str(f.handle.name)
    ensures f.handle.FilePath? ==> d.metadata["source"] == Str(Basename(f.handle.path))
    ensures d.metadata["page"].Int? && 1 <= d.metadata["page"].i <= ReadableCount(f.reading)
  {
    PageDocsShape(SourceName(f.handle), f.reading.pages[..ReadableCount(f.reading)], d);
  }
}
