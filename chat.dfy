/**
 * The retrieval-augmented answer of `backend/chat.py`: the two prompt
 * templates, the choice between them by mode, the formatting of the
 * retrieved documents with their provenance, and the record
 * `get_rag_response` returns. The retriever and the chat model are the
 * caller's oracles.
 */
module Chat {
  import opened Documents
  import Text

  /**
   * A prompt template with one `{context}` and one `{question}` placeholder,
   * kept as the three literal pieces around them.
   */
  datatype Template = Template(head: string, middle: string, tail: string) {

    /** The template text as written, placeholders included. */
    function Source(): string {
      head + "{context}" + middle + "{question}" + tail
    }

    /** The prompt with the placeholders filled in. */
    function Fill(context: string, question: string): string {
      head + context + middle + question + tail
    }

    /** The filled prompt holds the context right after the head, and the question right after the middle. */
    lemma FillLayout(context: string, question: string)
      ensures var r := Fill(context, question);
        && |r| == |head| + |context| + |middle| + |question| + |tail|
        && r[|head|..|head| + |context|] == context
        && r[|head| + |context| + |middle|..|head| + |context| + |middle| + |question|] == question
    {
      var r := head + context + middle + question + tail;
      assert r == head + context + (middle + question + tail);
      Text.SliceMiddle(head, context, middle + question + tail);
      assert r == (head + context + middle) + question + tail;
      Text.SliceMiddle(head + context + middle, question, tail);
    }
  }

  /** The sentence the PDF-only prompt tells the model to answer with when the context lacks the answer. */
  const RefusalSentence: string := "I couldn't find this information in the uploaded documents."

  /** The part of the PDF-only template that precedes the refusal sentence. */
  const PdfOnlyIntro: string :=
    "\n"
    + "You are ManthanAI, a precise document assistant.\n"
    + "Your task is to answer the user's question based *only* on the provided document context.\n"
    + "If the information is not present in the context, you must state: \""

  /** The part of the PDF-only template between the refusal sentence and the context. */
  const PdfOnlyRules: string :=
    "\"\n"
    + "Do not use any external knowledge. Do not make up answers.\n"
    + "\n"
    + "Context:\n"

  /** The two prompts of the chain. */
  datatype TemplateKind = PdfOnly | Hybrid

  const PdfOnlyPrompt: Template :=
    Template(
      PdfOnlyIntro + RefusalSentence + PdfOnlyRules,
      "\n"
      + "\n"
      + "Question:\n",
      "\n"
      + "\n"
      + "Answer:\n")

  const HybridPrompt: Template :=
    Template(
      "\n"
      + "You are ManthanAI, an expert assistant. Your goal is to be as helpful as possible.\n"
      + "A user has asked a question. You have been provided with some context from their documents.\n"
      + "\n"
      + "Your instructions are:\n"
      + "1. First, critically evaluate the provided context. Is it relevant and does it actually help answer the user's question?\n"
      + "2. If the context is relevant, answer the question using ONLY the information from the context. At the end of your answer, cite the source (e.g., [Source: report.pdf, page 2]).\n"
      + "3. If the context is NOT relevant or does not contain the answer, you MUST IGNORE IT COMPLETELY. In this case, answer the question using your own general knowledge. Do not mention the documents or context at all.\n"
      + "\n"
      + "Context:\n",
      "\n"
      + "\n"
      + "Question:\n",
      "\n"
      + "\n"
      + "Answer:\n")

  /** The text of each template. */
  function TemplateOf(kind: TemplateKind): Template {
    match kind
    case PdfOnly => PdfOnlyPrompt
    case Hybrid => HybridPrompt
  }

  /** The template `get_rag_chain` uses: the hybrid one only for the exact mode string "Hybrid". */
  function KindOf(mode: string): (k: TemplateKind)
    ensures k == Hybrid <==> mode == "Hybrid"
  {
    if mode == "Hybrid" then Hybrid else PdfOnly
  }

  function SelectTemplate(mode: string): Template {
    TemplateOf(KindOf(mode))
  }

  /** A filled template whose head is `a + b + c` holds `b` right after `a`. */
  lemma FilledHeadPiece(t: Template, a: string, b: string, c: string, context: string, question: string)
    requires t.head == a + b + c
    ensures var p := t.Fill(context, question);
      |a| + |b| <= |p| && p[|a|..|a| + |b|] == b
  {
    var rest := c + context + t.middle + question + t.tail;
    assert t.Fill(context, question) == a + b + rest;
    Text.SliceMiddle(a, b, rest);
  }

  /** Every PDF-only prompt carries the literal refusal sentence, whatever the context and question. */
  lemma PdfOnlyPromptRefuses(context: string, question: string)
    ensures var p := TemplateOf(PdfOnly).Fill(context, question);
      |PdfOnlyIntro| + |RefusalSentence| <= |p|
      && p[|PdfOnlyIntro|..|PdfOnlyIntro| + |RefusalSentence|] == RefusalSentence
  {
    FilledHeadPiece(PdfOnlyPrompt, PdfOnlyIntro, RefusalSentence, PdfOnlyRules, context, question);
  }

  /** No `{` in `s`: a piece of literal template text the formatter copies unchanged. */
  predicate Literal(s: string) {
    forall i :: 0 <= i < |s| ==> s[i] != '{'
  }

  /**
   * A reference placeholder formatter: copies the text, replacing every
   * `{context}` and every `{question}` by the given values, which are not
   * scanned again.
   */
  function Substitute(t: string, context: string, question: string): string
    decreases |t|
  {
    if t == [] then []
    else if |t| >= 9 && t[..9] == "{context}" then context + Substitute(t[9..], context, question)
    else if |t| >= 10 && t[..10] == "{question}" then question + Substitute(t[10..], context, question)
    else [t[0]] + Substitute(t[1..], context, question)
  }

  lemma {:induction false} SubstituteLiteral(s: string, rest: string, context: string, question: string)
    requires Literal(s)
    ensures Substitute(s + rest, context, question) == s + Substitute(rest, context, question)
    decreases |s|
  {
    if s != [] {
      var t := s + rest;
      assert t[0] == s[0] != '{';
      assert "{context}"[0] == '{' && "{question}"[0] == '{';
      assert t[1..] == s[1..] + rest;
      SubstituteLiteral(s[1..], rest, context, question);
    } else {
      assert s + rest == rest;
    }
  }

  lemma SubstitutePlaceholder(placeholder: string, rest: string, context: string, question: string)
    requires placeholder == "{context}" || placeholder == "{question}"
    ensures Substitute(placeholder + rest, context, question)
      == (if placeholder == "{context}" then context else question) + Substitute(rest, context, question)
  {
    var t := placeholder + rest;
    assert t[..|placeholder|] == placeholder;
    assert t[|placeholder|..] == rest;
    if placeholder == "{question}" {
      assert t[..9] != "{context}" by {
        assert t[1] == 'q' && "{context}"[1] == 'c';
      }
    }
  }

  /**
   * Filling a template is the placeholder substitution of its source text,
   * for templates whose literal pieces hold no `{`.
   */
  lemma FillIsSubstitution(t: Template, context: string, question: string)
    requires Literal(t.head) && Literal(t.middle) && Literal(t.tail)
    ensures Substitute(t.Source(), context, question) == t.Fill(context, question)
  {
    var c, q := context, question;
    var r3 := "{question}" + t.tail;
    var r2 := t.middle + r3;
    var r1 := "{context}" + r2;
    assert t.Source() == t.head + r1;
    SubstituteLiteral(t.head, r1, c, q);
    SubstitutePlaceholder("{context}", r2, c, q);
    SubstituteLiteral(t.middle, r3, c, q);
    SubstitutePlaceholder("{question}", t.tail, c, q);
    SubstituteLiteral(t.tail, [], c, q);
    assert t.tail + [] == t.tail;
    assert Substitute(t.tail, c, q) == t.tail;
    assert Substitute(r3, c, q) == q + t.tail;
    assert Substitute(r2, c, q) == t.middle + (q + t.tail);
    assert Substitute(r1, c, q) == c + (t.middle + (q + t.tail));
    assert Substitute(t.Source(), c, q) == t.head + (c + (t.middle + (q + t.tail)));
    Text.ConcatAssociative(t.head + c + t.middle, q, t.tail);
    Text.ConcatAssociative(t.head + c, t.middle, q + t.tail);
    Text.ConcatAssociative(t.head, c, t.middle + (q + t.tail));
  }

  /** The `source` tag as printed: its value, or "N/A" when absent. */
  function SourceLabel(m: Metadata): string {
    if "source" in m then Render(m["source"]) else "N/A"
  }

  /** `metadata.get('page') or metadata.get('slide', 'N/A')`. */
  function PageLabel(m: Metadata): string {
    if "page" in m && Truthy(m["page"]) then Render(m["page"])
    else if "slide" in m then Render(m["slide"])
    else "N/A"
  }

  /** One document as `format_docs` prints it. */
  function FormatEntry(d: Document): string {
    "Source: " + SourceLabel(d.metadata) + ", Page/Slide: " + PageLabel(d.metadata)
    + "\nContent: " + d.pageContent
  }

  /** The entries of the documents, in order. */
  function Entries(docs: seq<Document>): seq<string> {
    seq(|docs|, i requires 0 <= i < |docs| => FormatEntry(docs[i]))
  }

  /** `format_docs`: the entries joined by blank lines. */
  function FormatDocs(docs: seq<Document>): string {
    Text.Join("\n\n", Entries(docs))
  }

  /**
   * The label falls back from a truthy page to the slide, then to "N/A";
   * a page that is present but falsy (0, "", None) falls through to the slide.
   */
  lemma PageLabelFallback(m: Metadata)
    ensures "page" in m && Truthy(m["page"]) ==> PageLabel(m) == Render(m["page"])
    ensures "page" in m && !Truthy(m["page"]) && "slide" in m ==> PageLabel(m) == Render(m["slide"])
    ensures ("page" !in m || !Truthy(m["page"])) && "slide" !in m ==> PageLabel(m) == "N/A"
    ensures "source" !in m ==> SourceLabel(m) == "N/A"
  {
  }

  /**
   * An entry starts with the provenance line and ends with the document's
   * content, which can be cut back out of it.
   */
  lemma EntryLayout(d: Document)
    ensures var e := FormatEntry(d); var n := |e| - |d.pageContent|;
      |d.pageContent| <= |e| && e[..8] == "Source: " && e[n..] == d.pageContent
      && e[n - 10..n] == "\nContent: "
  {
    var line := "Source: " + SourceLabel(d.metadata) + ", Page/Slide: " + PageLabel(d.metadata);
    var e := FormatEntry(d);
    assert e == line + "\nContent: " + d.pageContent;
    Text.SliceMiddle(line, "\nContent: ", d.pageContent);
    assert e[..8] == line[..8];
  }

  /** A page document from the extraction loop is labelled with its decimal page number, which reads back. */
  lemma IngestedEntryLabel(source: string, page: nat, content: string)
    requires page > 0
    ensures var m := map["source" := Str(source), "page" := Int(page)];
      SourceLabel(m) == source && Text.DecimalValue(PageLabel(m)) == page
  {
  }

  /**
   * `format_docs` gives one entry per document, in input order, at its
   * offset, with a blank line before every entry but the first, and
   * nothing after the last entry.
   */
  lemma FormatDocsLayout(docs: seq<Document>, i: nat)
    requires i < |docs|
    ensures var o := Text.Offset("\n\n", Entries(docs), i);
      o + |FormatEntry(docs[i])| <= |FormatDocs(docs)|
      && FormatDocs(docs)[o..o + |FormatEntry(docs[i])|] == FormatEntry(docs[i])
      && (i > 0 ==> 2 <= o && FormatDocs(docs)[o - 2..o] == "\n\n")
      && (i == |docs| - 1 ==> |FormatDocs(docs)| == o + |FormatEntry(docs[i])|)
  {
    EntryAt(docs, i);
    Text.JoinLayout("\n\n", Entries(docs), i);
  }

  lemma EntryAt(docs: seq<Document>, i: nat)
    requires i < |docs|
    ensures |Entries(docs)| == |docs| && Entries(docs)[i] == FormatEntry(docs[i])
  {
  }

  lemma FormatNoDocs()
    ensures FormatDocs([]) == ""
  {
  }

  /** What `get_rag_response` returns: the answer text and the retrieved documents. */
  datatype RagResponse = RagResponse(outputText: string, sourceDocuments: seq<Document>)

  /** The prompt the chain sends to the model. */
  function RagPrompt(question: string, docs: seq<Document>, mode: string): string {
    SelectTemplate(mode).Fill(FormatDocs(docs), question)
  }

  /**
   * `get_rag_response`: the retriever's documents for the question, then the
   * model's answer to the selected template filled with those documents and
   * the question. An exception from either call propagates. The retriever is
   * a function of the question, so the chain's second retrieval sees the same
   * documents as the first.
   */
  function GetRagResponse(question: string, retriever: string -> Outcome<seq<Document>>,
                          llm: string -> Outcome<string>, mode: string): (r: Outcome<RagResponse>)
    ensures retriever(question).Raised? ==> r == Raised(retriever(question).error)
    ensures retriever(question).Done? ==>
      var docs := retriever(question).value;
      var answer := llm(RagPrompt(question, docs, mode));
      (answer.Raised? ==> r == Raised(answer.error))
      && (answer.Done? ==> r == Done(RagResponse(answer.value, docs)))
  {
    match retriever(question)
    case Raised(e) => Raised(e)
    case Done(sourceDocuments) =>
      match llm(SelectTemplate(mode).Fill(FormatDocs(sourceDocuments), question))
      case Raised(e) => Raised(e)
      case Done(answer) => Done(RagResponse(answer, sourceDocuments))
  }

  /**
   * In either mode the response's sources are the retrieved documents and
   * its text is the model's answer to the prompt built from them; by
   * `FillLayout` that prompt holds the formatted documents and the question.
   */
  lemma RagResponseShape(question: string, retriever: string -> Outcome<seq<Document>>,
                         llm: string -> Outcome<string>, mode: string)
    requires GetRagResponse(question, retriever, llm, mode).Done?
    ensures retriever(question).Done?
    ensures var docs := retriever(question).value;
      && GetRagResponse(question, retriever, llm, mode).value.sourceDocuments == docs
      && llm(RagPrompt(question, docs, mode)) == Done(GetRagResponse(question, retriever, llm, mode).value.outputText)
  {
  }
}
