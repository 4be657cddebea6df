/**
 * The whole-document tools of `backend/pdf_utils.py`: the pages' text joined
 * by blank lines, the guard against an empty text, the first 20000
 * characters placed into a task-specific prompt, and the model's reply
 * returned unchanged. The chat model is the caller's oracle.
 */
module PdfUtils {
  import opened Documents
  import Text

  const EmptyDocumentMessage: string := "The document appears to be empty or could not be read."

  /** How much of the full text any prompt carries. */
  const MaxPromptChars: nat := 20000

  /** The pages' contents, in order. */
  function PageContents(docs: seq<Document>): seq<string> {
    seq(|docs|, i requires 0 <= i < |docs| => docs[i].pageContent)
  }

  /** `_get_full_text_from_docs`. */
  function FullText(docs: seq<Document>): string {
    Text.Join("\n\n", PageContents(docs))
  }

  /**
   * The full text is each page's content in order, separated by blank
   * lines, with nothing after the last page.
   */
  lemma FullTextLayout(docs: seq<Document>, i: nat)
    requires i < |docs|
    ensures var o := Text.Offset("\n\n", PageContents(docs), i);
      o + |docs[i].pageContent| <= |FullText(docs)|
      && FullText(docs)[o..o + |docs[i].pageContent|] == docs[i].pageContent
      && (i > 0 ==> 2 <= o && FullText(docs)[o - 2..o] == "\n\n")
      && (i == |docs| - 1 ==> |FullText(docs)| == o + |docs[i].pageContent|)
  {
    var ps := PageContents(docs);
    assert |ps| == |docs| && ps[i] == docs[i].pageContent;
    Text.JoinLayout("\n\n", ps, i);
  }

  lemma FullTextEmpty(docs: seq<Document>)
    ensures FullText(docs) == "" <==> |docs| == 0 || (|docs| == 1 && docs[0].pageContent == "")
  {
    Text.JoinEmpty("\n\n", PageContents(docs));
  }

  /** Two empty pages still give a non-empty text (a blank line), which passes the guard. */
  lemma TwoEmptyPagesPass(m1: Metadata, m2: Metadata)
    ensures FullText([Document("", m1), Document("", m2)]) == "\n\n"
  {
    var parts := PageContents([Document("", m1), Document("", m2)]);
    assert parts == ["", ""];
    assert parts[1..] == [""];
    assert Text.Join("\n\n", parts[1..]) == "";
  }

  /** `full_text[:20000]`: the longest prefix of at most 20000 characters. */
  function Excerpt(s: string): (r: string)
    ensures |r| <= MaxPromptChars && r <= s
    ensures |s| <= MaxPromptChars ==> r == s
    ensures |s| > MaxPromptChars ==> |r| == MaxPromptChars
  {
    if |s| <= MaxPromptChars then s else s[..MaxPromptChars]
  }

  /** The five tools; explaining a concept also takes the concept. */
  datatype Tool = Summarize | KeyPoints | Explain(concept: string) | Keywords | MeetingMinutes

  /** The prompt text before the document excerpt. */
  function PromptHead(tool: Tool): string {
    match tool
    case Summarize =>
      "\n"
      + "    Based on the following document text, please create a concise and comprehensive summary.\n"
      + "    Structure the summary logically, using section headers if appropriate.\n"
      + "\n"
      + "    Document Text:\n"
      + "    ---\n"
      + "    "
    case KeyPoints =>
      "\n"
      + "    Analyze the following document text and extract the most important key points and insights.\n"
      + "    Present them as a clear, bullet-point list in markdown format.\n"
      + "\n"
      + "    Document Text:\n"
      + "    ---\n"
      + "    "
    case Explain(concept) => ExplainIntro + concept + ExplainStructure
    case Keywords =>
      "\n"
      + "    Analyze the following document text and identify the top 10-15 most important keywords, phrases, or names.\n"
      + "    Present them as a bulleted list.\n"
      + "\n"
      + "    Document Text:\n"
      + "    ---\n"
      + "    "
    case MeetingMinutes =>
      "\n"
      + "    You are an expert at creating meeting summaries. Analyze the following document, which contains\n"
      + "    meeting notes or a transcript. Extract the key information and format it into a structured\n"
      + "    \"Meeting Minutes\" report using the following headers in markdown:\n"
      + "    \n"
      + "    - **Participants:**\n"
      + "    - **Agenda:**\n"
      + "    - **Decisions Made:**\n"
      + "    - **Action Items:** (Include who is responsible and deadlines if mentioned)\n"
      + "\n"
      + "    If any of this information is not present, indicate \"Not specified.\"\n"
      + "\n"
      + "    Document Text:\n"
      + "    ---\n"
      + "    "
  }

  /** The prompt text after the document excerpt. */
  function PromptTail(tool: Tool): string {
    match tool
    case Summarize =>
      " \n"
      + "    ---\n"
      + "\n"
      + "    Summary:\n"
      + "    "
    case KeyPoints =>
      "\n"
      + "    ---\n"
      + "\n"
      + "    Key Points:\n"
      + "    "
    case Explain(concept) => ExplainOutro + concept + ExplainClose
    case Keywords =>
      "\n"
      + "    ---\n"
      + "\n"
      + "    Key Terms:\n"
      + "    "
    case MeetingMinutes =>
      "\n"
      + "    ---\n"
      + "\n"
      + "    Meeting Minutes:\n"
      + "    "
  }

  const ExplainIntro: string :=
    "\n"
    + "    You are a helpful tutor. Based on the context from the document text provided,\n"
    + "    explain the following concept in a simple and clear way: \""

  const ExplainStructure: string :=
    "\"\n"
    + "\n"
    + "    Use the following structure for your explanation:\n"
    + "    - **Definition:** (Provide a clear definition)\n"
    + "    - **Example:** (Give a simple example, preferably from the document context if available)\n"
    + "    - **In Context:** (Explain how the concept is used or why it's important within the document)\n"
    + "\n"
    + "    Document Text:\n"
    + "    ---\n"
    + "    "

  const ExplainOutro: string :=
    "\n"
    + "    ---\n"
    + "\n"
    + "    Explanation for \""

  const ExplainClose: string := "\":\n" + "    "

  /** The document excerpt between a prompt's head and tail. */
  function Enclose(head: string, fullText: string, tail: string): string {
    head + Excerpt(fullText) + tail
  }

  /** The prompt a tool sends for the given document text. */
  function Prompt(tool: Tool, fullText: string): string {
    Enclose(PromptHead(tool), fullText, PromptTail(tool))
  }

  /**
   * The shared body of the five tools: the fixed message for an empty text,
   * otherwise the model's reply to the tool's prompt; a raising model call
   * propagates.
   */
  function RunTool(tool: Tool, docs: seq<Document>, llm: string -> Outcome<string>): (r: Outcome<string>)
    ensures FullText(docs) == "" ==> r == Done(EmptyDocumentMessage)
    ensures FullText(docs) != "" ==> r == llm(Prompt(tool, FullText(docs)))
  {
    var fullText := FullText(docs);
    if fullText == "" then Done(EmptyDocumentMessage) else llm(Prompt(tool, fullText))
  }

  /** `summarize_pdf`. */
  function SummarizePdf(docs: seq<Document>, llm: string -> Outcome<string>): (r: Outcome<string>)
    ensures FullText(docs) == "" ==> r == Done(EmptyDocumentMessage)
    ensures FullText(docs) != "" ==> r == llm(Prompt(Summarize, FullText(docs)))
  {
    RunTool(Summarize, docs, llm)
  }

  /** `extract_key_points`. */
  function ExtractKeyPoints(docs: seq<Document>, llm: string -> Outcome<string>): (r: Outcome<string>)
    ensures FullText(docs) == "" ==> r == Done(EmptyDocumentMessage)
    ensures FullText(docs) != "" ==> r == llm(Prompt(KeyPoints, FullText(docs)))
  {
    RunTool(KeyPoints, docs, llm)
  }

  /** `explain_concept`. */
  function ExplainConcept(docs: seq<Document>, concept: string, llm: string -> Outcome<string>): (r: Outcome<string>)
    ensures FullText(docs) == "" ==> r == Done(EmptyDocumentMessage)
    ensures FullText(docs) != "" ==> r == llm(Prompt(Explain(concept), FullText(docs)))
  {
    RunTool(Explain(concept), docs, llm)
  }

  /** `find_keywords`. */
  function FindKeywords(docs: seq<Document>, llm: string -> Outcome<string>): (r: Outcome<string>)
    ensures FullText(docs) == "" ==> r == Done(EmptyDocumentMessage)
    ensures FullText(docs) != "" ==> r == llm(Prompt(Keywords, FullText(docs)))
  {
    RunTool(Keywords, docs, llm)
  }

  /** `generate_meeting_minutes`. */
  function GenerateMeetingMinutes(docs: seq<Document>, llm: string -> Outcome<string>): (r: Outcome<string>)
    ensures FullText(docs) == "" ==> r == Done(EmptyDocumentMessage)
    ensures FullText(docs) != "" ==> r == llm(Prompt(MeetingMinutes, FullText(docs)))
  {
    RunTool(MeetingMinutes, docs, llm)
  }

  /** With an empty text the result does not depend on the model at all: it is never consulted. */
  lemma EmptyTextSkipsModel(tool: Tool, docs: seq<Document>, llm1: string -> Outcome<string>,
                            llm2: string -> Outcome<string>)
    requires |docs| == 0 || (|docs| == 1 && docs[0].pageContent == "")
    ensures RunTool(tool, docs, llm1) == RunTool(tool, docs, llm2) == Done(EmptyDocumentMessage)
  {
    FullTextEmpty(docs);
  }

  /**
   * Every prompt holds, right after its head, a prefix of the full text of
   * at most 20000 characters, and nothing of the text beyond it. Stated for
   * any head and tail, so for each of the five tools.
   */
  lemma PromptHoldsExcerpt(head: string, fullText: string, tail: string)
    ensures var p := Enclose(head, fullText, tail); var e := Excerpt(fullText);
      |head| + |e| <= |p| && p[|head|..|head| + |e|] == e && |e| <= MaxPromptChars && e <= fullText
      && |p| == |head| + |e| + |tail|
  {
    Text.SliceMiddle(head, Excerpt(fullText), tail);
  }

  /** In `(a + c + b) + x + (d + c + e)` the string `c` occurs at both of its two places. */
  lemma OccursTwice(a: string, c: string, b: string, x: string, d: string, e: string)
    ensures var p := (a + c + b) + x + (d + c + e); var second := |a| + |c| + |b| + |x| + |d|;
      second + |c| <= |p| && p[|a|..|a| + |c|] == c && p[second..second + |c|] == c
  {
    var p := (a + c + b) + x + (d + c + e);
    assert p == a + c + (b + x + d + c + e);
    Text.SliceMiddle(a, c, b + x + d + c + e);
    assert p == (a + c + b + x + d) + c + e;
    Text.SliceMiddle(a + c + b + x + d, c, e);
  }

  /** The concept to explain appears verbatim twice: in the instruction and in the closing line. */
  lemma ExplainQuotesConceptTwice(concept: string, fullText: string)
    ensures var p := Prompt(Explain(concept), fullText);
      var first := |ExplainIntro|;
      var second := |ExplainIntro| + |concept| + |ExplainStructure| + |Excerpt(fullText)| + |ExplainOutro|;
      second + |concept| <= |p|
      && p[first..first + |concept|] == concept
      && p[second..second + |concept|] == concept
  {
    OccursTwice(ExplainIntro, concept, ExplainStructure, Excerpt(fullText), ExplainOutro, ExplainClose);
  }
}
