# ManthanAI document assistant: a Dafny model of its core

ManthanAI is a Streamlit application for asking questions about uploaded
documents. Two front ends exist: `app.py`, and `ap.py`, which adds a document
viewer, general chat without documents and an overload fallback. Both share a
backend (`backend/`) with four parts:

- page extraction from PDFs;
- a hybrid keyword/vector retriever with re-ranking;
- a retrieval-augmented chat chain;
- whole-document prompt tools (summary, key points, concept explanation,
  keywords, meeting minutes).

This project models the deterministic logic around the library and model
calls, and proves what that logic promises:

- `Ingestion`: the page-extraction loop (`get_pdf_text_and_metadata`). It is
  an imperative method with nested loops, proved equal to the specification
  function `Extract`. Lemmas cover filtering, 1-based numbering, order,
  failure handling and length.
- `Chat`: the two prompt templates, the choice between them by mode,
  `format_docs` with its provenance labels, placeholder substitution, and
  the record `get_rag_response` returns.
- `PdfUtils`: the `"\n\n"` join of the pages, the empty-text guard, the
  20000-character excerpt and the prompt assembly shared by the five tools.
- `Embedding`: the two guards of `create_hybrid_retriever` and its fixed
  configuration. A `KeywordIndex` class holds the `k` field that the code
  overwrites after construction.
- `Session`: the session state both front ends share (a record with one
  optional field per key), the chat messages, and the external calls as
  oracles (`Services`). It also holds the greeting test and the reset loop
  (`State.DeleteAllButKeys`), which deletes every key but the three key
  entries.
- `App` and `Ap`: the controllers of `app.py` and `ap.py`. Each handler,
  whether the initialiser, the upload callback, the reset button or the
  handling of one chat input in `main`, has two parts:
  - a specification function from the session before to the session after
    and what was shown;
  - a method that updates a `State` step by step and is proved to end there.
- `Text` and `Documents`: helpers with Python's meaning (`join`, `lower`,
  `strip`, `str(int)`) and the shared value types.

## Model

| member | source | states |
|---|---|---|
| Ingestion.GetPdfTextAndMetadata | backend/ingestion.py:18-53 | the nested loop over files and pages returns exactly `Extract(pdfDocs)` |
| Ingestion.Extract | backend/ingestion.py:32-53 | definition: the files' documents concatenated in input order; its properties are the `Extract…` lemmas below |
| Ingestion.FileDocs | backend/ingestion.py:34-48 | definition: nothing for a `None` entry, else the page documents of the pages read before any failure; see `Ingestion.FailureKeepsEarlierPages` |
| Ingestion.PageDocs | backend/ingestion.py:42-48 | definition: one document per non-empty page in page order; characterised by `Ingestion.PageDocsAreNonEmptyPages` |
| Ingestion.Basename | backend/ingestion.py:40 | the basename is the suffix of the path after its last `/` and contains no `/` |
| Ingestion.SourceName | backend/ingestion.py:40 | definition: the basename of a path, the `.name` of an uploaded file; stated by `Ingestion.SourceTags` |
| Ingestion.PageMetadata | backend/ingestion.py:47 | definition: the `source` and `page` entries of a page document; stated by `Ingestion.SourceTags` and `Chat.IngestedEntryLabel` |
| Ingestion.PageDoc | backend/ingestion.py:45-47 | definition: a page's text with its source and its 1-based page number; which pages get one is stated by `Ingestion.PageDocsAreNonEmptyPages` and `Ingestion.PageDocsShape` |
| Ingestion.ReadableCount | backend/ingestion.py:38-52 | reading never goes past the pages or past the page whose reading raises, and it stops short of the last page only at a page that raises |
| Ingestion.PageDocsAreNonEmptyPages | backend/ingestion.py:42-48 | a file's documents are its non-empty pages, in page order, each with its text, its source and page index + 1 |
| Ingestion.NonEmptyPages | backend/ingestion.py:44 | the reference filter: increasing indices, each of a non-empty page, and every non-empty page listed |
| Ingestion.PageDocsShape | backend/ingestion.py:43-48 | every document of a file has non-empty content and is the document of one of its non-empty pages |
| Ingestion.PageDocsLength | backend/ingestion.py:42-48 | a file yields at most one document per page read |
| Ingestion.PageDocsPrefix | backend/ingestion.py:42-48 | reading fewer pages yields a prefix of the documents |
| Ingestion.FailureKeepsEarlierPages | backend/ingestion.py:38-52 | a failing file keeps the documents of the pages before the failure, a prefix of a failure-free read; failing to open gives none |
| Ingestion.ExtractAppend | backend/ingestion.py:33 | files are processed in input order: the output for a concatenation is the concatenation of the outputs |
| Ingestion.NoneIsSkipped | backend/ingestion.py:34-35 | a `None` entry contributes nothing and does not stop the entries after it |
| Ingestion.NothingToRead | backend/ingestion.py:32-35 | a list without a readable entry, the empty list included, yields no documents |
| Ingestion.ExtractProvenance | backend/ingestion.py:33-48 | every output document has non-empty content and comes from some readable entry of the input |
| Ingestion.ExtractLength | backend/ingestion.py:42-48 | there are at most as many documents as pages across the readable files |
| Ingestion.SourceTags | backend/ingestion.py:40-47 | each document is tagged with the `.name` of an upload or the basename of a path, and has a page number between 1 and the number of pages read |
| Chat.Template.FillLayout | backend/chat.py:52-55 | a filled template holds the context right after its head and the question right after its middle |
| Chat.Template.Fill | backend/chat.py:52-55 | definition: the template with its two placeholders filled; stated by `Chat.Template.FillLayout` and `Chat.FillIsSubstitution` |
| Chat.TemplateOf | backend/chat.py:12-44 | definition: the two template texts; what every filled PDF-only prompt says is stated by `Chat.PdfOnlyPromptRefuses` and `Chat.FilledHeadPiece` |
| Chat.KindOf | backend/chat.py:51 | the hybrid template is chosen exactly for the mode string "Hybrid"; every other mode gets the PDF-only one |
| Chat.FilledHeadPiece | backend/chat.py:12-25 | a piece of a template's head appears at its own offset in every filled prompt |
| Chat.PdfOnlyPromptRefuses | backend/chat.py:15 | every PDF-only prompt carries the literal refusal sentence at its fixed place, whatever the context and question |
| Chat.SubstituteLiteral | backend/chat.py:52-55 | the reference substitution copies text without `{` unchanged |
| Chat.SubstitutePlaceholder | backend/chat.py:52-55 | the reference substitution replaces `{context}` by the context and `{question}` by the question |
| Chat.FillIsSubstitution | backend/chat.py:52-55 | filling a template equals substituting both placeholders in its source text, for templates whose literal pieces hold no `{` |
| Chat.SourceLabel | backend/chat.py:60 | definition: the rendered `source` tag, or "N/A" when it is absent; used by `Chat.PageLabelFallback` and `Chat.IngestedEntryLabel` |
| Chat.PageLabel | backend/chat.py:61 | definition: `page or slide`, falling back to "N/A"; its three cases are stated by `Chat.PageLabelFallback` |
| Chat.FormatEntry | backend/chat.py:60-62 | definition: one document as printed; its layout is stated by `Chat.EntryLayout` |
| Chat.Entries | backend/chat.py:59-63 | definition: the entries of the documents in order; where each lands in the context is stated by `Chat.FormatDocsLayout` |
| Chat.FormatDocs | backend/chat.py:57-64 | definition: the entries joined by blank lines; stated by `Chat.FormatDocsLayout` and `Chat.FormatNoDocs` |
| Chat.SelectTemplate | backend/chat.py:51 | definition: the template of the mode's kind; which kind each mode gets is stated by `Chat.KindOf` |
| Chat.RagPrompt | backend/chat.py:51-55 | definition: the selected template filled with the formatted documents and the question; see `Chat.FillLayout` and `Chat.RagResponseShape` |
| Chat.PageLabelFallback | backend/chat.py:60-61 | the label is a truthy page, else the slide, else "N/A"; a falsy page falls through to the slide; a missing source prints "N/A" |
| Chat.EntryLayout | backend/chat.py:60-62 | an entry starts with "Source: " and ends with "\nContent: " followed by the document's content |
| Chat.IngestedEntryLabel | backend/chat.py:60-61 | a document from the extraction loop is labelled with its source and its page number in decimal, which reads back as that page |
| Chat.FormatDocsLayout | backend/chat.py:57-64 | `format_docs` places each entry, in order, at its offset, with a blank line before every entry but the first, and the text ends with the last entry |
| Chat.FormatNoDocs | backend/chat.py:59-64 | no documents give the empty context |
| Chat.GetRagResponse | backend/chat.py:74-87 | a retriever exception propagates; otherwise a model exception propagates, or the result holds the model's answer and the retrieved documents |
| Chat.RagResponseShape | backend/chat.py:84-87 | in either mode a response's sources are the retrieved documents and its text is the model's answer to the prompt built from them |
| PdfUtils.PageContents | backend/pdf_utils.py:19 | definition: the pages' contents in order; where each lands in the full text is stated by `PdfUtils.FullTextLayout` |
| PdfUtils.FullText | backend/pdf_utils.py:17-19 | definition: the contents joined by blank lines; stated by `PdfUtils.FullTextLayout` and `PdfUtils.FullTextEmpty` |
| PdfUtils.FullTextLayout | backend/pdf_utils.py:17-19 | the full text holds each page's content in order, with a blank line before every page but the first, and ends with the last page's content |
| PdfUtils.FullTextEmpty | backend/pdf_utils.py:19-33 | the full text is empty exactly when there is no document or a single empty one |
| PdfUtils.TwoEmptyPagesPass | backend/pdf_utils.py:19-34 | two empty pages give "\n\n", which passes the guard |
| PdfUtils.Excerpt | backend/pdf_utils.py:44 | the excerpt is the prefix of at most 20000 characters, all of the text when it is shorter |
| PdfUtils.PromptHead | backend/pdf_utils.py:38-44 | definition: each tool's prompt text before the excerpt |
| PdfUtils.PromptTail | backend/pdf_utils.py:44-48 | definition: each tool's prompt text after the excerpt |
| PdfUtils.Prompt | backend/pdf_utils.py:38-48 | definition: head, excerpt, tail; what it holds is stated by `PdfUtils.PromptHoldsExcerpt` and `PdfUtils.ExplainQuotesConceptTwice` |
| PdfUtils.RunTool | backend/pdf_utils.py:33-51 | an empty text gives the fixed message; otherwise the result is the model's reply to the tool's prompt |
| PdfUtils.SummarizePdf | backend/pdf_utils.py:21-51 | `summarize_pdf`: the guard, then the model's reply to the summary prompt |
| PdfUtils.ExtractKeyPoints | backend/pdf_utils.py:53-83 | `extract_key_points`: the guard, then the model's reply to the key-points prompt |
| PdfUtils.ExplainConcept | backend/pdf_utils.py:85-121 | `explain_concept`: the guard, then the model's reply to the explanation prompt for the concept |
| PdfUtils.FindKeywords | backend/pdf_utils.py:123-153 | `find_keywords`: the guard, then the model's reply to the keywords prompt |
| PdfUtils.GenerateMeetingMinutes | backend/pdf_utils.py:155-193 | `generate_meeting_minutes`: the guard, then the model's reply to the minutes prompt |
| PdfUtils.EmptyTextSkipsModel | backend/pdf_utils.py:33-34 | with an empty text the result is the fixed message whatever the model would answer |
| PdfUtils.PromptHoldsExcerpt | backend/pdf_utils.py:36-46 | every prompt holds, right after its head, the excerpt of the full text and nothing else of it |
| PdfUtils.ExplainQuotesConceptTwice | backend/pdf_utils.py:100-118 | the explanation prompt contains the concept verbatim at both of its places |
| Embedding.Configure | backend/embedding.py:65-93 | the configuration indexes the documents, gives both members the same `k`, weighs them 0.5/0.5, re-ranks to `rerank_top_n`, and uses the fixed embedding and re-ranking models with the Google and Cohere keys |
| Embedding.Build | backend/embedding.py:58-100 | empty documents raise the first `ValueError`; missing or empty keys raise the second; a library failure propagates; otherwise the configuration is returned |
| Embedding.BuildSucceeds | backend/embedding.py:58-93 | a retriever is built exactly when there are documents, both keys and no failure; it then has two members with `k`, equal weights summing to 1 and the given `top_n` |
| Embedding.EmptyDocsReportedFirst | backend/embedding.py:58-61 | empty documents report the empty-documents error whatever the keys |
| Embedding.KeywordIndex.FromDocuments | backend/embedding.py:73 | a new BM25 index holds the documents and the library's default `k` |
| Embedding.CreateHybridRetriever | backend/embedding.py:31-100 | the step-by-step build, including the overwrite of the BM25 index's `k`, returns what `Build` specifies |
| Embedding.DefaultConfiguration | backend/embedding.py:35-36 | with the defaults both members fetch 10 documents and the re-ranker keeps 4 |
| Session.KeysArePresent | app.py:86 | `st.session_state.keys()` lists exactly the entries present |
| Session.KeysOnly | app.py:86-88 | the session reduced to the three key entries has exactly those that were present |
| Session.DeletingStep | app.py:88 | deleting one more key is deleting the enlarged set of keys |
| Session.DeletingAllButKept | app.py:86-88 | deleting every present key but the three key entries leaves just those three |
| Session.Without | app.py:88 | definition: `del` of one entry; stated by `Session.DeletingStep` and `Session.State.DeleteAllButKeys` |
| Session.State.DeleteAllButKeys | app.py:86-88 | the deletion loop, in whatever order it visits the keys, leaves the session reduced to the three key entries |
| Session.OrDefault | app.py:28-35 | definition: an absent entry gets the default; what the initialisers then hold is stated by `App.InitDefaults` and `Ap.InitDefaults` |
| Session.Append | app.py:55 | definition: the history extended by the messages; what each handler appends is stated by `App.ChatStepAnswers`, `App.UploadOutcomes`, `Ap.ChatStepAnswers` and `Ap.UploadOutcomes` |
| Session.PendingUploads | app.py:39 | definition: the uploader's files, none when the entry is absent; what an upload with none does is stated by `App.UploadStep` and `Ap.UploadStep` |
| Session.IsGreeting | app.py:121 | definition: the lower-cased, stripped input is one of "hi", "hello", "hey"; stated by the two lemmas below |
| Session.GreetingModuloSpaceAndCase | app.py:121 | for every input and any white space around it, the test is unchanged by that white space, and any casing of a greeting is a greeting |
| Session.GreetingStripped | app.py:117 | the three greetings carry no surrounding white space, so each is what `strip()` leaves of itself |
| Session.GreetingIsNotEmpty | app.py:118-121 | no greeting is the empty input, so every greeting reaches the greeting test |
| Session.GreetingLength | app.py:117 | every greeting has at least two characters |
| Session.GreetingIgnoresCaseAndSpace | app.py:121 | the greeting test depends only on the lower-cased, stripped input |
| App.InitDefaults | app.py:21-35 | the keys and the loaded flag are set only when the flag is absent; each of the four defaults only when its key is absent; nothing else changes; the result is ready |
| App.InitKeys | app.py:21-35 | the initialiser adds exactly the four defaulted entries and, when the flag is absent, the three key entries |
| App.InitKeepsReady | app.py:21-35 | a ready session is left unchanged |
| App.InitIdempotent | app.py:21-35 | initialising twice is initialising once, whatever the environment holds the second time |
| App.FileNames | app.py:53 | definition: the uploaded files' names in order; what the session holds after a success is stated by `App.UploadOutcomes` |
| App.UploadFailed | app.py:56-59 | definition: the `except` branch's session and notice; where it is reached is stated by `App.UploadOutcomes` |
| App.SuccessText | app.py:54 | definition: the success message with the count in decimal; the count reads back by `Text.DecimalRoundTrip` |
| App.UploadStep | app.py:38-59 | without files nothing happens; only the retriever, the names and the history change; the session stays ready |
| App.UploadOutcomes | app.py:42-59 | an exception from extraction, splitting or the retriever build (a missing key included) is the `except` branch; no chunks leave the session unchanged with an error; a built retriever is stored with the names in order and announced by "Documents ready…" |
| App.UploadSucceeds | app.py:42-55 | an upload succeeds exactly when extraction and splitting return, there are chunks, both keys and no library failure; the retriever then indexes exactly those chunks |
| App.Respond | app.py:121-137 | a greeting gets the canned reply; at most one AI message is added, and none when something is shown |
| App.ChatStep | app.py:118-137 | an empty input changes nothing; otherwise the raw input is appended as a user message, followed by at most one AI message, and nothing else changes |
| App.ChatStepAnswers | app.py:118-137 | a non-empty input is recorded as a user message followed by the messages of the reply, and the reply's notice is shown |
| App.GreetingIgnoresServices | app.py:121-122 | a greeting appends the canned reply after the input, whatever the retriever and model would do |
| App.NoRetrieverWarns | app.py:123-124 | without a retriever a question shows the warning and adds no AI message |
| App.RagAnswerRecorded | app.py:126-137 | with a retriever, whenever the retriever and the model both answer, the reply is exactly one AI message holding the model's answer to the prompt built from the retrieved documents in the selected mode, with those documents as its sources, and nothing is shown |
| App.RagFailureEscapes | app.py:126-132 | an exception from the chain escapes; the question stays in the history |
| App.ScriptRun | app.py:106-138 | `main` initialises, stops with the error when a key is missing, and otherwise is the chat step on the initialised session |
| App.MissingKeysStop | app.py:109-111 | in a fresh session without a Gemini key the input is neither recorded nor answered |
| App.ResetStep | app.py:85-89 | a reset ends in a ready session |
| App.ResetKeepsOnlyKeys | app.py:85-89 | after a reset the session holds the three key entries, unchanged once loaded, and the four defaults, and nothing else |
| App.ResetIdempotent | app.py:85-89 | resetting twice is resetting once |
| App.InitializeSessionState | app.py:21-35 | the in-place initialiser ends in `InitDefaults` of the old session |
| App.HandleFileUpload | app.py:38-59 | the in-place upload handler ends in the session and notice of `UploadStep` |
| App.ResetSession | app.py:85-89 | the deletion loop followed by the initialiser ends in `ResetStep` of the old session |
| App.HandleChatInput | app.py:117-137 | the in-place chat branch ends in the session and notice of `ChatStep` |
| App.RunScript | app.py:106-138 | one run of `main` ends in the session and notice of `ScriptRun` |
| Ap.InitDefaults | ap.py:24-42 | the keys and the loaded flag are set only when the flag is absent; each of the five defaults only when its key is absent; nothing else changes; the result is ready |
| Ap.InitKeys | ap.py:24-42 | the initialiser adds exactly the five defaulted entries and, when the flag is absent, the three key entries |
| Ap.InitKeepsReady | ap.py:24-42 | a ready session is left unchanged |
| Ap.InitIdempotent | ap.py:24-42 | initialising twice is initialising once |
| Ap.FilesMap | ap.py:54 | the name-to-bytes map has at most one entry per file |
| Ap.FilesMapKeys | ap.py:54 | the map's names are exactly the uploaded files' names |
| Ap.FilesMapLastWins | ap.py:54 | under each name the map holds the bytes of the last file with that name |
| Ap.FilesMapDistinct | ap.py:54-64 | with distinct names the map has one entry per file, so the toast counts the files |
| Ap.UploadStep | ap.py:49-68 | without files nothing happens; only the retriever and the stored files change; the session stays ready |
| Ap.UploadFailed | ap.py:65-68 | definition: the `except` branch's session and notice; where it is reached is stated by `Ap.UploadOutcomes` |
| Ap.ToastText | ap.py:64 | definition: the toast with the count in decimal; what it counts is stated by `Ap.UploadOutcomes` and `Ap.FilesMapDistinct` |
| Ap.UploadOutcomes | ap.py:53-68 | the files' bytes are stored first; an exception from extraction, splitting or the retriever build (a missing key included) is the `except` branch, which clears retriever and bytes; no chunks keep the bytes and the old retriever; a built retriever is stored and the toast counts distinct names, at most the number of files |
| Ap.UploadSucceeds | ap.py:53-64 | an upload succeeds exactly when extraction and splitting return, there are chunks, both keys and no library failure; the retriever then indexes exactly those chunks |
| Ap.RagReply | ap.py:150-172 | the document branch adds at most one AI message; when it adds none, an exception escapes |
| Ap.GeneralReply | ap.py:175-187 | the general branch adds at most one AI message; when it adds none, the "Could not get a response" error is shown |
| Ap.Respond | ap.py:146-187 | a greeting gets the canned reply; at most one AI message is added, and none when something is shown; which branch answers other inputs is stated by `Ap.RespondRoutes` |
| Ap.ChatStep | ap.py:142-187 | an empty input changes nothing; otherwise the raw input is appended as a user message, followed by at most one AI message, and nothing else changes; the exact messages are stated by `Ap.ChatStepAnswers` |
| Ap.ChatStepAnswers | ap.py:142-187 | a non-empty input is recorded as a user message followed by the messages of the reply, and the reply's notice is shown |
| Ap.RespondRoutes | ap.py:146-187 | a non-greeting goes to the RAG branch in the selected search mode when a retriever is stored, and to the general model when none is |
| Ap.GreetingIgnoresServices | ap.py:146-147 | a greeting gets the canned reply, whatever the retriever and models would do |
| Ap.FirstAnswerKept | ap.py:154-158 | an answer in the selected mode is the model's answer to that mode's prompt, and the retry model is never consulted |
| Ap.RetryOnce | ap.py:160-170 | after a quota error, one attempt in "PDF-Only" mode follows: its answer comes after the busy warning, and any exception it raises, another quota error included, escapes |
| Ap.RetryUsesPdfOnlyPrompt | ap.py:162-165 | the retry answers from the same retrieved documents with the PDF-only prompt |
| Ap.OtherErrorsEscape | ap.py:152-160 | any other exception of the first attempt escapes without a retry |
| Ap.BusyAnswerLayout | ap.py:166-170 | the retried answer is the busy warning, ending in "\n\n---\n\n", followed by the retry's text |
| Ap.GeneralOutcomes | ap.py:175-187 | without a retriever: the model's text; the apology on a quota error; no message and an error for any other exception |
| Ap.ScriptRun | ap.py:129-189 | `main` initialises, stops with the error when a key is missing, and otherwise is the chat step on the initialised session |
| Ap.MissingKeysStop | ap.py:131-133 | in a fresh session without a Cohere key the input is neither recorded nor answered |
| Ap.ResetStep | ap.py:97-101 | a reset ends in a ready session |
| Ap.ResetKeepsOnlyKeys | ap.py:97-101 | after a reset the session holds the three key entries, unchanged once loaded, and the five defaults, with mode "Hybrid", and nothing else |
| Ap.ResetIdempotent | ap.py:97-101 | resetting twice is resetting once |
| Ap.InitializeSessionState | ap.py:24-42 | the in-place initialiser ends in `InitDefaults` of the old session |
| Ap.CollectFiles | ap.py:54 | the dictionary comprehension, written as a loop, builds `FilesMap` of the files |
| Ap.HandleFileUpload | ap.py:49-68 | the in-place upload handler ends in the session and notice of `UploadStep` |
| Ap.ResetSession | ap.py:97-101 | the deletion loop followed by the initialiser ends in `ResetStep` of the old session |
| Ap.AnswerFromDocuments | ap.py:152-172 | the try/except with its single retry computes `RagReply` |
| Ap.HandleChatInput | ap.py:142-187 | the in-place chat branch ends in the session and notice of `ChatStep` |
| Ap.RunScript | ap.py:129-189 | one run of `main` ends in the session and notice of `ScriptRun` |
| Text.Join | backend/chat.py:59 | definition: `sep.join(parts)`; its layout is stated by `Text.JoinLayout`, its emptiness by `Text.JoinEmpty` |
| Text.JoinLength | backend/pdf_utils.py:19 | the join ends where the last part ends |
| Text.JoinPart | backend/chat.py:59 | every part of `sep.join(parts)` occurs unchanged at its offset |
| Text.JoinSeparator | backend/chat.py:59 | the separator sits right before every part but the first |
| Text.JoinLayout | backend/chat.py:59-64 | each part at its offset, a separator right before every part but the first, and nothing after the last part |
| Text.JoinEmpty | backend/pdf_utils.py:19 | with a non-empty separator the join is empty exactly when there is no part or a single empty one |
| Text.Lower | app.py:121 | `lower()` keeps the length, maps each of `A`..`Z` to its own lower-case letter and leaves every other character unchanged |
| Text.IsSpace | app.py:121 | definition: the characters Python's `str.isspace()` accepts; what `strip()` removes is stated by `Text.TrimStartDropsSpace`, `Text.TrimEndDropsSpace` and `Text.StripDropsSpace` |
| Text.TrimStart | app.py:121 | `lstrip()` leaves a suffix of its input |
| Text.TrimStartDropsSpace | app.py:121 | the leading characters `lstrip()` removes are white space, and what remains does not start with any |
| Text.TrimEnd | app.py:121 | `rstrip()` leaves a prefix of its input |
| Text.TrimEndDropsSpace | app.py:121 | the trailing characters `rstrip()` removes are white space, and what remains does not end with any |
| Text.StripIsCore | app.py:121 | the stripped string is the slice of the input between the leading and the trailing white space |
| Text.StripEnds | app.py:121 | the stripped string neither starts nor ends with white space |
| Text.StripDropsSpace | app.py:121 | what `strip()` drops before and after that slice is white space |
| Text.Strip | app.py:121 | definition: `rstrip` of `lstrip`; stated by `Text.StripIsCore`, `Text.StripEnds`, `Text.StripDropsSpace` and `Text.StripSurrounded` |
| Text.TrimStartSpaces | app.py:121 | white space put in front of a string is all `lstrip()` removes of it |
| Text.TrimEndSpaces | app.py:121 | white space put after a string is all `rstrip()` removes of it |
| Text.TrimStartConcat | app.py:121 | `lstrip()` of a concatenation is that of the first part followed by the second, unless the first part is all white space |
| Text.StripSurrounded | app.py:121 | `strip()` ignores white space added on either side |
| Text.LowerConcat | app.py:121 | `lower()` distributes over concatenation |
| Text.StripLowerSurrounded | app.py:121 | lower-casing then stripping ignores white space added on either side |
| Text.StripLowerFixed | app.py:121 | lower-casing and stripping an already lower-cased, stripped input changes nothing |
| Text.DecimalRoundTrip | app.py:54 | the decimal rendering of a count reads back as the count |
| Text.NatToString | app.py:54 | `str(n)` of a count: non-empty decimal digits, starting with 0 exactly when the count is 0, with no leading zero otherwise; it reads back as the count by `Text.DecimalRoundTrip` |
| Text.IntToString | backend/chat.py:61 | `str(i)` is non-empty decimal digits without a leading zero (unless it is "0") that read back as `i`, with a leading `-` before such digits for a negative number |
| Documents.Render | backend/chat.py:60-61 | definition: what an f-string prints for a metadata value; an integer by `Text.IntToString`, `None` as "None" |
| Documents.Truthy | backend/chat.py:61 | definition: Python truthiness of a metadata value, which decides `page or slide`; stated by `Chat.PageLabelFallback` |
| Documents.HasKey | backend/embedding.py:60 | definition: a key is truthy when present and non-empty, the test of `not key` in the retriever builder and in both `main` functions; stated by `Embedding.Build`, `App.ScriptRun` and `Ap.ScriptRun` |

## Left out

- The user interface is not modelled: page configuration, tabs, widgets, spinners, markdown rendering, the sidebar's file list and the document viewer (`display_pdf`, `display_document_viewer`) produce no state the core reads. `st.rerun()` and `st.stop()` are modelled only as the end of a handler.
- Widget writes into the session (`search_mode` from the radio button, `selected_document` from the select box, `file_uploader_key` from the uploader) are inputs: they are whatever the session holds when a handler runs.
- PyPDF2 is not modelled. What the reader yields for a file is an input: the pages' texts and the page, if any, at which reading raises. A page whose `extract_text` yields nothing is modelled as the empty string.
- The printed error message of the extraction loop is output only and is not modelled.
- `process_uploaded_files`, `get_text_chunks` and its splitter are not part of this model; they are oracles in `Session.Services`.
- The embedding, FAISS indexing, BM25 and vector scoring, ensemble fusion and Cohere re-ranking are foreign libraries. The model keeps their configuration. Whether building them fails is an oracle (`buildFailure`), and what the built retriever returns for a question is an oracle (`query`).
- Every Gemini call is an oracle returning a text or an exception. The chain's model calls are `ragModel` and, for the second call `ap.py` may make in one run, `retryModel`. The general chat of `ap.py` is `generalModel`. Model settings (name, temperature) are not modelled.
- `load_dotenv`, `os.getenv` and `genai.configure` are environment I/O. The variables are an input (`Session.Env`).
- Chat.GetRagResponse: the chain calls the retriever twice (once directly, once inside the chain). The model treats the retriever as a function of the question, so both calls see the same documents.
- Ap.RagReply: the busy-model retry (ap.py:162-165) calls `get_rag_response` again and hence the retriever again. Because the retriever is a function of the question, that call gets the first attempt's documents; `Ap.RetryUsesPdfOnlyPrompt` rests on this.
- The success message `print`ed at the end of `create_hybrid_retriever` (embedding.py:102) is output only and is not modelled.
- Text.Lower: `str.lower()` is modelled for ASCII letters only. Other characters are left unchanged; Unicode case mapping is not modelled.
- The text of an exception is not rendered. A notice that shows an exception keeps the exception value next to its prefix (`ErrorCause`).
- Chat.FillIsSubstitution: stated for templates whose literal pieces contain no `{`. That this holds for the two concrete templates is not proved in the model.
- Session.State.DeleteAllButKeys: the loop picks keys in an unspecified order, not in the session's insertion order. The result is proved not to depend on the order.
- The session can hold only values of the types the code stores. A session entry of another type, for example one written by other code, cannot be represented.
- Ap.FilesMap: a Python dictionary's insertion order is not modelled. Only which name maps to which bytes is modelled.
- Ap.UploadStep: the toast counts the entries of the name-to-bytes map, as the code does. With duplicate names this is fewer than the number of files; `Ap.FilesMapDistinct` states when they agree.
