/**
 * The session controller of `ap.py`, the variant of `app.py` that keeps the
 * uploaded files' bytes for a viewer, answers general questions when no
 * documents are indexed, and retries a RAG answer once in PDF-only mode when
 * the model reports that its quota is exhausted.
 */
module Ap {
  import opened Documents
  import opened Session
  import Text
  import Embedding
  import Chat

  const Welcome: string := "Hello! I am ManthanAI. Ask me anything or upload documents for analysis."
  const GreetingReply: string := "Hello! How can I help you today?"
  const NoTextMessage: string := "No text extracted. Please check your files."
  const ProcessingErrorPrefix: string := "Processing error: "
  const MissingKeysMessage: string := "Missing API keys. Please set them in your .env file."
  const CouldNotRespondPrefix: string := "Could not get a response: "
  const DefaultMode: string := "Hybrid"

  /** The mode of the single retry. */
  const FallbackMode: string := "PDF-Only"

  /** The text put before the retried answer. */
  const BusyWarning: string :=
    "The advanced AI model is busy due to high traffic. "
    + "Here is a response based only on your documents:\n\n---\n\n"

  /** The answer when the general model's quota is exhausted. */
  const Apology: string := "I'm sorry, the AI is experiencing high traffic right now. Please try again in a moment."

  /** The entries `initialize_session_state` gives a default value, besides the keys. */
  predicate IsDefaulted(f: Field) {
    f.ChatHistory? || f.Retriever? || f.SearchMode? || f.UploadedFilesData? || f.SelectedDocument?
  }

  /** A session the handlers can work on: the keys loaded and every entry they read present. */
  predicate Ready(s: Session) {
    Consistent(s) && s.apiKeysLoaded.Some? && s.chatHistory.Some? && s.retriever.Some?
    && s.searchMode.Some? && s.uploadedFilesData.Some? && s.selectedDocument.Some?
  }

  /**
   * `initialize_session_state`: the two keys and the loaded flag when the
   * flag is absent, then a default for each of the five entries that is
   * absent; nothing present is overwritten.
   */
  function InitDefaults(s: Session, env: Env): (r: Session)
    ensures Consistent(s) ==> Ready(r)
    ensures s.apiKeysLoaded.Some? ==> Extends(r, s)
    ensures Extends(r, s.(googleApiKey := None, cohereApiKey := None))
    ensures s.apiKeysLoaded.None? ==>
      r.apiKeysLoaded == Some(true) && r.googleApiKey == Some(env.geminiApiKey)
      && r.cohereApiKey == Some(env.cohereApiKey)
    ensures s.chatHistory.None? ==> r.chatHistory == Some([Message(Ai, Welcome, None)])
    ensures s.retriever.None? ==> r.retriever == Some(None)
    ensures s.searchMode.None? ==> r.searchMode == Some(DefaultMode)
    ensures s.uploadedFilesData.None? ==> r.uploadedFilesData == Some(map[])
    ensures s.selectedDocument.None? ==> r.selectedDocument == Some(None)
  {
    var loaded := s.apiKeysLoaded.Some?;
    s.(apiKeysLoaded := if loaded then s.apiKeysLoaded else Some(true),
       googleApiKey := if loaded then s.googleApiKey else Some(env.geminiApiKey),
       cohereApiKey := if loaded then s.cohereApiKey else Some(env.cohereApiKey),
       chatHistory := OrDefault(s.chatHistory, [Message(Ai, Welcome, None)]),
       retriever := OrDefault(s.retriever, None),
       searchMode := OrDefault(s.searchMode, DefaultMode),
       uploadedFilesData := OrDefault(s.uploadedFilesData, map[]),
       selectedDocument := OrDefault(s.selectedDocument, None))
  }

  /** The initialiser adds only the loaded flag and the keys (when the flag is absent) and the five defaults. */
  lemma InitKeys(s: Session, env: Env)
    requires Consistent(s)
    ensures forall f :: Has(InitDefaults(s, env), f) <==> Has(s, f) || IsDefaulted(f) || (s.apiKeysLoaded.None? && IsKept(f))
  {
    var r := InitDefaults(s, env);
    forall f
      ensures Has(r, f) <==> Has(s, f) || IsDefaulted(f) || (s.apiKeysLoaded.None? && IsKept(f))
    {
      match f
      case Other(n) =>
      case _ =>
    }
  }

  /** A ready session is left as it is. */
  lemma InitKeepsReady(s: Session, env: Env)
    requires Ready(s)
    ensures InitDefaults(s, env) == s
  {
  }

  /** Initialising twice is initialising once, whatever the environment says the second time. */
  lemma InitIdempotent(s: Session, env1: Env, env2: Env)
    requires Consistent(s)
    ensures InitDefaults(InitDefaults(s, env1), env2) == InitDefaults(s, env1)
  {
    InitKeepsReady(InitDefaults(s, env1), env2);
  }

  /** `{file.name: file.getvalue() for file in uploaded_files}`: a later file of the same name wins. */
  function FilesMap(files: seq<UploadedFile>): (r: map<string, seq<byte>>)
    ensures |r| <= |files|
  {
    if files == [] then map[]
    else
      var last := files[|files| - 1];
      FilesMap(files[..|files| - 1])[last.name := last.data]
  }

  /** The map's names are exactly the uploaded files' names. */
  lemma {:induction false} FilesMapKeys(files: seq<UploadedFile>, name: string)
    ensures name in FilesMap(files) <==> exists i :: 0 <= i < |files| && files[i].name == name
  {
    if files != [] {
      var init := files[..|files| - 1];
      FilesMapKeys(init, name);
      if name in FilesMap(init) {
        var i :| 0 <= i < |init| && init[i].name == name;
        assert files[i].name == name;
      }
      if exists i :: 0 <= i < |files| && files[i].name == name {
        var i :| 0 <= i < |files| && files[i].name == name;
        if i < |init| {
          assert init[i].name == name;
        }
      }
    }
  }

  /** Under each name the map holds the bytes of the last file carrying it. */
  lemma {:induction false} FilesMapLastWins(files: seq<UploadedFile>, i: nat)
    requires i < |files|
    requires forall j :: i < j < |files| ==> files[j].name != files[i].name
    ensures files[i].name in FilesMap(files) && FilesMap(files)[files[i].name] == files[i].data
  {
    var init := files[..|files| - 1];
    if i < |files| - 1 {
      assert forall j :: i < j < |init| ==> init[j] == files[j];
      FilesMapLastWins(init, i);
      assert init[i] == files[i];
    }
  }

  /** With distinct names there is one entry per file, so the toast counts the files. */
  lemma {:induction false} FilesMapDistinct(files: seq<UploadedFile>)
    requires forall i, j :: 0 <= i < j < |files| ==> files[i].name != files[j].name
    ensures |FilesMap(files)| == |files|
  {
    if files != [] {
      var init := files[..|files| - 1];
      var last := files[|files| - 1];
      assert forall i, j :: 0 <= i < j < |init| ==> init[i].name != init[j].name by {
        forall i, j | 0 <= i < j < |init| ensures init[i].name != init[j].name {
          assert init[i] == files[i] && init[j] == files[j];
        }
      }
      FilesMapDistinct(init);
      FilesMapKeys(init, last.name);
      forall i | 0 <= i < |init|
        ensures init[i].name != last.name
      {
        assert init[i] == files[i];
      }
    }
  }

  /** The `except` branch of the upload handler: no retriever and no stored files. */
  function UploadFailed(s: Session, e: Exception): Step {
    Step(s.(retriever := Some(None), uploadedFilesData := Some(map[])), ErrorCause(ProcessingErrorPrefix, e))
  }

  function ToastText(count: nat): string {
    "✅ Processed " + Text.IntToString(count) + " documents successfully!"
  }

  /**
   * `handle_file_upload`: nothing without files; otherwise the files' bytes
   * are stored by name first, then extraction, splitting and the retriever
   * build run. An empty chunk list shows an error and keeps the stored
   * files; any exception clears the retriever and the stored files; success
   * stores the retriever and toasts the number of distinct file names.
   * Only the retriever and the stored files change.
   */
  function UploadStep(s: Session, svc: Services): (r: Step)
    requires Ready(s)
    ensures Ready(r.session)
    ensures r.session == s.(retriever := r.session.retriever, uploadedFilesData := r.session.uploadedFilesData)
    ensures PendingUploads(s) == [] ==> r == Step(s, Silent)
  {
    var files := PendingUploads(s);
    if files == [] then Step(s, Silent)
    else
      var stored := s.(uploadedFilesData := Some(FilesMap(files)));
      match svc.processUploads(files)
      case Raised(e) => UploadFailed(stored, e)
      case Done(raw) =>
        match svc.splitChunks(raw)
        case Raised(e) => UploadFailed(stored, e)
        case Done(chunks) =>
          if chunks == [] then Step(stored, Error(NoTextMessage))
          else
            match Embedding.Build(chunks, s.googleApiKey.value, s.cohereApiKey.value,
                                  Embedding.DefaultK, Embedding.DefaultRerankTopN, svc.buildFailure(chunks))
            case Raised(e) => UploadFailed(stored, e)
            case Done(h) =>
              Step(stored.(retriever := Some(Some(h))), Toast(ToastText(|FilesMap(files)|)))
  }

  /**
   * What each step of an upload with files leads to; every outcome first
   * stores the files' bytes. An exception from extraction, splitting or the
   * retriever build is a failure, which clears the retriever and the bytes;
   * no chunks keep the bytes but leave the retriever as it was; a built
   * retriever is stored and the toast counts distinct names, at most the
   * number of files.
   */
  lemma UploadOutcomes(s: Session, svc: Services)
    requires Ready(s) && PendingUploads(s) != []
    ensures |FilesMap(PendingUploads(s))| <= |PendingUploads(s)|
    ensures var files := PendingUploads(s); var stored := s.(uploadedFilesData := Some(FilesMap(files)));
      svc.processUploads(files).Raised? ==>
        UploadStep(s, svc) == UploadFailed(stored, svc.processUploads(files).error)
    ensures var files := PendingUploads(s); var stored := s.(uploadedFilesData := Some(FilesMap(files)));
      svc.processUploads(files).Done? && svc.splitChunks(svc.processUploads(files).value).Raised? ==>
        UploadStep(s, svc) == UploadFailed(stored, svc.splitChunks(svc.processUploads(files).value).error)
    ensures var files := PendingUploads(s); var stored := s.(uploadedFilesData := Some(FilesMap(files)));
      svc.processUploads(files).Done? && svc.splitChunks(svc.processUploads(files).value) == Done([]) ==>
        UploadStep(s, svc) == Step(stored, Error(NoTextMessage))
    ensures var files := PendingUploads(s); var stored := s.(uploadedFilesData := Some(FilesMap(files)));
      svc.processUploads(files).Done? && svc.splitChunks(svc.processUploads(files).value).Done? ==>
        var chunks := svc.splitChunks(svc.processUploads(files).value).value;
        chunks != [] && !(HasKey(s.googleApiKey.value) && HasKey(s.cohereApiKey.value)) ==>
          UploadStep(s, svc) == UploadFailed(stored, ValueError(Embedding.MissingKeysMessage))
    ensures var files := PendingUploads(s); var stored := s.(uploadedFilesData := Some(FilesMap(files)));
      svc.processUploads(files).Done? && svc.splitChunks(svc.processUploads(files).value).Done? ==>
        var chunks := svc.splitChunks(svc.processUploads(files).value).value;
        chunks != [] && HasKey(s.googleApiKey.value) && HasKey(s.cohereApiKey.value) && svc.buildFailure(chunks).Some? ==>
          UploadStep(s, svc) == UploadFailed(stored, svc.buildFailure(chunks).value)
    ensures var files := PendingUploads(s); var stored := s.(uploadedFilesData := Some(FilesMap(files)));
      svc.processUploads(files).Done? && svc.splitChunks(svc.processUploads(files).value).Done? ==>
        var chunks := svc.splitChunks(svc.processUploads(files).value).value;
        chunks != [] && HasKey(s.googleApiKey.value) && HasKey(s.cohereApiKey.value) && svc.buildFailure(chunks).None? ==>
          UploadStep(s, svc) ==
            Step(stored.(retriever := Some(Some(Embedding.Configure(chunks, s.googleApiKey.value.value, s.cohereApiKey.value.value,
                                                                    Embedding.DefaultK, Embedding.DefaultRerankTopN)))),
                 Toast(ToastText(|FilesMap(files)|)))
  {
  }

  /**
   * An upload succeeds exactly when extraction and splitting return, there
   * are chunks, both keys are non-empty and the retriever libraries do not
   * fail; the stored retriever then indexes exactly those chunks.
   */
  lemma UploadSucceeds(s: Session, svc: Services)
    requires Ready(s)
    ensures var files := PendingUploads(s); var r := UploadStep(s, svc);
      r.notice.Toast? <==>
        && files != []
        && svc.processUploads(files).Done?
        && svc.splitChunks(svc.processUploads(files).value).Done?
        && var chunks := svc.splitChunks(svc.processUploads(files).value).value;
           && chunks != [] && HasKey(s.googleApiKey.value) && HasKey(s.cohereApiKey.value)
           && svc.buildFailure(chunks).None?
           && r.session.retriever == Some(Some(Embedding.Configure(chunks,
                s.googleApiKey.value.value, s.cohereApiKey.value.value,
                Embedding.DefaultK, Embedding.DefaultRerankTopN)))
  {
    var files := PendingUploads(s);
    if files != [] && svc.processUploads(files).Done? && svc.splitChunks(svc.processUploads(files).value).Done? {
      var chunks := svc.splitChunks(svc.processUploads(files).value).value;
      Embedding.BuildSucceeds(chunks, s.googleApiKey.value, s.cohereApiKey.value,
                              Embedding.DefaultK, Embedding.DefaultRerankTopN, svc.buildFailure(chunks));
    }
  }

  /** What the assistant adds after the user's message, and what it shows. */
  datatype Reply = Reply(messages: seq<Message>, notice: Notice)

  /** The AI message of `ap.py`: text only, no sources. */
  function AiSays(text: string): Message {
    Message(Ai, text, None)
  }

  /**
   * The RAG branch: the answer in the selected mode; when that raises
   * `ResourceExhausted`, one retry in PDF-only mode whose answer follows the
   * busy warning. Any other exception, and any exception of the retry,
   * escapes.
   */
  function RagReply(input: string, h: Embedding.HybridRetriever, mode: string, svc: Services): (r: Reply)
    ensures |r.messages| <= 1
    ensures r.messages != [] ==> r.messages[0].role == Ai && r.notice == Silent
    ensures r.messages == [] ==> r.notice.Uncaught?
  {
    match Chat.GetRagResponse(input, Query(svc, h), svc.ragModel, mode)
    case Done(resp) => Reply([AiSays(resp.outputText)], Silent)
    case Raised(e) =>
      if !e.ResourceExhausted? then Reply([], Uncaught(e))
      else
        match Chat.GetRagResponse(input, Query(svc, h), svc.retryModel, FallbackMode)
        case Done(fallback) => Reply([AiSays(BusyWarning + fallback.outputText)], Silent)
        case Raised(again) => Reply([], Uncaught(again))
  }

  /**
   * The general branch without documents: the model's text; the apology
   * when its quota is exhausted; any other exception is shown as an error
   * and adds no message.
   */
  function GeneralReply(input: string, svc: Services): (r: Reply)
    ensures |r.messages| <= 1
    ensures r.messages != [] ==> r.messages[0].role == Ai && r.notice == Silent
    ensures r.messages == [] ==> r.notice.ErrorCause? && r.notice.prefix == CouldNotRespondPrefix
  {
    match svc.generalModel(input)
    case Done(text) => Reply([AiSays(text)], Silent)
    case Raised(e) =>
      if e.ResourceExhausted? then Reply([AiSays(Apology)], Silent)
      else Reply([], ErrorCause(CouldNotRespondPrefix, e))
  }

  /** The answer to a non-empty input: the canned greeting, the RAG branch with a retriever, the general one without. */
  function Respond(s: Session, input: string, svc: Services): (r: Reply)
    requires Ready(s)
    ensures |r.messages| <= 1
    ensures r.messages != [] ==> r.messages[0].role == Ai && r.notice == Silent
    ensures IsGreeting(input) ==> r == Reply([AiSays(GreetingReply)], Silent)
  {
    if IsGreeting(input) then Reply([AiSays(GreetingReply)], Silent)
    else
      match s.retriever.value
      case Some(h) => RagReply(input, h, s.searchMode.value, svc)
      case None => GeneralReply(input, svc)
  }

  /**
   * The chat-input branch of `main`: nothing for an empty input; otherwise
   * the raw input is stored as a user message before the answer. Only the
   * history changes; it gains the user message and at most one AI message.
   */
  function ChatStep(s: Session, input: string, svc: Services): (r: Step)
    requires Ready(s)
    ensures Ready(r.session)
    ensures input == "" ==> r == Step(s, Silent)
    ensures input != "" ==>
      var before := s.chatHistory.value; var after := r.session.chatHistory.value;
      r.session == s.(chatHistory := Some(after))
      && |before| + 1 <= |after| <= |before| + 2
      && after[..|before| + 1] == before + [Message(User, input, None)]
      && (|after| == |before| + 2 ==> after[|before| + 1].role == Ai)
  {
    if input == "" then Step(s, Silent)
    else
      var reply := Respond(s, input, svc);
      var asked := s.chatHistory.value + [Message(User, input, None)];
      assert (asked + reply.messages)[..|asked|] == asked;
      Step(Append(s, [Message(User, input, None)] + reply.messages), reply.notice)
  }

  /** A non-empty input is recorded, followed by the reply to it. */
  lemma ChatStepAnswers(s: Session, input: string, svc: Services)
    requires Ready(s) && input != ""
    ensures ChatStep(s, input, svc)
         == Step(Append(s, [Message(User, input, None)] + Respond(s, input, svc).messages), Respond(s, input, svc).notice)
  {
  }

  /**
   * A question that is not a greeting goes to the RAG branch, in the
   * selected mode, when a retriever is stored, and to the general model
   * otherwise.
   */
  lemma RespondRoutes(s: Session, input: string, svc: Services)
    requires Ready(s) && !IsGreeting(input)
    ensures s.retriever.value.Some? ==>
      Respond(s, input, svc) == RagReply(input, s.retriever.value.value, s.searchMode.value, svc)
    ensures s.retriever.value.None? ==> Respond(s, input, svc) == GeneralReply(input, svc)
  {
  }

  /** A greeting is answered from the canned text: retriever and models are never consulted. */
  lemma GreetingIgnoresServices(s: Session, input: string, svc1: Services, svc2: Services)
    requires Ready(s) && IsGreeting(input)
    ensures Respond(s, input, svc1) == Respond(s, input, svc2) == Reply([AiSays(GreetingReply)], Silent)
  {
  }

  /** An answer in the selected mode is recorded as it is, and the retry model is never called. */
  lemma FirstAnswerKept(input: string, h: Embedding.HybridRetriever, mode: string, svc: Services)
    requires Chat.GetRagResponse(input, Query(svc, h), svc.ragModel, mode).Done?
    ensures svc.query(h, input).Done?
    ensures RagReply(input, h, mode, svc) ==
      Reply([AiSays(svc.ragModel(Chat.RagPrompt(input, svc.query(h, input).value, mode)).value)], Silent)
    ensures forall retry :: RagReply(input, h, mode, svc.(retryModel := retry)) == RagReply(input, h, mode, svc)
  {
    assert Query(svc, h)(input) == svc.query(h, input);
  }

  /**
   * A quota error in the selected mode leads to exactly one more attempt,
   * in PDF-only mode with the retry model; its answer follows the busy
   * warning, and any exception it raises, a second quota error included,
   * escapes without an answer.
   */
  lemma RetryOnce(input: string, h: Embedding.HybridRetriever, mode: string, svc: Services)
    requires Chat.GetRagResponse(input, Query(svc, h), svc.ragModel, mode) == Raised(ResourceExhausted)
    ensures var retried := Chat.GetRagResponse(input, Query(svc, h), svc.retryModel, FallbackMode);
      && (retried.Done? ==> RagReply(input, h, mode, svc) == Reply([AiSays(BusyWarning + retried.value.outputText)], Silent))
      && (retried.Raised? ==> RagReply(input, h, mode, svc) == Reply([], Uncaught(retried.error)))
  {
  }

  /** The retry asks the retry model about the same retrieved documents, with the PDF-only prompt. */
  lemma RetryUsesPdfOnlyPrompt(input: string, h: Embedding.HybridRetriever, svc: Services)
    requires Chat.GetRagResponse(input, Query(svc, h), svc.retryModel, FallbackMode).Done?
    ensures svc.query(h, input).Done?
    ensures Chat.GetRagResponse(input, Query(svc, h), svc.retryModel, FallbackMode).value.outputText
         == svc.retryModel(Chat.RagPrompt(input, svc.query(h, input).value, FallbackMode)).value
    ensures Chat.SelectTemplate(FallbackMode) == Chat.TemplateOf(Chat.PdfOnly)
  {
    assert Query(svc, h)(input) == svc.query(h, input);
  }

  /** Any other exception of the first attempt escapes at once: the retry model is never called. */
  lemma OtherErrorsEscape(input: string, h: Embedding.HybridRetriever, mode: string, svc: Services)
    requires Chat.GetRagResponse(input, Query(svc, h), svc.ragModel, mode).Raised?
    requires Chat.GetRagResponse(input, Query(svc, h), svc.ragModel, mode).error != ResourceExhausted
    ensures RagReply(input, h, mode, svc)
         == Reply([], Uncaught(Chat.GetRagResponse(input, Query(svc, h), svc.ragModel, mode).error))
  {
  }

  /** The retried answer starts with the busy warning, which ends in a rule between blank lines, then the answer. */
  lemma BusyAnswerLayout(answer: string)
    ensures var m := BusyWarning + answer; var n := |BusyWarning|;
      m[..n] == BusyWarning && m[n..] == answer && n >= 7 && m[n - 7..n] == "\n\n---\n\n"
  {
    var m := BusyWarning + answer;
    var n := |BusyWarning|;
    assert m[..n] == BusyWarning;
    assert m[n..] == answer;
    assert BusyWarning[n - 7..] == "\n\n---\n\n";
    assert m[n - 7..n] == BusyWarning[n - 7..];
  }

  /** Without a retriever the general model answers; a quota error gives the apology, any other error no message. */
  lemma GeneralOutcomes(input: string, svc: Services)
    ensures svc.generalModel(input).Done? ==> GeneralReply(input, svc) == Reply([AiSays(svc.generalModel(input).value)], Silent)
    ensures svc.generalModel(input) == Raised(ResourceExhausted) ==> GeneralReply(input, svc) == Reply([AiSays(Apology)], Silent)
    ensures svc.generalModel(input).Raised? && svc.generalModel(input).error != ResourceExhausted ==>
      GeneralReply(input, svc) == Reply([], ErrorCause(CouldNotRespondPrefix, svc.generalModel(input).error))
  {
  }

  /**
   * `main` for one chat input: initialise, stop with an error when a key
   * is missing or empty, otherwise handle the input.
   */
  function ScriptRun(s: Session, env: Env, input: string, svc: Services): (r: Step)
    requires Consistent(s)
    ensures Ready(r.session)
    ensures var i := InitDefaults(s, env);
      !(HasKey(i.googleApiKey.value) && HasKey(i.cohereApiKey.value)) ==> r == Step(i, Error(MissingKeysMessage))
    ensures var i := InitDefaults(s, env);
      HasKey(i.googleApiKey.value) && HasKey(i.cohereApiKey.value) ==> r == ChatStep(i, input, svc)
  {
    var i := InitDefaults(s, env);
    if !HasKey(i.googleApiKey.value) || !HasKey(i.cohereApiKey.value) then Step(i, Error(MissingKeysMessage))
    else ChatStep(i, input, svc)
  }

  /** In a fresh session without a Cohere key no input is ever recorded or answered. */
  lemma MissingKeysStop(s: Session, env: Env, input: string, svc: Services)
    requires Consistent(s) && s.apiKeysLoaded.None? && !HasKey(env.cohereApiKey)
    ensures ScriptRun(s, env, input, svc) == Step(InitDefaults(s, env), Error(MissingKeysMessage))
  {
  }

  /** The reset button: every entry but the three key entries is deleted, then the session is initialised. */
  function ResetStep(s: Session, env: Env): (r: Session)
    requires Consistent(s)
    ensures Ready(r)
  {
    InitDefaults(KeysOnly(s), env)
  }

  /**
   * After a reset the session holds the three key entries (unchanged when
   * they had been loaded) and the five defaults, and nothing else: no
   * retriever, no stored files, no selected document.
   */
  lemma ResetKeepsOnlyKeys(s: Session, env: Env)
    requires Consistent(s)
    ensures var r := ResetStep(s, env);
      && (forall f :: Has(r, f) <==> IsKept(f) || IsDefaulted(f))
      && (s.apiKeysLoaded.Some? ==>
            r.apiKeysLoaded == s.apiKeysLoaded && r.googleApiKey == s.googleApiKey && r.cohereApiKey == s.cohereApiKey)
      && r.chatHistory == Some([Message(Ai, Welcome, None)])
      && r.retriever == Some(None)
      && r.searchMode == Some(DefaultMode)
      && r.uploadedFilesData == Some(map[])
      && r.selectedDocument == Some(None)
  {
    var r := ResetStep(s, env);
    forall f
      ensures Has(r, f) <==> IsKept(f) || IsDefaulted(f)
    {
      match f
      case Other(n) =>
      case _ =>
    }
  }

  /** Resetting twice is resetting once. */
  lemma ResetIdempotent(s: Session, env: Env)
    requires Consistent(s)
    ensures ResetStep(ResetStep(s, env), env) == ResetStep(s, env)
  {
  }

  /** `initialize_session_state` on the live session. */
  method InitializeSessionState(state: State, env: Env)
    modifies state
    ensures state.session == InitDefaults(old(state.session), env)
  {
    if state.session.apiKeysLoaded.None? {
      state.session := state.session.(googleApiKey := Some(env.geminiApiKey));
      state.session := state.session.(cohereApiKey := Some(env.cohereApiKey));
      state.session := state.session.(apiKeysLoaded := Some(true));
    }
    if state.session.chatHistory.None? {
      state.session := state.session.(chatHistory := Some([Message(Ai, Welcome, None)]));
    }
    if state.session.retriever.None? {
      state.session := state.session.(retriever := Some(None));
    }
    if state.session.searchMode.None? {
      state.session := state.session.(searchMode := Some(DefaultMode));
    }
    if state.session.uploadedFilesData.None? {
      state.session := state.session.(uploadedFilesData := Some(map[]));
    }
    if state.session.selectedDocument.None? {
      state.session := state.session.(selectedDocument := Some(None));
    }
  }

  /** The dictionary comprehension of the upload handler, one file at a time. */
  method CollectFiles(files: seq<UploadedFile>) returns (data: map<string, seq<byte>>)
    ensures data == FilesMap(files)
  {
    data := map[];
    var i := 0;
    while i < |files|
      invariant 0 <= i <= |files|
      invariant data == FilesMap(files[..i])
    {
      assert files[..i + 1][..i] == files[..i];
      data := data[files[i].name := files[i].data];
      i := i + 1;
    }
    assert files[..|files|] == files;
  }

  /** `handle_file_upload` on the live session. */
  method HandleFileUpload(state: State, svc: Services) returns (notice: Notice)
    requires Ready(state.session)
    modifies state
    ensures Step(state.session, notice) == UploadStep(old(state.session), svc)
  {
    var uploadedFiles := PendingUploads(state.session);
    if uploadedFiles == [] {
      return Silent;
    }
    var data := CollectFiles(uploadedFiles);
    state.session := state.session.(uploadedFilesData := Some(data));
    var failure: Exception;
    var rawDocs := svc.processUploads(uploadedFiles);
    if rawDocs.Done? {
      var textChunks := svc.splitChunks(rawDocs.value);
      if textChunks.Done? {
        if textChunks.value == [] {
          return Error(NoTextMessage);
        }
        var built := Embedding.CreateHybridRetriever(textChunks.value, state.session.googleApiKey.value,
          state.session.cohereApiKey.value, Embedding.DefaultK, Embedding.DefaultRerankTopN,
          svc.buildFailure(textChunks.value));
        if built.Done? {
          state.session := state.session.(retriever := Some(Some(built.value)));
          return Toast(ToastText(|state.session.uploadedFilesData.value|));
        }
        failure := built.error;
      } else {
        failure := textChunks.error;
      }
    } else {
      failure := rawDocs.error;
    }
    notice := ErrorCause(ProcessingErrorPrefix, failure);
    state.session := state.session.(retriever := Some(None));
    state.session := state.session.(uploadedFilesData := Some(map[]));
  }

  /** The reset button's loop and re-initialisation on the live session. */
  method ResetSession(state: State, env: Env)
    requires Consistent(state.session)
    modifies state
    ensures state.session == ResetStep(old(state.session), env)
  {
    state.DeleteAllButKeys();
    InitializeSessionState(state, env);
  }

  /** The `try`/`except` around the RAG call, with its single retry. */
  method AnswerFromDocuments(input: string, h: Embedding.HybridRetriever, mode: string, svc: Services)
    returns (reply: Reply)
    ensures reply == RagReply(input, h, mode, svc)
  {
    var response := Chat.GetRagResponse(input, Query(svc, h), svc.ragModel, mode);
    if response.Done? {
      return Reply([AiSays(response.value.outputText)], Silent);
    }
    if !response.error.ResourceExhausted? {
      return Reply([], Uncaught(response.error));
    }
    var fallbackResponse := Chat.GetRagResponse(input, Query(svc, h), svc.retryModel, FallbackMode);
    if fallbackResponse.Raised? {
      return Reply([], Uncaught(fallbackResponse.error));
    }
    var warningMessage := BusyWarning;
    reply := Reply([AiSays(warningMessage + fallbackResponse.value.outputText)], Silent);
  }

  /** The chat-input branch of `main` on the live session. */
  method HandleChatInput(state: State, input: string, svc: Services) returns (notice: Notice)
    requires Ready(state.session)
    modifies state
    ensures Step(state.session, notice) == ChatStep(old(state.session), input, svc)
  {
    notice := Silent;
    if input == "" {
      return;
    }
    var s := state.session;
    var question := Message(User, input, None);
    state.session := s.(chatHistory := Some(s.chatHistory.value + [question]));
    var reply: Reply;
    if IsGreeting(input) {
      reply := Reply([AiSays(GreetingReply)], Silent);
    } else if s.retriever.value.Some? {
      reply := AnswerFromDocuments(input, s.retriever.value.value, s.searchMode.value, svc);
    } else {
      reply := GeneralReply(input, svc);
    }
    assert reply == Respond(s, input, svc);
    Text.ConcatAssociative(s.chatHistory.value, [question], reply.messages);
    state.session := state.session.(chatHistory := Some(state.session.chatHistory.value + reply.messages));
    notice := reply.notice;
  }

  /** One run of `main` that receives a chat input. */
  method RunScript(state: State, env: Env, input: string, svc: Services) returns (notice: Notice)
    requires Consistent(state.session)
    modifies state
    ensures Step(state.session, notice) == ScriptRun(old(state.session), env, input, svc)
  {
    InitializeSessionState(state, env);
    if !HasKey(state.session.googleApiKey.value) || !HasKey(state.session.cohereApiKey.value) {
      return Error(MissingKeysMessage);
    }
    notice := HandleChatInput(state, input, svc);
  }
}
