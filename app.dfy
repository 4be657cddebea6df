/**
 * The session controller of `app.py`: the initialiser, the upload callback,
 * the reset button, and the handling of one chat input in `main`. Each
 * handler is a specification function from the session before to the
 * session after (and what it showed), and a method that updates a `State`
 * step by step and is proved to end in that session.
 */
module App {
  import opened Documents
  import opened Session
  import Text
  import Embedding
  import Chat

  const Welcome: string := "Hello! I am ManthanAI. Upload documents to begin your analysis."
  const GreetingReply: string := "Hello! How can I help with your files today?"
  const ReadyMessage: string := "Documents ready. Ask any question below."
  const NoTextMessage: string := "No text extracted. Please check your files."
  const ProcessingErrorPrefix: string := "Processing error: "
  const UploadFirstMessage: string := "Please upload documents first."
  const MissingKeysMessage: string := "Missing API keys. Please set them in your .env file."
  const DefaultMode: string := "Hybrid"

  /** The entries `initialize_session_state` gives a default value, besides the keys. */
  predicate IsDefaulted(f: Field) {
    f.ChatHistory? || f.Retriever? || f.ProcessedDocNames? || f.SearchMode?
  }

  /** A session the handlers can work on: the keys loaded and every entry they read present. */
  predicate Ready(s: Session) {
    Consistent(s) && s.apiKeysLoaded.Some? && s.chatHistory.Some? && s.retriever.Some?
    && s.processedDocNames.Some? && s.searchMode.Some?
  }

  /**
   * `initialize_session_state`: the two keys and the loaded flag when the
   * flag is absent, then a default for each of the four entries that is
   * absent. Nothing present is overwritten, except the two keys when they
   * are read again; the result is ready for the handlers.
   */
  function InitDefaults(s: Session, env: Env): (r: Session)
    ensures Consistent(s) ==> Ready(r)
    ensures s.apiKeysLoaded.Some? ==> Extends(r, s)
    ensures Extends(r, s.(googleApiKey := None, cohereApiKey := None))
    ensures s.apiKeysLoaded.None? ==>
      r.apiKeysLoaded == Some(true) && r.googleApiKey == Some(env.geminiApiKey)
      && r.cohereApiKey == Some(env.cohereApiKey)
    ensures s.chatHistory.None? ==> r.chatHistory == Some([Message(Ai, Welcome, None)])
    ensures s.retriever.None? ==> r.retriever == Some(None)
    ensures s.processedDocNames.None? ==> r.processedDocNames == Some([])
    ensures s.searchMode.None? ==> r.searchMode == Some(DefaultMode)
  {
    var loaded := s.apiKeysLoaded.Some?;
    s.(apiKeysLoaded := if loaded then s.apiKeysLoaded else Some(true),
       googleApiKey := if loaded then s.googleApiKey else Some(env.geminiApiKey),
       cohereApiKey := if loaded then s.cohereApiKey else Some(env.cohereApiKey),
       chatHistory := OrDefault(s.chatHistory, [Message(Ai, Welcome, None)]),
       retriever := OrDefault(s.retriever, None),
       processedDocNames := OrDefault(s.processedDocNames, []),
       searchMode := OrDefault(s.searchMode, DefaultMode))
  }

  /** The initialiser adds only the loaded flag and the keys (when the flag is absent) and the four defaults. */
  lemma InitKeys(s: Session, env: Env)
    requires Consistent(s)
    ensures forall f :: Has(InitDefaults(s, env), f) <==> Has(s, f) || IsDefaulted(f) || (s.apiKeysLoaded.None? && IsKept(f))
  {
    var r := InitDefaults(s, env);
    forall f
      ensures Has(r, f) <==> Has(s, f) || IsDefaulted(f) || (s.apiKeysLoaded.None? && IsKept(f))
    {
      match f
      case Other(n) =>
      case _ =>
    }
  }

  /** A ready session is left as it is. */
  lemma InitKeepsReady(s: Session, env: Env)
    requires Ready(s)
    ensures InitDefaults(s, env) == s
  {
  }

  /** Initialising twice is initialising once, whatever the environment says the second time. */
  lemma InitIdempotent(s: Session, env1: Env, env2: Env)
    requires Consistent(s)
    ensures InitDefaults(InitDefaults(s, env1), env2) == InitDefaults(s, env1)
  {
    InitKeepsReady(InitDefaults(s, env1), env2);
  }

  /** The uploaded files' names, in upload order. */
  function FileNames(files: seq<UploadedFile>): seq<string> {
    seq(|files|, i requires 0 <= i < |files| => files[i].name)
  }

  /** The `except` branch of the upload handler. */
  function UploadFailed(s: Session, e: Exception): Step {
    Step(s.(retriever := Some(None), processedDocNames := Some([])), ErrorCause(ProcessingErrorPrefix, e))
  }

  function SuccessText(count: nat): string {
    "Processed " + Text.IntToString(count) + " documents successfully."
  }

  /**
   * `handle_file_upload`: nothing without files; otherwise extraction,
   * splitting and the retriever build, where an empty chunk list shows an
   * error and changes nothing, any exception clears the retriever and the
   * names, and success stores the retriever and the file names and
   * announces it in the chat. Nothing else in the session changes.
   */
  function UploadStep(s: Session, svc: Services): (r: Step)
    requires Ready(s)
    ensures Ready(r.session)
    ensures r.session == s.(retriever := r.session.retriever, processedDocNames := r.session.processedDocNames,
                            chatHistory := r.session.chatHistory)
    ensures PendingUploads(s) == [] ==> r == Step(s, Silent)
  {
    var files := PendingUploads(s);
    if files == [] then Step(s, Silent)
    else match svc.processUploads(files)
      case Raised(e) => UploadFailed(s, e)
      case Done(raw) =>
        match svc.splitChunks(raw)
        case Raised(e) => UploadFailed(s, e)
        case Done(chunks) =>
          if chunks == [] then Step(s, Error(NoTextMessage))
          else
            match Embedding.Build(chunks, s.googleApiKey.value, s.cohereApiKey.value,
                                  Embedding.DefaultK, Embedding.DefaultRerankTopN, svc.buildFailure(chunks))
            case Raised(e) => UploadFailed(s, e)
            case Done(h) =>
              var stored := s.(retriever := Some(Some(h)), processedDocNames := Some(FileNames(files)));
              Step(Append(stored, [Message(Ai, ReadyMessage, None)]), Success(SuccessText(|files|)))
  }

  /**
   * What each step of an upload with files leads to: an exception from
   * extraction, splitting or the retriever build is a failure, which
   * clears the retriever and the names; no chunks leave the session as it
   * was with an error; a built retriever is stored with the uploaded names
   * in order and announced by one more AI message.
   */
  lemma UploadOutcomes(s: Session, svc: Services)
    requires Ready(s) && PendingUploads(s) != []
    ensures var files := PendingUploads(s);
      svc.processUploads(files).Raised? ==>
        UploadStep(s, svc) == UploadFailed(s, svc.processUploads(files).error)
    ensures var files := PendingUploads(s);
      svc.processUploads(files).Done? && svc.splitChunks(svc.processUploads(files).value).Raised? ==>
        UploadStep(s, svc) == UploadFailed(s, svc.splitChunks(svc.processUploads(files).value).error)
    ensures var files := PendingUploads(s);
      svc.processUploads(files).Done? && svc.splitChunks(svc.processUploads(files).value) == Done([]) ==>
        UploadStep(s, svc) == Step(s, Error(NoTextMessage))
    ensures var files := PendingUploads(s);
      svc.processUploads(files).Done? && svc.splitChunks(svc.processUploads(files).value).Done? ==>
        var chunks := svc.splitChunks(svc.processUploads(files).value).value;
        chunks != [] && !(HasKey(s.googleApiKey.value) && HasKey(s.cohereApiKey.value)) ==>
          UploadStep(s, svc) == UploadFailed(s, ValueError(Embedding.MissingKeysMessage))
    ensures var files := PendingUploads(s);
      svc.processUploads(files).Done? && svc.splitChunks(svc.processUploads(files).value).Done? ==>
        var chunks := svc.splitChunks(svc.processUploads(files).value).value;
        chunks != [] && HasKey(s.googleApiKey.value) && HasKey(s.cohereApiKey.value) && svc.buildFailure(chunks).Some? ==>
          UploadStep(s, svc) == UploadFailed(s, svc.buildFailure(chunks).value)
    ensures var files := PendingUploads(s);
      svc.processUploads(files).Done? && svc.splitChunks(svc.processUploads(files).value).Done? ==>
        var chunks := svc.splitChunks(svc.processUploads(files).value).value;
        chunks != [] && HasKey(s.googleApiKey.value) && HasKey(s.cohereApiKey.value) && svc.buildFailure(chunks).None? ==>
          UploadStep(s, svc) ==
            Step(s.(retriever := Some(Some(Embedding.Configure(chunks, s.googleApiKey.value.value, s.cohereApiKey.value.value,
                                                               Embedding.DefaultK, Embedding.DefaultRerankTopN))),
                    processedDocNames := Some(FileNames(files)),
                    chatHistory := Some(s.chatHistory.value + [Message(Ai, ReadyMessage, None)])),
                 Success(SuccessText(|files|)))
  {
  }

  /**
   * An upload succeeds exactly when extraction and splitting return, there
   * are chunks, both keys are non-empty and the retriever libraries do not
   * fail; the stored retriever then indexes exactly those chunks with the
   * default configuration.
   */
  lemma UploadSucceeds(s: Session, svc: Services)
    requires Ready(s)
    ensures var files := PendingUploads(s); var r := UploadStep(s, svc);
      r.notice.Success? <==>
        && files != []
        && svc.processUploads(files).Done?
        && svc.splitChunks(svc.processUploads(files).value).Done?
        && var chunks := svc.splitChunks(svc.processUploads(files).value).value;
           && chunks != [] && HasKey(s.googleApiKey.value) && HasKey(s.cohereApiKey.value)
           && svc.buildFailure(chunks).None?
           && r.session.retriever == Some(Some(Embedding.Configure(chunks,
                s.googleApiKey.value.value, s.cohereApiKey.value.value,
                Embedding.DefaultK, Embedding.DefaultRerankTopN)))
  {
    var files := PendingUploads(s);
    if files != [] && svc.processUploads(files).Done? && svc.splitChunks(svc.processUploads(files).value).Done? {
      var chunks := svc.splitChunks(svc.processUploads(files).value).value;
      Embedding.BuildSucceeds(chunks, s.googleApiKey.value, s.cohereApiKey.value,
                              Embedding.DefaultK, Embedding.DefaultRerankTopN, svc.buildFailure(chunks));
    }
  }

  /** What the assistant adds after the user's message, and what it shows. */
  datatype Reply = Reply(messages: seq<Message>, notice: Notice)

  /**
   * The answer to a non-empty input: the canned greeting, a warning without
   * a retriever, or the RAG answer with its sources; an exception from the
   * chain escapes with no answer.
   */
  function Respond(s: Session, input: string, svc: Services): (r: Reply)
    requires Ready(s)
    ensures |r.messages| <= 1
    ensures r.messages != [] ==> r.messages[0].role == Ai && r.notice == Silent
    ensures IsGreeting(input) ==> r == Reply([Message(Ai, GreetingReply, None)], Silent)
  {
    if IsGreeting(input) then Reply([Message(Ai, GreetingReply, None)], Silent)
    else
      match s.retriever.value
      case None => Reply([], Warning(UploadFirstMessage))
      case Some(h) =>
        match Chat.GetRagResponse(input, Query(svc, h), svc.ragModel, s.searchMode.value)
        case Raised(e) => Reply([], Uncaught(e))
        case Done(resp) => Reply([Message(Ai, resp.outputText, Some(resp.sourceDocuments))], Silent)
  }

  /**
   * The chat-input branch of `main`: nothing for an empty input; otherwise
   * the raw input is stored as a user message before the answer, so it
   * stays even when the chain raises. Only the history changes; it gains
   * the user message and at most one AI message.
   */
  function ChatStep(s: Session, input: string, svc: Services): (r: Step)
    requires Ready(s)
    ensures Ready(r.session)
    ensures input == "" ==> r == Step(s, Silent)
    ensures input != "" ==>
      var before := s.chatHistory.value; var after := r.session.chatHistory.value;
      r.session == s.(chatHistory := Some(after))
      && |before| + 1 <= |after| <= |before| + 2
      && after[..|before| + 1] == before + [Message(User, input, None)]
      && (|after| == |before| + 2 ==> after[|before| + 1].role == Ai)
  {
    if input == "" then Step(s, Silent)
    else
      var reply := Respond(s, input, svc);
      var asked := s.chatHistory.value + [Message(User, input, None)];
      assert (asked + reply.messages)[..|asked|] == asked;
      Step(Append(s, [Message(User, input, None)] + reply.messages), reply.notice)
  }

  /** A non-empty input is recorded, followed by the reply to it. */
  lemma ChatStepAnswers(s: Session, input: string, svc: Services)
    requires Ready(s) && input != ""
    ensures ChatStep(s, input, svc)
         == Step(Append(s, [Message(User, input, None)] + Respond(s, input, svc).messages), Respond(s, input, svc).notice)
  {
  }

  /** A greeting is answered from the canned text: retriever and model are never consulted. */
  lemma GreetingIgnoresServices(s: Session, input: string, svc1: Services, svc2: Services)
    requires Ready(s) && IsGreeting(input)
    ensures ChatStep(s, input, svc1) == ChatStep(s, input, svc2)
    ensures ChatStep(s, input, svc1).session.chatHistory
         == Some(s.chatHistory.value + [Message(User, input, None), Message(Ai, GreetingReply, None)])
  {
    GreetingIsNotEmpty(input);
    ChatStepAnswers(s, input, svc1);
    ChatStepAnswers(s, input, svc2);
    assert [Message(User, input, None)] + [Message(Ai, GreetingReply, None)]
        == [Message(User, input, None), Message(Ai, GreetingReply, None)];
  }

  /** Without a retriever a question gets a warning and no answer. */
  lemma NoRetrieverWarns(s: Session, input: string, svc: Services)
    requires Ready(s) && input != "" && !IsGreeting(input) && s.retriever == Some(None)
    ensures ChatStep(s, input, svc) == Step(Append(s, [Message(User, input, None)]), Warning(UploadFirstMessage))
  {
    ChatStepAnswers(s, input, svc);
    assert [Message(User, input, None)] + [] == [Message(User, input, None)];
  }

  /**
   * With a retriever, when the retriever and the model both answer, exactly
   * one AI message is added: the model's text for the prompt built from the
   * retrieved documents in the selected mode, with those documents as its
   * sources, and nothing is shown.
   */
  lemma RagAnswerRecorded(s: Session, input: string, svc: Services)
    requires Ready(s) && !IsGreeting(input) && s.retriever.value.Some?
    requires svc.query(s.retriever.value.value, input).Done?
    requires svc.ragModel(Chat.RagPrompt(input, svc.query(s.retriever.value.value, input).value, s.searchMode.value)).Done?
    ensures var docs := svc.query(s.retriever.value.value, input).value;
      Respond(s, input, svc)
      == Reply([Message(Ai, svc.ragModel(Chat.RagPrompt(input, docs, s.searchMode.value)).value, Some(docs))], Silent)
  {
    var h := s.retriever.value.value;
    assert Query(svc, h)(input) == svc.query(h, input);
  }

  /** An exception from the chain escapes the script with no answer; the question stays in the history. */
  lemma RagFailureEscapes(s: Session, input: string, svc: Services)
    requires Ready(s) && input != "" && !IsGreeting(input) && s.retriever.value.Some?
    requires Chat.GetRagResponse(input, Query(svc, s.retriever.value.value), svc.ragModel, s.searchMode.value).Raised?
    ensures ChatStep(s, input, svc) == Step(Append(s, [Message(User, input, None)]),
      Uncaught(Chat.GetRagResponse(input, Query(svc, s.retriever.value.value), svc.ragModel, s.searchMode.value).error))
  {
    ChatStepAnswers(s, input, svc);
    assert [Message(User, input, None)] + [] == [Message(User, input, None)];
  }

  /**
   * `main` for one chat input: initialise, stop with an error when a key
   * is missing or empty, otherwise handle the input.
   */
  function ScriptRun(s: Session, env: Env, input: string, svc: Services): (r: Step)
    requires Consistent(s)
    ensures Ready(r.session)
    ensures var i := InitDefaults(s, env);
      !(HasKey(i.googleApiKey.value) && HasKey(i.cohereApiKey.value)) ==> r == Step(i, Error(MissingKeysMessage))
    ensures var i := InitDefaults(s, env);
      HasKey(i.googleApiKey.value) && HasKey(i.cohereApiKey.value) ==> r == ChatStep(i, input, svc)
  {
    var i := InitDefaults(s, env);
    if !HasKey(i.googleApiKey.value) || !HasKey(i.cohereApiKey.value) then Step(i, Error(MissingKeysMessage))
    else ChatStep(i, input, svc)
  }

  /** In a fresh session without a Gemini key no input is ever recorded or answered. */
  lemma MissingKeysStop(s: Session, env: Env, input: string, svc: Services)
    requires Consistent(s) && s.apiKeysLoaded.None? && !HasKey(env.geminiApiKey)
    ensures ScriptRun(s, env, input, svc) == Step(InitDefaults(s, env), Error(MissingKeysMessage))
  {
  }

  /** The reset button: every entry but the three key entries is deleted, then the session is initialised. */
  function ResetStep(s: Session, env: Env): (r: Session)
    requires Consistent(s)
    ensures Ready(r)
  {
    InitDefaults(KeysOnly(s), env)
  }

  /**
   * After a reset the session holds the three key entries (unchanged when
   * they had been loaded) and the four defaults, and nothing else: the
   * history is the welcome message alone, there is no retriever and no
   * name, and the mode is back to Hybrid.
   */
  lemma ResetKeepsOnlyKeys(s: Session, env: Env)
    requires Consistent(s)
    ensures var r := ResetStep(s, env);
      && (forall f :: Has(r, f) <==> IsKept(f) || IsDefaulted(f))
      && (s.apiKeysLoaded.Some? ==>
            r.apiKeysLoaded == s.apiKeysLoaded && r.googleApiKey == s.googleApiKey && r.cohereApiKey == s.cohereApiKey)
      && r.chatHistory == Some([Message(Ai, Welcome, None)])
      && r.retriever == Some(None)
      && r.processedDocNames == Some([])
      && r.searchMode == Some(DefaultMode)
  {
    var r := ResetStep(s, env);
    forall f
      ensures Has(r, f) <==> IsKept(f) || IsDefaulted(f)
    {
      match f
      case Other(n) =>
      case _ =>
    }
  }

  /** Resetting twice is resetting once. */
  lemma ResetIdempotent(s: Session, env: Env)
    requires Consistent(s)
    ensures ResetStep(ResetStep(s, env), env) == ResetStep(s, env)
  {
  }

  /** `initialize_session_state` on the live session. */
  method InitializeSessionState(state: State, env: Env)
    modifies state
    ensures state.session == InitDefaults(old(state.session), env)
  {
    if state.session.apiKeysLoaded.None? {
      state.session := state.session.(googleApiKey := Some(env.geminiApiKey));
      state.session := state.session.(cohereApiKey := Some(env.cohereApiKey));
      state.session := state.session.(apiKeysLoaded := Some(true));
    }
    if state.session.chatHistory.None? {
      state.session := state.session.(chatHistory := Some([Message(Ai, Welcome, None)]));
    }
    if state.session.retriever.None? {
      state.session := state.session.(retriever := Some(None));
    }
    if state.session.processedDocNames.None? {
      state.session := state.session.(processedDocNames := Some([]));
    }
    if state.session.searchMode.None? {
      state.session := state.session.(searchMode := Some(DefaultMode));
    }
  }

  /** `handle_file_upload` on the live session. */
  method HandleFileUpload(state: State, svc: Services) returns (notice: Notice)
    requires Ready(state.session)
    modifies state
    ensures Step(state.session, notice) == UploadStep(old(state.session), svc)
  {
    var uploadedFiles := PendingUploads(state.session);
    if uploadedFiles == [] {
      return Silent;
    }
    var failure: Exception;
    var rawDocs := svc.processUploads(uploadedFiles);
    if rawDocs.Done? {
      var textChunks := svc.splitChunks(rawDocs.value);
      if textChunks.Done? {
        if textChunks.value == [] {
          return Error(NoTextMessage);
        }
        var built := Embedding.CreateHybridRetriever(textChunks.value, state.session.googleApiKey.value,
          state.session.cohereApiKey.value, Embedding.DefaultK, Embedding.DefaultRerankTopN,
          svc.buildFailure(textChunks.value));
        if built.Done? {
          state.session := state.session.(retriever := Some(Some(built.value)));
          state.session := state.session.(processedDocNames := Some(FileNames(uploadedFiles)));
          notice := Success(SuccessText(|uploadedFiles|));
          state.session := state.session.(chatHistory :=
            Some(state.session.chatHistory.value + [Message(Ai, ReadyMessage, None)]));
          return;
        }
        failure := built.error;
      } else {
        failure := textChunks.error;
      }
    } else {
      failure := rawDocs.error;
    }
    notice := ErrorCause(ProcessingErrorPrefix, failure);
    state.session := state.session.(retriever := Some(None));
    state.session := state.session.(processedDocNames := Some([]));
  }

  /** The reset button's loop and re-initialisation on the live session. */
  method ResetSession(state: State, env: Env)
    requires Consistent(state.session)
    modifies state
    ensures state.session == ResetStep(old(state.session), env)
  {
    state.DeleteAllButKeys();
    InitializeSessionState(state, env);
  }

  /** The chat-input branch of `main` on the live session. */
  method HandleChatInput(state: State, input: string, svc: Services) returns (notice: Notice)
    requires Ready(state.session)
    modifies state
    ensures Step(state.session, notice) == ChatStep(old(state.session), input, svc)
  {
    notice := Silent;
    if input == "" {
      return;
    }
    var s := state.session;
    var question := Message(User, input, None);
    state.session := s.(chatHistory := Some(s.chatHistory.value + [question]));
    var answer: seq<Message> := [];
    if IsGreeting(input) {
      answer := [Message(Ai, GreetingReply, None)];
    } else if s.retriever.value.None? {
      notice := Warning(UploadFirstMessage);
    } else {
      var retriever := s.retriever.value.value;
      var response := Chat.GetRagResponse(input, Query(svc, retriever), svc.ragModel, s.searchMode.value);
      if response.Raised? {
        assert Respond(s, input, svc) == Reply([], Uncaught(response.error));
        assert [question] + [] == [question];
        return Uncaught(response.error);
      }
      answer := [Message(Ai, response.value.outputText, Some(response.value.sourceDocuments))];
    }
    assert Respond(s, input, svc) == Reply(answer, notice);
    Text.ConcatAssociative(s.chatHistory.value, [question], answer);
    state.session := state.session.(chatHistory := Some(state.session.chatHistory.value + answer));
    assert state.session == Append(s, [question] + answer);
  }

  /** One run of `main` that receives a chat input. */
  method RunScript(state: State, env: Env, input: string, svc: Services) returns (notice: Notice)
    requires Consistent(state.session)
    modifies state
    ensures Step(state.session, notice) == ScriptRun(old(state.session), env, input, svc)
  {
    InitializeSessionState(state, env);
    if !HasKey(state.session.googleApiKey.value) || !HasKey(state.session.cohereApiKey.value) {
      return Error(MissingKeysMessage);
    }
    notice := HandleChatInput(state, input, svc);
  }
}
