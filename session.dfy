/**
 * What both Streamlit front ends (`app.py` and `ap.py`) share: the session
 * state, the chat messages it holds, the external calls a handler makes (as
 * oracles), what a handler shows the user, the greeting test, and the loop
 * that deletes every key but the three key entries.
 */
module Session {
  import opened Documents
  import Text
  import Embedding

  newtype byte = x: int | 0 <= x < 256

  datatype Role = User | Ai

  /** A chat-history entry; `sources` is the optional `"sources"` entry of the dict. */
  datatype Message = Message(role: Role, content: string, sources: Option<seq<Document>>)

  /** A file from the uploader widget: its `.name` and its `getvalue()` bytes. */
  datatype UploadedFile = UploadedFile(name: string, data: seq<byte>)

  /**
   * `st.session_state`. Each key the code uses has a field that is `None`
   * while the key is absent and `Some(v)` while it holds `v`; `others` holds
   * the names of any further keys (other widgets' state). The API keys hold
   * what `os.getenv` returned, itself `None` for an unset variable.
   */
  datatype Session = Session(
    apiKeysLoaded: Option<bool>,
    googleApiKey: Option<Option<string>>,
    cohereApiKey: Option<Option<string>>,
    chatHistory: Option<seq<Message>>,
    retriever: Option<Option<Embedding.HybridRetriever>>,
    processedDocNames: Option<seq<string>>,
    searchMode: Option<string>,
    uploadedFilesData: Option<map<string, seq<byte>>>,
    selectedDocument: Option<Option<string>>,
    fileUploaderKey: Option<seq<UploadedFile>>,
    others: set<string>)

  /**
   * A key of the session, by its Python name: `api_keys_loaded`,
   * `google_api_key`, `cohere_api_key`, `chat_history`, `retriever`,
   * `processed_doc_names`, `search_mode`, `uploaded_files_data`,
   * `selected_document`, `file_uploader_key`, or any other name.
   */
  datatype Field =
    | ApiKeysLoaded | GoogleApiKey | CohereApiKey | ChatHistory | Retriever
    | ProcessedDocNames | SearchMode | UploadedFilesData | SelectedDocument | FileUploaderKey
    | Other(name: string)

  /** The three entries the reset button keeps. */
  predicate IsKept(f: Field) {
    f.ApiKeysLoaded? || f.GoogleApiKey? || f.CohereApiKey?
  }

  /** Whether `f in st.session_state`. */
  predicate Has(s: Session, f: Field) {
    match f
    case ApiKeysLoaded => s.apiKeysLoaded.Some?
    case GoogleApiKey => s.googleApiKey.Some?
    case CohereApiKey => s.cohereApiKey.Some?
    case ChatHistory => s.chatHistory.Some?
    case Retriever => s.retriever.Some?
    case ProcessedDocNames => s.processedDocNames.Some?
    case SearchMode => s.searchMode.Some?
    case UploadedFilesData => s.uploadedFilesData.Some?
    case SelectedDocument => s.selectedDocument.Some?
    case FileUploaderKey => s.fileUploaderKey.Some?
    case Other(n) => n in s.others
  }

  /** Every key the code names. */
  const KnownFields: set<Field> := {ApiKeysLoaded, GoogleApiKey, CohereApiKey, ChatHistory, Retriever,
    ProcessedDocNames, SearchMode, UploadedFilesData, SelectedDocument, FileUploaderKey}

  /** `st.session_state.keys()`. */
  function Keys(s: Session): set<Field> {
    (set f | f in KnownFields && Has(s, f)) + (set n | n in s.others :: Other(n))
  }

  /** The keys are exactly the entries present. */
  lemma KeysArePresent(s: Session)
    ensures forall f :: f in Keys(s) <==> Has(s, f)
  {
    forall f
      ensures f in Keys(s) <==> Has(s, f)
    {
      if f.Other? {
        assert f in Keys(s) <==> f.name in s.others;
      } else {
        assert f in KnownFields;
      }
    }
  }

  /** `del st.session_state[f]`. */
  function Without(s: Session, f: Field): Session {
    match f
    case ApiKeysLoaded => s.(apiKeysLoaded := None)
    case GoogleApiKey => s.(googleApiKey := None)
    case CohereApiKey => s.(cohereApiKey := None)
    case ChatHistory => s.(chatHistory := None)
    case Retriever => s.(retriever := None)
    case ProcessedDocNames => s.(processedDocNames := None)
    case SearchMode => s.(searchMode := None)
    case UploadedFilesData => s.(uploadedFilesData := None)
    case SelectedDocument => s.(selectedDocument := None)
    case FileUploaderKey => s.(fileUploaderKey := None)
    case Other(n) => s.(others := s.others - {n})
  }

  /** The session with every entry whose key is in `gone` deleted. */
  function Deleting(s: Session, gone: set<Field>): Session {
    Session(
      if ApiKeysLoaded in gone then None else s.apiKeysLoaded,
      if GoogleApiKey in gone then None else s.googleApiKey,
      if CohereApiKey in gone then None else s.cohereApiKey,
      if ChatHistory in gone then None else s.chatHistory,
      if Retriever in gone then None else s.retriever,
      if ProcessedDocNames in gone then None else s.processedDocNames,
      if SearchMode in gone then None else s.searchMode,
      if UploadedFilesData in gone then None else s.uploadedFilesData,
      if SelectedDocument in gone then None else s.selectedDocument,
      if FileUploaderKey in gone then None else s.fileUploaderKey,
      set n | n in s.others && Other(n) !in gone)
  }

  /** The session with only the three key entries left, as they were. */
  function KeysOnly(s: Session): (r: Session)
    ensures forall g :: Has(r, g) <==> Has(s, g) && IsKept(g)
  {
    Session(s.apiKeysLoaded, s.googleApiKey, s.cohereApiKey, None, None, None, None, None, None, None, {})
  }

  /** Deleting one more key, one at a time. */
  lemma DeletingStep(s: Session, gone: set<Field>, f: Field)
    ensures Without(Deleting(s, gone), f) == Deleting(s, gone + {f})
  {
    if f.Other? {
      assert Deleting(s, gone + {f}).others == Deleting(s, gone).others - {f.name};
    }
  }

  /** Deleting every present key that is not kept leaves the keys alone. */
  lemma DeletingAllButKept(s: Session, gone: set<Field>)
    requires forall f :: Has(s, f) && !IsKept(f) ==> f in gone
    requires forall f :: f in gone ==> !IsKept(f)
    ensures Deleting(s, gone) == KeysOnly(s)
  {
    var d := Deleting(s, gone);
    assert d.others == {} by {
      forall n | n in d.others
        ensures false
      {
        assert Has(s, Other(n));
      }
    }
  }

  /**
   * The invariant of the session: the two API keys are present once
   * `api_keys_loaded` is, since the three are only ever set, and kept,
   * together.
   */
  predicate Consistent(s: Session) {
    s.apiKeysLoaded.Some? ==> s.googleApiKey.Some? && s.cohereApiKey.Some?
  }

  /** `r` still holds every entry `s` holds, with the same value. */
  predicate Extends(r: Session, s: Session) {
    && (s.apiKeysLoaded.Some? ==> r.apiKeysLoaded == s.apiKeysLoaded)
    && (s.googleApiKey.Some? ==> r.googleApiKey == s.googleApiKey)
    && (s.cohereApiKey.Some? ==> r.cohereApiKey == s.cohereApiKey)
    && (s.chatHistory.Some? ==> r.chatHistory == s.chatHistory)
    && (s.retriever.Some? ==> r.retriever == s.retriever)
    && (s.processedDocNames.Some? ==> r.processedDocNames == s.processedDocNames)
    && (s.searchMode.Some? ==> r.searchMode == s.searchMode)
    && (s.uploadedFilesData.Some? ==> r.uploadedFilesData == s.uploadedFilesData)
    && (s.selectedDocument.Some? ==> r.selectedDocument == s.selectedDocument)
    && (s.fileUploaderKey.Some? ==> r.fileUploaderKey == s.fileUploaderKey)
    && s.others <= r.others
  }

  /** `if key not in st.session_state: st.session_state.key = d`. */
  function OrDefault<T>(o: Option<T>, d: T): Option<T>
  {
    if o.Some? then o else Some(d)
  }

  /** `chat_history.append(m)` for each message of `ms` in turn. */
  function Append(s: Session, ms: seq<Message>): Session
    requires s.chatHistory.Some?
  {
    s.(chatHistory := Some(s.chatHistory.value + ms))
  }

  /** `st.session_state.get('file_uploader_key')`, `[]` when absent. */
  function PendingUploads(s: Session): seq<UploadedFile> {
    if s.fileUploaderKey.Some? then s.fileUploaderKey.value else []
  }

  /** The variables `os.getenv` reads, after `load_dotenv`. */
  datatype Env = Env(geminiApiKey: Option<string>, cohereApiKey: Option<string>)

  /**
   * The calls into code outside the core: `process_uploaded_files`,
   * `get_text_chunks`, whether the retriever libraries fail on the chunks,
   * the retriever's `invoke`, the RAG chat model, the same model when
   * `ap.py` calls it a second time in one run (it may answer differently),
   * and the general chat model of `ap.py`.
   */
  datatype Services = Services(
    processUploads: seq<UploadedFile> -> Outcome<seq<Document>>,
    splitChunks: seq<Document> -> Outcome<seq<Document>>,
    buildFailure: seq<Document> -> Option<Exception>,
    query: (Embedding.HybridRetriever, string) -> Outcome<seq<Document>>,
    ragModel: string -> Outcome<string>,
    retryModel: string -> Outcome<string>,
    generalModel: string -> Outcome<string>)

  /** The retriever as the chain sees it: a function from question to documents. */
  function Query(svc: Services, h: Embedding.HybridRetriever): string -> Outcome<seq<Document>> {
    q => svc.query(h, q)
  }

  /**
   * What a handler shows: nothing, `st.warning`, `st.error` with a fixed
   * text or with a prefix followed by the exception, `st.success`,
   * `st.toast`, or an exception that escapes the handler.
   */
  datatype Notice =
    | Silent
    | Warning(text: string)
    | Error(text: string)
    | ErrorCause(prefix: string, cause: Exception)
    | Success(text: string)
    | Toast(text: string)
    | Uncaught(cause: Exception)

  /** The session after a handler, and what it showed. */
  datatype Step = Step(session: Session, notice: Notice)

  const Greetings: set<string> := {"hi", "hello", "hey"}

  /** `user_input.lower().strip() in greetings`. */
  predicate IsGreeting(input: string) {
    Text.Strip(Text.Lower(input)) in Greetings
  }

  /**
   * Surrounding white space and letter case do not matter: an input whose
   * lower-case form is one of the greetings, with any white space around
   * it, is a greeting.
   */
  lemma GreetingModuloSpaceAndCase(w1: string, u: string, w2: string)
    requires Text.AllSpace(w1) && Text.AllSpace(w2)
    ensures IsGreeting(w1 + u + w2) <==> IsGreeting(u)
    ensures Text.Lower(u) in Greetings ==> IsGreeting(w1 + u + w2)
  {
    Text.StripLowerSurrounded(w1, u, w2);
    if Text.Lower(u) in Greetings {
      GreetingStripped(Text.Lower(u));
    }
  }

  /** The greetings have no surrounding white space. */
  lemma GreetingStripped(g: string)
    requires g in Greetings
    ensures Text.Strip(g) == g
  {
    assert g[0] == 'h' && (g[|g| - 1] == 'i' || g[|g| - 1] == 'o' || g[|g| - 1] == 'y');
    Text.StripTrimmed(g);
  }

  /** A greeting is never the empty input. */
  lemma GreetingIsNotEmpty(input: string)
    requires IsGreeting(input)
    ensures input != ""
  {
    var n := Text.Strip(Text.Lower(input));
    assert |n| <= |input|;
    GreetingLength(n);
  }

  lemma GreetingLength(g: string)
    requires g in Greetings
    ensures |g| >= 2
  {
  }

  /** The greeting test looks only at the lower-cased, stripped input. */
  lemma GreetingIgnoresCaseAndSpace(input: string)
    ensures IsGreeting(input) <==> IsGreeting(Text.Strip(Text.Lower(input)))
  {
    var core := Text.Strip(Text.Lower(input));
    Text.StripLowerFixed(input);
    assert Text.Strip(Text.Lower(core)) == core;
  }

  /** `st.session_state`, updated in place by the handlers. */
  class State {
    var session: Session

    constructor (initial: Session)
      ensures session == initial
    {
      session := initial;
    }

    /**
     * `for key in list(st.session_state.keys()): if key not in [...]: del
     * st.session_state[key]`, keeping the three key entries. The snapshot of
     * the keys is visited in an unspecified order; the result does not
     * depend on it.
     */
    method DeleteAllButKeys()
      modifies this
      ensures session == KeysOnly(old(session))
    {
      var keys := Keys(session);
      var remaining := keys;
      var gone: set<Field> := {};
      while remaining != {}
        invariant remaining <= keys == Keys(old(session))
        invariant forall f :: f in keys && f !in remaining && !IsKept(f) ==> f in gone
        invariant forall f :: f in gone ==> !IsKept(f)
        invariant session == Deleting(old(session), gone)
        decreases remaining
      {
        var key :| key in remaining;
        if !IsKept(key) {
          DeletingStep(old(session), gone, key);
          session := Without(session, key);
          gone := gone + {key};
        }
        remaining := remaining - {key};
      }
      KeysArePresent(old(session));
      DeletingAllButKept(old(session), gone);
    }
  }
}
