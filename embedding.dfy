/**
 * `create_hybrid_retriever` in `backend/embedding.py`: the two guards, then
 * the configuration of a keyword (BM25) retriever and a vector (FAISS)
 * retriever sharing one `k`, an equally weighted ensemble over them, and a
 * re-ranker keeping `rerank_top_n` documents. The libraries' own work
 * (embedding, indexing, scoring, re-ranking) is not modelled: a failure of
 * it is an oracle outcome.
 */
module Embedding {
  import opened Documents

  const DefaultK: int := 10
  const DefaultRerankTopN: int := 4

  const EmptyDocsMessage: string := "Cannot create retriever from an empty list of documents."
  const MissingKeysMessage: string := "Google and Cohere API keys must be provided."

  const EmbeddingModel: string := "models/embedding-001"
  const RerankModel: string := "rerank-english-v3.0"

  /** The `k` a BM25 retriever has before the code sets it (the library's default). */
  const LibraryKeywordK: int := 4

  /** A base retriever of the ensemble and the number of documents it fetches. */
  datatype Member = Keyword(k: int) | Vector(k: int)

  /**
   * The configured compression retriever: the indexed chunks, the ensemble's
   * members with their weights, the re-ranker's `top_n`, and the model and
   * key each service was given.
   */
  datatype HybridRetriever = HybridRetriever(
    corpus: seq<Document>,
    members: seq<Member>,
    weights: seq<real>,
    rerankTopN: int,
    embeddingModel: string,
    embeddingKey: string,
    rerankModel: string,
    rerankKey: string)

  /** The configuration built once both guards pass. */
  function Configure(docs: seq<Document>, googleKey: string, cohereKey: string, k: int, rerankTopN: int): (r: HybridRetriever)
    ensures r.corpus == docs && r.rerankTopN == rerankTopN
    ensures r.members == [Keyword(k), Vector(k)] && r.weights == [0.5, 0.5]
    ensures r.embeddingModel == EmbeddingModel && r.embeddingKey == googleKey
    ensures r.rerankModel == RerankModel && r.rerankKey == cohereKey
  {
    HybridRetriever(docs, [Keyword(k), Vector(k)], [0.5, 0.5], rerankTopN,
                    EmbeddingModel, googleKey, RerankModel, cohereKey)
  }

  /**
   * The outcome of `create_hybrid_retriever`: `failure` is what the
   * embedding, indexing and re-ranking libraries raise, if anything, once
   * the guards have passed.
   */
  function Build(docs: seq<Document>, googleKey: Option<string>, cohereKey: Option<string>,
                 k: int, rerankTopN: int, failure: Option<Exception>): (r: Outcome<HybridRetriever>)
    ensures |docs| == 0 ==> r == Raised(ValueError(EmptyDocsMessage))
    ensures |docs| > 0 && !(HasKey(googleKey) && HasKey(cohereKey)) ==> r == Raised(ValueError(MissingKeysMessage))
    ensures |docs| > 0 && HasKey(googleKey) && HasKey(cohereKey) && failure.Some? ==> r == Raised(failure.value)
    ensures |docs| > 0 && HasKey(googleKey) && HasKey(cohereKey) && failure.None? ==>
      r == Done(Configure(docs, googleKey.value, cohereKey.value, k, rerankTopN))
  {
    if |docs| == 0 then Raised(ValueError(EmptyDocsMessage))
    else if !HasKey(googleKey) || !HasKey(cohereKey) then Raised(ValueError(MissingKeysMessage))
    else if failure.Some? then Raised(failure.value)
    else Done(Configure(docs, googleKey.value, cohereKey.value, k, rerankTopN))
  }

  /**
   * A retriever is built exactly when there are documents, both keys are
   * non-empty and the libraries do not fail; what it holds is then the
   * documents, the same `k` for both members, equal weights and the given
   * `top_n`.
   */
  lemma BuildSucceeds(docs: seq<Document>, googleKey: Option<string>, cohereKey: Option<string>,
                      k: int, rerankTopN: int, failure: Option<Exception>)
    ensures Build(docs, googleKey, cohereKey, k, rerankTopN, failure).Done?
        <==> |docs| > 0 && HasKey(googleKey) && HasKey(cohereKey) && failure.None?
    ensures Build(docs, googleKey, cohereKey, k, rerankTopN, failure).Done? ==>
      var h := Build(docs, googleKey, cohereKey, k, rerankTopN, failure).value;
      h.corpus == docs && |h.members| == 2 && h.members[0].k == h.members[1].k == k
      && h.members[0].Keyword? && h.members[1].Vector?
      && h.weights[0] == h.weights[1] && h.weights[0] + h.weights[1] == 1.0
      && h.rerankTopN == rerankTopN
  {
  }

  /** The empty-documents check comes first: it is reported whatever the keys are. */
  lemma EmptyDocsReportedFirst(googleKey: Option<string>, cohereKey: Option<string>,
                               k: int, rerankTopN: int, failure: Option<Exception>)
    ensures Build([], googleKey, cohereKey, k, rerankTopN, failure) == Raised(ValueError(EmptyDocsMessage))
  {
  }

  /** `BM25Retriever`: an index over the chunks whose `k` is a field set after construction. */
  class KeywordIndex {
    const corpus: seq<Document>
    var k: int

    constructor FromDocuments(docs: seq<Document>)
      ensures corpus == docs && k == LibraryKeywordK
    {
      corpus := docs;
      k := LibraryKeywordK;
    }
  }

  /**
   * `create_hybrid_retriever` step by step: the guards, then the BM25 index
   * whose `k` is overwritten with the caller's `k`, then the vector member,
   * the ensemble and the re-ranker. Its result is the one `Build` specifies.
   */
  method CreateHybridRetriever(docs: seq<Document>, googleKey: Option<string>, cohereKey: Option<string>,
                               k: int, rerankTopN: int, failure: Option<Exception>)
    returns (r: Outcome<HybridRetriever>)
    ensures r == Build(docs, googleKey, cohereKey, k, rerankTopN, failure)
  {
    if |docs| == 0 {
      return Raised(ValueError(EmptyDocsMessage));
    }
    if !HasKey(googleKey) || !HasKey(cohereKey) {
      return Raised(ValueError(MissingKeysMessage));
    }
    if failure.Some? {
      return Raised(failure.value);
    }
    var bm25 := new KeywordIndex.FromDocuments(docs);
    bm25.k := k;
    var vector := Vector(k);
    var ensemble := [Keyword(bm25.k), vector];
    r := Done(HybridRetriever(bm25.corpus, ensemble, [0.5, 0.5], rerankTopN,
                              EmbeddingModel, googleKey.value, RerankModel, cohereKey.value));
  }

  /** With the defaults both members fetch 10 documents and the re-ranker keeps 4. */
  lemma DefaultConfiguration(docs: seq<Document>, googleKey: string, cohereKey: string)
    ensures var h := Configure(docs, googleKey, cohereKey, DefaultK, DefaultRerankTopN);
      h.members == [Keyword(10), Vector(10)] && h.rerankTopN == 4
  {
  }
}
