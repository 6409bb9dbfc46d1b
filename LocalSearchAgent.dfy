/**
 * The local-document search agent: rephrase the question, fetch and
 * summarise the matching documents, keep the five most similar, render them
 * as the numbered context, and route the chain's stream events to the
 * caller's emitter.
 *
 * Model calls are inputs here: the parsed rephrasing, the index's hits, the
 * summariser, and one similarity score per document.
 */
module LocalSearchAgent {
  import opened Common
  import opened Events
  import Ranking

  /** The rephraser's answer that means "no search is needed". */
  const NotNeeded := "not_needed"

  /** How many documents `rerankDocs` keeps. */
  const TopK := 5

  /** The text of the 'error' emission when the chain cannot be built. */
  const SearchErrorMessage := "An error occurred while searching local documents. Please try again later."

  // ---------------------------------------------------------------------
  // Question rephrasing
  // ---------------------------------------------------------------------

  /**
   * What the rephrasing chain passes on: `{query}`, or `{query: '', docs: []}`
   * for the `not_needed` sentinel (`docs` is None when the field is absent).
   */
  datatype RephraseOutput = RephraseOutput(query: string, docs: Option<seq<Document>>)

  /** The last step of the rephrasing chain, applied to the parsed question. */
  function Rephrase(question: string): (r: RephraseOutput)
    ensures r.query == "" <==> question == "" || question == NotNeeded
    ensures r.query != "" ==> r.query == question
    ensures r.docs.Some? <==> question == NotNeeded
    ensures r.docs.Some? ==> r.docs.value == []
  {
    if question == NotNeeded then RephraseOutput("", Some([])) else RephraseOutput(question, None)
  }

  // ---------------------------------------------------------------------
  // Retrieval: hits to documents, summaries
  // ---------------------------------------------------------------------

  /** One search hit: its file name and, when the index stored one, its content. */
  datatype Hit = Hit(filename: string, content: Option<string>)

  /** JavaScript truthiness of the `content` field: present and not empty. */
  predicate Truthy(content: Option<string>)
  {
    content.Some? && content.value != ""
  }

  /** One hit as a document: its content (or its file name), titled and located by file name. */
  function HitToDocument(h: Hit): (d: Document)
    ensures Truthy(h.content) ==> d.pageContent == h.content.value
    ensures !Truthy(h.content) ==> d.pageContent == h.filename
    ensures d.pageContent == "" <==> !Truthy(h.content) && h.filename == ""
    ensures d.metadata.Keys == {TitleKey, UrlKey}
    ensures d.metadata[TitleKey] == h.filename && d.metadata[UrlKey] == h.filename
  {
    Document(if Truthy(h.content) then h.content.value else h.filename,
             map[TitleKey := h.filename, UrlKey := h.filename])
  }

  /** `results.map(...)`: one document per hit, in hit order. */
  function HitsToDocuments(hits: seq<Hit>): (docs: seq<Document>)
    ensures |docs| == |hits|
    ensures forall k :: 0 <= k < |hits| ==> docs[k] == HitToDocument(hits[k])
  {
    if hits == [] then [] else [HitToDocument(hits[0])] + HitsToDocuments(hits[1..])
  }

  /**
   * `summarizeDocument` once the model has answered with `summary`: the
   * summary becomes the page content, and the metadata gains
   * `original_content`, the page content before summarising.
   */
  function SummarizeDocument(doc: Document, summary: string): (r: Document)
    ensures r.pageContent == summary
    ensures r.metadata.Keys == doc.metadata.Keys + {OriginalContentKey}
    ensures r.metadata[OriginalContentKey] == doc.pageContent
    ensures forall key :: key in doc.metadata && key != OriginalContentKey ==> r.metadata[key] == doc.metadata[key]
  {
    Document(summary, doc.metadata[OriginalContentKey := doc.pageContent])
  }

  /**
   * `Promise.all(documents.map(doc => summarizeDocument(doc, query)))`.
   * `summarizer(query, text)` stands for the model's summary of `text`.
   */
  function SummarizeAll(docs: seq<Document>, query: string, summarizer: (string, string) -> string): (r: seq<Document>)
    ensures |r| == |docs|
    ensures forall k :: 0 <= k < |docs| ==>
              r[k] == SummarizeDocument(docs[k], summarizer(query, docs[k].pageContent))
  {
    if docs == [] then []
    else [SummarizeDocument(docs[0], summarizer(query, docs[0].pageContent))]
         + SummarizeAll(docs[1..], query, summarizer)
  }

  /** The retriever's result: the query it searched for and the summarised documents. */
  datatype RetrieverOutput = RetrieverOutput(query: string, docs: seq<Document>)

  /**
   * The retriever lambda. An empty query skips the search; otherwise `hits`
   * is what the index returned for the query.
   */
  function Retrieve(input: RephraseOutput, hits: seq<Hit>, summarizer: (string, string) -> string): (out: RetrieverOutput)
    ensures input.query == "" ==> out == RetrieverOutput("", [])
    ensures input.query != "" ==> out.query == input.query && |out.docs| == |hits|
    ensures input.query != "" ==> forall k :: 0 <= k < |hits| ==>
              && out.docs[k].pageContent == summarizer(input.query, HitToDocument(hits[k]).pageContent)
              && out.docs[k].metadata ==
                   map[TitleKey := hits[k].filename, UrlKey := hits[k].filename,
                       OriginalContentKey := HitToDocument(hits[k]).pageContent]
  {
    if input.query == "" then RetrieverOutput("", [])
    else
      var docs := SummarizeAll(HitsToDocuments(hits), input.query, summarizer);
      assert forall k :: 0 <= k < |hits| ==>
        docs[k].metadata == map[TitleKey := hits[k].filename, UrlKey := hits[k].filename,
                                OriginalContentKey := HitToDocument(hits[k]).pageContent];
      RetrieverOutput(input.query, docs)
  }

  // ---------------------------------------------------------------------
  // Reranking
  // ---------------------------------------------------------------------

  /**
   * The indices `rerankDocs` keeps: the first `TopK` of the indices stably
   * sorted by descending score.
   */
  function TopIndices(scores: seq<real>): (kept: seq<nat>)
    ensures |kept| == Min(|scores|, TopK)
    ensures Ranking.InRange(scores, kept)
    ensures forall a, b :: 0 <= a < b < |kept| ==> kept[a] != kept[b]
    ensures forall a, b :: 0 <= a < b < |kept| ==> scores[kept[a]] >= scores[kept[b]]
    ensures forall a, b :: 0 <= a < b < |kept| && scores[kept[a]] == scores[kept[b]] ==> kept[a] < kept[b]
    ensures forall k, j :: 0 <= k < |kept| && 0 <= j < |scores| && j !in kept ==> scores[kept[k]] >= scores[j]
    ensures forall k, j :: 0 <= k < |kept| && 0 <= j < |scores| && j !in kept && scores[j] == scores[kept[k]] ==> kept[k] < j
    ensures |scores| <= TopK ==> forall j :: 0 <= j < |scores| ==> j in kept
  {
    var all := Ranking.RankIndices(scores, |scores|);
    Ranking.RankIndicesRanked(scores, |scores|);
    var kept := all[..Min(|scores|, TopK)];
    assert |scores| <= TopK ==> kept == all;
    assert forall a, b :: 0 <= a < b < |kept| ==> Ranking.Ahead(scores, kept[a], kept[b]);
    forall k, j | 0 <= k < |kept| && 0 <= j < |scores| && j !in kept
      ensures scores[kept[k]] >= scores[j]
      ensures scores[j] == scores[kept[k]] ==> kept[k] < j
    {
      assert j in all;
      var m :| 0 <= m < |all| && all[m] == j;
      assert m >= |kept|;
      assert Ranking.Ahead(scores, all[k], all[m]);
    }
    kept
  }

  /**
   * `rerankDocs`. `scores[i]` is the similarity of document `i` to the query;
   * an empty document list is returned as it is, whatever the scores.
   */
  function Rerank(docs: seq<Document>, scores: seq<real>): (r: seq<Document>)
    requires |docs| == 0 || |scores| == |docs|
    ensures |docs| == 0 ==> r == docs
    ensures |docs| > 0 ==> |r| == Min(|docs|, TopK)
    ensures |docs| > 0 ==> forall k :: 0 <= k < |r| ==> r[k] == docs[TopIndices(scores)[k]]
  {
    if |docs| == 0 then docs
    else
      var kept := TopIndices(scores);
      seq(|kept|, k requires 0 <= k < |kept| => docs[kept[k]])
  }

  /**
   * Reranking is the stable descending sort cut to `TopK`: for any listing
   * of all indices in stable descending order, the result is the documents
   * at its first `TopK` positions.
   */
  lemma {:induction false} RerankIsStableSort(docs: seq<Document>, scores: seq<real>, order: seq<nat>)
    requires |docs| > 0 && |scores| == |docs|
    requires Ranking.IsPermutationOfRange(order, |docs|)
    requires Ranking.InRange(scores, order) && Ranking.Ranked(scores, order)
    ensures Rerank(docs, scores) == Ranking.Pick(docs, order[..Min(|docs|, TopK)])
  {
    var all := Ranking.RankIndices(scores, |scores|);
    Ranking.RankIndicesRanked(scores, |scores|);
    forall x ensures x in all <==> x in order {
      if x in all {
        var k :| 0 <= k < |all| && all[k] == x;
      }
      if x in order {
        var k :| 0 <= k < |order| && order[k] == x;
      }
    }
    Ranking.RankedUnique(scores, all, order);
  }

  /**
   * With at most `TopK` documents nothing is dropped: the result holds
   * exactly the input documents, re-ordered.
   */
  lemma {:induction false} RerankSmallIsPermutation(docs: seq<Document>, scores: seq<real>)
    requires |docs| <= TopK && |scores| == |docs|
    ensures multiset(Rerank(docs, scores)) == multiset(docs)
  {
    if |docs| > 0 {
      var all := Ranking.RankIndices(scores, |scores|);
      assert TopIndices(scores) == all;
      assert Rerank(docs, scores) == Ranking.Pick(docs, all);
      Ranking.PickRankedIsPermutation(docs, scores, |docs|);
      assert docs[..|docs|] == docs;
    }
  }

  /** Every document kept by the reranker is an input document. */
  lemma {:induction false} RerankKeepsInputDocuments(docs: seq<Document>, scores: seq<real>)
    requires |docs| == 0 || |scores| == |docs|
    ensures forall d :: d in Rerank(docs, scores) ==> d in docs
  {
    var r := Rerank(docs, scores);
    forall d | d in r ensures d in docs {
      var k :| 0 <= k < |r| && r[k] == d;
      assert d == docs[TopIndices(scores)[k]];
    }
  }

  /**
   * The run named `FinalSourceRetriever`: rephrase, retrieve, then rerank.
   * `scores` holds one similarity per retrieved document.
   */
  function SourceRetriever(question: string, hits: seq<Hit>, summarizer: (string, string) -> string,
                           scores: seq<real>): (r: seq<Document>)
    requires question == "" || question == NotNeeded || |hits| == 0 || |scores| == |hits|
    ensures question == "" || question == NotNeeded ==> r == []
    ensures question != "" && question != NotNeeded ==> |r| == Min(|hits|, TopK)
  {
    var retrieved := Retrieve(Rephrase(question), hits, summarizer);
    Rerank(retrieved.docs, scores)
  }

  // ---------------------------------------------------------------------
  // The numbered context
  // ---------------------------------------------------------------------

  /** `${doc.metadata.docNum}`: the field's text, or "undefined" when it is absent. */
  function DocNumText(d: Document): (r: string)
    ensures DocNumKey in d.metadata ==> r == d.metadata[DocNumKey]
    ensures DocNumKey !in d.metadata ==> r == "undefined"
  {
    if DocNumKey in d.metadata then d.metadata[DocNumKey] else "undefined"
  }

  /**
   * One line of the context: `<docNum>. <pageContent>`. The label and ". "
   * open the entry, and the page content is everything after them.
   */
  function Entry(d: Document): (r: string)
    ensures DocNumText(d) + ". " <= r
    ensures r[|DocNumText(d)| + 2..] == d.pageContent
  {
    DocNumText(d) + ". " + d.pageContent
  }

  /** The entry of every document, in list order. */
  function Entries(docs: seq<Document>): (r: seq<string>)
    ensures |r| == |docs|
    ensures forall k :: 0 <= k < |docs| ==> r[k] == Entry(docs[k])
  {
    seq(|docs|, k requires 0 <= k < |docs| => Entry(docs[k]))
  }

  /**
   * `processDocs` as written: the entries joined by newlines. The context is
   * empty exactly when there are no documents; otherwise it opens with the
   * first document's entry and closes with the last one's.
   */
  function RenderContext(docs: seq<Document>): (r: string)
    ensures r == "" <==> docs == []
    ensures |docs| > 0 ==> Entry(docs[0]) <= r
    ensures |docs| > 0 ==> |Entry(docs[|docs| - 1])| <= |r|
                           && r[|r| - |Entry(docs[|docs| - 1])|..] == Entry(docs[|docs| - 1])
  {
    if docs == [] then Join(Entries(docs), "\n")
    else
      JoinEndsWithLast(Entries(docs), "\n");
      Join(Entries(docs), "\n")
  }

  /**
   * The context holds one entry per document, in list order: entry `k`
   * follows the first `k` entries and a newline, and a newline and the
   * remaining entries follow it.
   */
  lemma {:induction false} RenderContextLayout(docs: seq<Document>, k: nat)
    requires k < |docs|
    ensures RenderContext(docs) ==
              (if k == 0 then "" else RenderContext(docs[..k]) + "\n")
              + Entry(docs[k])
              + (if k + 1 == |docs| then "" else "\n" + RenderContext(docs[k + 1..]))
  {
    var parts := Entries(docs);
    JoinLayout(parts, "\n", k);
    assert parts[..k] == Entries(docs[..k]);
    assert parts[k + 1..] == Entries(docs[k + 1..]);
  }

  /** An entry whose document has no `docNum` is labelled `undefined`. */
  lemma EntryWithoutDocNum(d: Document)
    requires DocNumKey !in d.metadata
    ensures Entry(d) == "undefined. " + d.pageContent
  {
  }

  /** No document the retriever produces carries `docNum`. */
  lemma RetrievedDocsLackDocNum(input: RephraseOutput, hits: seq<Hit>, summarizer: (string, string) -> string)
    ensures forall k :: 0 <= k < |Retrieve(input, hits, summarizer).docs| ==>
              DocNumKey !in Retrieve(input, hits, summarizer).docs[k].metadata
  {
    // the keys differ in their first letters
    assert DocNumKey[0] != TitleKey[0] && DocNumKey[0] != UrlKey[0] && DocNumKey[0] != OriginalContentKey[0];
  }

  /**
   * No document the retriever produces carries `docNum`, so as written every
   * entry of the context is labelled `undefined`.
   */
  lemma {:induction false} RetrievedEntriesUndefined(input: RephraseOutput, hits: seq<Hit>,
                                                      summarizer: (string, string) -> string,
                                                      scores: seq<real>, k: nat)
    requires |hits| == 0 || |scores| == |hits|
    requires k < |Rerank(Retrieve(input, hits, summarizer).docs, scores)|
    ensures Entry(Rerank(Retrieve(input, hits, summarizer).docs, scores)[k]) ==
              "undefined. " + Rerank(Retrieve(input, hits, summarizer).docs, scores)[k].pageContent
  {
    var docs := Retrieve(input, hits, summarizer).docs;
    RetrievedDocsLackDocNum(input, hits, summarizer);
    var j := TopIndices(scores)[k];
    assert Rerank(docs, scores)[k] == docs[j];
    EntryWithoutDocNum(docs[j]);
  }

  /** The label of entry `k` when the context is numbered from 1. */
  function Label(k: nat): string
  {
    NatToString(k + 1)
  }

  /** The entries numbered from 1: `<k+1>. <pageContent>`. */
  function NumberedEntries(docs: seq<Document>): (r: seq<string>)
    ensures |r| == |docs|
    ensures forall k :: 0 <= k < |docs| ==> r[k] == Label(k) + ". " + docs[k].pageContent
  {
    seq(|docs|, k requires 0 <= k < |docs| => Label(k) + ". " + docs[k].pageContent)
  }

  /**
   * The context with 1-based numbers, which the `[number]` citations refer
   * to. It is empty exactly when there are no documents; otherwise it opens
   * with entry `1` and closes with the entry numbered `|docs|`.
   */
  function RenderNumbered(docs: seq<Document>): (r: string)
    ensures r == "" <==> docs == []
    ensures |docs| > 0 ==> "1. " + docs[0].pageContent <= r
    ensures |docs| > 0 ==> var last := NatToString(|docs|) + ". " + docs[|docs| - 1].pageContent;
                           |last| <= |r| && r[|r| - |last|..] == last
  {
    if docs == [] then Join(NumberedEntries(docs), "\n")
    else
      JoinEndsWithLast(NumberedEntries(docs), "\n");
      Join(NumberedEntries(docs), "\n")
  }

  /**
   * In the numbered context, entry `k` is labelled `k + 1` and follows the
   * `k` entries before it, each on its own line.
   */
  lemma {:induction false} RenderNumberedLayout(docs: seq<Document>, k: nat)
    requires k < |docs|
    ensures RenderNumbered(docs) ==
              (if k == 0 then "" else Join(NumberedEntries(docs)[..k], "\n") + "\n")
              + (Label(k) + ". " + docs[k].pageContent)
              + (if k + 1 == |docs| then "" else "\n" + Join(NumberedEntries(docs)[k + 1..], "\n"))
  {
    JoinLayout(NumberedEntries(docs), "\n", k);
  }

  /** No two entries of the numbered context share a label. */
  lemma {:induction false} LabelsDistinct(i: nat, j: nat)
    requires i != j
    ensures Label(i) != Label(j)
  {
    if Label(i) == Label(j) {
      NatToStringInjective(i + 1, j + 1);
    }
  }

  // ---------------------------------------------------------------------
  // Streaming
  // ---------------------------------------------------------------------

  /** What `handleStream` emits for one event: the three `if`s in order. */
  function RouteEvent(e: StreamEvent): (r: seq<Emission>)
    ensures |r| <= 1
    ensures r == [Data(Sources(e.output))] <==> e.event == OnChainEnd && e.name == FinalSourceRetriever
    ensures r == [Data(Response(e.chunk))] <==> e.event == OnChainStream && e.name == FinalResponseGenerator
    ensures r == [End] <==> e.event == OnChainEnd && e.name == FinalResponseGenerator
    ensures r == [] <==> !(e.event == OnChainEnd && e.name == FinalSourceRetriever)
                         && !(e.event == OnChainStream && e.name == FinalResponseGenerator)
                         && !(e.event == OnChainEnd && e.name == FinalResponseGenerator)
  {
    assert OnChainEnd[9] != OnChainStream[9];
    assert FinalSourceRetriever[5] != FinalResponseGenerator[5];
    var sources := if e.event == OnChainEnd && e.name == FinalSourceRetriever then [Data(Sources(e.output))] else [];
    var response := if e.event == OnChainStream && e.name == FinalResponseGenerator then [Data(Response(e.chunk))] else [];
    var end := if e.event == OnChainEnd && e.name == FinalResponseGenerator then [End] else [];
    var r := sources + response + end;
    // the three conditions exclude each other, so at most one `if` fires
    assert r == (if e.event == OnChainEnd && e.name == FinalSourceRetriever then [Data(Sources(e.output))]
                 else if e.event == OnChainStream && e.name == FinalResponseGenerator then [Data(Response(e.chunk))]
                 else if e.event == OnChainEnd && e.name == FinalResponseGenerator then [End]
                 else []);
    r
  }

  /** Everything `handleStream` emits for a stream, event by event. */
  function RouteStream(events: seq<StreamEvent>): (r: seq<Emission>)
    ensures |r| <= |events|
  {
    if events == [] then []
    else RouteStream(events[..|events| - 1]) + RouteEvent(events[|events| - 1])
  }

  /** Emissions follow event order: the emissions of a stream split where the stream does. */
  lemma {:induction false} RouteStreamAppend(a: seq<StreamEvent>, b: seq<StreamEvent>)
    ensures RouteStream(a + b) == RouteStream(a) + RouteStream(b)
    decreases |b|
  {
    if b == [] {
      assert a + b == a;
    } else {
      var b', e := b[..|b| - 1], b[|b| - 1];
      assert (a + b)[..|a + b| - 1] == a + b';
      assert (a + b)[|a + b| - 1] == e;
      RouteStreamAppend(a, b');
      ConcatAssoc(RouteStream(a), RouteStream(b'), RouteEvent(e));
    }
  }

  /** The body of `handleStream`'s loop: the three `if`s for one event. */
  method HandleEvent(event: StreamEvent, emitter: Emitter)
    modifies emitter
    ensures emitter.emitted == old(emitter.emitted) + RouteEvent(event)
    ensures emitter.handlesError == old(emitter.handlesError)
  {
    ghost var sources := if event.event == OnChainEnd && event.name == FinalSourceRetriever
                         then [Data(Sources(event.output))] else [];
    ghost var response := if event.event == OnChainStream && event.name == FinalResponseGenerator
                          then [Data(Response(event.chunk))] else [];
    var threw;
    if event.event == OnChainEnd && event.name == FinalSourceRetriever {
      threw := emitter.Emit(Data(Sources(event.output)));
    }
    assert emitter.emitted == old(emitter.emitted) + sources;
    if event.event == OnChainStream && event.name == FinalResponseGenerator {
      threw := emitter.Emit(Data(Response(event.chunk)));
    }
    assert emitter.emitted == old(emitter.emitted) + sources + response;
    if event.event == OnChainEnd && event.name == FinalResponseGenerator {
      threw := emitter.Emit(End);
    }
  }

  /** `handleStream`: the for-await loop over the stream, emitting as it goes. */
  method HandleStream(stream: seq<StreamEvent>, emitter: Emitter)
    modifies emitter
    ensures emitter.emitted == old(emitter.emitted) + RouteStream(stream)
    ensures emitter.handlesError == old(emitter.handlesError)
  {
    for i := 0 to |stream|
      invariant emitter.emitted == old(emitter.emitted) + RouteStream(stream[..i])
      invariant emitter.handlesError == old(emitter.handlesError)
    {
      HandleEvent(stream[i], emitter);
      assert stream[..i + 1][..i] == stream[..i];
      ConcatAssoc(old(emitter.emitted), RouteStream(stream[..i]), RouteEvent(stream[i]));
    }
    assert stream[..|stream|] == stream;
  }

  /**
   * `elasticsearchSearch` / `handleLocalSearch` as written. When building the
   * chain throws, the catch block emits 'error' on the new emitter before
   * the caller can attach a listener, so the emit itself throws (`threw`)
   * and the emitter never reaches the caller.
   */
  method HandleLocalSearch(build: ChainBuild) returns (emitter: Emitter, threw: bool)
    ensures fresh(emitter)
    ensures threw <==> build.BuildFailed?
    ensures build.Built? ==> emitter.emitted == RouteStream(build.stream)
    ensures build.BuildFailed? ==> emitter.emitted == []
  {
    emitter := new Emitter();
    match build
    case Built(stream) =>
      HandleStream(stream, emitter);
      threw := false;
    case BuildFailed =>
      threw := emitter.Emit(Error(SearchErrorMessage));
  }

  /** What the caller should see: the stream's emissions, or the one generic error. */
  function SearchOutcome(build: ChainBuild): (r: seq<Emission>)
    ensures build.BuildFailed? ==> |r| == 1 && r[0] == Error(SearchErrorMessage)
    ensures build.Built? ==> forall k :: 0 <= k < |r| ==> !r[k].Error?
  {
    match build
    case Built(stream) =>
      assert forall k :: 0 <= k < |RouteStream(stream)| ==> !RouteStream(stream)[k].Error? by {
        RouteStreamNoError(stream);
      }
      RouteStream(stream)
    case BuildFailed => [Error(SearchErrorMessage)]
  }

  /** Routing never produces an 'error' emission. */
  lemma {:induction false} RouteStreamNoError(events: seq<StreamEvent>)
    ensures forall k :: 0 <= k < |RouteStream(events)| ==> !RouteStream(events)[k].Error?
  {
    if events != [] {
      RouteStreamNoError(events[..|events| - 1]);
    }
  }

  /**
   * The search entry point with the error emission deferred until the
   * caller's listeners are attached (as `process.nextTick` would): the
   * caller always receives the emitter, and on a build failure exactly one
   * 'error' emission with the generic message.
   */
  method HandleLocalSearchDeferred(build: ChainBuild) returns (emitter: Emitter)
    ensures fresh(emitter)
    ensures emitter.emitted == SearchOutcome(build)
  {
    emitter := new Emitter();
    // the deferred part runs after the caller has attached its listeners
    emitter.OnError();
    match build
    case Built(stream) =>
      HandleStream(stream, emitter);
    case BuildFailed =>
      var threw := emitter.Emit(Error(SearchErrorMessage));
  }

  /**
   * A build failure, as written: the call throws and nothing is delivered,
   * where one 'error' emission was meant to reach the caller.
   */
  method BuildFailureThrows() returns (threw: bool, delivered: seq<Emission>, intended: seq<Emission>)
    ensures threw && delivered == []
    ensures intended == [Error(SearchErrorMessage)]
  {
    var emitter;
    emitter, threw := HandleLocalSearch(BuildFailed);
    delivered := emitter.emitted;
    var fixedEmitter := HandleLocalSearchDeferred(BuildFailed);
    intended := fixedEmitter.emitted;
  }
}
