# Local-document answering pipeline: a Dafny model

This project models the parts of the Perplexica-style local search service that make
decisions without calling a model:

- **Local search agent** (`src/agents/localSearchAgent.ts`):
  - the "not_needed" rephrasing sentinel and the empty-query short circuit;
  - search hits becoming LangChain documents;
  - per-document summarisation, which keeps count, order and metadata;
  - `rerankDocs`: a stable descending sort by similarity, cut to five;
  - `processDocs`: rendering the numbered context;
  - `handleStream`: routing the chain's stream events to `sources` / `response` / `end` emissions on a Node.js event emitter;
  - the entry point's error path.
- **Precomputed cache** (`src/utils/precomputedData.ts`):
  - the two dictionaries loaded at start-up, with empty dictionaries when loading fails;
  - `getId`, the cache-key normalisation (separator rewrite, cut at the first `Knowledge/`, one more `Knowledge/` in front);
  - `getSummary` and `getEmbedding`.
- **Writing assistant** (`src/agents/writingAssistant.ts`): its `handleStream` routing (responses and end, never sources) and its entry point's error path.

Model calls are inputs:
- the parsed rephrasing is a string;
- the search index's answer is a sequence of hits;
- the summariser is a total function of (query, text);
- the similarity of each document to the query is a `real` score, indexed like the documents.

A Node.js `EventEmitter` is the class `Events.Emitter`:
- `emitted` is what reached the caller's listeners;
- `handlesError` records whether an `'error'` listener is attached;
- emitting `'error'` with no listener throws instead of delivering anything.

Modules:
- `Common`: options, documents, decimal text, and `Array.join`.
- `Events`: stream events, emissions, and the emitter.
- `PrecomputedData`: the cache.
- `Ranking`: a stable descending order of indices.
- `LocalSearchAgent` and `WritingAssistant`: the two agents.

## Model

| member | source | states |
|---|---|---|
| PrecomputedData.Load | src/utils/precomputedData.ts:13-26 | both files parsed: the dictionaries are their contents; either file missing or unparsable: both dictionaries are empty |
| PrecomputedData.NormalizeSeparators | src/utils/precomputedData.ts:29 | same length; every backslash becomes `/` and every other character is kept; no backslash remains |
| PrecomputedData.Search | src/utils/precomputedData.ts:30 | `String.search` on a literal: -1 or an index into the string |
| PrecomputedData.SearchIsFirstOccurrence | src/utils/precomputedData.ts:30 | a non-negative search result is an occurrence, and no occurrence lies before it; -1 means no occurrence at all |
| PrecomputedData.SubstringFrom | src/utils/precomputedData.ts:30 | `substring(start)`: a negative start yields the whole string, an in-range start the suffix, and a start past the end yields "" |
| PrecomputedData.GetId | src/utils/precomputedData.ts:28-31 | search found `Knowledge/` in the normalised id: `Knowledge/` + the normalised id from there on; search gave -1: `Knowledge/` + the whole normalised id |
| PrecomputedData.GetIdShape | src/utils/precomputedData.ts:28-31 | every key holds no backslash and starts with `Knowledge/` |
| PrecomputedData.GetIdAtFirstOccurrence | src/utils/precomputedData.ts:30 | when the first `Knowledge/` of the normalised id is at k, the key is `Knowledge/` + the normalised id from k on |
| PrecomputedData.GetIdWithoutRoot | src/utils/precomputedData.ts:30 | with no `Knowledge/` anywhere in the normalised id, the key is `Knowledge/` + the whole normalised id (`substring(-1)` keeps everything) |
| PrecomputedData.GetSummary | src/utils/precomputedData.ts:35-43 | a hit exactly when the normalised id is a key of the summary dictionary, and then the stored summary |
| PrecomputedData.GetEmbedding | src/utils/precomputedData.ts:44-58 | undefined for every id and every cache (the lookup is commented out; the failing debug read is caught) |
| PrecomputedData.NormalizeWithoutBackslash | src/utils/precomputedData.ts:29 | an id without backslashes is left unchanged |
| PrecomputedData.GetIdNotIdempotent | src/utils/precomputedData.ts:30 | `getId(getId(id))` is `Knowledge/` + `getId(id)` |
| PrecomputedData.NormalizeConcat | src/utils/precomputedData.ts:29 | the separator rewrite distributes over concatenation |
| PrecomputedData.FirstRootAfterPrefix | src/utils/precomputedData.ts:30 | after a prefix free of `Knowledge/`, the first `Knowledge/` is the one right after the prefix |
| PrecomputedData.NormalizeRootDirectory | src/utils/precomputedData.ts:29 | `Knowledge\` and `Knowledge/` both normalise to `Knowledge/` |
| PrecomputedData.NormalizeMachinePath | src/utils/precomputedData.ts:29 | a path through a `Knowledge` directory (either separator) normalises to the normalised prefix, `Knowledge/`, and the normalised rest |
| PrecomputedData.GetIdAfterFirstRoot | src/utils/precomputedData.ts:30 | an id normalising to `p + Knowledge/ + r`, its first `Knowledge/` right after `p`, has key `Knowledge/Knowledge/` + `r` |
| PrecomputedData.GetIdStripsMachinePrefix | src/utils/precomputedData.ts:28-33 | whatever machine path precedes the first `Knowledge` directory (either separator), the key is `Knowledge/Knowledge/` + the rest of the path, normalised |
| PrecomputedData.SameDocumentSameKey | src/utils/precomputedData.ts:28-31 | one document under two machine prefixes and separators gets one key |
| PrecomputedData.GetSummaryIgnoresSeparators | src/utils/precomputedData.ts:35-43 | an id and its slash-normalised form find the same summary |
| PrecomputedData.FailedLoadMissesEverything | src/utils/precomputedData.ts:13-43 | after a failed load every summary lookup misses |
| PrecomputedData.KeysOutsideRootNeverHit | src/utils/precomputedData.ts:35-43 | a stored key that does not start with `Knowledge/` is never found |
| Ranking.Insert | src/agents/localSearchAgent.ts:241-242 | one insertion step of the stable sort: one entry longer, holds exactly the old entries and the new index |
| Ranking.InsertRanked | src/agents/localSearchAgent.ts:241-242 | inserting an index not yet listed keeps the list in stable descending order |
| Ranking.RankIndices | src/agents/localSearchAgent.ts:236-242 | lists each index 0..n-1 exactly once |
| Ranking.RankIndicesRanked | src/agents/localSearchAgent.ts:241-242 | the listing is in descending score order, with ties in input order |
| Ranking.RankedUnique | src/agents/localSearchAgent.ts:241-242 | two stable descending listings of the same indices are equal: the stable sort's result is determined |
| Ranking.InsertAt | src/agents/localSearchAgent.ts:241-242 | an insertion moves no other entry: the new index goes in at one position |
| Ranking.Pick | src/agents/localSearchAgent.ts:244 | `.map((sim) => docs[sim.index])`: one element per position, entry k being the element at position k |
| Ranking.PickRankedIsPermutation | src/agents/localSearchAgent.ts:241-244 | taking elements in ranked order is a permutation (multiset equality) of the first n elements |
| LocalSearchAgent.Rephrase | src/agents/localSearchAgent.ts:147-152 | `not_needed` gives `{query: '', docs: []}`; any other answer is the query itself, without `docs` |
| LocalSearchAgent.HitToDocument | src/agents/localSearchAgent.ts:187-196 | page content is the hit's content when truthy, else the file name; metadata is exactly title and url, both the file name |
| LocalSearchAgent.HitsToDocuments | src/agents/localSearchAgent.ts:187-196 | one document per hit, in hit order |
| LocalSearchAgent.SummarizeDocument | src/agents/localSearchAgent.ts:159-178 | page content is the summary; metadata keeps every key and adds `original_content` = the page content before summarising |
| LocalSearchAgent.SummarizeAll | src/agents/localSearchAgent.ts:198-201 | one summarised document per input, in input order, each summarised for the query |
| LocalSearchAgent.Retrieve | src/agents/localSearchAgent.ts:182-204 | empty query: `{query: '', docs: []}`; otherwise the query and one document per hit, with the summary as content and title, url, original_content as metadata |
| LocalSearchAgent.TopIndices | src/agents/localSearchAgent.ts:236-244 | min(n, 5) distinct indices; scores non-increasing; ties among kept indices in input order; each kept score ≥ each dropped score, and a dropped index tying a kept one comes later in the input; all kept when n ≤ 5 |
| LocalSearchAgent.Rerank | src/agents/localSearchAgent.ts:220-245 | empty list returned as it is; otherwise min(n, 5) documents, entry k being the input document at the k-th kept index |
| LocalSearchAgent.RerankIsStableSort | src/agents/localSearchAgent.ts:241-244 | the result is the first five documents of any stable descending listing of all indices |
| LocalSearchAgent.RerankSmallIsPermutation | src/agents/localSearchAgent.ts:241-244 | with at most five documents, the result is a permutation of the input |
| LocalSearchAgent.RerankKeepsInputDocuments | src/agents/localSearchAgent.ts:244 | every returned document is an input document |
| LocalSearchAgent.SourceRetriever | src/agents/localSearchAgent.ts:256-260 | greeting sentinel or empty question: no sources; otherwise min(hits, 5) sources |
| LocalSearchAgent.DocNumText | src/agents/localSearchAgent.ts:216 | `${doc.metadata.docNum}`: the stored text when the field is present, `undefined` when it is absent |
| LocalSearchAgent.Entry | src/agents/localSearchAgent.ts:216 | an entry opens with the docNum text and `. `, and the page content is everything after them |
| LocalSearchAgent.Entries | src/agents/localSearchAgent.ts:215-216 | one entry per document, in list order |
| LocalSearchAgent.RenderContext | src/agents/localSearchAgent.ts:214-218 | `processDocs` as written: empty exactly for no documents; opens with the first document's entry and closes with the last one's |
| LocalSearchAgent.RenderContextLayout | src/agents/localSearchAgent.ts:214-218 | entry k follows the first k entries and a newline, and a newline and the remaining entries follow it |
| LocalSearchAgent.EntryWithoutDocNum | src/agents/localSearchAgent.ts:216 | a document without `docNum` renders as `undefined. <content>` |
| LocalSearchAgent.RetrievedDocsLackDocNum | src/agents/localSearchAgent.ts:171-177 | no retrieved document carries a `docNum` metadata field |
| LocalSearchAgent.RetrievedEntriesUndefined | src/agents/localSearchAgent.ts:214-218 | for retrieved and reranked documents, every entry reads `undefined. <content>` |
| LocalSearchAgent.NumberedEntries | src/agents/localSearchAgent.ts:215-216 | corrected rendering (not the code as written): entry k is `<k+1>. <content>` |
| LocalSearchAgent.RenderNumbered | src/agents/localSearchAgent.ts:214-218 | corrected `processDocs` (not the code as written): empty exactly for no documents; opens with entry `1. <first content>` and closes with the entry numbered by the document count |
| LocalSearchAgent.RenderNumberedLayout | src/agents/localSearchAgent.ts:214-218 | corrected rendering (not the code as written): entry k is labelled k+1 and sits between the k entries before it and the rest, one per line |
| LocalSearchAgent.LabelsDistinct | src/agents/localSearchAgent.ts:216 | corrected rendering (not the code as written): distinct positions get distinct labels; as written every label is `undefined` |
| LocalSearchAgent.RouteEvent | src/agents/localSearchAgent.ts:109-132 | at most one emission: sources iff end of FinalSourceRetriever, response chunk iff stream of FinalResponseGenerator, end iff end of FinalResponseGenerator, nothing otherwise |
| LocalSearchAgent.RouteStream | src/agents/localSearchAgent.ts:108-133 | never more emissions than events |
| LocalSearchAgent.RouteStreamAppend | src/agents/localSearchAgent.ts:108-133 | emissions follow event order: routing a concatenation concatenates the routings |
| LocalSearchAgent.RouteStreamNoError | src/agents/localSearchAgent.ts:104-134 | routing never emits 'error' |
| LocalSearchAgent.HandleEvent | src/agents/localSearchAgent.ts:109-132 | the emitter receives exactly the event's routing, appended |
| LocalSearchAgent.HandleStream | src/agents/localSearchAgent.ts:104-134 | the emitter receives exactly the stream's routing, in order, appended to what it had |
| LocalSearchAgent.HandleLocalSearch | src/agents/localSearchAgent.ts:276-322 | as written: a built chain streams its routing; a failed build makes the call throw with nothing delivered |
| LocalSearchAgent.SearchOutcome | src/agents/localSearchAgent.ts:301-311 | failed build: exactly one 'error' with the fixed search message; built chain: no 'error' |
| LocalSearchAgent.HandleLocalSearchDeferred | src/agents/localSearchAgent.ts:276-312 | corrected entry point: the emitter always reaches the caller and delivers the intended outcome |
| LocalSearchAgent.BuildFailureThrows | src/agents/localSearchAgent.ts:301-311 | failed build: the as-written call throws and delivers nothing, while one 'error' emission was intended |
| WritingAssistant.RouteEvent | src/agents/writingAssistant.ts:146-160 | at most one emission: response chunk iff stream of FinalResponseGenerator, end iff end of FinalResponseGenerator, nothing otherwise |
| WritingAssistant.RouteStream | src/agents/writingAssistant.ts:145-161 | never more emissions than events |
| WritingAssistant.RouteStreamAppend | src/agents/writingAssistant.ts:145-161 | emissions follow event order |
| WritingAssistant.RouteStreamOnlyResponsesAndEnd | src/agents/writingAssistant.ts:145-161 | every emission is a response chunk or end: never sources, never error |
| WritingAssistant.RouteEventIsSearchRouteWithoutSources | src/agents/writingAssistant.ts:146-160 | one event routes as in the local search agent, with the sources emission removed |
| WritingAssistant.RouteStreamIsSearchRouteWithoutSources | src/agents/writingAssistant.ts:141-162 | a stream routes as in the local search agent, with every sources emission removed |
| Events.WithoutSources | src/agents/writingAssistant.ts:145-161 | no sources left; every other emission kept; never longer |
| Events.WithoutSourcesAppend | src/agents/writingAssistant.ts:145-161 | removing sources distributes over concatenation |
| WritingAssistant.HandleEvent | src/agents/writingAssistant.ts:146-160 | the emitter receives exactly the event's routing, appended |
| WritingAssistant.HandleStream | src/agents/writingAssistant.ts:141-162 | the emitter receives exactly the stream's routing, in order |
| WritingAssistant.HandleWritingAssistant | src/agents/writingAssistant.ts:179-209 | as written: a built chain streams its routing; a failed build makes the call throw with nothing delivered |
| WritingAssistant.WritingOutcome | src/agents/writingAssistant.ts:200-206 | failed build: exactly one 'error' with the fixed message; built chain: no error and no sources |
| WritingAssistant.HandleWritingAssistantDeferred | src/agents/writingAssistant.ts:179-209 | corrected entry point: the emitter always reaches the caller and delivers the intended outcome |
| WritingAssistant.BuildFailureThrows | src/agents/writingAssistant.ts:200-208 | failed build: the as-written call throws and delivers nothing, while one 'error' emission was intended |
| Events.Emitter.constructor | src/agents/writingAssistant.ts:185 | `new eventEmitter()`: nothing delivered yet and no 'error' listener attached |
| Events.Emitter.Emit | src/agents/writingAssistant.ts:200-204 | Node.js `emit`: an 'error' with no listener throws and delivers nothing; anything else is appended |
| Events.Emitter.OnError | src/agents/handleQueryforImages.ts:55-58 | attaching an 'error' listener changes nothing already delivered |
| Common.NatToString | src/agents/localSearchAgent.ts:216 | corrected rendering only (as written no number is interpolated): decimal text of a number in a template literal, non-empty digits, no leading zero |
| Common.ParseNatToString | src/agents/localSearchAgent.ts:216 | corrected rendering only: the decimal text reads back as the number |
| Common.NatToStringInjective | src/agents/localSearchAgent.ts:216 | corrected rendering only: different numbers have different texts |
| Common.Join | src/agents/localSearchAgent.ts:217 | `Array.join`: an empty list joins to ""; otherwise the first part starts the text |
| Common.JoinEndsWithLast | src/agents/localSearchAgent.ts:217 | the last part of a non-empty list ends its join |
| Common.JoinAppend | src/agents/localSearchAgent.ts:217 | `join` of two non-empty lists puts one separator between their joins |
| Common.JoinLayout | src/agents/localSearchAgent.ts:217 | part k of a `join` sits between the join of the earlier parts and the join of the later parts, separated by one separator each |

## Left out

- Model, embedding and index calls:
  - prompt templates, the rephrasing line parser and LangChain runnable composition are not modelled;
  - the parsed question, the hits, the summaries and the scores are inputs.
- `computeSimilarity` (cosine similarity) is floating point and not part of this model. Scores are given reals, so NaN scores are not modelled.
- LocalSearchAgent.Rerank: requires one score per document whenever the list is non-empty. In the source the scores are computed from the documents themselves, so the lengths always agree. An empty list needs no scores, matching the early return before any embedding call.
- Summaries: the summariser is a function of (query, text), so two documents with the same text get the same summary. This matches a deterministic model call (the code sets `temperature = 0`); a model that answers differently for the same prompt is not modelled.
- The `temperature = 0` assignment on the shared model object has no effect on the decisions modelled.
- `JSON.stringify` of the emitted payloads: emissions carry the payload values themselves.
- `for await` streaming and the unawaited `handleStream` promise:
  - a stream is a finite sequence of events, and the emissions are delivered in event order;
  - an exception thrown while the stream runs (an unhandled rejection in the source) is not modelled.
- Listeners other than 'error' are not modelled. Emitting 'data' or 'end' with no listener does nothing in Node.js, so the emitter records the delivery either way.
- The `catch` blocks of `getSummary` and `getEmbedding`: `getId` throws only for a non-string id, which the parameter type excludes. The failing debug read in `getEmbedding` is caught, so the function still returns undefined.
- File reading, JSON parsing and console/logger output in the cache module: only the resulting dictionaries are modelled.
- Grouping of documents by source with a fragment cap, and cache-first summarisation and embedding, are not in this code: `summarizeDocument` always calls the model, and the agent never calls `getSummary` or `getEmbedding`. Neither is modelled.
- The `sources` emission carries the full reranked documents (summary and metadata), not only titles and identifiers, because that is what the code emits.
- `src/utils/localElasticSearch.ts`, `src/agents/handleQueryforImages.ts`, `src/agents/queryGeneratorAgent.ts` and `src/routes/prodimages.ts` are not part of this model: they are network I/O, HTTP routing or a single model call with no decisions of their own. The one exception is the caller attaching its 'error' listener (`handleQueryforImages.ts`), which `Events.Emitter.OnError` stands for.

## Findings

| source | as written | input that shows it | evidently intended | confidence | as-written member | corrected member |
|---|---|---|---|---|---|---|
| src/agents/localSearchAgent.ts:301-311 | the catch block emits 'error' on the emitter it just created, before any caller can attach a listener, so Node.js throws out of `elasticsearchSearch` | building or starting the answering chain throws synchronously | the caller receives the emitter and one 'error' event with the generic message | high for the mechanism (an unhandled 'error' emit throws); not executed | LocalSearchAgent.BuildFailureThrows | LocalSearchAgent.HandleLocalSearchDeferred |
| src/agents/writingAssistant.ts:200-208 | the same catch-block 'error' emit on a listener-less emitter throws out of `handleWritingAssistant` | building or starting the writing chain throws synchronously | the caller receives the emitter and one 'error' event with the generic message | high for the mechanism (an unhandled 'error' emit throws); not executed | WritingAssistant.BuildFailureThrows | WritingAssistant.HandleWritingAssistantDeferred |
| src/agents/localSearchAgent.ts:214-218 | each context entry is labelled with `metadata.docNum`, which no document carries, so every entry reads `undefined. …` and the `[number]` citations refer to nothing | any non-empty query with at least one hit | entries numbered from 1 in list order, using the unused `index` parameter | high; not executed | LocalSearchAgent.RetrievedEntriesUndefined | LocalSearchAgent.RenderNumberedLayout |
