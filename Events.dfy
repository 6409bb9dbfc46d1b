/**
 * The event layer shared by both agents: the LangChain stream events the
 * agents consume, the emissions they send to the caller, and the Node.js
 * event emitter that carries those emissions.
 */
module Events {
  import opened Common

  // Values of `event.event` and `event.name` that the agents react to.
  const OnChainEnd := "on_chain_end"
  const OnChainStream := "on_chain_stream"
  const FinalSourceRetriever := "FinalSourceRetriever"
  const FinalResponseGenerator := "FinalResponseGenerator"

  /**
   * One event of `streamEvents(..., { version: 'v1' })`: its kind, the run
   * name, `data.output` (the documents a finished source retriever returns)
   * and `data.chunk` (a piece of generated text).
   */
  datatype StreamEvent = StreamEvent(event: string, name: string, output: seq<Document>, chunk: string)

  /** The `{type, data}` payload of a 'data' emission, before JSON encoding. */
  datatype Message = Sources(docs: seq<Document>) | Response(chunk: string)

  /** What the agents emit: 'data' with a payload, 'end', or 'error' with `{data: text}`. */
  datatype Emission = Data(message: Message) | End | Error(data: string)

  /**
   * Building a chain and starting its event stream either succeeds, giving
   * the events the stream will yield, or throws synchronously.
   */
  datatype ChainBuild = Built(stream: seq<StreamEvent>) | BuildFailed

  /**
   * A Node.js EventEmitter as the agents use it. `emitted` is what reached
   * the caller's listeners, in order. `handlesError` records whether an
   * 'error' listener is attached: emitting 'error' without one throws
   * instead of delivering anything.
   */
  class Emitter {
    var emitted: seq<Emission>
    var handlesError: bool

    constructor ()
      ensures emitted == [] && !handlesError
    {
      emitted := [];
      handlesError := false;
    }

    /** The caller attaches its 'error' listener (`emitter.on('error', ...)`). */
    method OnError()
      modifies this
      ensures handlesError && emitted == old(emitted)
    {
      handlesError := true;
    }

    /** `emitter.emit(...)`; `threw` is set when an unhandled 'error' is raised. */
    method Emit(e: Emission) returns (threw: bool)
      modifies this
      ensures threw <==> e.Error? && !old(handlesError)
      ensures emitted == if threw then old(emitted) else old(emitted) + [e]
      ensures handlesError == old(handlesError)
    {
      threw := e.Error? && !handlesError;
      if !threw {
        emitted := emitted + [e];
      }
    }
  }

  /** The emissions that are 'data' messages of type 'sources'. */
  predicate IsSources(e: Emission)
  {
    e.Data? && e.message.Sources?
  }

  /** `emissions` with every 'sources' message removed, order kept. */
  function WithoutSources(emissions: seq<Emission>): (r: seq<Emission>)
    ensures |r| <= |emissions|
    ensures forall k :: 0 <= k < |r| ==> !IsSources(r[k])
    ensures forall e :: e in emissions && !IsSources(e) ==> e in r
  {
    if emissions == [] then []
    else
      var rest := WithoutSources(emissions[..|emissions| - 1]);
      var last := emissions[|emissions| - 1];
      assert emissions == emissions[..|emissions| - 1] + [last];
      if IsSources(last) then rest else rest + [last]
  }

  /** A single emission survives exactly when it is not a 'sources' message. */
  lemma WithoutSourcesSingle(e: Emission)
    ensures WithoutSources([e]) == if IsSources(e) then [] else [e]
  {
    assert [e][..0] == [];
  }

  /** Dropping 'sources' emissions distributes over concatenation. */
  lemma {:induction false} WithoutSourcesAppend(a: seq<Emission>, b: seq<Emission>)
    ensures WithoutSources(a + b) == WithoutSources(a) + WithoutSources(b)
    decreases |b|
  {
    if b == [] {
      assert a + b == a;
    } else {
      var b' := b[..|b| - 1];
      assert (a + b)[..|a + b| - 1] == a + b';
      WithoutSourcesAppend(a, b');
    }
  }
}
