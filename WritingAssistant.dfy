/**
 * The writing-assistant agent: no retrieval, a single answering chain whose
 * stream events are routed to the caller's emitter as 'response' chunks and
 * one 'end'.
 */
module WritingAssistant {
  import opened Common
  import opened Events
  import LocalSearchAgent

  /** The text of the 'error' emission when the chain cannot be built. */
  const WritingErrorMessage := "An error has occurred please try again later"

  /** What `handleStream` emits for one event: its two `if`s in order. */
  function RouteEvent(e: StreamEvent): (r: seq<Emission>)
    ensures |r| <= 1
    ensures r == [Data(Response(e.chunk))] <==> e.event == OnChainStream && e.name == FinalResponseGenerator
    ensures r == [End] <==> e.event == OnChainEnd && e.name == FinalResponseGenerator
    ensures r == [] <==> e.name != FinalResponseGenerator || (e.event != OnChainStream && e.event != OnChainEnd)
  {
    assert OnChainEnd[9] != OnChainStream[9];
    var response := if e.event == OnChainStream && e.name == FinalResponseGenerator then [Data(Response(e.chunk))] else [];
    var end := if e.event == OnChainEnd && e.name == FinalResponseGenerator then [End] else [];
    var r := response + end;
    // the two conditions exclude each other, so at most one `if` fires
    assert r == (if e.event == OnChainStream && e.name == FinalResponseGenerator then [Data(Response(e.chunk))]
                 else if e.event == OnChainEnd && e.name == FinalResponseGenerator then [End]
                 else []);
    r
  }

  /** Everything `handleStream` emits for a stream, event by event. */
  function RouteStream(events: seq<StreamEvent>): (r: seq<Emission>)
    ensures |r| <= |events|
  {
    if events == [] then []
    else RouteStream(events[..|events| - 1]) + RouteEvent(events[|events| - 1])
  }

  /** Emissions follow event order: the emissions of a stream split where the stream does. */
  lemma {:induction false} RouteStreamAppend(a: seq<StreamEvent>, b: seq<StreamEvent>)
    ensures RouteStream(a + b) == RouteStream(a) + RouteStream(b)
    decreases |b|
  {
    if b == [] {
      assert a + b == a;
    } else {
      var b', e := b[..|b| - 1], b[|b| - 1];
      assert (a + b)[..|a + b| - 1] == a + b';
      assert (a + b)[|a + b| - 1] == e;
      RouteStreamAppend(a, b');
      ConcatAssoc(RouteStream(a), RouteStream(b'), RouteEvent(e));
    }
  }

  /** This mode never emits 'sources' (nor 'error'): only 'response' chunks and 'end'. */
  lemma {:induction false} RouteStreamOnlyResponsesAndEnd(events: seq<StreamEvent>)
    ensures forall k :: 0 <= k < |RouteStream(events)| ==>
              RouteStream(events)[k].End? || (RouteStream(events)[k].Data? && RouteStream(events)[k].message.Response?)
  {
    if events != [] {
      RouteStreamOnlyResponsesAndEnd(events[..|events| - 1]);
    }
  }

  /** One event: routed as the local search agent routes it, less a 'sources' emission. */
  lemma RouteEventIsSearchRouteWithoutSources(e: StreamEvent)
    ensures RouteEvent(e) == WithoutSources(LocalSearchAgent.RouteEvent(e))
  {
    var local := LocalSearchAgent.RouteEvent(e);
    if local != [] {
      WithoutSourcesSingle(local[0]);
      assert local == [local[0]];
    }
  }

  /**
   * The writing assistant routes a stream exactly as the local search agent
   * does, with every 'sources' emission left out.
   */
  lemma {:induction false} RouteStreamIsSearchRouteWithoutSources(events: seq<StreamEvent>)
    ensures RouteStream(events) == WithoutSources(LocalSearchAgent.RouteStream(events))
  {
    if events != [] {
      var init, last := events[..|events| - 1], events[|events| - 1];
      RouteStreamIsSearchRouteWithoutSources(init);
      RouteEventIsSearchRouteWithoutSources(last);
      WithoutSourcesAppend(LocalSearchAgent.RouteStream(init), LocalSearchAgent.RouteEvent(last));
    }
  }

  /** The body of `handleStream`'s loop: the two `if`s for one event. */
  method HandleEvent(event: StreamEvent, emitter: Emitter)
    modifies emitter
    ensures emitter.emitted == old(emitter.emitted) + RouteEvent(event)
    ensures emitter.handlesError == old(emitter.handlesError)
  {
    ghost var response := if event.event == OnChainStream && event.name == FinalResponseGenerator
                          then [Data(Response(event.chunk))] else [];
    var threw;
    if event.event == OnChainStream && event.name == FinalResponseGenerator {
      threw := emitter.Emit(Data(Response(event.chunk)));
    }
    assert emitter.emitted == old(emitter.emitted) + response;
    if event.event == OnChainEnd && event.name == FinalResponseGenerator {
      threw := emitter.Emit(End);
    }
  }

  /** `handleStream`: the for-await loop over the stream, emitting as it goes. */
  method HandleStream(stream: seq<StreamEvent>, emitter: Emitter)
    modifies emitter
    ensures emitter.emitted == old(emitter.emitted) + RouteStream(stream)
    ensures emitter.handlesError == old(emitter.handlesError)
  {
    for i := 0 to |stream|
      invariant emitter.emitted == old(emitter.emitted) + RouteStream(stream[..i])
      invariant emitter.handlesError == old(emitter.handlesError)
    {
      HandleEvent(stream[i], emitter);
      assert stream[..i + 1][..i] == stream[..i];
      ConcatAssoc(old(emitter.emitted), RouteStream(stream[..i]), RouteEvent(stream[i]));
    }
    assert stream[..|stream|] == stream;
  }

  /**
   * `handleWritingAssistant` as written. When building the chain throws, the
   * catch block emits 'error' on the new emitter before the caller can
   * attach a listener, so the emit itself throws (`threw`) and the emitter
   * never reaches the caller.
   */
  method HandleWritingAssistant(build: ChainBuild) returns (emitter: Emitter, threw: bool)
    ensures fresh(emitter)
    ensures threw <==> build.BuildFailed?
    ensures build.Built? ==> emitter.emitted == RouteStream(build.stream)
    ensures build.BuildFailed? ==> emitter.emitted == []
  {
    emitter := new Emitter();
    match build
    case Built(stream) =>
      HandleStream(stream, emitter);
      threw := false;
    case BuildFailed =>
      threw := emitter.Emit(Error(WritingErrorMessage));
  }

  /** What the caller should see: the stream's emissions, or the one generic error. */
  function WritingOutcome(build: ChainBuild): (r: seq<Emission>)
    ensures build.BuildFailed? ==> r == [Error(WritingErrorMessage)]
    ensures build.Built? ==> forall k :: 0 <= k < |r| ==> !r[k].Error? && !IsSources(r[k])
  {
    match build
    case Built(stream) =>
      RouteStreamOnlyResponsesAndEnd(stream);
      RouteStream(stream)
    case BuildFailed => [Error(WritingErrorMessage)]
  }

  /**
   * The entry point with the error emission deferred until the caller's
   * listeners are attached (as `process.nextTick` would): the caller always
   * receives the emitter, and on a build failure exactly one 'error'
   * emission with the generic message.
   */
  method HandleWritingAssistantDeferred(build: ChainBuild) returns (emitter: Emitter)
    ensures fresh(emitter)
    ensures emitter.emitted == WritingOutcome(build)
  {
    emitter := new Emitter();
    // the deferred part runs after the caller has attached its listeners
    emitter.OnError();
    match build
    case Built(stream) =>
      HandleStream(stream, emitter);
    case BuildFailed =>
      var threw := emitter.Emit(Error(WritingErrorMessage));
  }

  /**
   * A build failure, as written: the call throws and nothing is delivered,
   * where one 'error' emission was meant to reach the caller.
   */
  method BuildFailureThrows() returns (threw: bool, delivered: seq<Emission>, intended: seq<Emission>)
    ensures threw && delivered == []
    ensures intended == [Error(WritingErrorMessage)]
  {
    var emitter;
    emitter, threw := HandleWritingAssistant(BuildFailed);
    delivered := emitter.emitted;
    var fixedEmitter := HandleWritingAssistantDeferred(BuildFailed);
    intended := fixedEmitter.emitted;
  }
}
