/** The question-answering chain of src/app/core/rag_chain.py: one similarity
    query, the confidence and context helper, one generation call, and the
    metric hooks around them. The vector store and the chat model are opaque
    functions returning either a value or the exception they raised. */
module RagChain {
  import opened Wrappers
  import opened Config
  import opened Documents
  import opened Confidence
  import opened Context
  import opened Metrics

  /** One `(document, score)` pair of a similarity query. */
  datatype Pair = Pair(doc: Document, score: real)

  /** The two slots the fixed prompt template is filled with. */
  datatype Prompt = Prompt(question: string, context: string)

  /** RAGResult. */
  datatype RagResult = RagResult(answer: string, bestScore: Option<real>, lowConfidence: bool)

  /** The durations the three timing scopes measure on this request. */
  datatype Timings = Timings(retrieval: real, llm: real, request: real)

  /** RAGChainState: the vector store's `similarity_search_with_score(question, k)`,
      the chat model's `invoke(prompt).content`, and the settings. */
  datatype ChainState = ChainState(
    search: (string, nat) -> Result<seq<Pair>, Exception>,
    chat: Prompt -> Result<string, Exception>,
    settings: Settings)

  /** `[doc for doc, _ in pairs]`. */
  function DocsOf(pairs: seq<Pair>): (docs: seq<Document>)
    ensures |docs| == |pairs|
    ensures forall i :: 0 <= i < |pairs| ==> docs[i] == pairs[i].doc
  {
    seq(|pairs|, i requires 0 <= i < |pairs| => pairs[i].doc)
  }

  /** `[s for _, s in pairs]`. */
  function ScoresOf(pairs: seq<Pair>): (scores: seq<real>)
    ensures |scores| == |pairs|
    ensures forall i :: 0 <= i < |pairs| ==> scores[i] == pairs[i].score
  {
    seq(|pairs|, i requires 0 <= i < |pairs| => pairs[i].score)
  }

  /** The hook calls of the confidence-and-context step: the document count, then
      the quality recording when there is at least one score. */
  function ContextEvents(docCount: nat, scores: seq<real>, threshold: Option<real>): seq<Event>
  {
    [RetrievedDocs(docCount)]
      + (if scores == [] then [] else [RetrievalQuality(Assess(scores, threshold).bestScore.value, threshold)])
  }

  /** The outcome of one question: the first exception raised, unchanged, or the
      model's answer with the assessment of the retrieved scores. */
  function Answer(question: string, state: ChainState): Result<RagResult, Exception>
  {
    match state.search(question, state.settings.retrieverK)
    case Failure(e) => Failure(e)
    case Success(pairs) =>
      var q := Assess(ScoresOf(pairs), state.settings.retrievalScoreThreshold);
      match state.chat(Prompt(question, Render(DocsOf(pairs))))
      case Failure(e) => Failure(e)
      case Success(content) => Success(RagResult(content, q.bestScore, q.lowConfidence))
  }

  /** How far one request got: stopped by a raising query, or past retrieval with
      `docCount` documents, the best score recorded (if any) and whether the
      model answered. */
  datatype Path =
    | StoppedAtRetrieval
    | Generated(docCount: nat, recorded: Option<real>, threshold: Option<real>, answered: bool)

  function PathOf(question: string, state: ChainState): Path
  {
    match state.search(question, state.settings.retrieverK)
    case Failure(_) => StoppedAtRetrieval
    case Success(pairs) =>
      Generated(|pairs|,
                Assess(ScoresOf(pairs), state.settings.retrievalScoreThreshold).bestScore,
                state.settings.retrievalScoreThreshold,
                state.chat(Prompt(question, Render(DocsOf(pairs)))).Success?)
  }

  predicate Raised(p: Path)
  {
    !(p.Generated? && p.answered)
  }

  /** The hook calls of `answer_question` along a path, in order. */
  function Trail(p: Path, t: Timings): seq<Event>
  {
    match p
    case StoppedAtRetrieval => [RetrievalTimed(t.retrieval), RequestTimed(t.request)]
    case Generated(n, recorded, thr, answered) =>
      [RetrievalTimed(t.retrieval), RetrievedDocs(n)]
        + (if recorded.Some? then [RetrievalQuality(recorded.value, thr)] else [])
        + [LlmTimed(t.llm)]
        + (if answered then [SuccessRecorded] else [])
        + [RequestTimed(t.request)]
  }

  /** The hook calls of `answer_question_with_metrics` along a path: those of
      `answer_question`, then one error recording when it raised. */
  function WrappedTrail(p: Path, t: Timings): seq<Event>
  {
    Trail(p, t) + (if Raised(p) then [ErrorRecorded] else [])
  }

  function AnswerEvents(question: string, state: ChainState, t: Timings): seq<Event>
  {
    Trail(PathOf(question, state), t)
  }

  function RequestEvents(question: string, state: ChainState, t: Timings): seq<Event>
  {
    WrappedTrail(PathOf(question, state), t)
  }

  /** A request raises exactly when its path says it did. */
  lemma RaisedIff(question: string, state: ChainState)
    ensures Answer(question, state).Failure? <==> Raised(PathOf(question, state))
  {
  }

  /** What a request does when the similarity query raises. */
  lemma RetrievalRaised(question: string, state: ChainState, t: Timings)
    requires state.search(question, state.settings.retrieverK).Failure?
    ensures Answer(question, state) == Failure(state.search(question, state.settings.retrieverK).error)
    ensures AnswerEvents(question, state, t) == [RetrievalTimed(t.retrieval), RequestTimed(t.request)]
  {
  }

  /** What a request does once the similarity query returned `pairs` and the
      model was asked about them. */
  lemma RetrievalReturned(question: string, state: ChainState, t: Timings, pairs: seq<Pair>,
                          bestScore: Option<real>, lowConfidence: bool, response: Result<string, Exception>)
    requires state.search(question, state.settings.retrieverK) == Success(pairs)
    requires Quality(bestScore, lowConfidence) == Assess(ScoresOf(pairs), state.settings.retrievalScoreThreshold)
    requires response == state.chat(Prompt(question, Render(DocsOf(pairs))))
    ensures Answer(question, state)
         == if response.Failure? then Failure(response.error)
            else Success(RagResult(response.value, bestScore, lowConfidence))
    ensures AnswerEvents(question, state, t)
         == [RetrievalTimed(t.retrieval)]
            + ContextEvents(|pairs|, ScoresOf(pairs), state.settings.retrievalScoreThreshold)
            + [LlmTimed(t.llm)]
            + (if response.Success? then [SuccessRecorded] else [])
            + [RequestTimed(t.request)]
  {
    var thr := state.settings.retrievalScoreThreshold;
    var p := PathOf(question, state);
    var q := if bestScore.Some? then [RetrievalQuality(bestScore.value, thr)] else [];
    assert ContextEvents(|pairs|, ScoresOf(pairs), thr) == [RetrievedDocs(|pairs|)] + q;
    assert Trail(p, t) == [RetrievalTimed(t.retrieval), RetrievedDocs(|pairs|)] + q + [LlmTimed(t.llm)]
                          + (if response.Success? then [SuccessRecorded] else []) + [RequestTimed(t.request)];
  }

  /** Every answer carries the assessment of the retrieved scores: a best score
      in [0, 1] exactly when something was retrieved, low confidence whenever
      nothing was, and the model's reply to the question and the rendered context
      of the query made with `k = retriever_k`. */
  lemma AnswerCarriesAssessment(question: string, state: ChainState)
    requires Answer(question, state).Success?
    ensures var retrieved := state.search(question, state.settings.retrieverK);
            var r := Answer(question, state).value;
            && retrieved.Success?
            && (r.bestScore.None? <==> retrieved.value == [])
            && (r.bestScore.Some? ==> 0.0 <= r.bestScore.value <= 1.0)
            && (retrieved.value == [] ==> r.lowConfidence)
            && r.answer == state.chat(Prompt(question, Render(DocsOf(retrieved.value)))).value
  {
  }

  /** The chain never translates or swallows an exception: a failed answer is the
      first collaborator exception, unchanged. */
  lemma AnswerPropagatesException(question: string, state: ChainState)
    ensures var retrieved := state.search(question, state.settings.retrieverK);
            retrieved.Failure? ==> Answer(question, state) == Failure(retrieved.error)
    ensures var retrieved := state.search(question, state.settings.retrieverK);
            retrieved.Success? ==>
              var response := state.chat(Prompt(question, Render(DocsOf(retrieved.value))));
              response.Failure? ==> Answer(question, state) == Failure(response.error)
  {
  }

  lemma CallsSingleton(e: Event, h: Hook)
    ensures Calls([e], h) == (if HookOf(e) == h then 1 else 0)
  {
    assert [e][..0] == [];
  }

  lemma LowHitsSingleton(e: Event)
    ensures LowHits([e]) == (if e.RetrievalQuality? && IsLowConfidence(e.bestScore, e.threshold) then 1 else 0)
  {
    assert [e][..0] == [];
  }

  /** How many calls of hook `h` a request along path `p` makes. */
  function ExpectedCalls(p: Path, h: Hook): nat
  {
    match h
    case TrackRetrieval => 1
    case TrackRequest => 1
    case TrackLlm => if p.Generated? then 1 else 0
    case DocsHook => if p.Generated? then 1 else 0
    case QualityHook => if p.Generated? && p.recorded.Some? then 1 else 0
    case SuccessHook => if Raised(p) then 0 else 1
    case ErrorHook => if Raised(p) then 1 else 0
  }

  /** How many times each hook fires along one path. */
  lemma {:induction false} TrailCounts(p: Path, t: Timings, h: Hook)
    ensures Calls(WrappedTrail(p, t), h) == ExpectedCalls(p, h)
  {
    var tail := if Raised(p) then [ErrorRecorded] else [];
    CallsAppend(Trail(p, t), tail, h);
    var c := if HookOf(ErrorRecorded) == h then 1 else 0;
    assert Calls(tail, h) == if Raised(p) then c else 0 by {
      if tail != [] { CallsSingleton(ErrorRecorded, h); }
    }
    if p.StoppedAtRetrieval? {
      StoppedCounts(t, h);
    } else {
      GeneratedCounts(p, t, h);
    }
  }

  lemma {:induction false} StoppedCounts(t: Timings, h: Hook)
    ensures Calls(Trail(StoppedAtRetrieval, t), h)
         == (if h == TrackRetrieval || h == TrackRequest then 1 else 0)
  {
    CallsAppend([RetrievalTimed(t.retrieval)], [RequestTimed(t.request)], h);
    CallsSingleton(RetrievalTimed(t.retrieval), h);
    CallsSingleton(RequestTimed(t.request), h);
    assert [RetrievalTimed(t.retrieval)] + [RequestTimed(t.request)] == Trail(StoppedAtRetrieval, t);
  }

  /** Calls over five consecutive pieces. */
  lemma CallsAppend5(a: seq<Event>, b: seq<Event>, c: seq<Event>, d: seq<Event>, e: seq<Event>, h: Hook)
    ensures Calls(a + b + c + d + e, h) == Calls(a, h) + Calls(b, h) + Calls(c, h) + Calls(d, h) + Calls(e, h)
  {
    CallsAppend(a + b + c + d, e, h);
    CallsAppend(a + b + c, d, h);
    CallsAppend(a + b, c, h);
    CallsAppend(a, b, h);
  }

  lemma {:induction false} GeneratedCounts(p: Path, t: Timings, h: Hook)
    requires p.Generated?
    ensures Calls(Trail(p, t), h)
         == (if h == TrackRetrieval || h == DocsHook || h == TrackLlm || h == TrackRequest then 1 else 0)
          + (if h == QualityHook && p.recorded.Some? then 1 else 0)
          + (if h == SuccessHook && p.answered then 1 else 0)
  {
    var a := [RetrievalTimed(t.retrieval), RetrievedDocs(p.docCount)];
    var q := if p.recorded.Some? then [RetrievalQuality(p.recorded.value, p.threshold)] else [];
    var l := [LlmTimed(t.llm)];
    var su := if p.answered then [SuccessRecorded] else [];
    var r := [RequestTimed(t.request)];
    CallsAppend5(a, q, l, su, r, h);
    assert Calls(a, h) == (if h == TrackRetrieval || h == DocsHook then 1 else 0) by {
      assert a == [RetrievalTimed(t.retrieval)] + [RetrievedDocs(p.docCount)];
      CallsAppend([RetrievalTimed(t.retrieval)], [RetrievedDocs(p.docCount)], h);
      CallsSingleton(RetrievalTimed(t.retrieval), h);
      CallsSingleton(RetrievedDocs(p.docCount), h);
    }
    CallsSingleton(LlmTimed(t.llm), h);
    CallsSingleton(RequestTimed(t.request), h);
    assert Calls(q, h) == (if h == QualityHook && p.recorded.Some? then 1 else 0) by {
      if p.recorded.Some? { CallsSingleton(RetrievalQuality(p.recorded.value, p.threshold), h); }
    }
    assert Calls(su, h) == (if h == SuccessHook && p.answered then 1 else 0) by {
      if p.answered { CallsSingleton(SuccessRecorded, h); }
    }
  }

  /** Along one path the low-confidence counter moves once exactly when a best
      score was recorded and it fails the threshold. */
  lemma {:induction false} TrailLowHits(p: Path, t: Timings)
    ensures LowHits(WrappedTrail(p, t))
         == if p.Generated? && p.recorded.Some? && IsLowConfidence(p.recorded.value, p.threshold) then 1 else 0
  {
    var tail := if Raised(p) then [ErrorRecorded] else [];
    LowHitsAppend(Trail(p, t), tail);
    if tail != [] { LowHitsSingleton(ErrorRecorded); }
    match p
    case StoppedAtRetrieval =>
      LowHitsAppend([RetrievalTimed(t.retrieval)], [RequestTimed(t.request)]);
      LowHitsSingleton(RetrievalTimed(t.retrieval));
      LowHitsSingleton(RequestTimed(t.request));
      assert [RetrievalTimed(t.retrieval)] + [RequestTimed(t.request)] == Trail(p, t);
    case Generated(n, recorded, thr, answered) =>
      var a := [RetrievalTimed(t.retrieval), RetrievedDocs(n)];
      var q := if recorded.Some? then [RetrievalQuality(recorded.value, thr)] else [];
      var l := [LlmTimed(t.llm)];
      var su := if answered then [SuccessRecorded] else [];
      var r := [RequestTimed(t.request)];
      LowHitsAppend(a + q + l + su, r);
      LowHitsAppend(a + q + l, su);
      LowHitsAppend(a + q, l);
      LowHitsAppend(a, q);
      LowHitsAppend([RetrievalTimed(t.retrieval)], [RetrievedDocs(n)]);
      assert [RetrievalTimed(t.retrieval)] + [RetrievedDocs(n)] == a;
      LowHitsSingleton(RetrievalTimed(t.retrieval));
      LowHitsSingleton(RetrievedDocs(n));
      LowHitsSingleton(LlmTimed(t.llm));
      LowHitsSingleton(RequestTimed(t.request));
      if recorded.Some? { LowHitsSingleton(RetrievalQuality(recorded.value, thr)); }
      if answered { LowHitsSingleton(SuccessRecorded); }
  }

  /** Each request records exactly one outcome: success when it answered, error
      when it raised. */
  lemma {:induction false} OneOutcomePerRequest(question: string, state: ChainState, t: Timings, s: MetricsState)
    ensures var s' := Replay(s, RequestEvents(question, state, t));
            && s'.requestsSuccess == s.requestsSuccess + (if Answer(question, state).Success? then 1 else 0)
            && s'.requestsError == s.requestsError + (if Answer(question, state).Failure? then 1 else 0)
  {
    var p := PathOf(question, state);
    ReplayCounts(s, WrappedTrail(p, t));
    TrailCounts(p, t, SuccessHook);
    TrailCounts(p, t, ErrorHook);
    RaisedIff(question, state);
  }

  /** Each timing scope observes once per request: retrieval and request always,
      generation whenever the request got past retrieval; the document count is
      observed on that same condition. */
  lemma {:induction false} EachScopeObservesOnce(question: string, state: ChainState, t: Timings, s: MetricsState)
    ensures var s' := Replay(s, RequestEvents(question, state, t));
            var reached := state.search(question, state.settings.retrieverK).Success?;
            && |s'.retrievalSeconds| == |s.retrievalSeconds| + 1
            && |s'.requestSeconds| == |s.requestSeconds| + 1
            && |s'.llmSeconds| == |s.llmSeconds| + (if reached then 1 else 0)
            && |s'.documentsRetrieved| == |s.documentsRetrieved| + (if reached then 1 else 0)
  {
    var p := PathOf(question, state);
    ReplayCounts(s, WrappedTrail(p, t));
    TrailCounts(p, t, TrackRetrieval);
    TrailCounts(p, t, TrackRequest);
    TrailCounts(p, t, TrackLlm);
    TrailCounts(p, t, DocsHook);
  }

  /** The low-confidence counter moves once exactly when the retrieved scores are
      non-empty and assessed as low, as soon as the quality is recorded (so also
      when generation then fails); an empty result never moves it, although the
      chain then reports low confidence. */
  lemma {:induction false} LowConfidenceCounted(question: string, state: ChainState, t: Timings, s: MetricsState)
    ensures var retrieved := state.search(question, state.settings.retrieverK);
            var thr := state.settings.retrievalScoreThreshold;
            Replay(s, RequestEvents(question, state, t)).lowConfidenceTotal
              == s.lowConfidenceTotal
                 + (if retrieved.Success? && ScoresOf(retrieved.value) != []
                       && Assess(ScoresOf(retrieved.value), thr).lowConfidence then 1 else 0)
  {
    var p := PathOf(question, state);
    ReplayCounts(s, WrappedTrail(p, t));
    TrailLowHits(p, t);
  }

  /** For an answered request the counter agrees with the returned flag whenever a
      best score exists, and never moves when none does. */
  lemma LowConfidenceMatchesResult(question: string, state: ChainState, t: Timings, s: MetricsState)
    requires Answer(question, state).Success?
    ensures var r := Answer(question, state).value;
            Replay(s, RequestEvents(question, state, t)).lowConfidenceTotal
              == s.lowConfidenceTotal + (if r.bestScore.Some? && r.lowConfidence then 1 else 0)
  {
    LowConfidenceCounted(question, state, t, s);
  }

  /** Order within one request: retrieval timing comes first, the document count
      precedes any quality recording, success is recorded right after the
      generation scope was left, and a raised request ends with its error
      recording and records no success. */
  lemma TrailOrder(p: Path, t: Timings)
    ensures var ev := WrappedTrail(p, t);
            && ev[0] == RetrievalTimed(t.retrieval)
            && (forall i, j :: 0 <= i < |ev| && 0 <= j < |ev| && ev[i].RetrievedDocs? && ev[j].RetrievalQuality? ==> i < j)
            && (forall i :: 0 <= i < |ev| && ev[i] == SuccessRecorded ==> 0 < i && ev[i - 1].LlmTimed?)
            && (Raised(p) ==> ev[|ev| - 1] == ErrorRecorded && SuccessRecorded !in ev)
  {
  }

  /** `_build_enriched_context`. */
  method BuildEnrichedContext(docs: seq<Document>, scores: seq<real>, settings: Settings, metrics: Registry)
    returns (context: string, bestScore: Option<real>, lowConfidence: bool)
    requires metrics.Valid()
    modifies metrics
    ensures metrics.Valid()
    ensures metrics.log == old(metrics.log) + ContextEvents(|docs|, scores, settings.retrievalScoreThreshold)
    ensures context == Render(docs)
    ensures Quality(bestScore, lowConfidence) == Assess(scores, settings.retrievalScoreThreshold)
  {
    metrics.RecordRetrievedDocs(|docs|);
    bestScore := None;
    lowConfidence := true;
    if scores != [] {
      var rawBest := if Max(scores) <= 1.0 then Max(scores) else 1.0 - Min(scores);
      var best := Clamp(rawBest);
      bestScore := Some(best);
      metrics.RecordRetrievalQuality(best, settings.retrievalScoreThreshold);
      var thr := settings.retrievalScoreThreshold;
      lowConfidence := thr.Some? && best < thr.value;
    }
    context := BuildContext(docs);
  }

  /** `answer_question`: retrieval, confidence and context, generation, success;
      each timing scope records as it is left, also when its body raised. */
  method AnswerQuestion(question: string, state: ChainState, metrics: Registry, t: Timings)
    returns (r: Result<RagResult, Exception>)
    requires metrics.Valid()
    modifies metrics
    ensures metrics.Valid()
    ensures metrics.log == old(metrics.log) + AnswerEvents(question, state, t)
    ensures r == Answer(question, state)
  {
    ghost var start := metrics.log;
    var retrieved := state.search(question, state.settings.retrieverK);
    metrics.TrackRetrievalTime(t.retrieval);
    if retrieved.Failure? {
      metrics.TrackRequestTime(t.request);
      RetrievalRaised(question, state, t);
      Regroup2(start, [RetrievalTimed(t.retrieval)], [RequestTimed(t.request)]);
      return Failure(retrieved.error);
    }
    var pairs := retrieved.value;
    var context, bestScore, lowConfidence :=
      BuildEnrichedContext(DocsOf(pairs), ScoresOf(pairs), state.settings, metrics);
    ghost var contextEvents := ContextEvents(|pairs|, ScoresOf(pairs), state.settings.retrievalScoreThreshold);
    var response := state.chat(Prompt(question, context));
    RetrievalReturned(question, state, t, pairs, bestScore, lowConfidence, response);
    metrics.TrackLlmTime(t.llm);
    if response.Failure? {
      metrics.TrackRequestTime(t.request);
      Regroup4(start, [RetrievalTimed(t.retrieval)], contextEvents, [LlmTimed(t.llm)], [RequestTimed(t.request)]);
      return Failure(response.error);
    }
    metrics.RecordSuccess();
    r := Success(RagResult(response.value, bestScore, lowConfidence));
    metrics.TrackRequestTime(t.request);
    Regroup5(start, [RetrievalTimed(t.retrieval)], contextEvents, [LlmTimed(t.llm)], [SuccessRecorded], [RequestTimed(t.request)]);
  }

  /** `answer_question_with_metrics`: records one error when the chain raised and
      re-raises the same exception. */
  method AnswerQuestionWithMetrics(question: string, state: ChainState, metrics: Registry, t: Timings)
    returns (r: Result<RagResult, Exception>)
    requires metrics.Valid()
    modifies metrics
    ensures metrics.Valid()
    ensures metrics.log == old(metrics.log) + RequestEvents(question, state, t)
    ensures metrics.State() == Replay(old(metrics.State()), RequestEvents(question, state, t))
    ensures r == Answer(question, state)
  {
    r := AnswerQuestion(question, state, metrics, t);
    if r.Failure? {
      metrics.RecordError();
    }
    ReplayAppend(Initial, old(metrics.log), RequestEvents(question, state, t));
  }
}
