/** The closure-based copy of the chain, in app/core/rag_chain.py:
    `create_rag_chain` returns a closure `answer_question_with_metrics` around
    a closure `answer_question`
    that inlines the confidence and context computation instead of calling a
    helper. The closures' captured vector store, chat model and settings are the
    ChainState of RagChain; both closures are proved to behave exactly as
    src/app/core/rag_chain.py does, hook call for hook call. */
module AppRagChain {
  import opened Wrappers
  import opened Documents
  import opened Confidence
  import opened Context
  import opened Metrics
  import opened RagChain

  /** The inner closure `answer_question`. */
  method AnswerQuestion(question: string, state: ChainState, metrics: Registry, t: Timings)
    returns (r: Result<RagResult, Exception>)
    requires metrics.Valid()
    modifies metrics
    ensures metrics.Valid()
    ensures metrics.log == old(metrics.log) + AnswerEvents(question, state, t)
    ensures r == Answer(question, state)
  {
    ghost var start := metrics.log;
    var retrieved := state.search(question, state.settings.retrieverK);
    metrics.TrackRetrievalTime(t.retrieval);
    if retrieved.Failure? {
      metrics.TrackRequestTime(t.request);
      RetrievalRaised(question, state, t);
      Regroup2(start, [RetrievalTimed(t.retrieval)], [RequestTimed(t.request)]);
      return Failure(retrieved.error);
    }
    var docs := DocsOf(retrieved.value);
    var scores := ScoresOf(retrieved.value);
    ghost var thr := state.settings.retrievalScoreThreshold;
    ghost var retrievalDone := metrics.log;

    metrics.RecordRetrievedDocs(|docs|);
    var bestScore: Option<real> := None;
    var lowConfidence := true;
    if scores != [] {
      var rawBest := if Max(scores) <= 1.0 then Max(scores) else 1.0 - Min(scores);
      var best := Clamp(rawBest);
      bestScore := Some(best);
      metrics.RecordRetrievalQuality(best, state.settings.retrievalScoreThreshold);
      Regroup2(retrievalDone, [RetrievedDocs(|docs|)], [RetrievalQuality(best, thr)]);
      var threshold := state.settings.retrievalScoreThreshold;
      lowConfidence := threshold.Some? && best < threshold.value;
    }
    ghost var contextEvents := ContextEvents(|docs|, scores, thr);
    assert metrics.log == retrievalDone + contextEvents;

    // The section loop is the same code as in src/app/core/rag_chain.py.
    var context := BuildContext(docs);

    var response := state.chat(Prompt(question, context));
    RetrievalReturned(question, state, t, retrieved.value, bestScore, lowConfidence, response);
    metrics.TrackLlmTime(t.llm);
    if response.Failure? {
      metrics.TrackRequestTime(t.request);
      Regroup4(start, [RetrievalTimed(t.retrieval)], contextEvents, [LlmTimed(t.llm)], [RequestTimed(t.request)]);
      return Failure(response.error);
    }
    metrics.RecordSuccess();
    r := Success(RagResult(response.value, bestScore, lowConfidence));
    metrics.TrackRequestTime(t.request);
    Regroup5(start, [RetrievalTimed(t.retrieval)], contextEvents, [LlmTimed(t.llm)], [SuccessRecorded], [RequestTimed(t.request)]);
  }

  /** The outer closure `answer_question_with_metrics`: one error recording when
      the inner closure raised, then the same exception re-raised. */
  method AnswerQuestionWithMetrics(question: string, state: ChainState, metrics: Registry, t: Timings)
    returns (r: Result<RagResult, Exception>)
    requires metrics.Valid()
    modifies metrics
    ensures metrics.Valid()
    ensures metrics.log == old(metrics.log) + RequestEvents(question, state, t)
    ensures metrics.State() == Replay(old(metrics.State()), RequestEvents(question, state, t))
    ensures r == Answer(question, state)
  {
    r := AnswerQuestion(question, state, metrics, t);
    if r.Failure? {
      metrics.RecordError();
    }
    ReplayAppend(Initial, old(metrics.log), RequestEvents(question, state, t));
  }
}
