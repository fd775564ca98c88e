/** The request metrics of src/app/metrics.py: two request counters labelled by
    status, a low-confidence counter and five histograms, each histogram kept as
    the sequence of values it has observed. Durations are inputs: the wall clock
    is not part of the model. */
module Metrics {
  import opened Wrappers

  /** One call of an instrumentation hook, as it reaches the metric objects. */
  datatype Event =
    | RetrievalTimed(seconds: real)    // track_retrieval_time, on leaving its body
    | LlmTimed(seconds: real)          // track_llm_time, on leaving its body
    | RequestTimed(seconds: real)      // track_request_time, on leaving its body
    | RetrievedDocs(count: nat)        // record_retrieved_docs
    | RetrievalQuality(bestScore: real, threshold: Option<real>)  // record_retrieval_quality
    | SuccessRecorded                  // record_success
    | ErrorRecorded                    // record_error

  /** Which hook an event comes from. */
  datatype Hook = TrackRetrieval | TrackLlm | TrackRequest | DocsHook | QualityHook | SuccessHook | ErrorHook

  function HookOf(e: Event): Hook
  {
    match e
    case RetrievalTimed(_) => TrackRetrieval
    case LlmTimed(_) => TrackLlm
    case RequestTimed(_) => TrackRequest
    case RetrievedDocs(_) => DocsHook
    case RetrievalQuality(_, _) => QualityHook
    case SuccessRecorded => SuccessHook
    case ErrorRecorded => ErrorHook
  }

  /** The value of every metric object. */
  datatype MetricsState = MetricsState(
    requestsSuccess: nat,        // rag_requests_total{status="success"}
    requestsError: nat,          // rag_requests_total{status="error"}
    lowConfidenceTotal: nat,     // rag_retrieval_low_confidence_total
    retrievalSeconds: seq<real>, // rag_retrieval_duration_seconds
    llmSeconds: seq<real>,       // rag_llm_duration_seconds
    requestSeconds: seq<real>,   // rag_request_duration_seconds
    documentsRetrieved: seq<nat>,// rag_documents_retrieved
    bestScores: seq<real>)       // rag_retrieval_best_score

  /** Every metric as the process starts. */
  const Initial: MetricsState := MetricsState(0, 0, 0, [], [], [], [], [])

  /** The low-confidence test of record_retrieval_quality. */
  predicate IsLowConfidence(bestScore: real, threshold: Option<real>)
  {
    threshold.Some? && bestScore < threshold.value
  }

  /** What one hook call does to the metrics. */
  function Apply(s: MetricsState, e: Event): MetricsState
  {
    match e
    case RetrievalTimed(d) => s.(retrievalSeconds := s.retrievalSeconds + [d])
    case LlmTimed(d) => s.(llmSeconds := s.llmSeconds + [d])
    case RequestTimed(d) => s.(requestSeconds := s.requestSeconds + [d])
    case RetrievedDocs(n) => s.(documentsRetrieved := s.documentsRetrieved + [n])
    case RetrievalQuality(b, t) =>
      s.(bestScores := s.bestScores + [b],
         lowConfidenceTotal := s.lowConfidenceTotal + (if IsLowConfidence(b, t) then 1 else 0))
    case SuccessRecorded => s.(requestsSuccess := s.requestsSuccess + 1)
    case ErrorRecorded => s.(requestsError := s.requestsError + 1)
  }

  /** The metrics after a sequence of hook calls. */
  function Replay(s: MetricsState, es: seq<Event>): MetricsState
    decreases |es|
  {
    if es == [] then s else Apply(Replay(s, es[..|es| - 1]), es[|es| - 1])
  }

  /** How many events of `es` come from hook `h`. */
  function Calls(es: seq<Event>, h: Hook): nat
    decreases |es|
  {
    if es == [] then 0
    else Calls(es[..|es| - 1], h) + (if HookOf(es[|es| - 1]) == h then 1 else 0)
  }

  /** How many quality recordings in `es` pass the low-confidence test. */
  function LowHits(es: seq<Event>): nat
    decreases |es|
  {
    if es == [] then 0
    else
      var e := es[|es| - 1];
      LowHits(es[..|es| - 1]) + (if e.RetrievalQuality? && IsLowConfidence(e.bestScore, e.threshold) then 1 else 0)
  }

  /** Regrouping a history extended piece by piece. */
  lemma Regroup2(log: seq<Event>, a: seq<Event>, b: seq<Event>)
    ensures log + a + b == log + (a + b)
  {
  }

  lemma Regroup4(log: seq<Event>, a: seq<Event>, b: seq<Event>, c: seq<Event>, e: seq<Event>)
    ensures log + a + b + c + e == log + (a + b + c + [] + e)
  {
  }

  lemma Regroup5(log: seq<Event>, a: seq<Event>, b: seq<Event>, c: seq<Event>, d: seq<Event>, e: seq<Event>)
    ensures log + a + b + c + d + e == log + (a + b + c + d + e)
  {
  }

  lemma ReplaySnoc(s: MetricsState, es: seq<Event>, e: Event)
    ensures Replay(s, es + [e]) == Apply(Replay(s, es), e)
  {
    assert (es + [e])[..|es|] == es;
  }

  /** Replaying two histories one after the other is replaying their concatenation. */
  lemma {:induction false} ReplayAppend(s: MetricsState, a: seq<Event>, b: seq<Event>)
    ensures Replay(s, a + b) == Replay(Replay(s, a), b)
    decreases |b|
  {
    if b == [] {
      assert a + b == a;
    } else {
      var b' := b[..|b| - 1];
      var e := b[|b| - 1];
      assert a + b == (a + b') + [e];
      assert b == b' + [e];
      ReplayAppend(s, a, b');
      ReplaySnoc(s, a + b', e);
      ReplaySnoc(Replay(s, a), b', e);
    }
  }

  lemma {:induction false} CallsAppend(a: seq<Event>, b: seq<Event>, h: Hook)
    ensures Calls(a + b, h) == Calls(a, h) + Calls(b, h)
    decreases |b|
  {
    if b == [] {
      assert a + b == a;
    } else {
      var b' := b[..|b| - 1];
      assert (a + b)[..|a + b| - 1] == a + b';
      CallsAppend(a, b', h);
    }
  }

  lemma {:induction false} LowHitsAppend(a: seq<Event>, b: seq<Event>)
    ensures LowHits(a + b) == LowHits(a) + LowHits(b)
    decreases |b|
  {
    if b == [] {
      assert a + b == a;
    } else {
      var b' := b[..|b| - 1];
      assert (a + b)[..|a + b| - 1] == a + b';
      LowHitsAppend(a, b');
    }
  }

  /** Every counter advances by the number of calls of its hook, the
      low-confidence counter by the number of low recordings, and every histogram
      gains one observation per call of its hook: no hook touches a metric that
      is not its own. */
  lemma {:induction false} ReplayCounts(s: MetricsState, es: seq<Event>)
    ensures Replay(s, es).requestsSuccess == s.requestsSuccess + Calls(es, SuccessHook)
    ensures Replay(s, es).requestsError == s.requestsError + Calls(es, ErrorHook)
    ensures Replay(s, es).lowConfidenceTotal == s.lowConfidenceTotal + LowHits(es)
    ensures |Replay(s, es).retrievalSeconds| == |s.retrievalSeconds| + Calls(es, TrackRetrieval)
    ensures |Replay(s, es).llmSeconds| == |s.llmSeconds| + Calls(es, TrackLlm)
    ensures |Replay(s, es).requestSeconds| == |s.requestSeconds| + Calls(es, TrackRequest)
    ensures |Replay(s, es).documentsRetrieved| == |s.documentsRetrieved| + Calls(es, DocsHook)
    ensures |Replay(s, es).bestScores| == |s.bestScores| + Calls(es, QualityHook)
    decreases |es|
  {
    if es != [] {
      ReplayCounts(s, es[..|es| - 1]);
    }
  }

  /** The metric objects, updated in place by the hooks. `log` is the history of
      hook calls; the metric values are always its replay from `Initial`. */
  class Registry {
    var requestsSuccess: nat
    var requestsError: nat
    var lowConfidenceTotal: nat
    var retrievalSeconds: seq<real>
    var llmSeconds: seq<real>
    var requestSeconds: seq<real>
    var documentsRetrieved: seq<nat>
    var bestScores: seq<real>
    ghost var log: seq<Event>

    function State(): MetricsState
      reads this
    {
      MetricsState(requestsSuccess, requestsError, lowConfidenceTotal,
                   retrievalSeconds, llmSeconds, requestSeconds, documentsRetrieved, bestScores)
    }

    ghost predicate Valid()
      reads this
    {
      State() == Replay(Initial, log)
    }

    constructor ()
      ensures Valid() && log == [] && State() == Initial
    {
      requestsSuccess, requestsError, lowConfidenceTotal := 0, 0, 0;
      retrievalSeconds, llmSeconds, requestSeconds := [], [], [];
      documentsRetrieved, bestScores := [], [];
      log := [];
    }

    /** track_retrieval_time: one duration observation when its body exits. */
    method TrackRetrievalTime(seconds: real)
      requires Valid()
      modifies this
      ensures Valid() && log == old(log) + [RetrievalTimed(seconds)]
      ensures State() == old(State()).(retrievalSeconds := old(retrievalSeconds) + [seconds])
    {
      ReplaySnoc(Initial, log, RetrievalTimed(seconds));
      retrievalSeconds := retrievalSeconds + [seconds];
      log := log + [RetrievalTimed(seconds)];
    }

    /** track_llm_time: one duration observation when its body exits. */
    method TrackLlmTime(seconds: real)
      requires Valid()
      modifies this
      ensures Valid() && log == old(log) + [LlmTimed(seconds)]
      ensures State() == old(State()).(llmSeconds := old(llmSeconds) + [seconds])
    {
      ReplaySnoc(Initial, log, LlmTimed(seconds));
      llmSeconds := llmSeconds + [seconds];
      log := log + [LlmTimed(seconds)];
    }

    /** track_request_time: one duration observation when its body exits. */
    method TrackRequestTime(seconds: real)
      requires Valid()
      modifies this
      ensures Valid() && log == old(log) + [RequestTimed(seconds)]
      ensures State() == old(State()).(requestSeconds := old(requestSeconds) + [seconds])
    {
      ReplaySnoc(Initial, log, RequestTimed(seconds));
      requestSeconds := requestSeconds + [seconds];
      log := log + [RequestTimed(seconds)];
    }

    method RecordRetrievedDocs(count: nat)
      requires Valid()
      modifies this
      ensures Valid() && log == old(log) + [RetrievedDocs(count)]
      ensures State() == old(State()).(documentsRetrieved := old(documentsRetrieved) + [count])
    {
      ReplaySnoc(Initial, log, RetrievedDocs(count));
      documentsRetrieved := documentsRetrieved + [count];
      log := log + [RetrievedDocs(count)];
    }

    method RecordSuccess()
      requires Valid()
      modifies this
      ensures Valid() && log == old(log) + [SuccessRecorded]
      ensures State() == old(State()).(requestsSuccess := old(requestsSuccess) + 1)
    {
      ReplaySnoc(Initial, log, SuccessRecorded);
      requestsSuccess := requestsSuccess + 1;
      log := log + [SuccessRecorded];
    }

    method RecordError()
      requires Valid()
      modifies this
      ensures Valid() && log == old(log) + [ErrorRecorded]
      ensures State() == old(State()).(requestsError := old(requestsError) + 1)
    {
      ReplaySnoc(Initial, log, ErrorRecorded);
      requestsError := requestsError + 1;
      log := log + [ErrorRecorded];
    }

    method RecordRetrievalQuality(bestScore: real, threshold: Option<real>)
      requires Valid()
      modifies this
      ensures Valid() && log == old(log) + [RetrievalQuality(bestScore, threshold)]
      ensures State() == old(State()).(
                bestScores := old(bestScores) + [bestScore],
                lowConfidenceTotal := old(lowConfidenceTotal) + (if IsLowConfidence(bestScore, threshold) then 1 else 0))
    {
      ReplaySnoc(Initial, log, RetrievalQuality(bestScore, threshold));
      bestScores := bestScores + [bestScore];
      if threshold.Some? && bestScore < threshold.value {
        lowConfidenceTotal := lowConfidenceTotal + 1;
      }
      log := log + [RetrievalQuality(bestScore, threshold)];
    }
  }
}
