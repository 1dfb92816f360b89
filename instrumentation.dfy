/** The LLM call instrumentation: a telemetry object that owns one request
    counter and one latency histogram, and wraps each call of the model in a
    span while counting it and timing it.

    `instrument_llm_call(prompt, model)` builds a decorator whose wrapper
    awaits the decorated function; here `Invoke` stands for one call of that
    wrapper, with the awaited function replaced by its `Outcome` and the two
    readings of the wall clock passed in. */
module Instrumentation {
  import opened Otel
  import opened Lifecycle

  const DefaultServiceName := "llm-service"
  const DefaultModel := "gpt-3.5-turbo"

  const SpanName := "llm_request"
  const PromptKey := "llm.prompt"
  const ModelKey := "llm.model"
  const ResponseKey := "llm.response"

  const RequestsName := "llm.requests"
  const RequestsDescription := "Number of LLM requests"
  const RequestsUnit := "1"
  const LatencyName := "llm.latency"
  const LatencyDescription := "Latency of LLM requests"
  const LatencyUnit := "ms"

  const ModelLabel := "model"

  /** The arguments given to `instrument_llm_call`. */
  datatype Call = Call(prompt: string, model: string := DefaultModel)

  /** How awaiting the wrapped function ended: it returned a value, it raised
      an `Exception`, or it was interrupted by a `BaseException` that is not an
      `Exception` (a cancellation, for one), which `except Exception` lets
      through. */
  datatype Outcome<V> = Returned(value: V) | Raised(exc: Exc) | Interrupted(exc: Exc)

  /** The attributes the span is opened with. */
  function StartAttributes(call: Call): (a: Labels)
    ensures a.Keys == {PromptKey, ModelKey}
    ensures a[PromptKey] == call.prompt && a[ModelKey] == call.model
  {
    map[PromptKey := call.prompt, ModelKey := call.model]
  }

  /** The span's attributes once the call is over: the start attributes, plus
      the response text when the work returned. */
  function FinalAttributes<V>(call: Call, work: Outcome<V>, show: V -> string): (a: Labels)
    ensures work.Returned? ==> a.Keys == {PromptKey, ModelKey, ResponseKey} && a[ResponseKey] == show(work.value)
    ensures !work.Returned? ==> a.Keys == {PromptKey, ModelKey}
    ensures a[PromptKey] == call.prompt && a[ModelKey] == call.model
  {
    if work.Returned? then StartAttributes(call)[ResponseKey := show(work.value)] else StartAttributes(call)
  }

  /** The span status left by the try/except, as the `finally` block finds it. */
  function SettledStatus<V>(work: Outcome<V>): (s: Status)
    ensures s.Ok? <==> work.Returned?
    ensures s.Error? <==> work.Raised?
    ensures work.Raised? ==> s.description == work.exc.message
  {
    match work
    case Returned(_) => Ok
    case Raised(e) => Error(e.message)
    case Interrupted(_) => Unset
  }

  /** The outcome label derived from the span status code. */
  function StatusLabel(s: Status): (text: string)
    ensures text == SuccessLabel <==> s.Ok?
    ensures text == ErrorLabel <==> !s.Ok?
  {
    OutcomeLabel(s.Ok?)
  }

  /** The labels of one request-counter increment. */
  function CounterLabels(model: string, s: Status): (l: Labels)
    ensures l.Keys == {ModelLabel, StatusKey}
    ensures l[ModelLabel] == model
    ensures l[StatusKey] == SuccessLabel <==> s.Ok?
    ensures l[StatusKey] == ErrorLabel <==> !s.Ok?
  {
    map[ModelLabel := model, StatusKey := StatusLabel(s)]
  }

  /** The labels of one latency sample. */
  function HistogramLabels(model: string): (l: Labels)
    ensures l.Keys == {ModelLabel} && l[ModelLabel] == model
  {
    map[ModelLabel := model]
  }

  /** Elapsed milliseconds between two clock readings.  The readings come
      from a wall clock, so the value is non-negative exactly when the clock
      did not go back. */
  function Duration(start: int, end: int): (d: int)
    ensures start + d == end
    ensures d >= 0 <==> start <= end
  {
    end - start
  }

  /** The span calls of the try/except, by outcome. */
  function Completion<V>(work: Outcome<V>, show: V -> string): seq<Event> {
    match work
    case Returned(v) => [StatusSet(Ok), AttributeSet(ResponseKey, show(v))]
    case Raised(e) => [StatusSet(Error(e.message)), ExceptionRecorded(e)]
    case Interrupted(_) => []
  }

  /** The calls before the work is awaited: the start time is read, then
      the span is opened. */
  function Prelude(call: Call, t0: int): seq<Event> {
    [ClockRead(t0), SpanStarted(SpanName, StartAttributes(call)), WorkAwaited]
  }

  /** The calls of the `finally` block: the end time is read, then the
      request is counted and its latency recorded. */
  function Finally(model: string, status: Status, t0: int, t1: int): seq<Event> {
    [ClockRead(t1),
     CounterAdded(RequestsName, 1, CounterLabels(model, status)),
     HistogramRecorded(LatencyName, Duration(t0, t1), HistogramLabels(model))]
  }

  /** Everything one invocation reports to the backend, in order; the span
      is ended last, when the `with` block is left. */
  function Journal<V>(call: Call, work: Outcome<V>, show: V -> string, t0: int, t1: int): seq<Event> {
    Prelude(call, t0) + Completion(work, show) + Finally(call.model, SettledStatus(work), t0, t1) + [SpanEnded]
  }

  /** The try/except around the awaited work: on a return the span status
      becomes OK and the span gets the response text; on an `Exception` the
      status becomes ERROR with the exception's text and the exception is
      recorded once; an interruption passes by both handlers. */
  method Complete<V>(span: Span, work: Outcome<V>, show: V -> string)
    modifies span, span.backend
    ensures span.status == if work.Returned? || work.Raised? then SettledStatus(work) else old(span.status)
    ensures span.attributes == if work.Returned? then old(span.attributes)[ResponseKey := show(work.value)]
                               else old(span.attributes)
    ensures span.exceptions == if work.Raised? then old(span.exceptions) + [work.exc] else old(span.exceptions)
    ensures span.ended == old(span.ended)
    ensures span.backend.log == old(span.backend.log) + Completion(work, show)
  {
    match work {
      case Returned(v) =>
        span.SetStatus(Ok);
        span.SetAttribute(ResponseKey, show(v));
      case Raised(e) =>
        span.SetStatus(Error(e.message));
        span.RecordException(e);
      case Interrupted(_) =>
    }
  }

  /** What every request-counter point carries: an increment of one, labelled
      with the model and an outcome of success or error. */
  predicate RequestPoint(p: DataPoint) {
    p.value == 1 && p.labels.Keys == {ModelLabel, StatusKey}
    && (p.labels[StatusKey] == SuccessLabel || p.labels[StatusKey] == ErrorLabel)
  }

  /** The counter and histogram were written in pairs: the i-th latency sample
      belongs to the i-th request and carries its model. */
  predicate Paired(requests: seq<DataPoint>, latencies: seq<DataPoint>) {
    |requests| == |latencies|
    && forall i :: 0 <= i < |requests| ==>
         RequestPoint(requests[i]) && latencies[i].labels == HistogramLabels(requests[i].labels[ModelLabel])
  }

  /** The total of the counter increments whose status label is `outcome`:
      what a metrics backend reports for that label, summed over models. */
  function Tally(points: seq<DataPoint>, outcome: string): int
    decreases |points|
  {
    if points == [] then 0
    else (if StatusKey in points[0].labels && points[0].labels[StatusKey] == outcome then points[0].value else 0)
         + Tally(points[1..], outcome)
  }

  lemma {:induction false} TallyAppend(points: seq<DataPoint>, p: DataPoint, outcome: string)
    ensures Tally(points + [p], outcome)
            == Tally(points, outcome) + (if StatusKey in p.labels && p.labels[StatusKey] == outcome then p.value else 0)
    decreases |points|
  {
    if points == [] {
      assert points + [p] == [p];
    } else {
      assert (points + [p])[0] == points[0] && (points + [p])[1..] == points[1..] + [p];
      TallyAppend(points[1..], p, outcome);
    }
  }

  /** Every request is counted once, as a success or as an error. */
  lemma {:induction false} OutcomesPartition(points: seq<DataPoint>)
    requires forall i :: 0 <= i < |points| ==> RequestPoint(points[i])
    ensures Tally(points, SuccessLabel) + Tally(points, ErrorLabel) == |points|
    decreases |points|
  {
    if points != [] {
      assert RequestPoint(points[0]);
      OutcomesPartition(points[1..]);
    }
  }

  /** The phase the try/except leaves an invocation in. */
  function Settled<V>(work: Outcome<V>): Phase {
    match work
    case Returned(_) => ResponseSet
    case Raised(_) => ExceptionLogged
    case Interrupted(_) => Running
  }

  lemma PreludeOpens(call: Call, t0: int)
    ensures Run(Created, Prelude(call, t0)) == Running
  {
    var head := Prelude(call, t0);
    RunCons(Created, head, 0);
    RunCons(Timing, head, 1);
    RunCons(SpanOpen, head, 2);
  }

  lemma CompletionSettles<V>(work: Outcome<V>, show: V -> string)
    ensures Run(Running, Completion(work, show)) == Settled(work)
  {
    var middle := Completion(work, show);
    if !work.Interrupted? {
      RunCons(Running, middle, 0);
      RunCons(Step(Running, middle[0]), middle, 1);
    }
  }

  lemma FinallyCloses<V>(work: Outcome<V>, model: string, t0: int, t1: int)
    ensures Run(Settled(work), Finally(model, SettledStatus(work), t0, t1) + [SpanEnded]) == SpanClosed
  {
    var tail := Finally(model, SettledStatus(work), t0, t1) + [SpanEnded];
    var stopped := Stopped(work.Returned?);
    RunCons(Settled(work), tail, 0);
    assert Step(stopped, tail[1]) == Counted;
    RunCons(stopped, tail, 1);
    RunCons(Counted, tail, 2);
    RunCons(MetricsRecorded, tail, 3);
  }

  /** The calls one invocation makes follow the span lifecycle. */
  lemma JournalFollowsLifecycle<V>(call: Call, work: Outcome<V>, show: V -> string, t0: int, t1: int)
    ensures Run(Created, Journal(call, work, show, t0, t1)) == SpanClosed
  {
    var head, middle := Prelude(call, t0), Completion(work, show);
    var tail := Finally(call.model, SettledStatus(work), t0, t1) + [SpanEnded];
    assert Journal(call, work, show, t0, t1) == (head + middle) + tail;
    RunConcat(Created, head + middle, tail);
    RunConcat(Created, head, middle);
    PreludeOpens(call, t0);
    CompletionSettles(work, show);
    FinallyCloses(work, call.model, t0, t1);
  }

  /** One invocation opens one span and closes it, awaits the work once,
      reads the clock twice, writes one counter increment and one latency
      sample, and creates no instrument: both are reused. */
  lemma JournalCounts<V>(call: Call, work: Outcome<V>, show: V -> string, t0: int, t1: int)
    ensures var j := Journal(call, work, show, t0, t1);
      Count(j, Start) == 1 && Count(j, End) == 1 && Count(j, Await) == 1 && Count(j, Clock) == 2
      && Count(j, CounterAdd) == 1 && Count(j, HistogramSample) == 1 && Count(j, Creation) == 0
  {
    var j := Journal(call, work, show, t0, t1);
    JournalFollowsLifecycle(call, work, show, t0, t1);
    AcceptedCounts(Created, j);
    assert Determined(Start) && Determined(End) && Determined(Await) && Determined(Clock);
    assert Determined(CounterAdd) && Determined(HistogramSample) && Determined(Creation);
  }

  /** One invocation's calls come in lifecycle order and end with closing
      the span, so the metrics are recorded while the span is still open; the
      start time is read first, before the span opens, and the end time
      after the status is set and directly before the counter increment. */
  lemma JournalInOrder<V>(call: Call, work: Outcome<V>, show: V -> string, t0: int, t1: int)
    ensures var j := Journal(call, work, show, t0, t1);
      |j| > 0 && j[|j| - 1] == SpanEnded
      && (forall i, k :: 0 <= i < k < |j| && j[i].Kind() != Clock && j[k].Kind() != Clock ==>
            Stage(j[i].Kind()) < Stage(j[k].Kind()))
      && j[0].ClockRead?
      && (forall i :: 0 < i < |j| && j[i].ClockRead? ==> i + 1 < |j| && j[i + 1].CounterAdded?)
      && (forall i, k :: 0 < i < |j| && j[i].ClockRead? && 0 <= k < |j| && j[k].StatusSet? ==> k < i)
  {
    var j := Journal(call, work, show, t0, t1);
    JournalFollowsLifecycle(call, work, show, t0, t1);
    AcceptedInOrder(Created, j);
    AcceptedEndsWithSpanEnd(Created, j);
    AcceptedClockReads(j);
  }

  /** The counter's outcome label is "success" exactly when the span status
      was set to OK, and that happens exactly when the work returned. */
  lemma JournalLabelAgrees<V>(call: Call, work: Outcome<V>, show: V -> string, t0: int, t1: int)
    ensures var j := Journal(call, work, show, t0, t1);
      forall i :: 0 <= i < |j| && j[i].CounterAdded? ==>
        StatusKey in j[i].labels
        && (j[i].labels[StatusKey] == SuccessLabel <==> StatusSet(Ok) in j)
        && (j[i].labels[StatusKey] == SuccessLabel <==> work.Returned?)
  {
  }

  class LLMTelemetry {
    const backend: Backend
    const tracer: Tracer
    const meter: Meter
    const requestCounter: Counter
    const latency: Histogram

    ghost predicate Valid()
      reads requestCounter, latency
    {
      tracer.backend == backend && meter.backend == backend
      && requestCounter.backend == backend && latency.backend == backend
      && requestCounter.name == RequestsName && requestCounter.description == RequestsDescription
      && requestCounter.unit == RequestsUnit
      && latency.name == LatencyName && latency.description == LatencyDescription
      && latency.unit == LatencyUnit
      && Paired(requestCounter.points, latency.points)
    }

    /** Obtains the tracer and meter for `serviceName` and creates the two
        instruments, once. */
    constructor (backend: Backend, serviceName: string := DefaultServiceName)
      modifies backend
      ensures Valid() && this.backend == backend
      ensures tracer.scope == serviceName && meter.scope == serviceName
      ensures fresh(tracer) && fresh(meter) && fresh(requestCounter) && fresh(latency)
      ensures requestCounter.points == [] && latency.points == []
      ensures backend.log == old(backend.log)
                + [InstrumentCreated(CounterInstrument, RequestsName, RequestsDescription, RequestsUnit),
                   InstrumentCreated(HistogramInstrument, LatencyName, LatencyDescription, LatencyUnit)]
    {
      this.backend := backend;
      tracer := new Tracer(serviceName, backend);
      var m := new Meter(serviceName, backend);
      meter := m;
      var c := m.CreateCounter(RequestsName, RequestsDescription, RequestsUnit);
      var h := m.CreateHistogram(LatencyName, LatencyDescription, LatencyUnit);
      requestCounter := c;
      latency := h;
    }

    /** However many invocations have run, each was counted once, as a
        success or as an error, and timed once. */
    lemma RequestsAddUp()
      requires Valid()
      ensures Tally(requestCounter.points, SuccessLabel) + Tally(requestCounter.points, ErrorLabel)
              == |requestCounter.points| == |latency.points|
    {
      OutcomesPartition(requestCounter.points);
    }

    /** The `finally` block: reads the end time `t1`, counts the request
        with the outcome label derived from `status`, the span status it
        finds, and records the latency measured from `t0`. */
    method RecordMetrics(model: string, status: Status, t0: int, t1: int)
      requires Valid()
      modifies backend, requestCounter, latency
      ensures Valid()
      ensures requestCounter.points == old(requestCounter.points) + [DataPoint(1, CounterLabels(model, status))]
      ensures latency.points == old(latency.points) + [DataPoint(Duration(t0, t1), HistogramLabels(model))]
      ensures Tally(requestCounter.points, SuccessLabel)
              == old(Tally(requestCounter.points, SuccessLabel)) + (if status.Ok? then 1 else 0)
      ensures Tally(requestCounter.points, ErrorLabel)
              == old(Tally(requestCounter.points, ErrorLabel)) + (if status.Ok? then 0 else 1)
      ensures backend.log == old(backend.log) + Finally(model, status, t0, t1)
    {
      ghost var points0 := requestCounter.points;
      backend.Emit(ClockRead(t1));
      var duration := Duration(t0, t1);
      var labels := CounterLabels(model, status);
      requestCounter.Add(1, labels);
      latency.Record(duration, HistogramLabels(model));
      TallyAppend(points0, DataPoint(1, labels), SuccessLabel);
      TallyAppend(points0, DataPoint(1, labels), ErrorLabel);
    }

    /** The wrapper's entry: reads the start time `t0`, opens the
        `llm_request` span with the prompt and model attributes, and awaits
        the work. */
    method Open(call: Call, t0: int) returns (span: Span)
      requires Valid()
      modifies backend
      ensures fresh(span) && span.backend == backend
      ensures span.name == SpanName && span.attributes == StartAttributes(call)
      ensures span.status == Unset && span.exceptions == [] && !span.ended
      ensures backend.log == old(backend.log) + Prelude(call, t0)
    {
      backend.Emit(ClockRead(t0));
      span := tracer.StartSpan(SpanName, StartAttributes(call));
      backend.Emit(WorkAwaited);
    }

    /** One call of the wrapper built by `instrument_llm_call(call.prompt,
        call.model)`: the awaited work ends with `work`, the clock reads `t0`
        before the span opens and `t1` in the `finally` block, and `show`
        renders a result as `str` does.  The caller gets `work` back
        unchanged: the value, or the very exception re-raised. */
    method Invoke<V>(call: Call, work: Outcome<V>, show: V -> string, t0: int, t1: int)
      returns (result: Outcome<V>, span: Span)
      requires Valid()
      modifies backend, requestCounter, latency
      ensures Valid()
      ensures result == work
      ensures fresh(span) && span.backend == backend && span.ended
      ensures span.name == SpanName
      ensures span.attributes == FinalAttributes(call, work, show)
      ensures span.status == SettledStatus(work)
      ensures span.exceptions == if work.Raised? then [work.exc] else []
      ensures requestCounter.points
              == old(requestCounter.points) + [DataPoint(1, CounterLabels(call.model, span.status))]
      ensures latency.points == old(latency.points) + [DataPoint(Duration(t0, t1), HistogramLabels(call.model))]
      ensures Tally(requestCounter.points, SuccessLabel)
              == old(Tally(requestCounter.points, SuccessLabel)) + (if work.Returned? then 1 else 0)
      ensures Tally(requestCounter.points, ErrorLabel)
              == old(Tally(requestCounter.points, ErrorLabel)) + (if work.Returned? then 0 else 1)
      ensures backend.log == old(backend.log) + Journal(call, work, show, t0, t1)
    {
      ghost var log0 := backend.log;
      span := Open(call, t0);
      Complete(span, work, show);
      RecordMetrics(call.model, span.status, t0, t1);
      span.End();
      result := work;
      assert backend.log
             == log0 + Prelude(call, t0) + Completion(work, show) + Finally(call.model, span.status, t0, t1) + [SpanEnded];
    }
  }
}
