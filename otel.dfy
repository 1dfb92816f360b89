/** The part of the OpenTelemetry tracing and metrics API that the LLM
    instrumentation calls, as an in-memory recording backend.

    The tracer, the meter, the spans and the instruments all report to one
    `Backend`, whose `log` keeps every call in the order it was made.  The
    backend also stands for the two things the wrapper observes besides
    telemetry, the wall clock and the awaited work, so that a single log
    orders everything one invocation does. */
module Otel {

  /** Span attributes and metric label sets: string keys to string values. */
  type Labels = map<string, string>

  /** A raised exception: its class name and the text `str(e)` yields. */
  datatype Exc = Exc(kind: string, message: string)

  /** A span's status: `Unset` until one is set, `Ok`, or `Error` with a
      description. */
  datatype Status = Unset | Ok | Error(description: string)

  datatype InstrumentKind = CounterInstrument | HistogramInstrument

  /** One measurement an instrument received. */
  datatype DataPoint = DataPoint(value: int, labels: Labels)

  /** The kinds of calls the backend observes (one per constructor of `Event`). */
  datatype Kind =
    | Creation | Clock | Start | Await | StatusChange | Attribute
    | ExceptionRecord | CounterAdd | HistogramSample | End

  /** One call into the backend, as the log records it. */
  datatype Event =
    | InstrumentCreated(instrument: InstrumentKind, name: string, description: string, unit: string)
    | ClockRead(time: int)
    | SpanStarted(spanName: string, attributes: Labels)
    | WorkAwaited
    | StatusSet(status: Status)
    | AttributeSet(key: string, value: string)
    | ExceptionRecorded(exc: Exc)
    | CounterAdded(counter: string, amount: nat, labels: Labels)
    | HistogramRecorded(histogram: string, sample: int, labels: Labels)
    | SpanEnded
  {
    function Kind(): Kind {
      match this
      case InstrumentCreated(_, _, _, _) => Creation
      case ClockRead(_) => Clock
      case SpanStarted(_, _) => Start
      case WorkAwaited => Await
      case StatusSet(_) => StatusChange
      case AttributeSet(_, _) => Attribute
      case ExceptionRecorded(_) => ExceptionRecord
      case CounterAdded(_, _, _) => CounterAdd
      case HistogramRecorded(_, _, _) => HistogramSample
      case SpanEnded => End
    }
  }

  /** The recording backend behind the tracer and meter providers. */
  class Backend {
    var log: seq<Event>

    constructor ()
      ensures log == []
    {
      log := [];
    }

    /** Records an observation that no instrument or span makes: a clock
        reading, or the wrapped work having been awaited. */
    method Emit(e: Event)
      modifies this
      ensures log == old(log) + [e]
    {
      log := log + [e];
    }
  }

  /** A span: a named record of one traced operation. */
  class Span {
    const name: string
    const backend: Backend
    var attributes: Labels
    var status: Status
    var exceptions: seq<Exc>
    var ended: bool

    constructor (name: string, attributes: Labels, backend: Backend)
      ensures this.name == name && this.attributes == attributes && this.backend == backend
      ensures status == Unset && exceptions == [] && !ended
    {
      this.name := name;
      this.attributes := attributes;
      this.backend := backend;
      status := Unset;
      exceptions := [];
      ended := false;
    }

    method SetStatus(s: Status)
      modifies this, backend
      ensures status == s
      ensures attributes == old(attributes) && exceptions == old(exceptions) && ended == old(ended)
      ensures backend.log == old(backend.log) + [StatusSet(s)]
    {
      status := s;
      backend.log := backend.log + [StatusSet(s)];
    }

    method SetAttribute(key: string, value: string)
      modifies this, backend
      ensures attributes == old(attributes)[key := value]
      ensures status == old(status) && exceptions == old(exceptions) && ended == old(ended)
      ensures backend.log == old(backend.log) + [AttributeSet(key, value)]
    {
      attributes := attributes[key := value];
      backend.log := backend.log + [AttributeSet(key, value)];
    }

    method RecordException(e: Exc)
      modifies this, backend
      ensures exceptions == old(exceptions) + [e]
      ensures attributes == old(attributes) && status == old(status) && ended == old(ended)
      ensures backend.log == old(backend.log) + [ExceptionRecorded(e)]
    {
      exceptions := exceptions + [e];
      backend.log := backend.log + [ExceptionRecorded(e)];
    }

    method End()
      modifies this, backend
      ensures ended
      ensures attributes == old(attributes) && status == old(status) && exceptions == old(exceptions)
      ensures backend.log == old(backend.log) + [SpanEnded]
    {
      ended := true;
      backend.log := backend.log + [SpanEnded];
    }
  }

  /** A tracer handle, obtained by instrumentation scope name. */
  class Tracer {
    const scope: string
    const backend: Backend

    constructor (scope: string, backend: Backend)
      ensures this.scope == scope && this.backend == backend
    {
      this.scope := scope;
      this.backend := backend;
    }

    /** Opens a new span with the given start attributes. */
    method StartSpan(name: string, attributes: Labels) returns (span: Span)
      modifies backend
      ensures fresh(span) && span.backend == backend
      ensures span.name == name && span.attributes == attributes
      ensures span.status == Unset && span.exceptions == [] && !span.ended
      ensures backend.log == old(backend.log) + [SpanStarted(name, attributes)]
    {
      span := new Span(name, attributes, backend);
      backend.log := backend.log + [SpanStarted(name, attributes)];
    }
  }

  /** A monotonic counter instrument and the increments it received. */
  class Counter {
    const name: string
    const description: string
    const unit: string
    const backend: Backend
    var points: seq<DataPoint>

    constructor (name: string, description: string, unit: string, backend: Backend)
      ensures this.name == name && this.description == description && this.unit == unit
      ensures this.backend == backend && points == []
    {
      this.name := name;
      this.description := description;
      this.unit := unit;
      this.backend := backend;
      points := [];
    }

    method Add(amount: nat, labels: Labels)
      modifies this, backend
      ensures points == old(points) + [DataPoint(amount, labels)]
      ensures backend.log == old(backend.log) + [CounterAdded(name, amount, labels)]
    {
      points := points + [DataPoint(amount, labels)];
      backend.log := backend.log + [CounterAdded(name, amount, labels)];
    }
  }

  /** A histogram instrument and the samples it received. */
  class Histogram {
    const name: string
    const description: string
    const unit: string
    const backend: Backend
    var points: seq<DataPoint>

    constructor (name: string, description: string, unit: string, backend: Backend)
      ensures this.name == name && this.description == description && this.unit == unit
      ensures this.backend == backend && points == []
    {
      this.name := name;
      this.description := description;
      this.unit := unit;
      this.backend := backend;
      points := [];
    }

    method Record(value: int, labels: Labels)
      modifies this, backend
      ensures points == old(points) + [DataPoint(value, labels)]
      ensures backend.log == old(backend.log) + [HistogramRecorded(name, value, labels)]
    {
      points := points + [DataPoint(value, labels)];
      backend.log := backend.log + [HistogramRecorded(name, value, labels)];
    }
  }

  /** A meter handle, obtained by instrumentation scope name. */
  class Meter {
    const scope: string
    const backend: Backend

    constructor (scope: string, backend: Backend)
      ensures this.scope == scope && this.backend == backend
    {
      this.scope := scope;
      this.backend := backend;
    }

    method CreateCounter(name: string, description: string, unit: string) returns (c: Counter)
      modifies backend
      ensures fresh(c) && c.backend == backend && c.points == []
      ensures c.name == name && c.description == description && c.unit == unit
      ensures backend.log == old(backend.log) + [InstrumentCreated(CounterInstrument, name, description, unit)]
    {
      c := new Counter(name, description, unit, backend);
      backend.log := backend.log + [InstrumentCreated(CounterInstrument, name, description, unit)];
    }

    method CreateHistogram(name: string, description: string, unit: string) returns (h: Histogram)
      modifies backend
      ensures fresh(h) && h.backend == backend && h.points == []
      ensures h.name == name && h.description == description && h.unit == unit
      ensures backend.log == old(backend.log) + [InstrumentCreated(HistogramInstrument, name, description, unit)]
    {
      h := new Histogram(name, description, unit, backend);
      backend.log := backend.log + [InstrumentCreated(HistogramInstrument, name, description, unit)];
    }
  }
}
