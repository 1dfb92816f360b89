# LLM call telemetry, modelled in Dafny

The repository instruments calls to a language model with OpenTelemetry.
An `LLMTelemetry` object obtains a tracer and a meter for its service name
(`"llm-service"` by default). It creates two instruments once: the counter
`llm.requests` (unit `"1"`) and the histogram `llm.latency` (unit `"ms"`).

`instrument_llm_call(prompt, model="gpt-3.5-turbo")` returns a decorator.
Each call of the decorated coroutine does the following:

1. It reads the wall clock.
2. It opens a span `llm_request` with attributes `llm.prompt` and `llm.model`.
3. It awaits the work.
4. If the work returns, it sets the span status to OK and sets the
   `llm.response` attribute to `str(result)`.
5. If the work raises an `Exception`, it sets the status to ERROR with
   `str(e)`, records the exception on the span and re-raises it.
6. In every case, in `finally`, it reads the clock again. It adds 1 to the
   counter, labelled with `model` and a `status` of `"success"` or
   `"error"`. It records the elapsed milliseconds in the histogram,
   labelled with `model`.
7. Leaving the `with` block closes the span.

The model has four modules.

- `Otel` (otel.dfy) is the OpenTelemetry surface the code calls. It is a
  recording backend: `Span`, `Tracer`, `Meter`, `Counter` and `Histogram`
  are classes whose fields the calls update. Every call is also appended
  to one ordered `Backend.log`. The clock readings and the await of the
  work are logged there too, so the order of everything the wrapper does
  can be stated.
- `Lifecycle` (lifecycle.dfy) is the per-invocation state machine, written
  independently of the wrapper: created, timing, span open, running,
  completed OK or ERROR, stopped, counted, metrics recorded, span closed.
  Its lemmas say what any journal the machine accepts contains, and in what
  order.
- `Instrumentation` (instrumentation.dfy) holds the `LLMTelemetry` class.
  Its constructor creates the instruments. `Invoke` is one call of the
  wrapper. It is split into `Open` (the start time, the span and the
  await), `Complete` (the try/except) and `RecordMetrics` (the `finally`
  block). `Journal` is the whole sequence of backend calls of
  one invocation, and lemmas connect it to the state machine.
- `Scenarios` (scenarios.dfy) is a client that runs a returning call and
  then a raising call, and checks what a caller can conclude.

Inputs that the code gets from its environment are parameters here:

- the awaited work becomes its `Outcome`: `Returned(v)`, `Raised(e)` for an
  `Exception`, or `Interrupted(e)` for a `BaseException` such as a
  cancellation, which `except Exception` does not catch;
- `str(result)` becomes a caller-supplied `show` function;
- `str(e)` is the exception's `message` field;
- the two `datetime.now()` readings become integer milliseconds `t0` and
  `t1`.

The model follows the code as written; three details are worth stating:

- the attribute keys are `llm.prompt`, `llm.model` and `llm.response`;
- the response text is not truncated;
- the counter's outcome label is found by re-reading the span status code
  at the `finally` point (src/llm_telemetry/instrumentation.py:64), not from
  the branch taken. `StatusLabel` and `SettledStatus` show that the two
  agree: the label is `"success"` exactly when the work returned, including
  for an `Interrupted` outcome, where the status stays unset and the label
  is `"error"`.

## Model

| member | source | states |
|---|---|---|
| `Instrumentation.LLMTelemetry.constructor` | src/llm_telemetry/instrumentation.py:7-22 | gets a tracer and a meter scoped to the service name (default `"llm-service"`); creates exactly one counter `llm.requests` ("Number of LLM requests", unit `"1"`) and one histogram `llm.latency` ("Latency of LLM requests", unit `"ms"`), both empty; logs exactly those two creations |
| `Instrumentation.LLMTelemetry.Invoke` | src/llm_telemetry/instrumentation.py:24-74 | returns the work's outcome unchanged (the value, or the same exception re-raised); the fresh span is named `llm_request`, is ended, and has the prompt and model attributes plus `llm.response = show(v)` on return; its status is OK on return, ERROR with `str(e)` on an `Exception`, unset on an interruption; the exception is recorded exactly once, only when raised; exactly one counter point `(1, {model, status})` and one histogram point `(t1 - t0, {model})` are appended, with earlier points unchanged; the success tally grows by one exactly when the work returned and the error tally otherwise; the backend log grows by exactly `Journal(...)`; preserves `Valid()` |
| `Instrumentation.LLMTelemetry.Open` | src/llm_telemetry/instrumentation.py:27-38 | reads the start time, opens a fresh span named `llm_request` with exactly the prompt and model attributes, status unset, no exceptions and not ended, and awaits the work; the log grows by exactly those three calls |
| `Instrumentation.Complete` | src/llm_telemetry/instrumentation.py:36-54 | on a return: status OK and `llm.response` set; on an `Exception`: status ERROR with the exception text and the exception appended once; on an interruption: span unchanged; the span is not ended; the log grows by exactly those calls |
| `Instrumentation.LLMTelemetry.RecordMetrics` | src/llm_telemetry/instrumentation.py:55-71 | reads the end time, then appends one increment of 1 with labels `{model, status}` and one latency sample `t1 - t0` with `{model}`; the status label follows the span status it is given; the success and error tallies grow accordingly; preserves `Valid()` |
| `Instrumentation.LLMTelemetry.RequestsAddUp` | src/llm_telemetry/instrumentation.py:55-71 | over any history of invocations, success increments plus error increments equal the number of counter points, which equals the number of latency samples |
| `Instrumentation.OutcomesPartition` | src/llm_telemetry/instrumentation.py:60-66 | for counter points that are each an increment of 1 labelled success or error, the success tally plus the error tally is the number of points |
| `Instrumentation.StartAttributes` | src/llm_telemetry/instrumentation.py:29-35 | the span opens with exactly the keys `llm.prompt` and `llm.model`, bound to the decorator's prompt and model |
| `Instrumentation.FinalAttributes` | src/llm_telemetry/instrumentation.py:43-44 | on a return the span attributes are exactly prompt, model and `llm.response = show(v)`; otherwise exactly prompt and model |
| `Instrumentation.SettledStatus` | src/llm_telemetry/instrumentation.py:40-53 | the status the `finally` block finds is OK exactly when the work returned, and ERROR exactly when it raised an `Exception`, with the exception's text as description |
| `Instrumentation.StatusLabel` | src/llm_telemetry/instrumentation.py:64 | the outcome label is `"success"` exactly when the status code is OK and `"error"` exactly when it is not |
| `Instrumentation.CounterLabels` | src/llm_telemetry/instrumentation.py:60-66 | counter labels have exactly the keys `model` and `status`; `model` is the call's model; `status` is success exactly when the span status is OK, and error otherwise |
| `Instrumentation.HistogramLabels` | src/llm_telemetry/instrumentation.py:68-71 | histogram labels have exactly the key `model`, bound to the call's model |
| `Instrumentation.Duration` | src/llm_telemetry/instrumentation.py:57-58 | the latency is the end reading minus the start reading; it is non-negative exactly when the clock did not go back between them |
| `Instrumentation.JournalFollowsLifecycle` | src/llm_telemetry/instrumentation.py:26-71 | for every outcome, the backend calls of one invocation take the lifecycle state machine from created to span closed |
| `Instrumentation.JournalCounts` | src/llm_telemetry/instrumentation.py:26-71 | one invocation opens exactly one span and ends exactly one, awaits the work once, reads the clock twice, adds to the counter once, records one latency sample, and creates no instrument (it reuses the constructor's) |
| `Instrumentation.JournalInOrder` | src/llm_telemetry/instrumentation.py:27-71 | one invocation's calls come in lifecycle order: the start time is read first, the span opens before the work is awaited, the status is set before the metrics, and the metrics are recorded before the span ends, which is the last call; the only other clock read comes after any status change and directly before the counter increment |
| `Instrumentation.JournalLabelAgrees` | src/llm_telemetry/instrumentation.py:41-64 | the counter increment's status label is `"success"` exactly when the journal sets the span status to OK, and exactly when the work returned |
| `Lifecycle.AcceptedCounts` | src/llm_telemetry/instrumentation.py:26-71 | in any journal the state machine accepts, the number of span starts, awaits, clock reads, counter increments, histogram samples and span ends is what the current phase still has due; from the start that is one of each (two clock reads) and no instrument creation |
| `Lifecycle.AcceptedInOrder` | src/llm_telemetry/instrumentation.py:29-71 | in any accepted journal, the events other than clock reads have strictly increasing lifecycle stages |
| `Lifecycle.AcceptedEndsWithSpanEnd` | src/llm_telemetry/instrumentation.py:29-35 | any accepted journal ends with the span being ended |
| `Lifecycle.ClockReadsPlaced` | src/llm_telemetry/instrumentation.py:57-60 | in any accepted journal, a clock read that is not the opening one (read from the created phase) is directly followed by the counter increment |
| `Lifecycle.StatusBeforeClockReads` | src/llm_telemetry/instrumentation.py:40-57 | in any accepted journal, a clock read that is not the journal's first event comes after every span status change; a journal that starts with a clock read from any phase but the created one (the timer stopping) holds no status change at all |
| `Lifecycle.AcceptedClockReads` | src/llm_telemetry/instrumentation.py:27-60 | a journal accepted from the start opens with a clock read; every later clock read comes after any status change and directly before the counter increment |
| `Otel.Tracer.StartSpan` | src/llm_telemetry/instrumentation.py:29-35 | opens a fresh span with the given name and attributes, status unset, no exceptions and not ended, and logs the start |
| `Otel.Span.SetStatus` | src/llm_telemetry/instrumentation.py:41 | sets the status, changes nothing else on the span, and logs the call |
| `Otel.Span.SetAttribute` | src/llm_telemetry/instrumentation.py:44 | binds one attribute key, leaves the other keys, status and exceptions unchanged, and logs the call |
| `Otel.Span.RecordException` | src/llm_telemetry/instrumentation.py:53 | appends the exception to the span's exceptions, changes nothing else, and logs the call |
| `Otel.Span.End` | src/llm_telemetry/instrumentation.py:29 | marks the span ended, leaves its contents unchanged, and logs the call |
| `Otel.Counter.Add` | src/llm_telemetry/instrumentation.py:60-66 | appends exactly one point with the given amount and labels, and logs the call |
| `Otel.Histogram.Record` | src/llm_telemetry/instrumentation.py:68-71 | appends exactly one point with the given value and labels, and logs the call |
| `Otel.Meter.CreateCounter` | src/llm_telemetry/instrumentation.py:12-16 | creates a fresh, empty counter with the given name, description and unit, and logs its creation |
| `Otel.Meter.CreateHistogram` | src/llm_telemetry/instrumentation.py:18-22 | creates a fresh, empty histogram with the given name, description and unit, and logs its creation |

## Left out

- src/config.py is not part of this model. It is the process-wide exporter bootstrap: environment variables, resource descriptor, OTLP exporters, batch and periodic processors, and global provider registration. It has no logic of its own.
- src/main.py is not part of this model. It is the HTTP endpoint, the mock model call with its random latency and random failure, its mapping of a failure to HTTP 500, and the server start-up.
- The OpenTelemetry SDK does extra work when the `with` block is left by an exception. It records the exception a second time and sets an ERROR status. The span here is a plain record, so only the wrapper's own calls are modelled. "Recorded exactly once" refers to those calls.
- The SDK ignores `set_status` once a span's status is OK. That only matters if `str(result)` itself raises. `show` is a total function here, so that path is not modelled.
- Provider lookup and caching of tracers and meters by name, and the current-span context, are not modelled. The constructor builds its own tracer and meter handles.
- Each call's positional and keyword arguments are not modelled. `await func(*args, **kwargs)` is one atomic step whose result is the `Outcome` parameter. Suspension inside the work, concurrent in-flight invocations and the timing of a real cancellation are not modelled.
- `Instrumentation.Duration`: uses integer milliseconds from an abstract clock, not the floating-point `total_seconds() * 1000` of two wall-clock readings.
- `Otel.Histogram.Record`: the recording backend keeps every sample, negative ones included, whereas the OpenTelemetry SDK histogram drops a negative value with a warning; so when the wall clock goes back between the two readings, the model stores a negative latency sample (and `Paired` and `RequestsAddUp` count it) where the running program would store none.
- Spans are not told apart in the log. The model is sequential: one invocation's span is open at a time.
