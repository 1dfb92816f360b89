/** Two invocations as a caller sees them: the work returns "ok" after
    50 ms, then the work raises "Service Unavailable". */
module Scenarios {
  import opened Otel
  import opened Lifecycle
  import opened Instrumentation

  method ReturnThenRaise(prompt: string) {
    var backend := new Backend();
    var telemetry := new LLMTelemetry(backend);
    var show := (s: string) => s;

    var r, span := telemetry.Invoke(Call(prompt), Returned("ok"), show, 1000, 1050);
    assert r == Returned("ok");
    assert span.status == Ok && span.attributes[ResponseKey] == "ok";
    assert span.attributes[ModelKey] == "gpt-3.5-turbo";
    assert telemetry.latency.points == [DataPoint(50, HistogramLabels(DefaultModel))];
    assert telemetry.requestCounter.points[0].labels[StatusKey] == SuccessLabel;

    var failure := Exc("Exception", "Service Unavailable");
    var r', span' := telemetry.Invoke(Call(prompt, "gpt-4"), Raised(failure), show, 2000, 2300);
    assert r' == Raised(failure);
    assert span'.status == Error("Service Unavailable") && span'.exceptions == [failure];
    assert telemetry.latency.points[1] == DataPoint(300, HistogramLabels("gpt-4"));
    assert telemetry.requestCounter.points[1].labels[StatusKey] == ErrorLabel;
    telemetry.RequestsAddUp();
    assert Tally(telemetry.requestCounter.points, SuccessLabel) + Tally(telemetry.requestCounter.points, ErrorLabel) == 2;
  }
}
