/** The life of one instrumented invocation, as a state machine over the
    backend events it produces:

      clock read, span opened, work awaited,
      then OK plus response attribute, ERROR plus recorded exception,
      or nothing (a failure `except Exception` does not catch),
      then clock read, one counter increment, one histogram sample,
      and finally the span closed.

    This is an independent reference for the order of the wrapper's calls.
    The lemmas below show what every journal the machine accepts must
    contain, whatever produced it. */
module Lifecycle {
  import opened Otel

  const StatusKey := "status"
  const SuccessLabel := "success"
  const ErrorLabel := "error"

  /** The outcome label a counter increment must carry. */
  function OutcomeLabel(succeeded: bool): string {
    if succeeded then SuccessLabel else ErrorLabel
  }

  /** Where an invocation is.  `Stopped` remembers whether the span status
      was OK when the timer stopped; `Stuck` is the sink for any event that
      is out of order. */
  datatype Phase =
    | Created | Timing | SpanOpen | Running
    | CompletedOk | CompletedError | ResponseSet | ExceptionLogged
    | Stopped(succeeded: bool) | Counted | MetricsRecorded | SpanClosed
    | Stuck

  function Step(p: Phase, e: Event): Phase {
    match (p, e)
    case (Created, ClockRead(_)) => Timing
    case (Timing, SpanStarted(_, _)) => SpanOpen
    case (SpanOpen, WorkAwaited) => Running
    case (Running, StatusSet(Ok)) => CompletedOk
    case (Running, StatusSet(Error(_))) => CompletedError
    case (Running, ClockRead(_)) => Stopped(false)
    case (CompletedOk, AttributeSet(_, _)) => ResponseSet
    case (CompletedError, ExceptionRecorded(_)) => ExceptionLogged
    case (ResponseSet, ClockRead(_)) => Stopped(true)
    case (ExceptionLogged, ClockRead(_)) => Stopped(false)
    case (Stopped(ok), CounterAdded(_, amount, labels)) =>
      if amount == 1 && StatusKey in labels && labels[StatusKey] == OutcomeLabel(ok) then Counted else Stuck
    case (Counted, HistogramRecorded(_, _, _)) => MetricsRecorded
    case (MetricsRecorded, SpanEnded) => SpanClosed
    case _ => Stuck
  }

  /** The phase reached from `p` after the events of `j`, in order. */
  function Run(p: Phase, j: seq<Event>): Phase
    decreases |j|
  {
    if j == [] then p else Run(Step(p, j[0]), j[1..])
  }

  /** How far along an invocation a phase is. */
  function Rank(p: Phase): nat {
    match p
    case Created => 0
    case Timing => 1
    case SpanOpen => 2
    case Running => 3
    case CompletedOk => 4
    case CompletedError => 4
    case ResponseSet => 5
    case ExceptionLogged => 5
    case Stopped(_) => 6
    case Counted => 7
    case MetricsRecorded => 8
    case SpanClosed => 9
    case Stuck => 10
  }

  /** The rank of the phase an event of kind `k` leads to; clock reads occur
      twice, at ranks 1 and 6, and are not given one. */
  function Stage(k: Kind): nat {
    match k
    case Start => 2
    case Await => 3
    case StatusChange => 4
    case Attribute => 5
    case ExceptionRecord => 5
    case CounterAdd => 7
    case HistogramSample => 8
    case End => 9
    case _ => 0
  }

  /** Kinds that occur a number of times fixed by the phase alone (status,
      response attribute and exception record depend on the outcome). */
  predicate Determined(k: Kind) {
    k != StatusChange && k != Attribute && k != ExceptionRecord
  }

  /** How many events of a determined kind are still due from phase `p`. */
  function Pending(p: Phase, k: Kind): nat {
    var r := Rank(p);
    match k
    case Clock => (if r < 1 then 1 else 0) + (if r < 6 then 1 else 0)
    case Start => if r < 2 then 1 else 0
    case Await => if r < 3 then 1 else 0
    case CounterAdd => if r < 7 then 1 else 0
    case HistogramSample => if r < 8 then 1 else 0
    case End => if r < 9 then 1 else 0
    case _ => 0
  }

  /** The number of events of kind `k` in `j`. */
  function Count(j: seq<Event>, k: Kind): nat
    decreases |j|
  {
    if j == [] then 0 else (if j[0].Kind() == k then 1 else 0) + Count(j[1..], k)
  }

  lemma {:induction false} RunFromStuck(j: seq<Event>)
    ensures Run(Stuck, j) == Stuck
    decreases |j|
  {
    if j != [] {
      RunFromStuck(j[1..]);
    }
  }

  lemma {:induction false} RunConcat(p: Phase, a: seq<Event>, b: seq<Event>)
    ensures Run(p, a + b) == Run(Run(p, a), b)
    decreases |a|
  {
    if a == [] {
      assert a + b == b;
    } else {
      assert (a + b)[0] == a[0] && (a + b)[1..] == a[1..] + b;
      RunConcat(Step(p, a[0]), a[1..], b);
    }
  }

  /** Running from the `k`-th event on is taking that one step first. */
  lemma RunCons(p: Phase, j: seq<Event>, k: nat)
    requires k < |j|
    ensures Run(p, j[k..]) == Run(Step(p, j[k]), j[k + 1..])
  {
  }

  /** Every accepted step moves strictly forward, to the stage of its event. */
  lemma StepAdvances(p: Phase, e: Event)
    requires Step(p, e) != Stuck
    ensures Rank(p) < Rank(Step(p, e))
    ensures e.Kind() != Clock ==> Rank(Step(p, e)) == Stage(e.Kind())
    ensures e.Kind() != Creation
    ensures forall k :: Determined(k) ==>
              Pending(p, k) == Pending(Step(p, e), k) + (if e.Kind() == k then 1 else 0)
  {
  }

  /** A journal the machine accepts holds exactly the pending number of each
      determined kind: from `Created`, one span start, one await, two clock
      reads, one counter increment, one histogram sample, one span end and no
      instrument creation. */
  lemma {:induction false} AcceptedCounts(p: Phase, j: seq<Event>)
    requires Run(p, j) == SpanClosed
    ensures forall k :: Determined(k) ==> Count(j, k) == Pending(p, k)
    decreases |j|
  {
    if j != [] {
      var q := Step(p, j[0]);
      if q == Stuck {
        RunFromStuck(j[1..]);
        assert false;
      }
      AcceptedCounts(q, j[1..]);
      StepAdvances(p, j[0]);
    }
  }

  /** In an accepted journal the events other than clock reads come in
      strictly increasing stage order: the span opens before the work is
      awaited, the status is set before the metrics are recorded, and the
      counter and histogram are written before the span ends. */
  lemma {:induction false} AcceptedInOrder(p: Phase, j: seq<Event>)
    requires Run(p, j) == SpanClosed
    ensures forall i :: 0 <= i < |j| && j[i].Kind() != Clock ==> Rank(p) < Stage(j[i].Kind())
    ensures forall i, k :: 0 <= i < k < |j| && j[i].Kind() != Clock && j[k].Kind() != Clock ==>
              Stage(j[i].Kind()) < Stage(j[k].Kind())
    decreases |j|
  {
    if j != [] {
      var q := Step(p, j[0]);
      if q == Stuck {
        RunFromStuck(j[1..]);
        assert false;
      }
      StepAdvances(p, j[0]);
      AcceptedInOrder(q, j[1..]);
      forall i | 1 <= i < |j|
        ensures j[i] == j[1..][i - 1]
      {
      }
    }
  }

  /** The last event of a journal the machine accepts closes the span. */
  lemma {:induction false} AcceptedEndsWithSpanEnd(p: Phase, j: seq<Event>)
    requires p != SpanClosed && Run(p, j) == SpanClosed
    ensures |j| > 0 && j[|j| - 1] == SpanEnded
    decreases |j|
  {
    var q := Step(p, j[0]);
    if q == Stuck {
      RunFromStuck(j[1..]);
      assert false;
    } else if q == SpanClosed {
      if j[1..] != [] {
        RunFromStuck(j[1..][1..]);
        assert false;
      }
    } else {
      AcceptedEndsWithSpanEnd(q, j[1..]);
    }
  }

  /** In an accepted journal a clock read is either the very first event,
      read from `Created`, or it comes directly before the counter increment. */
  lemma {:induction false} ClockReadsPlaced(p: Phase, j: seq<Event>)
    requires Run(p, j) == SpanClosed
    ensures |j| > 0 && j[0].ClockRead? && p != Created ==> 1 < |j| && j[1].CounterAdded?
    ensures forall i :: 0 < i < |j| && j[i].ClockRead? ==> i + 1 < |j| && j[i + 1].CounterAdded?
    decreases |j|
  {
    if j != [] {
      var q := Step(p, j[0]);
      if q == Stuck {
        RunFromStuck(j[1..]);
        assert false;
      }
      ClockReadsPlaced(q, j[1..]);
      if j[0].ClockRead? && p != Created {
        assert q.Stopped?;
        var r := Step(q, j[1..][0]);
        if r == Stuck {
          RunFromStuck(j[1..][1..]);
          assert false;
        }
        assert j[1] == j[1..][0];
      }
      forall i | 1 <= i < |j|
        ensures j[i] == j[1..][i - 1]
      {
      }
    }
  }


  /** In an accepted journal every clock read but the opening one comes
      after any change of the span status. */
  lemma {:induction false} StatusBeforeClockReads(p: Phase, j: seq<Event>)
    requires Run(p, j) == SpanClosed
    ensures forall i, k :: 0 < i < |j| && j[i].ClockRead? && 0 <= k < |j| && j[k].StatusSet? ==> k < i
    ensures |j| > 0 && j[0].ClockRead? && p != Created ==> forall k :: 0 <= k < |j| ==> !j[k].StatusSet?
    decreases |j|
  {
    if j != [] {
      var q := Step(p, j[0]);
      if q == Stuck {
        RunFromStuck(j[1..]);
        assert false;
      }
      StatusBeforeClockReads(q, j[1..]);
      AcceptedInOrder(q, j[1..]);
      forall i | 1 <= i < |j|
        ensures j[i] == j[1..][i - 1]
      {
      }
    }
  }

  /** The timing of an accepted journal: the start time is the first event,
      read before the span opens, and every other clock read comes after the
      status is set and directly before the counter increment. */
  lemma AcceptedClockReads(j: seq<Event>)
    requires Run(Created, j) == SpanClosed
    ensures |j| > 0 && j[0].ClockRead?
    ensures forall i :: 0 < i < |j| && j[i].ClockRead? ==> i + 1 < |j| && j[i + 1].CounterAdded?
    ensures forall i, k :: 0 < i < |j| && j[i].ClockRead? && 0 <= k < |j| && j[k].StatusSet? ==> k < i
  {
    if Step(Created, j[0]) == Stuck {
      RunFromStuck(j[1..]);
      assert false;
    }
    ClockReadsPlaced(Created, j);
    StatusBeforeClockReads(Created, j);
  }
}
