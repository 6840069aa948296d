/**
 * The telemetry backend (Microsoft.ApplicationInsights) as the adapter sees
 * it: the records it accepts, and a client that is only a sink. The client
 * keeps a ghost log of the calls made on it, so that what the adapter does
 * can be stated as a property of that log.
 */
module Backend {
  import opened DotNet

  /** `SeverityLevel` of the backend, with its integer values. */
  datatype SeverityLevel = Verbose | Information | Warning | Error | Critical
  {
    function Value(): int
    {
      match this
      case Verbose => 0
      case Information => 1
      case Warning => 2
      case Error => 3
      case Critical => 4
    }
  }

  /** A record's `Context.Operation`: its `Id` and `Name`, null until set. */
  datatype OperationContext = OperationContext(id: Option<string>, name: Option<string>)

  /** The operation context of a freshly constructed record. */
  const Uncorrelated := OperationContext(None, None)

  /** `ExceptionTelemetry`. */
  datatype ExceptionTelemetry = ExceptionTelemetry(
    exception: Exception,
    message: string,
    severity: Option<SeverityLevel>,
    properties: map<string, string>,
    operation: OperationContext)

  /** `EventTelemetry`. */
  datatype EventTelemetry = EventTelemetry(
    name: string,
    properties: map<string, string>,
    operation: OperationContext)

  /** `MetricTelemetry`. */
  datatype MetricTelemetry = MetricTelemetry(
    name: string,
    value: Double,
    properties: map<string, string>,
    operation: OperationContext)

  /** `TraceTelemetry`. */
  datatype TraceTelemetry = TraceTelemetry(
    message: string,
    severity: Option<SeverityLevel>,
    properties: map<string, string>,
    operation: OperationContext)

  /** `RequestTelemetry`. */
  datatype RequestTelemetry = RequestTelemetry(
    name: string,
    startTime: DateTime,
    duration: TimeSpan,
    responseCode: string,
    success: bool,
    properties: map<string, string>,
    operation: OperationContext)

  /** `AvailabilityTelemetry` of the backend. */
  datatype AvailabilityTelemetry = AvailabilityTelemetry(
    id: string,
    name: string,
    message: string,
    runLocation: string,
    sequence: string,
    success: bool,
    duration: TimeSpan,
    timestamp: DateTime,
    properties: map<string, string>,
    metrics: map<string, Double>,
    operation: OperationContext)

  /** The handle `StartOperation` returns (an `IOperationHolder`). */
  class OperationHolder {
    const operationName: string

    constructor (operationName: string)
      ensures this.operationName == operationName
    {
      this.operationName := operationName;
    }
  }

  /** One call made on the client. */
  datatype Call =
    | TrackException(exceptionRecord: ExceptionTelemetry)
    | TrackEvent(eventRecord: EventTelemetry)
    | TrackMetric(metricRecord: MetricTelemetry)
    | TrackTrace(traceRecord: TraceTelemetry)
    | TrackRequest(requestRecord: RequestTelemetry)
    | TrackAvailability(availabilityRecord: AvailabilityTelemetry)
    | Flush
    | StartOperation(operationName: string, holder: OperationHolder)
    | StopOperation(holder: OperationHolder)
    | DisposeHandle(holder: OperationHolder)
  {
    predicate IsTrack()
    {
      TrackException? || TrackEvent? || TrackMetric? || TrackTrace? || TrackRequest? || TrackAvailability?
    }
  }

  /** The number of `Track*` calls in a log. */
  function TrackCount(log: seq<Call>): nat
  {
    if log == [] then 0 else (if log[0].IsTrack() then 1 else 0) + TrackCount(log[1..])
  }

  /** The number of `Flush` calls in a log. */
  function FlushCount(log: seq<Call>): nat
  {
    if log == [] then 0 else (if log[0] == Call.Flush then 1 else 0) + FlushCount(log[1..])
  }

  /** Both counts add up over consecutive stretches of a log. */
  lemma {:induction false} CountsOfConcat(a: seq<Call>, b: seq<Call>)
    ensures TrackCount(a + b) == TrackCount(a) + TrackCount(b)
    ensures FlushCount(a + b) == FlushCount(a) + FlushCount(b)
  {
    if a != [] {
      assert (a + b)[1..] == a[1..] + b;
      CountsOfConcat(a[1..], b);
    } else {
      assert a + b == b;
    }
  }

  /** A `Track*` call followed by a `Flush` adds one to each count. */
  lemma TrackThenFlushCounts(log: seq<Call>, c: Call)
    requires c.IsTrack()
    ensures TrackCount(log + [c, Call.Flush]) == TrackCount(log) + 1
    ensures FlushCount(log + [c, Call.Flush]) == FlushCount(log) + 1
  {
    var pair := [c, Call.Flush];
    CountsOfConcat(log, pair);
    assert pair[1..] == [Call.Flush];
    assert [Call.Flush][1..] == [];
    assert TrackCount([Call.Flush]) == 0 && FlushCount([Call.Flush]) == 1;
  }

  /**
   * `TelemetryClient`, as a sink. `opName` and `opId` are its own
   * `Context.Operation.Name` and `Context.Operation.Id`, fixed at
   * construction: nothing the adapter calls writes them. What the backend does with a call is not modelled.
   */
  class TelemetryClient {
    ghost var log: seq<Call>
    const opName: Option<string>
    const opId: Option<string>

    constructor (opName: Option<string>, opId: Option<string>)
      ensures log == [] && this.opName == opName && this.opId == opId
    {
      log := [];
      this.opName := opName;
      this.opId := opId;
    }

    method TrackException(r: ExceptionTelemetry)
      modifies this`log
      ensures log == old(log) + [Call.TrackException(r)]
    {
      log := log + [Call.TrackException(r)];
    }

    method TrackEvent(r: EventTelemetry)
      modifies this`log
      ensures log == old(log) + [Call.TrackEvent(r)]
    {
      log := log + [Call.TrackEvent(r)];
    }

    method TrackMetric(r: MetricTelemetry)
      modifies this`log
      ensures log == old(log) + [Call.TrackMetric(r)]
    {
      log := log + [Call.TrackMetric(r)];
    }

    method TrackTrace(r: TraceTelemetry)
      modifies this`log
      ensures log == old(log) + [Call.TrackTrace(r)]
    {
      log := log + [Call.TrackTrace(r)];
    }

    method TrackRequest(r: RequestTelemetry)
      modifies this`log
      ensures log == old(log) + [Call.TrackRequest(r)]
    {
      log := log + [Call.TrackRequest(r)];
    }

    method TrackAvailability(r: AvailabilityTelemetry)
      modifies this`log
      ensures log == old(log) + [Call.TrackAvailability(r)]
    {
      log := log + [Call.TrackAvailability(r)];
    }

    method Flush()
      modifies this`log
      ensures log == old(log) + [Call.Flush]
    {
      log := log + [Call.Flush];
    }

    /** `StartOperation<RequestTelemetry>(name)`: a new handle for a named operation. */
    method StartOperation(operationName: string) returns (h: OperationHolder)
      modifies this`log
      ensures fresh(h) && h.operationName == operationName
      ensures log == old(log) + [Call.StartOperation(operationName, h)]
    {
      h := new OperationHolder(operationName);
      log := log + [Call.StartOperation(operationName, h)];
    }

    method StopOperation(h: OperationHolder)
      modifies this`log
      ensures log == old(log) + [Call.StopOperation(h)]
    {
      log := log + [Call.StopOperation(h)];
    }

    /** The handle's own `Dispose`, recorded in the same log. */
    method DisposeHandle(h: OperationHolder)
      modifies this`log
      ensures log == old(log) + [Call.DisposeHandle(h)]
    {
      log := log + [Call.DisposeHandle(h)];
    }
  }
}
