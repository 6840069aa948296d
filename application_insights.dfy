/**
 * The Application Insights adapter: it turns one generic telemetry item into
 * one backend record, hands it to the client and flushes; it opens request
 * logs that fall back on the client's own operation context; and it wraps a
 * tracked operation in a scope that stops it when disposed.
 */
module AppInsights {
  import opened DotNet
  import opened Log
  import opened Backend
  import DictionaryExtensions

  /** The text of the `ArgumentException` thrown for a mistyped availability item. */
  const AvailabilityTypeMessage := "Tracking availability requires a Telemetry parameter of type AvailabilityTelemetry"

  /** How a call to `WriteTelemetry` ends. */
  datatype Outcome =
    | Completed
      /** the `ArgumentException` of the availability branch */
    | ArgumentException(message: string)
      /** a null `Exception` or `Request` dereferenced while building the record */
    | NullPayloadException

  /**
   * MondoCore.Collections' flattening of a property object into string
   * attributes (`AppendStrings` after `ToReadOnlyDictionary`), dotted or with
   * nested objects as JSON according to its flag. Its rules are not part of
   * this model: the adapter is given one such function.
   */
  type Flattener = (PropertyBag, bool) -> map<string, string>

  /** MondoCore.Collections' `ToReadOnlyStringDictionary`, likewise given. */
  type Stringifier = PropertyBag -> map<string, string>

  /** The cast `(SeverityLevel)((int)severity)`: the integer value is kept. */
  function ToSeverityLevel(s: LogSeverity): (r: SeverityLevel)
    ensures r.Value() == s.Ordinal()
  {
    var v := s.Ordinal();
    if v == 0 then SeverityLevel.Verbose
    else if v == 1 then SeverityLevel.Information
    else if v == 2 then SeverityLevel.Warning
    else if v == 3 then SeverityLevel.Error
    else SeverityLevel.Critical
  }

  /** The cast keeps the order of the severities, in both directions. */
  lemma SeverityOrderKept(a: LogSeverity, b: LogSeverity)
    ensures a.Ordinal() <= b.Ordinal() <==> ToSeverityLevel(a).Value() <= ToSeverityLevel(b).Value()
    ensures a == b <==> ToSeverityLevel(a) == ToSeverityLevel(b)
  {
  }

  /**
   * `SetAttributes`: a record's operation context takes the item's
   * correlation id and operation name when the correlation id is not blank,
   * and is left as it is otherwise.
   */
  function SetAttributes(t: Telemetry, ctx: OperationContext): (r: OperationContext)
    ensures !IsNullOrWhiteSpace(t.correlationId) ==> r.id == t.correlationId && r.name == t.operationName
    ensures IsNullOrWhiteSpace(t.correlationId) ==> r == ctx
  {
    if IsNullOrWhiteSpace(t.correlationId) then ctx
    else ctx.(id := t.correlationId, name := t.operationName)
  }

  /** A fresh record ends up with an operation id exactly when the correlation id is not blank. */
  lemma CorrelatedIffNotBlank(t: Telemetry)
    ensures SetAttributes(t, Uncorrelated).id.Some? <==> !IsNullOrWhiteSpace(t.correlationId)
    ensures Stamped(t, SetAttributes(t, Uncorrelated))
  {
  }

  /**
   * `AppendProperties`: the item's property object is flattened and appended
   * to a record's properties only when it is there and has at least one
   * field; appended attributes win over ones already present.
   */
  function AppendProperties(props: map<string, string>, t: Telemetry, childrenAsJson: bool, flatten: Flattener): (r: map<string, string>)
    ensures t.properties.None? || |t.properties.value| == 0 ==> r == props
    ensures t.properties.Some? && |t.properties.value| != 0 ==>
              var added := flatten(t.properties.value, childrenAsJson);
              && r.Keys == props.Keys + added.Keys
              && (forall k :: k in added ==> r[k] == added[k])
              && (forall k :: k in props && k !in added ==> r[k] == props[k])
  {
    if t.properties.None? || |t.properties.value| == 0 then props
    else DictionaryExtensions.Merged(props, flatten(t.properties.value, childrenAsJson))
  }

  /** How `WriteTelemetry` ends for an item, decided by its kind and payload alone. */
  function ExpectedOutcome(t: Telemetry): (r: Outcome)
    ensures r == ArgumentException(AvailabilityTypeMessage) <==>
              t.kind == TelemetryType.Availability && t.availability.None?
    ensures r == NullPayloadException <==>
              || (t.kind == TelemetryType.Error && t.exception.None?)
              || (t.kind == TelemetryType.Request && t.request.None?)
    ensures r == Completed <==>
              && !(t.kind == TelemetryType.Availability && t.availability.None?)
              && !(t.kind == TelemetryType.Error && t.exception.None?)
              && !(t.kind == TelemetryType.Request && t.request.None?)
  {
    match t.kind
    case Error => if t.exception.None? then NullPayloadException else Completed
    case Request => if t.request.None? then NullPayloadException else Completed
    case Availability => if t.availability.None? then ArgumentException(AvailabilityTypeMessage) else Completed
    case _ => Completed
  }

  /** The operation context a record ends with, from the item's correlation id. */
  predicate Stamped(t: Telemetry, ctx: OperationContext)
  {
    if IsNullOrWhiteSpace(t.correlationId) then ctx == Uncorrelated
    else ctx.id == t.correlationId && ctx.name == t.operationName
  }

  /** A record's severity carries the item's severity with the same integer value. */
  predicate CarriesSeverity(s: Option<SeverityLevel>, severity: LogSeverity)
  {
    s.Some? && s.value.Value() == severity.Ordinal()
  }

  /** The adapter: one shared client and the flattening mode chosen at construction. */
  class ApplicationInsights {
    const client: TelemetryClient
    const childrenAsJson: bool
    const flatten: Flattener
    const stringify: Stringifier

    /** A new client whose own operation context is still empty. */
    constructor (childrenAsJson: bool, flatten: Flattener, stringify: Stringifier)
      ensures fresh(client) && client.log == [] && OwnContextEmpty()
      ensures this.childrenAsJson == childrenAsJson && this.flatten == flatten && this.stringify == stringify
    {
      client := new TelemetryClient(None, None);
      this.childrenAsJson := childrenAsJson;
      this.flatten := flatten;
      this.stringify := stringify;
    }

    /**
     * The client's own `Context.Operation` has neither a name nor an id. The
     * constructor establishes it and, since nothing in the adapter writes
     * that context, it holds for the adapter's whole life.
     */
    predicate OwnContextEmpty()
    {
      client.opName.None? && client.opId.None?
    }

    /** The item's flattened properties, appended to `props`. */
    function Appended(props: map<string, string>, t: Telemetry): map<string, string>
    {
      AppendProperties(props, t, childrenAsJson, flatten)
    }

    /**
     * The call that sends item `t`: the `Track*` call of its kind, whose
     * record holds the fields copied from the item, the flattened properties,
     * the severity with the same integer value, and the operation context of
     * `Stamped`.
     */
    ghost predicate SentFor(t: Telemetry, now: DateTime, c: Call)
    {
      match t.kind
      case Error => c.TrackException? && ExceptionRecordFor(t, c.exceptionRecord)
      case Event => c.TrackEvent? && EventRecordFor(t, c.eventRecord)
      case Metric => c.TrackMetric? && MetricRecordFor(t, c.metricRecord)
      case Trace => c.TrackTrace? && TraceRecordFor(t, c.traceRecord)
      case Request => c.TrackRequest? && RequestRecordFor(t, c.requestRecord)
      case Availability => c.TrackAvailability? && AvailabilityRecordFor(t, now, c.availabilityRecord)
    }

    ghost predicate ExceptionRecordFor(t: Telemetry, rec: ExceptionTelemetry)
    {
      && t.exception.Some?
      && rec.exception == t.exception.value
      && rec.message == t.exception.value.message
      && CarriesSeverity(rec.severity, t.severity)
      && rec.properties == Appended(map[], t)
      && Stamped(t, rec.operation)
    }

    ghost predicate EventRecordFor(t: Telemetry, rec: EventTelemetry)
    {
      && rec.name == t.message
      && rec.properties == Appended(map[], t)
      && Stamped(t, rec.operation)
    }

    ghost predicate MetricRecordFor(t: Telemetry, rec: MetricTelemetry)
    {
      && rec.name == t.message
      && rec.value == t.value
      && rec.properties == Appended(map[], t)
      && Stamped(t, rec.operation)
    }

    ghost predicate TraceRecordFor(t: Telemetry, rec: TraceTelemetry)
    {
      && rec.message == t.message
      && CarriesSeverity(rec.severity, t.severity)
      && rec.properties == Appended(map[], t)
      && Stamped(t, rec.operation)
    }

    ghost predicate RequestRecordFor(t: Telemetry, rec: RequestTelemetry)
    {
      && t.request.Some?
      && rec.name == t.message
      && rec.startTime == t.request.value.startTime
      && rec.duration == t.request.value.duration
      && rec.responseCode == t.request.value.responseCode
      && rec.success == t.request.value.success
      && rec.properties == Appended(map[], t)
      && Stamped(t, rec.operation)
    }

    /**
     * The availability record: the test's fields copied, the item's own
     * timestamp or else `now`, the test's properties (when given) and then
     * the item's flattened ones, and the test's metrics when given.
     */
    ghost predicate AvailabilityRecordFor(t: Telemetry, now: DateTime, rec: AvailabilityTelemetry)
    {
      && t.availability.Some?
      && var a := t.availability.value;
      && rec.duration == a.duration
      && rec.id == a.testId
      && rec.message == t.message
      && rec.name == a.testName
      && rec.runLocation == a.runLocation
      && rec.sequence == a.sequence
      && rec.success == a.success
      && rec.timestamp == (if t.timestamp.Some? then t.timestamp.value else now)
      && rec.metrics == (if a.metrics.Some? then a.metrics.value else map[])
      && rec.properties == Appended(if a.properties.Some? then stringify(a.properties.value) else map[], t)
      && Stamped(t, rec.operation)
    }

    /** `after` is `before` followed by the call that sends `t` and one `Flush`. */
    ghost predicate WroteOne(before: seq<Call>, after: seq<Call>, t: Telemetry, now: DateTime)
    {
      && |after| == |before| + 2
      && after[..|before|] == before
      && SentFor(t, now, after[|before|])
      && after[|before| + 1] == Call.Flush
    }

    /**
     * `WriteTelemetry`: build the record for the item's kind, send it with the
     * matching `Track*` call and flush. An item whose payload does not match
     * its kind makes it throw before any call on the client. `now` stands for
     * `DateTime.UtcNow`.
     */
    method WriteTelemetry(t: Telemetry, now: DateTime) returns (outcome: Outcome)
      modifies client`log
      ensures outcome == ExpectedOutcome(t)
      ensures outcome != Completed ==> client.log == old(client.log)
      ensures outcome == Completed ==> WroteOne(old(client.log), client.log, t, now)
      ensures TrackCount(client.log) == TrackCount(old(client.log)) + (if outcome == Completed then 1 else 0)
      ensures FlushCount(client.log) == FlushCount(old(client.log)) + (if outcome == Completed then 1 else 0)
    {
      ghost var call: Call;
      match t.kind {
        case Error =>
          if t.exception.None? {
            return NullPayloadException;
          }
          call := SendError(t);
        case Event =>
          call := SendEvent(t);
        case Metric =>
          call := SendMetric(t);
        case Trace =>
          call := SendTrace(t);
        case Request =>
          if t.request.None? {
            return NullPayloadException;
          }
          call := SendRequest(t);
        case Availability =>
          if t.availability.None? {
            return ArgumentException(AvailabilityTypeMessage);
          }
          call := SendAvailability(t, now);
      }
      assert SentFor(t, now, call) && call.IsTrack();
      client.Flush();
      TrackThenFlushCounts(old(client.log), call);
      assert client.log == old(client.log) + [call, Call.Flush];
      outcome := Completed;
    }

    /** The `Error` case: an `ExceptionTelemetry` carrying the exception, its message and the severity. */
    method SendError(t: Telemetry) returns (ghost call: Call)
      requires t.exception.Some?
      modifies client`log
      ensures client.log == old(client.log) + [call]
      ensures call.TrackException? && ExceptionRecordFor(t, call.exceptionRecord)
    {
      var ex := t.exception.value;
      var tel := ExceptionTelemetry(ex, "", None, map[], Uncorrelated);
      tel := tel.(properties := Appended(tel.properties, t));
      tel := tel.(message := ex.message);
      tel := tel.(severity := Some(ToSeverityLevel(t.severity)));
      tel := tel.(operation := SetAttributes(t, tel.operation));
      client.TrackException(tel);
      call := Call.TrackException(tel);
    }

    /** The `Event` case: an `EventTelemetry` named by the message. */
    method SendEvent(t: Telemetry) returns (ghost call: Call)
      modifies client`log
      ensures client.log == old(client.log) + [call]
      ensures call.TrackEvent? && EventRecordFor(t, call.eventRecord)
    {
      var tel := EventTelemetry(t.message, map[], Uncorrelated);
      tel := tel.(properties := Appended(tel.properties, t));
      tel := tel.(operation := SetAttributes(t, tel.operation));
      client.TrackEvent(tel);
      call := Call.TrackEvent(tel);
    }

    /** The `Metric` case: a `MetricTelemetry` named by the message, with the value. */
    method SendMetric(t: Telemetry) returns (ghost call: Call)
      modifies client`log
      ensures client.log == old(client.log) + [call]
      ensures call.TrackMetric? && MetricRecordFor(t, call.metricRecord)
    {
      var tel := MetricTelemetry(t.message, t.value, map[], Uncorrelated);
      tel := tel.(properties := Appended(tel.properties, t));
      tel := tel.(operation := SetAttributes(t, tel.operation));
      client.TrackMetric(tel);
      call := Call.TrackMetric(tel);
    }

    /** The `Trace` case: a `TraceTelemetry` with the message and the severity. */
    method SendTrace(t: Telemetry) returns (ghost call: Call)
      modifies client`log
      ensures client.log == old(client.log) + [call]
      ensures call.TrackTrace? && TraceRecordFor(t, call.traceRecord)
    {
      var tel := TraceTelemetry(t.message, Some(ToSeverityLevel(t.severity)), map[], Uncorrelated);
      tel := tel.(properties := Appended(tel.properties, t));
      tel := tel.(operation := SetAttributes(t, tel.operation));
      client.TrackTrace(tel);
      call := Call.TrackTrace(tel);
    }

    /** The `Request` case: a `RequestTelemetry` from the request's outcome. */
    method SendRequest(t: Telemetry) returns (ghost call: Call)
      requires t.request.Some?
      modifies client`log
      ensures client.log == old(client.log) + [call]
      ensures call.TrackRequest? && RequestRecordFor(t, call.requestRecord)
    {
      var req := t.request.value;
      var tel := RequestTelemetry(t.message, req.startTime, req.duration, req.responseCode, req.success, map[], Uncorrelated);
      tel := tel.(properties := Appended(tel.properties, t));
      tel := tel.(operation := SetAttributes(t, tel.operation));
      client.TrackRequest(tel);
      call := Call.TrackRequest(tel);
    }

    /** The `Availability` case, once the item is known to be an availability test. */
    method SendAvailability(t: Telemetry, now: DateTime) returns (ghost call: Call)
      requires t.availability.Some?
      modifies client`log
      ensures client.log == old(client.log) + [call]
      ensures call.TrackAvailability? && AvailabilityRecordFor(t, now, call.availabilityRecord)
    {
      var a := t.availability.value;
      var tel := AvailabilityTelemetry(
        a.testId, a.testName, t.message, a.runLocation, a.sequence, a.success, a.duration,
        if t.timestamp.Some? then t.timestamp.value else now,
        map[], map[], Uncorrelated);
      if a.properties.Some? {
        DictionaryExtensions.MergedIntoEmpty(stringify(a.properties.value));
        tel := tel.(properties := DictionaryExtensions.Merged(tel.properties, stringify(a.properties.value)));
      }
      if a.metrics.Some? {
        DictionaryExtensions.MergedIntoEmpty(a.metrics.value);
        tel := tel.(metrics := DictionaryExtensions.Merged(tel.metrics, a.metrics.value));
      }
      tel := tel.(properties := Appended(tel.properties, t));
      tel := tel.(operation := SetAttributes(t, tel.operation));
      client.TrackAvailability(tel);
      call := Call.TrackAvailability(tel);
    }

    /** `StartOperation`: a new scope on this adapter's client for the named operation. */
    method StartOperation(operationName: string) returns (op: Operation)
      modifies client`log
      ensures fresh(op) && fresh(op.holder)
      ensures op.client == client && op.holder.operationName == operationName
      ensures client.log == old(client.log) + [Call.StartOperation(operationName, op.holder)]
    {
      op := new Operation(client, operationName);
    }

    /**
     * `NewRequest`: a request log whose operation name and correlation id
     * are the arguments, or the client's own operation name and id where an
     * argument is blank; a property object, when given, is set on it.
     */
    method NewRequest(operationName: Option<string>, correlationId: Option<string>, properties: Option<PropertyBag>)
      returns (request: RequestLog)
      ensures fresh(request) && request.owner == this
      ensures !IsNullOrWhiteSpace(operationName) ==> request.operationName == operationName
      ensures IsNullOrWhiteSpace(operationName) ==> request.operationName == client.opName
      ensures !IsNullOrWhiteSpace(correlationId) ==> request.correlationId == correlationId
      ensures IsNullOrWhiteSpace(correlationId) ==> request.correlationId == client.opId
      ensures request.propertiesSet == (if properties.Some? then [properties.value] else [])
      ensures OwnContextEmpty() ==>
                (request.operationName.None? <==> IsNullOrWhiteSpace(operationName))
                && (request.correlationId.None? <==> IsNullOrWhiteSpace(correlationId))
    {
      var name, id := operationName, correlationId;
      if IsNullOrWhiteSpace(name) {
        name := client.opName;
      }
      if IsNullOrWhiteSpace(id) {
        id := client.opId;
      }
      request := new RequestLog(this, name, id);
      if properties.Some? {
        request.SetProperties(properties.value);
      }
    }
  }

  /**
   * The private `Operation` scope: it starts a tracked operation when built
   * and, when disposed, stops that same operation and disposes its handle.
   */
  class Operation {
    const client: TelemetryClient
    const holder: OperationHolder

    constructor (client: TelemetryClient, operationName: string)
      modifies client`log
      ensures this.client == client && fresh(holder) && holder.operationName == operationName
      ensures client.log == old(client.log) + [Call.StartOperation(operationName, holder)]
    {
      var h := client.StartOperation(operationName);
      this.client := client;
      this.holder := h;
    }

    method Dispose()
      modifies client`log
      ensures client.log == old(client.log) + [Call.StopOperation(holder), Call.DisposeHandle(holder)]
    {
      client.StopOperation(holder);
      client.DisposeHandle(holder);
    }
  }

  /**
   * MondoCore.Log's `RequestLog`, reduced to what `NewRequest` decides: its
   * owner, operation name and correlation id, and the property objects set
   * on it (how it stores and uses them is not part of this model).
   */
  class RequestLog {
    const owner: ApplicationInsights
    const operationName: Option<string>
    const correlationId: Option<string>
    ghost var propertiesSet: seq<PropertyBag>

    constructor (owner: ApplicationInsights, operationName: Option<string>, correlationId: Option<string>)
      ensures this.owner == owner && this.operationName == operationName && this.correlationId == correlationId
      ensures propertiesSet == []
    {
      this.owner := owner;
      this.operationName := operationName;
      this.correlationId := correlationId;
      propertiesSet := [];
    }

    method SetProperties(properties: PropertyBag)
      modifies this`propertiesSet
      ensures propertiesSet == old(propertiesSet) + [properties]
    {
      propertiesSet := propertiesSet + [properties];
    }
  }
}
