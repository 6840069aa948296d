/**
 * The generic telemetry that the adapter receives (MondoCore.Log's
 * `Telemetry` and its `AvailabilityTelemetry` subclass), reduced to the
 * fields the adapter reads.
 */
module Log {
  import opened DotNet

  /** `Telemetry.TelemetryType`: which of the six kinds an item claims to be. */
  datatype TelemetryType = Error | Event | Metric | Trace | Request | Availability

  /** `Telemetry.LogSeverity`, an ordered enumeration. */
  datatype LogSeverity = Verbose | Information | Warning | Error | Critical
  {
    /** The enumeration's integer value, in declaration order. */
    function Ordinal(): nat
    {
      match this
      case Verbose => 0
      case Information => 1
      case Warning => 2
      case Error => 3
      case Critical => 4
    }
  }

  /**
   * A caller's property object. `ToReadOnlyDictionary` turns it into its
   * top-level named fields; a field is a scalar or a nested object.
   */
  datatype PropertyValue = Scalar(text: string) | Nested(fields: map<string, PropertyValue>)

  type PropertyBag = map<string, PropertyValue>

  /** `Telemetry.Request`: the outcome of a served request. */
  datatype RequestInfo = RequestInfo(startTime: DateTime, duration: TimeSpan, responseCode: string, success: bool)

  /** The fields only an `AvailabilityTelemetry` object carries. */
  datatype AvailabilityInfo = AvailabilityInfo(
    testId: string,
    testName: string,
    runLocation: string,
    sequence: string,
    success: bool,
    duration: TimeSpan,
    properties: Option<PropertyBag>,
    metrics: Option<map<string, Double>>)

  /**
   * One telemetry item. `kind` is the declared type; `availability` is
   * `Some` exactly when the object is an `AvailabilityTelemetry`, which is a
   * run-time class and need not agree with `kind`.
   */
  datatype Telemetry = Telemetry(
    kind: TelemetryType,
    message: string,
    severity: LogSeverity,
    correlationId: Option<string>,
    operationName: Option<string>,
    timestamp: Option<DateTime>,
    properties: Option<PropertyBag>,
    exception: Option<Exception>,
    value: Double,
    request: Option<RequestInfo>,
    availability: Option<AvailabilityInfo>)
}
