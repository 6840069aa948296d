# MondoCore Application Insights adapter — a Dafny model

This project models the core of MondoCore's Azure Application Insights
adapter. The adapter implements MondoCore's `ILog` on top of an Application
Insights `TelemetryClient`. Its core has two parts:

* `DictionaryExtensions.Merge`: an in-place dictionary merge where the second
  dictionary wins on a shared key. A null or empty second dictionary and a
  null first dictionary are short-circuited, and the result aliases one of
  the arguments.
* The `ApplicationInsights` adapter. `WriteTelemetry` switches on the six
  telemetry kinds (Error, Event, Metric, Trace, Request, Availability). For
  each kind it builds one backend record, stamps it with the operation
  context, tracks it with the matching `Track*` call and flushes. The adapter
  also has `NewRequest`, which falls back on the client's own operation name
  and id, and `StartOperation`, which returns an operation scope that stops
  and disposes its handle when disposed.

Modules and files:

| file | module | what it holds |
|---|---|---|
| `dotnet.dfy` | `DotNet` | nullable values (`Option`), `string.IsNullOrWhiteSpace`, and the opaque value types (`DateTime`, `TimeSpan`, `Double`, `Exception`) |
| `dictionary_extensions.dfy` | `DictionaryExtensions` | a mutable `Dictionary` class, the `Merge` method with its loop, and `Merged`, the content it produces |
| `log_model.dfy` | `Log` | the generic `Telemetry` item, `LogSeverity`, and the availability payload |
| `telemetry_client.dfy` | `Backend` | the six backend record types, `SeverityLevel`, and `TelemetryClient`: a sink with a ghost log of the calls made on it |
| `application_insights.dfy` | `AppInsights` | the adapter class, `SetAttributes`, `AppendProperties`, the `Operation` scope and the part of `RequestLog` that `NewRequest` observes |

The backend client belongs to another library, so it is modelled as a sink.
Each `Track*`, `Flush`, `StartOperation`, `StopOperation` and handle `Dispose`
call appends one entry to its ghost `log`. The client's own
`Context.Operation.Name` and `Context.Operation.Id` are the fields `opName`
and `opId`. What the adapter does is stated as properties of that log and of
the records in it.

## Model

| member | source | states |
|---|---|---|
| `DictionaryExtensions.Merge` | MondoCore.Azure.ApplicationInsights/Extensions/DictionaryExtensions.cs:27-39 | A null or empty `dict2` returns `dict1` itself and changes nothing, even when `dict1` is null. A null `dict1` with a non-empty `dict2` returns `dict2` itself, unchanged. Otherwise it returns `dict1` itself, whose content becomes `Merged(old dict1, old dict2)`. `dict2` is untouched unless it is `dict1`. |
| `DictionaryExtensions.CopyEntries` | MondoCore.Azure.ApplicationInsights/Extensions/DictionaryExtensions.cs:35-36 | The `foreach` loop. It visits `dict2`'s keys in an order left open and leaves the target holding `Merged(old target, old source)`. When the two are the same object, the model lets the overwrites during enumeration through; see Left out. |
| `DictionaryExtensions.Merged` | MondoCore.Azure.ApplicationInsights/Extensions/DictionaryExtensions.cs:35-38 | The key set is exactly the union of both key sets. Every key of the second map has the second map's value, and a key only in the first keeps its value. |
| `DictionaryExtensions.MergedUpdate` | MondoCore.Azure.ApplicationInsights/Extensions/DictionaryExtensions.cs:36 | Writing one more entry `dict1[k] = v` extends the merge by that entry, which is the loop's step. |
| `DictionaryExtensions.MergedIdempotent` | MondoCore.Azure.ApplicationInsights/Extensions/DictionaryExtensions.cs:35-36 | Merging the same second dictionary again leaves the result unchanged. |
| `DictionaryExtensions.MergedWithItself` | MondoCore.Azure.ApplicationInsights/Extensions/DictionaryExtensions.cs:35-36 | Merging a dictionary's content into itself leaves it unchanged. This is the content of `d.Merge(d)` on a dictionary that tolerates overwrites during enumeration. |
| `DictionaryExtensions.MergedIsUnion` | MondoCore.Azure.ApplicationInsights/Extensions/DictionaryExtensions.cs:35-38 | The merge is the right-biased map union `first + second`. |
| `DictionaryExtensions.MergedIntoEmpty` | MondoCore.Azure.ApplicationInsights/ApplicationInsights.cs:142-146 | Appending a dictionary to a record's empty `Properties` or `Metrics` gives exactly that dictionary. |
| `DotNet.AllWhiteSpace` | MondoCore.Azure.ApplicationInsights/ApplicationInsights.cs:194 | True exactly when every character is white space, so the empty string counts as blank. |
| `DotNet.IsNullOrWhiteSpace` | MondoCore.Azure.ApplicationInsights/ApplicationInsights.cs:175-179 | Null, empty and white-space-only strings are blank. No other string is. |
| `AppInsights.ToSeverityLevel` | MondoCore.Azure.ApplicationInsights/ApplicationInsights.cs:61 | The cast `(SeverityLevel)((int)Severity)` gives a backend severity with the same integer value. |
| `AppInsights.SeverityOrderKept` | MondoCore.Azure.ApplicationInsights/ApplicationInsights.cs:98 | The cast keeps the order of severities and tells distinct ones apart, in both directions. |
| `AppInsights.SetAttributes` | MondoCore.Azure.ApplicationInsights/ApplicationInsights.cs:192-199 | A non-blank correlation id sets the record's operation Id to it and the operation Name to the item's operation name. A blank one leaves the context untouched. |
| `AppInsights.CorrelatedIffNotBlank` | MondoCore.Azure.ApplicationInsights/ApplicationInsights.cs:194-198 | A fresh record gets an operation Id exactly when the correlation id is not null or white space. |
| `AppInsights.AppendProperties` | MondoCore.Azure.ApplicationInsights/ISupportPropertiesExtensions.cs:29-37 | A null property object, or one with no fields, leaves the record's properties unchanged. Otherwise the flattened attributes are added and win on a shared key, and all other attributes are kept. |
| `AppInsights.ExpectedOutcome` | MondoCore.Azure.ApplicationInsights/ApplicationInsights.cs:126-158 | Dispatch throws the `ArgumentException` exactly for an Availability-typed item that is not an availability object. It fails on a null payload exactly for an Error item with no exception or a Request item with no request. It completes exactly when neither applies. |
| `AppInsights.ApplicationInsights.WriteTelemetry` | MondoCore.Azure.ApplicationInsights/ApplicationInsights.cs:49-164 | The outcome is `ExpectedOutcome(t)`. On a throw the client's log is unchanged: no Track and no Flush. Otherwise the log grows by exactly one `Track*` call of the item's kind, whose record is the one `SentFor` describes, followed by exactly one `Flush`. The Track count and the Flush count each go up by one, and by zero on a throw. |
| `AppInsights.ApplicationInsights.SendError` | MondoCore.Azure.ApplicationInsights/ApplicationInsights.cs:55-68 | One `TrackException`. Its record carries the exception, the exception's message, a severity with the item's integer value, the flattened properties, and the `SetAttributes` context. |
| `AppInsights.ApplicationInsights.SendEvent` | MondoCore.Azure.ApplicationInsights/ApplicationInsights.cs:70-81 | One `TrackEvent`. Its record is named by the message and has the flattened properties and the stamped context. |
| `AppInsights.ApplicationInsights.SendMetric` | MondoCore.Azure.ApplicationInsights/ApplicationInsights.cs:83-94 | One `TrackMetric`. Its record is named by the message and has the item's value, the flattened properties and the stamped context. |
| `AppInsights.ApplicationInsights.SendTrace` | MondoCore.Azure.ApplicationInsights/ApplicationInsights.cs:96-107 | One `TrackTrace`. Its record has the message, a severity with the item's integer value, the flattened properties and the stamped context. |
| `AppInsights.ApplicationInsights.SendRequest` | MondoCore.Azure.ApplicationInsights/ApplicationInsights.cs:109-124 | One `TrackRequest`. Its record has the message as its name and the request's start time, duration, response code and success, plus the flattened properties and the stamped context. |
| `AppInsights.ApplicationInsights.SendAvailability` | MondoCore.Azure.ApplicationInsights/ApplicationInsights.cs:128-153 | One `TrackAvailability`. Duration, TestId→Id, Message, TestName→Name, RunLocation, Sequence and Success are copied. Timestamp is the item's own timestamp, or `now` when it has none. The test's properties are added only when non-null, then the flattened ones. The test's metrics are added only when non-null. The context is stamped. |
| `AppInsights.ApplicationInsights.StartOperation` | MondoCore.Azure.ApplicationInsights/ApplicationInsights.cs:167-170 | Returns a fresh `Operation` bound to this adapter's client. Exactly one `StartOperation` call with the given name is logged, and it holds that operation's handle. |
| `AppInsights.ApplicationInsights.NewRequest` | MondoCore.Azure.ApplicationInsights/ApplicationInsights.cs:173-187 | A blank operation name or correlation id is replaced by the client's own operation name or id. A non-blank one passes through unchanged. `SetProperties` is called once exactly when a property object is given. Nothing in the adapter writes the client's own context, so it stays empty (`OwnContextEmpty`). While it is empty, the request's name or id is null exactly when the argument was blank: the fallback never supplies a value. |
| `AppInsights.ApplicationInsights.constructor` | MondoCore.Azure.ApplicationInsights/ApplicationInsights.cs:42-46 | The adapter owns a fresh client with an empty log and an empty operation context (`OwnContextEmpty`). It keeps the flattening mode it was given. |
| `AppInsights.Operation.constructor` | MondoCore.Azure.ApplicationInsights/ApplicationInsights.cs:209-213 | Exactly one `StartOperation(name)` is logged on the given client. The operation keeps that client and the fresh handle it returned. |
| `AppInsights.Operation.Dispose` | MondoCore.Azure.ApplicationInsights/ApplicationInsights.cs:216-220 | The log grows by `StopOperation(h)` and then `DisposeHandle(h)`, in that order, for the same handle `h` the constructor started. |
| `Backend.CountsOfConcat` | MondoCore.Azure.ApplicationInsights/ApplicationInsights.cs:161 | Track and Flush counts add up over consecutive parts of the call log. This lets "exactly one Track, exactly one Flush" be stated as counts. |
| `Backend.TrackThenFlushCounts` | MondoCore.Azure.ApplicationInsights/ApplicationInsights.cs:152-161 | A Track call followed by a Flush raises each count by exactly one. |

## Left out

- Property flattening: `ToReadOnlyDictionary`, `AppendStrings` (dotted paths, JSON children, key capitalisation) and `ToReadOnlyStringDictionary` live in MondoCore.Collections, which is not part of this model. The adapter holds them as the function values `flatten` and `stringify`, so their rules are uninterpreted.
- The `Append`/`AppendStrings` extensions that add to a record's `Properties` and `Metrics` are also in MondoCore.Collections. They are modelled as a merge where the appended entries win (`DictionaryExtensions.Merged`).
- MondoCore.Log is not part of this model. `Telemetry`, `AvailabilityTelemetry` and `RequestLog` are reduced to the fields the adapter reads. `RequestLog` keeps only its owner, name, id and a ghost record of `SetProperties` calls; its session property merging and its `Write*` methods are not modelled.
- `LogSeverity`'s integer values are taken to be 0..4 in declaration order (Verbose, Information, Warning, Error, Critical), which is the backend's `SeverityLevel` scale.
- Whether `AvailabilityTelemetry.Properties` is the inherited `Telemetry.Properties` or a separate field is decided in MondoCore.Log, whose source is not part of this repository. The model gives the availability payload its own optional property object. `Message` and `Timestamp` are taken from the item's common fields.
- A null `Exception` on an Error item or a null `Request` on a Request item is dereferenced with `!`. It raises an exception before any client call. The model has one outcome, `NullPayloadException`, for both cases and does not say which .NET exception type is thrown.
- The `TelemetryClient` internals are not modelled: delivery, what `Flush` does, telemetry initializers, and the request record that `StopOperation` itself tracks. Only the calls are recorded. In the model, `StartOperation` does not change the client's own `Context.Operation`.
- Backend records are values, built step by step in a local variable and handed to `Track*`. In the source they are fresh objects mutated in place, and no other reference to them exists before they are tracked, so no aliasing is lost.
- `async`/`Task.Yield` and concurrency: `WriteTelemetry` is a sequential method.
- Doubles, `TimeSpan` and `DateTime` are opaque values that are only copied. The `DateTime` to `DateTimeOffset` conversion of the availability timestamp is not modelled. `DateTime.UtcNow` is the parameter `now`.
- The constructor's `TelemetryConfiguration` is replaced by a fresh client with an empty operation context. The `childrenAsJson = true` default is not modelled; the flag is always passed in.
- A mistyped Availability item raises `ArgumentException`. Only the Error and Request cases fail on a missing payload. Errors from `Track*` and `Flush` are not modelled: the sink is reliable.
- The functional tests read a configuration file and send telemetry to a live Application Insights resource. The model has no configuration or network, so they are not modelled.
- Merge, CopyEntries: in the aliased call `d.Merge(d)`, every indexer write overwrites a key of the dictionary being enumerated. The model lets it through, so the call returns `d` unchanged. That assumes an `IDictionary` implementation that tolerates an overwrite during its own enumeration. `SortedDictionary` and the .NET Framework `Dictionary` bump their version on an overwrite, so the next `MoveNext` throws `InvalidOperationException`. The model does not capture that implementation-defined throw.
- Log.Telemetry: `TelemetryType` is a closed datatype of the six kinds. A C# enum value outside them would fall through the `switch` to `Flush` with no `Track*`, and the model cannot express that. `message` cannot be null here, although a null `Message` would pass unchanged into the Event, Metric, Trace and Request records.
