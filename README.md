# FluentDebug in Dafny

FluentDebug wraps a call in a fluent debugger: `FluentDebugger.Create(logger).LogParameters().Run(() => Delay(100, list, dictionary))`
formats the call's arguments, runs the call, and sends one line such as
``[Delay()] Parameters: `milliseconds: 100, list: [1, 2, 3], dictionary: {a: 1, b: 2, c: 3}` | Execution time: 103ms``
to the logger. `CallerInfoModel` describes the same lambda a second way: it
tells whether the body is a method call, names the method, pairs parameters
with argument values on first use only, and formats them.

The model has four modules:

- `Text` (`text.dfy`): `string.Join`, the decimal text of the elapsed
  milliseconds, and the small scanners used to read a log line back.
- `Values` (`values.dfy`): argument values, the method-call descriptor,
  outcomes and exceptions, and the rendering of one value. Both source files
  hold the same `value switch`, `FormatDictionary` and `FormatEnumerable`;
  the model defines them once.
- `FluentDebugger` (`fluent_debugger.dfy`): the zip-and-format of the
  arguments, the log message of `WriteLog` with a reader that recovers its
  fields, a recording `Sink`, and the `Debugger` class with
  `LogParameters`, `WriteLog` and `Run`.
- `CallerInfoModel` (`caller_info_model.dfy`): `GetParameters`,
  `FormatParameters` and the `CallerInfo` class whose `Lazy<>` cell is an
  optional field filled on first read.

Modelling choices:

- The lambda's expression tree becomes `Option<MethodCall>`. It is present
  exactly when the body is a `MethodCallExpression`. It carries the method
  name, the formal parameter names and the argument values.
- A `Value` is `Null` or an `Instance` carrying its `ToString()` text, its
  elements if it is `IEnumerable`, and its key/value texts if it is
  `IDictionary`. A dictionary is also enumerable, so the order of the type
  tests is visible. A C# `string` is enumerable too (`StringValue`).
- `value.ToString()` on a null argument throws `NullReferenceException`.
  The model keeps that exception (`Failure(NullReference)`) rather than
  inventing a rendering. Arguments are formatted only when `LogParameters`
  is on, and only those the zip pairs with a parameter. With capture on, a
  null zipped argument throws before the call is invoked, and nothing is
  logged; with capture off (the default) a null argument is never
  formatted, so the call runs and its line is logged.
- The logger may be null, as `Create(null)` allows: `Debugger.logger` is a
  `Sink?`. `WriteLog` then throws `NullReference` at `_logger.Log`, after
  the call has already run, so `Run` loses the call's result and logs
  nothing.
- The call's result or exception is a parameter `invocation: Outcome<T>`.
  The stopwatch reading is a parameter `elapsed: nat`. `Run`'s out-parameter
  `invoked` says whether the call ran.
- `FluentDebugger.cs` has no rethrow transform: an exception from the call
  propagates unchanged. The stopwatch runs from
  before the formatting until `WriteLog` reads it, so the elapsed time
  includes the formatting. The Parameters section is dropped exactly when
  the parameter text is empty, which `FormatParametersAndArguments` shows
  happens exactly when no parameter/argument pair is formed.

## Model

| member | source | states |
|---|---|---|
| `Text.Join` | FluentDebug/FluentDebugger.cs:99 | `string.Join`: empty for no parts; otherwise starts with the first part and ends with the last |
| `Text.JoinPartAt` | FluentDebug/FluentDebugger.cs:99 | order is kept: part i stands between the join of the earlier parts plus a separator and a separator plus the join of the later parts |
| `Text.NatToString` | FluentDebug/FluentDebugger.cs:118 | the elapsed milliseconds print as at least one decimal digit with no leading zero ("0" only for zero) |
| `Text.NatToStringRoundTrip` | FluentDebug/FluentDebugger.cs:118 | the printed digits read back as the same number |
| `Values.EntryText` | FluentDebug/FluentDebugger.cs:96 | a `"name: value"` entry starts with the name, then `": "`, then the value text |
| `Values.FormatValue` | FluentDebug/FluentDebugger.cs:89-94 | throws `NullReference` exactly for a null value; a dictionary renders as a dictionary even though it is enumerable; an enumerable that is not a dictionary renders as a list; anything else renders as its `ToString()` text |
| `Values.FormatDictionary` | FluentDebug/FluentDebugger.cs:102-106 | braces around the entries; `{}` for an empty dictionary |
| `Values.FormatEnumerable` | FluentDebug/FluentDebugger.cs:108-112 | square brackets around the elements; `[]` for an empty enumerable |
| `Values.DictionaryEntryAt` | FluentDebug/Models/CallerInfoModel.cs:66-70 | entry i, `"key: value"`, appears in key order between the earlier and the later entries, each separated by `", "` |
| `Values.EnumerableElementAt` | FluentDebug/Models/CallerInfoModel.cs:72-76 | element i appears in iteration order between the earlier and the later elements, each separated by `", "` |
| `Values.StringValue` | FluentDebug/FluentDebugger.cs:91-92 | a C# `string` argument is not a dictionary but an enumerable whose elements are its characters, each as a one-character text; its `ToString()` is the string itself |
| `Values.StringRendersAsCharacters` | FluentDebug/FluentDebugger.cs:91-92 | a string argument falls into the enumerable case: it renders as the bracketed list of its characters and never as its own text |
| `FluentDebugger.FormatArguments` | FluentDebug/FluentDebugger.cs:85-97 | the zip gives min(#parameters, #arguments) entries; entry i is parameter i with the rendering of argument i; it succeeds exactly when none of the zipped arguments is null |
| `FluentDebugger.FormatParametersAndArguments` | FluentDebug/FluentDebugger.cs:80-100 | throws `NullReference` exactly when a zipped argument is null; otherwise the text is empty exactly when no pair is formed |
| `FluentDebugger.ParameterEntryAt` | FluentDebug/FluentDebugger.cs:85-99 | parameter i's `"name: value"` entry appears in position order between the earlier and the later entries, each separated by `", "` |
| `FluentDebugger.CapturedParameters` | FluentDebug/FluentDebugger.cs:40-45 | the parameter text is empty unless the body is a method call and capture is on; it throws `NullReference` exactly when capture is on for a method call with a null zipped argument |
| `FluentDebugger.MethodNameOf` | FluentDebug/FluentDebugger.cs:40-46 | the method info is present exactly for a method-call body and carries that method's name |
| `FluentDebugger.LogMessage` | FluentDebug/FluentDebugger.cs:114-131 | a line starts with `[` exactly when it reports a method call, and every line ends with `ms`; its body holds the three interpolations of `WriteLog` (no method call; a method call with empty parameter text; a method call with a Parameters section), which `LogMessageLayout` and `LogMessageRoundTrip` pin down |
| `FluentDebugger.LogMessageLayout` | FluentDebug/FluentDebugger.cs:116-129 | every line is a prefix naming the call, then `Execution time: `, the digits and `ms` |
| `FluentDebugger.LogMessageRoundTrip` | FluentDebug/FluentDebugger.cs:114-131 | the method name, the parameter text and the elapsed milliseconds are recovered exactly from any line; the line forms cannot be mistaken for one another |
| `FluentDebugger.ParseCallPrefixRoundTrip` | FluentDebug/FluentDebugger.cs:124-128 | the `[{name}()] ` prefix and the optional Parameters section give back the name and the parameter text |
| `FluentDebugger.UncapturedMessageHasNoParameters` | FluentDebug/FluentDebugger.cs:41-45 | without `LogParameters` the parameter text is empty and the logged line carries no Parameters section |
| `FluentDebugger.Sink.constructor` | FluentDebug/Loggers/LogAdapter.cs:9-12 | a new logger has received no message |
| `FluentDebugger.Sink.Log` | FluentDebug/Loggers/LogAdapter.cs:14-17 | the message is appended to what the logger received |
| `FluentDebugger.Debugger.constructor` | FluentDebug/FluentDebugger.cs:21-24 | keeps the given logger, which may be null; argument capture starts off |
| `FluentDebugger.Debugger.Create` | FluentDebug/FluentDebugger.cs:26-29 | a fresh debugger over the given logger (null allowed), capture off |
| `FluentDebugger.Debugger.CreateWithNullLogger` | FluentDebug/FluentDebugger.cs:31-34 | a fresh debugger over a fresh logger, capture off |
| `FluentDebugger.Debugger.LogParameters` | FluentDebug/FluentDebugger.cs:74-78 | sets capture on and returns the same instance; the new state does not depend on the old, so two calls equal one |
| `FluentDebugger.Debugger.WriteLog` | FluentDebug/FluentDebugger.cs:114-131 | appends exactly one message, `LogMessage` of the name, parameters and elapsed time; throws `NullReference` when the logger is null |
| `FluentDebugger.Debugger.Run` | FluentDebug/FluentDebugger.cs:36-53 | formatting comes first: with `LogParameters` on, a null zipped argument throws before the call is invoked; otherwise the call is invoked and its exception is returned unchanged, and its result too when the logger is not null; exactly one line is logged on success and none when anything throws; with a null logger a successful call ends in `NullReference` |
| `CallerInfoModel.Pairs` | FluentDebug/Models/CallerInfoModel.cs:57-63 | the zip has min(#parameters, #arguments) pairs; pair i is (parameter name i, argument i) |
| `CallerInfoModel.GetParameters` | FluentDebug/Models/CallerInfoModel.cs:47-64 | no pairs when the body is not a method call; otherwise the positional pairs, in order, as many as the shorter side |
| `CallerInfoModel.RenderPairs` | FluentDebug/Models/CallerInfoModel.cs:31-44 | one `"key: value"` entry per pair, in list order; throws `NullReference` exactly when some value is null |
| `CallerInfoModel.FormatPairs` | FluentDebug/Models/CallerInfoModel.cs:29-45 | the joined text succeeds exactly when no value is null, and is empty exactly for an empty list |
| `CallerInfoModel.FormatParametersAgreesWithDebugger` | FluentDebug/Models/CallerInfoModel.cs:29-45 | the two formatters agree: pairing then rendering gives the same text, or the same exception, as rendering inside the zip; no method call gives the empty text |
| `CallerInfoModel.CallerInfo.constructor` | FluentDebug/Models/CallerInfoModel.cs:21-27 | records whether the body is a method call; the parameter cell starts empty and nothing has been evaluated |
| `CallerInfoModel.CallerInfo.IsMethodCall` | FluentDebug/Models/CallerInfoModel.cs:16 | agrees with the flag computed in the constructor |
| `CallerInfoModel.CallerInfo.MethodName` | FluentDebug/Models/CallerInfoModel.cs:18 | the empty string when the body is not a method call, the method's name otherwise |
| `CallerInfoModel.CallerInfo.Parameters` | FluentDebug/Models/CallerInfoModel.cs:19 | returns `GetParameters` of the body; the first read evaluates the arguments once; later reads keep the cached list and evaluate nothing |
| `CallerInfoModel.CallerInfo.FormatParameters` | FluentDebug/Models/CallerInfoModel.cs:29-45 | returns the formatted pairs of `Parameters`, reading the arguments through the cache |
| `CallerInfoModel.ReadParametersTwice` | FluentDebug/Models/CallerInfoModel.cs:13-26 | two reads of `Parameters` return the same list and evaluate the arguments once in all |

## Left out

- Expression-tree inspection and reflection (`MethodCallExpression`, `MethodInfo.GetParameters`, `Compile()`, `DynamicInvoke`) are runtime services. The explicit `MethodCall` descriptor replaces them.
- Evaluating an argument expression is not modelled. Arguments arrive as values, so the side effects and exceptions of that evaluation are left out. In `FluentDebugger` the arguments are evaluated once for formatting and again by the compiled call. In `CallerInfoModel`, `Lazy<>` would cache an exception from `GetParameters`.
- `Stopwatch` is left out; the elapsed milliseconds are a parameter.
- `RunAsync` has the same logic as `Run` around an `await`. `Debugger.Run` models both.
- The logger is a recording `Sink`. The forwarding of `LogAdapter` to Microsoft.Extensions.Logging is left out. So is the discarding of `NullLogger`: `CreateWithNullLogger` gets a fresh sink that nobody reads.
- `FluentDebug/FluentDebug.cs` is an earlier version that only times a call and logs `Execution time: {n}ms`. It is not part of this model.
- `ExceptionContext` is a property bag that nothing in `FluentDebugger.cs` fills, and the code has no rethrow transform. Neither is modelled.
- `ToString()` of objects, of elements and of dictionary values is taken as given text. Two source behaviours are therefore out of reach: `x.ToString()` on a null element throws, and a null dictionary value interpolates as the empty text.
- `FluentDebugger.LogMessageRoundTrip`, `FluentDebugger.ParseCallPrefixRoundTrip` and `FluentDebugger.UncapturedMessageHasNoParameters` require the method name to contain no `(`. That holds for every C# identifier, but not for every .NET method name: F# double-backtick names and names emitted directly in IL may contain `(`.
- `Values.StringValue` and `Values.StringRendersAsCharacters` split a string into Unicode scalar values, while a C# string enumerates UTF-16 code units. They agree on strings inside the Basic Multilingual Plane. A character outside it, such as an emoji, is one element in the model but two lone-surrogate elements in C#. Dafny's `char` cannot hold a lone surrogate.
- The tests only sleep and assert nothing; they are not modelled.
