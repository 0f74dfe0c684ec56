/** The fluent debugger: it formats the arguments of an instrumented method
    call, runs the call, and hands one line with the call's name, its
    arguments and its execution time to a logger. The lambda's expression
    tree is replaced by an explicit `Option<MethodCall>` (present when the
    body is a direct method call), the stopwatch reading by a number of
    milliseconds, and the compiled call by its outcome. */
module FluentDebugger {
  import opened Text
  import opened Values

  /** No argument among those `Zip` pairs with a parameter is null. */
  predicate NoNullArgument(names: seq<string>, arguments: seq<Value>) {
    forall i :: 0 <= i < |names| && i < |arguments| ==> arguments[i] != Null
  }

  /** The `Zip` of `FormatParametersAndArguments`: parameter i with argument
      i, rendered as "name: value", stopping at the shorter sequence. The
      first null argument throws out of the enumeration. */
  function FormatArguments(names: seq<string>, arguments: seq<Value>): (r: Outcome<seq<string>>)
    ensures r.Success? <==> NoNullArgument(names, arguments)
    ensures r.Failure? ==> r.error == NullReference
    ensures r.Success? ==> |r.value| == Min(|names|, |arguments|)
    ensures r.Success? ==> forall i :: 0 <= i < |r.value| ==>
              r.value[i] == EntryText(names[i], FormatValue(arguments[i]).value)
  {
    if names == [] || arguments == [] then Success([])
    else
      match FormatValue(arguments[0])
      case Failure(e) => Failure(e)
      case Success(text) =>
        match FormatArguments(names[1..], arguments[1..])
        case Failure(e) => Failure(e)
        case Success(rest) => Success([EntryText(names[0], text)] + rest)
  }

  /** `FormatParametersAndArguments`: the ", "-join of the zipped entries.
      It is empty exactly when no pair is formed, which is what makes the
      log line drop its Parameters section. */
  function FormatParametersAndArguments(call: MethodCall): (r: Outcome<string>)
    ensures r.Success? <==> NoNullArgument(call.parameterNames, call.arguments)
    ensures r.Failure? ==> r.error == NullReference
    ensures r.Success? ==> (r.value == "" <==> PairCount(call) == 0)
  {
    match FormatArguments(call.parameterNames, call.arguments)
    case Failure(e) => Failure(e)
    case Success(entries) =>
      assert entries != [] ==> |entries[0]| >= 2;
      Success(Join(", ", entries))
  }

  /** The "name: value" entries of a call whose zipped arguments are not null. */
  function Entries(call: MethodCall): (r: seq<string>)
    requires NoNullArgument(call.parameterNames, call.arguments)
  {
    FormatArguments(call.parameterNames, call.arguments).value
  }

  /** Parameters keep their positions: the entry of pair i stands after the
      entries of the pairs before it and a ", ", and before a ", " and the
      entries of the pairs after it. */
  lemma {:induction false} ParameterEntryAt(call: MethodCall, i: nat)
    requires NoNullArgument(call.parameterNames, call.arguments)
    requires i < PairCount(call)
    ensures FormatParametersAndArguments(call).value
         == (if i == 0 then "" else Join(", ", Entries(call)[..i]) + ", ")
            + EntryText(call.parameterNames[i], FormatValue(call.arguments[i]).value)
            + (if i + 1 < PairCount(call) then ", " + Join(", ", Entries(call)[i + 1..]) else "")
  {
    JoinPartAt(", ", FormatArguments(call.parameterNames, call.arguments).value, i);
  }

  /** The parameter text the debugger prepares before the call: none unless
      the body is a method call and `LogParameters` has been called. */
  function CapturedParameters(body: Option<MethodCall>, logParameters: bool): (r: Outcome<string>)
    ensures !(body.Some? && logParameters) ==> r == Success("")
    ensures r.Failure? <==> body.Some? && logParameters && !NoNullArgument(body.value.parameterNames, body.value.arguments)
    ensures r.Failure? ==> r.error == NullReference
  {
    if body.Some? && logParameters then FormatParametersAndArguments(body.value) else Success("")
  }

  /** The name `WriteLog` reads from the method info, which is null when the
      body is not a method call. */
  function MethodNameOf(body: Option<MethodCall>): (r: Option<string>)
    ensures r.Some? <==> body.Some?
    ensures body.Some? ==> r.value == body.value.name
  {
    if body.Some? then Some(body.value.name) else None
  }

  /** The message `WriteLog` sends to the logger, one interpolation per case:
      no method call, a method call with no parameter text, and a method
      call with parameter text. Only a method call's line starts with '['. */
  function LogMessage(methodName: Option<string>, parameters: string, elapsed: nat): (r: string)
    ensures r != [] && (r[0] == '[' <==> methodName.Some?)
    ensures EndsWith(r, "ms")
  {
    var milliseconds := NatToString(elapsed);
    match methodName
    case None =>
      "Execution time: " + milliseconds + "ms"
    case Some(name) =>
      if parameters == "" then
        "[" + name + "()] Execution time: " + milliseconds + "ms"
      else
        "[" + name + "()] Parameters: `" + parameters + "` | Execution time: " + milliseconds + "ms"
  }

  /** What precedes "Execution time: " in a log line. */
  function CallPrefix(methodName: Option<string>, parameters: string): (r: string) {
    match methodName
    case None => ""
    case Some(name) => "[" + name + "()] " + ParameterSection(parameters)
  }

  function ParameterSection(parameters: string): (r: string) {
    if parameters == "" then "" else "Parameters: `" + parameters + "` | "
  }

  /** Every log line is a prefix naming the call, then "Execution time: ",
      the decimal milliseconds and "ms". */
  lemma LogMessageLayout(methodName: Option<string>, parameters: string, elapsed: nat)
    ensures LogMessage(methodName, parameters, elapsed)
         == CallPrefix(methodName, parameters) + "Execution time: " + NatToString(elapsed) + "ms"
  {
    if methodName.Some? {
      var name := methodName.value;
      var tag := "[" + name + "()] ";
      if parameters == "" {
        assert "()] Execution time: " == "()] " + "Execution time: ";
        Associate("[" + name, "()] ", "Execution time: ");
        assert "[" + name + "()] Execution time: " == tag + "" + "Execution time: ";
      } else {
        var section := ParameterSection(parameters);
        assert "()] Parameters: `" == "()] " + "Parameters: `";
        Associate("[" + name, "()] ", "Parameters: `");
        assert "` | Execution time: " == "` | " + "Execution time: ";
        Associate("[" + name + "()] Parameters: `" + parameters, "` | ", "Execution time: ");
        Associate(tag, "Parameters: `", parameters);
        Associate(tag, "Parameters: `" + parameters, "` | ");
        assert section == "Parameters: `" + parameters + "` | ";
        assert "[" + name + "()] Parameters: `" + parameters + "` | Execution time: "
            == tag + section + "Execution time: ";
      }
    }
  }

  /** The fields a log line carries. */
  datatype LogFields = LogFields(methodName: Option<string>, parameters: string, elapsed: nat)

  /** Reads the call name, the parameter text and the elapsed time back from
      a log line: first the "Execution time: {n}ms" tail, then the prefix. */
  function ParseLogMessage(line: string): (r: Option<LogFields>) {
    match SplitElapsed(line)
    case None => None
    case Some(split) =>
      if split.0 == "" then Some(LogFields(None, "", split.1))
      else
        match ParseCallPrefix(split.0)
        case None => None
        case Some(call) => Some(LogFields(Some(call.0), call.1, split.1))
  }

  /** Splits a line into what precedes "Execution time: " and the number
      of milliseconds before the closing "ms". */
  function SplitElapsed(line: string): (r: Option<(string, nat)>) {
    if !EndsWith(line, "ms") then None
    else
      var timed := line[..|line| - 2];
      var digits := TrailingDigits(timed);
      var head := timed[..|timed| - |digits|];
      if digits == [] || !EndsWith(head, "Execution time: ") then None
      else Some((head[..|head| - |"Execution time: "|], DigitsValue(digits)))
  }

  lemma SplitElapsedOf(prefix: string, elapsed: nat)
    ensures SplitElapsed(prefix + "Execution time: " + NatToString(elapsed) + "ms") == Some((prefix, elapsed))
  {
    var head := prefix + "Execution time: ";
    var digits := NatToString(elapsed);
    var timed := head + digits;
    var line := timed + "ms";
    assert line[..|line| - 2] == timed;
    TrailingDigitsOf(head, digits);
    assert timed[..|timed| - |digits|] == head;
    assert head[|head| - |"Execution time: "|..] == "Execution time: ";
    assert head[..|head| - |"Execution time: "|] == prefix;
    NatToStringRoundTrip(elapsed);
  }

  /** Reads "[name()] " and the optional "Parameters: `...` | " section. */
  function ParseCallPrefix(prefix: string): (r: Option<(string, string)>) {
    if prefix == [] || prefix[0] != '[' then None
    else
      var name := TakeUntil(prefix[1..], '(');
      var rest := prefix[1 + |name|..];
      if !StartsWith(rest, "()] ") then None
      else
        var section := rest[4..];
        if section == "" then Some((name, ""))
        else if |section| >= 17 && StartsWith(section, "Parameters: `") && EndsWith(section, "` | ") then
          Some((name, section[13..|section| - 4]))
        else None
  }

  /** A C# method name never contains '(': it is an identifier. */
  predicate IsMethodName(name: string) {
    '(' !in name
  }

  lemma {:induction false} ParseCallPrefixRoundTrip(name: string, parameters: string)
    requires IsMethodName(name)
    ensures ParseCallPrefix(CallPrefix(Some(name), parameters)) == Some((name, parameters))
  {
    var section := ParameterSection(parameters);
    var prefix := CallPrefix(Some(name), parameters);
    assert prefix == "[" + name + "()] " + section;
    assert prefix[1..] == name + ['('] + (")] " + section);
    TakeUntilOf(name, '(', ")] " + section);
    var rest := prefix[1 + |name|..];
    assert rest == "()] " + section;
    assert rest[4..] == section;
    if parameters != "" {
      assert section[13..|section| - 4] == parameters;
    }
  }

  /** Every log line can be read back: the name and the parameter text of a
      method call, and the elapsed milliseconds; the parameter text is
      dropped when the body is not a method call. */
  lemma {:induction false} LogMessageRoundTrip(methodName: Option<string>, parameters: string, elapsed: nat)
    requires methodName.Some? ==> IsMethodName(methodName.value)
    ensures ParseLogMessage(LogMessage(methodName, parameters, elapsed))
         == Some(LogFields(methodName, if methodName.None? then "" else parameters, elapsed))
  {
    var prefix := CallPrefix(methodName, parameters);
    LogMessageLayout(methodName, parameters, elapsed);
    SplitElapsedOf(prefix, elapsed);
    if methodName.Some? {
      ParseCallPrefixRoundTrip(methodName.value, parameters);
    }
  }

  /** Without `LogParameters` the line never carries a parameter section. */
  lemma UncapturedMessageHasNoParameters(body: Option<MethodCall>, elapsed: nat)
    requires body.Some? ==> IsMethodName(body.value.name)
    ensures CapturedParameters(body, false) == Success("")
    ensures ParseLogMessage(LogMessage(MethodNameOf(body), CapturedParameters(body, false).value, elapsed))
         == Some(LogFields(MethodNameOf(body), "", elapsed))
  {
    LogMessageRoundTrip(MethodNameOf(body), "", elapsed);
  }

  /** The logging capability: every message handed to it, in order. */
  class Sink {
    var messages: seq<string>

    constructor ()
      ensures messages == []
    {
      messages := [];
    }

    method Log(message: string)
      modifies this
      ensures messages == old(messages) + [message]
    {
      messages := messages + [message];
    }
  }

  /** The debugger. Its logger may be null, as `Create(null)` allows;
      writing a line to a null logger throws `NullReference`. */
  class Debugger {
    const logger: Sink?
    var logParameters: bool

    constructor (logger: Sink?)
      ensures this.logger == logger && !logParameters
    {
      this.logger := logger;
      logParameters := false;
    }

    static method Create(logger: Sink?) returns (debugger: Debugger)
      ensures fresh(debugger) && debugger.logger == logger && !debugger.logParameters
    {
      debugger := new Debugger(logger);
    }

    /** `Create()` without a logger: the debugger gets a logger of its own
        that no one reads. */
    static method CreateWithNullLogger() returns (debugger: Debugger)
      ensures fresh(debugger) && debugger.logger != null && fresh(debugger.logger)
      ensures debugger.logger.messages == [] && !debugger.logParameters
    {
      var sink := new Sink();
      debugger := new Debugger(sink);
    }

    /** Turns argument capture on and returns the same debugger; the new
        state does not depend on the old one, so a second call changes nothing. */
    method LogParameters() returns (self: Debugger)
      modifies this
      ensures self == this && logParameters
    {
      logParameters := true;
      self := this;
    }

    /** Hands the line to the logger; with no logger, `_logger.Log` throws. */
    method WriteLog(methodName: Option<string>, parameters: string, elapsed: nat) returns (r: Outcome<()>)
      modifies logger
      ensures logger == null ==> r == Failure(NullReference)
      ensures logger != null ==> r == Success(())
      ensures logger != null ==>
                logger.messages == old(logger.messages) + [LogMessage(methodName, parameters, elapsed)]
    {
      if logger == null {
        return Failure(NullReference);
      }
      var message := LogMessage(methodName, parameters, elapsed);
      logger.Log(message);
      r := Success(());
    }

    /** `Run` (and `RunAsync`, whose logic is the same): format the
        arguments, then invoke, then log once and return the call's result.
        `invoked` tells whether the call ran: with capture on, a null zipped
        argument makes the formatting throw before it does. Nothing is logged
        when anything throws; a null logger throws after the call has run,
        and the call's result is lost. */
    method Run<T>(body: Option<MethodCall>, invocation: Outcome<T>, elapsed: nat)
      returns (result: Outcome<T>, invoked: bool)
      modifies logger
      ensures invoked == CapturedParameters(body, logParameters).Success?
      ensures !invoked ==> result == Failure(CapturedParameters(body, logParameters).error)
      ensures invoked && (invocation.Failure? || logger != null) ==> result == invocation
      ensures invoked && invocation.Success? && logger == null ==> result == Failure(NullReference)
      ensures logger != null && invoked && invocation.Success? ==>
                logger.messages == old(logger.messages)
                  + [LogMessage(MethodNameOf(body), CapturedParameters(body, logParameters).value, elapsed)]
      ensures logger != null && !(invoked && invocation.Success?) ==> logger.messages == old(logger.messages)
    {
      var methodName: Option<string> := None;
      var parameters := "";
      if body.Some? {
        methodName := Some(body.value.name);
        if logParameters {
          var formatted := FormatParametersAndArguments(body.value);
          if formatted.Failure? {
            return Failure(formatted.error), false;
          }
          parameters := formatted.value;
        }
      }
      invoked := true;
      result := invocation;
      if result.Failure? {
        return;
      }
      var logged := WriteLog(methodName, parameters, elapsed);
      if logged.Failure? {
        result := Failure(logged.error);
      }
    }
  }
}
