/** The caller-info model: a description of an instrumented lambda that
    tells whether its body is a method call, names the method, and pairs the
    method's parameters with their argument values, evaluating the arguments
    on first use only (`Lazy<>`). */
module CallerInfoModel {
  import opened Text
  import opened Values
  import FluentDebugger

  /** The `Zip` of `GetParameters`: parameter i with argument i, stopping
      at the shorter sequence. */
  function Pairs(names: seq<string>, arguments: seq<Value>): (r: seq<(string, Value)>)
    ensures |r| == Min(|names|, |arguments|)
    ensures forall i :: 0 <= i < |r| ==> r[i] == (names[i], arguments[i])
  {
    if names == [] || arguments == [] then []
    else [(names[0], arguments[0])] + Pairs(names[1..], arguments[1..])
  }

  /** `GetParameters`: no pairs when the body is not a method call, else the
      zip of the method's parameter names with the argument values. */
  function GetParameters(body: Option<MethodCall>): (r: seq<(string, Value)>)
    ensures body.None? ==> r == []
    ensures body.Some? ==> |r| == PairCount(body.value)
    ensures body.Some? ==> forall i :: 0 <= i < |r| ==>
              r[i] == (body.value.parameterNames[i], body.value.arguments[i])
  {
    if body.None? then [] else Pairs(body.value.parameterNames, body.value.arguments)
  }

  predicate NoNullValue(pairs: seq<(string, Value)>) {
    forall i :: 0 <= i < |pairs| ==> pairs[i].1 != Null
  }

  /** The `Select` of `FormatParameters`: each pair as "key: value"; the
      first null value throws out of `ToList`. */
  function RenderPairs(pairs: seq<(string, Value)>): (r: Outcome<seq<string>>)
    ensures r.Success? <==> NoNullValue(pairs)
    ensures r.Failure? ==> r.error == NullReference
    ensures r.Success? ==> |r.value| == |pairs|
    ensures r.Success? ==> forall i :: 0 <= i < |pairs| ==>
              r.value[i] == EntryText(pairs[i].0, FormatValue(pairs[i].1).value)
  {
    if pairs == [] then Success([])
    else
      match FormatValue(pairs[0].1)
      case Failure(e) => Failure(e)
      case Success(text) =>
        match RenderPairs(pairs[1..])
        case Failure(e) => Failure(e)
        case Success(rest) => Success([EntryText(pairs[0].0, text)] + rest)
  }

  /** The string `FormatParameters` returns for a list of pairs: the
      ", "-join of the rendered pairs, empty exactly for an empty list. */
  function FormatPairs(pairs: seq<(string, Value)>): (r: Outcome<string>)
    ensures r.Success? <==> NoNullValue(pairs)
    ensures r.Success? ==> (r.value == "" <==> pairs == [])
  {
    match RenderPairs(pairs)
    case Failure(e) => Failure(e)
    case Success(entries) =>
      assert entries != [] ==> |entries[0]| >= 2;
      Success(Join(", ", entries))
  }

  lemma {:induction false} RenderPairsOfZip(names: seq<string>, arguments: seq<Value>)
    ensures RenderPairs(Pairs(names, arguments)) == FluentDebugger.FormatArguments(names, arguments)
  {
    if names != [] && arguments != [] {
      var pairs := Pairs(names, arguments);
      assert pairs[1..] == Pairs(names[1..], arguments[1..]);
      RenderPairsOfZip(names[1..], arguments[1..]);
    }
  }

  /** The two formatters of the library agree: for a method call, pairing
      first and rendering afterwards (`CallerInfoModel`) gives the same
      string, and the same exception, as rendering inside the zip
      (`FluentDebugger`). Without a method call the text is empty. */
  lemma FormatParametersAgreesWithDebugger(body: Option<MethodCall>)
    ensures body.None? ==> FormatPairs(GetParameters(body)) == Success("")
    ensures body.Some? ==>
              FormatPairs(GetParameters(body)) == FluentDebugger.FormatParametersAndArguments(body.value)
  {
    if body.Some? {
      RenderPairsOfZip(body.value.parameterNames, body.value.arguments);
    }
  }

  class CallerInfo {
    /** The lambda's body, seen as a method call when it is one. */
    const body: Option<MethodCall>
    /** `_isMethodCallExpression`, fixed by the constructor. */
    const isMethodCallExpression: bool
    /** The `Lazy<>` cell behind `Parameters`: empty until first read. */
    var parameters: Option<seq<(string, Value)>>
    /** How many times `GetParameters` has run, i.e. the arguments were evaluated. */
    ghost var evaluations: nat

    ghost predicate Valid()
      reads this
    {
      && isMethodCallExpression == body.Some?
      && (parameters.None? ==> evaluations == 0)
      && (parameters.Some? ==> evaluations == 1 && parameters.value == GetParameters(body))
    }

    constructor (body: Option<MethodCall>)
      ensures Valid() && this.body == body
      ensures parameters.None? && evaluations == 0
    {
      this.body := body;
      isMethodCallExpression := body.Some?;
      parameters := None;
      evaluations := 0;
    }

    /** `IsMethodCall` looks at the body again; it agrees with the flag the
        constructor stored. */
    function IsMethodCall(): (r: bool)
      reads this
      requires Valid()
      ensures r == isMethodCallExpression
    {
      body.Some?
    }

    function MethodName(): (r: string)
      reads this
      requires Valid()
      ensures !isMethodCallExpression ==> r == ""
      ensures isMethodCallExpression ==> r == body.value.name
    {
      if isMethodCallExpression then body.value.name else ""
    }

    /** `Parameters`: the first read evaluates the arguments and fills the
        cell; every later read returns the cached list and evaluates nothing. */
    method Parameters() returns (r: seq<(string, Value)>)
      requires Valid()
      modifies this
      ensures Valid() && evaluations == 1
      ensures r == GetParameters(body)
      ensures old(parameters).Some? ==> parameters == old(parameters) && evaluations == old(evaluations)
    {
      if parameters.None? {
        parameters := Some(GetParameters(body));
        evaluations := evaluations + 1;
      }
      r := parameters.value;
    }

    method FormatParameters() returns (r: Outcome<string>)
      requires Valid()
      modifies this
      ensures Valid() && evaluations == 1
      ensures r == FormatPairs(GetParameters(body))
    {
      var pairs := Parameters();
      r := FormatPairs(pairs);
    }
  }

  /** Reading `Parameters` any number of times evaluates the arguments once
      and always yields the same list. */
  method ReadParametersTwice(info: CallerInfo) returns (first: seq<(string, Value)>, second: seq<(string, Value)>)
    requires info.Valid()
    modifies info
    ensures info.Valid() && info.evaluations == 1
    ensures first == second == GetParameters(info.body)
  {
    first := info.Parameters();
    second := info.Parameters();
  }
}
