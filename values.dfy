/** What the formatter sees of a call: argument values, the descriptor of
    a direct method call, outcomes and exceptions, and the rendering of one
    value (the `value switch` shared by FluentDebugger and CallerInfoModel). */
module Values {
  import opened Text

  datatype Option<+T> = None | Some(value: T)

  /** The exceptions the model distinguishes: the one `ToString()` on a null
      argument raises, and anything the instrumented call itself throws. */
  datatype Exception = NullReference | Thrown(message: string)

  /** A computation that either returns a value or throws. */
  datatype Outcome<+T> = Success(value: T) | Failure(error: Exception)

  /** An evaluated argument as the runtime type tests see it. `text` is what
      `ToString()` returns; `elements` is present when the object implements
      `IEnumerable` (each element's `ToString()`, in iteration order);
      `entries` is present when it implements `IDictionary` (each key with
      its value's text, in `Keys` order). A dictionary is also enumerable,
      which is why the order of the type tests matters. A .NET object cannot
      carry `entries` without `elements`, since `IDictionary` extends
      `IEnumerable` (see `WellFormed`); `FormatValue` tests `entries` first,
      so it never looks at `elements` of such a value anyway. */
  datatype Value =
    | Null
    | Instance(text: string, elements: Option<seq<string>>, entries: Option<seq<(string, string)>>)

  /** A value a .NET runtime can produce: every dictionary is enumerable. */
  predicate WellFormed(v: Value) {
    v.Instance? && v.entries.Some? ==> v.elements.Some?
  }

  /** The body of the instrumented lambda when it is a direct method call:
      the method's name, its formal parameter names and its argument values. */
  datatype MethodCall = MethodCall(name: string, parameterNames: seq<string>, arguments: seq<Value>)

  function Min(a: nat, b: nat): (r: nat) {
    if a < b then a else b
  }

  /** How many (parameter, argument) pairs `Zip` produces for a call. */
  function PairCount(call: MethodCall): (r: nat) {
    Min(|call.parameterNames|, |call.arguments|)
  }

  /** `$"{name}: {value}"`, the text of one parameter or dictionary entry. */
  function EntryText(name: string, value: string): (r: string)
    ensures StartsWith(r, name) && |r| == |name| + 2 + |value| && r[|name|..|name| + 2] == ": "
    ensures r[|name| + 2..] == value
  {
    name + ": " + value
  }

  function EntryTexts(entries: seq<(string, string)>): (r: seq<string>)
    ensures |r| == |entries|
    ensures forall i :: 0 <= i < |entries| ==> r[i] == EntryText(entries[i].0, entries[i].1)
  {
    seq(|entries|, i requires 0 <= i < |entries| => EntryText(entries[i].0, entries[i].1))
  }

  /** `FormatDictionary`: braces around the ", "-joined "key: value" texts. */
  function FormatDictionary(entries: seq<(string, string)>): (r: string)
    ensures StartsWith(r, "{") && EndsWith(r, "}")
    ensures entries == [] ==> r == "{}"
  {
    "{" + Join(", ", EntryTexts(entries)) + "}"
  }

  /** `FormatEnumerable`: square brackets around the ", "-joined element texts. */
  function FormatEnumerable(elements: seq<string>): (r: string)
    ensures StartsWith(r, "[") && EndsWith(r, "]")
    ensures elements == [] ==> r == "[]"
  {
    "[" + Join(", ", elements) + "]"
  }

  /** The `value switch`: dictionary first, then enumerable, then `ToString()`,
      which throws on a null value. */
  function FormatValue(v: Value): (r: Outcome<string>)
    ensures r.Failure? <==> v.Null?
    ensures r.Failure? ==> r.error == NullReference
    ensures v.Instance? && v.entries.Some? ==> r.value == FormatDictionary(v.entries.value)
    ensures v.Instance? && v.entries.None? && v.elements.Some? ==> r.value == FormatEnumerable(v.elements.value)
    ensures v.Instance? && v.entries.None? && v.elements.None? ==> r.value == v.text
  {
    match v
    case Null => Failure(NullReference)
    case Instance(text, elements, entries) =>
      if entries.Some? then Success(FormatDictionary(entries.value))
      else if elements.Some? then Success(FormatEnumerable(elements.value))
      else Success(text)
  }

  /** Key order is kept: entry i of a dictionary is rendered after the
      entries before it and a ", ", and before a ", " and the entries after it. */
  lemma {:induction false} DictionaryEntryAt(entries: seq<(string, string)>, i: nat)
    requires i < |entries|
    ensures FormatDictionary(entries)
         == "{" + ((if i == 0 then "" else Join(", ", EntryTexts(entries)[..i]) + ", ")
                   + EntryText(entries[i].0, entries[i].1)
                   + (if i + 1 < |entries| then ", " + Join(", ", EntryTexts(entries)[i + 1..]) else "")) + "}"
  {
    JoinPartAt(", ", EntryTexts(entries), i);
  }

  /** Iteration order is kept: element i is rendered after the elements
      before it and a ", ", and before a ", " and the elements after it. */
  lemma {:induction false} EnumerableElementAt(elements: seq<string>, i: nat)
    requires i < |elements|
    ensures FormatEnumerable(elements)
         == "[" + ((if i == 0 then "" else Join(", ", elements[..i]) + ", ")
                   + elements[i]
                   + (if i + 1 < |elements| then ", " + Join(", ", elements[i + 1..]) else "")) + "]"
  {
    JoinPartAt(", ", elements, i);
  }

  /** The texts of the characters of a string, one per character. */
  function CharTexts(s: string): (r: seq<string>)
    ensures |r| == |s| && forall i :: 0 <= i < |s| ==> r[i] == [s[i]]
  {
    seq(|s|, i requires 0 <= i < |s| => [s[i]])
  }

  /** A C# `string` argument: not a dictionary, but an enumerable of its characters. */
  function StringValue(s: string): (v: Value)
    ensures v.Instance? && v.text == s && v.entries.None? && v.elements == Some(CharTexts(s))
    ensures WellFormed(v)
  {
    Instance(s, Some(CharTexts(s)), None)
  }

  lemma {:induction false} JoinCharTextsLength(s: string)
    requires s != []
    ensures |Join(", ", CharTexts(s))| == 3 * |s| - 2
  {
    if |s| > 1 {
      assert CharTexts(s)[1..] == CharTexts(s[1..]);
      JoinCharTextsLength(s[1..]);
    }
  }

  /** Because a string is enumerable, a string argument is rendered as the
      bracketed list of its characters and never as its own text. */
  lemma StringRendersAsCharacters(s: string)
    ensures FormatValue(StringValue(s)) == Success(FormatEnumerable(CharTexts(s)))
    ensures FormatValue(StringValue(s)).value != s
  {
    if s != [] {
      JoinCharTextsLength(s);
    }
  }
}
