/** JSON values as the routes and agents see them after `JSON.parse`, JavaScript's
    truthiness and property reads on them, and the greedy `/\{[\s\S]*\}/` span
    extraction both agents apply to the language model's reply. */
module Json {
  import opened Results

  datatype JValue =
    | JNull
    | JBool(b: bool)
    | JNum(n: real)
    | JStr(s: string)
    | JArr(items: seq<JValue>)
    | JObj(fields: map<string, JValue>)

  /** A property read `v.key`; `None` is `undefined`. Only objects carry named properties
      (the callers never read a key that arrays, strings or prototypes define). */
  function Member(v: JValue, key: string): Option<JValue>
  {
    if v.JObj? && key in v.fields then Some(v.fields[key]) else None
  }

  /** `fields[key]` on a parsed object. */
  function Get(fields: map<string, JValue>, key: string): Option<JValue>
  {
    if key in fields then Some(fields[key]) else None
  }

  /** JavaScript truthiness of a possibly-undefined JSON value. */
  predicate Truthy(v: Option<JValue>)
  {
    match v
    case None => false
    case Some(JNull) => false
    case Some(JBool(b)) => b
    case Some(JNum(n)) => n != 0.0
    case Some(JStr(s)) => s != ""
    case Some(JArr(_)) => true
    case Some(JObj(_)) => true
  }

  /** The routes' guard `v && typeof v === 'string'`: a non-empty string. */
  predicate IsNonEmptyString(v: Option<JValue>)
  {
    v.Some? && v.value.JStr? && v.value.s != ""
  }

  lemma NonEmptyStringIsTruthyString(v: Option<JValue>)
    ensures IsNonEmptyString(v) <==> Truthy(v) && v.Some? && v.value.JStr?
  {
  }

  /** A list of strings as JSON. */
  function JStrings(xs: seq<string>): (r: seq<JValue>)
    ensures |r| == |xs|
    ensures forall i :: 0 <= i < |xs| ==> r[i] == JStr(xs[i])
  {
    seq(|xs|, i requires 0 <= i < |xs| => JStr(xs[i]))
  }

  /** The strings of a JSON array whose every element is a string (zod's
      `z.array(z.string())`), or `None` when some element is not. */
  function StringsOf(items: seq<JValue>): (r: Option<seq<string>>)
    ensures r.Some? <==> forall i :: 0 <= i < |items| ==> items[i].JStr?
    ensures r.Some? ==> |r.value| == |items| && forall i :: 0 <= i < |items| ==> items[i] == JStr(r.value[i])
  {
    if |items| == 0 then Some([])
    else if !items[0].JStr? then None
    else
      match StringsOf(items[1..])
      case None => None
      case Some(rest) => Some([items[0].s] + rest)
  }

  /** Reading back a list of strings written as JSON gives the same list. */
  lemma {:induction false} StringsOfJStrings(xs: seq<string>)
    ensures StringsOf(JStrings(xs)) == Some(xs)
  {
    if |xs| > 0 {
      assert JStrings(xs)[1..] == JStrings(xs[1..]);
      StringsOfJStrings(xs[1..]);
      assert xs == [xs[0]] + xs[1..];
    }
  }

  /** Index of the first `c` in `s`, or `|s|` when there is none. */
  function FirstIndex(s: string, c: char): (i: nat)
    ensures i <= |s|
    ensures i < |s| ==> s[i] == c
    ensures forall k :: 0 <= k < i ==> s[k] != c
  {
    if |s| == 0 then 0
    else if s[0] == c then 0
    else 1 + FirstIndex(s[1..], c)
  }

  /** Index of the last `c` in `s`, or `-1` when there is none. */
  function LastIndex(s: string, c: char): (j: int)
    ensures -1 <= j < |s|
    ensures j >= 0 ==> s[j] == c
    ensures forall k :: j < k < |s| ==> s[k] != c
  {
    if |s| == 0 then -1
    else if s[|s| - 1] == c then |s| - 1
    else LastIndex(s[..|s| - 1], c)
  }

  /** Some `{` occurs strictly before some `}`. */
  predicate HasBracePair(text: string)
  {
    exists i, j :: 0 <= i < j < |text| && text[i] == '{' && text[j] == '}'
  }

  /** Bounds of the match of `/\{[\s\S]*\}/`: the leftmost `{` that can start a match
      is the first `{`, and the greedy body then runs to the last `}`. */
  datatype Span = Span(start: nat, end: nat)

  function BraceSpan(text: string): (r: Option<Span>)
    ensures r.Some? <==> HasBracePair(text)
    ensures r.Some? ==> r.value.start < r.value.end < |text|
    ensures r.Some? ==> text[r.value.start] == '{' && text[r.value.end] == '}'
    ensures r.Some? ==> forall k :: 0 <= k < r.value.start ==> text[k] != '{'
    ensures r.Some? ==> forall k :: r.value.end < k < |text| ==> text[k] != '}'
  {
    var i := FirstIndex(text, '{');
    var j := LastIndex(text, '}');
    if i < j then
      Some(Span(i, j))
    else
      None
  }

  /** The text `content.match(/\{[\s\S]*\}/)[0]`, or `None` when the match is null. */
  function ExtractJson(text: string): (r: Option<string>)
    ensures r.Some? <==> HasBracePair(text)
    ensures r.Some? ==> |r.value| >= 2 && r.value[0] == '{' && r.value[|r.value| - 1] == '}'
  {
    match BraceSpan(text)
    case None => None
    case Some(sp) => Some(text[sp.start..sp.end + 1])
  }

  /** The extracted span keeps every character between the first `{` and the last `}`,
      including any other braces and surrounding prose in between. */
  lemma {:induction false} ExtractJsonIsGreedy(prefix: string, body: string, suffix: string)
    requires '{' !in prefix && '}' !in suffix
    ensures ExtractJson(prefix + "{" + body + "}" + suffix) == Some("{" + body + "}")
  {
    var text := prefix + "{" + body + "}" + suffix;
    var i := |prefix|;
    var j := |prefix| + 1 + |body|;
    assert text[i] == '{' && text[j] == '}';
    assert HasBracePair(text);
    var sp := BraceSpan(text).value;
    assert forall k :: 0 <= k < i ==> text[k] == prefix[k];
    assert forall k :: j < k < |text| ==> text[k] == suffix[k - j - 1];
    assert sp.start == i && sp.end == j;
    assert text[i..j + 1] == "{" + body + "}";
  }

  /** `JSON.parse`, left abstract: `None` is a SyntaxError. A text that starts with `{`
      and parses is always an object, so a successful parse yields its members. */
  type Parser = string -> Option<map<string, JValue>>
}
