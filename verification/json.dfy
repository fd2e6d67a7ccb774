/** JSON values as the client sees them after `JSON.parse`, with the few JavaScript
    operations the client applies to them: truthiness, property reads (plain `.` which
    throws on null/undefined, and optional `?.` which does not), `x || []`,
    `JSON.stringify` and the string conversion a template literal performs. */
module JsonValues {
  import opened Wrappers
  import opened Text

  /** Numbers are integers (see README: floating point is left out). Object members
      keep their insertion order, which is also the order `JSON.stringify` writes. */
  datatype Json =
    | JNull
    | JBool(b: bool)
    | JNum(n: int)
    | JStr(s: string)
    | JArr(items: seq<Json>)
    | JObj(members: seq<Field>)

  datatype Field = Field(name: string, value: Json)

  /** What a property read on `null` or `undefined` throws. */
  datatype Thrown = TypeError

  /** `undefined` (`None`) or `null`. */
  predicate IsNullish(v: Option<Json>) {
    v.None? || v.value.JNull?
  }

  /** JavaScript truthiness: `undefined`, `null`, `false`, `0` and `""` are falsy;
      every array and object, even an empty one, is truthy. */
  predicate Truthy(v: Option<Json>) {
    match v
    case None => false
    case Some(JNull) => false
    case Some(JBool(b)) => b
    case Some(JNum(n)) => n != 0
    case Some(JStr(s)) => s != ""
    case Some(JArr(_)) => true
    case Some(JObj(_)) => true
  }

  /** The value of the member called `name`; when a parsed object repeats a name the
      last occurrence wins, as in `JSON.parse`. */
  function Lookup(ms: seq<Field>, name: string): (r: Option<Json>)
    ensures r.None? <==> forall i :: 0 <= i < |ms| ==> ms[i].name != name
    ensures r.Some? ==> exists i :: 0 <= i < |ms| && ms[i] == Field(name, r.value)
  {
    if |ms| == 0 then None
    else if ms[|ms| - 1].name == name then Some(ms[|ms| - 1].value)
    else Lookup(ms[..|ms| - 1], name)
  }

  /** In an object whose member `i` is the only one called `name`, looking `name` up
      finds member `i`. */
  lemma LookupUnique(ms: seq<Field>, i: nat, name: string)
    requires i < |ms| && ms[i].name == name
    requires forall j :: 0 <= j < |ms| && j != i ==> ms[j].name != name
    ensures Lookup(ms, name) == Some(ms[i].value)
  {
  }

  /** Members appended after the others that are not called `name` do not change
      what looking `name` up finds. */
  lemma {:induction false} LookupSkips(ms: seq<Field>, extra: seq<Field>, name: string)
    requires forall i :: 0 <= i < |extra| ==> extra[i].name != name
    ensures Lookup(ms + extra, name) == Lookup(ms, name)
    decreases |extra|
  {
    if |extra| > 0 {
      var n := |extra| - 1;
      var all := ms + extra;
      assert all[|all| - 1] == extra[n];
      assert all[..|all| - 1] == ms + extra[..n];
      LookupSkips(ms, extra[..n], name);
    } else {
      assert ms + extra == ms;
    }
  }

  /** `v.name` for a value that is not null or undefined, where `name` is not an
      array index: objects look the member up, arrays and strings answer `length`,
      and everything else has no such property. */
  function Member(v: Json, name: string): Option<Json> {
    match v
    case JObj(ms) => Lookup(ms, name)
    case JArr(items) => if name == "length" then Some(JNum(|items|)) else None
    case JStr(s) => if name == "length" then Some(JNum(|s|)) else None
    case _ => None
  }

  /** `v[i]` for a value that is not null or undefined. */
  function At(v: Json, i: nat): (r: Option<Json>)
    ensures v.JArr? ==> (r.Some? <==> i < |v.items|)
  {
    match v
    case JArr(items) => if i < |items| then Some(items[i]) else None
    case JStr(s) => if i < |s| then Some(JStr([s[i]])) else None
    case JObj(ms) => Lookup(ms, NatToDecimal(i))
    case _ => None
  }

  /** `v?.p0?.p1?...`: undefined as soon as a step meets null or undefined. */
  function OptionalChain(v: Option<Json>, path: seq<string>): Option<Json>
    decreases |path|
  {
    if |path| == 0 then v
    else if IsNullish(v) then None
    else OptionalChain(Member(v.value, path[0]), path[1..])
  }

  /** `v.p0.p1...`: throws a TypeError when a step has to read a property of null or
      undefined; the last step may itself yield undefined. */
  function StrictChain(v: Option<Json>, path: seq<string>): Result<Option<Json>, Thrown>
    decreases |path|
  {
    if |path| == 0 then Success(v)
    else if IsNullish(v) then Failure(TypeError)
    else StrictChain(Member(v.value, path[0]), path[1..])
  }

  /** Plain and optional chaining agree whenever the plain chain does not throw, and
      the plain chain throws exactly when the optional chain stops early at a
      nullish intermediate value. */
  lemma {:induction false} StrictAgreesWithOptional(v: Option<Json>, path: seq<string>)
    ensures StrictChain(v, path).Success? ==> StrictChain(v, path).value == OptionalChain(v, path)
    ensures StrictChain(v, path).Failure? <==> StopsEarly(v, path)
    decreases |path|
  {
    if |path| > 0 && !IsNullish(v) {
      StrictAgreesWithOptional(Member(v.value, path[0]), path[1..]);
    }
  }

  /** Some step of `v.p0.p1...` would read a property of null or undefined. */
  predicate StopsEarly(v: Option<Json>, path: seq<string>)
    decreases |path|
  {
    |path| > 0 && (IsNullish(v) || StopsEarly(Member(v.value, path[0]), path[1..]))
  }

  /** `v || []`. */
  function OrEmpty(v: Option<Json>): (r: Json)
    ensures Truthy(Some(r))
    ensures Truthy(v) ==> Some(r) == v
    ensures !Truthy(v) ==> r == JArr([])
  {
    if Truthy(v) then v.value else JArr([])
  }

  // ---------------------------------------------------------------------------
  // JSON.stringify and String(v)
  // ---------------------------------------------------------------------------

  /** The escape `JSON.stringify` writes for one character of a string. */
  function EscapeChar(c: char): string {
    if c == '"' then "\\\""
    else if c == '\\' then "\\\\"
    else if c == '\U{0008}' then "\\b"
    else if c == '\t' then "\\t"
    else if c == '\n' then "\\n"
    else if c == '\U{000C}' then "\\f"
    else if c == '\r' then "\\r"
    else if c < ' ' then "\\u00" + [HexChar(c as int / 16), HexChar(c as int % 16)]
    else [c]
  }

  function Escape(s: string): string {
    if |s| == 0 then "" else EscapeChar(s[0]) + Escape(s[1..])
  }

  /** A string as a JSON string literal. */
  function Quote(s: string): string {
    "\"" + Escape(s) + "\""
  }

  /** `JSON.stringify(v)` with no indentation. */
  function Serialize(v: Json): string {
    match v
    case JNull => "null"
    case JBool(b) => if b then "true" else "false"
    case JNum(n) => IntToString(n)
    case JStr(s) => Quote(s)
    case JArr(items) =>
      "[" + Join(seq(|items|, i requires 0 <= i < |items| => Serialize(items[i])), ",") + "]"
    case JObj(ms) =>
      "{" + Join(seq(|ms|, i requires 0 <= i < |ms| =>
                       Quote(ms[i].name) + ":" + Serialize(ms[i].value)), ",") + "}"
  }

  /** `String(v)`, which is what `${v}` in a template literal produces: arrays join
      their elements with commas (null elements becoming empty), objects become
      `[object Object]`. */
  function ToJsString(v: Json): string {
    match v
    case JNull => "null"
    case JBool(b) => if b then "true" else "false"
    case JNum(n) => IntToString(n)
    case JStr(s) => s
    case JArr(items) =>
      Join(seq(|items|, i requires 0 <= i < |items| =>
                 if items[i].JNull? then "" else ToJsString(items[i])), ",")
    case JObj(_) => "[object Object]"
  }
}
