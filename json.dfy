/** JSON values as the Python code sees them after `json.loads`, with the few
    Python operations the chat system applies to them: truthiness, `str()`,
    `dict.get`, subscripting and `int()`, including the exceptions they raise. */
module Json {
  import opened Strings

  /** A decoded JSON document. Numbers are integers (see README, Left out). */
  datatype Json =
    | JNull
    | JBool(b: bool)
    | JInt(i: int)
    | JStr(s: string)
    | JArr(items: seq<Json>)
    | JObj(fields: map<string, Json>)

  /** A Python exception, by class and by the text `str(e)` gives. */
  datatype Fault =
    | KeyError(key: string)
    | TypeError(msg: string)
    | AttributeError(msg: string)
    | ValueError(msg: string)

  datatype Result<T> = Ok(value: T) | Err(fault: Fault)

  /** The outcome of `json.loads` on a request body: the value, or the text of
      the `JSONDecodeError`. */
  datatype Loaded = Loaded(value: Json) | Malformed(detail: string)

  /** `json.loads(content or '{}')`: the empty body decodes to `{}` whatever the
      decoder would say; otherwise the decoder's outcome `decoded` is used. */
  function LoadBody(content: string, decoded: Loaded): (r: Loaded)
    ensures content == [] ==> r == Loaded(JObj(map[]))
    ensures content != [] ==> r == decoded
  {
    if content == [] then Loaded(JObj(map[])) else decoded
  }

  /** `str(e)` for the exception `f`. */
  function FaultText(f: Fault): string {
    match f
    case KeyError(k) => "'" + k + "'"
    case TypeError(m) => m
    case AttributeError(m) => m
    case ValueError(m) => m
  }

  /** Python's truth value of `j` (`if j:` / `not j`). */
  predicate Truthy(j: Json) {
    match j
    case JNull => false
    case JBool(b) => b
    case JInt(i) => i != 0
    case JStr(s) => s != []
    case JArr(a) => a != []
    case JObj(m) => m != map[]
  }

  /** `type(j).__name__`. */
  function TypeName(j: Json): string {
    match j
    case JNull => "NoneType"
    case JBool(_) => "bool"
    case JInt(_) => "int"
    case JStr(_) => "str"
    case JArr(_) => "list"
    case JObj(_) => "dict"
  }

  /** `repr(j)` as it appears inside `str()` of a list. */
  function Repr(j: Json): string
    decreases j, 1
  {
    match j
    case JStr(s) => ReprStr(s)
    case _ => PyStr(j)
  }

  /** `repr(s)` of a string: single quotes unless the text holds a single
      quote and no double quote, with the backslash, the chosen quote and the
      ASCII control characters escaped. */
  function ReprStr(s: string): string {
    var q := if '\'' in s && '"' !in s then '"' else '\'';
    [q] + Escaped(s, q) + [q]
  }

  function Escaped(s: string, q: char): string {
    if s == [] then [] else EscapeChar(s[0], q) + Escaped(s[1..], q)
  }

  function EscapeChar(c: char, q: char): string {
    if c == '\\' then "\\\\"
    else if c == q then ['\\', q]
    else if c == '\t' then "\\t"
    else if c == '\n' then "\\n"
    else if c == '\r' then "\\r"
    else if c < ' ' || c == '\U{7f}' then "\\x" + [HexDigit(c as int / 16), HexDigit(c as int % 16)]
    else [c]
  }

  function HexDigit(d: int): char
    requires 0 <= d < 16
  {
    if d < 10 then ('0' as int + d) as char else ('a' as int + d - 10) as char
  }

  /** A text without single quotes, backslashes or control characters is
      shown between single quotes as it is. */
  lemma {:induction false} ReprPlain(s: string)
    requires forall i :: 0 <= i < |s| ==> s[i] >= ' ' && s[i] != '\U{7f}' && s[i] != '\\' && s[i] != '\''
    ensures ReprStr(s) == "'" + s + "'"
  {
    EscapedPlain(s, '\'');
  }

  lemma {:induction false} EscapedPlain(s: string, q: char)
    requires forall i :: 0 <= i < |s| ==> s[i] >= ' ' && s[i] != '\U{7f}' && s[i] != '\\' && s[i] != q
    ensures Escaped(s, q) == s
  {
    if s != [] {
      EscapedPlain(s[1..], q);
      assert s == [s[0]] + s[1..];
    }
  }

  /** A text holding a single quote and no double quote is shown between
      double quotes, with its single quotes left as they are. */
  lemma ReprApostrophe(a: string, b: string)
    requires forall i :: 0 <= i < |a| ==> 'a' <= a[i] <= 'z'
    requires forall i :: 0 <= i < |b| ==> 'a' <= b[i] <= 'z'
    ensures ReprStr(a + "'" + b) == "\"" + a + "'" + b + "\""
  {
    var s := a + "'" + b;
    assert s[|a|] == '\'';
    assert '"' !in s by {
      forall i | 0 <= i < |s| ensures s[i] != '"' {
        if i < |a| { assert s[i] == a[i]; } else if i > |a| { assert s[i] == b[i - |a| - 1]; }
      }
    }
    EscapedPlain(s, '"');
  }

  /** `str(j)`. */
  function PyStr(j: Json): string
    decreases j, 0
  {
    match j
    case JNull => "None"
    case JBool(b) => if b then "True" else "False"
    case JInt(i) => IntToString(i)
    case JStr(s) => s
    case JArr(a) => "[" + ReprItems(a) + "]"
    case JObj(_) => "{...}"
  }

  function ReprItems(a: seq<Json>): string
    decreases a, 2
  {
    if a == [] then []
    else if |a| == 1 then Repr(a[0])
    else Repr(a[0]) + ", " + ReprItems(a[1..])
  }

  /** `d.get(key)` on a dict: the value, or `None` when the key is absent. */
  function Get(m: map<string, Json>, key: string): (r: Json)
    ensures key in m ==> r == m[key]
    ensures key !in m ==> r == JNull
  {
    if key in m then m[key] else JNull
  }

  /** `j.get(key)` on any value: `AttributeError` unless `j` is a dict. */
  function GetAttr(j: Json, key: string): (r: Result<Json>)
    ensures r.Ok? <==> j.JObj?
    ensures j.JObj? ==> r.value == Get(j.fields, key)
  {
    match j
    case JObj(m) => Ok(Get(m, key))
    case _ => Err(AttributeError("'" + TypeName(j) + "' object has no attribute 'get'"))
  }

  /** `j[key]` with a string key: `KeyError` for a missing key of a dict,
      `TypeError` for every other kind of value. */
  function Subscript(j: Json, key: string): (r: Result<Json>)
    ensures r.Ok? <==> j.JObj? && key in j.fields
    ensures r.Ok? ==> r.value == j.fields[key]
    ensures j.JObj? && key !in j.fields ==> r == Err(KeyError(key))
  {
    match j
    case JObj(m) => if key in m then Ok(m[key]) else Err(KeyError(key))
    case JStr(_) => Err(TypeError("string indices must be integers, not 'str'"))
    case JArr(_) => Err(TypeError("list indices must be integers or slices, not str"))
    case _ => Err(TypeError("'" + TypeName(j) + "' object is not subscriptable"))
  }

  /** `int(j)`: integers and booleans convert, strings are parsed, anything
      else raises. */
  function PyIntOf(j: Json): (r: Result<int>)
    ensures j.JInt? ==> r == Ok(j.i)
    ensures j.JStr? ==> (r.Ok? <==> PyInt(j.s).Some?)
    ensures j.JStr? && r.Ok? ==> r.value == PyInt(j.s).value
    ensures j.JNull? || j.JArr? || j.JObj? ==> r.Err?
  {
    match j
    case JInt(i) => Ok(i)
    case JBool(b) => Ok(if b then 1 else 0)
    case JStr(s) =>
      (match PyInt(s)
       case Some(v) => Ok(v)
       case None => Err(ValueError("invalid literal for int() with base 10: " + Repr(j))))
    case _ => Err(TypeError("int() argument must be a string, a bytes-like object or a real number, not '" + TypeName(j) + "'"))
  }

  /** `str(int(j))` of an integer value gives back its decimal text. */
  lemma PortTextRoundTrip(i: int)
    ensures PyIntOf(JStr(PyStr(JInt(i)))) == Ok(i)
  {
    IntRoundTrip(i);
  }
}
