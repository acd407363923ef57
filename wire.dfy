/** HTTP/1.1 response framing on bytes, as written by the tracker, the peer and
    the reverse proxy: a status line, header lines, a blank line, the body.
    The reading side is the peer client's `data.split(b'\r\n\r\n', 1)[1]`
    (daemon/peer.py:250). */
module Wire {
  import opened Strings

  type byte = x: int | 0 <= x < 256

  const CR: byte := 13
  const LF: byte := 10
  const CRLF: seq<byte> := [CR, LF]

  // ---------------------------------------------------------------- UTF-8

  /** The UTF-8 encoding of one Unicode scalar value. */
  function EncodeChar(c: char): (r: seq<byte>)
    ensures 1 <= |r| <= 4
    ensures c as int < 0x80 ==> r == [c as int]
    ensures c as int >= 0x80 ==> forall i :: 0 <= i < |r| ==> r[i] >= 0x80
  {
    var n := c as int;
    if n < 0x80 then [n]
    else if n < 0x800 then [0xC0 + n / 64, 0x80 + n % 64]
    else if n < 0x10000 then [0xE0 + n / 4096, 0x80 + (n / 64) % 64, 0x80 + n % 64]
    else [0xF0 + n / 262144, 0x80 + (n / 4096) % 64, 0x80 + (n / 64) % 64, 0x80 + n % 64]
  }

  /** `s.encode('utf-8')`. */
  function Utf8(s: string): (r: seq<byte>)
    ensures |r| >= |s|
    ensures s != [] ==> r != [] && (r[0] == CR <==> s[0] == '\r')
  {
    if s == [] then [] else EncodeChar(s[0]) + Utf8(s[1..])
  }

  lemma {:induction false} Utf8Concat(a: string, b: string)
    ensures Utf8(a + b) == Utf8(a) + Utf8(b)
  {
    if a == [] {
      assert a + b == b;
    } else {
      assert (a + b)[0] == a[0];
      assert (a + b)[1..] == a[1..] + b;
      Utf8Concat(a[1..], b);
    }
  }

  /** A carriage return byte comes only from a carriage return character. */
  lemma {:induction false} Utf8NoCR(s: string)
    requires '\r' !in s
    ensures CR !in Utf8(s)
  {
    if s != [] {
      assert s[0] != '\r';
      assert '\r' !in s[1..];
      Utf8NoCR(s[1..]);
    }
  }

  /** `len(s.encode('utf-8')) == len(s)` for ASCII text. */
  lemma {:induction false} Utf8AsciiLength(s: string)
    requires forall i :: 0 <= i < |s| ==> s[i] as int < 0x80
    ensures |Utf8(s)| == |s|
  {
    if s != [] {
      assert s[0] as int < 0x80;
      Utf8AsciiLength(s[1..]);
    }
  }

  // ---------------------------------------------------------------- heads

  datatype Field = Field(name: string, value: string)

  /** A response head: the status line and the header lines, in order. */
  datatype Head = Head(statusLine: string, fields: seq<Field>)

  function FieldLine(f: Field): string {
    f.name + ": " + f.value
  }

  function HeadLines(h: Head): (r: seq<string>)
    ensures |r| == |h.fields| + 1 && r[0] == h.statusLine
    ensures forall i :: 0 <= i < |h.fields| ==> r[i + 1] == FieldLine(h.fields[i])
  {
    [h.statusLine] + seq(|h.fields|, i requires 0 <= i < |h.fields| => FieldLine(h.fields[i]))
  }

  /** Each line encoded and terminated by CRLF. */
  function Lines(ls: seq<string>): seq<byte> {
    if ls == [] then [] else Utf8(ls[0]) + CRLF + Lines(ls[1..])
  }

  /** The bytes on the wire: head lines, the blank line, the body. */
  function Frame(h: Head, body: seq<byte>): seq<byte> {
    Lines(HeadLines(h)) + CRLF + body
  }

  /** A line that cannot end the head early: non-empty, no carriage return. */
  predicate GoodLine(l: string) {
    l != [] && '\r' !in l
  }

  predicate WellFormed(h: Head) {
    GoodLine(h.statusLine) && forall i :: 0 <= i < |h.fields| ==> GoodLine(FieldLine(h.fields[i]))
  }

  /** The value of the first header field named `name`. */
  function FieldValue(fields: seq<Field>, name: string): (r: Option<string>)
    ensures r.Some? ==> exists i :: 0 <= i < |fields| && fields[i] == Field(name, r.value)
    ensures r.None? ==> forall i :: 0 <= i < |fields| ==> fields[i].name != name
  {
    if fields == [] then None
    else if fields[0].name == name then Some(fields[0].value)
    else
      var r := FieldValue(fields[1..], name);
      assert forall i :: 1 <= i < |fields| ==> fields[i] == fields[1..][i - 1];
      r
  }

  /** The head declares, as its first Content-Length field, the length `n`. */
  predicate DeclaresLength(h: Head, n: nat) {
    var v := FieldValue(h.fields, "Content-Length");
    v.Some? && PyInt(v.value) == Some(n)
  }

  // ---------------------------------------------------------------- reading

  /** `\r\n\r\n` starts at index `i` of `d`. */
  predicate BlankAt(d: seq<byte>, i: nat) {
    i + 4 <= |d| && d[i] == CR && d[i + 1] == LF && d[i + 2] == CR && d[i + 3] == LF
  }

  /** Index of the first `\r\n\r\n` in `d` at or after `i`. */
  function FindBlankFrom(d: seq<byte>, i: nat): (r: Option<nat>)
    ensures r.Some? ==> i <= r.value && BlankAt(d, r.value)
    ensures r.Some? ==> forall j :: i <= j < r.value ==> !BlankAt(d, j)
    ensures r.None? ==> forall j :: i <= j ==> !BlankAt(d, j)
    decreases |d| - i
  {
    if i >= |d| then None
    else if BlankAt(d, i) then Some(i)
    else FindBlankFrom(d, i + 1)
  }

  /** `data.split(b'\r\n\r\n', 1)[1]`; `None` where Python raises `IndexError`. */
  function BodyOf(d: seq<byte>): (r: Option<seq<byte>>)
    ensures r.Some? ==> |r.value| <= |d| - 4 && r.value == d[|d| - |r.value|..]
    ensures r.None? <==> forall j :: 0 <= j ==> !BlankAt(d, j)
  {
    match FindBlankFrom(d, 0)
    case None => None
    case Some(k) => Some(d[k + 4..])
  }

  /** The search result is determined by the first blank line. */
  lemma FirstBlank(d: seq<byte>, k: nat)
    requires BlankAt(d, k) && forall j :: 0 <= j < k ==> !BlankAt(d, j)
    ensures FindBlankFrom(d, 0) == Some(k)
  {
  }

  /** Inside a line without CR no blank line starts. */
  lemma NoBlankInLine(u: seq<byte>, rest: seq<byte>)
    requires CR !in u
    ensures forall j :: 0 <= j < |u| ==> !BlankAt(u + rest, j)
  {
    forall j | 0 <= j < |u| ensures !BlankAt(u + rest, j) {
      assert (u + rest)[j] == u[j];
    }
  }

  /** Blank lines in `rest` are blank lines of `p + rest`, shifted by `|p|`. */
  lemma ShiftBlank(p: seq<byte>, rest: seq<byte>)
    ensures forall j :: 0 <= j ==> (BlankAt(p + rest, |p| + j) <==> BlankAt(rest, j))
  {
    forall j | 0 <= j ensures BlankAt(p + rest, |p| + j) <==> BlankAt(rest, j) {
      if j + 4 <= |rest| {
        assert (p + rest)[|p| + j] == rest[j];
        assert (p + rest)[|p| + j + 1] == rest[j + 1];
        assert (p + rest)[|p| + j + 2] == rest[j + 2];
        assert (p + rest)[|p| + j + 3] == rest[j + 3];
      }
    }
  }

  /** One line of a head: no blank line starts in it or in its line break
      when the next line does not start with CR. */
  lemma LineStep(u: seq<byte>, rest: seq<byte>, m: nat)
    requires CR !in u
    requires rest != [] && rest[0] != CR
    requires forall j :: 0 <= j < m ==> !BlankAt(rest, j)
    ensures forall j :: 0 <= j < |u| + 2 + m ==> !BlankAt(u + CRLF + rest, j)
  {
    var d := u + CRLF + rest;
    assert d == u + (CRLF + rest);
    NoBlankInLine(u, CRLF + rest);
    assert d[|u| + 2] == rest[0];
    assert d[|u| + 1] == LF;
    assert !BlankAt(d, |u|) && !BlankAt(d, |u| + 1);
    assert d == (u + CRLF) + rest;
    ShiftBlank(u + CRLF, rest);
    forall j | |u| + 2 <= j < |u| + 2 + m ensures !BlankAt(d, j) {
      assert !BlankAt(rest, j - (|u| + 2));
    }
  }

  /** The last line of a head and the blank line that closes it. */
  lemma LastLine(u: seq<byte>, body: seq<byte>)
    requires CR !in u
    ensures BlankAt(u + CRLF + (CRLF + body), |u|)
    ensures forall j :: 0 <= j < |u| ==> !BlankAt(u + CRLF + (CRLF + body), j)
  {
    var d := u + CRLF + (CRLF + body);
    assert d == u + (CRLF + (CRLF + body));
    NoBlankInLine(u, CRLF + (CRLF + body));
    assert d[|u|] == CR && d[|u| + 1] == LF && d[|u| + 2] == CR && d[|u| + 3] == LF;
  }

  /** No blank line starts early in a run of good lines followed by the blank
      line that closes the head. */
  lemma {:induction false} NoEarlyBlank(ls: seq<string>, body: seq<byte>)
    requires ls != []
    requires forall i :: 0 <= i < |ls| ==> GoodLine(ls[i])
    ensures |Lines(ls)| >= 2
    ensures BlankAt(Lines(ls) + CRLF + body, |Lines(ls)| - 2)
    ensures forall j :: 0 <= j < |Lines(ls)| - 2 ==> !BlankAt(Lines(ls) + CRLF + body, j)
  {
    assert GoodLine(ls[0]);
    var u := Utf8(ls[0]);
    Utf8NoCR(ls[0]);
    var tail := Lines(ls[1..]);
    var rest := tail + CRLF + body;
    assert Lines(ls) == u + CRLF + tail;
    assert Lines(ls) + CRLF + body == u + CRLF + rest;
    if |ls| == 1 {
      assert rest == CRLF + body;
      LastLine(u, body);
    } else {
      NoEarlyBlank(ls[1..], body);
      var v := Utf8(ls[1]);
      assert GoodLine(ls[1]);
      assert ls[1][0] in ls[1];
      assert tail == v + CRLF + Lines(ls[2..]);
      assert rest[0] == v[0];
      LineStep(u, rest, |tail| - 2);
      ShiftBlank(u + CRLF, rest);
      assert u + CRLF + rest == (u + CRLF) + rest;
      assert BlankAt(rest, |tail| - 2);
    }
  }

  /** The body a client reads back from a well-formed frame is exactly the body
      that was framed. */
  lemma FrameBody(h: Head, body: seq<byte>)
    requires WellFormed(h)
    ensures BodyOf(Frame(h, body)) == Some(body)
  {
    var ls := HeadLines(h);
    forall i | 0 <= i < |ls| ensures GoodLine(ls[i]) {
      if i > 0 {
        assert ls[i] == FieldLine(h.fields[i - 1]);
      }
    }
    NoEarlyBlank(ls, body);
    var d := Frame(h, body);
    var k := |Lines(ls)| - 2;
    FirstBlank(d, k);
    assert d[k + 4..] == body;
  }

  /** A Content-Length field carrying `str(n)` declares `n`. */
  lemma DeclaredLengthOf(h: Head, n: nat)
    requires FieldValue(h.fields, "Content-Length") == Some(Decimal(n))
    ensures DeclaresLength(h, n)
  {
    IntRoundTrip(n);
  }

  // ---------------------------------------------------------------- fixed replies

  /** The proxy's fixed `404 Not Found` reply (daemon/proxy.py:264-271,
      proxy.py:177-184): plain text, the declared length 13 is the body's. */
  function NotFoundReply(): (r: seq<byte>)
    ensures r == Frame(FixedHead(NotFoundText, "13"), Utf8(NotFoundText))
    ensures BodyOf(r) == Some(Utf8(NotFoundText))
    ensures DeclaresLength(FixedHead(NotFoundText, "13"), |Utf8(NotFoundText)|)
  {
    NotFoundFacts();
    FixedReply(NotFoundText, 13)
  }

  const NotFoundText := "404 Not Found"

  lemma NotFoundFacts()
    ensures GoodLine(NotFoundText) && |NotFoundText| == 13 && Decimal(13) == "13"
    ensures forall i :: 0 <= i < |NotFoundText| ==> NotFoundText[i] as int < 0x80
  {
  }

  /** The proxy's fixed `502 Bad Gateway` reply (daemon/proxy.py:83-90). */
  function BadGatewayReply(): (r: seq<byte>)
    ensures r == Frame(FixedHead(BadGatewayText, "15"), Utf8(BadGatewayText))
    ensures BodyOf(r) == Some(Utf8(BadGatewayText))
    ensures DeclaresLength(FixedHead(BadGatewayText, "15"), |Utf8(BadGatewayText)|)
  {
    BadGatewayFacts();
    FixedReply(BadGatewayText, 15)
  }

  const BadGatewayText := "502 Bad Gateway"

  lemma BadGatewayFacts()
    ensures GoodLine(BadGatewayText) && |BadGatewayText| == 15 && Decimal(15) == "15"
    ensures forall i :: 0 <= i < |BadGatewayText| ==> BadGatewayText[i] as int < 0x80
  {
  }

  /** A plain-text reply head whose declared length is the literal `len`. */
  function FixedHead(status: string, len: string): Head {
    Head("HTTP/1.1 " + status,
      [Field("Content-Type", "text/plain"), Field("Content-Length", len), Field("Connection", "close")])
  }

  /** A plain-text reply whose body is its own ASCII status text of length `n`. */
  function FixedReply(status: string, n: nat): (r: seq<byte>)
    requires GoodLine(status) && |status| == n
    requires forall i :: 0 <= i < |status| ==> status[i] as int < 0x80
    ensures r == Frame(FixedHead(status, Decimal(n)), Utf8(status))
    ensures BodyOf(r) == Some(Utf8(status))
    ensures DeclaresLength(FixedHead(status, Decimal(n)), |Utf8(status)|)
  {
    var h := FixedHead(status, Decimal(n));
    FixedHeadWellFormed(status, Decimal(n));
    FrameBody(h, Utf8(status));
    Utf8AsciiLength(status);
    assert h.fields[1] == Field("Content-Length", Decimal(n));
    assert FieldValue(h.fields, "Content-Length") == Some(Decimal(n));
    DeclaredLengthOf(h, n);
    Frame(h, Utf8(status))
  }

  lemma FixedHeadWellFormed(status: string, len: string)
    requires GoodLine(status) && '\r' !in len
    ensures WellFormed(FixedHead(status, len))
  {
    var h := FixedHead(status, len);
    NoCRJoin("HTTP/1.1 ", status);
    GoodOne(Field("Content-Type", "text/plain"));
    GoodOne(Field("Content-Length", len));
    GoodOne(Field("Connection", "close"));
    GoodFieldsConcat([Field("Content-Type", "text/plain")], [Field("Content-Length", len)]);
    GoodFieldsConcat([Field("Content-Type", "text/plain"), Field("Content-Length", len)], [Field("Connection", "close")]);
    assert h.fields == [Field("Content-Type", "text/plain"), Field("Content-Length", len)] + [Field("Connection", "close")];
  }

  /** Every header line of `fs` is good. */
  predicate GoodFields(fs: seq<Field>) {
    forall i :: 0 <= i < |fs| ==> GoodLine(FieldLine(fs[i]))
  }

  lemma GoodFieldsConcat(a: seq<Field>, b: seq<Field>)
    requires GoodFields(a) && GoodFields(b)
    ensures GoodFields(a + b)
  {
    forall i | 0 <= i < |a + b| ensures GoodLine(FieldLine((a + b)[i])) {
      if i < |a| {
        assert (a + b)[i] == a[i];
      } else {
        assert (a + b)[i] == b[i - |a|];
      }
    }
  }

  lemma GoodOne(f: Field)
    requires f.name != [] && '\r' !in f.name && '\r' !in f.value
    ensures GoodFields([f])
  {
    FieldGood(f);
  }

  /** The CORS header lines the tracker and the peer send. */
  const Cors: seq<Field> := [AllowOrigin, AllowMethods, AllowHeaders]
  const AllowOrigin := Field(OriginName, "*")
  const AllowMethods := Field(MethodsName, MethodsValue)
  const AllowHeaders := Field(HeadersName, HeadersValue)
  const OriginName := "Access-Control-Allow-Origin"
  const MethodsName := "Access-Control-Allow-Methods"
  const MethodsValue := "GET, POST, OPTIONS"
  const HeadersName := "Access-Control-Allow-Headers"
  const HeadersValue := "Content-Type"

  /** The head of `build_response` (daemon/tracker.py:193-205) and of the
      peer's `_build_response` (daemon/peer.py:186-198): the reason phrase is
      always `OK`, whatever the code. */
  function JsonHead(code: int, n: nat): Head {
    Head("HTTP/1.1 " + IntToString(code) + " OK",
      [Field("Content-Type", JsonType)] + Cors +
      [Field("Content-Length", Decimal(n)), Field("Connection", "close")])
  }

  const JsonType := "application/json; charset=utf-8"

  lemma NoCRInInt(i: int)
    ensures '\r' !in IntToString(i)
  {
    var d := Decimal(if i < 0 then -i else i);
    assert forall k :: 0 <= k < |d| ==> IsDigit(d[k]);
    if i < 0 {
      assert IntToString(i) == "-" + d;
    }
  }

  /** The value of a field found at index `i` with no earlier field of that
      name. */
  lemma {:induction false} FieldValueAt(fields: seq<Field>, i: nat, name: string)
    requires i < |fields| && fields[i].name == name
    requires forall j :: 0 <= j < i ==> |fields[j].name| != |name|
    ensures FieldValue(fields, name) == Some(fields[i].value)
  {
    if i > 0 {
      assert fields[0].name != name;
      FieldValueAt(fields[1..], i - 1, name);
    }
  }

  lemma NoCRJoin(a: string, b: string)
    requires '\r' !in a && '\r' !in b
    ensures '\r' !in a + b
  {
    forall i | 0 <= i < |a + b| ensures (a + b)[i] != '\r' {
      if i < |a| {
        assert (a + b)[i] == a[i];
      } else {
        assert (a + b)[i] == b[i - |a|];
      }
    }
  }

  /** A header line is good when its name and value have no CR. */
  lemma FieldGood(f: Field)
    requires f.name != [] && '\r' !in f.name && '\r' !in f.value
    ensures GoodLine(FieldLine(f))
  {
    var l := FieldLine(f);
    forall i | 0 <= i < |l| ensures l[i] != '\r' {
      if i < |f.name| {
        assert l[i] == f.name[i];
      } else if i >= |f.name| + 2 {
        assert l[i] == f.value[i - |f.name| - 2];
      }
    }
  }

  lemma CorsGood()
    ensures |Cors| == 3 && GoodFields(Cors)
    ensures |Cors[0].name| != 14 && |Cors[1].name| != 14 && |Cors[2].name| != 14
    ensures Cors[0].name != "Content-Type" && Cors[1].name != "Content-Type" && Cors[2].name != "Content-Type"
  {
    CorsLines();
    assert |Cors[0].name| == 27 && |Cors[1].name| == 28 && |Cors[2].name| == 28;
  }

  lemma CorsLines()
    ensures |Cors| == 3 && GoodFields(Cors)
  {
    forall i | 0 <= i < |Cors| ensures GoodLine(FieldLine(Cors[i])) {
      if i == 0 {
        CorsOrigin();
        assert [AllowOrigin][0] == Cors[i];
      } else if i == 1 {
        CorsMethods();
        assert [AllowMethods][0] == Cors[i];
      } else {
        CorsHeaders();
        assert [AllowHeaders][0] == Cors[i];
      }
    }
  }

  lemma CorsOrigin()
    ensures GoodFields([AllowOrigin])
  {
    NoCRInOrigin();
    GoodOne(AllowOrigin);
  }

  lemma CorsMethods()
    ensures GoodFields([AllowMethods])
  {
    NoCRInMethods();
    GoodOne(AllowMethods);
  }

  lemma CorsHeaders()
    ensures GoodFields([AllowHeaders])
  {
    NoCRInHeaders();
    GoodOne(AllowHeaders);
  }

  lemma NoCRInOrigin()
    ensures OriginName != [] && '\r' !in OriginName && '\r' !in AllowOrigin.value
  {
  }

  lemma NoCRInMethods()
    ensures MethodsName != [] && '\r' !in MethodsName && '\r' !in MethodsValue
  {
  }

  lemma NoCRInHeaders()
    ensures HeadersName != [] && '\r' !in HeadersName && '\r' !in HeadersValue
  {
  }

  lemma JsonHeadGood(code: int, n: nat)
    ensures WellFormed(JsonHead(code, n))
    ensures JsonHead(code, n).fields[4] == Field("Content-Length", Decimal(n))
    ensures forall j :: 0 <= j < 4 ==> |JsonHead(code, n).fields[j].name| != 14
  {
    JsonStatusGood(code);
    JsonFieldsGood(n);
    JsonFieldNames(code, n);
  }

  lemma JsonStatusGood(code: int)
    ensures GoodLine("HTTP/1.1 " + IntToString(code) + " OK")
  {
    NoCRInInt(code);
    NoCRJoin("HTTP/1.1 ", IntToString(code));
    NoCRJoin("HTTP/1.1 " + IntToString(code), " OK");
  }

  lemma JsonFieldsGood(n: nat)
    ensures GoodFields([Field("Content-Type", JsonType)] + Cors +
      [Field("Content-Length", Decimal(n)), Field("Connection", "close")])
  {
    var ct := Field("Content-Type", JsonType);
    GoodOne(ct);
    CorsLines();
    TailGood(n);
    GoodFieldsConcat([ct], Cors);
    GoodFieldsConcat([ct] + Cors, [Field("Content-Length", Decimal(n)), Field("Connection", "close")]);
  }

  lemma JsonFieldNames(code: int, n: nat)
    ensures JsonHead(code, n).fields[4] == Field("Content-Length", Decimal(n))
    ensures forall j :: 0 <= j < 4 ==> |JsonHead(code, n).fields[j].name| != 14
  {
    var fs := JsonHead(code, n).fields;
    CorsGood();
    assert fs[1] == Cors[0] && fs[2] == Cors[1] && fs[3] == Cors[2];
    forall j | 0 <= j < 4 ensures |fs[j].name| != 14 {
      assert j == 0 || j == 1 || j == 2 || j == 3;
    }
  }

  lemma TailGood(n: nat)
    ensures GoodFields([Field("Content-Length", Decimal(n)), Field("Connection", "close")])
  {
    assert forall k :: 0 <= k < |Decimal(n)| ==> IsDigit(Decimal(n)[k]);
    GoodOne(Field("Content-Length", Decimal(n)));
    GoodOne(Field("Connection", "close"));
    GoodFieldsConcat([Field("Content-Length", Decimal(n))], [Field("Connection", "close")]);
  }

  /** A JSON reply: the serialised body `body` after the head above. A client
      reads back exactly `body`, and the declared length is its length. */
  function JsonResponse(code: int, body: seq<byte>): (r: seq<byte>)
    ensures r == Frame(JsonHead(code, |body|), body)
    ensures JsonHead(code, |body|).statusLine == "HTTP/1.1 " + IntToString(code) + " OK"
    ensures BodyOf(r) == Some(body)
    ensures DeclaresLength(JsonHead(code, |body|), |body|)
  {
    var h := JsonHead(code, |body|);
    JsonHeadGood(code, |body|);
    FrameBody(h, body);
    FieldValueAt(h.fields, 4, "Content-Length");
    DeclaredLengthOf(h, |body|);
    Frame(h, body)
  }

  function PreflightHead(): Head {
    Head("HTTP/1.1 200 OK", Cors + [Field("Content-Length", "0"), Field("Connection", "close")])
  }

  lemma PreflightGood()
    ensures WellFormed(PreflightHead())
    ensures PreflightHead().fields[3] == Field("Content-Length", Decimal(0))
    ensures forall j :: 0 <= j < 3 ==> |PreflightHead().fields[j].name| != 14
    ensures forall j :: 0 <= j < |PreflightHead().fields| ==> PreflightHead().fields[j].name != "Content-Type"
  {
    var h := PreflightHead();
    CorsGood();
    assert Decimal(0) == "0";
    assert GoodLine("HTTP/1.1 200 OK");
    TailGood(0);
    var tail := [Field("Content-Length", "0"), Field("Connection", "close")];
    GoodFieldsConcat(Cors, tail);
    assert h.fields == Cors + tail;
    assert h.fields[0] == Cors[0] && h.fields[1] == Cors[1] && h.fields[2] == Cors[2];
    assert h.fields[3] == Field("Content-Length", "0");
    assert h.fields[4] == Field("Connection", "close");
    forall i | 0 <= i < 5 ensures h.fields[i].name != "Content-Type" && (i < 3 ==> |h.fields[i].name| != 14) {
      assert i == 0 || i == 1 || i == 2 || i == 3 || i == 4;
    }
  }

  /** The peer's answer to OPTIONS (daemon/peer.py:81-95): a 200 head with
      the CORS lines, no Content-Type, a declared length of 0 and no body. */
  function PreflightReply(): (r: seq<byte>)
    ensures r == Frame(PreflightHead(), [])
    ensures BodyOf(r) == Some([])
    ensures DeclaresLength(PreflightHead(), 0)
    ensures FieldValue(PreflightHead().fields, "Content-Type") == None
  {
    PreflightFacts();
    Frame(PreflightHead(), [])
  }

  lemma PreflightFacts()
    ensures BodyOf(Frame(PreflightHead(), [])) == Some([])
    ensures DeclaresLength(PreflightHead(), 0)
    ensures FieldValue(PreflightHead().fields, "Content-Type") == None
  {
    PreflightBody();
    PreflightLength();
    PreflightNoType();
  }

  lemma PreflightBody()
    ensures BodyOf(Frame(PreflightHead(), [])) == Some([])
  {
    PreflightGood();
    FrameBody(PreflightHead(), []);
  }

  lemma PreflightLength()
    ensures DeclaresLength(PreflightHead(), 0)
  {
    var h := PreflightHead();
    PreflightGood();
    FieldValueAt(h.fields, 3, "Content-Length");
    DeclaredLengthOf(h, 0);
  }

  lemma PreflightNoType()
    ensures FieldValue(PreflightHead().fields, "Content-Type") == None
  {
    PreflightGood();
  }
}
