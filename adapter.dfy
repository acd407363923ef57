/** The HTTP adapter of the web framework (daemon/httpadapter.py): one
    connection's dispatch order (a registered route handler, then the login
    form, then the cookie guard in front of the chat page, then a static
    file), the normalisation of a handler's result into a status, headers
    and a body, and the final send. Request parsing, response composition,
    the file reader and the reply templates live in modules that are not
    part of this model; they enter as parameters. */
module Adapter {
  import opened Strings
  import opened Wire

  // ---------------------------------------------------------------- values

  /** Request headers as `Request.prepare` leaves them. */
  type Headers = map<string, string>

  /** What a route handler returns, by its Python type: `None`, a dict or
      list (with the text `json.dumps` gives it), a `str`, `bytes`, or any
      other object (with the text `str()` gives it). `Unrenderable` is a
      dict or list that `json.dumps` rejects (a set, bytes or an arbitrary
      object inside, a list that contains itself) or another object whose
      `str()` raises, with the text of that exception. */
  datatype Returned =
    | NoValue
    | Structured(dumped: string)
    | Text(text: string)
    | Bytes(data: seq<byte>)
    | Other(shown: string)
    | Unrenderable(message: string)

  /** A handler call returns, raises a `TypeError`, or raises any other
      exception (each raise with the text `str(e)`). Calling a function with
      an argument list it does not accept is a `TypeError` too, with the
      interpreter's binding message. */
  datatype Outcome = Returns(value: Returned) | RaisesTypeError(message: string) | Raises(message: string)

  /** A registered handler, by what each of the three calls the adapter may
      make does: `func(headers, body)`, `func(body)` and `func()`. */
  datatype Handler = Handler(
    withBoth: (Headers, string) -> Outcome,
    withBody: string -> Outcome,
    alone: () -> Outcome)

  /** The triple the handlers hand to `send`: status, headers, body. */
  datatype Triple = Triple(status: string, headers: Option<seq<Field>>, body: seq<byte>)

  /** One entry of the reply templates: status, content type, extra
      headers, body. */
  datatype Template = Template(status: string, contentType: string, headers: seq<Field>, body: seq<byte>)

  datatype Templates = Templates(loginFailed: Template, unauthorized: Template, serverError: Template)

  /** What goes out on the connection: the bytes themselves, or the
      status, headers and body given to `Response.compose`. */
  datatype Sent =
    | Verbatim(data: seq<byte>)
    | Composed(status: string, headers: Option<seq<Field>>, body: seq<byte>)

  /** The marker status of a pre-built static reply. */
  const RawStatus := "__RAW__"
  const ChatPage := "/chat.html"
  const AuthCookie := "auth=true; Path=/"

  const PlainText := "text/plain; charset=utf-8"
  const HtmlText := "text/html; charset=utf-8"
  const JsonText := JsonType
  const OctetStream := "application/octet-stream"

  // ---------------------------------------------------------------- header dicts

  /** `d[f.name] = f.value` on a dict kept as its items in insertion
      order: an existing key keeps its place, a new one goes last. */
  function Put(h: seq<Field>, f: Field): (r: seq<Field>)
    ensures FieldValue(r, f.name) == Some(f.value)
    ensures forall n :: n != f.name ==> FieldValue(r, n) == FieldValue(h, n)
  {
    if h == [] then [f]
    else if h[0].name == f.name then [f] + h[1..]
    else
      var r := [h[0]] + Put(h[1..], f);
      assert r[1..] == Put(h[1..], f);
      r
  }

  /** `{**h, **extra}`: the items of `extra` put into `h` in order. */
  function Merge(h: seq<Field>, extra: seq<Field>): seq<Field>
    decreases |extra|
  {
    if extra == [] then h else Merge(Put(h, extra[0]), extra[1..])
  }

  /** The value of the last item named `name`: what a dict built from the
      items keeps for that key. */
  function LastValue(fields: seq<Field>, name: string): Option<string>
  {
    if fields == [] then None
    else if fields[|fields| - 1].name == name then Some(fields[|fields| - 1].value)
    else LastValue(fields[..|fields| - 1], name)
  }

  lemma {:induction false} LastValueCons(f: Field, rest: seq<Field>, name: string)
    ensures LastValue([f] + rest, name) ==
      (if LastValue(rest, name).Some? then LastValue(rest, name)
       else if f.name == name then Some(f.value) else None)
    decreases |rest|
  {
    if rest != [] {
      var s := [f] + rest;
      assert s[..|s| - 1] == [f] + rest[..|rest| - 1];
      LastValueCons(f, rest[..|rest| - 1], name);
    }
  }

  /** Merging overwrites: a key of `extra` takes the value of its last item
      there, every other key keeps its value in `h`. */
  lemma {:induction false} MergeLookup(h: seq<Field>, extra: seq<Field>, name: string)
    ensures FieldValue(Merge(h, extra), name) ==
      (if LastValue(extra, name).Some? then LastValue(extra, name) else FieldValue(h, name))
    decreases |extra|
  {
    if extra != [] {
      var f, rest := extra[0], extra[1..];
      assert Merge(h, extra) == Merge(Put(h, f), rest);
      MergeLookup(Put(h, f), rest, name);
      assert extra == [f] + rest;
      LastValueCons(f, rest, name);
      assert name != f.name ==> FieldValue(Put(h, f), name) == FieldValue(h, name);
    }
  }

  /** The headers `{"Content-Type": t.contentType, **t.headers}`. */
  function TemplateHeaders(t: Template): seq<Field> {
    Merge([Field("Content-Type", t.contentType)], t.headers)
  }

  function TemplateTriple(t: Template): Triple {
    Triple(t.status, Some(TemplateHeaders(t)), t.body)
  }

  /** A template's reply carries its own content type unless its extra
      headers name one, and every other header as its extra headers give it
      (daemon/httpadapter.py:189, 205). */
  lemma TemplateHeaderValues(t: Template, name: string)
    ensures name == "Content-Type" && LastValue(t.headers, name).None? ==>
      FieldValue(TemplateHeaders(t), name) == Some(t.contentType)
    ensures name != "Content-Type" || LastValue(t.headers, name).Some? ==>
      FieldValue(TemplateHeaders(t), name) == LastValue(t.headers, name)
  {
    MergeLookup([Field("Content-Type", t.contentType)], t.headers, name);
  }

  // ---------------------------------------------------------------- login

  /** `creds` after the loop over the `&`-separated pieces: a piece without
      `=` is skipped, the rest split at their first `=`, a later key
      overwrites an earlier one (daemon/httpadapter.py:162-166). */
  function Creds(pieces: seq<string>): (m: map<string, string>)
    ensures forall k :: k in m ==> '=' !in k
  {
    if pieces == [] then map[]
    else
      var p := pieces[|pieces| - 1];
      var m := Creds(pieces[..|pieces| - 1]);
      if '=' in p then m[Before(p, '=') := After(p, '=')] else m
  }

  /** The form-parsing loop of `handle_login`. */
  method ParseCreds(text: string) returns (creds: map<string, string>)
    ensures creds == Creds(Split(text, '&'))
  {
    var pieces := Split(text, '&');
    creds := map[];
    for i := 0 to |pieces|
      invariant creds == Creds(pieces[..i])
    {
      var pair := pieces[i];
      if '=' in pair {
        creds := creds[Before(pair, '=') := After(pair, '=')];
      }
      assert pieces[..i + 1][..i] == pieces[..i];
    }
    assert pieces[..|pieces|] == pieces;
  }

  /** A `key=value` piece sets `key`, whatever `value` holds, over any
      earlier piece with the same key. */
  lemma LaterPairWins(pieces: seq<string>, p: string, key: string, value: string)
    requires '=' !in key && p == key + ['='] + value
    ensures Creds(pieces + [p]) == Creds(pieces)[key := value]
  {
    var ps := pieces + [p];
    assert ps[..|ps| - 1] == pieces;
    BeforeOfJoin(key, '=', value);
  }

  /** A piece without `=` changes nothing. */
  lemma PieceWithoutEqualsIgnored(pieces: seq<string>, p: string)
    requires '=' !in p
    ensures Creds(pieces + [p]) == Creds(pieces)
  {
    var ps := pieces + [p];
    assert ps[..|ps| - 1] == pieces;
  }

  /** The body a browser posts for the login form: `username=U&password=P`. */
  function LoginForm(user: string, password: string): string {
    ("username" + ['='] + user) + ['&'] + ("password" + ['='] + password)
  }

  /** The login form parses back to its two fields. */
  lemma LoginFormRoundTrip(user: string, password: string)
    requires '&' !in user && '&' !in password
    ensures Creds(Split(LoginForm(user, password), '&')) == map["username" := user, "password" := password]
  {
    var a := "username" + ['='] + user;
    var b := "password" + ['='] + password;
    TwoPieces(a, b);
    LaterPairWins([], a, "username", user);
    assert [] + [a] == [a];
    LaterPairWins([a], b, "password", password);
    assert [a] + [b] == [a, b];
  }

  lemma TwoPieces(a: string, b: string)
    requires '&' !in a && '&' !in b
    ensures Split(a + ['&'] + b, '&') == [a, b]
  {
    assert Join([a, b], '&') == a + ['&'] + b by {
      assert [a, b][1..] == [b];
    }
    SplitJoin([a, b], '&');
  }

  predicate Accepted(creds: map<string, string>) {
    "username" in creds && creds["username"] == "admin" &&
    "password" in creds && creds["password"] == "password"
  }

  /** `raw.split(b"\r\n\r\n", 1)[1] if b"\r\n\r\n" in raw else raw`. */
  function PageBody(raw: seq<byte>): (r: seq<byte>)
    ensures |r| <= |raw| && r == raw[|raw| - |r|..]
    ensures (forall j :: 0 <= j ==> !BlankAt(raw, j)) ==> r == raw
  {
    match BodyOf(raw)
    case Some(b) => b
    case None => raw
  }

  /** On a reply framed with a well-formed head, the login hands on exactly
      the page's body. */
  lemma PageBodyOfFrame(h: Head, body: seq<byte>)
    requires WellFormed(h)
    ensures PageBody(Frame(h, body)) == body
  {
    FrameBody(h, body);
  }

  /** `handle_login`: its reply and the request path it leaves; `page` is
      what `build_response` gives for a path (daemon/httpadapter.py:158-189). */
  function LoginSpec(text: string, path: string, page: string -> seq<byte>, tpl: Templates): (r: (Triple, string))
    ensures Accepted(Creds(Split(text, '&'))) ==>
      r.1 == ChatPage && r.0.status == "200 OK" && r.0.headers.Some? &&
      FieldValue(r.0.headers.value, "Set-Cookie") == Some(AuthCookie) &&
      FieldValue(r.0.headers.value, "Content-Type") == Some(HtmlText) &&
      r.0.body == PageBody(page(ChatPage))
    ensures !Accepted(Creds(Split(text, '&'))) ==> r == (TemplateTriple(tpl.loginFailed), path)
  {
    if Accepted(Creds(Split(text, '&'))) then
      var headers := [Field("Content-Type", HtmlText), Field("Set-Cookie", AuthCookie)];
      (Triple("200 OK", Some(headers), PageBody(page(ChatPage))), ChatPage)
    else (TemplateTriple(tpl.loginFailed), path)
  }

  /** Logging in with the form succeeds exactly for admin / password. */
  lemma LoginAcceptsOnlyAdmin(user: string, password: string)
    requires '&' !in user && '&' !in password
    ensures Accepted(Creds(Split(LoginForm(user, password), '&')))
      <==> user == "admin" && password == "password"
  {
    LoginFormRoundTrip(user, password);
  }

  // ---------------------------------------------------------------- guard

  /** The pages behind the cookie check. */
  predicate Guarded(path: string) {
    path == "/" || path == ChatPage
  }

  /** `req.cookies.get("auth") == "true"`. */
  predicate HasAuth(cookies: map<string, string>) {
    "auth" in cookies && cookies["auth"] == "true"
  }

  /** `cookie_auth_guard`: the early reply, if any, and the path it leaves
      (daemon/httpadapter.py:191-212). */
  function GuardSpec(path: string, cookies: map<string, string>, tpl: Templates): (r: (Option<Triple>, string))
    ensures r.0.Some? <==> Guarded(path) && !HasAuth(cookies)
    ensures r.0.Some? ==> r.0.value == TemplateTriple(tpl.unauthorized) && r.1 == path
    ensures r.0.None? && path == "/" ==> r.1 == ChatPage
    ensures path != "/" ==> r.1 == path
  {
    if Guarded(path) && !HasAuth(cookies) then (Some(TemplateTriple(tpl.unauthorized)), path)
    else (None, if path == "/" then ChatPage else path)
  }

  /** A request the guard lets through passes it again unchanged. */
  lemma GuardIdempotent(path: string, cookies: map<string, string>, tpl: Templates)
    requires GuardSpec(path, cookies, tpl).0.None?
    ensures GuardSpec(GuardSpec(path, cookies, tpl).1, cookies, tpl) == (None, GuardSpec(path, cookies, tpl).1)
  {
  }

  /** The cookie `name=value` that a `Set-Cookie` value sets: the text
      before its first `;`, split at the first `=`. */
  function SetCookiePair(v: string): Option<(string, string)> {
    var c := Before(v, ';');
    if '=' in c then Some((Before(c, '='), After(c, '='))) else None
  }

  /** The cookie a successful login sets is the one the guard asks for:
      sent back, it opens every guarded page. */
  lemma LoginCookieOpensGuard(path: string, tpl: Templates)
    requires Guarded(path)
    ensures SetCookiePair(AuthCookie) == Some(("auth", "true"))
    ensures GuardSpec(path, map["auth" := "true"], tpl) == (None, ChatPage)
  {
    AuthCookiePair();
  }

  lemma AuthCookiePair()
    ensures SetCookiePair(AuthCookie) == Some(("auth", "true"))
  {
    assert AuthCookie == "auth" + ['='] + "true" + [';'] + " Path=/";
    PairBeforeAttributes("auth", "true", " Path=/");
  }

  lemma PairBeforeAttributes(name: string, value: string, attrs: string)
    requires '=' !in name && ';' !in name && ';' !in value
    ensures SetCookiePair(name + ['='] + value + [';'] + attrs) == Some((name, value))
  {
    var c := name + ['='] + value;
    assert ';' !in c;
    assert name + ['='] + value + [';'] + attrs == c + [';'] + attrs;
    BeforeOfJoin(c, ';', attrs);
    BeforeOfJoin(name, '=', value);
  }

  // ---------------------------------------------------------------- handlers

  /** `"<!DOCTYPE"` or `"<html"` opens the stripped text. */
  predicate IsHtml(s: string) {
    StartsWith(Strip(s), "<!DOCTYPE") || StartsWith(Strip(s), "<html")
  }

  /** Leading whitespace before the opening tag does not hide the page. */
  lemma IndentedPageIsHtml(w: string, s: string, tag: string)
    requires forall i :: 0 <= i < |w| ==> IsSpace(w[i])
    requires tag == "<!DOCTYPE" || tag == "<html"
    requires StartsWith(s, tag)
    ensures IsHtml(w + s)
  {
    assert s[..|tag|] == tag;
    assert s[0] == '<';
    assert s[|tag| - 1] == tag[|tag| - 1];
    HeadSurvivesStrip(w, s, |tag|);
  }

  lemma HeadSurvivesStrip(w: string, s: string, k: nat)
    requires forall i :: 0 <= i < |w| ==> IsSpace(w[i])
    requires 0 < k <= |s| && !IsSpace(s[0]) && !IsSpace(s[k - 1])
    ensures StartsWith(Strip(w + s), s[..k])
  {
    StripLeadingSpace(w, s);
    StripKeepsHead(s, k);
  }

  /** Text that opens with `k` characters, the first and the last of which
      are not whitespace, keeps them when stripped. */
  lemma StripKeepsHead(s: string, k: nat)
    requires 0 < k <= |s| && !IsSpace(s[0]) && !IsSpace(s[k - 1])
    ensures StartsWith(Strip(s), s[..k])
  {
    assert LStrip(s) == s;
    var r := RStrip(s);
    assert |r| >= k;
    assert r[..k] == s[..k];
  }

  /** The check is case-sensitive: an upper-case tag is plain text. */
  lemma UpperCaseTagIsPlain()
    ensures !IsHtml("<HTML>")
  {
    var s := "<HTML>";
    StripNoSpace(s);
    assert s[1] == 'H';
  }

  /** A reply with its byte length as Content-Length. */
  function Sized(status: string, contentType: string, body: seq<byte>): Triple {
    Triple(status, Some([Field("Content-Type", contentType), Field("Content-Length", Decimal(|body|))]), body)
  }

  /** The outcomes that reach the exception branch of `handle_weaprous`:
      the handler raised, or rendering its result raised. */
  predicate Fails(o: Outcome) {
    !o.Returns? || o.value.Unrenderable?
  }

  /** The text of the exception behind a failing outcome. */
  function FailureText(o: Outcome): string
    requires Fails(o)
  {
    if o.Returns? then o.value.message else o.message
  }

  /** Result normalisation of `handle_weaprous`: `None` is a bare `200 OK`,
      every other result and the exception branch declare the body's
      length, a `str` is HTML exactly when it opens with a page tag, and
      any exception, the handler's or the renderer's, is a 500 reply
      carrying its text (daemon/httpadapter.py:251-281). */
  function Normalise(o: Outcome): (t: Triple)
    ensures t.status != RawStatus && t.headers.Some?
    ensures t.status == "200 OK" <==> !Fails(o)
    ensures Fails(o) ==> t.status == "500 Internal Server Error" && t.body == Utf8(FailureText(o))
    ensures o == Returns(NoValue) ==>
      t.body == Utf8("OK") && FieldValue(t.headers.value, "Content-Length").None?
    ensures o != Returns(NoValue) ==> FieldValue(t.headers.value, "Content-Length") == Some(Decimal(|t.body|))
    ensures o.Returns? && o.value.Text? ==>
      t.body == Utf8(o.value.text) &&
      FieldValue(t.headers.value, "Content-Type") == Some(if IsHtml(o.value.text) then HtmlText else PlainText)
    ensures o.Returns? && o.value.Bytes? ==> t.body == o.value.data
  {
    match o
    case RaisesTypeError(msg) => Sized("500 Internal Server Error", PlainText, Utf8(msg))
    case Raises(msg) => Sized("500 Internal Server Error", PlainText, Utf8(msg))
    case Returns(NoValue) => Triple("200 OK", Some([Field("Content-Type", PlainText)]), Utf8("OK"))
    case Returns(Structured(d)) => Sized("200 OK", JsonText, Utf8(d))
    case Returns(Text(s)) => Sized("200 OK", if IsHtml(s) then HtmlText else PlainText, Utf8(s))
    case Returns(Bytes(b)) => Sized("200 OK", OctetStream, b)
    case Returns(Other(s)) => Sized("200 OK", PlainText, Utf8(s))
    case Returns(Unrenderable(msg)) => Sized("500 Internal Server Error", PlainText, Utf8(msg))
  }

  /** Every declared length of a handler reply parses back as the length of
      the body it heads. */
  lemma DeclaredLengthIsBodyLength(o: Outcome)
    requires o != Returns(NoValue)
    ensures DeclaresLength(Head(Normalise(o).status, Normalise(o).headers.value), |Normalise(o).body|)
  {
    var t := Normalise(o);
    DeclaredLengthOf(Head(t.status, t.headers.value), |t.body|);
  }

  /** The call chain of daemon/httpadapter.py:243-249: `func(headers, body)`;
      on any `TypeError`, `func(body)`; on any `TypeError` again, `func()`.
      Other exceptions, and whatever the last call raises, go to the 500
      branch. */
  function Invoke(h: Handler, headers: Headers, text: string): Outcome {
    var first := h.withBoth(headers, text);
    if !first.RaisesTypeError? then first
    else
      var second := h.withBody(text);
      if !second.RaisesTypeError? then second
      else h.alone()
  }

  /** `h` accepts exactly the argument list numbered `arity` (2 for
      `(headers, body)`, 1 for `(body,)`, 0 for `()`): the other calls fail
      to bind, and the accepted call raises no `TypeError` of its own. */
  predicate AcceptsOnly(h: Handler, headers: Headers, text: string, arity: nat) {
    (arity == 2 <==> !h.withBoth(headers, text).RaisesTypeError?) &&
    (arity == 1 <==> !h.withBody(text).RaisesTypeError?) &&
    (arity == 0 ==> !h.alone().RaisesTypeError?)
  }

  /** A handler that accepts one argument list is called with that list,
      whichever it is. */
  lemma ArityFallback(h: Handler, headers: Headers, text: string, arity: nat)
    requires arity <= 2 && AcceptsOnly(h, headers, text, arity)
    ensures arity == 2 ==> Invoke(h, headers, text) == h.withBoth(headers, text)
    ensures arity == 1 ==> Invoke(h, headers, text) == h.withBody(text)
    ensures arity == 0 ==> Invoke(h, headers, text) == h.alone()
  {
  }

  /** A `TypeError` raised inside a `(headers, body)` handler is taken for a
      wrong argument count: the handler is called again as `func(body)` and
      `func()`, and when those fail to bind the 500 reply carries the last
      binding message, not the handler's own. */
  lemma OwnTypeErrorRetried(h: Handler, headers: Headers, text: string, own: string, binding: string)
    requires h.withBoth(headers, text) == RaisesTypeError(own)
    requires h.withBody(text).RaisesTypeError? && h.alone() == RaisesTypeError(binding)
    ensures HandleWeaprous(h, headers, text).status == "500 Internal Server Error"
    ensures HandleWeaprous(h, headers, text).body == Utf8(binding)
  {
  }

  /** `handle_weaprous`: the reply to what the call chain came to. It is
      `200 OK` exactly when neither the handler nor the rendering of its
      result raised; otherwise it is the 500 reply with the exception's text. */
  function HandleWeaprous(h: Handler, headers: Headers, text: string): (t: Triple)
    ensures t.status == "200 OK" <==> !Fails(Invoke(h, headers, text))
    ensures Fails(Invoke(h, headers, text)) ==>
      t.status == "500 Internal Server Error" && t.body == Utf8(FailureText(Invoke(h, headers, text)))
  {
    Normalise(Invoke(h, headers, text))
  }

  function HandleStatic(path: string, page: string -> seq<byte>): Triple {
    Triple(RawStatus, None, page(path))
  }

  /** `dispatch`: the handler when one is registered, the static file
      otherwise (daemon/httpadapter.py:214-222). */
  function Dispatch(hook: Option<Handler>, headers: Headers, text: string, path: string,
                    page: string -> seq<byte>): Triple
  {
    if hook.Some? then HandleWeaprous(hook.value, headers, text) else HandleStatic(path, page)
  }

  /** `send`: a pre-built reply goes out as it is, any other triple through
      `compose` (daemon/httpadapter.py:293-304). */
  function Send(t: Triple): (s: Sent)
    ensures s.Verbatim? <==> t.status == RawStatus
    ensures s.Verbatim? ==> s.data == t.body
    ensures s.Composed? ==> s.status == t.status && s.headers == t.headers && s.body == t.body
  {
    if t.status == RawStatus then Verbatim(t.body) else Composed(t.status, t.headers, t.body)
  }

  /** A static file is written unchanged; a handler reply is always
      composed. */
  lemma SendShapes(path: string, page: string -> seq<byte>, o: Outcome)
    ensures Send(HandleStatic(path, page)) == Verbatim(page(path))
    ensures Send(Normalise(o)).Composed?
  {
  }

  // ---------------------------------------------------------------- one connection

  /** The server-error reply of the exception branch: the template's body
      and a newline (daemon/httpadapter.py:114-123). */
  function ServerError(t: Template): Sent {
    Composed(t.status, Some(TemplateHeaders(t)), t.body + Utf8("\n"))
  }

  /** `handle_client` on a request that `Request.prepare` did (`parsed`) or
      did not parse: what is sent and the request path it leaves
      (daemon/httpadapter.py:86-123). */
  function ClientSpec(verb: string, path: string, headers: Headers, text: string,
                      cookies: map<string, string>, hook: Option<Handler>, parsed: bool,
                      tpl: Templates, page: string -> seq<byte>): (r: (Sent, string))
    ensures !parsed ==> r == (ServerError(tpl.serverError), path)
    ensures (parsed && hook.None? && !(verb == "POST" && path == "/login") &&
             Guarded(path) && !HasAuth(cookies)) ==> r == (Send(TemplateTriple(tpl.unauthorized)), path)
  {
    if !parsed then (ServerError(tpl.serverError), path)
    else if hook.Some? then (Send(HandleWeaprous(hook.value, headers, text)), path)
    else if verb == "POST" && path == "/login" then
      var (t, p) := LoginSpec(text, path, page, tpl);
      (Send(t), p)
    else
      var (early, p) := GuardSpec(path, cookies, tpl);
      if early.Some? then (Send(early.value), p)
      else (Send(Dispatch(hook, headers, text, p, page)), p)
  }

  /** A registered handler answers before the login route and the guard:
      its normalised reply is composed whatever the path and cookies. */
  lemma HandlerComesFirst(verb: string, path: string, headers: Headers, text: string,
                          cookies: map<string, string>, h: Handler, tpl: Templates,
                          page: string -> seq<byte>)
    ensures ClientSpec(verb, path, headers, text, cookies, Some(h), true, tpl, page) ==
      (Composed(HandleWeaprous(h, headers, text).status, HandleWeaprous(h, headers, text).headers,
                HandleWeaprous(h, headers, text).body), path)
  {
    SendShapes(path, page, Invoke(h, headers, text));
  }

  /** `POST /login` is answered by the login, before the guard. */
  lemma LoginComesBeforeGuard(headers: Headers, text: string, cookies: map<string, string>,
                              tpl: Templates, page: string -> seq<byte>)
    ensures ClientSpec("POST", "/login", headers, text, cookies, None, true, tpl, page) ==
      (Send(LoginSpec(text, "/login", page, tpl).0), LoginSpec(text, "/login", page, tpl).1)
  {
  }

  /** Without the cookie, a guarded page is refused and no file is read:
      the reply does not depend on the files. */
  lemma RefusedWithoutReadingFiles(verb: string, path: string, headers: Headers, text: string,
                                   cookies: map<string, string>, tpl: Templates,
                                   page1: string -> seq<byte>, page2: string -> seq<byte>)
    requires Guarded(path) && !HasAuth(cookies)
    ensures ClientSpec(verb, path, headers, text, cookies, None, true, tpl, page1) ==
            ClientSpec(verb, path, headers, text, cookies, None, true, tpl, page2)
  {
  }

  /** With the cookie, both guarded paths serve the chat page as it is. */
  lemma CookieServesChatPage(verb: string, path: string, headers: Headers, text: string,
                             cookies: map<string, string>, tpl: Templates, page: string -> seq<byte>)
    requires Guarded(path) && HasAuth(cookies)
    ensures ClientSpec(verb, path, headers, text, cookies, None, true, tpl, page) ==
      (Verbatim(page(ChatPage)), ChatPage)
  {
  }

  /** Any other request without a handler gets its file as it is. */
  lemma UnguardedPathServed(verb: string, path: string, headers: Headers, text: string,
                            cookies: map<string, string>, tpl: Templates, page: string -> seq<byte>)
    requires !Guarded(path) && !(verb == "POST" && path == "/login")
    ensures ClientSpec(verb, path, headers, text, cookies, None, true, tpl, page) ==
      (Verbatim(page(path)), path)
  {
  }

  /** The whole story: a login with the right form, then a request for the
      root carrying the cookie the login set, is served the chat page. */
  lemma LoginThenChat(headers: Headers, tpl: Templates, page: string -> seq<byte>)
    ensures FieldValue(LoginSpec(LoginForm("admin", "password"), "/login", page, tpl).0.headers.value,
                       "Set-Cookie") == Some(AuthCookie)
    ensures SetCookiePair(AuthCookie) == Some(("auth", "true"))
    ensures ClientSpec("GET", "/", headers, "", map["auth" := "true"], None, true, tpl, page) ==
      (Verbatim(page(ChatPage)), ChatPage)
  {
    LoginAcceptsOnlyAdmin("admin", "password");
    AuthCookiePair();
    CookieServesChatPage("GET", "/", headers, "", map["auth" := "true"], tpl, page);
  }

  // ---------------------------------------------------------------- classes

  /** A request after `Request.prepare`. */
  class Request {
    /** `req.method`. */
    var verb: string
    var path: string
    var headers: Headers
    var body: string
    var cookies: map<string, string>
    var hook: Option<Handler>

    constructor (verb: string, path: string, headers: Headers, body: string,
                 cookies: map<string, string>, hook: Option<Handler>)
      ensures this.verb == verb && this.path == path && this.headers == headers
      ensures this.body == body && this.cookies == cookies && this.hook == hook
    {
      this.verb := verb;
      this.path := path;
      this.headers := headers;
      this.body := body;
      this.cookies := cookies;
      this.hook := hook;
    }
  }

  class HttpAdapter {
    var ip: string
    var port: int
    var conn: nat
    var connaddr: (string, int)

    constructor (ip: string, port: int, conn: nat, connaddr: (string, int))
      ensures this.ip == ip && this.port == port && this.conn == conn && this.connaddr == connaddr
    {
      this.ip := ip;
      this.port := port;
      this.conn := conn;
      this.connaddr := connaddr;
    }

    /** `handle_login`: parses the form, and on success points the request
        at the chat page. */
    method HandleLogin(req: Request, tpl: Templates, page: string -> seq<byte>) returns (t: Triple)
      modifies req`path
      ensures (t, req.path) == LoginSpec(req.body, old(req.path), page, tpl)
    {
      var creds := ParseCreds(req.body);
      if Accepted(creds) {
        req.path := ChatPage;
        var body := PageBody(page(req.path));
        var headers := [Field("Content-Type", HtmlText), Field("Set-Cookie", AuthCookie)];
        return Triple("200 OK", Some(headers), body);
      }
      t := TemplateTriple(tpl.loginFailed);
    }

    /** `cookie_auth_guard`: refuses a guarded page without the cookie,
        and otherwise rewrites `/` to the chat page. */
    method CookieAuthGuard(req: Request, tpl: Templates) returns (early: Option<Triple>)
      modifies req`path
      ensures (early, req.path) == GuardSpec(old(req.path), req.cookies, tpl)
    {
      if req.path == "/" || req.path == ChatPage {
        if !("auth" in req.cookies && req.cookies["auth"] == "true") {
          return Some(TemplateTriple(tpl.unauthorized));
        }
      }
      if req.path == "/" {
        req.path := ChatPage;
      }
      early := None;
    }

    /** `handle_client`: records the connection, then answers the request
        in the order handler, login, guard, static file. */
    method HandleClient(conn: nat, addr: (string, int), req: Request, parsed: bool,
                        tpl: Templates, page: string -> seq<byte>) returns (sent: Sent)
      modifies this`conn, this`connaddr, req`path
      ensures this.conn == conn && this.connaddr == addr
      ensures (sent, req.path) == ClientSpec(req.verb, old(req.path), req.headers, req.body,
                                             req.cookies, req.hook, parsed, tpl, page)
    {
      this.conn := conn;
      this.connaddr := addr;
      if !parsed {
        return ServerError(tpl.serverError);
      }
      if req.hook.Some? {
        return Send(HandleWeaprous(req.hook.value, req.headers, req.body));
      }
      if req.verb == "POST" && req.path == "/login" {
        var t := HandleLogin(req, tpl, page);
        return Send(t);
      }
      var early := CookieAuthGuard(req, tpl);
      if early.Some? {
        return Send(early.value);
      }
      sent := Send(Dispatch(req.hook, req.headers, req.body, req.path, page));
    }
  }
}
