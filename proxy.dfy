/** The reverse proxy of daemon/proxy.py: it reads the Host header of a
    client request, looks the host up in the routes table built from the
    virtual-host configuration, picks a backend (one, round-robin, or the
    first), parses its address, and either relays the request with a
    `Connection: close` header or answers with the fixed 404 page. */
module Proxy {
  import opened Strings
  import opened Wire

  /** The `proxy_map` of a route: a single backend string, or a list. Any
      other kind of value is `Neither`. */
  datatype Backends = Single(url: string) | Listed(urls: seq<string>) | Neither

  datatype Route = Route(backends: Backends, policy: string)

  type Routes = map<string, Route>

  /** Round-robin counters, keyed by the hostname the request asked for. */
  type Counters = map<string, int>

  // ---------------------------------------------------------------- lookup

  /** `routes.get(hostname)`, then, when that finds nothing and the name has
      a `:`, `routes.get(hostname.split(':')[0])`. */
  function LookupRoute(hostname: string, routes: Routes): (r: Option<Route>)
    ensures hostname in routes ==> r == Some(routes[hostname])
    ensures hostname !in routes && ':' in hostname && Before(hostname, ':') in routes ==>
      r == Some(routes[Before(hostname, ':')])
    ensures hostname !in routes && (':' !in hostname || Before(hostname, ':') !in routes) ==> r == None
  {
    if hostname in routes then Some(routes[hostname])
    else if ':' in hostname && Before(hostname, ':') in routes then Some(routes[Before(hostname, ':')])
    else None
  }

  // ---------------------------------------------------------------- selection

  /** Why a request dies inside `resolve_routing_policy`: an empty backend
      list makes `% len(...)` divide by zero under round-robin and
      `proxy_map[0]` fail otherwise. Neither is caught. */
  datatype Crash = ZeroDivision | IndexOutOfRange

  datatype Pick = Picked(url: string, counters: Counters) | Crashed(crash: Crash)

  /** The backend text chosen for `hostname`, with the counters after the
      choice (daemon/proxy.py:131-149). */
  function Choose(hostname: string, route: Route, counters: Counters): Pick {
    match route.backends
    case Single(u) => Picked(u, counters)
    case Neither => Picked("", counters)
    case Listed(us) =>
      if |us| == 1 then Picked(us[0], counters)
      else if route.policy == "round-robin" then
        if |us| == 0 then Crashed(ZeroDivision)
        else
          var k := if hostname in counters then counters[hostname] else 0;
          Picked(us[k % |us|], counters[hostname := k + 1])
      else if |us| == 0 then Crashed(IndexOutOfRange)
      else Picked(us[0], counters)
  }

  /** A single backend, and a one-element list, never touch the counters; a
      policy other than round-robin on a longer list takes the first entry
      and does not either. */
  lemma FixedChoiceKeepsCounters(hostname: string, route: Route, counters: Counters)
    requires route.backends.Single? || (route.backends.Listed? && |route.backends.urls| == 1) ||
      (route.backends.Listed? && |route.backends.urls| >= 2 && route.policy != "round-robin")
    ensures Choose(hostname, route, counters).Picked?
    ensures Choose(hostname, route, counters).counters == counters
    ensures route.backends.Single? ==> Choose(hostname, route, counters).url == route.backends.url
    ensures route.backends.Listed? ==> Choose(hostname, route, counters).url == route.backends.urls[0]
  {
  }

  /** Round-robin over `n >= 2` backends picks entry `k mod n`, where `k` is
      the hostname's counter (0 when unset), and bumps that counter alone by
      exactly one. */
  lemma RoundRobinStep(hostname: string, us: seq<string>, counters: Counters)
    requires |us| >= 2
    ensures var k := if hostname in counters then counters[hostname] else 0;
      Choose(hostname, Route(Listed(us), "round-robin"), counters) == Picked(us[k % |us|], counters[hostname := k + 1])
    ensures var c := Choose(hostname, Route(Listed(us), "round-robin"), counters).counters;
      c.Keys == counters.Keys + {hostname} && forall h :: h in counters && h != hostname ==> c[h] == counters[h]
  {
  }

  /** `k` successive choices for the same hostname. */
  function ChooseRun(hostname: string, route: Route, counters: Counters, k: nat): (seq<string>, Counters)
    decreases k
  {
    if k == 0 then ([], counters)
    else
      match Choose(hostname, route, counters)
      case Crashed(_) => ([], counters)
      case Picked(u, c) =>
        var rest := ChooseRun(hostname, route, c, k - 1);
        ([u] + rest.0, rest.1)
  }

  /** The `j`-th of `k` successive round-robin choices is backend
      `(c + j) mod n`, where `c` is the starting counter, and afterwards the
      counter is `c + k`. */
  lemma {:induction false} RoundRobinRun(hostname: string, us: seq<string>, counters: Counters, k: nat)
    requires |us| >= 2
    ensures var c := if hostname in counters then counters[hostname] else 0;
      var run := ChooseRun(hostname, Route(Listed(us), "round-robin"), counters, k);
      |run.0| == k &&
      (forall j :: 0 <= j < k ==> run.0[j] == us[(c + j) % |us|]) &&
      (k > 0 ==> hostname in run.1 && run.1[hostname] == c + k)
    decreases k
  {
    if k > 0 {
      var route := Route(Listed(us), "round-robin");
      var c := if hostname in counters then counters[hostname] else 0;
      RoundRobinStep(hostname, us, counters);
      var next := counters[hostname := c + 1];
      RoundRobinRun(hostname, us, next, k - 1);
      var rest := ChooseRun(hostname, route, next, k - 1);
      var run := ChooseRun(hostname, route, counters, k);
      assert run.0 == [us[c % |us|]] + rest.0;
      forall j | 0 <= j < k ensures run.0[j] == us[(c + j) % |us|] {
        if j > 0 {
          assert run.0[j] == rest.0[j - 1];
          assert (c + 1) + (j - 1) == c + j;
        }
      }
    }
  }

  // ---------------------------------------------------------------- address

  /** `url.split('://')[1]` when `'://' in url`: the text between the first
      `://` and the next one (or the end). */
  function SchemeStripped(url: string): (r: string)
    ensures !Contains(url, "://") ==> r == url
  {
    match Find(url, "://")
    case None => url
    case Some(k) =>
      var rest := url[k + 3..];
      match Find(rest, "://")
      case None => rest
      case Some(k2) => rest[..k2]
  }

  /** The address part of `resolve_routing_policy` (daemon/proxy.py:150-163):
      `host:port` with `;` dropped from the port, or the whole text (without
      `;`) on port 80; `None` for `(None, None)`. */
  function ParseTarget(url: string): Option<(string, int)> {
    var t := SchemeStripped(url);
    if ':' in t then
      match PyInt(ReplaceAll(After(t, ':'), ";", ""))
      case Some(p) => Some((Before(t, ':'), p))
      case None => None
    else Some((ReplaceAll(t, ";", ""), 80))
  }

  /** `host:port` parses back to `(host, port)`. */
  lemma TargetRoundTrip(host: string, port: int)
    requires ':' !in host
    ensures ParseTarget(host + ":" + IntToString(port)) == Some((host, port))
  {
    var n := IntToString(port);
    var url := host + ":" + n;
    IntChars(port);
    NoSchemeWithoutColon(host, n);
    assert url == host + [':'] + n;
    BeforeOfJoin(host, ':', n);
    NoSemicolonInInt(port);
    ReplaceAbsent(n, ";", "");
    IntRoundTrip(port);
  }

  /** A scheme prefix is dropped: `http://host:port` parses like `host:port`. */
  lemma SchemeRoundTrip(host: string, port: int)
    requires ':' !in host
    ensures ParseTarget("http://" + host + ":" + IntToString(port)) == Some((host, port))
  {
    var n := IntToString(port);
    var rest := host + ":" + n;
    var url := "http://" + rest;
    assert url == "http://" + host + ":" + n;
    IntChars(port);
    NoSchemeWithoutColon(host, n);
    SchemePrefix(rest);
    assert SchemeStripped(url) == rest == SchemeStripped(rest);
    TargetRoundTrip(host, port);
  }

  /** `http://` followed by a text without `://` strips to that text. */
  lemma SchemePrefix(rest: string)
    requires !Contains(rest, "://")
    ensures SchemeStripped("http://" + rest) == rest
  {
    var url := "http://" + rest;
    assert url[..7] == "http://";
    assert url[4..7] == "://";
    forall j: nat | j < 4 ensures !OccursAt(url, "://", j) {
      assert url[j] == "http"[j];
      if j + 3 <= |url| {
        assert url[j..j + 3][0] == url[j];
      }
    }
    FindAt(url, "://", 4);
    assert url[7..] == rest;
  }

  /** A text without `:` parses to itself (minus `;`) on port 80. */
  lemma DefaultPort(host: string)
    requires ':' !in host
    ensures ParseTarget(host) == Some((ReplaceAll(host, ";", ""), 80))
  {
    forall j: nat ensures !OccursAt(host, "://", j) {
      if j + 3 <= |host| {
        assert host[j..j + 3][0] == host[j];
      }
    }
    ContainsIff(host, "://");
  }

  /** `find` returns an occurrence with none before it. */
  lemma FindAt(s: string, pat: string, k: nat)
    requires OccursAt(s, pat, k) && forall j: nat :: j < k ==> !OccursAt(s, pat, j)
    ensures Find(s, pat) == Some(k)
  {
  }

  /** `str(i)` is made of digits and a leading `-`. */
  lemma IntChars(i: int)
    ensures IntToString(i) != [] && IntToString(i)[0] != '/'
    ensures forall j :: 0 <= j < |IntToString(i)| ==> IsDigit(IntToString(i)[j]) || IntToString(i)[j] == '-'
  {
    var s := IntToString(i);
    if i < 0 {
      var d := Decimal(-i);
      assert s == "-" + d;
      assert forall j :: 1 <= j < |s| ==> s[j] == d[j - 1];
    }
  }

  lemma NoSemicolonInInt(i: int)
    ensures !Contains(IntToString(i), ";")
  {
    var s := IntToString(i);
    IntChars(i);
    forall j: nat ensures !OccursAt(s, ";", j) {
      if j + 1 <= |s| {
        assert s[j..j + 1][0] == s[j];
      }
    }
    ContainsIff(s, ";");
  }

  /** `host:digits` has no `://` when `host` has no `:`. */
  lemma NoSchemeWithoutColon(host: string, n: string)
    requires ':' !in host && ':' !in n
    requires n == [] || n[0] != '/'
    ensures !Contains(host + ":" + n, "://")
  {
    var s := host + ":" + n;
    forall j: nat ensures !OccursAt(s, "://", j) {
      if j + 3 <= |s| {
        assert s[j..j + 3][0] == s[j] && s[j..j + 3][1] == s[j + 1];
        if j < |host| {
          assert s[j] == host[j];
        } else if j > |host| {
          assert s[j] == n[j - |host| - 1];
        } else {
          assert s[j + 1] == n[0];
        }
      }
    }
    ContainsIff(s, "://");
  }

  // ---------------------------------------------------------------- resolve

  /** What `resolve_routing_policy` returns: `(host, port)`, `(None, None)`,
      or an uncaught exception that ends the client's thread. */
  datatype Resolution = Resolved(host: string, port: int) | Unresolved | Died(crash: Crash)

  /** `resolve_routing_policy(hostname, routes)` and the counters it leaves
      (daemon/proxy.py:116-163). */
  function ResolveSpec(hostname: string, routes: Routes, counters: Counters): (Resolution, Counters) {
    match LookupRoute(hostname, routes)
    case None => (Unresolved, counters)
    case Some(route) =>
      match Choose(hostname, route, counters)
      case Crashed(c) => (Died(c), counters)
      case Picked(url, next) =>
        match ParseTarget(url)
        case None => (Unresolved, next)
        case Some(hp) => (Resolved(hp.0, hp.1), next)
  }

  /** An unknown host resolves to nothing and leaves the counters alone;
      a host found only by its name before the `:` still counts under the
      full name it was asked by. */
  lemma ResolveLookup(hostname: string, routes: Routes, counters: Counters)
    ensures LookupRoute(hostname, routes).None? ==> ResolveSpec(hostname, routes, counters) == (Unresolved, counters)
    ensures (hostname !in routes && ':' in hostname && Before(hostname, ':') in routes &&
      routes[Before(hostname, ':')].backends.Listed? && |routes[Before(hostname, ':')].backends.urls| >= 2 &&
      routes[Before(hostname, ':')].policy == "round-robin") ==>
        var k := if hostname in counters then counters[hostname] else 0;
        ResolveSpec(hostname, routes, counters).1 == counters[hostname := k + 1]
  {
  }

  /** A backend written `host:port` under a single-backend route resolves to
      exactly that address. */
  lemma ResolveSingle(hostname: string, routes: Routes, counters: Counters, host: string, port: int)
    requires hostname in routes && routes[hostname].backends == Single(host + ":" + IntToString(port))
    requires ':' !in host
    ensures ResolveSpec(hostname, routes, counters) == (Resolved(host, port), counters)
  {
    TargetRoundTrip(host, port);
  }

  // ---------------------------------------------------------------- host header

  function LowerAscii(c: char): char {
    if 'A' <= c <= 'Z' then (c as int + 32) as char else c
  }

  function Lower(s: string): (r: string)
    ensures |r| == |s| && forall i :: 0 <= i < |s| ==> r[i] == LowerAscii(s[i])
  {
    seq(|s|, i requires 0 <= i < |s| => LowerAscii(s[i]))
  }

  /** `line.lower().startswith('host:')`. */
  predicate IsHostLine(line: string) {
    |line| >= 5 && Lower(line[..5]) == HostKey
  }

  const HostKey := "host:"

  /** `line.split(':', 1)[1].strip()`. */
  function HostValue(line: string): string
    requires IsHostLine(line)
  {
    assert line[4] == ':' by { assert Lower(line[..5])[4] == ':'; }
    Strip(After(line, ':'))
  }

  /** The index of the first Host line at or after `i`, if any. */
  function HostLineFrom(lines: seq<string>, i: nat): (r: Option<nat>)
    requires i <= |lines|
    ensures r.Some? ==> i <= r.value < |lines| && IsHostLine(lines[r.value])
    ensures r.Some? ==> forall j :: i <= j < r.value ==> !IsHostLine(lines[j])
    ensures r.None? ==> forall j :: i <= j < |lines| ==> !IsHostLine(lines[j])
    decreases |lines| - i
  {
    if i == |lines| then None
    else if IsHostLine(lines[i]) then Some(i)
    else HostLineFrom(lines, i + 1)
  }

  /** The value of the first Host line, if any. */
  function FirstHost(lines: seq<string>): Option<string> {
    match HostLineFrom(lines, 0)
    case None => None
    case Some(k) => Some(HostValue(lines[k]))
  }

  /** The hostname `handle_client` routes by: the first Host line's value,
      or `clientIp:proxyPort` when there is none or it is empty
      (daemon/proxy.py:245-253). */
  function HostSpec(request: string, clientIp: string, proxyPort: int): string {
    match FirstHost(SplitLines(request))
    case Some(h) => if h != [] then h else clientIp + ":" + IntToString(proxyPort)
    case None => clientIp + ":" + IntToString(proxyPort)
  }

  /** The Host-extraction loop, which stops at the first match. */
  method ExtractHost(request: string, clientIp: string, proxyPort: int) returns (hostname: string)
    ensures hostname == HostSpec(request, clientIp, proxyPort)
  {
    var lines := SplitLines(request);
    var found: Option<string> := None;
    var i := 0;
    while i < |lines|
      invariant 0 <= i <= |lines|
      invariant HostLineFrom(lines, 0) == HostLineFrom(lines, i)
      invariant found == None
    {
      if IsHostLine(lines[i]) {
        assert HostLineFrom(lines, i) == Some(i);
        found := Some(HostValue(lines[i]));
        break;
      }
      assert HostLineFrom(lines, i) == HostLineFrom(lines, i + 1);
      i := i + 1;
    }
    assert found == FirstHost(lines);
    if found.Some? && found.value != [] {
      hostname := found.value;
    } else {
      hostname := clientIp + ":" + IntToString(proxyPort);
    }
  }

  /** A request whose second line is `Host: h` is routed by `h`. */
  lemma HostHeaderRoundTrip(requestLine: string, h: string, rest: string, clientIp: string, proxyPort: int)
    requires forall i :: 0 <= i < |requestLine| ==> !IsLineBreak(requestLine[i])
    requires !IsHostLine(requestLine)
    requires h != [] && !IsSpace(h[0]) && !IsSpace(h[|h| - 1])
    requires forall i :: 0 <= i < |h| ==> !IsLineBreak(h[i])
    ensures HostSpec(requestLine + "\r\n" + ("Host: " + h) + "\r\n" + rest, clientIp, proxyPort) == h
  {
    HostLineUnbroken(h);
    TwoLines(requestLine, "Host: " + h, rest);
    HostLineValue(h);
    SecondLineHost(requestLine, "Host: " + h, SplitLines(rest));
  }

  lemma HostLineUnbroken(h: string)
    requires forall i :: 0 <= i < |h| ==> !IsLineBreak(h[i])
    ensures forall i :: 0 <= i < |"Host: " + h| ==> !IsLineBreak(("Host: " + h)[i])
  {
    var line := "Host: " + h;
    forall i | 0 <= i < |line| ensures !IsLineBreak(line[i]) {
      if i >= 6 { assert line[i] == h[i - 6]; }
    }
  }

  /** Two lines ended by CRLF are split off whole. */
  lemma TwoLines(a: string, b: string, rest: string)
    requires forall i :: 0 <= i < |a| ==> !IsLineBreak(a[i])
    requires forall i :: 0 <= i < |b| ==> !IsLineBreak(b[i])
    ensures SplitLines(a + "\r\n" + b + "\r\n" + rest) == [a, b] + SplitLines(rest)
  {
    var t := b + "\r\n" + rest;
    SplitLinesCRLF(b, rest);
    Regroup(a, "\r\n", b, "\r\n", rest);
    SplitLinesCRLF(a, t);
    ConsTwo(a, b, SplitLines(rest));
  }

  lemma Regroup(a: string, b: string, c: string, d: string, e: string)
    ensures a + b + c + d + e == a + b + (c + d + e)
  {
  }

  lemma ConsTwo(a: string, b: string, more: seq<string>)
    ensures [a] + ([b] + more) == [a, b] + more
  {
  }

  /** A Host line right after a line that is not one is the first. */
  lemma SecondLineHost(a: string, b: string, more: seq<string>)
    requires !IsHostLine(a) && IsHostLine(b)
    ensures FirstHost([a, b] + more) == Some(HostValue(b))
  {
    var lines := [a, b] + more;
    assert lines[0] == a && lines[1] == b;
    assert HostLineFrom(lines, 1) == Some(1);
  }

  /** `Host: h` is a Host line whose value is `h`. */
  lemma HostLineValue(h: string)
    requires h != [] && !IsSpace(h[0]) && !IsSpace(h[|h| - 1])
    ensures IsHostLine("Host: " + h) && HostValue("Host: " + h) == h
  {
    var line := "Host: " + h;
    assert line[..5] == "Host:";
    assert Lower(line[..5]) == HostKey;
    assert line == "Host" + [':'] + (" " + h);
    BeforeOfJoin("Host", ':', " " + h);
    var v := After(line, ':');
    assert v == " " + h;
    StripLeadingSpace(" ", h);
    StripNoSpace(h);
  }

  // ---------------------------------------------------------------- rewrite

  /** The character `re.IGNORECASE` compares with a lower-case ASCII letter
      of a pattern: ASCII capitals fold to lower case, the Kelvin sign
      U+212A to `k`, and the capital I with dot U+0130 and the dotless i
      U+0131 to `i`. No other character matches a letter of
      `connection:` or `keep-alive`. */
  function FoldIgnoreCase(c: char): char {
    if c == '\U{212a}' then 'k'
    else if c == '\U{130}' || c == '\U{131}' then 'i'
    else LowerAscii(c)
  }

  function FoldText(s: string): (r: string)
    ensures |r| == |s| && forall i :: 0 <= i < |s| ==> r[i] == FoldIgnoreCase(s[i])
  {
    seq(|s|, i requires 0 <= i < |s| => FoldIgnoreCase(s[i]))
  }

  /** `s[i..]` starts with `word` under `re.IGNORECASE`. */
  predicate MatchesAt(s: string, i: nat, word: string) {
    i + |word| <= |s| && FoldText(s[i..i + |word|]) == word
  }

  /** The end of the run of whitespace starting at `i` (`\s*`). */
  function SpacesFrom(s: string, i: nat): (r: nat)
    requires i <= |s|
    ensures i <= r <= |s|
    ensures forall k :: i <= k < r ==> IsSpace(s[k])
    ensures r < |s| ==> !IsSpace(s[r])
    decreases |s| - i
  {
    if i == |s| || !IsSpace(s[i]) then i else SpacesFrom(s, i + 1)
  }

  /** Where a match of `Connection:\s*keep-alive` (ignoring case) starting at
      `i` ends, if one does. */
  function KeepAliveEnd(s: string, i: nat): (r: Option<nat>)
    ensures r.Some? ==> i + 21 <= r.value <= |s|
  {
    if MatchesAt(s, i, ConnectionWord) then
      var j := SpacesFrom(s, i + 11);
      if MatchesAt(s, j, KeepAliveWord) then Some(j + 10) else None
    else None
  }

  const ConnectionWord := "connection:"
  const KeepAliveWord := "keep-alive"

  /** The leftmost match at or after `i` (`re.search`). */
  function FirstMatchFrom(s: string, i: nat): (r: Option<nat>)
    ensures r.Some? ==> i <= r.value && KeepAliveEnd(s, r.value).Some?
    ensures r.Some? ==> forall j: nat :: i <= j < r.value ==> KeepAliveEnd(s, j).None?
    ensures r.None? ==> forall j: nat :: i <= j ==> KeepAliveEnd(s, j).None?
    decreases |s| - i
  {
    if i >= |s| then None
    else if KeepAliveEnd(s, i).Some? then Some(i)
    else FirstMatchFrom(s, i + 1)
  }

  predicate HasKeepAlive(s: string) {
    FirstMatchFrom(s, 0).Some?
  }

  const Close: string := "Connection: close"

  /** `re.sub(r'Connection:\s*keep-alive', 'Connection: close', s,
      flags=re.IGNORECASE)`: every non-overlapping match, leftmost first. */
  function SubKeepAlive(s: string): (r: string)
    decreases |s|
  {
    match FirstMatchFrom(s, 0)
    case None => s
    case Some(m) =>
      var e := KeepAliveEnd(s, m).value;
      s[..m] + Close + SubKeepAlive(s[e..])
  }

  /** The request rewrite of `forward_request` (daemon/proxy.py:57-61). */
  function Rewrite(s: string): string {
    if HasKeepAlive(s) then SubKeepAlive(s)
    else if !Contains(s, "Connection:") then ReplaceAll(s, "\r\n\r\n", "\r\nConnection: close\r\n\r\n")
    else s
  }

  /** A request that already names a connection mode other than keep-alive
      is relayed unchanged. */
  lemma RewriteKeepsOtherModes(s: string)
    requires !HasKeepAlive(s) && Contains(s, "Connection:")
    ensures Rewrite(s) == s
  {
  }

  /** A request without any `Connection:` header gets `Connection: close`
      exactly when it has a blank line to put it before. */
  lemma RewriteInserts(s: string)
    requires !HasKeepAlive(s) && !Contains(s, "Connection:")
    ensures Contains(s, "\r\n\r\n") ==> Contains(Rewrite(s), "\r\nConnection: close\r\n\r\n")
    ensures !Contains(s, "\r\n\r\n") ==> Rewrite(s) == s
  {
    if Contains(s, "\r\n\r\n") {
      ReplacePresent(s, "\r\n\r\n", "\r\nConnection: close\r\n\r\n");
    } else {
      ReplaceAbsent(s, "\r\n\r\n", "\r\nConnection: close\r\n\r\n");
    }
  }

  /** Without a `Connection:` header, the header is put before the first
      blank line, everything before it is kept, and later blank lines are
      treated alike; with one blank line only, nothing else changes. */
  lemma RewriteInsertsAtBlankLine(head: string, body: string)
    requires forall j :: 0 <= j < |head| ==> !OccursAt(head + BlankLine + body, BlankLine, j)
    requires var s := head + BlankLine + body; !HasKeepAlive(s) && !Contains(s, "Connection:")
    ensures Rewrite(head + BlankLine + body) == head + WithClose + ReplaceAll(body, BlankLine, WithClose)
    ensures !Contains(body, BlankLine) ==> Rewrite(head + BlankLine + body) == head + WithClose + body
  {
    ReplaceAtFirst(head, BlankLine, WithClose, body);
    if !Contains(body, BlankLine) {
      ReplaceAbsent(body, BlankLine, WithClose);
    }
  }

  const BlankLine := "\r\n\r\n"
  const WithClose := "\r\nConnection: close\r\n\r\n"

  /** `re.IGNORECASE` folds the Kelvin sign onto `k`, so a keep-alive
      header spelled with it is rewritten as well. */
  lemma KelvinSignMatches()
    ensures HasKeepAlive("Connection: \U{212a}eep-alive")
    ensures Rewrite("Connection: \U{212a}eep-alive") == Close
  {
    var s := "Connection: \U{212a}eep-alive";
    assert FoldText(s[0..11]) == ConnectionWord;
    assert SpacesFrom(s, 12) == 12;
    assert SpacesFrom(s, 11) == 12;
    assert FoldText(s[12..22]) == KeepAliveWord;
    assert KeepAliveEnd(s, 0) == Some(22);
    assert SubKeepAlive(s[22..]) == [];
  }

  /** A request asking for keep-alive is rewritten so that no
      `Connection: keep-alive` header is left, in any spelling of case or
      spacing. */
  lemma RewriteDropsKeepAlive(s: string)
    requires HasKeepAlive(s)
    ensures !HasKeepAlive(Rewrite(s))
  {
    NoKeepAliveLeft(s);
  }

  lemma {:induction false} NoKeepAliveLeft(s: string)
    ensures !HasKeepAlive(SubKeepAlive(s))
    decreases |s|
  {
    match FirstMatchFrom(s, 0)
    case None =>
    case Some(m) =>
      var e := KeepAliveEnd(s, m).value;
      var tail := SubKeepAlive(s[e..]);
      NoKeepAliveLeft(s[e..]);
      forall i: nat
        ensures KeepAliveEnd(s[..m] + Close + tail, i).None?
      {
        ReplacedClean(s, m, tail, i);
      }
      assert SubKeepAlive(s) == s[..m] + Close + tail;
  }

  /** Once the first match of `s` is replaced and the rest is clean, no
      match starts anywhere. */
  lemma ReplacedClean(s: string, m: nat, tail: string, i: nat)
    requires FirstMatchFrom(s, 0) == Some(m) && !HasKeepAlive(tail)
    ensures KeepAliveEnd(s[..m] + Close + tail, i).None?
  {
    if i < m {
      BeforeReplacement(s, m, tail, i);
    } else if i < m + 17 {
      InsideClose(s[..m], tail, i);
    } else {
      AfterClose(s[..m], tail, i);
    }
  }

  /** No match starts in the clean text after the inserted one. */
  lemma AfterClose(p: string, tail: string, k: nat)
    requires |p| + 17 <= k && !HasKeepAlive(tail)
    ensures KeepAliveEnd(p + Close + tail, k).None?
  {
    var a := p + Close;
    assert |a| == |p| + 17;
    var j := k - |a|;
    assert KeepAliveEnd(tail, j).None? by {
      assert FirstMatchFrom(tail, 0).None?;
    }
    ShiftMatch(a, tail, j);
  }

  /** Matching at `|a| + j` in `a + t` is matching at `j` in `t`. */
  lemma ShiftMatch(a: string, t: string, j: nat)
    ensures KeepAliveEnd(a + t, |a| + j).Some? <==> KeepAliveEnd(t, j).Some?
  {
    var u := a + t;
    var i := |a| + j;
    ShiftWord(a, t, j, ConnectionWord);
    if MatchesAt(t, j, ConnectionWord) {
      ShiftSpaces(a, t, j + 11);
      var sp := SpacesFrom(t, j + 11);
      ShiftWord(a, t, sp, KeepAliveWord);
    }
  }

  lemma ShiftWord(a: string, t: string, j: nat, w: string)
    ensures MatchesAt(a + t, |a| + j, w) <==> MatchesAt(t, j, w)
  {
    if j + |w| <= |t| {
      assert (a + t)[|a| + j..|a| + j + |w|] == t[j..j + |w|];
    }
  }

  lemma {:induction false} ShiftSpaces(a: string, t: string, j: nat)
    requires j <= |t|
    ensures SpacesFrom(a + t, |a| + j) == |a| + SpacesFrom(t, j)
    decreases |t| - j
  {
    var u := a + t;
    if j < |t| {
      assert u[|a| + j] == t[j];
      if IsSpace(t[j]) {
        ShiftSpaces(a, t, j + 1);
      }
    }
  }

  /** No match starts inside the inserted `Connection: close`, whatever
      follows it. */
  lemma InsideClose(p: string, tail: string, k: nat)
    requires |p| <= k < |p| + 17
    ensures KeepAliveEnd(p + Close + tail, k).None?
  {
    assert p + Close + tail == p + (Close + tail);
    InsideCloseAt(p, tail, k - |p|);
  }

  lemma InsideCloseAt(p: string, tail: string, i: nat)
    requires i < 17
    ensures KeepAliveEnd(p + (Close + tail), |p| + i).None?
  {
    ShiftMatch(p, Close + tail, i);
    var u := Close + tail;
    assert u[..17] == Close;
    assert u[i] == Close[i];
    if i == 0 {
      assert u[11] == ' ' && u[12] == 'c';
      assert SpacesFrom(u, 11) == 12;
      if 22 <= |u| {
        assert FoldText(u[12..22])[0] == FoldIgnoreCase(u[12]);
      }
    } else if i == 5 || i == 12 {
      assert u[i + 1] == Close[i + 1];
      if i + 11 <= |u| {
        assert FoldText(u[i..i + 11])[1] == FoldIgnoreCase(u[i + 1]);
      }
    } else {
      assert i == 1 || i == 2 || i == 3 || i == 4 || i == 6 || i == 7 || i == 8 || i == 9 ||
        i == 10 || i == 11 || i == 13 || i == 14 || i == 15 || i == 16;
      assert FoldIgnoreCase(u[i]) != 'c';
      if i + 11 <= |u| {
        assert FoldText(u[i..i + 11])[0] == FoldIgnoreCase(u[i]);
      }
    }
  }

  /** A match that would start before the inserted text would have started
      at the same place in the original: the inserted `C` cannot stand in
      for any character of `Connection:\s*keep-alive` other than its first. */
  lemma BeforeReplacement(s: string, m: nat, tail: string, i: nat)
    requires i < m && FirstMatchFrom(s, 0) == Some(m)
    ensures KeepAliveEnd(s[..m] + Close + tail, i).None?
  {
    assert KeepAliveEnd(s, i).None?;
    CloseStart(s[..m], tail);
    NoMatchBeforeC(s, s[..m] + Close + tail, m, i);
  }

  /** A text that agrees with `s` below `m` and has `Co` at `m` has no match
      at `i < m` when `s` has none there. */
  lemma NoMatchBeforeC(s: string, out: string, m: nat, i: nat)
    requires i < m <= |s| && m + 1 < |out| && out[..m] == s[..m]
    requires out[m] == 'C' && out[m + 1] == 'o'
    requires KeepAliveEnd(s, i).None?
    ensures KeepAliveEnd(out, i).None?
  {
    if i + 11 > m {
      ConnectionNotAcross(out, i, m);
    } else {
      MatchAgree(s, out, i, ConnectionWord, m);
      if MatchesAt(out, i, ConnectionWord) {
        var j := SpacesFrom(out, i + 11);
        assert j <= m;
        if j + 10 <= m {
          SameSpaces(s, out, i + 11, m);
          MatchAgree(s, out, j, KeepAliveWord, m);
        } else {
          KeepAliveNotAcross(out, j, m);
        }
      }
    }
  }

  /** The text around the start of the inserted `Connection: close`. */
  lemma CloseStart(p: string, tail: string)
    ensures |p + Close + tail| == |p| + 17 + |tail|
    ensures (p + Close + tail)[..|p|] == p
    ensures (p + Close + tail)[|p|] == 'C' && (p + Close + tail)[|p| + 1] == 'o'
  {
    var out := p + Close + tail;
    assert out[|p|] == Close[0] && out[|p| + 1] == Close[1];
  }

  /** A match of `w` at `i` fixes the case-folded character at `i + k`. */
  lemma MatchChar(s: string, i: nat, w: string, k: nat)
    requires MatchesAt(s, i, w) && k < |w|
    ensures w[k] == FoldIgnoreCase(s[i + k])
  {
    assert s[i..i + |w|][k] == s[i + k];
  }

  /** Whether `w` matches at `i` depends only on the text below `m` when
      the match would end there. */
  lemma MatchAgree(s: string, out: string, i: nat, w: string, m: nat)
    requires i + |w| <= m <= |s| && m <= |out| && out[..m] == s[..m]
    ensures MatchesAt(out, i, w) <==> MatchesAt(s, i, w)
  {
    assert out[i..i + |w|] == out[..m][i..i + |w|];
    assert s[i..i + |w|] == s[..m][i..i + |w|];
  }

  /** `connection:` cannot match across an inserted `Co`. */
  lemma ConnectionNotAcross(out: string, i: nat, m: nat)
    requires i < m < i + 11 && m + 1 < |out| && out[m] == 'C' && out[m + 1] == 'o'
    ensures !MatchesAt(out, i, ConnectionWord)
  {
    if MatchesAt(out, i, ConnectionWord) {
      var p := m - i;
      MatchChar(out, i, ConnectionWord, p);
      if p == 5 {
        MatchChar(out, i, ConnectionWord, p + 1);
      }
    }
  }

  /** `keep-alive` cannot match over an inserted `C`. */
  lemma KeepAliveNotAcross(out: string, j: nat, m: nat)
    requires j <= m < j + 10 && m < |out| && out[m] == 'C'
    ensures !MatchesAt(out, j, KeepAliveWord)
  {
    if MatchesAt(out, j, KeepAliveWord) {
      MatchChar(out, j, KeepAliveWord, m - j);
    }
  }

  /** Two texts that agree below `m`, where the second has a non-space at
      `m`, have the same whitespace run from `i` if it ends before `m`. */
  lemma {:induction false} SameSpaces(s: string, out: string, i: nat, m: nat)
    requires i <= m < |out| && m <= |s| && !IsSpace(out[m])
    requires out[..m] == s[..m]
    ensures SpacesFrom(out, i) < m ==> SpacesFrom(s, i) == SpacesFrom(out, i)
    decreases m - i
  {
    if i < m {
      assert out[i] == out[..m][i] == s[..m][i] == s[i];
      if IsSpace(out[i]) {
        SameSpaces(s, out, i + 1, m);
      }
    }
  }

  // ---------------------------------------------------------------- handling

  /** How the backend behaved: a socket error on connect or send, or the
      bytes it answered before closing or timing out. */
  datatype Backend = Unreachable | Answers(reply: seq<byte>)

  /** `forward_request(host, port, request)`: what reaches the backend and
      what goes back to the client, or `PortOverflow` when `connect` raises
      `OverflowError` for a port outside 0..65535. That exception is not a
      `socket.error`, so it escapes `forward_request` and ends the thread. */
  datatype Relayed = Relayed(sent: Option<string>, reply: seq<byte>) | PortOverflow

  /** The ports `socket.connect` accepts for an AF_INET address. */
  predicate PortInRange(port: int) {
    0 <= port <= 65535
  }

  function ForwardRequest(request: string, port: int, backend: Backend): (r: Relayed)
    ensures r.PortOverflow? <==> !PortInRange(port)
    ensures PortInRange(port) && backend.Unreachable? ==> r == Relayed(None, BadGatewayReply())
    ensures PortInRange(port) && backend.Answers? ==> r == Relayed(Some(Rewrite(request)), backend.reply)
  {
    if !PortInRange(port) then PortOverflow
    else match backend
      case Unreachable => Relayed(None, BadGatewayReply())
      case Answers(bytes) => Relayed(Some(Rewrite(request)), bytes)
  }

  /** What one client connection came to: the bytes sent back (`None` when
      the thread died or the request was empty), and what was relayed to a
      backend, with its address. */
  datatype Handled = Handled(reply: Option<seq<byte>>, relayed: Option<(string, int, string)>)

  /** `handle_client` (daemon/proxy.py:215-277). `raw` is what `recv`
      returned and `request` its UTF-8 decoding with undecodable bytes
      dropped; `backend` stands for the backend's behaviour. Only an empty
      `raw` ends the connection silently: bytes that decode to nothing are
      still routed, by the client's address. */
  function HandleSpec(raw: seq<byte>, request: string, clientIp: string, proxyPort: int, routes: Routes,
                      counters: Counters, backend: (string, int) -> Backend): (Handled, Counters) {
    if raw == [] then (Handled(None, None), counters)
    else
      var hostname := HostSpec(request, clientIp, proxyPort);
      var (res, next) := ResolveSpec(hostname, routes, counters);
      HandleResolved(request, res, next, backend)
  }

  /** The part of `handle_client` after resolution. */
  function HandleResolved(request: string, res: Resolution, next: Counters,
                          backend: (string, int) -> Backend): (Handled, Counters) {
    match res
    case Died(_) => (Handled(None, None), next)
    case Unresolved => (Handled(Some(NotFoundReply()), None), next)
    case Resolved(host, port) =>
      if host != [] && port != 0 then
        var r := ForwardRequest(request, port, backend(host, port));
        if r.PortOverflow? then (Handled(None, None), next)
        else (Handled(Some(r.reply), if r.sent.Some? then Some((host, port, r.sent.value)) else None), next)
      else (Handled(Some(NotFoundReply()), None), next)
  }

  /** When the host resolves to nothing usable the client gets the fixed
      404 page and nothing is relayed. */
  lemma UnroutedGets404(raw: seq<byte>, request: string, clientIp: string, proxyPort: int, routes: Routes, counters: Counters,
                        backend: (string, int) -> Backend)
    requires raw != []
    requires var res := ResolveSpec(HostSpec(request, clientIp, proxyPort), routes, counters).0;
      res.Unresolved? || (res.Resolved? && (res.host == [] || res.port == 0))
    ensures HandleSpec(raw, request, clientIp, proxyPort, routes, counters, backend).0 == Handled(Some(NotFoundReply()), None)
  {
    var hostname := HostSpec(request, clientIp, proxyPort);
    var rr := ResolveSpec(hostname, routes, counters);
    assert HandleSpec(raw, request, clientIp, proxyPort, routes, counters, backend) == HandleResolved(request, rr.0, rr.1, backend);
  }

  /** A resolved request reaches its backend rewritten to close the
      connection, and the client gets the backend's bytes, or the fixed 502
      page when the backend cannot be reached. A port outside 0..65535 ends
      the thread before anything is sent either way. */
  lemma RoutedIsRelayed(raw: seq<byte>, request: string, clientIp: string, proxyPort: int, routes: Routes, counters: Counters,
                        backend: (string, int) -> Backend)
    requires raw != []
    requires var res := ResolveSpec(HostSpec(request, clientIp, proxyPort), routes, counters).0;
      res.Resolved? && res.host != [] && res.port != 0
    ensures var res := ResolveSpec(HostSpec(request, clientIp, proxyPort), routes, counters).0;
      var h := HandleSpec(raw, request, clientIp, proxyPort, routes, counters, backend).0;
      (!PortInRange(res.port) ==> h == Handled(None, None)) &&
      (PortInRange(res.port) && backend(res.host, res.port).Unreachable? ==>
        h == Handled(Some(BadGatewayReply()), None)) &&
      (PortInRange(res.port) && backend(res.host, res.port).Answers? ==>
        h == Handled(Some(backend(res.host, res.port).reply), Some((res.host, res.port, Rewrite(request)))))
  {
    var hostname := HostSpec(request, clientIp, proxyPort);
    var rr := ResolveSpec(hostname, routes, counters);
    assert HandleSpec(raw, request, clientIp, proxyPort, routes, counters, backend) == HandleResolved(request, rr.0, rr.1, backend);
  }

  /** Received bytes that decode to no text at all (invalid UTF-8, say) are
      not the silent empty case: they are routed by the client's address and
      resolved like any other request, so a round-robin route still turns. */
  lemma UndecodableStillRouted(raw: seq<byte>, clientIp: string, proxyPort: int, routes: Routes, counters: Counters,
                               backend: (string, int) -> Backend)
    requires raw != []
    ensures var rr := ResolveSpec(clientIp + ":" + IntToString(proxyPort), routes, counters);
      HandleSpec(raw, "", clientIp, proxyPort, routes, counters, backend) == HandleResolved("", rr.0, rr.1, backend)
  {
    assert HostSpec("", clientIp, proxyPort) == clientIp + ":" + IntToString(proxyPort);
  }

  /** The proxy's one piece of state, the global `rr_index`. */
  class Router {
    var counters: Counters

    constructor ()
      ensures counters == map[]
    {
      counters := map[];
    }

    /** `resolve_routing_policy`. */
    method Resolve(hostname: string, routes: Routes) returns (r: Resolution)
      modifies this
      ensures (r, counters) == ResolveSpec(hostname, routes, old(counters))
    {
      var found := LookupRoute(hostname, routes);
      if found.None? {
        return Unresolved;
      }
      var route := found.value;
      var url: string := "";
      match route.backends {
        case Single(u) =>
          url := u;
        case Neither =>
        case Listed(us) =>
          if |us| == 1 {
            url := us[0];
          } else if route.policy == "round-robin" {
            if |us| == 0 {
              return Died(ZeroDivision);
            }
            var k := if hostname in counters then counters[hostname] else 0;
            url := us[k % |us|];
            counters := counters[hostname := k + 1];
          } else {
            if |us| == 0 {
              return Died(IndexOutOfRange);
            }
            url := us[0];
          }
      }
      assert Choose(hostname, route, old(counters)) == Picked(url, counters);
      var parsed := ParseTarget(url);
      if parsed.None? {
        return Unresolved;
      }
      r := Resolved(parsed.value.0, parsed.value.1);
    }

    /** `handle_client`. */
    method HandleClient(raw: seq<byte>, request: string, clientIp: string, proxyPort: int, routes: Routes,
                        backend: (string, int) -> Backend) returns (h: Handled)
      modifies this
      ensures (h, counters) == HandleSpec(raw, request, clientIp, proxyPort, routes, old(counters), backend)
    {
      if raw == [] {
        return Handled(None, None);
      }
      var hostname := ExtractHost(request, clientIp, proxyPort);
      ghost var before := old(counters);
      var res := Resolve(hostname, routes);
      assert HandleSpec(raw, request, clientIp, proxyPort, routes, before, backend) ==
        HandleResolved(request, res, counters, backend);
      if res.Died? {
        return Handled(None, None);
      }
      if res.Resolved? && res.host != [] && res.port != 0 {
        var r := ForwardRequest(request, res.port, backend(res.host, res.port));
        if r.PortOverflow? {
          return Handled(None, None);
        }
        h := Handled(Some(r.reply), if r.sent.Some? then Some((res.host, res.port, r.sent.value)) else None);
      } else {
        h := Handled(Some(NotFoundReply()), None);
      }
    }
  }
}
