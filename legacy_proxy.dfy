/** The older reverse proxy of proxy.py. It shares the routes table, the
    Host-line test and the fixed 404 page with daemon/proxy.py, but looks
    hosts up by exact name only, reads backends as bare `host:port`, lets
    the last Host line win, bumps the round-robin counter on every
    round-robin choice, and relays requests unchanged. */
module LegacyProxy {
  import opened Strings
  import opened Wire
  import Proxy

  // ---------------------------------------------------------------- address

  /** `host, port_str = text.split(':', 1); return host, int(port_str)`, with
      the `ValueError` of a missing `:` or a bad port as `None`
      (proxy.py:85-90). */
  function SplitTarget(text: string): (r: Option<(string, int)>)
    ensures r.Some? <==> ':' in text && PyInt(After(text, ':')).Some?
    ensures r.Some? ==> ':' !in r.value.0 && text == r.value.0 + [':'] + After(text, ':')
  {
    if ':' in text then
      match PyInt(After(text, ':'))
      case Some(p) => Some((Before(text, ':'), p))
      case None => None
    else None
  }

  /** `host:port` splits back into `(host, port)`. */
  lemma SplitTargetRoundTrip(host: string, port: int)
    requires ':' !in host
    ensures SplitTarget(host + ":" + IntToString(port)) == Some((host, port))
  {
    var n := IntToString(port);
    assert host + ":" + n == host + [':'] + n;
    BeforeOfJoin(host, ':', n);
    IntRoundTrip(port);
  }

  /** Unlike daemon/proxy.py, a scheme is not stripped: `http://h:p` splits
      at the scheme's `:` and its "port" `//h:p` does not parse. */
  lemma SchemeNotStripped(host: string, port: int)
    requires ':' !in host
    ensures SplitTarget("http://" + host + ":" + IntToString(port)).None?
    ensures Proxy.ParseTarget("http://" + host + ":" + IntToString(port)) == Some((host, port))
  {
    var rest := "//" + host + ":" + IntToString(port);
    assert "http://" + host + ":" + IntToString(port) == "http" + [':'] + rest;
    BeforeOfJoin("http", ':', rest);
    var n := IntToString(port);
    assert rest[0] == '/' && rest[|rest| - 1] == n[|n| - 1];
    NotAnInt(rest);
    Proxy.SchemeRoundTrip(host, port);
  }

  /** A text starting with `/` is no integer for `int()`. */
  lemma NotAnInt(t: string)
    requires t != [] && t[0] == '/' && IsDigit(t[|t| - 1])
    ensures PyInt(t).None?
  {
    StripNoSpace(t);
  }

  // ---------------------------------------------------------------- resolution

  /** The backend text chosen for `hostname`, if any, with the counters
      after the choice (proxy.py:80-120). */
  function PickSpec(hostname: string, route: Proxy.Route, counters: Proxy.Counters): (Option<string>, Proxy.Counters) {
    match route.backends
    case Single(u) => (Some(u), counters)
    case Neither => (None, counters)
    case Listed(us) =>
      if us == [] then (None, counters)
      else if route.policy == "round-robin" then
        var k := if hostname in counters then counters[hostname] else 0;
        (Some(us[k % |us|]), counters[hostname := k + 1])
      else (Some(us[0]), counters)
  }

  /** `resolve_routing_policy` of proxy.py: exact lookup, a choice, then the
      split of the chosen text; `None` stands for `(None, None)`. */
  function ResolveSpec(hostname: string, routes: Proxy.Routes, counters: Proxy.Counters): (Option<(string, int)>, Proxy.Counters) {
    if hostname !in routes then (None, counters)
    else
      var (picked, next) := PickSpec(hostname, routes[hostname], counters);
      match picked
      case None => (None, next)
      case Some(u) => (SplitTarget(u), next)
  }

  /** Only the exact hostname is looked up: a name with a port whose bare
      host has a route, which daemon/proxy.py would find, resolves to
      nothing here and the counters are left alone. */
  lemma ExactLookupOnly(hostname: string, routes: Proxy.Routes, counters: Proxy.Counters)
    requires hostname !in routes
    ensures ResolveSpec(hostname, routes, counters) == (None, counters)
    ensures ':' in hostname && Before(hostname, ':') in routes ==> Proxy.LookupRoute(hostname, routes).Some?
  {
  }

  /** A single backend `host:port` resolves to exactly that address without
      touching the counters, and one without a `:` to nothing. */
  lemma SingleBackend(hostname: string, routes: Proxy.Routes, counters: Proxy.Counters, host: string, port: int)
    requires hostname in routes && ':' !in host
    ensures routes[hostname].backends == Proxy.Single(host + ":" + IntToString(port)) ==>
      ResolveSpec(hostname, routes, counters) == (Some((host, port)), counters)
    ensures routes[hostname].backends == Proxy.Single(host) ==>
      ResolveSpec(hostname, routes, counters) == (None, counters)
  {
    SplitTargetRoundTrip(host, port);
  }

  /** An empty backend list, and a value that is neither a string nor a
      list, resolve to nothing and leave the counters alone. */
  lemma NoBackends(hostname: string, routes: Proxy.Routes, counters: Proxy.Counters)
    requires hostname in routes
    requires routes[hostname].backends == Proxy.Listed([]) || routes[hostname].backends.Neither?
    ensures ResolveSpec(hostname, routes, counters) == (None, counters)
  {
  }

  /** Round-robin over `n >= 1` backends splits entry `k mod n` and sets the
      hostname's counter to `k + 1`, even when that entry is malformed and
      nothing is resolved; a one-element list counts too. */
  lemma RoundRobinAdvances(hostname: string, routes: Proxy.Routes, counters: Proxy.Counters)
    requires hostname in routes && routes[hostname].backends.Listed?
    requires routes[hostname].backends.urls != [] && routes[hostname].policy == "round-robin"
    ensures var us := routes[hostname].backends.urls;
      var k := if hostname in counters then counters[hostname] else 0;
      ResolveSpec(hostname, routes, counters) == (SplitTarget(us[k % |us|]), counters[hostname := k + 1])
    ensures var next := ResolveSpec(hostname, routes, counters).1;
      next.Keys == counters.Keys + {hostname} && forall h :: h in counters && h != hostname ==> next[h] == counters[h]
  {
  }

  /** Any other policy splits the first entry and leaves the counters alone. */
  lemma FirstEntryPolicy(hostname: string, routes: Proxy.Routes, counters: Proxy.Counters)
    requires hostname in routes && routes[hostname].backends.Listed?
    requires routes[hostname].backends.urls != [] && routes[hostname].policy != "round-robin"
    ensures ResolveSpec(hostname, routes, counters) == (SplitTarget(routes[hostname].backends.urls[0]), counters)
  {
  }

  /** On a one-element round-robin list the newer proxy keeps its counter
      while this one advances it; both pick the only entry. */
  lemma SingletonListCounters(hostname: string, u: string, counters: Proxy.Counters)
    ensures var route := Proxy.Route(Proxy.Listed([u]), "round-robin");
      var k := if hostname in counters then counters[hostname] else 0;
      PickSpec(hostname, route, counters) == (Some(u), counters[hostname := k + 1]) &&
      Proxy.Choose(hostname, route, counters) == Proxy.Picked(u, counters)
  {
    var k := if hostname in counters then counters[hostname] else 0;
    assert k % 1 == 0;
  }

  // ---------------------------------------------------------------- host header

  /** The index of the last Host line below `n`, if any. */
  function LastHostLine(lines: seq<string>, n: nat): (r: Option<nat>)
    requires n <= |lines|
    ensures r.Some? ==> r.value < n && Proxy.IsHostLine(lines[r.value])
    ensures r.Some? ==> forall j :: r.value < j < n ==> !Proxy.IsHostLine(lines[j])
    ensures r.None? ==> forall j :: 0 <= j < n ==> !Proxy.IsHostLine(lines[j])
  {
    if n == 0 then None
    else if Proxy.IsHostLine(lines[n - 1]) then Some(n - 1)
    else LastHostLine(lines, n - 1)
  }

  /** The value of the last Host line; `None` where proxy.py reads the
      never-assigned `hostname` and the handler dies with a `NameError`. */
  function LastHost(lines: seq<string>): Option<string> {
    match LastHostLine(lines, |lines|)
    case None => None
    case Some(k) => Some(Proxy.HostValue(lines[k]))
  }

  /** The Host loop of `handle_client` (proxy.py:161-163), which has no
      `break`: each Host line overwrites the name. */
  method ExtractHost(request: string) returns (hostname: Option<string>)
    ensures hostname == LastHost(SplitLines(request))
  {
    var lines := SplitLines(request);
    hostname := None;
    var i := 0;
    while i < |lines|
      invariant 0 <= i <= |lines|
      invariant hostname == (match LastHostLine(lines, i) case None => None case Some(k) => Some(Proxy.HostValue(lines[k])))
    {
      if Proxy.IsHostLine(lines[i]) {
        hostname := Some(Proxy.HostValue(lines[i]));
      }
      i := i + 1;
    }
  }

  /** Of two Host lines the newer proxy routes by the first, this one by the
      second. */
  lemma LastHostWins(h1: string, h2: string)
    requires h1 != [] && !IsSpace(h1[0]) && !IsSpace(h1[|h1| - 1])
    requires h2 != [] && !IsSpace(h2[0]) && !IsSpace(h2[|h2| - 1])
    ensures var lines := ["Host: " + h1, "Host: " + h2];
      LastHost(lines) == Some(h2) && Proxy.FirstHost(lines) == Some(h1)
  {
    Proxy.HostLineValue(h1);
    Proxy.HostLineValue(h2);
    var lines := ["Host: " + h1, "Host: " + h2];
    assert Proxy.HostLineFrom(lines, 0) == Some(0);
  }

  /** A Host line followed only by other lines decides the name. */
  lemma LaterLinesKeepHost(before: seq<string>, h: string, after: seq<string>)
    requires h != [] && !IsSpace(h[0]) && !IsSpace(h[|h| - 1])
    requires forall j :: 0 <= j < |after| ==> !Proxy.IsHostLine(after[j])
    ensures LastHost(before + ["Host: " + h] + after) == Some(h)
  {
    Proxy.HostLineValue(h);
    var lines := before + ["Host: " + h] + after;
    var k := |before|;
    assert lines[k] == "Host: " + h;
    NoHostAfter(before + ["Host: " + h], after);
    var found := LastHostLine(lines, |lines|);
    assert found.Some? && found.value == k;
  }

  lemma NoHostAfter(front: seq<string>, after: seq<string>)
    requires forall j :: 0 <= j < |after| ==> !Proxy.IsHostLine(after[j])
    ensures forall j :: |front| <= j < |front + after| ==> !Proxy.IsHostLine((front + after)[j])
  {
    forall j | |front| <= j < |front + after| ensures !Proxy.IsHostLine((front + after)[j]) {
      assert (front + after)[j] == after[j - |front|];
    }
  }

  // ---------------------------------------------------------------- handling

  /** `handle_client` of proxy.py: `None` as the reply where the thread
      dies (no Host line, or a port `connect` refuses with `OverflowError`);
      otherwise a resolved, truthy host and port get the backend's bytes (or
      the fixed 404 when it cannot be reached) and everything else gets the
      fixed 404. The request is relayed as it came. */
  function HandleSpec(request: string, routes: Proxy.Routes, counters: Proxy.Counters,
                      backend: (string, int) -> Proxy.Backend): (Proxy.Handled, Proxy.Counters) {
    match LastHost(SplitLines(request))
    case None => (Proxy.Handled(None, None), counters)
    case Some(hostname) =>
      var (res, next) := ResolveSpec(hostname, routes, counters);
      if res.Some? && res.value.0 != [] && res.value.1 != 0 then
        if !Proxy.PortInRange(res.value.1) then (Proxy.Handled(None, None), next)
        else match backend(res.value.0, res.value.1)
        case Unreachable => (Proxy.Handled(Some(NotFoundReply()), None), next)
        case Answers(bytes) => (Proxy.Handled(Some(bytes), Some((res.value.0, res.value.1, request))), next)
      else (Proxy.Handled(Some(NotFoundReply()), None), next)
  }

  /** Without a usable backend, and when the backend cannot be reached, the
      client gets the fixed 404 page; a usable host whose port `connect`
      refuses ends the thread with no reply instead. */
  lemma UnroutedGets404(request: string, routes: Proxy.Routes, counters: Proxy.Counters,
                        backend: (string, int) -> Proxy.Backend)
    requires LastHost(SplitLines(request)).Some?
    requires var res := ResolveSpec(LastHost(SplitLines(request)).value, routes, counters).0;
      res.None? || res.value.0 == [] || res.value.1 == 0 || backend(res.value.0, res.value.1).Unreachable?
    ensures var res := ResolveSpec(LastHost(SplitLines(request)).value, routes, counters).0;
      var h := HandleSpec(request, routes, counters, backend).0;
      (res.Some? && res.value.0 != [] && res.value.1 != 0 && !Proxy.PortInRange(res.value.1) ==>
        h == Proxy.Handled(None, None)) &&
      (res.None? || res.value.0 == [] || res.value.1 == 0 || Proxy.PortInRange(res.value.1) ==>
        h == Proxy.Handled(Some(NotFoundReply()), None))
  {
    var hostname := LastHost(SplitLines(request)).value;
    var res := ResolveSpec(hostname, routes, counters).0;
    if res.Some? && res.value.0 != [] && res.value.1 != 0 {
      assert backend(res.value.0, res.value.1).Unreachable?;
    }
  }

  /** A usable backend that answers receives the request untouched and the
      client gets its bytes, provided `connect` accepts the port; otherwise
      the thread ends with no reply and nothing relayed. */
  lemma RoutedIsRelayed(request: string, routes: Proxy.Routes, counters: Proxy.Counters,
                        backend: (string, int) -> Proxy.Backend)
    requires LastHost(SplitLines(request)).Some?
    requires var res := ResolveSpec(LastHost(SplitLines(request)).value, routes, counters).0;
      res.Some? && res.value.0 != [] && res.value.1 != 0 && backend(res.value.0, res.value.1).Answers?
    ensures var res := ResolveSpec(LastHost(SplitLines(request)).value, routes, counters).0;
      var h := HandleSpec(request, routes, counters, backend).0;
      (!Proxy.PortInRange(res.value.1) ==> h == Proxy.Handled(None, None)) &&
      (Proxy.PortInRange(res.value.1) ==>
        h == Proxy.Handled(Some(backend(res.value.0, res.value.1).reply), Some((res.value.0, res.value.1, request))))
  {
  }

  /** The old proxy's one piece of state, its global `rr_index`. */
  class OldRouter {
    var counters: Proxy.Counters

    constructor ()
      ensures counters == map[]
    {
      counters := map[];
    }

    /** `resolve_routing_policy`. */
    method Resolve(hostname: string, routes: Proxy.Routes) returns (r: Option<(string, int)>)
      modifies this
      ensures (r, counters) == ResolveSpec(hostname, routes, old(counters))
    {
      if hostname !in routes {
        return None;
      }
      var route := routes[hostname];
      var url: string;
      match route.backends {
        case Single(u) =>
          url := u;
        case Neither =>
          return None;
        case Listed(us) =>
          if us == [] {
            return None;
          }
          if route.policy == "round-robin" {
            var k := if hostname in counters then counters[hostname] else 0;
            url := us[k % |us|];
            counters := counters[hostname := k + 1];
          } else {
            url := us[0];
          }
      }
      r := SplitTarget(url);
    }

    /** `handle_client`. */
    method HandleClient(request: string, routes: Proxy.Routes, backend: (string, int) -> Proxy.Backend)
      returns (h: Proxy.Handled)
      modifies this
      ensures (h, counters) == HandleSpec(request, routes, old(counters), backend)
    {
      var hostname := ExtractHost(request);
      if hostname.None? {
        return Proxy.Handled(None, None);
      }
      var res := Resolve(hostname.value, routes);
      if res.Some? && res.value.0 != [] && res.value.1 != 0 {
        if !Proxy.PortInRange(res.value.1) {
          return Proxy.Handled(None, None);
        }
        match backend(res.value.0, res.value.1) {
          case Unreachable =>
            h := Proxy.Handled(Some(NotFoundReply()), None);
          case Answers(bytes) =>
            h := Proxy.Handled(Some(bytes), Some((res.value.0, res.value.1, request)));
        }
      } else {
        h := Proxy.Handled(Some(NotFoundReply()), None);
      }
    }
  }
}
