/** The virtual-host configuration reader of start_proxy.py: it finds every
    `host "NAME" { ... }` block, collects the block's `proxy_pass`
    addresses and its `dist_policy`, and fills the routes table the proxy
    selects backends from. Each regular expression is modelled as the scan
    it performs, position by position, leftmost match first. */
module VirtualHosts {
  import opened Strings
  import Proxy
  import LegacyProxy

  // ---------------------------------------------------------------- scanning

  /** The end of the longest run of characters satisfying `p` from `i`. */
  function RunEnd(s: string, i: nat, p: char -> bool): (r: nat)
    requires i <= |s|
    ensures i <= r <= |s|
    ensures forall k :: i <= k < r ==> p(s[k])
    ensures r < |s| ==> !p(s[r])
    decreases |s| - i
  {
    if i == |s| || !p(s[i]) then i else RunEnd(s, i + 1, p)
  }

  /** `[^"]`. */
  predicate IsNameChar(c: char) {
    c != '"'
  }

  /** `[^\s;]`. */
  predicate IsAddrChar(c: char) {
    !IsSpace(c) && c != ';'
  }

  /** `[\w-]`, with `\w` on ASCII letters, digits and `_`. */
  predicate IsPolicyChar(c: char) {
    ('a' <= c <= 'z') || ('A' <= c <= 'Z') || ('0' <= c <= '9') || c == '_' || c == '-'
  }

  // ---------------------------------------------------------------- blocks

  /** The two groups of one `host "NAME" { ... }` match. */
  datatype Block = Block(name: string, body: string)

  /** `host\s+"([^"]+)"\s*\{(.*?)\}` tried at `i`: the block and where the
      match ends. Every quantifier is forced: `\s+` and `[^"]+` must stop
      at the next `"` and `\s*` at the `{`, and the lazy body ends at the
      first `}`. */
  function BlockAt(s: string, i: nat): (r: Option<(Block, nat)>)
    ensures r.Some? ==> i < r.value.1 <= |s|
    ensures r.Some? ==> r.value.0.name != [] && '"' !in r.value.0.name && '}' !in r.value.0.body
  {
    if !OccursAt(s, "host", i) then None
    else
      var a := Proxy.SpacesFrom(s, i + 4);
      if a == i + 4 || a == |s| || s[a] != '"' then None
      else
        var b := RunEnd(s, a + 1, IsNameChar);
        if b == a + 1 || b == |s| then None
        else
          var c := Proxy.SpacesFrom(s, b + 1);
          if c == |s| || s[c] != '{' then None
          else
            match FindFrom(s, "}", c + 1)
            case None => None
            case Some(d) =>
              NoCloseBefore(s, c + 1, d);
              Some((Block(s[a + 1..b], s[c + 1..d]), d + 1))
  }

  /** Before the first `}` from `i` there is none. */
  lemma NoCloseBefore(s: string, i: nat, d: nat)
    requires i <= |s| && FindFrom(s, "}", i) == Some(d)
    ensures d < |s| && s[d] == '}' && '}' !in s[i..d]
  {
    assert s[d..d + 1] == "}";
    forall k | i <= k < d ensures s[k] != '}' {
      assert !OccursAt(s, "}", k);
      assert s[k..k + 1] == [s[k]];
    }
  }

  /** `re.findall` of the block pattern from `i`. */
  function BlocksFrom(s: string, i: nat): seq<Block>
    decreases |s| - i
  {
    if i >= |s| then []
    else
      match BlockAt(s, i)
      case Some((b, e)) => [b] + BlocksFrom(s, e)
      case None => BlocksFrom(s, i + 1)
  }

  function Blocks(config: string): seq<Block> {
    BlocksFrom(config, 0)
  }

  // ---------------------------------------------------------------- proxy_pass

  /** `proxy_pass\s+(?:http://)?([^\s;]+);` tried at `i`: the address and
      where the match ends. */
  function PassAt(t: string, i: nat): (r: Option<(string, nat)>)
    ensures r.Some? ==> i < r.value.1 <= |t|
    ensures r.Some? ==> r.value.0 != [] && forall k :: 0 <= k < |r.value.0| ==> IsAddrChar(r.value.0[k])
  {
    if !OccursAt(t, PassKeyword, i) then None
    else
      var a := Proxy.SpacesFrom(t, i + 10);
      if a == i + 10 then None else AddrAt(t, a)
  }

  const PassKeyword := "proxy_pass"
  const Scheme := "http://"

  /** `(?:http://)?([^\s;]+);` at `a`. The optional `http://` is taken when
      something is left after it; on `http://;` the regex backtracks and the
      address is `http://` itself. */
  function AddrAt(t: string, a: nat): (r: Option<(string, nat)>)
    requires a <= |t|
    ensures r.Some? ==> a < r.value.1 <= |t|
    ensures r.Some? ==> r.value.0 != [] && forall k :: 0 <= k < |r.value.0| ==> IsAddrChar(r.value.0[k])
  {
    var e := RunEnd(t, a, IsAddrChar);
    if e == a || e == |t| || t[e] != ';' then None
    else if OccursAt(t, Scheme, a) && e > a + 7 then Some((t[a + 7..e], e + 1))
    else Some((t[a..e], e + 1))
  }

  /** `re.findall` of the `proxy_pass` pattern from `i`. */
  function PassesFrom(t: string, i: nat): (r: seq<string>)
    ensures forall k :: 0 <= k < |r| ==> r[k] != []
    decreases |t| - i
  {
    if i >= |t| then []
    else
      match PassAt(t, i)
      case Some((addr, e)) => [addr] + PassesFrom(t, e)
      case None => PassesFrom(t, i + 1)
  }

  // ---------------------------------------------------------------- dist_policy

  /** `dist_policy\s+([\w-]+)` tried at `i`. */
  function PolicyAt(t: string, i: nat): (r: Option<string>)
    ensures r.Some? ==> OccursAt(t, "dist_policy", i) && r.value != []
  {
    if !OccursAt(t, "dist_policy", i) then None
    else
      var a := Proxy.SpacesFrom(t, i + 11);
      if a == i + 11 then None
      else
        var w := RunEnd(t, a, IsPolicyChar);
        if w == a then None else Some(t[a..w])
  }

  /** `re.search` of the policy pattern from `i`: where it first matches. */
  function PolicyFrom(t: string, i: nat): (r: Option<nat>)
    ensures r.Some? ==> i <= r.value && PolicyAt(t, r.value).Some?
    ensures r.Some? ==> forall j :: i <= j < r.value ==> PolicyAt(t, j).None?
    ensures r.None? ==> forall j :: i <= j ==> PolicyAt(t, j).None?
    decreases |t| - i
  {
    if i >= |t| then None
    else if PolicyAt(t, i).Some? then Some(i)
    else PolicyFrom(t, i + 1)
  }

  /** The block's policy, `round-robin` when it names none. */
  function Policy(body: string): string {
    match PolicyFrom(body, 0)
    case None => "round-robin"
    case Some(k) => PolicyAt(body, k).value
  }

  // ---------------------------------------------------------------- routes

  /** What one block contributes: its addresses in order and its policy, or
      nothing when it has no address. */
  function BlockRoute(b: Block): Option<Proxy.Route> {
    var ps := PassesFrom(b.body, 0);
    if ps == [] then None else Some(Proxy.Route(Proxy.Listed(ps), Policy(b.body)))
  }

  /** The routes table after the blocks `bs`, in order: each block with
      addresses (over)writes its host's entry. Every stored backend list is
      non-empty. */
  function RoutesOf(bs: seq<Block>): (r: Proxy.Routes)
    ensures forall h :: h in r ==> r[h].backends.Listed? && r[h].backends.urls != []
  {
    if bs == [] then map[]
    else
      var r := RoutesOf(bs[..|bs| - 1]);
      var b := bs[|bs| - 1];
      match BlockRoute(b)
      case None => r
      case Some(route) => r[b.name := route]
  }

  /** `parse_virtual_hosts` after the file read (start_proxy.py:66-88). */
  method ParseVirtualHosts(config: string) returns (routes: Proxy.Routes)
    ensures routes == RoutesOf(Blocks(config))
  {
    var blocks := Blocks(config);
    routes := map[];
    for i := 0 to |blocks|
      invariant routes == RoutesOf(blocks[..i])
    {
      var b := blocks[i];
      var passes := PassesFrom(b.body, 0);
      var policy := Policy(b.body);
      if passes != [] {
        routes := routes[b.name := Proxy.Route(Proxy.Listed(passes), policy)];
      }
      assert blocks[..i + 1][..i] == blocks[..i];
    }
    assert blocks[..|blocks|] == blocks;
  }

  /** The index of the last block below `n` that defines `h`. */
  function LastDefining(bs: seq<Block>, h: string, n: nat): (r: Option<nat>)
    requires n <= |bs|
    ensures r.Some? ==> r.value < n && bs[r.value].name == h && BlockRoute(bs[r.value]).Some?
    ensures r.Some? ==> forall j :: r.value < j < n ==> bs[j].name != h || BlockRoute(bs[j]).None?
    ensures r.None? ==> forall j :: 0 <= j < n ==> bs[j].name != h || BlockRoute(bs[j]).None?
  {
    if n == 0 then None
    else if bs[n - 1].name == h && BlockRoute(bs[n - 1]).Some? then Some(n - 1)
    else LastDefining(bs, h, n - 1)
  }

  /** A host has a route exactly when some block with addresses names it,
      and the route is the one of the last such block. */
  lemma {:induction false} LastBlockWins(bs: seq<Block>, h: string)
    ensures h in RoutesOf(bs) <==> LastDefining(bs, h, |bs|).Some?
    ensures h in RoutesOf(bs) ==> Some(RoutesOf(bs)[h]) == BlockRoute(bs[LastDefining(bs, h, |bs|).value])
  {
    if bs != [] {
      var front := bs[..|bs| - 1];
      LastBlockWins(front, h);
      var n := |bs| - 1;
      assert LastDefining(bs, h, n) == LastDefining(front, h, n) by {
        SameDefining(bs, front, h, n);
      }
    }
  }

  lemma {:induction false} SameDefining(bs: seq<Block>, front: seq<Block>, h: string, n: nat)
    requires n <= |front| <= |bs| && front == bs[..|front|]
    ensures LastDefining(bs, h, n) == LastDefining(front, h, n)
  {
    if n > 0 {
      assert bs[n - 1] == front[n - 1];
      SameDefining(bs, front, h, n - 1);
    }
  }

  /** Fed by the parser, neither proxy ever runs out of backends: the newer
      one never dies in `resolve_routing_policy` for any requested name, and
      the older one always has an entry to split. */
  lemma ParsedRoutesNeverCrash(config: string, hostname: string, counters: Proxy.Counters)
    ensures !Proxy.ResolveSpec(hostname, RoutesOf(Blocks(config)), counters).0.Died?
    ensures var routes := RoutesOf(Blocks(config));
      hostname in routes ==> LegacyProxy.PickSpec(hostname, routes[hostname], counters).0.Some?
  {
    var routes := RoutesOf(Blocks(config));
    match Proxy.LookupRoute(hostname, routes) {
      case None =>
      case Some(route) =>
        assert route.backends.Listed? && route.backends.urls != [];
    }
  }

  // ---------------------------------------------------------------- round trip

  /** One `proxy_pass http://ADDR;` line. */
  function PassLine(addr: string): string {
    " proxy_pass http://" + addr + ";"
  }

  function PassLines(addrs: seq<string>): string {
    if addrs == [] then [] else PassLine(addrs[0]) + PassLines(addrs[1..])
  }

  /** One `dist_policy POLICY;` line. */
  function PolicyLine(policy: string): string {
    " dist_policy " + policy + ";"
  }

  /** The body of a virtual host: its policy line, then its address lines. */
  function Body(addrs: seq<string>, policy: string): string {
    PolicyLine(policy) + PassLines(addrs)
  }

  /** The configuration text of one virtual host. */
  function Render(name: string, body: string): string {
    "host \"" + name + "\" {" + body + "}"
  }

  /** A host written out with its policy and addresses reads back as exactly
      that route. */
  lemma ConfigRoundTrip(name: string, addrs: seq<string>, policy: string)
    requires name != [] && '"' !in name
    requires policy != [] && forall k :: 0 <= k < |policy| ==> IsPolicyChar(policy[k])
    requires addrs != []
    requires forall i :: 0 <= i < |addrs| ==> addrs[i] != [] && '}' !in addrs[i]
    requires forall i, k :: 0 <= i < |addrs| && 0 <= k < |addrs[i]| ==> IsAddrChar(addrs[i][k])
    ensures RoutesOf(Blocks(Render(name, Body(addrs, policy)))) == map[name := Proxy.Route(Proxy.Listed(addrs), policy)]
  {
    var body := Body(addrs, policy);
    BodyPasses(addrs, policy);
    PolicyLineFound(policy, PassLines(addrs));
    BodyNoClose(addrs, policy);
    BlockParse(name, body);
    var bs := Blocks(Render(name, body));
    assert bs[..0] == [];
  }

  /** The addresses of a rendered body are its address lines'. */
  lemma BodyPasses(addrs: seq<string>, policy: string)
    requires forall k :: 0 <= k < |policy| ==> IsPolicyChar(policy[k])
    requires forall i :: 0 <= i < |addrs| ==> addrs[i] != []
    requires forall i, k :: 0 <= i < |addrs| && 0 <= k < |addrs[i]| ==> IsAddrChar(addrs[i][k])
    ensures PassesFrom(Body(addrs, policy), 0) == addrs
  {
    PassLinesParse(addrs);
    PolicyLineNoPass(policy, PassLines(addrs));
    SkipNoPass(Body(addrs, policy), 0, |PolicyLine(policy)|);
    PassesShift(PolicyLine(policy), PassLines(addrs), 0);
  }

  lemma BodyNoClose(addrs: seq<string>, policy: string)
    requires forall k :: 0 <= k < |policy| ==> IsPolicyChar(policy[k])
    requires forall i :: 0 <= i < |addrs| ==> '}' !in addrs[i]
    ensures '}' !in Body(addrs, policy)
  {
    PassLinesNoClose(addrs);
    forall k | 0 <= k < |policy| ensures policy[k] != '}' {
      assert IsPolicyChar(policy[k]);
    }
  }

  /** The block of one rendered host is found, and nothing after it. */
  lemma BlockParse(name: string, body: string)
    requires name != [] && '"' !in name && '}' !in body
    ensures Blocks(Render(name, body)) == [Block(name, body)]
  {
    var s := Render(name, body);
    var n := |name|;
    assert s[..6] == "host \"";
    assert s[6..6 + n] == name;
    assert s[6 + n..9 + n] == "\" {";
    assert s[9 + n..|s| - 1] == body;
    BlockAtShape(s, name, body);
    assert BlocksFrom(s, |s|) == [];
  }

  /** The block pattern matches a text laid out as a rendered host. */
  lemma BlockAtShape(s: string, name: string, body: string)
    requires name != [] && '"' !in name && '}' !in body
    requires |s| == |name| + |body| + 10
    requires s[..6] == "host \"" && s[6..6 + |name|] == name && s[6 + |name|..9 + |name|] == "\" {"
    requires s[9 + |name|..|s| - 1] == body && s[|s| - 1] == '}'
    ensures BlockAt(s, 0) == Some((Block(name, body), |s|))
  {
    var n := |name|;
    assert s[..4] == s[..6][..4];
    assert s[4] == s[..6][4] && s[5] == s[..6][5];
    assert Proxy.SpacesFrom(s, 5) == 5;
    assert Proxy.SpacesFrom(s, 4) == 5;
    forall k | 6 <= k < 6 + n ensures IsNameChar(s[k]) {
      assert s[k] == s[6..6 + n][k - 6];
    }
    assert s[6 + n] == s[6 + n..9 + n][0];
    RunTo(s, 6, 6 + n, IsNameChar);
    assert s[7 + n] == s[6 + n..9 + n][1];
    assert s[8 + n] == s[6 + n..9 + n][2];
    assert Proxy.SpacesFrom(s, 8 + n) == 8 + n;
    assert Proxy.SpacesFrom(s, 7 + n) == 8 + n;
    FirstClose(s, 9 + n, |s| - 1);
  }

  /** A run over the characters `p` holds for, stopped by one it does not. */
  lemma {:induction false} RunTo(s: string, i: nat, e: nat, p: char -> bool)
    requires i <= e < |s| && !p(s[e])
    requires forall k :: i <= k < e ==> p(s[k])
    ensures RunEnd(s, i, p) == e
    decreases e - i
  {
    if i < e {
      RunTo(s, i + 1, e, p);
    }
  }

  /** The first `}` from `i` is at `d` when none comes before it. */
  lemma {:induction false} FirstClose(s: string, i: nat, d: nat)
    requires i <= d < |s| && s[d] == '}' && '}' !in s[i..d]
    ensures FindFrom(s, "}", i) == Some(d)
    decreases d - i
  {
    assert s[d..d + 1] == "}";
    if i < d {
      assert s[i] == s[i..d][0];
      assert s[i..i + 1] != "}";
      assert s[i + 1..d] == s[i..d][1..];
      FirstClose(s, i + 1, d);
    }
  }

  /** The rendered address lines read back as the addresses, and hold no
      `}`. */
  lemma {:induction false} PassLinesParse(addrs: seq<string>)
    requires forall i :: 0 <= i < |addrs| ==> addrs[i] != []
    requires forall i, k :: 0 <= i < |addrs| && 0 <= k < |addrs[i]| ==> IsAddrChar(addrs[i][k])
    ensures PassesFrom(PassLines(addrs), 0) == addrs
  {
    if addrs != [] {
      PassLinesParse(addrs[1..]);
      LineThenRest(addrs[0], PassLines(addrs[1..]));
    }
  }

  /** The address lines hold no `}` when the addresses do not. */
  lemma {:induction false} PassLinesNoClose(addrs: seq<string>)
    requires forall i :: 0 <= i < |addrs| ==> '}' !in addrs[i]
    ensures '}' !in PassLines(addrs)
  {
    if addrs != [] {
      PassLinesNoClose(addrs[1..]);
      assert '}' !in PassLine(addrs[0]);
    }
  }

  /** An address line is read, then scanning goes on in what follows it. */
  lemma LineThenRest(a: string, rest: string)
    requires a != [] && forall k :: 0 <= k < |a| ==> IsAddrChar(a[k])
    ensures PassesFrom(PassLine(a) + rest, 0) == [a] + PassesFrom(rest, 0)
  {
    PassLineParse(a, rest);
    ParseThenShift(PassLine(a), rest, a);
  }

  /** A line read off the front leaves the scan of what follows it. */
  lemma ParseThenShift(l: string, rest: string, a: string)
    requires PassesFrom(l + rest, 0) == [a] + PassesFrom(l + rest, |l|)
    ensures PassesFrom(l + rest, 0) == [a] + PassesFrom(rest, 0)
  {
    PassesShift(l, rest, 0);
  }

  /** One rendered address line is matched at its second character. */
  lemma PassLineParse(a: string, rest: string)
    requires a != [] && forall k :: 0 <= k < |a| ==> IsAddrChar(a[k])
    ensures PassesFrom(PassLine(a) + rest, 0) == [a] + PassesFrom(PassLine(a) + rest, |PassLine(a)|)
  {
    var t := PassLine(a) + rest;
    var n := |a|;
    assert t[..19] == " proxy_pass http://";
    assert t[19..19 + n] == a;
    assert t[19 + n] == ';';
    PassLineShape(t, a);
    PassesStep(t, 0);
    PassesStep(t, 1);
  }

  lemma PassLineShape(t: string, a: string)
    requires a != [] && forall k :: 0 <= k < |a| ==> IsAddrChar(a[k])
    requires 20 + |a| <= |t| && t[..19] == " proxy_pass http://" && t[19..19 + |a|] == a && t[19 + |a|] == ';'
    ensures PassAt(t, 0).None? && PassAt(t, 1) == Some((a, 20 + |a|))
  {
    assert t[0] == t[..19][0];
    assert t[0..10][0] == t[0];
    KeywordAtOne(t);
    AddressAfterScheme(t, a);
  }

  /** ` proxy_pass http://` has the keyword at 1, one space, then `http://`. */
  lemma KeywordAtOne(t: string)
    requires 19 <= |t| && t[..19] == " proxy_pass http://"
    ensures OccursAt(t, PassKeyword, 1) && Proxy.SpacesFrom(t, 11) == 12
    ensures OccursAt(t, Scheme, 12)
    ensures forall k :: 12 <= k < 19 ==> IsAddrChar(t[k])
  {
    assert t[1..11] == t[..19][1..11];
    assert t[11] == t[..19][11] && t[12] == t[..19][12];
    assert Proxy.SpacesFrom(t, 12) == 12;
    assert t[12..19] == t[..19][12..19];
    forall k | 12 <= k < 19 ensures IsAddrChar(t[k]) {
      assert t[k] == t[12..19][k - 12];
    }
  }

  /** After `http://` the address runs to the `;`. */
  lemma AddressAfterScheme(t: string, a: string)
    requires a != [] && forall k :: 0 <= k < |a| ==> IsAddrChar(a[k])
    requires 20 + |a| <= |t| && t[19..19 + |a|] == a && t[19 + |a|] == ';'
    requires forall k :: 12 <= k < 19 ==> IsAddrChar(t[k])
    requires OccursAt(t, Scheme, 12)
    ensures AddrAt(t, 12) == Some((a, 20 + |a|))
  {
    var n := |a|;
    forall k | 12 <= k < 19 + n ensures IsAddrChar(t[k]) {
      if k >= 19 {
        assert t[k] == t[19..19 + n][k - 19];
      }
    }
    RunTo(t, 12, 19 + n, IsAddrChar);
  }

  /** No address is matched inside a rendered policy line, whatever follows
      it. */
  lemma PolicyLineNoPass(policy: string, rest: string)
    requires forall k :: 0 <= k < |policy| ==> IsPolicyChar(policy[k])
    ensures forall j :: 0 <= j < |PolicyLine(policy)| ==> PassAt(PolicyLine(policy) + rest, j).None?
  {
    var t := PolicyLine(policy) + rest;
    var q := 13 + |policy|;
    assert t[..13] == " dist_policy ";
    assert t[13..q] == policy;
    assert t[q] == ';';
    PolicyShapeNoPass(t, policy);
  }

  lemma PolicyShapeNoPass(t: string, policy: string)
    requires forall k :: 0 <= k < |policy| ==> IsPolicyChar(policy[k])
    requires 14 + |policy| <= |t| && t[..13] == " dist_policy " && t[13..13 + |policy|] == policy
    requires t[13 + |policy|] == ';'
    ensures forall j :: 0 <= j < 14 + |policy| ==> PassAt(t, j).None?
  {
    var q := 13 + |policy|;
    forall j | 0 <= j < 14 + |policy| ensures PassAt(t, j).None? {
      if OccursAt(t, PassKeyword, j) {
        assert t[j..j + 10][0] == 'p' && t[j..j + 10][1] == 'r';
        if j < 13 {
          PrefixChars(t, j);
        } else {
          forall k | j <= k < q ensures !IsSpace(t[k]) {
            assert t[k] == t[13..q][k - 13];
          }
          KeywordNeedsSpace(t, j, q, PassKeyword);
        }
      }
    }
  }

  /** No `pr` starts inside the text ` dist_policy `. */
  lemma PrefixChars(t: string, j: nat)
    requires j < 13 && 14 <= |t| && t[..13] == " dist_policy "
    ensures t[j] != 'p' || t[j + 1] != 'r'
  {
    assert t[j] == t[..13][j] && t[j + 1] == t[..14][j + 1];
    assert t[..14][..13] == t[..13];
  }

  /** A keyword without `;` followed by no space before the next `;` is not
      followed by any space. */
  lemma KeywordNeedsSpace(t: string, j: nat, q: nat, kw: string)
    requires j <= q < |t| && t[q] == ';' && ';' !in kw
    requires forall k :: j <= k < q ==> !IsSpace(t[k])
    ensures OccursAt(t, kw, j) ==> Proxy.SpacesFrom(t, j + |kw|) == j + |kw|
  {
    if OccursAt(t, kw, j) && j + |kw| <= q {
      assert !IsSpace(t[j + |kw|]);
    }
  }

  /** The policy of a rendered policy line is found at its second
      character. */
  lemma PolicyLineFound(policy: string, rest: string)
    requires policy != [] && forall k :: 0 <= k < |policy| ==> IsPolicyChar(policy[k])
    ensures PolicyFrom(PolicyLine(policy) + rest, 0) == Some(1)
    ensures PolicyAt(PolicyLine(policy) + rest, 1) == Some(policy)
  {
    var t := PolicyLine(policy) + rest;
    var n := |policy|;
    assert t[0] == ' ';
    assert !OccursAt(t, "dist_policy", 0) by {
      assert t[0..11][0] == t[0];
    }
    assert t[1..12] == "dist_policy";
    assert t[12] == ' ' && t[13] == policy[0];
    assert Proxy.SpacesFrom(t, 13) == 13;
    assert Proxy.SpacesFrom(t, 12) == 13;
    forall k | 13 <= k < 13 + n ensures IsPolicyChar(t[k]) {
      assert t[k] == policy[k - 13];
    }
    assert t[13 + n] == ';';
    RunTo(t, 13, 13 + n, IsPolicyChar);
    assert t[13..13 + n] == policy;
  }

  /** Positions where no address matches are skipped. */
  lemma {:induction false} SkipNoPass(t: string, i: nat, k: nat)
    requires i <= k <= |t|
    requires forall j :: i <= j < k ==> PassAt(t, j).None?
    ensures PassesFrom(t, i) == PassesFrom(t, k)
    decreases k - i
  {
    if i < k {
      SkipNoPass(t, i + 1, k);
    }
  }

  /** Matching addresses from `|a| + j` in `a + t` is matching them from `j`
      in `t`. */
  lemma PassesShift(a: string, t: string, j: nat)
    requires j <= |t|
    ensures PassesFrom(a + t, |a| + j) == PassesFrom(t, j)
  {
    forall k | j <= k < |t| ensures Shifted(a + t, t, |a|, k) {
      PassShift(a, t, k);
    }
    ShiftedPasses(a + t, t, |a|, j);
  }

  /** The match at `k` in `t` is the match at `off + k` in `u`, moved by
      `off`. */
  predicate Shifted(u: string, t: string, off: nat, k: nat)
    requires k < |t|
  {
    (PassAt(t, k).None? ==> PassAt(u, off + k).None?) &&
    (PassAt(t, k).Some? ==> PassAt(u, off + k) == Some((PassAt(t, k).value.0, off + PassAt(t, k).value.1)))
  }

  lemma {:induction false} ShiftedPasses(u: string, t: string, off: nat, j: nat)
    requires |u| == off + |t| && j <= |t|
    requires forall k :: j <= k < |t| ==> Shifted(u, t, off, k)
    ensures PassesFrom(u, off + j) == PassesFrom(t, j)
    decreases |t| - j
  {
    if j < |t| {
      assert Shifted(u, t, off, j);
      if PassAt(t, j).Some? {
        ShiftedPasses(u, t, off, PassAt(t, j).value.1);
      } else {
        ShiftedPasses(u, t, off, j + 1);
      }
    }
  }

  /** One step of `re.findall`: a match is kept and scanning resumes at its
      end, otherwise at the next position. */
  lemma PassesStep(t: string, i: nat)
    requires i < |t|
    ensures PassAt(t, i).Some? ==> PassesFrom(t, i) == [PassAt(t, i).value.0] + PassesFrom(t, PassAt(t, i).value.1)
    ensures PassAt(t, i).None? ==> PassesFrom(t, i) == PassesFrom(t, i + 1)
  {
  }

  lemma PassShift(a: string, t: string, j: nat)
    requires j < |t|
    ensures PassAt(t, j).None? ==> PassAt(a + t, |a| + j).None?
    ensures PassAt(t, j).Some? ==>
      PassAt(a + t, |a| + j) == Some((PassAt(t, j).value.0, |a| + PassAt(t, j).value.1))
  {
    OccursShift(a, t, j, PassKeyword);
    if OccursAt(t, PassKeyword, j) {
      Proxy.ShiftSpaces(a, t, j + 10);
      var sp := Proxy.SpacesFrom(t, j + 10);
      if sp > j + 10 {
        AddrShift(a, t, sp);
      }
    }
  }

  lemma AddrShift(a: string, t: string, sp: nat)
    requires sp <= |t|
    ensures AddrAt(t, sp).None? ==> AddrAt(a + t, |a| + sp).None?
    ensures AddrAt(t, sp).Some? ==>
      AddrAt(a + t, |a| + sp) == Some((AddrAt(t, sp).value.0, |a| + AddrAt(t, sp).value.1))
  {
    var u := a + t;
    RunShift(a, t, sp, IsAddrChar);
    var e := RunEnd(t, sp, IsAddrChar);
    OccursShift(a, t, sp, Scheme);
    if e < |t| {
      assert u[|a| + e] == t[e];
    }
    assert u[|a|..] == t;
    if sp + 7 <= e {
      assert u[|a| + sp + 7..|a| + e] == u[|a|..][sp + 7..e];
    }
    assert u[|a| + sp..|a| + e] == u[|a|..][sp..e];
  }

  lemma OccursShift(a: string, t: string, j: nat, w: string)
    ensures OccursAt(a + t, w, |a| + j) <==> OccursAt(t, w, j)
  {
    if j + |w| <= |t| {
      assert (a + t)[|a| + j..|a| + j + |w|] == t[j..j + |w|];
    }
  }

  lemma {:induction false} RunShift(a: string, t: string, j: nat, p: char -> bool)
    requires j <= |t|
    ensures RunEnd(a + t, |a| + j, p) == |a| + RunEnd(t, j, p)
    decreases |t| - j
  {
    if j < |t| {
      assert (a + t)[|a| + j] == t[j];
      if p(t[j]) {
        RunShift(a, t, j + 1, p);
      }
    }
  }
}
