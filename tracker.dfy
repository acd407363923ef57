/** The central tracker (daemon/tracker.py): a peer table keyed by "ip:port",
    a channel table whose channels hold a member set and an append-only
    message log, the JSON endpoints that read and update them, and the relay
    that forwards a broadcast to the channel's members.

    The endpoint logic is given twice: as pure functions on a `State` value,
    about which the lemmas below are proved, and as methods of the class
    `Tracker`, which update the tables in place the way the handler does and
    are proved to agree with those functions. */
module Tracker {
  import opened Strings
  import opened Json

  /** A registered peer: the submitted object plus its `ts` stamp. */
  type Record = map<string, Json>

  /** A hashable channel name. `True` and `1` are the same dictionary key in
      Python, as are `False` and `0`. */
  datatype Key = KNone | KStr(s: string) | KInt(i: int)

  /** One logged broadcast `{from, message, ts}`. */
  datatype Entry = Entry(from: Json, message: Json, ts: int)

  datatype Channel = Channel(members: set<string>, log: seq<Entry>)

  /** A status code and the object `build_response` serialises. */
  datatype Reply = Reply(code: int, body: Json)

  /** What the network does with one forwarded POST. */
  datatype Delivery = Delivered | Refused(reason: string)

  datatype State = State(peers: map<string, Record>, order: seq<string>, channels: map<Key, Channel>)

  datatype Outcome = Outcome(state: State, reply: Reply)

  /** A request after the request line and the query string are parsed:
      `route` is the URL path, `query` the `channel` query value, `content`
      the stripped body and `decoded` what `json.loads` makes of it. */
  datatype Request = Request(verb: string, route: string, query: Option<string>, content: string, decoded: Loaded)

  // ---------------------------------------------------------------- identities

  /** `_peer_id(info)`: `f"{info['ip']}:{info['port']}"`, raising as the two
      subscripts do. */
  function PeerId(info: Json): (r: Result<string>)
    ensures r.Ok? <==> info.JObj? && "ip" in info.fields && "port" in info.fields
    ensures info.JObj? && "ip" !in info.fields ==> r == Err(KeyError("ip"))
    ensures info.JObj? && "ip" in info.fields && "port" !in info.fields ==> r == Err(KeyError("port"))
    ensures r.Ok? ==> r.value == ForwardId(info.fields)
  {
    match Subscript(info, "ip")
    case Err(f) => Err(f)
    case Ok(ip) =>
      match Subscript(info, "port")
      case Err(f) => Err(f)
      case Ok(port) => Ok(PyStr(ip) + ":" + PyStr(port))
  }

  /** The id the relay prints for a record: `f"{p.get('ip')}:{p.get('port')}"`. */
  function ForwardId(p: Record): string {
    PyStr(Get(p, "ip")) + ":" + PyStr(Get(p, "port"))
  }

  /** The stored record: `{**obj, 'ts': now}`. */
  function Stamp(obj: Record, now: int): (r: Record)
    ensures r.Keys == obj.Keys + {"ts"} && r["ts"] == JInt(now)
    ensures forall k :: k in obj && k != "ts" ==> r[k] == obj[k]
  {
    obj["ts" := JInt(now)]
  }

  /** Using a JSON value as a dictionary key: lists and dicts are unhashable. */
  function ChannelKey(j: Json): (r: Result<Key>)
    ensures r.Err? <==> j.JArr? || j.JObj?
    ensures j.JStr? ==> r == Ok(KStr(j.s))
    ensures j.JBool? ==> r == Ok(KInt(if j.b then 1 else 0))
  {
    match j
    case JNull => Ok(KNone)
    case JBool(b) => Ok(KInt(if b then 1 else 0))
    case JInt(i) => Ok(KInt(i))
    case JStr(s) => Ok(KStr(s))
    case JArr(_) => Err(TypeError("unhashable type: 'list'"))
    case JObj(_) => Err(TypeError("unhashable type: 'dict'"))
  }

  // ---------------------------------------------------------------- replies

  function ErrorReply(code: int, msg: string): Reply {
    Reply(code, JObj(map["error" := JStr(msg)]))
  }

  function InvalidJson(detail: string): Reply {
    Reply(400, JObj(map["error" := JStr("invalid json"), "detail" := JStr(detail)]))
  }

  /** The catch-all handler: `500 {'error': str(e)}`. */
  function ServerError(f: Fault): Reply {
    ErrorReply(500, FaultText(f))
  }

  function EntryJson(e: Entry): Json {
    JObj(map["from" := e.from, "message" := e.message, "ts" := JInt(e.ts)])
  }

  function LogJson(log: seq<Entry>): (r: Json)
    ensures r.JArr? && |r.items| == |log|
    ensures forall i :: 0 <= i < |log| ==> r.items[i] == EntryJson(log[i])
  {
    JArr(seq(|log|, i requires 0 <= i < |log| => EntryJson(log[i])))
  }

  function RecordsJson(rs: seq<Record>): (r: Json)
    ensures r.JArr? && |r.items| == |rs|
    ensures forall i :: 0 <= i < |rs| ==> r.items[i] == JObj(rs[i])
  {
    JArr(seq(|rs|, i requires 0 <= i < |rs| => JObj(rs[i])))
  }

  // ---------------------------------------------------------------- validity

  predicate Distinct(l: seq<string>) {
    forall i, j :: 0 <= i < j < |l| ==> l[i] != l[j]
  }

  /** `l` is one iteration order of the set `s`. */
  predicate Enumerates(l: seq<string>, s: set<string>) {
    Distinct(l) && (forall x :: x in l ==> x in s) && (forall x :: x in s ==> x in l)
  }

  /** The peer table's insertion order lists each key once, and every record
      sits under the id the relay computes for it. */
  predicate ValidState(s: State) {
    Distinct(s.order) &&
    (forall p :: p in s.order ==> p in s.peers) &&
    (forall p :: p in s.peers ==> p in s.order) &&
    (forall p :: p in s.peers ==> ForwardId(s.peers[p]) == p && "ts" in s.peers[p])
  }

  // ---------------------------------------------------------------- listings

  /** `[PEERS[p] for p in members if p in PEERS]`, iterating the member set in
      the order `listing`. */
  function Registered(peers: map<string, Record>, members: set<string>, listing: seq<string>): (r: seq<string>)
    ensures forall i :: 0 <= i < |r| ==> r[i] in peers && r[i] in members && r[i] in listing
    decreases |listing|
  {
    if listing == [] then []
    else
      var rest := Registered(peers, members, listing[..|listing| - 1]);
      var p := listing[|listing| - 1];
      if p in members && p in peers then rest + [p] else rest
  }

  /** Nobody is listed from an empty member set. */
  lemma {:induction false} RegisteredNone(peers: map<string, Record>, listing: seq<string>)
    ensures Registered(peers, {}, listing) == []
    decreases |listing|
  {
    if listing != [] {
      RegisteredNone(peers, listing[..|listing| - 1]);
    }
  }

  function RecordsOf(peers: map<string, Record>, ids: seq<string>): (r: seq<Record>)
    requires forall i :: 0 <= i < |ids| ==> ids[i] in peers
    ensures |r| == |ids| && forall i :: 0 <= i < |ids| ==> r[i] == peers[ids[i]]
  {
    seq(|ids|, i requires 0 <= i < |ids| => peers[ids[i]])
  }

  /** Over a real iteration of the member set, the listed peers are exactly
      the registered members, each once. */
  lemma {:induction false} RegisteredExactly(peers: map<string, Record>, members: set<string>, listing: seq<string>)
    requires Distinct(listing)
    ensures Distinct(Registered(peers, members, listing))
    ensures forall p :: p in Registered(peers, members, listing) <==> p in listing && p in members && p in peers
  {
    if listing != [] {
      var init := listing[..|listing| - 1];
      assert Distinct(init);
      RegisteredExactly(peers, members, init);
      var p := listing[|listing| - 1];
      assert p !in init;
      forall x ensures x in listing <==> x in init || x == p {
        assert listing == init + [p];
      }
    }
  }

  // ---------------------------------------------------------------- relay

  /** The relay skips the sender: `exclude_pid and pid == exclude_pid`. */
  predicate Skipped(p: Record, exclude: string) {
    exclude != "" && ForwardId(p) == exclude
  }

  /** The records the relay attempts, in input order. */
  function Targets(ps: seq<Record>, exclude: string): (r: seq<Record>)
    ensures |r| <= |ps|
    ensures forall i :: 0 <= i < |r| ==> !Skipped(r[i], exclude)
    decreases |ps|
  {
    if ps == [] then []
    else
      var rest := Targets(ps[..|ps| - 1], exclude);
      var p := ps[|ps| - 1];
      if Skipped(p, exclude) then rest else rest + [p]
  }

  function Success(pid: string): Json {
    JObj(map["peer" := JStr(pid), "ok" := JBool(true)])
  }

  function Failure(pid: string, why: string): Json {
    JObj(map["peer" := JStr(pid), "ok" := JBool(false), "error" := JStr(why)])
  }

  /** One POST to a peer: the port conversion and the send are inside the
      `try`, so either failure becomes an `ok: False` result. */
  function Attempt(p: Record, net: (Json, int) -> Delivery): (r: Json)
    ensures r.JObj? && "peer" in r.fields && r.fields["peer"] == JStr(ForwardId(p))
    ensures "ok" in r.fields && r.fields["ok"] == JBool(true) <==>
      PyIntOf(Get(p, "port")).Ok? && net(Get(p, "ip"), PyIntOf(Get(p, "port")).value) == Delivered
  {
    var pid := ForwardId(p);
    match PyIntOf(Get(p, "port"))
    case Err(f) => Failure(pid, FaultText(f))
    case Ok(port) =>
      match net(Get(p, "ip"), port)
      case Delivered => Success(pid)
      case Refused(why) => Failure(pid, why)
  }

  /** `_forward_to_peers`: one result per attempted record, in order. */
  function ForwardSpec(ps: seq<Record>, exclude: string, net: (Json, int) -> Delivery): seq<Json> {
    Attempts(Targets(ps, exclude), net)
  }

  function Attempts(t: seq<Record>, net: (Json, int) -> Delivery): seq<Json> {
    Mapped(t, p => Attempt(p, net))
  }

  function Mapped<A, B>(t: seq<A>, f: A -> B): (r: seq<B>)
    ensures |r| == |t| && forall k :: 0 <= k < |t| ==> r[k] == f(t[k])
  {
    seq(|t|, k requires 0 <= k < |t| => f(t[k]))
  }

  /** The loop of `_forward_to_peers`. */
  method Forward(ps: seq<Record>, exclude: string, net: (Json, int) -> Delivery) returns (results: seq<Json>)
    ensures results == ForwardSpec(ps, exclude, net)
  {
    results := [];
    var i := 0;
    while i < |ps|
      invariant 0 <= i <= |ps|
      invariant results == ForwardSpec(ps[..i], exclude, net)
    {
      var p := ps[i];
      ForwardSpecStep(ps, i, exclude, net);
      if !(exclude != "" && ForwardId(p) == exclude) {
        var pid := ForwardId(p);
        var r;
        match PyIntOf(Get(p, "port")) {
          case Err(f) =>
            r := Failure(pid, FaultText(f));
          case Ok(port) =>
            match net(Get(p, "ip"), port) {
              case Delivered => r := Success(pid);
              case Refused(why) => r := Failure(pid, why);
            }
        }
        assert r == Attempt(p, net);
        results := results + [r];
      }
      i := i + 1;
    }
    assert ps[..i] == ps;
  }

  /** One more record adds at most its own attempt to the relay's results. */
  lemma ForwardSpecStep(ps: seq<Record>, i: nat, exclude: string, net: (Json, int) -> Delivery)
    requires i < |ps|
    ensures ForwardSpec(ps[..i + 1], exclude, net) ==
      ForwardSpec(ps[..i], exclude, net) + (if Skipped(ps[i], exclude) then [] else [Attempt(ps[i], net)])
  {
    TargetsStep(ps, i, exclude);
    if !Skipped(ps[i], exclude) {
      AttemptsAppend(Targets(ps[..i], exclude), ps[i], net);
    }
  }

  lemma TargetsStep(ps: seq<Record>, i: nat, exclude: string)
    requires i < |ps|
    ensures Targets(ps[..i + 1], exclude) ==
      Targets(ps[..i], exclude) + (if Skipped(ps[i], exclude) then [] else [ps[i]])
  {
    var a := ps[..i + 1];
    assert a[..|a| - 1] == ps[..i] && a[|a| - 1] == ps[i];
  }

  lemma AttemptsAppend(t: seq<Record>, p: Record, net: (Json, int) -> Delivery)
    ensures Attempts(t + [p], net) == Attempts(t, net) + [Attempt(p, net)]
  {
    MappedAppend(t, p, q => Attempt(q, net));
  }

  lemma MappedAppend<A, B>(t: seq<A>, p: A, f: A -> B)
    ensures Mapped(t + [p], f) == Mapped(t, f) + [f(p)]
  {
    var a := Mapped(t + [p], f);
    var b := Mapped(t, f) + [f(p)];
    forall k | 0 <= k < |a| ensures a[k] == b[k] {
      assert (t + [p])[k] == if k < |t| then t[k] else p;
    }
  }

  /** The attempted records are the input with the skipped ones removed: the
      filter distributes over concatenation, so input order is kept. */
  lemma {:induction false} TargetsConcat(a: seq<Record>, b: seq<Record>, exclude: string)
    ensures Targets(a + b, exclude) == Targets(a, exclude) + Targets(b, exclude)
    decreases |b|
  {
    if b == [] {
      assert a + b == a;
    } else {
      var init := b[..|b| - 1];
      assert (a + b)[..|a + b| - 1] == a + init;
      TargetsConcat(a, init, exclude);
    }
  }

  /** A record is attempted iff it is in the input and is not the sender. */
  lemma {:induction false} TargetsMembers(ps: seq<Record>, exclude: string)
    ensures forall p :: p in Targets(ps, exclude) <==> p in ps && !Skipped(p, exclude)
    decreases |ps|
  {
    if ps != [] {
      var init := ps[..|ps| - 1];
      TargetsMembers(init, exclude);
      assert ps == init + [ps[|ps| - 1]];
    }
  }

  /** Exactly one result per attempted record, in order; each result names its
      record and says `ok` exactly when that record's own send succeeded,
      whatever happened to the others. */
  lemma ForwardResults(ps: seq<Record>, exclude: string, net: (Json, int) -> Delivery)
    ensures |ForwardSpec(ps, exclude, net)| == |Targets(ps, exclude)|
    ensures forall i :: 0 <= i < |Targets(ps, exclude)| ==>
      ForwardSpec(ps, exclude, net)[i] == Attempt(Targets(ps, exclude)[i], net)
    ensures forall r :: r in ForwardSpec(ps, exclude, net) ==>
      (r.JObj? && "peer" in r.fields && r.fields["peer"] != JStr(exclude)) || exclude == ""
  {
    var t := Targets(ps, exclude);
    forall r | r in ForwardSpec(ps, exclude, net)
      ensures (r.JObj? && "peer" in r.fields && r.fields["peer"] != JStr(exclude)) || exclude == ""
    {
      var i :| 0 <= i < |t| && ForwardSpec(ps, exclude, net)[i] == r;
      assert !Skipped(t[i], exclude);
    }
  }

  // ---------------------------------------------------------------- endpoints

  /** POST /submit-info (daemon/tracker.py:85-94). */
  function SubmitInfoStep(s: State, content: string, decoded: Loaded, now: int): Outcome {
    match LoadBody(content, decoded)
    case Malformed(d) => Outcome(s, InvalidJson(d))
    case Loaded(obj) =>
      match PeerId(obj)
      case Err(f) => Outcome(s, ServerError(f))
      case Ok(pid) =>
        var peers := s.peers[pid := Stamp(obj.fields, now)];
        var order := if pid in s.peers then s.order else s.order + [pid];
        Outcome(State(peers, order, s.channels),
          Reply(200, JObj(map["status" := JStr("ok"), "peers_count" := JInt(|peers|)])))
  }

  /** GET /get-list, with and without `?channel=` (daemon/tracker.py:96-105).
      `listing` is the order in which the member set is iterated. */
  function GetListReply(s: State, query: Option<string>, listing: seq<string>): Reply {
    if query.Some? && query.value != "" then
      var ch := if KStr(query.value) in s.channels then s.channels[KStr(query.value)] else Channel({}, []);
      var ids := Registered(s.peers, ch.members, listing);
      Reply(200, JObj(map["channel" := JStr(query.value),
                          "peers" := RecordsJson(RecordsOf(s.peers, ids)),
                          "messages" := LogJson(ch.log)]))
    else
      Reply(200, JObj(map["peers" := AllPeers(s)]))
  }

  /** `list(PEERS.values())`: every record in insertion order. */
  function AllPeers(s: State): Json {
    JArr(seq(|s.order|, i requires 0 <= i < |s.order| => if s.order[i] in s.peers then JObj(s.peers[s.order[i]]) else JNull))
  }

  /** `dict.get` on a request body, raising for a non-object. */
  function Field(obj: Json, key: string): Result<Json> {
    GetAttr(obj, key)
  }

  function AddMember(s: State, k: Key, pid: string): State {
    var ch := if k in s.channels then s.channels[k] else Channel({}, []);
    State(s.peers, s.order, s.channels[k := Channel(ch.members + {pid}, ch.log)])
  }

  /** POST /add-list (daemon/tracker.py:107-121). */
  function AddListStep(s: State, content: string, decoded: Loaded): Outcome {
    match LoadBody(content, decoded)
    case Malformed(d) => Outcome(s, InvalidJson(d))
    case Loaded(obj) =>
      if !obj.JObj? then Outcome(s, ServerError(GetAttr(obj, "channel").fault))
      else
        var channel := Get(obj.fields, "channel");
        var peer := Get(obj.fields, "peer");
        if !Truthy(channel) || !Truthy(peer) then Outcome(s, ErrorReply(400, "missing channel or peer"))
        else match PeerId(peer)
          case Err(f) => Outcome(s, ServerError(f))
          case Ok(pid) =>
            match ChannelKey(channel)
            case Err(f) => Outcome(s, ServerError(f))
            case Ok(k) => Outcome(AddMember(s, k, pid), Reply(200, JObj(map["status" := JStr("ok")])))
  }

  /** The state after a non-private broadcast into channel `k`. */
  function Posted(s: State, k: Key, pid: string, e: Entry): State {
    var ch := if k in s.channels then s.channels[k] else Channel({}, []);
    State(s.peers, s.order, s.channels[k := Channel(ch.members + {pid}, ch.log + [e])])
  }

  function BroadcastReply(peers: seq<Record>, forwarded: seq<Json>): Reply {
    Reply(200, JObj(map["status" := JStr("ok"), "peers" := RecordsJson(peers), "forwarded" := JArr(forwarded)]))
  }

  /** POST /broadcast-peer (daemon/tracker.py:123-156). `listing` is the
      iteration order of the channel's members after the sender is added. */
  function BroadcastStep(s: State, content: string, decoded: Loaded, now: int,
                     net: (Json, int) -> Delivery, listing: seq<string>): Outcome {
    match LoadBody(content, decoded)
    case Malformed(d) => Outcome(s, InvalidJson(d))
    case Loaded(obj) =>
      if !obj.JObj? then Outcome(s, ServerError(GetAttr(obj, "from").fault))
      else
        var from := Get(obj.fields, "from");
        var channel := Get(obj.fields, "channel");
        var message := Get(obj.fields, "message");
        if !Truthy(from) || !Truthy(channel) || message == JNull then Outcome(s, ErrorReply(400, "missing fields"))
        else match PeerId(from)
          case Err(f) => Outcome(s, ServerError(f))
          case Ok(pid) =>
            var e := Entry(from, message, now);
            if channel == JStr("private") then Outcome(s, BroadcastReply([], []))
            else match ChannelKey(channel)
              case Err(f) => Outcome(s, ServerError(f))
              case Ok(k) =>
                var s' := Posted(s, k, pid, e);
                var ids := Registered(s'.peers, s'.channels[k].members, listing);
                var peers := RecordsOf(s'.peers, ids);
                Outcome(s', BroadcastReply(peers, ForwardSpec(peers, pid, net)))
  }

  /** POST /connect-peer (daemon/tracker.py:158-172). */
  function ConnectReply(s: State, content: string, decoded: Loaded): Reply {
    match LoadBody(content, decoded)
    case Malformed(d) => InvalidJson(d)
    case Loaded(obj) =>
      if !obj.JObj? then ServerError(GetAttr(obj, "to").fault)
      else
        var to := Get(obj.fields, "to");
        if !Truthy(to) then ErrorReply(400, "missing to")
        else match PeerId(to)
          case Err(f) => ServerError(f)
          case Ok(pid) =>
            var info := if pid in s.peers then JObj(s.peers[pid]) else JNull;
            if !Truthy(info) then ErrorReply(404, "peer not found")
            else Reply(200, JObj(map["peer" := info]))
  }

  /** `handle_http`'s dispatch: OPTIONS first, then the five routes, then 404. */
  function Handle(s: State, rq: Request, now: int, net: (Json, int) -> Delivery, listing: seq<string>): Outcome {
    if rq.verb == "OPTIONS" then Outcome(s, Reply(200, JObj(map[])))
    else if rq.verb == "POST" && rq.route == "/submit-info" then SubmitInfoStep(s, rq.content, rq.decoded, now)
    else if rq.verb == "GET" && rq.route == "/get-list" then Outcome(s, GetListReply(s, rq.query, listing))
    else if rq.verb == "POST" && rq.route == "/add-list" then AddListStep(s, rq.content, rq.decoded)
    else if rq.verb == "POST" && rq.route == "/broadcast-peer" then BroadcastStep(s, rq.content, rq.decoded, now, net, listing)
    else if rq.verb == "POST" && rq.route == "/connect-peer" then Outcome(s, ConnectReply(s, rq.content, rq.decoded))
    else Outcome(s, ErrorReply(404, "not found"))
  }

  // ---------------------------------------------------------------- properties

  /** Registering stores the stamped record under "ip:port". Re-registering
      an id overwrites it in place: the count and the order stay as they
      were, and no other record changes. */
  lemma RegisterOverwrites(s: State, content: string, obj: Json, now: int)
    requires content != [] && PeerId(obj).Ok?
    ensures var o := SubmitInfoStep(s, content, Loaded(obj), now);
      var pid := PeerId(obj).value;
      o.state.peers == s.peers[pid := Stamp(obj.fields, now)] &&
      o.state.channels == s.channels &&
      o.reply.code == 200 &&
      (pid in s.peers ==> |o.state.peers| == |s.peers| && o.state.order == s.order) &&
      (pid !in s.peers ==> |o.state.peers| == |s.peers| + 1 && o.state.order == s.order + [pid]) &&
      (forall q :: q in s.peers && q != pid ==> o.state.peers[q] == s.peers[q])
  {
  }

  /** A body without `ip` or `port` ends in the catch-all 500 and changes
      nothing. */
  lemma RegisterMissingField(s: State, content: string, obj: Json, now: int)
    requires content != [] && obj.JObj? && ("ip" !in obj.fields || "port" !in obj.fields)
    ensures SubmitInfoStep(s, content, Loaded(obj), now).state == s
    ensures SubmitInfoStep(s, content, Loaded(obj), now).reply ==
      ErrorReply(500, if "ip" !in obj.fields then "'ip'" else "'port'")
  {
    assert FaultText(KeyError("ip")) == "'ip'";
    assert FaultText(KeyError("port")) == "'port'";
  }

  /** Registration keeps the peer table's order and ids consistent. */
  lemma SubmitValid(s: State, content: string, decoded: Loaded, now: int)
    requires ValidState(s)
    ensures ValidState(SubmitInfoStep(s, content, decoded, now).state)
  {
    var l := LoadBody(content, decoded);
    if l.Loaded? && PeerId(l.value).Ok? {
      var obj := l.value;
      var pid := PeerId(obj).value;
      var t := SubmitInfoStep(s, content, decoded, now).state;
      assert t.peers == s.peers[pid := Stamp(obj.fields, now)];
      assert ForwardId(Stamp(obj.fields, now)) == ForwardId(obj.fields);
      if pid !in s.peers {
        assert t.order == s.order + [pid];
        forall i, j | 0 <= i < j < |t.order| ensures t.order[i] != t.order[j] {
          if j == |s.order| {
            assert s.order[i] in s.peers;
          }
        }
      } else {
        assert t.order == s.order;
      }
    }
  }

  /** Every step keeps the peer table's order and ids consistent: only
      registration touches the peer table. */
  lemma HandleValid(s: State, rq: Request, now: int, net: (Json, int) -> Delivery, listing: seq<string>)
    requires ValidState(s)
    ensures ValidState(Handle(s, rq, now, net, listing).state)
  {
    var t := Handle(s, rq, now, net, listing).state;
    if rq.verb != "OPTIONS" && rq.verb == "POST" && rq.route == "/submit-info" {
      SubmitValid(s, rq.content, rq.decoded, now);
    } else {
      assert t.peers == s.peers && t.order == s.order;
    }
  }

  /** OPTIONS is answered `200 {}` on every route and changes nothing; an
      unknown method/route pair is `404`. */
  lemma OptionsAndUnknown(s: State, rq: Request, now: int, net: (Json, int) -> Delivery, listing: seq<string>)
    ensures rq.verb == "OPTIONS" ==> Handle(s, rq, now, net, listing) == Outcome(s, Reply(200, JObj(map[])))
    ensures rq.verb != "OPTIONS" && !(rq.verb == "POST" && rq.route in {"/submit-info", "/add-list", "/broadcast-peer", "/connect-peer"})
            && !(rq.verb == "GET" && rq.route == "/get-list")
        ==> Handle(s, rq, now, net, listing) == Outcome(s, ErrorReply(404, "not found"))
  {
  }

  /** Invalid JSON on any POST route is `400 invalid json` with the decoder's
      message, and changes nothing. */
  lemma InvalidJsonRejected(s: State, rq: Request, now: int, net: (Json, int) -> Delivery, listing: seq<string>)
    requires rq.verb == "POST" && rq.content != [] && rq.decoded.Malformed?
    requires rq.route in {"/submit-info", "/add-list", "/broadcast-peer", "/connect-peer"}
    ensures Handle(s, rq, now, net, listing) == Outcome(s, InvalidJson(rq.decoded.detail))
  {
  }

  /** /add-list: a missing channel or peer is `400` with no change; an add
      creates the channel when needed, inserts the id and leaves the log
      alone; repeating it changes nothing more. */
  lemma AddListSpec(s: State, content: string, decoded: Loaded)
    ensures var o := AddListStep(s, content, decoded);
      var l := LoadBody(content, decoded);
      (l.Loaded? && l.value.JObj? &&
        (!Truthy(Get(l.value.fields, "channel")) || !Truthy(Get(l.value.fields, "peer"))) ==>
        o == Outcome(s, ErrorReply(400, "missing channel or peer"))) &&
      (o.reply.code == 200 ==>
        var k := ChannelKey(Get(l.value.fields, "channel")).value;
        var pid := PeerId(Get(l.value.fields, "peer")).value;
        o.state.peers == s.peers && k in o.state.channels &&
        o.state.channels[k].members == (if k in s.channels then s.channels[k].members else {}) + {pid} &&
        o.state.channels[k].log == (if k in s.channels then s.channels[k].log else []) &&
        (forall k' :: k' in s.channels && k' != k ==> o.state.channels[k'] == s.channels[k'])) &&
      AddListStep(o.state, content, decoded) == Outcome(o.state, o.reply)
  {
    var o := AddListStep(s, content, decoded);
    var l := LoadBody(content, decoded);
    if o.reply.code == 200 {
      var k := ChannelKey(Get(l.value.fields, "channel")).value;
      var pid := PeerId(Get(l.value.fields, "peer")).value;
      assert o.state == AddMember(s, k, pid);
      assert AddMember(o.state, k, pid) == o.state;
    }
  }

  /** A broadcast on "private" stores and forwards nothing. */
  lemma PrivateBroadcast(s: State, content: string, obj: Json, now: int, net: (Json, int) -> Delivery, listing: seq<string>)
    requires content != [] && obj.JObj? && Get(obj.fields, "channel") == JStr("private")
    requires Truthy(Get(obj.fields, "from")) && Get(obj.fields, "message") != JNull
    requires PeerId(Get(obj.fields, "from")).Ok?
    ensures BroadcastStep(s, content, Loaded(obj), now, net, listing) == Outcome(s, BroadcastReply([], []))
  {
  }

  /** A public broadcast appends exactly one entry at the end of the channel's
      log, adds the sender to the members, touches no other channel, and
      reports the registered members and one relay result per member other
      than the sender. An empty-string message is accepted. */
  lemma PublicBroadcast(s: State, content: string, obj: Json, now: int, net: (Json, int) -> Delivery, listing: seq<string>)
    requires content != [] && obj.JObj?
    requires var c := Get(obj.fields, "channel"); Truthy(c) && c != JStr("private") && ChannelKey(c).Ok?
    requires Truthy(Get(obj.fields, "from")) && Get(obj.fields, "message") != JNull
    requires PeerId(Get(obj.fields, "from")).Ok?
    ensures var o := BroadcastStep(s, content, Loaded(obj), now, net, listing);
      var k := ChannelKey(Get(obj.fields, "channel")).value;
      var pid := PeerId(Get(obj.fields, "from")).value;
      var old_ := if k in s.channels then s.channels[k] else Channel({}, []);
      var e := Entry(Get(obj.fields, "from"), Get(obj.fields, "message"), now);
      o.reply.code == 200 && o.state.peers == s.peers && o.state.order == s.order &&
      o.state.channels == s.channels[k := Channel(old_.members + {pid}, old_.log + [e])]
  {
  }

  /** The broadcast reply over a real iteration of the members lists each
      registered member once, the sender included when registered. */
  lemma BroadcastPeers(s: State, k: Key, pid: string, e: Entry, listing: seq<string>)
    requires Enumerates(listing, Posted(s, k, pid, e).channels[k].members)
    ensures var ids := Registered(s.peers, Posted(s, k, pid, e).channels[k].members, listing);
      Distinct(ids) &&
      (forall p :: p in ids <==> p in s.peers && p in Posted(s, k, pid, e).channels[k].members) &&
      (pid in s.peers ==> pid in ids)
  {
    RegisteredExactly(s.peers, Posted(s, k, pid, e).channels[k].members, listing);
  }

  /** /get-list with a channel lists exactly its registered members and its
      log; an unknown channel gives empty lists. */
  lemma GetListChannel(s: State, c: string, listing: seq<string>)
    requires c != []
    requires KStr(c) in s.channels ==> Enumerates(listing, s.channels[KStr(c)].members)
    ensures var r := GetListReply(s, Some(c), listing);
      r.code == 200 && r.body.JObj? && r.body.fields["channel"] == JStr(c) &&
      (KStr(c) !in s.channels ==> r.body.fields["peers"] == JArr([]) && r.body.fields["messages"] == JArr([])) &&
      (KStr(c) in s.channels ==> r.body.fields["messages"] == LogJson(s.channels[KStr(c)].log))
    ensures KStr(c) in s.channels ==>
      var ids := Registered(s.peers, s.channels[KStr(c)].members, listing);
      Distinct(ids) && forall p :: p in ids <==> p in s.peers && p in s.channels[KStr(c)].members
  {
    if KStr(c) in s.channels {
      RegisteredExactly(s.peers, s.channels[KStr(c)].members, listing);
    } else {
      RegisteredNone(s.peers, listing);
    }
  }

  /** /get-list without a channel lists every registered record once, in
      registration order. */
  lemma GetListAll(s: State, query: Option<string>, listing: seq<string>)
    requires ValidState(s) && (query.None? || query.value == "")
    ensures var r := GetListReply(s, query, listing);
      r.code == 200 && r.body.JObj? && "peers" in r.body.fields && r.body.fields["peers"].JArr? &&
      |r.body.fields["peers"].items| == |s.order| &&
      (forall i :: 0 <= i < |s.order| ==> r.body.fields["peers"].items[i] == JObj(s.peers[s.order[i]])) &&
      Enumerates(s.order, s.peers.Keys)
  {
  }

  /** /connect-peer returns the stored record, 404 for an unknown id, and
      never changes the state. */
  lemma ConnectSpec(s: State, content: string, obj: Json)
    requires ValidState(s) && content != [] && obj.JObj?
    requires Truthy(Get(obj.fields, "to")) && PeerId(Get(obj.fields, "to")).Ok?
    ensures var pid := PeerId(Get(obj.fields, "to")).value;
      ConnectReply(s, content, Loaded(obj)) ==
        if pid in s.peers then Reply(200, JObj(map["peer" := JObj(s.peers[pid])]))
        else ErrorReply(404, "peer not found")
  {
    var pid := PeerId(Get(obj.fields, "to")).value;
    if pid in s.peers {
      assert "ts" in s.peers[pid];
    }
  }

  // ---------------------------------------------------------------- the server

  /** An iteration order of `members` (Python's set order is unspecified). */
  method Enumerate(members: set<string>) returns (l: seq<string>)
    ensures Enumerates(l, members)
  {
    l := [];
    var rest := members;
    while rest != {}
      invariant Distinct(l)
      invariant forall x :: x in l ==> x !in rest
      invariant forall x :: x in members <==> x in l || x in rest
      decreases |rest|
    {
      var x :| x in rest;
      l := l + [x];
      rest := rest - {x};
    }
  }

  /** The tracker's tables, `PEERS` (with its insertion order) and
      `CHANNELS`, updated in place by its handler. */
  class Registry {
    var peers: map<string, Record>
    var order: seq<string>
    var channels: map<Key, Channel>

    function Abs(): State
      reads this
    {
      State(peers, order, channels)
    }

    ghost predicate Valid()
      reads this
    {
      ValidState(Abs())
    }

    constructor ()
      ensures Valid() && Abs() == State(map[], [], map[])
    {
      peers := map[];
      order := [];
      channels := map[];
    }

    /** POST /submit-info. */
    method SubmitInfo(content: string, decoded: Loaded, now: int) returns (reply: Reply)
      modifies this
      ensures Abs() == SubmitInfoStep(old(Abs()), content, decoded, now).state
      ensures reply == SubmitInfoStep(old(Abs()), content, decoded, now).reply
    {
      var l := LoadBody(content, decoded);
      match l
      case Malformed(d) =>
        reply := InvalidJson(d);
      case Loaded(obj) =>
        match PeerId(obj) {
          case Err(f) =>
            reply := ServerError(f);
          case Ok(pid) =>
            if pid !in peers {
              order := order + [pid];
            }
            peers := peers[pid := Stamp(obj.fields, now)];
            reply := Reply(200, JObj(map["status" := JStr("ok"), "peers_count" := JInt(|peers|)]));
        }
    }

    /** GET /get-list; the member set is iterated in the order `listing`. */
    method GetList(query: Option<string>) returns (reply: Reply, ghost listing: seq<string>)
      ensures query.Some? && query.value != "" && KStr(query.value) in channels ==>
        Enumerates(listing, channels[KStr(query.value)].members)
      ensures reply == GetListReply(Abs(), query, listing)
    {
      listing := [];
      if query.Some? && query.value != "" {
        var ch := if KStr(query.value) in channels then channels[KStr(query.value)] else Channel({}, []);
        var l := Enumerate(ch.members);
        listing := if KStr(query.value) in channels then l else [];
        var ids := Registered(peers, ch.members, l);
        if KStr(query.value) !in channels {
          RegisteredNone(peers, l);
        }
        reply := Reply(200, JObj(map["channel" := JStr(query.value),
                                     "peers" := RecordsJson(RecordsOf(peers, ids)),
                                     "messages" := LogJson(ch.log)]));
      } else {
        reply := Reply(200, JObj(map["peers" := AllPeers(Abs())]));
      }
    }

    /** POST /add-list: `setdefault` then `add`. */
    method AddList(content: string, decoded: Loaded) returns (reply: Reply)
      modifies this
      ensures Abs() == AddListStep(old(Abs()), content, decoded).state
      ensures reply == AddListStep(old(Abs()), content, decoded).reply
    {
      var l := LoadBody(content, decoded);
      if l.Malformed? {
        return InvalidJson(l.detail);
      }
      var obj := l.value;
      if !obj.JObj? {
        return ServerError(GetAttr(obj, "channel").fault);
      }
      var channel := Get(obj.fields, "channel");
      var peer := Get(obj.fields, "peer");
      if !Truthy(channel) || !Truthy(peer) {
        return ErrorReply(400, "missing channel or peer");
      }
      var pid := PeerId(peer);
      if pid.Err? {
        return ServerError(pid.fault);
      }
      var k := ChannelKey(channel);
      if k.Err? {
        return ServerError(k.fault);
      }
      if k.value !in channels {
        channels := channels[k.value := Channel({}, [])];
      }
      var ch := channels[k.value];
      channels := channels[k.value := Channel(ch.members + {pid.value}, ch.log)];
      reply := Reply(200, JObj(map["status" := JStr("ok")]));
    }

    /** POST /broadcast-peer: append, add the sender, list, relay. */
    method Broadcast(content: string, decoded: Loaded, now: int, net: (Json, int) -> Delivery)
      returns (reply: Reply, ghost listing: seq<string>)
      modifies this
      ensures Abs() == BroadcastStep(old(Abs()), content, decoded, now, net, listing).state
      ensures reply == BroadcastStep(old(Abs()), content, decoded, now, net, listing).reply
      ensures forall k :: k in channels && (k !in old(channels) || channels[k] != old(channels)[k]) ==>
        Enumerates(listing, channels[k].members)
    {
      listing := [];
      var l := LoadBody(content, decoded);
      if l.Malformed? {
        return InvalidJson(l.detail), listing;
      }
      var obj := l.value;
      if !obj.JObj? {
        return ServerError(GetAttr(obj, "from").fault), listing;
      }
      var from := Get(obj.fields, "from");
      var channel := Get(obj.fields, "channel");
      var message := Get(obj.fields, "message");
      if !Truthy(from) || !Truthy(channel) || message == JNull {
        return ErrorReply(400, "missing fields"), listing;
      }
      var pid := PeerId(from);
      if pid.Err? {
        return ServerError(pid.fault), listing;
      }
      var e := Entry(from, message, now);
      if channel == JStr("private") {
        return BroadcastReply([], []), listing;
      }
      var k := ChannelKey(channel);
      if k.Err? {
        return ServerError(k.fault), listing;
      }
      ghost var before := Abs();
      if k.value !in channels {
        channels := channels[k.value := Channel({}, [])];
      }
      var ch := channels[k.value];
      channels := channels[k.value := Channel(ch.members + {pid.value}, ch.log + [e])];
      assert Abs() == Posted(before, k.value, pid.value, e);
      var members := Enumerate(channels[k.value].members);
      listing := members;
      var ids := Registered(peers, channels[k.value].members, members);
      var recs := RecordsOf(peers, ids);
      var forwarded := Forward(recs, pid.value, net);
      reply := BroadcastReply(recs, forwarded);
    }

    /** POST /connect-peer. */
    method ConnectPeer(content: string, decoded: Loaded) returns (reply: Reply)
      ensures reply == ConnectReply(Abs(), content, decoded)
    {
      reply := ConnectReply(Abs(), content, decoded);
    }

    /** `handle_http` after the request is read: one atomic step. */
    method HandleHttp(rq: Request, now: int, net: (Json, int) -> Delivery)
      returns (reply: Reply, ghost listing: seq<string>)
      requires Valid()
      modifies this
      ensures Valid()
      ensures Outcome(Abs(), reply) == Handle(old(Abs()), rq, now, net, listing)
      ensures (rq.verb == "GET" && rq.route == "/get-list" &&
               rq.query.Some? && rq.query.value != "" && KStr(rq.query.value) in channels) ==>
        Enumerates(listing, channels[KStr(rq.query.value)].members)
      ensures rq.verb == "POST" && rq.route == "/broadcast-peer" ==>
        forall k :: k in channels && (k !in old(channels) || channels[k] != old(channels)[k]) ==>
          Enumerates(listing, channels[k].members)
    {
      listing := [];
      ghost var s := Abs();
      if rq.verb == "OPTIONS" {
        reply := Reply(200, JObj(map[]));
      } else if rq.verb == "POST" && rq.route == "/submit-info" {
        reply := SubmitInfo(rq.content, rq.decoded, now);
      } else if rq.verb == "GET" && rq.route == "/get-list" {
        reply, listing := GetList(rq.query);
      } else if rq.verb == "POST" && rq.route == "/add-list" {
        reply := AddList(rq.content, rq.decoded);
      } else if rq.verb == "POST" && rq.route == "/broadcast-peer" {
        reply, listing := Broadcast(rq.content, rq.decoded, now, net);
      } else if rq.verb == "POST" && rq.route == "/connect-peer" {
        reply := ConnectPeer(rq.content, rq.decoded);
      } else {
        reply := ErrorReply(404, "not found");
      }
      HandleValid(s, rq, now, net, listing);
    }
  }
}
