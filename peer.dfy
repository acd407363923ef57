/** A chat peer (daemon/peer.py): the inbox and the short-window dedupe cache
    behind its `/p2p/receive` and `/peer-inbox` endpoints, and the outbound
    broadcast that sends a message to every other peer the tracker lists.

    Timestamps are integer milliseconds: the 2.0 s window is 2000 and the
    5.0 s prune horizon 5000. */
module PeerNode {
  import opened Strings
  import opened Json
  import opened Wire

  const Window: int := 2000
  const Horizon: int := 5000
  const CacheLimit: int := 500

  datatype PeerState = PeerState(messages: seq<Json>, recent: map<string, int>)

  datatype Received = Received(state: PeerState, status: string)

  /** What the peer's handler writes back: the fixed preflight head, or a
      JSON reply built by `_build_response`. */
  datatype PeerReply = Preflight | JsonReply(code: int, body: Json)

  // ---------------------------------------------------------------- dedupe key

  /** `a or b`. */
  function Or(a: Json, b: Json): (r: Json)
    ensures Truthy(a) ==> r == a
    ensures !Truthy(a) ==> r == b
  {
    if Truthy(a) then a else b
  }

  /** `int(port or 0)`, with any exception turned into 0. */
  function PortOrZero(port: Json): (r: int)
    ensures !Truthy(port) ==> r == 0
    ensures port.JInt? ==> r == port.i
    ensures port.JStr? && port.s != [] ==> r == (if PyInt(port.s).Some? then PyInt(port.s).value else 0)
    ensures port.JArr? || port.JObj? ==> r == 0
  {
    match PyIntOf(Or(port, JInt(0)))
    case Ok(v) => v
    case Err(_) => 0
  }

  /** The sender's ip: `sender.get('ip', '')` when `from` is an object. */
  function FromIp(obj: map<string, Json>): Json {
    var sender := Get(obj, "from");
    if sender.JObj? then (if "ip" in sender.fields then sender.fields["ip"] else JStr("")) else JStr("")
  }

  function FromPort(obj: map<string, Json>): int {
    var sender := Get(obj, "from");
    if sender.JObj? then PortOrZero(Get(sender.fields, "port")) else 0
  }

  /** The text part: `obj.get('message') or obj.get('raw') or ''`. */
  function Text(obj: map<string, Json>): Json {
    Or(Or(Get(obj, "message"), Get(obj, "raw")), JStr(""))
  }

  /** `'|'.join((str(ip), str(port), str(channel or 'general'), str(text)))`. */
  function DedupeKey(obj: map<string, Json>): string {
    PyStr(FromIp(obj)) + "|" + IntToString(FromPort(obj)) + "|" +
    PyStr(Or(Get(obj, "channel"), JStr("general"))) + "|" + PyStr(Text(obj))
  }

  /** The key reads only `from`, `channel`, `message` and `raw`: stamping
      `ts` (or setting any other field) does not change it. */
  lemma KeyIgnoresOtherFields(obj: map<string, Json>, k: string, v: Json)
    requires k !in {"from", "channel", "message", "raw"}
    ensures DedupeKey(obj[k := v]) == DedupeKey(obj)
  {
    assert Get(obj[k := v], "from") == Get(obj, "from");
    assert Get(obj[k := v], "channel") == Get(obj, "channel");
    assert Get(obj[k := v], "message") == Get(obj, "message");
    assert Get(obj[k := v], "raw") == Get(obj, "raw");
  }

  /** A sender that is not an object contributes an empty ip and port 0;
      the channel falls back to `general` and the text to `raw`, then to
      the empty string. */
  lemma NonObjectSenderKey(obj: map<string, Json>)
    requires !Get(obj, "from").JObj?
    ensures DedupeKey(obj) == "|0|" + PyStr(Or(Get(obj, "channel"), JStr("general"))) + "|" +
      PyStr(Or(Or(Get(obj, "message"), Get(obj, "raw")), JStr("")))
  {
    assert FromIp(obj) == JStr("") && FromPort(obj) == 0;
    assert IntToString(0) == "0";
  }

  /** The body `broadcast` sends (daemon/peer.py:270). */
  function Payload(myIp: string, port: int, name: string, channel: Json, message: Json): map<string, Json> {
    map["from" := JObj(map["ip" := JStr(myIp), "port" := JInt(port), "name" := JStr(name)]),
        "channel" := channel, "message" := message]
  }

  /** A receiver keys a broadcast payload by the sender's ip and port, the
      channel (`general` when unset) and the message text. */
  lemma PayloadKey(myIp: string, port: int, name: string, channel: Json, message: Json, now: int)
    ensures DedupeKey(Payload(myIp, port, name, channel, message)["ts" := JInt(now)]) ==
      myIp + "|" + IntToString(port) + "|" + PyStr(Or(channel, JStr("general"))) + "|" + PyStr(Or(message, JStr("")))
  {
    var p := Payload(myIp, port, name, channel, message);
    KeyIgnoresOtherFields(p, "ts", JInt(now));
    assert Get(p, "raw") == JNull;
    assert FromIp(p) == JStr(myIp);
    assert FromPort(p) == port;
  }

  // ---------------------------------------------------------------- receive

  /** The received object: `json.loads(content or '{}')`, or `{'raw': content}`
      when decoding fails. */
  function Incoming(content: string, decoded: Loaded): (r: Json)
    ensures content == [] ==> r == JObj(map[])
    ensures content != [] && decoded.Malformed? ==> r == JObj(map["raw" := JStr(content)])
    ensures content != [] && decoded.Loaded? ==> r == decoded.value
  {
    match LoadBody(content, decoded)
    case Loaded(v) => v
    case Malformed(_) => JObj(map["raw" := JStr(content)])
  }

  /** The cache after pruning: the entries at or after `cutoff`. */
  function Pruned(m: map<string, int>, cutoff: int): (r: map<string, int>)
    ensures forall k :: k in r <==> k in m && m[k] >= cutoff
    ensures forall k :: k in r ==> r[k] == m[k]
  {
    map k | k in m && m[k] >= cutoff :: m[k]
  }

  /** `last and (now - last) < 2.0`. */
  predicate IsDuplicate(recent: map<string, int>, key: string, now: int) {
    key in recent && recent[key] != 0 && now - recent[key] < Window
  }

  /** POST /p2p/receive (daemon/peer.py:96-150). */
  function ReceiveStep(s: PeerState, content: string, decoded: Loaded, now: int): Received {
    var obj := Incoming(content, decoded);
    if !obj.JObj? then Received(s, "ok")
    else
      var stamped := obj.fields["ts" := JInt(now)];
      var key := DedupeKey(stamped);
      if IsDuplicate(s.recent, key, now) then Received(s, "duplicate_ignored")
      else
        var recorded := s.recent[key := now];
        var kept := if |recorded| > CacheLimit then Pruned(recorded, now - Horizon) else recorded;
        Received(PeerState(s.messages + [JObj(stamped)], kept), "ok")
  }

  /** A copy seen less than 2 s after the first accepted one is ignored: no
      inbox entry, and the stored time is not refreshed. */
  lemma DuplicateIgnored(s: PeerState, content: string, decoded: Loaded, now: int)
    requires Incoming(content, decoded).JObj?
    requires IsDuplicate(s.recent, DedupeKey(Incoming(content, decoded).fields), now)
    ensures ReceiveStep(s, content, decoded, now) == Received(s, "duplicate_ignored")
  {
    KeyIgnoresOtherFields(Incoming(content, decoded).fields, "ts", JInt(now));
  }

  /** A fresh message is stamped and appended at the end of the inbox, its
      key is recorded at `now`, and the reply is `ok`. Pruning happens only
      above 500 entries, drops exactly the entries older than `now - 5000`,
      and so never drops the key just recorded. */
  lemma FreshAccepted(s: PeerState, content: string, decoded: Loaded, now: int)
    requires Incoming(content, decoded).JObj?
    requires !IsDuplicate(s.recent, DedupeKey(Incoming(content, decoded).fields), now)
    ensures var obj := Incoming(content, decoded).fields;
      var key := DedupeKey(obj);
      var r := ReceiveStep(s, content, decoded, now);
      r.status == "ok" &&
      r.state.messages == s.messages + [JObj(obj["ts" := JInt(now)])] &&
      key in r.state.recent && r.state.recent[key] == now &&
      (|s.recent[key := now]| <= CacheLimit ==> r.state.recent == s.recent[key := now]) &&
      (|s.recent[key := now]| > CacheLimit ==>
        forall k :: k in r.state.recent <==> k in s.recent[key := now] && s.recent[key := now][k] >= now - Horizon)
  {
    KeyIgnoresOtherFields(Incoming(content, decoded).fields, "ts", JInt(now));
  }

  /** A body that is not a JSON object cannot take the `ts` stamp: the
      handler's exception path still answers `ok` and nothing changes. */
  lemma NonObjectIgnored(s: PeerState, content: string, decoded: Loaded, now: int)
    requires !Incoming(content, decoded).JObj?
    ensures ReceiveStep(s, content, decoded, now) == Received(s, "ok")
  {
  }

  /** The window runs from the first accepted copy: a second copy inside it
      is ignored, and that leaves the cache as it was, so a third copy is
      measured from the first one too. */
  lemma WindowFromFirstCopy(s: PeerState, content: string, obj: map<string, Json>, t1: int, t2: int, t3: int)
    requires content != [] && t1 != 0 && t1 <= t2 && t2 - t1 < Window && t1 <= t3 && t3 - t1 < Window
    requires !IsDuplicate(s.recent, DedupeKey(obj), t1)
    ensures var r1 := ReceiveStep(s, content, Loaded(JObj(obj)), t1);
      var r2 := ReceiveStep(r1.state, content, Loaded(JObj(obj)), t2);
      r2 == Received(r1.state, "duplicate_ignored") &&
      ReceiveStep(r2.state, content, Loaded(JObj(obj)), t3) == Received(r1.state, "duplicate_ignored")
  {
    FreshAccepted(s, content, Loaded(JObj(obj)), t1);
    var r1 := ReceiveStep(s, content, Loaded(JObj(obj)), t1);
    DuplicateIgnored(r1.state, content, Loaded(JObj(obj)), t2);
    DuplicateIgnored(r1.state, content, Loaded(JObj(obj)), t3);
  }

  // ---------------------------------------------------------------- broadcast

  /** The self test of `broadcast`'s filter: `p.get('ip') == my_ip and
      int(p.get('port')) == self.port`, with its exceptions. */
  function IsSelf(p: Json, myIp: string, myPort: int): Result<bool> {
    match GetAttr(p, "ip")
    case Err(f) => Err(f)
    case Ok(ip) =>
      if ip != JStr(myIp) then Ok(false)
      else
        match PyIntOf(Get(p.fields, "port"))
        case Err(f) => Err(f)
        case Ok(v) => Ok(v == myPort)
  }

  /** A record that is not a dict raises; one with another ip is never this
      peer (its port is not even read); one with this ip is this peer exactly
      when its port converts to this peer's port, and raises when the port
      does not convert. */
  lemma IsSelfCases(p: Json, myIp: string, myPort: int)
    ensures !p.JObj? ==> IsSelf(p, myIp, myPort).Err?
    ensures p.JObj? && Get(p.fields, "ip") != JStr(myIp) ==> IsSelf(p, myIp, myPort) == Ok(false)
    ensures p.JObj? && Get(p.fields, "ip") == JStr(myIp) ==>
      (IsSelf(p, myIp, myPort).Ok? <==> PyIntOf(Get(p.fields, "port")).Ok?) &&
      (IsSelf(p, myIp, myPort).Ok? ==> IsSelf(p, myIp, myPort).value == (PyIntOf(Get(p.fields, "port")).value == myPort))
  {
  }

  /** `[p for p in peers if not (…)]`, evaluated front to back, so the
      exception of the earliest failing record ends the whole broadcast. */
  function SelectTargets(peers: seq<Json>, myIp: string, myPort: int): (r: Result<seq<Json>>)
    ensures r.Ok? ==> |r.value| <= |peers|
  {
    Select(peers, p => IsSelf(p, myIp, myPort))
  }

  /** The comprehension over any self test `isSelf`, kept apart from what the
      test reads. */
  function Select(peers: seq<Json>, isSelf: Json -> Result<bool>): (r: Result<seq<Json>>)
    ensures r.Ok? ==> |r.value| <= |peers|
    decreases |peers|
  {
    if peers == [] then Ok([])
    else
      match Select(peers[..|peers| - 1], isSelf)
      case Err(f) => Err(f)
      case Ok(rest) =>
        match isSelf(peers[|peers| - 1])
        case Err(f) => Err(f)
        case Ok(self) => Ok(if self then rest else rest + [peers[|peers| - 1]])
  }

  /** Selection fails exactly when the self test raises for some listed
      peer, and then with the exception of the first such peer. */
  lemma SelectFailsIff(peers: seq<Json>, myIp: string, myPort: int)
    ensures SelectTargets(peers, myIp, myPort).Ok? <==> forall i :: 0 <= i < |peers| ==> IsSelf(peers[i], myIp, myPort).Ok?
    ensures forall i ::
      (0 <= i < |peers| && IsSelf(peers[i], myIp, myPort).Err? &&
       forall j :: 0 <= j < i ==> IsSelf(peers[j], myIp, myPort).Ok?) ==>
      SelectTargets(peers, myIp, myPort) == Err(IsSelf(peers[i], myIp, myPort).fault)
  {
    SelectFails(peers, p => IsSelf(p, myIp, myPort));
  }

  lemma {:induction false} SelectFails(peers: seq<Json>, isSelf: Json -> Result<bool>)
    ensures Select(peers, isSelf).Ok? <==> forall i :: 0 <= i < |peers| ==> isSelf(peers[i]).Ok?
    ensures forall i ::
      (0 <= i < |peers| && isSelf(peers[i]).Err? && forall j :: 0 <= j < i ==> isSelf(peers[j]).Ok?) ==>
      Select(peers, isSelf) == Err(isSelf(peers[i]).fault)
    decreases |peers|
  {
    if peers != [] {
      var init := peers[..|peers| - 1];
      SelectFails(init, isSelf);
      assert forall i :: 0 <= i < |init| ==> init[i] == peers[i];
    }
  }

  /** The targets are the listed peers, in their order, minus this peer. */
  lemma TargetsExcludeSelf(peers: seq<Json>, myIp: string, myPort: int)
    requires SelectTargets(peers, myIp, myPort).Ok?
    ensures forall p :: p in SelectTargets(peers, myIp, myPort).value <==> p in peers && IsSelf(p, myIp, myPort) == Ok(false)
  {
    SelectExcludes(peers, p => IsSelf(p, myIp, myPort));
  }

  lemma {:induction false} SelectExcludes(peers: seq<Json>, isSelf: Json -> Result<bool>)
    requires Select(peers, isSelf).Ok?
    ensures forall p :: p in Select(peers, isSelf).value <==> p in peers && isSelf(p) == Ok(false)
    decreases |peers|
  {
    if peers != [] {
      var init := peers[..|peers| - 1];
      SelectExcludes(init, isSelf);
      assert peers == init + [peers[|peers| - 1]];
    }
  }

  /** Selection keeps order: selecting from a concatenation concatenates
      the selections. */
  lemma TargetsConcat(a: seq<Json>, b: seq<Json>, myIp: string, myPort: int)
    requires SelectTargets(a, myIp, myPort).Ok? && SelectTargets(b, myIp, myPort).Ok?
    ensures SelectTargets(a + b, myIp, myPort) == Ok(SelectTargets(a, myIp, myPort).value + SelectTargets(b, myIp, myPort).value)
  {
    SelectConcat(a, b, p => IsSelf(p, myIp, myPort));
  }

  lemma {:induction false} SelectConcat(a: seq<Json>, b: seq<Json>, isSelf: Json -> Result<bool>)
    requires Select(a, isSelf).Ok? && Select(b, isSelf).Ok?
    ensures Select(a + b, isSelf) == Ok(Select(a, isSelf).value + Select(b, isSelf).value)
    decreases |b|
  {
    if b == [] {
      assert a + b == a;
      var sa := Select(a, isSelf).value;
      assert Select(b, isSelf) == Ok([]);
      assert sa + [] == sa;
    } else {
      var init := b[..|b| - 1];
      assert (a + b)[..|a + b| - 1] == a + init;
      assert (a + b)[|a + b| - 1] == b[|b| - 1];
      SelectConcat(a, init, isSelf);
      var sa := Select(a, isSelf).value;
      var si := Select(init, isSelf).value;
      assert (sa + si) + [b[|b| - 1]] == sa + (si + [b[|b| - 1]]);
    }
  }

  /** What one send to a target came to. */
  datatype Send = Contacted(ip: Json, port: int, delivery: Delivery) | Unaddressable(fault: Fault)

  /** How the network answered a connection attempt. */
  datatype Delivery = Delivered | TimedOut | ConnectionRefused | Failed(reason: string)

  /** The body of the loop's `try`: `(p['ip'], int(p['port']))`, connect,
      send. */
  function TrySend(p: Json, net: (Json, int) -> Delivery): (r: Send)
    ensures r.Contacted? <==> p.JObj? && "ip" in p.fields && "port" in p.fields && PyIntOf(p.fields["port"]).Ok?
    ensures r.Contacted? ==> r == Contacted(p.fields["ip"], PyIntOf(p.fields["port"]).value,
                                            net(p.fields["ip"], PyIntOf(p.fields["port"]).value))
  {
    match Subscript(p, "ip")
    case Err(f) => Unaddressable(f)
    case Ok(ip) =>
      match Subscript(p, "port")
      case Err(f) => Unaddressable(f)
      case Ok(pj) =>
        match PyIntOf(pj)
        case Err(f) => Unaddressable(f)
        case Ok(port) => Contacted(ip, port, net(ip, port))
  }

  /** The corrected loop: every target is tried, and what happens to one
      never stops the next. */
  function SendAll(targets: seq<Json>, net: (Json, int) -> Delivery): (r: seq<Send>)
    ensures |r| == |targets| && forall i :: 0 <= i < |targets| ==> r[i] == TrySend(targets[i], net)
  {
    seq(|targets|, i requires 0 <= i < |targets| => TrySend(targets[i], net))
  }

  /** The exception the as-written log lines raise for a target: the success
      line reads `p['name']`, every failure line reads `p['name']`, `p['ip']`
      and `p['port']`, and an exception inside an `except` clause is not
      caught by the loop. */
  function LogFault(p: Json, s: Send): Option<Fault> {
    var m := if p.JObj? then p.fields else map[];
    if s.Contacted? && s.delivery == Delivered then
      if "name" in m then None else Some(KeyError("name"))
    else if "name" !in m then Some(KeyError("name"))
    else if "ip" !in m then Some(KeyError("ip"))
    else if "port" !in m then Some(KeyError("port"))
    else None
  }

  /** The loop of daemon/peer.py:274-291 as written: the sends made, and the
      exception that escapes, if any. */
  function SendAllAsWritten(targets: seq<Json>, net: (Json, int) -> Delivery): (r: (seq<Send>, Option<Fault>))
    ensures |r.0| <= |targets|
    decreases |targets|
  {
    if targets == [] then ([], None)
    else
      var s := TrySend(targets[0], net);
      match LogFault(targets[0], s)
      case Some(f) => ([s], Some(f))
      case None =>
        var rest := SendAllAsWritten(targets[1..], net);
        ([s] + rest.0, rest.1)
  }

  /** The loop as written makes the corrected loop's sends up to the point
      where a log line raises, and all of them when none does. */
  lemma {:induction false} AsWrittenIsPrefix(targets: seq<Json>, net: (Json, int) -> Delivery)
    ensures var r := SendAllAsWritten(targets, net);
      r.0 == SendAll(targets, net)[..|r.0|] && (r.1 == None ==> r.0 == SendAll(targets, net))
    decreases |targets|
  {
    if targets != [] {
      var s := TrySend(targets[0], net);
      var tail := SendAll(targets[1..], net);
      assert SendAll(targets, net) == [s] + tail;
      var r := SendAllAsWritten(targets, net);
      if LogFault(targets[0], s).Some? {
        assert r.0 == [s];
      } else {
        AsWrittenIsPrefix(targets[1..], net);
        var rest := SendAllAsWritten(targets[1..], net);
        assert r == ([s] + rest.0, rest.1);
        assert ([s] + tail)[..1 + |rest.0|] == [s] + tail[..|rest.0|];
      }
    }
  }

  /** A record with `name`, `ip` and `port` never makes a log line raise. */
  lemma FullRecordLogs(p: Json, s: Send)
    requires p.JObj? && "name" in p.fields && "ip" in p.fields && "port" in p.fields
    ensures LogFault(p, s) == None
  {
  }

  /** When every target record carries `name`, `ip` and `port`, the loop as
      written does what the corrected loop does. */
  lemma AsWrittenAgreesOnFullRecords(targets: seq<Json>, net: (Json, int) -> Delivery)
    requires forall i :: 0 <= i < |targets| ==>
      targets[i].JObj? && "name" in targets[i].fields && "ip" in targets[i].fields && "port" in targets[i].fields
    ensures SendAllAsWritten(targets, net) == (SendAll(targets, net), None)
  {
    NoFaultOnFullRecords(targets, net);
    AsWrittenIsPrefix(targets, net);
  }

  lemma {:induction false} NoFaultOnFullRecords(targets: seq<Json>, net: (Json, int) -> Delivery)
    requires forall i :: 0 <= i < |targets| ==>
      targets[i].JObj? && "name" in targets[i].fields && "ip" in targets[i].fields && "port" in targets[i].fields
    ensures SendAllAsWritten(targets, net).1 == None
    decreases |targets|
  {
    if targets != [] {
      var p := targets[0];
      assert p.JObj? && "name" in p.fields && "ip" in p.fields && "port" in p.fields;
      FullRecordLogs(p, TrySend(p, net));
      var rest := targets[1..];
      forall i | 0 <= i < |rest|
        ensures rest[i].JObj? && "name" in rest[i].fields && "ip" in rest[i].fields && "port" in rest[i].fields
      {
        assert rest[i] == targets[i + 1];
      }
      NoFaultOnFullRecords(rest, net);
    }
  }

  /** A tracker record without `name`, listed before another peer: the loop as
      written sends to the first, raises `KeyError('name')` from its log line
      and never reaches the second; the corrected loop reaches both. */
  lemma NamelessRecordAbortsBroadcast()
    ensures var a := JObj(map["ip" := JStr("10.0.0.2"), "port" := JInt(9100)]);
      var b := JObj(map["ip" := JStr("10.0.0.3"), "port" := JInt(9101), "name" := JStr("bob")]);
      var net := (ip: Json, port: int) => Delivered;
      SendAllAsWritten([a, b], net) == ([Contacted(JStr("10.0.0.2"), 9100, Delivered)], Some(KeyError("name"))) &&
      SendAll([a, b], net) == [Contacted(JStr("10.0.0.2"), 9100, Delivered), Contacted(JStr("10.0.0.3"), 9101, Delivered)]
  {
    var a := JObj(map["ip" := JStr("10.0.0.2"), "port" := JInt(9100)]);
    var b := JObj(map["ip" := JStr("10.0.0.3"), "port" := JInt(9101), "name" := JStr("bob")]);
    var net := (ip: Json, port: int) => Delivered;
    assert TrySend(a, net) == Contacted(JStr("10.0.0.2"), 9100, Delivered);
    assert TrySend(b, net) == Contacted(JStr("10.0.0.3"), 9101, Delivered);
    assert LogFault(a, TrySend(a, net)) == Some(KeyError("name"));
  }

  /** The path `get_peers_from_tracker` asks for. */
  function PeersPath(channel: Json): (r: string)
    ensures !Truthy(channel) ==> r == "/get-list"
    ensures Truthy(channel) ==> r == "/get-list?channel=" + PyStr(channel)
  {
    if Truthy(channel) then "/get-list?channel=" + PyStr(channel) else "/get-list"
  }

  /** The `peers` value of the tracker's reply as `broadcast` sees it. The
      listing loop calls `p.get` on each element inside the `try`, so a list
      holding anything but objects, and any other kind of value, comes back
      as `[]` (iterating `{}` or `''` also yields nothing). */
  function PeerList(peers: Json): (r: seq<Json>)
    ensures forall i :: 0 <= i < |r| ==> r[i].JObj?
    ensures peers.JArr? && (forall i :: 0 <= i < |peers.items| ==> peers.items[i].JObj?) ==> r == peers.items
  {
    if peers.JArr? && forall i :: 0 <= i < |peers.items| ==> peers.items[i].JObj? then peers.items else []
  }

  /** `get_peers_from_tracker` on the bytes `data` the tracker sent back;
      `decodedBody` is what `json.loads` makes of the text after the first
      blank line. A missing blank line, a decode error, or a reply that is
      not an object all end in `[]`. */
  function TrackerPeers(data: seq<byte>, decodedBody: Loaded): (r: seq<Json>)
    ensures forall i :: 0 <= i < |r| ==> r[i].JObj?
    ensures data == [] || BodyOf(data).None? || decodedBody.Malformed? ==> r == []
  {
    if data == [] then []
    else
      match BodyOf(data)
      case None => []
      case Some(body) =>
        var js := if body == [] then Loaded(JObj(map[])) else decodedBody;
        match js
        case Malformed(_) => []
        case Loaded(v) =>
          if !v.JObj? then []
          else PeerList(if "peers" in v.fields then v.fields["peers"] else JArr([]))
  }

  /** Reading back the tracker's own `/get-list` reply: any reply whose body
      is `encoded` (the JSON response builder's are, see
      `Wire.JsonResponse`), decoded faithfully, yields the listed records in
      order. */
  lemma ListReadBack(data: seq<byte>, encoded: seq<byte>, records: seq<Json>)
    requires BodyOf(data) == Some(encoded) && encoded != []
    requires forall i :: 0 <= i < |records| ==> records[i].JObj?
    ensures TrackerPeers(data, Loaded(JObj(map["peers" := JArr(records)]))) == records
  {
  }

  /** How a broadcast ended. */
  datatype Broadcasted = Raised(fault: Fault) | NoTargets | Done(sends: seq<Send>)

  /** `broadcast` with the log lines corrected (daemon/peer.py:259-291). */
  function BroadcastSpec(peers: seq<Json>, myIp: string, myPort: int, net: (Json, int) -> Delivery): Broadcasted {
    match SelectTargets(peers, myIp, myPort)
    case Err(f) => Raised(f)
    case Ok(targets) => if targets == [] then NoTargets else Done(SendAll(targets, net))
  }

  /** Self-exclusion, order and failure isolation: every other peer is sent
      to once, in the tracker's order, and nothing is sent to this peer. */
  lemma BroadcastReachesOthers(peers: seq<Json>, myIp: string, myPort: int, net: (Json, int) -> Delivery)
    requires SelectTargets(peers, myIp, myPort).Ok?
    ensures var t := SelectTargets(peers, myIp, myPort).value;
      (t == [] <==> BroadcastSpec(peers, myIp, myPort, net) == NoTargets) &&
      (t != [] ==> BroadcastSpec(peers, myIp, myPort, net) == Done(SendAll(t, net))) &&
      forall p :: p in t <==> p in peers && IsSelf(p, myIp, myPort) == Ok(false)
  {
    TargetsExcludeSelf(peers, myIp, myPort);
  }

  /** The bytes written back for `reply`, with `encoded` standing for
      `json.dumps(body).encode('utf-8')` (daemon/peer.py:81-95, 153-174,
      186-198). */
  function Render(reply: PeerReply, encoded: seq<byte>): (r: seq<byte>)
    ensures reply.Preflight? ==> BodyOf(r) == Some([]) && r == PreflightReply()
    ensures reply.JsonReply? ==> BodyOf(r) == Some(encoded) && DeclaresLength(JsonHead(reply.code, |encoded|), |encoded|)
  {
    match reply
    case Preflight => PreflightReply()
    case JsonReply(code, _) => JsonResponse(code, encoded)
  }

  // ---------------------------------------------------------------- the peer

  class Peer {
    const ip: string
    const port: int
    const name: string
    var messages: seq<Json>
    var recent: map<string, int>

    function Abs(): PeerState
      reads this
    {
      PeerState(messages, recent)
    }

    /** `Peer(ip, port, name)`: an unnamed peer is `peer-<port>`. */
    constructor (ip: string, port: int, name: Option<string>)
      ensures this.ip == ip && this.port == port
      ensures this.name == if name.Some? && name.value != [] then name.value else "peer-" + IntToString(port)
      ensures Abs() == PeerState([], map[])
    {
      this.ip := ip;
      this.port := port;
      this.name := if name.Some? && name.value != [] then name.value else "peer-" + IntToString(port);
      messages := [];
      recent := map[];
    }

    /** The prune loop: `for k, t in list(items): if t < cutoff: del`. */
    method Prune(cutoff: int)
      modifies this
      ensures recent == Pruned(old(recent), cutoff)
      ensures messages == old(messages)
    {
      ghost var orig := recent;
      var keys := recent.Keys;
      while keys != {}
        invariant keys <= orig.Keys
        invariant forall k :: k in recent <==> k in orig && (k in keys || orig[k] >= cutoff)
        invariant forall k :: k in recent ==> recent[k] == orig[k]
        invariant messages == old(messages)
        decreases |keys|
      {
        var k :| k in keys;
        if recent[k] < cutoff {
          recent := recent - {k};
        }
        keys := keys - {k};
      }
    }

    /** POST /p2p/receive. */
    method Receive(content: string, decoded: Loaded, now: int) returns (status: string)
      modifies this
      ensures Received(Abs(), status) == ReceiveStep(old(Abs()), content, decoded, now)
    {
      ghost var s0 := Abs();
      var obj := Incoming(content, decoded);
      if !obj.JObj? {
        return "ok";
      }
      var stamped := obj.fields["ts" := JInt(now)];
      var key := DedupeKey(stamped);
      if key in recent {
        var last := recent[key];
        if last != 0 && now - last < Window {
          assert IsDuplicate(s0.recent, key, now);
          return "duplicate_ignored";
        }
      }
      assert !IsDuplicate(s0.recent, key, now);
      ghost var recorded := s0.recent[key := now];
      recent := recent[key := now];
      if |recent| > CacheLimit {
        Prune(now - Horizon);
      }
      assert recent == if |recorded| > CacheLimit then Pruned(recorded, now - Horizon) else recorded;
      messages := messages + [JObj(stamped)];
      status := "ok";
    }

    /** GET /peer-inbox: `out = messages.copy(); messages.clear()`. */
    method Drain() returns (out: seq<Json>)
      modifies this
      ensures out == old(messages) && messages == [] && recent == old(recent)
    {
      out := messages;
      messages := [];
    }

    /** `_handle_conn` once the request line has been split into `verb` and
        `path`, and `body` is the text after the first blank line; `decoded`
        is what `json.loads` makes of the stripped body (daemon/peer.py:78-174). */
    method HandleConn(verb: string, path: string, body: string, decoded: Loaded, now: int) returns (reply: PeerReply)
      modifies this
      ensures verb == "OPTIONS" ==> reply == Preflight && Abs() == old(Abs())
      ensures verb != "OPTIONS" && verb == "POST" && path == "/p2p/receive" ==>
        reply == JsonReply(200, JObj(map["status" := JStr(ReceiveStep(old(Abs()), Strip(body), decoded, now).status)])) &&
        Abs() == ReceiveStep(old(Abs()), Strip(body), decoded, now).state
      ensures verb == "GET" && path == "/peer-inbox" ==>
        reply == JsonReply(200, JArr(old(messages))) && Abs() == PeerState([], old(recent))
      ensures verb != "OPTIONS" && !(verb == "POST" && path == "/p2p/receive") && !(verb == "GET" && path == "/peer-inbox") ==>
        reply == JsonReply(404, JObj(map["error" := JStr("not found")])) && Abs() == old(Abs())
    {
      if verb == "OPTIONS" {
        reply := Preflight;
      } else if verb == "POST" && path == "/p2p/receive" {
        var status := Receive(Strip(body), decoded, now);
        reply := JsonReply(200, JObj(map["status" := JStr(status)]));
      } else if verb == "GET" && path == "/peer-inbox" {
        var out := Drain();
        reply := JsonReply(200, JArr(out));
      } else {
        reply := JsonReply(404, JObj(map["error" := JStr("not found")]));
      }
    }

    /** `broadcast(message, channel)` with the log lines corrected. Its
        inputs stand for what it reads from outside: the tracker's reply
        `data` to a GET of `PeersPath(channel)` and what `json.loads` makes
        of that reply's body, the detected LAN address `localIp`, and how
        the network answers each connection. Every target is sent the
        payload `Payload(myIp, port, name, channel, message)`. */
    method Broadcast(data: seq<byte>, decodedBody: Loaded, localIp: string, net: (Json, int) -> Delivery) returns (r: Broadcasted)
      ensures r == BroadcastSpec(TrackerPeers(data, decodedBody), if ip != "0.0.0.0" then ip else localIp, port, net)
    {
      var peers := TrackerPeers(data, decodedBody);
      var myIp := if ip != "0.0.0.0" then ip else localIp;
      var selected := SelectTargets(peers, myIp, port);
      if selected.Err? {
        return Raised(selected.fault);
      }
      var targets := selected.value;
      if targets == [] {
        return NoTargets;
      }
      var sends: seq<Send> := [];
      var i := 0;
      while i < |targets|
        invariant 0 <= i <= |targets|
        invariant sends == SendAll(targets[..i], net)
      {
        var s := TrySend(targets[i], net);
        sends := sends + [s];
        i := i + 1;
      }
      assert targets[..i] == targets;
      r := Done(sends);
    }
  }

  /** Two drains with nothing received between them share no message: the
      second finds the inbox the first left empty. */
  method DrainTwice(p: Peer) returns (first: seq<Json>, second: seq<Json>)
    modifies p
    ensures first == old(p.messages) && second == [] && p.messages == []
  {
    first := p.Drain();
    second := p.Drain();
  }
}
