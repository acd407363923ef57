# BK_SYS_NET chat core in Dafny

BK_SYS_NET is a hybrid peer-to-peer chat system. It has these parts:

- A **tracker** (`daemon/tracker.py`). It keeps a table of registered peers keyed by `ip:port`, and a table of channels. Each channel has a member set and a message log. It answers JSON-over-HTTP requests on five routes: `/submit-info`, `/get-list`, `/add-list`, `/broadcast-peer` and `/connect-peer`. It relays public channel messages to the other members.
- **Peers** (`daemon/peer.py`). A peer receives messages on `/p2p/receive` and drops duplicates that arrive within two seconds. It queues the rest in an inbox, which `/peer-inbox` drains. To broadcast, it fetches the member list from the tracker and posts the message to every member except itself.
- A **reverse proxy** (`daemon/proxy.py`). It reads the `Host` line of a request and picks a backend from a routes table. A round-robin counter is kept per host. It rewrites `Connection: keep-alive` to `Connection: close` and relays the request. It answers with a fixed 404 page when no route matches and a fixed 502 page when the backend cannot be reached.
- The **older proxy** (`proxy.py`), which makes the same choices with different rules.
- The **virtual-host reader** (`start_proxy.py`, `parse_virtual_hosts`). It turns `host "NAME" { proxy_pass ...; dist_policy ...; }` blocks into the routes table.
- The **HTTP adapter** (`daemon/httpadapter.py`) of the web front end. It handles the `/login` form, a cookie guard in front of the chat page, registered route handlers and static files.

The model is split into these modules:

| module | file | role |
|---|---|---|
| `Strings` | `strings.dfy` | The Python string operations the code relies on, each with its defining property: `strip`, `split`, `find`, `replace`, `splitlines`, `int()` and `str()` of an integer. |
| `Json` | `json.dfy` | Decoded JSON values with Python's truthiness, `dict.get` and subscripting, `int()` of a value and `str()` of a value. |
| `Wire` | `wire.dfy` | UTF-8 encoding, HTTP response framing, the fixed 404 and 502 pages, and the JSON and preflight replies of the tracker and the peer. |
| `Tracker` | `tracker.dfy` | The tracker's state as a value, one function per route, the relay loop as a method, and a `Registry` class whose fields are the tracker's global tables. |
| `PeerNode` | `peer.dfy` | The `Peer` class with its inbox and dedupe cache, the receive logic, target selection and the broadcast loop. |
| `Proxy` | `proxy.dfy` | The backend choice, target parsing, the Host-line scan, the keep-alive rewrite, and a `Router` class that holds the round-robin counters. |
| `LegacyProxy` | `legacy_proxy.dfy` | The same parts for `proxy.py`, compared with `Proxy` where the two proxies differ. |
| `VirtualHosts` | `vhosts.dfy` | The three regular expressions of the config reader, modelled as leftmost-first scans, and the routes they produce. |
| `Adapter` | `adapter.dfy` | The login form, the cookie guard, handler-result normalisation, `send`, and the `HttpAdapter` class. |

Operations that change state in the source are methods on classes. Their `ensures` ties the new state and the reply to a specification function of the old state, and the properties are proved about those functions. Examples are `Tracker.Registry`, `PeerNode.Peer`, `Proxy.Router`, `LegacyProxy.OldRouter` and `Adapter.HttpAdapter`. Loops in the source are `while` loops with invariants: the tracker's relay loop, the Host-line scans, the config reader and the credential parser.

### Where the model follows the code rather than the description

- `daemon/proxy.py:153` removes a scheme with `split('://')[1]`. That keeps the text between the first and the second `://`, not everything after the first one. `Proxy.SchemeStripped` models the code.
- `proxy.py:161-168` leaves `hostname` unbound when the request has no Host line, so the handler dies with a `NameError` and sends nothing. The model has the handler return no reply (`None`). It does not make a Host line a precondition.
- Both `forward_request` functions catch only `socket.error`. A backend port that `int()` accepts but that lies outside 0..65535, such as `proxy_pass 10.0.0.5:70000;`, makes `connect` raise `OverflowError`. The client's thread then ends with no reply, and the model says so (`Proxy.PortInRange`).
- A round-robin choice in `proxy.py` bumps the counter even for a one-element list. `daemon/proxy.py` serves a one-element list without touching the counter. `LegacyProxy.SingletonListCounters` states the difference.

## Model

| member | source | states |
|---|---|---|
| Strings.StripSpec | daemon/tracker.py:63 | `strip()` returns the middle of the text. Only whitespace is cut from either end, and the result starts and ends with a non-space. |
| Strings.StripNoSpace | daemon/tracker.py:63 | A text that starts and ends with a non-space is unchanged by `strip()`. |
| Strings.StripLeadingSpace | daemon/httpadapter.py:265 | Leading whitespace does not change the result of `strip()`. |
| Strings.LStrip | daemon/tracker.py:63 | The result is a suffix of the input. Everything cut off is whitespace, and the result does not start with whitespace. |
| Strings.RStrip | daemon/tracker.py:63 | The result is a prefix of the input. Everything cut off is whitespace, and the result does not end with whitespace. |
| Strings.FindFrom | daemon/proxy.py:152 | The result is the leftmost occurrence of the pattern at or after `i`. `None` means there is no occurrence. |
| Strings.ContainsIff | daemon/proxy.py:152 | `pat in s` holds exactly when the pattern occurs at some position. |
| Strings.IndexOf | daemon/proxy.py:123 | The result is the first index of the character. `None` exactly when the character is absent. |
| Strings.Before | daemon/proxy.py:123 | `split(c)[0]`: the longest prefix without `c`. It is followed by `c` when `c` occurs. |
| Strings.After | proxy.py:86 | `split(c, 1)[1]`: the text around the first `c` is the prefix, then `c`, then the result. |
| Strings.Split | daemon/httpadapter.py:163 | `split(sep)` returns at least one piece, and no piece contains the separator. Joining the pieces gives back the text. |
| Strings.SplitJoin | daemon/httpadapter.py:163 | Splitting a join of separator-free pieces gives back the pieces. |
| Strings.ReplaceAbsent | daemon/proxy.py:61 | `replace` leaves a text without the pattern unchanged. |
| Strings.ReplacePresent | daemon/proxy.py:61 | After `replace`, a text that contained the pattern contains the replacement. |
| Strings.ReplaceAtFirst | daemon/proxy.py:61 | `replace` keeps the text before the first occurrence, puts the replacement there, and replaces the rest on its own. |
| Strings.SplitLines | daemon/proxy.py:246 | No line returned by `splitlines()` contains a line break. |
| Strings.SplitLinesCRLF | daemon/proxy.py:246 | A line followed by CRLF is split off as one line, and the rest is split on its own. |
| Strings.LineLength | daemon/proxy.py:246 | The result is the length of the text before the first line break. |
| Strings.Decimal | daemon/tracker.py:202 | `str(n)` of a natural number is a non-empty string of digits. |
| Strings.IntRoundTrip | daemon/proxy.py:157-158 | `int(str(i)) == i` for every integer, negative ones included. |
| Json.LoadBody | daemon/tracker.py:87 | `json.loads(content or '{}')`: empty content reads as `{}`, and any other content as what the decoder returned. |
| Json.Get | daemon/tracker.py:112-113 | `dict.get(key)` returns the stored value, or `None` when the key is absent. |
| Json.GetAttr | daemon/tracker.py:112 | Calling `.get` succeeds exactly on a JSON object. Any other value raises `AttributeError`. |
| Json.Subscript | daemon/tracker.py:29-30 | `obj[key]` succeeds exactly on an object that has the key. It raises `KeyError(key)` when the key is missing, and raises on a non-object. |
| Json.PyIntOf | daemon/tracker.py:221 | `int()` of a JSON integer is that integer. A string converts exactly when it is an optionally signed run of ASCII digits with single underscores between them, with optional surrounding whitespace. `None`, lists and dicts raise. |
| Json.PortTextRoundTrip | daemon/tracker.py:215-221 | Converting the text form of a port back with `int()` gives the port. |
| Json.ReprStr | daemon/tracker.py:221 | `repr()` of a string inside `str()` of a list and in the `int()` error text: single quotes unless only a single quote occurs, backslash, quote and ASCII control characters escaped. Json.ReprPlain and Json.ReprApostrophe state the two quoting cases. |
| Json.ReprPlain | daemon/tracker.py:221 | A text without single quotes, backslashes or control characters is shown as itself between single quotes. |
| Json.ReprApostrophe | daemon/tracker.py:221 | A text whose only quote is a single quote is shown between double quotes with the single quote unescaped. |
| Wire.EncodeChar | daemon/tracker.py:194 | A character encodes to one to four UTF-8 bytes. ASCII encodes as itself, and other characters only to bytes of 0x80 or more. |
| Wire.Utf8Concat | daemon/tracker.py:194 | UTF-8 encoding distributes over concatenation. |
| Wire.FrameBody | daemon/peer.py:250 | Reading a framed reply back with `split(b'\r\n\r\n', 1)[1]` gives exactly the body that was framed. |
| Wire.FieldValue | daemon/tracker.py:197-203 | A found header value appears in the header list. `None` means no header of that name. |
| Wire.BodyOf | daemon/peer.py:250 | The body is a suffix after a blank line. `None` exactly when the data has no blank line. |
| Wire.NotFoundReply | daemon/proxy.py:264-271 | The fixed page frames the text `404 Not Found`. It reads back as that body, and its `Content-Length: 13` is the body's length. |
| Wire.BadGatewayReply | daemon/proxy.py:83-90 | The fixed page frames `502 Bad Gateway`. Its `Content-Length: 15` is the body's length. |
| Wire.FixedReply | proxy.py:59-66 | A fixed plain-text reply reads back as its text, and its declared length is the text's byte length. |
| Wire.JsonResponse | daemon/tracker.py:193-205 | The status line is `HTTP/1.1 <code> OK` for every code. The body reads back unchanged and `Content-Length` equals its byte length. |
| Wire.PreflightReply | daemon/peer.py:81-95 | The CORS preflight reply has an empty body, declares length 0 and has no `Content-Type`. |
| Tracker.PeerId | daemon/tracker.py:29-30 | The id `ip:port` exists exactly when the record has both fields. A missing `ip` raises `KeyError('ip')` and a missing `port` raises `KeyError('port')`. |
| Tracker.ForwardId | daemon/tracker.py:215 | The relay's id `f"{p.get('ip')}:{p.get('port')}"`, with `None` for a missing field. Tracker.PeerId states that it agrees with `_peer_id` on every record that has both fields. |
| Tracker.Stamp | daemon/tracker.py:92 | `{**obj, 'ts': now}` keeps every other field and sets `ts`. |
| Tracker.ChannelKey | daemon/tracker.py:118 | A JSON value used as a dict key: strings and numbers are keys and `True` equals `1`. Lists and dicts are unhashable and raise. |
| Tracker.LogJson | daemon/tracker.py:102 | A channel's log is sent as a list of its entries in order. |
| Tracker.RecordsJson | daemon/tracker.py:101-102 | A list of records is sent as a list of those records in order. |
| Tracker.Registered | daemon/tracker.py:101 | The member list retains only members with a registered record. |
| Tracker.RegisteredNone | daemon/tracker.py:100-101 | An unknown channel lists no peers. |
| Tracker.RegisteredExactly | daemon/tracker.py:101 | The member list names each member that has a record exactly once, and names nothing else. |
| Tracker.Targets | daemon/tracker.py:214-217 | The relay skips the sender's own `ip:port` and no other record. |
| Tracker.Attempt | daemon/tracker.py:218-241 | Each result names the record's `ip:port`. It says `ok: True` exactly when the port converts and the delivery succeeds. |
| Tracker.Forward | daemon/tracker.py:208-242 | The relay loop returns one result per non-skipped record, in input order. |
| Tracker.TargetsConcat | daemon/tracker.py:214-217 | Skipping distributes over concatenation, so the input order is kept. |
| Tracker.TargetsMembers | daemon/tracker.py:214-217 | A record is attempted exactly when it is in the input and is not the sender. |
| Tracker.ForwardResults | daemon/tracker.py:208-242 | The i-th result is the attempt on the i-th target. No result names the sender unless the sender id is empty. |
| Tracker.RegisterOverwrites | daemon/tracker.py:85-94 | Registering stores the stamped record under its id and leaves the other records and the channels alone. A new id is appended to the insertion order, and a known id keeps its place and the count. |
| Tracker.RegisterMissingField | daemon/tracker.py:176-186 | A registration without `ip` or `port` changes nothing. It gets a 500 reply naming the missing key. |
| Tracker.SubmitValid | daemon/tracker.py:85-94 | Registration keeps the tracker invariant: each id is listed once in the insertion order, records are filed under their own `ip:port`, and each record has `ts`. |
| Tracker.HandleValid | daemon/tracker.py:32-191 | Every request keeps the tracker invariant. |
| Tracker.OptionsAndUnknown | daemon/tracker.py:70-75 | `OPTIONS` gets `200 {}` and anything unrouted gets `404 not found`. Neither changes the state. |
| Tracker.InvalidJsonRejected | daemon/tracker.py:86-89 | A body that does not decode gets `400 invalid json` with the decoder's detail on every JSON route. The state is unchanged. |
| Tracker.AddListSpec | daemon/tracker.py:107-121 | A missing channel or peer gets a 400. A success adds the peer's id to the channel and leaves the log, the other channels and the peers alone. Repeating the request changes nothing more. |
| Tracker.PrivateBroadcast | daemon/tracker.py:142-143 | A message on channel `private` is neither stored nor relayed, and the reply lists no peers. |
| Tracker.PublicBroadcast | daemon/tracker.py:133-149 | A public message is appended to its channel's log, and the sender joins the channel. The peers and the order are unchanged. |
| Tracker.BroadcastPeers | daemon/tracker.py:145-149 | The recipients are exactly the registered members, each named once, and they include the sender if it is registered. |
| Tracker.GetListChannel | daemon/tracker.py:96-103 | A channel query returns the channel's log and its registered members. An unknown channel has neither. |
| Tracker.GetListAll | daemon/tracker.py:103-104 | Without a channel, every registered record is listed once in insertion order. |
| Tracker.ConnectSpec | daemon/tracker.py:158-172 | `/connect-peer` returns the stored record of the target id, or `404 peer not found`. |
| Tracker.Enumerate | daemon/tracker.py:101 | The result lists each element of the set exactly once. This is the iteration order of a Python set. |
| Tracker.SubmitInfoStep | daemon/tracker.py:85-94 | The `/submit-info` step: 400 with the decoder's detail, 500 naming a missing field, or the stamped record stored under its id with the peer count. Tracker.RegisterOverwrites, Tracker.RegisterMissingField and Tracker.SubmitValid state its effect. |
| Tracker.GetListReply | daemon/tracker.py:96-105 | The `/get-list` reply: with a channel, its registered members' records and its log, otherwise every record in insertion order. Tracker.GetListChannel and Tracker.GetListAll state it. |
| Tracker.AddListStep | daemon/tracker.py:107-121 | The `/add-list` step: `setdefault` of the channel, then the peer's id added to its members, or the 400 and 500 error replies with the state unchanged. Tracker.AddListSpec states it. |
| Tracker.BroadcastStep | daemon/tracker.py:123-156 | The `/broadcast-peer` step: private messages answered without storing, others logged, the sender joined and the message relayed to the registered members except the sender. Tracker.PrivateBroadcast, Tracker.PublicBroadcast and Tracker.BroadcastPeers state it. |
| Tracker.ConnectReply | daemon/tracker.py:158-172 | The `/connect-peer` reply: the stored record of `to`, 404 `peer not found`, 400 `missing to`, or 500. Tracker.ConnectSpec states it. |
| Tracker.Handle | daemon/tracker.py:32-191 | The route dispatch of `handle_http`: OPTIONS first, then the five routes by verb and path, then 404. Tracker.HandleValid and Tracker.OptionsAndUnknown state it. |
| Tracker.Registry.constructor | daemon/tracker.py:25-27 | The tracker starts with no peers and no channels. |
| Tracker.Registry.SubmitInfo | daemon/tracker.py:85-94 | The new tables and the reply are those of the registration step on the old tables. |
| Tracker.Registry.GetList | daemon/tracker.py:96-105 | The reply is the listing of the current tables. |
| Tracker.Registry.AddList | daemon/tracker.py:107-121 | The new tables and the reply are those of the join step. |
| Tracker.Registry.Broadcast | daemon/tracker.py:123-156 | The new tables and the reply are those of the broadcast step, for the set order actually iterated. |
| Tracker.Registry.ConnectPeer | daemon/tracker.py:158-172 | The reply is the lookup on the current tables, and nothing changes. |
| Tracker.Registry.HandleHttp | daemon/tracker.py:32-191 | Dispatch keeps the invariant, and state and reply follow the route's step function. On `/get-list?channel=` the iteration order is a duplicate-free listing of that channel's members, and on `/broadcast-peer` of the changed channel's members. |
| PeerNode.Or | daemon/peer.py:115 | Python's `a or b`: `a` when it is truthy, else `b`. |
| PeerNode.DedupeKey | daemon/peer.py:106-116 | The key `'|'.join` of sender ip, sender port, channel or `general`, and message or raw text. PeerNode.KeyIgnoresOtherFields, PeerNode.NonObjectSenderKey and PeerNode.PayloadKey state which fields it reads. |
| PeerNode.IsDuplicate | daemon/peer.py:117-118 | `last and (now - last) < 2.0`: a key seen at a non-zero time less than 2000 ms ago. PeerNode.DuplicateIgnored and PeerNode.WindowFromFirstCopy state its effect. |
| PeerNode.ReceiveStep | daemon/peer.py:96-150 | The `/p2p/receive` step: duplicates ignored, fresh messages stamped, appended and keyed, and a non-object body answered `ok` with no change. PeerNode.DuplicateIgnored, PeerNode.FreshAccepted and PeerNode.NonObjectIgnored state it. |
| PeerNode.PortOrZero | daemon/peer.py:111-114 | `int(port or 0)` with a failure read as 0. A falsy port gives 0, an integer gives itself, and a string gives its value when it converts and 0 when it does not. |
| PeerNode.KeyIgnoresOtherFields | daemon/peer.py:106-116 | The dedupe key depends only on `from`, `channel`, `message` and `raw`. |
| PeerNode.NonObjectSenderKey | daemon/peer.py:106-116 | When the sender is not an object, the key uses an empty ip and port 0. |
| PeerNode.PayloadKey | daemon/peer.py:270 | A broadcast payload arrives under the key `myIp|port|channel or general|message`. |
| PeerNode.Incoming | daemon/peer.py:99-102 | An empty body reads as `{}`. An undecodable body reads as `{'raw': content}`, and anything else as the decoded value. |
| PeerNode.Pruned | daemon/peer.py:128-133 | Pruning keeps exactly the keys seen at or after the cutoff, with their times. |
| PeerNode.DuplicateIgnored | daemon/peer.py:117-125 | A key seen less than two seconds ago gets `duplicate_ignored` and changes nothing. |
| PeerNode.FreshAccepted | daemon/peer.py:103-104 | A fresh message is stamped and appended to the inbox, and its key is recorded at `now`. The cache is pruned to the last five seconds only when it holds more than 500 keys. |
| PeerNode.NonObjectIgnored | daemon/peer.py:144-150 | A body that decodes to a non-object makes the handler fail, and it still answers `ok` without storing anything. |
| PeerNode.WindowFromFirstCopy | daemon/peer.py:117-127 | Repeats within two seconds of the first copy are all dropped. A duplicate does not refresh the key's time. |
| PeerNode.IsSelfCases | daemon/peer.py:264 | A record is the peer itself when its ip matches and `int(port)` equals the peer's port. A non-object raises, and so does a matching ip with a bad port. |
| PeerNode.SelectTargets | daemon/peer.py:264 | The target list is no longer than the peer list. |
| PeerNode.SelectFailsIff | daemon/peer.py:264 | Selection succeeds exactly when every record can be tested. Otherwise it raises the first record's exception. |
| PeerNode.TargetsExcludeSelf | daemon/peer.py:264 | The targets are exactly the listed records that are not the peer itself. |
| PeerNode.TargetsConcat | daemon/peer.py:264 | Selection distributes over concatenation, so the order is kept. |
| PeerNode.TrySend | daemon/peer.py:278-283 | A post is made exactly when the record has `ip` and a convertible `port`, and it goes to that address. |
| PeerNode.SendAll | daemon/peer.py:274-284 | The intended loop attempts every target in order. |
| PeerNode.SendAllAsWritten | daemon/peer.py:274-291 | The loop as written attempts no more than the targets. |
| PeerNode.AsWrittenIsPrefix | daemon/peer.py:274-291 | The loop as written performs a prefix of the intended attempts. It performs all of them when nothing escapes. |
| PeerNode.FullRecordLogs | daemon/peer.py:285-291 | Logging never raises for a record with `name`, `ip` and `port`. |
| PeerNode.AsWrittenAgreesOnFullRecords | daemon/peer.py:274-291 | When every record has `name`, `ip` and `port`, the loop as written equals the intended loop. |
| PeerNode.NoFaultOnFullRecords | daemon/peer.py:274-291 | When every record has `name`, `ip` and `port`, no exception escapes the loop. |
| PeerNode.NamelessRecordAbortsBroadcast | daemon/peer.py:285-291 | A record without `name` stops the loop with `KeyError('name')` after its send. Later peers are not contacted. |
| PeerNode.PeersPath | daemon/peer.py:241-243 | The query is `/get-list`, with `?channel=` added when a channel is given. |
| PeerNode.PeerList | daemon/peer.py:252-253 | Only a list of objects survives the log line. Such a list is returned as is. |
| PeerNode.TrackerPeers | daemon/peer.py:247-257 | An empty answer, one without a blank line, or an undecodable one yields no peers. |
| PeerNode.ListReadBack | daemon/peer.py:247-254 | A tracker answer `{'peers': records}` reads back as exactly those records. |
| PeerNode.BroadcastReachesOthers | daemon/peer.py:259-291 | A broadcast reports "no other peers" exactly when no target remains. Otherwise it contacts each target, which is every listed peer but itself. |
| PeerNode.BroadcastSpec | daemon/peer.py:259-291 | `broadcast` with failure-tolerant log lines: the selection's error, no targets, or one attempt per target in order. PeerNode.BroadcastReachesOthers states it. |
| PeerNode.Render | daemon/peer.py:186-198 | Every reply's body reads back and its declared length is the body's length. The preflight reply is empty. |
| PeerNode.Peer.constructor | daemon/peer.py:19-28 | A new peer has the given address, its name (defaulting to `peer-<port>`), an empty inbox and an empty cache. |
| PeerNode.Peer.Prune | daemon/peer.py:128-133 | The cache becomes the pruned cache and the inbox is untouched. |
| PeerNode.Peer.Receive | daemon/peer.py:96-150 | Inbox, cache and status are those of the receive step on the old state. |
| PeerNode.Peer.Drain | daemon/peer.py:153-156 | Draining returns the queued messages in order, empties the inbox and keeps the cache. |
| PeerNode.Peer.HandleConn | daemon/peer.py:78-174 | `OPTIONS` gets the preflight and `/p2p/receive` runs the receive step. `/peer-inbox` drains, and anything else gets 404 with the state unchanged. |
| PeerNode.Peer.Broadcast | daemon/peer.py:259-291 | The outcome is the intended broadcast to the tracker's list. The peer's own address is `localIp` when it is bound to `0.0.0.0`. |
| PeerNode.DrainTwice | daemon/peer.py:155-156 | A second drain right after the first returns nothing. |
| Proxy.LookupRoute | daemon/proxy.py:121-129 | The exact hostname is looked up first, then the part before the first `:`. `None` means neither has a route. |
| Proxy.Choose | daemon/proxy.py:131-149 | The backend text chosen for a route and the counters after the choice, with the empty-list crashes. Proxy.FixedChoiceKeepsCounters, Proxy.RoundRobinStep and Proxy.RoundRobinRun state it. |
| Proxy.FixedChoiceKeepsCounters | daemon/proxy.py:134-149 | A single backend, a one-element list or a non-round-robin policy picks a fixed backend (the only one or the first) without touching the counters. |
| Proxy.RoundRobinStep | daemon/proxy.py:141-146 | With two or more backends, round-robin picks entry `k mod n` for this host's counter `k`. It bumps only that counter. |
| Proxy.RoundRobinRun | daemon/proxy.py:141-146 | `k` consecutive requests get consecutive backends modulo `n`, and the counter grows by `k`. |
| Proxy.SchemeStripped | daemon/proxy.py:152-153 | A target without `://` is unchanged. |
| Proxy.ParseTarget | daemon/proxy.py:150-163 | A chosen backend text as `host:port` with `;` dropped, or port 80 without a colon, or `None` when the port does not convert. Proxy.TargetRoundTrip, Proxy.SchemeRoundTrip and Proxy.DefaultPort state it. |
| Proxy.TargetRoundTrip | daemon/proxy.py:155-157 | `host:port` parses back to `(host, port)`. |
| Proxy.SchemeRoundTrip | daemon/proxy.py:152-157 | `http://host:port` parses back to `(host, port)`. |
| Proxy.SchemePrefix | daemon/proxy.py:152-153 | The scheme is removed when the rest has no second `://`. |
| Proxy.DefaultPort | daemon/proxy.py:158-160 | A target without `:` gets port 80, with its `;` removed. |
| Proxy.ResolveLookup | daemon/proxy.py:121-145 | An unrouted host resolves to nothing and keeps the counters. A port-suffixed host that falls back to its bare route bumps the counter of the full name. |
| Proxy.ResolveSpec | daemon/proxy.py:116-163 | `resolve_routing_policy`: lookup, choice and target parsing, with the counters it leaves and the crashes that end the thread. Proxy.ResolveLookup and Proxy.ResolveSingle state it. |
| Proxy.ResolveSingle | daemon/proxy.py:116-163 | A single `host:port` backend resolves to that pair and keeps the counters. |
| Proxy.Lower | daemon/proxy.py:247 | `lower()` maps each character through its ASCII lower case. |
| Proxy.HostLineFrom | daemon/proxy.py:246-250 | The scan finds the first `host:` line at or after `i`, or reports that there is none. |
| Proxy.HostSpec | daemon/proxy.py:245-253 | The name routed by: the first Host line's value, or `clientIp:proxyPort` when there is none or it is empty. Proxy.ExtractHost and Proxy.HostHeaderRoundTrip state it. |
| Proxy.ExtractHost | daemon/proxy.py:244-253 | The hostname is the value of the first Host line. Without one, it is the client's address and the proxy port. |
| Proxy.HostHeaderRoundTrip | daemon/proxy.py:245-250 | A request whose second line is `Host: h` yields `h`. |
| Proxy.SpacesFrom | daemon/proxy.py:57 | `\s*` from `i` ends at the first non-space. |
| Proxy.FirstMatchFrom | daemon/proxy.py:57 | The scan finds the leftmost `Connection:\s*keep-alive` under `re.IGNORECASE` at or after `i`, or reports that there is none. The case folding includes the Kelvin sign and the dotted and dotless i. |
| Proxy.FoldIgnoreCase | daemon/proxy.py:57-58 | The character `re.IGNORECASE` compares with the lower-case letters of the pattern. Proxy.KelvinSignMatches shows a non-ASCII spelling that matches. |
| Proxy.KelvinSignMatches | daemon/proxy.py:57-58 | `Connection: \u212Aeep-alive` matches the keep-alive pattern and is rewritten to `Connection: close`. |
| Proxy.SubKeepAlive | daemon/proxy.py:58 | `re.sub` of every non-overlapping keep-alive match, leftmost first. Proxy.NoKeepAliveLeft states that no match survives. |
| Proxy.Rewrite | daemon/proxy.py:57-61 | The request rewrite of `forward_request`. Proxy.RewriteKeepsOtherModes, Proxy.RewriteInserts, Proxy.RewriteInsertsAtBlankLine and Proxy.RewriteDropsKeepAlive state its three branches. |
| Proxy.RewriteKeepsOtherModes | daemon/proxy.py:57-59 | A request with some other `Connection:` header is relayed unchanged. |
| Proxy.RewriteInserts | daemon/proxy.py:59-61 | A request without a `Connection:` header gets `Connection: close` before its blank line. A request without a blank line is unchanged. |
| Proxy.RewriteInsertsAtBlankLine | daemon/proxy.py:59-61 | Without a `Connection:` header, `Connection: close` goes before the first blank line, the text before it is kept, and later blank lines are rewritten likewise. With one blank line nothing else changes. |
| Proxy.RewriteDropsKeepAlive | daemon/proxy.py:57-58 | After the rewrite no `Connection: keep-alive` remains, in any case. |
| Proxy.NoKeepAliveLeft | daemon/proxy.py:58 | `re.sub` leaves no match of the pattern behind. |
| Proxy.ForwardRequest | daemon/proxy.py:34-90 | A port outside 0..65535 raises `OverflowError`, which escapes, exactly when the port is out of range. Otherwise a reachable backend gets the rewritten request and the client gets the backend's bytes, and an unreachable one yields the fixed 502 page. |
| Proxy.UnroutedGets404 | daemon/proxy.py:234-271 | For any non-empty received bytes, even ones that decode to no text: without a resolved, non-empty host and a non-zero port, the client gets the fixed 404 page and nothing is relayed. |
| Proxy.HandleSpec | daemon/proxy.py:215-277 | `handle_client` on the received bytes and their decoded text: nothing when `recv` returned no bytes, otherwise host extraction from the text (falling back to the client's address when it is empty), resolution, then the resolved handling. Proxy.UnroutedGets404, Proxy.RoutedIsRelayed and Proxy.UndecodableStillRouted state it. |
| Proxy.UndecodableStillRouted | daemon/proxy.py:234-257 | Received bytes that decode to the empty text are still routed, by `client_ip:port`, and resolved like any request, so the round-robin counter still moves. |
| Proxy.HandleResolved | daemon/proxy.py:257-277 | The handling after resolution: no reply when resolution or `connect` raises, 404 without a truthy host and port, otherwise `forward_request`'s reply. Proxy.UnroutedGets404 and Proxy.RoutedIsRelayed state it. |
| Proxy.RoutedIsRelayed | daemon/proxy.py:234-261 | For any non-empty received bytes, a resolved target with a port in 0..65535 gets the rewritten request, and the client gets the backend's reply or the 502 page. With a port out of range the thread ends with no reply and nothing relayed. |
| Proxy.Router.constructor | daemon/proxy.py:31 | The round-robin counters start empty. |
| Proxy.Router.Resolve | daemon/proxy.py:116-163 | The result and the new counters are those of the resolution function. |
| Proxy.Router.HandleClient | daemon/proxy.py:215-277 | Reply, relayed request and new counters are those of the handling function: the emptiness test is on the received bytes, and there is no reply when resolution or `connect` raises. |
| LegacyProxy.SplitTarget | proxy.py:85-90 | `split(':', 1)` then `int()`: a pair exactly when there is a `:` and the rest converts. The host has no `:`. |
| LegacyProxy.SplitTargetRoundTrip | proxy.py:86-87 | `host:port` splits back to `(host, port)`. |
| LegacyProxy.SchemeNotStripped | proxy.py:86-87 | `http://host:port` fails here but parses in the newer proxy. |
| LegacyProxy.ExactLookupOnly | proxy.py:75-78 | Only the exact hostname is looked up. A port-suffixed name that the newer proxy would route resolves to nothing. |
| LegacyProxy.PickSpec | proxy.py:80-120 | The old proxy's choice: the single backend, nothing for an empty or missing list, round-robin with the counter bumped, or the first entry. LegacyProxy.RoundRobinAdvances, LegacyProxy.FirstEntryPolicy and LegacyProxy.NoBackends state it. |
| LegacyProxy.ResolveSpec | proxy.py:69-120 | `resolve_routing_policy` of proxy.py: exact lookup, the choice, then `SplitTarget`. LegacyProxy.ExactLookupOnly and LegacyProxy.SingleBackend state it. |
| LegacyProxy.SingleBackend | proxy.py:83-90 | A single `host:port` resolves to that pair. A single text without a port resolves to nothing. |
| LegacyProxy.NoBackends | proxy.py:93-95 | An empty list, or a backend that is neither text nor list, resolves to nothing. |
| LegacyProxy.RoundRobinAdvances | proxy.py:97-108 | Round-robin picks entry `k mod n` and bumps only this host's counter. |
| LegacyProxy.FirstEntryPolicy | proxy.py:109-117 | Any other policy uses the first entry and keeps the counters. |
| LegacyProxy.SingletonListCounters | proxy.py:97-101 | A one-element round-robin list bumps the counter, while the newer proxy leaves it alone. |
| LegacyProxy.LastHostLine | proxy.py:161-163 | The scan finds the last `host:` line before `n`, or reports that there is none. |
| LegacyProxy.LastHost | proxy.py:161-163 | The value of the last Host line, or `None` for the unbound `hostname`. LegacyProxy.LastHostWins and LegacyProxy.LaterLinesKeepHost state it. |
| LegacyProxy.ExtractHost | proxy.py:161-163 | The hostname is the value of the last Host line, or nothing when there is none. |
| LegacyProxy.LastHostWins | proxy.py:161-163 | With two Host lines the old proxy takes the second and the newer one takes the first. |
| LegacyProxy.LaterLinesKeepHost | proxy.py:161-163 | Lines after the last Host line do not change the hostname. |
| LegacyProxy.UnroutedGets404 | proxy.py:171-186 | With no usable target, or an unreachable backend on a port in 0..65535, the client gets the fixed 404 page. A usable target whose port is out of range ends the thread with no reply. |
| LegacyProxy.HandleSpec | proxy.py:122-187 | `handle_client` of proxy.py: no reply without a Host line or for a port `connect` refuses, the backend's bytes, or the 404 page. LegacyProxy.UnroutedGets404 and LegacyProxy.RoutedIsRelayed state it. |
| LegacyProxy.RoutedIsRelayed | proxy.py:171-173 | A reachable target with a port in 0..65535 gets the request unchanged, and the client gets the backend's bytes. A port out of range ends the thread with no reply and nothing relayed. |
| LegacyProxy.OldRouter.constructor | proxy.py:30 | The round-robin counters start empty. |
| LegacyProxy.OldRouter.Resolve | proxy.py:69-120 | The result and the new counters are those of the resolution function. |
| LegacyProxy.OldRouter.HandleClient | proxy.py:122-187 | Reply and new counters are those of the handling function, including no reply when there is no Host line or `connect` raises `OverflowError`. |
| VirtualHosts.RunEnd | start_proxy.py:66 | A character-class run ends at the first character outside the class. |
| VirtualHosts.BlockAt | start_proxy.py:66 | A matched block has a non-empty name without `"`. Its body stops at the first `}`. |
| VirtualHosts.Blocks | start_proxy.py:66 | `re.findall` of the host-block pattern over the whole text, as non-overlapping leftmost matches. VirtualHosts.ConfigRoundTrip states it on a rendered block. |
| VirtualHosts.NoCloseBefore | start_proxy.py:66 | The lazy `(.*?)\}` stops at the first `}`. |
| VirtualHosts.PassAt | start_proxy.py:72 | A matched `proxy_pass` address is non-empty, with no spaces or `;`. |
| VirtualHosts.AddrAt | start_proxy.py:72 | `(?:http://)?([^\s;]+);` yields a non-empty address of allowed characters. |
| VirtualHosts.PassesFrom | start_proxy.py:72 | Every address that `findall` collects is non-empty. |
| VirtualHosts.PolicyAt | start_proxy.py:75 | A policy match starts with `dist_policy` and has a non-empty name. |
| VirtualHosts.PolicyFrom | start_proxy.py:75-76 | `re.search` finds the leftmost policy match, or reports that there is none. |
| VirtualHosts.Policy | start_proxy.py:75-76 | The first `dist_policy` word of a block, or `round-robin` when there is none. VirtualHosts.ConfigRoundTrip states it. |
| VirtualHosts.BlockRoute | start_proxy.py:72-82 | A block's addresses with its policy, or nothing when it has no `proxy_pass`. VirtualHosts.LastBlockWins states it. |
| VirtualHosts.RoutesOf | start_proxy.py:79-80 | Every stored route is a non-empty backend list. |
| VirtualHosts.ParseVirtualHosts | start_proxy.py:66-88 | The loop builds the routes of the blocks found in the text. |
| VirtualHosts.LastDefining | start_proxy.py:79-80 | The result is the last block with this name that has a `proxy_pass`. |
| VirtualHosts.LastBlockWins | start_proxy.py:79-80 | A host has a route exactly when some block of that name has addresses. The last such block decides the route. |
| VirtualHosts.ParsedRoutesNeverCrash | start_proxy.py:79-80 | The newer proxy's resolution never crashes on parsed routes, and the old proxy always picks a backend for a routed host. |
| VirtualHosts.ConfigRoundTrip | start_proxy.py:66-80 | Reading back a rendered block gives its addresses and policy. |
| Adapter.Put | daemon/httpadapter.py:181-182 | Setting a header changes that header's value only. |
| Adapter.MergeLookup | daemon/httpadapter.py:189 | `{..., **extra}`: a header in `extra` overrides, others keep their values. |
| Adapter.LastValueCons | daemon/httpadapter.py:189 | The last occurrence of a name in a list of pairs decides its value. |
| Adapter.TemplateHeaderValues | daemon/httpadapter.py:189 | A template reply's `Content-Type` is the template's own unless its extra headers override it. |
| Adapter.Creds | daemon/httpadapter.py:162-166 | No form key contains `=`. |
| Adapter.ParseCreds | daemon/httpadapter.py:161-166 | The loop builds the credentials from the `&`-separated pieces. |
| Adapter.LaterPairWins | daemon/httpadapter.py:164-166 | A later `key=value` piece overrides an earlier one, and the split is at the first `=`. |
| Adapter.PieceWithoutEqualsIgnored | daemon/httpadapter.py:164 | A piece without `=` is ignored. |
| Adapter.LoginFormRoundTrip | daemon/httpadapter.py:161-166 | `username=U&password=P` parses back to its two fields. |
| Adapter.PageBody | daemon/httpadapter.py:177 | The body is a suffix of the page, or the whole page when it has no blank line. |
| Adapter.PageBodyOfFrame | daemon/httpadapter.py:177 | The body of a framed page is exactly the framed body. |
| Adapter.LoginSpec | daemon/httpadapter.py:158-189 | Good credentials give `200 OK` with the chat page, `Set-Cookie: auth=true; Path=/` and HTML type. Bad ones give the login-failed template, and the path is kept. |
| Adapter.LoginAcceptsOnlyAdmin | daemon/httpadapter.py:169 | A login form is accepted exactly for `admin` and `password`. |
| Adapter.GuardSpec | daemon/httpadapter.py:191-212 | `/` and `/chat.html` without `auth=true` get the 401 template. `/` becomes `/chat.html`, and other paths pass unchanged. |
| Adapter.GuardIdempotent | daemon/httpadapter.py:198-212 | Passing the guard twice is the same as passing it once. |
| Adapter.LoginCookieOpensGuard | daemon/httpadapter.py:182 | The login cookie is `auth=true`, and it opens the guard for the chat page. |
| Adapter.IndentedPageIsHtml | daemon/httpadapter.py:265 | Text starting with `<!DOCTYPE` or `<html`, after any whitespace, is HTML. |
| Adapter.UpperCaseTagIsPlain | daemon/httpadapter.py:265 | The test is case-sensitive, so `<HTML>` counts as plain text. |
| Adapter.Normalise | daemon/httpadapter.py:251-281 | The reply is `200 OK` exactly when the handler returned a result that renders. A handler exception, a result `json.dumps` rejects and an object whose `str()` raises all give `500 Internal Server Error` with the exception's text as body. A `str` gets the HTML type exactly when it opens with a page tag. Every body except the bare `OK` declares its byte length. |
| Adapter.DeclaredLengthIsBodyLength | daemon/httpadapter.py:259-281 | The declared `Content-Length` of a normalised reply is its body's byte length. |
| Adapter.Invoke | daemon/httpadapter.py:241-249 | `func(headers, body)`, then `func(body)` on any `TypeError`, then `func()` on any `TypeError` again. Adapter.ArityFallback and Adapter.OwnTypeErrorRetried state it. |
| Adapter.ArityFallback | daemon/httpadapter.py:241-249 | A handler that accepts exactly one of the three argument lists is called with that list. |
| Adapter.OwnTypeErrorRetried | daemon/httpadapter.py:243-249 | A `TypeError` raised inside a `(headers, body)` handler triggers the later calls, and the 500 body carries the last call's message. |
| Adapter.HandleWeaprous | daemon/httpadapter.py:224-281 | The call chain, then normalisation: `200 OK` exactly when neither the chosen call nor the rendering of its result raised, otherwise the 500 reply with that exception's text. Adapter.Normalise, Adapter.HandlerComesFirst and Adapter.SendShapes state the rest. |
| Adapter.HandleStatic | daemon/httpadapter.py:283-291 | The file's bytes under the `__RAW__` marker. Adapter.SendShapes states that they are sent verbatim. |
| Adapter.Dispatch | daemon/httpadapter.py:214-222 | The handler when one is registered, the static file otherwise. Adapter.CookieServesChatPage and Adapter.UnguardedPathServed state the static side. |
| Adapter.Send | daemon/httpadapter.py:293-304 | A `__RAW__` triple is sent verbatim, and every other one is composed from its parts. |
| Adapter.SendShapes | daemon/httpadapter.py:283-304 | Static files are sent verbatim and handler results are composed. |
| Adapter.ClientSpec | daemon/httpadapter.py:86-123 | A parse failure gives the 500 template. A guarded path without the cookie gets the 401 template. |
| Adapter.ServerError | daemon/httpadapter.py:114-123 | The 500 template's status and headers with its body and a newline. Adapter.ClientSpec states that an unparsed request gets it. |
| Adapter.HandlerComesFirst | daemon/httpadapter.py:94-95 | A registered handler answers before login and the guard. |
| Adapter.LoginComesBeforeGuard | daemon/httpadapter.py:99-101 | `POST /login` is handled by the login step whatever the cookies. |
| Adapter.RefusedWithoutReadingFiles | daemon/httpadapter.py:104-108 | A refused request does not depend on the files. |
| Adapter.CookieServesChatPage | daemon/httpadapter.py:104-112 | With the cookie, `/` and `/chat.html` serve the chat page verbatim. |
| Adapter.UnguardedPathServed | daemon/httpadapter.py:110-112 | Other paths are served from their files. |
| Adapter.LoginThenChat | daemon/httpadapter.py:169-209 | The cookie set by a good login makes `GET /` serve the chat page. |
| Adapter.Request.constructor | daemon/httpadapter.py:149-155 | The request holds the parsed verb, path, headers, body, cookies and hook. |
| Adapter.HttpAdapter.constructor | daemon/httpadapter.py:48-65 | The adapter holds its address and connection. |
| Adapter.HttpAdapter.HandleLogin | daemon/httpadapter.py:158-189 | The reply and the new path are those of the login function. |
| Adapter.HttpAdapter.CookieAuthGuard | daemon/httpadapter.py:191-212 | The early reply and the new path are those of the guard function. |
| Adapter.HttpAdapter.HandleClient | daemon/httpadapter.py:69-130 | The adapter records the connection. The sent reply and the final path are those of the client function. |

## Left out

- Sockets, `accept` loops, threads and locks are left out. Each request is one call, and concurrent interleavings are not modelled.
- The early return on an empty or short request (`daemon/tracker.py:50-57`, `daemon/peer.py:66-75`) is outside the model. The model starts from the parsed verb, route and body.
- The request line and query string are not parsed (`urlparse`, `parse_qs`). The route and the `channel` query value are inputs.
- JSON text is not parsed or printed. `json.loads` is an input: the decoded value, or a failure with its message. `json.dumps` output is given as bytes to the framing functions.
- JSON numbers are integers; floating point is left out. `time.time()` is an integer millisecond clock passed in, so the 2-second and 5-second windows are 2000 and 5000.
- `str()` of a dict is the fixed placeholder `{...}`, because a Dafny map has no order. Lists are rendered item by item with `repr`. So two different dicts give the same text where Python gives two texts. This reaches every place that formats a JSON value with `str()`, listed in the lines below and in the text of 500 messages.
- Tracker.PeerId: an `ip` or `port` that is a dict renders as `{...}`, so two records whose dicts differ get one id and one table entry where Python keeps two.
- Tracker.ForwardId: the id printed by the relay has the same `{...}` gap for a dict-valued `ip` or `port`.
- PeerNode.DedupeKey: the sender's `ip`, the channel and the message are rendered with `str()`. Two different dict values in any of these give the same key, so the second copy within 2 s is dropped as a duplicate where Python accepts it. `PeerNode.DuplicateIgnored`, `PeerNode.FreshAccepted` and `PeerNode.WindowFromFirstCopy` inherit this.
- PeerNode.PeersPath: a dict-valued `channel` appears in the path as `{...}`.
- Json.ReprStr: `repr` of a string escapes the backslash, the quote and the ASCII control characters. Python also escapes the non-printable characters beyond ASCII, such as U+0085 and U+00A0, as `\x..`, `\u....` or `\U........`; the model shows them as they are.
- Json.PyIntOf: `int()` also accepts the decimal digits of other scripts, such as `'٣'` or the full-width `'９'`. The model accepts only ASCII digits, so such a port or number reads as a `ValueError` here. `Strings.IsDigit` is ASCII only for the same reason.
- The iteration order of a channel's member set is an input. `Enumerate` picks one order, and the lemmas hold for every order.
- The network is a parameter. A POST to a peer or a backend returns a delivery outcome, a backend's reply or "unreachable". A read timeout ends the backend's reply, which is then the bytes read so far.
- Proxy.ForwardRequest: when `sendall` succeeds and a later `recv` raises an error other than a timeout (daemon/proxy.py:64-70), the source answers 502 (daemon/proxy.py:81-90) although the backend already received the rewritten request. The backend outcome has no such case: "unreachable" records nothing as relayed.
- UDP discovery (`udp_announce`, `_udp_listener`) and `_local_ip` are left out. The local address enters `Peer.Broadcast` as the `localIp` parameter.
- The peer's `register_to_tracker` and `add_to_channel` are not modelled. They only send requests whose handling is modelled in `Tracker`. `get_peers_from_tracker` is modelled on the reply bytes it receives.
- `Request.prepare`, `Response.build_response`, `Response.compose` and `RESP_TEMPLATES` are not part of this model. Files are read through a `page` parameter, and templates are a parameter.
- A handler is modelled by what each of its three possible calls does. Which exceptions are `TypeError`s, and the interpreter's binding messages, are part of that input.
- `extract_cookies`, `build_response`, `build_proxy_headers` and `add_headers` of the adapter are outside the core: nothing on the modelled paths calls them.
- The file read in `parse_virtual_hosts` is left out. The file's text is the input, and a missing file is not modelled.
- VirtualHosts.PolicyFrom and VirtualHosts.Policy: `\w` in the `dist_policy` pattern covers ASCII letters, digits and `_` only. Python's `\w` also matches other Unicode letters and digits, so `dist_policy rønd;` gives the policy `rønd` there and `r` here. `\s` and `str.isspace` use Python's whitespace set.
- Starting the servers (`run_tracker`, `run_proxy`, `create_proxy`, `Peer.start`) is left out. These are entry points that open sockets.
- Proxy.HandleSpec and Proxy.Router.HandleClient: the received bytes and their text are separate inputs. UTF-8 decoding with `errors='ignore'` (daemon/proxy.py:238) is not computed, so nothing ties the text to the bytes beyond what the caller passes.
- Adapter.Normalise: a `str` result holding a lone surrogate makes `.encode('utf-8')` raise, which the source answers with a 500. Strings here hold Unicode scalar values only, so that case cannot be expressed.
- LegacyProxy.OldRouter.HandleClient: `recv(1024).decode()` in strict mode raises on bytes that are not UTF-8. The request is taken as already-decoded text, so that failure is not modelled.
- Proxy.ForwardRequest and LegacyProxy.HandleSpec: `connect` also raises errors other than `socket.error` for some host texts, such as a name with a NUL character or one the IDNA codec cannot encode. The backend outcome folds those into "unreachable", where Python ends the thread. Only the out-of-range port is modelled as a thread death.
- Proxy.ExtractHost and LegacyProxy.ExtractHost: the request is the decoded text of one `recv`, so requests longer than 4096 or 1024 bytes are not cut.

## Findings

| source | as written | input that shows it | evidently intended | confidence | as-written member | corrected member |
|---|---|---|---|---|---|---|
| daemon/peer.py:285-291 | The success and failure log lines index `p['name']`. For a record without `name`, the `KeyError` from line 285 is caught at line 290, and line 291 raises it again outside any handler. This ends `broadcast`. | Tracker records `[{'ip': '10.0.0.2', 'port': 9100}, {'ip': '10.0.0.3', 'port': 9101, 'name': 'bob'}]`. The tracker registers records without `name` (`daemon/tracker.py:91-92`). The first peer is contacted and the second never is. | Every target is attempted whatever the record's fields, with `p.get('name')` for logging. | not executed | PeerNode.SendAllAsWritten, PeerNode.NamelessRecordAbortsBroadcast | PeerNode.SendAll, PeerNode.AsWrittenAgreesOnFullRecords, PeerNode.Peer.Broadcast |
