# Close-command coordination of the Mongoose fleet test harness

This project models the coordination logic of a fault-injection harness built
on the Mongoose networking library. The harness runs a fleet of HTTP(S)
servers and a matching fleet of clients that keep probing them. A client can
tell a server to make another server drain its connections; the drained
server keeps its listener and accepts new connections straight away.

The model covers two files:

- `server.c` is in module `Server` (`server.dfy`). It holds the per-server
  record `res_s`, the close-command route `/api/close/<digit>`, the poll rule
  that drains accepted connections and ends a drain, fleet start-up, and the
  coordinator pass. `main` runs that pass after every `mg_mgr_poll`.
- `client.c` is in module `Client` (`client.dfy`). It holds the per-client
  record, the timer `timer_fn`, and the connection event handler `fn`. The
  timer sends `CONNS` stats probes and then one close command. The handler
  manages deadlines, re-probes, draining, and release of the connection's
  copy of the record.

Module `Basics` (`basics.dfy`) holds bytes, `Option`, ASCII literals and the
decimal text that `sprintf("%u")` writes. Module `CloseCommand`
(`close_command.dfy`) joins the two sides: the path a client writes, what the
server reads from it, and what the coordinator then does.

The code mutates state in place, and the model keeps that form. Each fleet
(`res[SERVERS]`) is an `array` of records. A pointer into a fleet is an index:
`fn_data` of a server connection is its `res`, and `pconnected` of a client
copy is its `observer`. Connections are classes whose handler methods update
their own fields and the fleet array. Each such method is proved equal to a
pure function: `CoordinatorPass` to `Coordinate`, `OnPoll` to `PollStep`,
`OnTimer` to `TimerStep`, and `Handle` to `Step`. Lemmas about those
functions state what the source promises over whole runs:

- drain and resume on the server;
- `CONNS` probes before each close command;
- client 0 never sends a close command;
- every connection's copy of the record is released exactly once.

Three points of the code's behaviour that are easy to misread, as the model has them:

- The close reply uses the format `{%m: %m}`, so its body is
  `{"result": "OK"}` or `{"result": "ERROR"}`, with a space after the colon.
- The close route checks for one ASCII digit (`< 10`), not for a valid server
  id. It reads byte 11 only, so `/api/close/12` names server 1. Client `i`
  writes `i - 1` in decimal, so for `i >= 11` the server reads only the
  leading digit (`CloseCommand.ServerReadsLeadingDigit`).
- `client.c`'s `main` never sets a client's `connected` flag, so its first
  value is arbitrary. `Client.InitFleet` takes it as an input.

## Model

| member | source | states |
|---|---|---|
| `Basics.Decimal` | client.c:88 | `%u` text: one or more ASCII digits; the first is the number's leading digit and is not `0` for numbers of two digits or more; the last is `n % 10` |
| `Basics.DecimalRoundTrip` | client.c:88 | Reading the digits back gives the number: `DigitsValue(Decimal(n)) == n` |
| `Server.RouteOf` | server.c:35-61 | The handler's three branches: `/api/stats` exactly when the URI equals that path; the close branch exactly when it is something else that starts with `/api/close/`; static files otherwise |
| `Server.ReplyBody` | server.c:55 | The close reply body `{%m: %m}` with `result` and `OK` or `ERROR`: it starts with `{"result": "`, ends with `"}`, and is 16 bytes for `OK`, 19 for `ERROR` |
| `Server.CloseTarget` | server.c:49-50 | `uint8_t target = uri[11] - '0'` is below 10 exactly when byte 11 is an ASCII digit, and then it equals that digit's value; no other byte matters |
| `Server.RecordClose` | server.c:49-54 | An accepted close request sets `close_this` to the digit; a rejected one leaves the record unchanged |
| `Server.LastCloseWins` | server.c:53 | An accepted request overwrites an earlier pending target: there is no queue |
| `Server.ServerConn.OnHttpMsg` | server.c:32-61 | `/api/stats` and static paths change no state. A close request records the target only on its own server and replies 200 with `{"result": "OK"}` exactly when byte 11 is a digit, else `{"result": "ERROR"}` |
| `Server.PollStep` | server.c:66-77 | Listener poll: clears `must_close` exactly when no child was seen, always resets `connected`, and is never marked closing. Accepted poll: sets `connected`, is marked closing exactly when `must_close`, and leaves `must_close` alone. Neither touches `close_this` or `id` |
| `Server.DrainWindow` | server.c:67-76 | Over any sequence of listener and accepted polls: the drain stays on exactly while every listener poll has seen an accepted poll since the one before. Meanwhile every accepted poll is marked closing, and the listener never is |
| `Server.ServerConn.OnPoll` | server.c:66-77 | The poll branch updates its server's record as `PollStep` says and sets `is_closing` only when told to; a listener is never marked closing |
| `Server.Forward` | server.c:107-118 | One iteration of the coordinator loop: a pending server's `close_this` becomes `0xFF`, others keep theirs, and no other `close_this` changes. `must_close[t]` becomes set exactly when it was or the server's pending command names `t`. `id`, `connected` and the listener are untouched |
| `Server.PassFrom` | server.c:106-119 | The coordinator loop from index `i`, run in order, acts as if every pending command were read first. A pending server's `close_this` becomes `0xFF` and others keep theirs. `must_close[t]` is old `must_close[t]` or a pending command at index `>= i` naming `t`. `id`, `connected` and the listener are untouched |
| `Server.Coordinate` | server.c:106-119 | A whole pass. Skipped servers (no listener or `0xFF`) keep `close_this`; pending ones end at `0xFF`. Each in-range target gets `must_close`, and no other `must_close` changes. `connected`, `id` and the listener never change |
| `Server.CoordinateMonotone` | server.c:106-119 | A pass never clears `must_close`, and with no command pending it changes nothing |
| `Server.CoordinatorPass` | server.c:106-119 | The in-place loop over the fleet array leaves exactly `Coordinate` of the old fleet |
| `Server.InitFleet` | server.c:89-101 | After start-up, every server `i` has `id == i % 256` (`== i` for fleets of at most 256), `must_close` and `connected` false, `close_this == 0xFF`, and nothing pending |
| `Client.Spawn` | client.c:84-88 | The copy for a new connection has the parent's URL followed by the path suffix, the parent's `count` and `connected`, `pconnected` pointing at the parent, and `id == 100*id + count` when that fits 32 bits |
| `Client.TimerStep` | client.c:77-101 | A tick keeps the client's `id` and URL. It spawns a copy exactly when `count < CONNS`, or `count == CONNS` with `connected` set and `id != 0`; the copy points at the parent and its URL strictly extends the parent's. Below `CONNS` it counts one and keeps the flag; at or past it, it clears the flag |
| `Client.ProbeTick` | client.c:92-100 | Below `CONNS` a tick spawns one copy and increments `count` by one. The copy's URL is the parent's plus `/api/stats`, its `id` is `100*id + count` (pre-increment, modulo 2^32), and its `pconnected` points at the parent |
| `Client.ThresholdTick` | client.c:79-91 | At `count >= CONNS`: `count` resets to 0 exactly when `connected` was false, and `connected` is always cleared. A reset spawns nothing. A copy is spawned exactly when `count == CONNS`, `connected` and `id != 0`; its URL is the parent's plus `/api/close/` and `id - 1`, and `count` becomes `CONNS + 1` |
| `Client.ClientZeroNeverCloses` | client.c:83 | Over any run of ticks and polls, client 0 spawns nothing whose URL ends in a digit |
| `Client.TimerKeepsCountBounded` | client.c:79-100 | From `count <= CONNS + 1`, a tick keeps `count <= CONNS + 1`; since start-up sets `count` to 0, the count never passes `CONNS + 1` |
| `Client.SpawnDrainsIffClose` | client.c:79-100 | A spawned copy's URL ends in a digit, so it drains on its response, exactly when it is the close command |
| `Client.ProbesUpToThreshold` | client.c:92-100 | From `count = c <= CONNS`, `CONNS - c` ticks, with any polls between them, each spawn a stats probe pointing at the parent. They end at `count == CONNS`, with `connected` set exactly when it was set before or some poll in between saw a connection |
| `Client.ProbeCycle` | client.c:79-100 | From `count == 0` with `id != 0`, whatever polls come between the ticks: ticks 1 to `CONNS` spawn stats probes only. Tick `CONNS + 1` spawns the close command `/api/close/<id-1>` and leaves `count == CONNS + 1` if `connected` was set at the start or by any poll of the cycle; otherwise it spawns nothing and resets `count` to 0 |
| `Client.CloseCommandsWellSpaced` | client.c:79-100 | However polls and ticks interleave, every close command is preceded by at least `CONNS` probes since the previous close command or since start-up |
| `Client.OnTimer` | client.c:77-101 | `timer_fn` in place: the client's record and the spawned copy are those of `TimerStep`, and every other record is unchanged |
| `Client.InitFleet` | client.c:111-115 | After start-up, client `i` has `id == i`, `count == 0`, the `i`-th address as URL, its unset `connected` flag as given, and no `pconnected` |
| `Client.Step` | client.c:37-74 | One event of the handler: only a poll writes `*pconnected`; only a close releases the copy, once; a request is sent on connect and on a poll past the deadline of an established connection; a response drains exactly when the URL ends in a digit; the timeout is raised only by a poll past the deadline while still connecting; errors, responses and closes keep the deadline |
| `Client.DeadlineRules` | client.c:39-49 | Open sets the deadline to `now + 500`; connect sends the request and sets it to `now + 997` |
| `Client.PollRules` | client.c:62-73 | Every poll sets `*pconnected`. Past the deadline, a connection still connecting or resolving raises the connect timeout and keeps its deadline, while an established one re-sends and moves the deadline to `now + 997`. Up to the deadline nothing else changes |
| `Client.DrainOnResponse` | client.c:50-56 | A response marks the connection draining exactly when the last byte of its URL is `'0'..'9'` |
| `Client.ReleasesOnlyOnClose` | client.c:57-61 | Over any event sequence, releases grow by exactly the number of close events; errors, timeouts and polls release nothing |
| `Client.ReleasedExactlyOnce` | client.c:57-59 | Over a connection's life (open first, close last and only then), its copy is released exactly once, also after a connect timeout |
| `Client.ClientConn.Handle` | client.c:37-74 | The event handler in place: the connection's deadline, drain mark, timeout, requests and releases follow `Step`; a poll sets the parent's `connected` and nothing else in the fleet changes |
| `CloseCommand.ServerReadsLeadingDigit` | server.c:48-50 | The path `/api/close/<id-1>` from client `id` takes the close route and is accepted. The server reads the leading digit of `id - 1`, which is `id - 1` itself for clients 1 to 10 |
| `CloseCommand.TwoDigitPathReadsFirstDigit` | server.c:49 | `/api/close/12` names server 1 |
| `CloseCommand.CloseCommandReachesTarget` | client.c:83-90 | Client `id` (1 to 10) at the end of a cycle sends `/api/close/<id-1>`. The receiving server answers OK and records `id - 1`. Given that no other server has a command pending, the next coordinator pass consumes the command and drains server `id - 1` when the fleet has it, and no other drain flag changes |
| `CloseCommand.OutOfRangeTargetIgnored` | server.c:109-117 | A pending target outside the fleet (say `9` with three servers) is consumed, and no `must_close` changes |

## Left out

- Mongoose engine calls are left out: `mg_mgr_poll`, `mg_http_listen`, `mg_http_connect`, `mg_tls_init`, `mg_http_serve_dir` and `mg_error`. Foreign calls appear only as effects. A listen result is an input to `Server.InitFleet`. A connect is the copy `OnTimer` returns. A serve is the `StaticFile` reply. `mg_error` is the `timedOut` mark.
- The `/api/stats` chunked table is not modelled (server.c:35-47). It formats the engine's own connection list, so the model only returns `StatsTable`.
- Request text from `sreq` is not modelled, and neither are `mg_url_host`, `mg_url_uri` or `mg_url_is_ssl`. A sent request is a count (`sent`). The server is given the URI path directly.
- Route matching with `mg_match` is a prefix test on the path for `/api/close/` and an equality test for `/api/stats`.
- Server.ServerConn.OnHttpMsg: requires a close-route URI of at least 12 bytes. The URI `/api/close/` matches the route, but then the code reads the byte after the URI in the receive buffer, which this model does not have.
- TLS options, certificates and all logging (`MG_INFO`, `MG_ERROR`) are left out. The coordinator's error on a missing server is only the absence of a state change.
- Wall-clock time is not modelled: each event carries `now` in place of `mg_millis()`. Timer periods are left out; a timer firing is one `OnTimer` call. Millisecond deadlines are unbounded integers, with no 64-bit wrap-around.
- The `while (true)` loops are not modelled. The model gives one coordinator pass or one timer tick. Run-level lemmas (`Polls`, `Observed`, `Run`) cover finite sequences of events.
- `malloc`, `memcpy` and `free` are not modelled as memory. The copy is a value that the connection owns, and `free` counts as a release (`releases`).
- Client.OnTimer: the URL buffer of 50 bytes is not modelled. The code does not check it, so the model's URL has no length bound. A URL is taken to contain no NUL byte, so `strlen` is its length.
- Client.ClientConn.Handle: requires a non-empty URL, as `url[strlen(url) - 1]` does. Every spawned copy's URL ends with a path suffix.
- Client.InitFleet: requires at most 2^32 clients, the range of the `unsigned int` loop index.
- The engine's `is_connecting`/`is_resolving` flags are an input of each poll event (`pending`). The model does not derive them from the connection's history.
- `servers.h` is not part of this model. `SERVERS` is the length of each fleet array, and the address list is an input.
