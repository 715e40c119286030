# proxy_gateway core, modelled in Dafny

A model of the decision logic inside `proxy_gateway`, a TLS-terminating reverse
proxy. The proxy accepts HTTPS connections and routes each request by its
`Host` header to a local backend service. It forwards the request over a
persistent connection owned by a per-port backend worker. The backend's reply
goes back to the client with four security headers added. The sockets, TLS,
threads and channels are replaced by their results, given as inputs. What
remains is a set of pure functions and one state machine:

- `GatewayConfig` (`config.dfy`): the configuration builder
  (`map_host_to_port`, `set_primary_host`, `set_default_port`) over an
  immutable `Config`. A panicking call is modelled as a `Failure(OddPort(p))`
  result. `Valid` is the invariant every built configuration keeps: all ports
  are even, every routed port and the default port are in `allPorts`, and
  `invHosts` covers the inverse of `hostPort`.
- `Ascii` (`ascii.dfy`): `safe_ascii`, the log sanitiser.
- `Http` (`http.dfy`): the request header classes and the response shape the
  gateway reads and writes.
- `Frontend` (`frontend.dfy`): the per-connection task of `gateway443`, as one
  function `Serve`. Its inputs are the results of TLS accept, the first read,
  the decoder's verdict, the second read, the request conversion, the mailbox
  send and the reply wait. Its output is an `Exchange`: how many bytes the
  second read asked for, what was dispatched, and the answer (silence, 400,
  404 or the proxied response).
- `Backend` (`backend.dfy`): the backend worker as a step function
  `Step(worker, event)`. The function returns the next state and the effects:
  sleeps, connection attempts, queries, replies and stale drops. Time is an
  integer clock in milliseconds.
- `Gateway` (`gateway.dfy`): the startup checks of `gateway443`, the worker
  pool (one worker per configured port), and how the front end's dispatch
  meets the workers.
- `Lifecycle` (`lifecycle.dfy`): the bind-retry backoff of `service_main`.
- `Wrappers`, `Primitives`: `Option`/`Result`, and the `u8`/`u16` widths.

Three behaviours of the code are worth stating up front, because the model
reproduces them as written:

- A request in the retry slot is not a one-shot retry. Every failed query puts
  it back into the slot with its original enqueue time, so it is retried after
  every reconnection until it is stale (two seconds after it was enqueued), and
  then dropped (src/lib.rs:430-453, 476-485).
- After a successful reconnection, the retry slot is tried before the mailbox.
  A query failure does not change the port. Only connect and handshake
  failures move the worker to the other port (src/lib.rs:402-428).
- `invHosts` is not an exact inverse of `hostPort`. Remapping a host leaves it
  listed under its old port too (`GatewayConfig.StaleInverseEntry`). Nothing
  in the core reads `invHosts`.

## Model

| member | source | states |
|---|---|---|
| `GatewayConfig.MapHostToPort` | src/lib.rs:52-74 | Fails exactly when the port is odd. Otherwise the port joins `allPorts`, the host now routes to the port and is listed under it, and every other host's route and every other port's host set stay the same. The primary host becomes this host only if none was set before. `Valid` is preserved. |
| `GatewayConfig.SetPrimaryHost` | src/lib.rs:76-80 | The primary host is overwritten unconditionally and nothing else changes. `Valid` is preserved. |
| `GatewayConfig.SetDefaultPort` | src/lib.rs:82-89 | Fails exactly when the port is odd. Otherwise the port joins `allPorts`, it becomes the default port, and routes and the primary host are unchanged. `Valid` is preserved. |
| `GatewayConfig.BuildFrom` | src/lib.rs:52-89 | A sequence of configuration calls fails exactly when one of them names an odd port. Its result keeps `Valid`. |
| `GatewayConfig.Build` | src/lib.rs:42-89 | Every configuration built from the empty default is `Valid`: all ports even, every routed port and the default port in `allPorts`. Building fails iff some call names an odd port. |
| `GatewayConfig.PrimaryHostFrom` | src/lib.rs:69-79 | Starting from any configuration, the primary host after a build is the last explicitly set one. Failing that, it is the one already present. Failing that, it is the first mapped host. |
| `GatewayConfig.PrimaryHostOfBuild` | src/lib.rs:69-79 | For a built configuration, the primary host is the last explicitly set host, else the first host ever mapped. Later mappings never displace it. |
| `GatewayConfig.StaleInverseEntry` | src/lib.rs:58-73 | For every valid configuration, remapping a mapped host to a different even port succeeds and routes the host to the new port, while the host stays listed under its former port. |
| `Ascii.SafeAscii` | src/lib.rs:177-189 | One character per byte. Bytes up to 0x20 become a space, 0x21..0x7e are kept, and 0x7f and above become `?`. Every output character is printable (0x20..0x7e), and printable input is left unchanged. |
| `Frontend.ScanFrom` | src/lib.rs:572-594 | With a host or length already found, the header loop keeps it. Otherwise the loop yields the first matching header, whatever the early exit. |
| `Frontend.ScanFindsFirst` | src/lib.rs:572-594 | The header loop, which stops once both are known, yields the first `Host`/`Domain` and the first `ContentLength`/`Length` header. |
| `Frontend.FirstHostIsEarliest` | src/lib.rs:581-586 | The host found is the domain of the earliest host header, with none before it. It is absent iff no header is a host header. |
| `Frontend.FirstLengthIsEarliest` | src/lib.rs:587-591 | The length found is that of the earliest content-length header, with none before it. It is absent iff there is none. |
| `Frontend.Route` | src/lib.rs:595-602 | A known host routes to its own port. An absent or unknown host routes to the default port, if any. For a valid configuration, a routed port is in `allPorts` and even. |
| `Frontend.ReadPayload` | src/lib.rs:614-644 | A second read happens iff the first read ends before `header_len + payload_len`. It asks for exactly the missing bytes. The payload has exactly the declared length, and its byte i is the stream's byte at `header_len + i`. The payload is missing exactly when that second read fails, that is, when the stream fails or ends before the missing bytes arrive. |
| `Frontend.Finish` | src/lib.rs:687-717 | A timeout or receive error, and an explicit no-match, give a 404. A matched response keeps its status, body and headers. Exactly four headers are appended in order: HSTS `max-age=63072000`, the fixed CSP, `nosniff`, `SAMEORIGIN`. |
| `Frontend.Serve` | src/lib.rs:540-717 | A failed TLS accept, first read or parse closes the connection with no answer. No route gives a 404 even when oversized. A route with more than 8192 payload bytes gives a 400. A failed second read or conversion gives a 400. A missing mailbox or a failed send gives a 404. Dispatch happens iff every step succeeds. It carries the route port, the clock and the exact payload. A proxied answer only follows a dispatch and always carries the four security headers. |
| `Backend.NextPort` | src/lib.rs:405-409 | After a failure the port moves to the other member of {start, start+1}. |
| `Backend.NextPortAlternates` | src/lib.rs:405-409 | Two failures bring the worker back to the port it started from: start -> start+1 -> start. |
| `Backend.Spawn` | src/lib.rs:388-401 | A new worker for an even port starts on that port with an empty retry slot, satisfies the worker invariant, and its only effect is an immediate connect to that port with no pause before it. |
| `Backend.OnConnect` | src/lib.rs:400-412 | A successful connect goes on to the liveness handshake on the same port. A failed one moves to the other port and reconnects after a 2 s pause. The retry slot is kept either way. |
| `Backend.OnHandshake` | src/lib.rs:413-437 | A failed handshake moves to the other port and reconnects after a 2 s pause, keeping the retry slot. A good one empties the retry slot. A request held there is dropped if stale at that moment and queried otherwise. With an empty slot the worker goes on receiving. |
| `Backend.Attempt` | src/lib.rs:430-470 | A request taken from the retry slot or the mailbox is dropped, with no query, when `now - t0 >= 2000`. Otherwise it is queried. The port and the retry slot are untouched. |
| `Backend.OnQueryDone` | src/lib.rs:438-490 | A backend answer is passed back as `Some(response)` and the "no response" sentinel as `None`, both to the request's own reply slot, leaving the retry slot empty. A failed query stores the request, with its original `t0`, in the retry slot and reconnects to the same port after a 2 s pause. |
| `Backend.Step` | src/lib.rs:396-495 | Keeps the worker invariant: the port stays in {start, start+1}, and the retry slot is empty while the worker receives or queries. The worker holds at most one request. Only fresh requests are queried and only stale ones dropped. Pauses only come right before a connect. A mailbox receive error, or an event that does not answer the pending call, changes nothing. |
| `Backend.StepConserves` | src/lib.rs:430-490 | No request is lost or duplicated by a step. Each held or newly taken request is still held, was replied to, or was dropped as stale. |
| `Backend.Run` | src/lib.rs:396-497 | Any sequence of events keeps the worker invariant and its start port. |
| `Backend.RunFacts` | src/lib.rs:396-495 | Along any run, every pause is 2 s and is followed by a connect. Every connect targets start or start+1. No stale request is queried, and only stale requests are dropped. |
| `Backend.WorkerLifetime` | src/lib.rs:391-428 | Over a worker's whole life, the first connect goes to `start` with no pause before it. Every later connect comes right after a 2 s pause. No connect leaves {start, start+1}, and no stale request is ever queried. |
| `Gateway.Pool` | src/lib.rs:385-501 | Once startup has passed (a valid configuration with a primary host), there is exactly one worker per port of `allPorts`. Each starts on its own port with an empty retry slot and satisfies the worker invariant. |
| `Gateway.Startup` | src/lib.rs:355-501 | Workers are started iff the configuration has a primary host and both the TLS identity and the acceptor are built. The workers are then one per port of `allPorts`, each on its own port with an empty retry slot and satisfying the worker invariant. Otherwise `gateway443` returns with no workers. |
| `Gateway.RoutedPortHasWorker` | src/lib.rs:660-672 | For a valid configuration with a primary host, a routed request always finds a mailbox in the pool, so the "no backend for port" 404 cannot happen. Dispatch happens iff the request is acceptable and the send succeeds. |
| `Gateway.DispatchedThenDequeued` | src/lib.rs:463-470 | Suppose a dispatched request is taken by its worker at a time t. If t is 2 s or more after the dispatch, the request is dropped without a query. Otherwise it is queried. |
| `Lifecycle.SleptClosedForm` | src/lib.rs:121-128 | Total bind backoff over n attempts: 0 for n <= 1, then 100 ms each up to the 50th attempt, then 2 s each. |
| `Lifecycle.BindRetry` | src/lib.rs:121-141 | The bind loop stops at the first successful attempt and binds iff some attempt succeeds. It sleeps the closed-form total for the attempts made. |

## Left out

- TLS handshake, socket reads and writes, and response encoding: these are external library calls. They appear only as success or failure inputs (`Connection`, `Event`). The bytes written to the client are not modelled.
- Frontend.Serve: client reads have no timeout (the read and write timeouts are commented out at src/lib.rs:528-534). A client that keeps the connection open but stops sending blocks its task forever, before the first read (src/lib.rs:551) or inside the second `read_exact` (src/lib.rs:633), and it never gets an answer. The model has no such outcome: `rest` is what the client sends before it closes or fails, so a short stream is a failed read and gets a 400.
- HTTP/1 decoding (`RequestParser`, `try_from_raw_strip_headers`, `to_raw`) is an external library. It is abstracted as the `Head` verdict with `header_len`, header names and values already classified, and a `converts` flag. A header name or value the decoder fails to parse counts as "other".
- Frontend.Serve: the dispatched request carries only its payload. The decoded request line and the headers the conversion keeps are not modelled, because the conversion is external.
- Frontend.Serve: the first read is assumed to return at most 8 KiB, and the model does not enforce this. The buffer resize to `max(8192, header_len + payload_len)` is also not modelled. Neither changes which bytes form the payload.
- Threads, `mpsc` and `sync_channel` mailboxes, the `Mutex` around each sender, and the `select`/accept loop of `gateway443` (src/lib.rs:505-527, src/net.rs) are concurrency and syscalls. The mailbox is the sequence of `Dequeued` events. The two-second reply wait appears as its outcome (`ReplyWait`).
- Backend.Step: clock readings are event inputs. An event that does not answer the call the worker is blocked in is ignored. The reply-slot `send`, whose failure the source ignores, is the `Reply` effect.
- Backend.Step: the reserved hang-up message is treated like any other unexpected reply, because the source never acts on it. It is a failed handshake or a failed query.
- `gateway80` (src/lib.rs:205-353) and the routing table: this is a legacy path. Its route matching lives in the external `service_base` router.
- Gateway.Startup: building the TLS identity (`Acme::identity`, src/acme.rs) and the `TlsAcceptor` are external calls. Their outcomes are the `identityOk` and `acceptorOk` inputs.
- src/acme.rs (certificate files and the external ACME client), src/daemon.rs (mount, chroot, mkdir), src/signal.rs (signal registration): these are OS and foreign-library side effects.
- The shutdown sequencing of `service_main` (src/lib.rs:158-175) is sleep- and signal-driven. Only its bind backoff is modelled.
- build.rs and src/build.rs (build-time stamping), and examples/bench_timer.rs and examples/bench_thread.rs (float timing benchmarks), are not part of the core.
- Log output (`println!`) is not modelled. `safe_ascii` is kept as a function because it has its own contract.
