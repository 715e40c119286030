/** The per-connection task of the TLS front end, as one pure decision over the
    results of the I/O calls it makes: TLS accept, the first read of up to
    8 KiB, the decoder's verdict on the request head, the optional second read
    for the rest of the payload, the request conversion, the mailbox send and
    the bounded wait for the backend's reply. */
module Frontend {
  import opened Wrappers
  import opened Primitives
  import opened GatewayConfig
  import opened Http

  /** Largest accepted Content-Length. */
  const MaxPayload: nat := 8192

  const ContentSecurityPolicy: string :=
    "default-src 'none'; script-src 'self'; style-src 'self'; connect-src 'self'; form-action 'self'; img-src 'self'; frame-ancestors 'self'; base-uri 'none'"

  /** The headers pushed, in this order, onto every proxied response. */
  const SecurityFields: seq<Field> := [
    Field("Strict-Transport-Security", "max-age=63072000"),
    Field("Content-Security-Policy", ContentSecurityPolicy),
    Field("X-Content-Type-Options", "nosniff"),
    Field("X-Frame-Options", "SAMEORIGIN")
  ]

  /** The decoder's verdict on the bytes of the first read: a bad first line,
      bad headers, or the headers and the offset where the payload starts. */
  datatype Head =
    | FirstLineInvalid
    | HeadersInvalid
    | Parsed(headers: seq<Header>, headerLen: nat)

  /** What the I/O calls of one connection return. */
  datatype Connection = Connection(
    tlsAccepted: bool,
    firstRead: Option<seq<u8>>,   // the bytes of the first read; None on a read error
    head: Head,                   // the decoder's verdict on those bytes
    rest: Option<seq<u8>>,        // what the client sends before closing; None if the stream fails
    converts: bool)               // whether the request conversion succeeds

  /** How the wait on the reply slot ends. */
  datatype ReplyWait =
    | RecvFailed                  // two seconds passed, or the worker dropped the slot
    | NoMatch                     // the backend answered "no response"
    | Matched(response: Response)

  datatype StatusCode = BadRequest | NotFound {
    function Code(): nat {
      match this
      case BadRequest => 400
      case NotFound => 404
    }
  }

  /** What the client gets: nothing (the connection is just closed), a bare
      error status, or the backend's response. */
  datatype Answer = Silent | Status(code: StatusCode) | Proxied(response: Response)

  /** The message put in a worker's mailbox: the port, the coarse enqueue time
      and the request payload. */
  datatype Envelope = Envelope(port: Port, enqueued: int, payload: seq<u8>)

  /** Everything observable about one connection: how many bytes the second
      read asked for (if it happened), what was dispatched (if anything) and
      the answer. */
  datatype Exchange = Exchange(extraRead: Option<nat>, sent: Option<Envelope>, answer: Answer)

  datatype Scanned = Scanned(host: Option<Host>, len: Option<nat>)

  predicate IsHostHeader(h: Header) {
    h.name == HostName && h.value.Domain?
  }

  predicate IsLengthHeader(h: Header) {
    h.name == ContentLengthName && h.value.Length?
  }

  /** The header loop: remember the first Host and the first Content-Length,
      stopping as soon as both are known. */
  function Scan(hs: seq<Header>, host: Option<Host>, len: Option<nat>): Scanned
    decreases |hs|
  {
    if hs == [] || (host.Some? && len.Some?) then
      Scanned(host, len)
    else
      var h := hs[0];
      Scan(hs[1..],
           if host.None? && IsHostHeader(h) then Some(h.value.domain) else host,
           if len.None? && IsLengthHeader(h) then Some(h.value.len) else len)
  }

  /** Reference definitions: the first host header's domain, the first length. */
  function FirstHost(hs: seq<Header>): Option<Host> {
    if hs == [] then None
    else if IsHostHeader(hs[0]) then Some(hs[0].value.domain)
    else FirstHost(hs[1..])
  }

  function FirstLength(hs: seq<Header>): Option<nat> {
    if hs == [] then None
    else if IsLengthHeader(hs[0]) then Some(hs[0].value.len)
    else FirstLength(hs[1..])
  }

  lemma {:induction false} ScanFrom(hs: seq<Header>, host: Option<Host>, len: Option<nat>)
    ensures Scan(hs, host, len) ==
      Scanned(if host.Some? then host else FirstHost(hs),
              if len.Some? then len else FirstLength(hs))
    decreases |hs|
  {
    if hs == [] {
    } else if host.Some? && len.Some? {
    } else {
      var h := hs[0];
      ScanFrom(hs[1..],
               if host.None? && IsHostHeader(h) then Some(h.value.domain) else host,
               if len.None? && IsLengthHeader(h) then Some(h.value.len) else len);
    }
  }

  /** Stopping early never changes the outcome: the scan finds the first Host
      and the first Content-Length. */
  lemma ScanFindsFirst(hs: seq<Header>)
    ensures Scan(hs, None, None) == Scanned(FirstHost(hs), FirstLength(hs))
  {
    ScanFrom(hs, None, None);
  }

  /** `FirstHost` finds the earliest host header and nothing else. */
  lemma {:induction false} FirstHostIsEarliest(hs: seq<Header>)
    ensures FirstHost(hs).None? <==> forall i :: 0 <= i < |hs| ==> !IsHostHeader(hs[i])
    ensures FirstHost(hs).Some? ==>
      exists i :: 0 <= i < |hs| && IsHostHeader(hs[i]) && hs[i].value.domain == FirstHost(hs).value
                  && forall j :: 0 <= j < i ==> !IsHostHeader(hs[j])
  {
    if hs != [] && !IsHostHeader(hs[0]) {
      FirstHostIsEarliest(hs[1..]);
      assert forall i :: 1 <= i < |hs| ==> hs[i] == hs[1..][i - 1];
      if FirstHost(hs).Some? {
        var i :| 0 <= i < |hs[1..]| && IsHostHeader(hs[1..][i]) && hs[1..][i].value.domain == FirstHost(hs).value
                 && forall j :: 0 <= j < i ==> !IsHostHeader(hs[1..][j]);
        assert forall j :: 0 <= j < i + 1 ==> !IsHostHeader(hs[j]);
      }
    } else if hs != [] {
      assert IsHostHeader(hs[0]);
    }
  }

  /** `FirstLength` finds the earliest content-length header and nothing else. */
  lemma {:induction false} FirstLengthIsEarliest(hs: seq<Header>)
    ensures FirstLength(hs).None? <==> forall i :: 0 <= i < |hs| ==> !IsLengthHeader(hs[i])
    ensures FirstLength(hs).Some? ==>
      exists i :: 0 <= i < |hs| && IsLengthHeader(hs[i]) && hs[i].value.len == FirstLength(hs).value
                  && forall j :: 0 <= j < i ==> !IsLengthHeader(hs[j])
  {
    if hs != [] && !IsLengthHeader(hs[0]) {
      FirstLengthIsEarliest(hs[1..]);
      assert forall i :: 1 <= i < |hs| ==> hs[i] == hs[1..][i - 1];
      if FirstLength(hs).Some? {
        var i :| 0 <= i < |hs[1..]| && IsLengthHeader(hs[1..][i]) && hs[1..][i].value.len == FirstLength(hs).value
                 && forall j :: 0 <= j < i ==> !IsLengthHeader(hs[1..][j]);
        assert forall j :: 0 <= j < i + 1 ==> !IsLengthHeader(hs[j]);
      }
    } else if hs != [] {
      assert IsLengthHeader(hs[0]);
    }
  }

  /** The backend port for a request: its host's port, else the default port. */
  function Route(c: Config, host: Option<Host>): (r: Option<Port>)
    ensures host.Some? && host.value in c.hostPort ==> r == Some(c.hostPort[host.value])
    ensures host.None? || host.value !in c.hostPort ==> r == c.defPort
    ensures Valid(c) && r.Some? ==> r.value in c.allPorts && IsEven(r.value)
  {
    var byHost := if host.Some? && host.value in c.hostPort then Some(c.hostPort[host.value]) else None;
    if byHost.None? then c.defPort else byHost
  }

  /** The payload bytes `[headerLen, headerLen + len)` of the client's stream,
      taken from the first read and, only when it is too short, from one
      second read of exactly the missing bytes. That read (`read_exact`) fails
      when the stream fails or ends before all of them arrive. Returns the
      second read's size (if it happened) and the payload (None when that
      read fails). */
  function ReadPayload(buf: seq<u8>, headerLen: nat, len: nat, rest: Option<seq<u8>>)
    : (r: (Option<nat>, Option<seq<u8>>))
    ensures r.0.Some? <==> |buf| < headerLen + len
    ensures r.0.Some? ==> r.0.value == headerLen + len - |buf|
    ensures r.1.None? <==> r.0.Some? && (rest.None? || |rest.value| < r.0.value)
    ensures r.1.Some? ==> |r.1.value| == len
    ensures r.1.Some? ==> forall i :: 0 <= i < len ==>
      r.1.value[i] == (if headerLen + i < |buf| then buf[headerLen + i] else rest.value[headerLen + i - |buf|])
  {
    if |buf| < headerLen + len then
      var n := headerLen + len - |buf|;
      if rest.None? || |rest.value| < n then (Some(n), None)
      else
        var filled := buf + rest.value[..n];
        assert forall k :: |buf| <= k < headerLen + len ==> filled[k] == rest.value[k - |buf|];
        (Some(n), Some(filled[headerLen .. headerLen + len]))
    else
      (None, Some(buf[headerLen .. headerLen + len]))
  }

  /** Reply finishing: anything but a matched response is a 404; a matched
      response keeps its status, headers and body, with the four security
      headers appended. */
  function Finish(wait: ReplyWait): (r: Answer)
    ensures r.Proxied? <==> wait.Matched?
    ensures !wait.Matched? ==> r == Status(NotFound)
    ensures wait.Matched? ==>
      && r.response.status == wait.response.status
      && r.response.body == wait.response.body
      && Secured(r.response, wait.response.fields)
  {
    match wait
    case Matched(rep) => Proxied(rep.(fields := rep.fields + SecurityFields))
    case _ => Status(NotFound)
  }

  /** `resp` carries the backend's own header fields followed by exactly the
      four security headers, in order. */
  predicate Secured(resp: Response, backendFields: seq<Field>) {
    && |resp.fields| == |backendFields| + 4
    && resp.fields[..|backendFields|] == backendFields
    && resp.fields[|backendFields|].name == "Strict-Transport-Security"
    && resp.fields[|backendFields|].value == "max-age=63072000"
    && resp.fields[|backendFields| + 1].name == "Content-Security-Policy"
    && resp.fields[|backendFields| + 1].value == ContentSecurityPolicy
    && resp.fields[|backendFields| + 2].name == "X-Content-Type-Options"
    && resp.fields[|backendFields| + 2].value == "nosniff"
    && resp.fields[|backendFields| + 3].name == "X-Frame-Options"
    && resp.fields[|backendFields| + 3].value == "SAMEORIGIN"
  }

  /** The request head is established: TLS, the first read and both parse steps succeeded. */
  predicate HeadOk(conn: Connection) {
    conn.tlsAccepted && conn.firstRead.Some? && conn.head.Parsed?
  }

  function RoutePort(c: Config, conn: Connection): Option<Port>
    requires HeadOk(conn)
  {
    Route(c, FirstHost(conn.head.headers))
  }

  /** The declared payload length; a missing Content-Length means none. */
  function PayloadLen(conn: Connection): nat
    requires HeadOk(conn)
  {
    FirstLength(conn.head.headers).GetOr(0)
  }

  /** The first read is too short to hold the whole declared payload. */
  predicate NeedsSecondRead(conn: Connection)
    requires HeadOk(conn)
  {
    |conn.firstRead.value| < conn.head.headerLen + PayloadLen(conn)
  }

  /** The whole declared payload can be had: the first read holds it, or the
      client still sends at least the missing bytes. */
  predicate PayloadAvailable(conn: Connection)
    requires HeadOk(conn)
  {
    NeedsSecondRead(conn) ==>
      conn.rest.Some? && conn.head.headerLen + PayloadLen(conn) - |conn.firstRead.value| <= |conn.rest.value|
  }

  /** The request is routed, small enough, complete and converted. */
  predicate Acceptable(c: Config, conn: Connection) {
    && HeadOk(conn)
    && RoutePort(c, conn).Some?
    && PayloadLen(conn) <= MaxPayload
    && PayloadAvailable(conn)
    && conn.converts
  }

  /** Every step before the mailbox send succeeds. */
  predicate Deliverable(c: Config, mailboxes: set<Port>, conn: Connection) {
    Acceptable(c, conn) && RoutePort(c, conn).value in mailboxes
  }

  /** Serve one connection. `mailboxes` holds the ports that have a worker,
      `sendOk` whether the worker still receives, `now` the coarse clock at
      the send and `wait` how the reply wait ends. */
  function Serve(c: Config, mailboxes: set<Port>, conn: Connection, sendOk: bool, now: int, wait: ReplyWait)
    : (x: Exchange)
    // before a well-formed head there is no answer at all
    ensures x.answer.Silent? <==> !HeadOk(conn)
    ensures !HeadOk(conn) ==> x.sent.None? && x.extraRead.None?
    // no route: 404 before the size is even looked at
    ensures HeadOk(conn) && RoutePort(c, conn).None? ==>
      x == Exchange(None, None, Status(NotFound))
    // too large: 400, no second read, no dispatch
    ensures HeadOk(conn) && RoutePort(c, conn).Some? && PayloadLen(conn) > MaxPayload ==>
      x == Exchange(None, None, Status(BadRequest))
    // the second read happens exactly when the first one fell short
    ensures x.extraRead.Some? <==>
      HeadOk(conn) && RoutePort(c, conn).Some? && PayloadLen(conn) <= MaxPayload && NeedsSecondRead(conn)
    ensures x.extraRead.Some? ==>
      x.extraRead.value == conn.head.headerLen + PayloadLen(conn) - |conn.firstRead.value|
    // dispatch happens exactly when every step up to the send succeeds
    ensures x.sent.Some? <==> Deliverable(c, mailboxes, conn) && sendOk
    ensures x.sent.Some? ==>
      && x.sent.value.port == RoutePort(c, conn).value
      && x.sent.value.enqueued == now
      && |x.sent.value.payload| == PayloadLen(conn) <= MaxPayload
      && (forall i :: 0 <= i < PayloadLen(conn) ==>
            var off := conn.head.headerLen + i;
            x.sent.value.payload[i] ==
              if off < |conn.firstRead.value| then conn.firstRead.value[off]
              else conn.rest.value[off - |conn.firstRead.value|])
      && x.answer == Finish(wait)
    // an incomplete payload or a failed conversion is a 400
    ensures HeadOk(conn) && RoutePort(c, conn).Some? && PayloadLen(conn) <= MaxPayload
            && (!PayloadAvailable(conn) || !conn.converts) ==>
      x.sent.None? && x.answer == Status(BadRequest)
    // a missing mailbox or a failed send is a 404
    ensures Acceptable(c, conn) && (RoutePort(c, conn).value !in mailboxes || !sendOk) ==>
      x.sent.None? && x.answer == Status(NotFound)
    ensures x.answer.Proxied? ==> x.sent.Some? && wait.Matched? && Secured(x.answer.response, wait.response.fields)
  {
    if !HeadOk(conn) then
      Exchange(None, None, Silent)
    else
      var buf := conn.firstRead.value;
      var headerLen := conn.head.headerLen;
      ScanFindsFirst(conn.head.headers);
      var scanned := Scan(conn.head.headers, None, None);
      match Route(c, scanned.host)
      case None => Exchange(None, None, Status(NotFound))
      case Some(port) =>
        var len := scanned.len.GetOr(0);
        if len > MaxPayload then
          Exchange(None, None, Status(BadRequest))
        else
          var (extraRead, payload) := ReadPayload(buf, headerLen, len, conn.rest);
          if payload.None? || !conn.converts then
            Exchange(extraRead, None, Status(BadRequest))
          else if port !in mailboxes || !sendOk then
            Exchange(extraRead, None, Status(NotFound))
          else
            Exchange(extraRead, Some(Envelope(port, now, payload.value)), Finish(wait))
  }
}
