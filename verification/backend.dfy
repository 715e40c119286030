/** The backend connection worker: one per configured port, it owns a single
    connection to the local service on `start` or its failover `start + 1`,
    takes requests from its mailbox, drops those older than two seconds, and
    keeps at most one failed request for the next connection.

    The worker is a state machine. Each blocking call it makes (connect,
    liveness handshake, mailbox receive, query) is answered by an `Event`;
    `Step` returns the next state and the effects the worker produces
    (sleeps, connection attempts, queries, replies, stale drops). Time is an
    integer clock in milliseconds. */
module Backend {
  import opened Wrappers
  import opened Primitives
  import opened GatewayConfig
  import opened Http

  /** A request this old (in ms) is never forwarded. */
  const StaleAfter: int := 2000

  /** The pause (in ms) before every connection attempt but the first. */
  const ReconnectDelay: nat := 2000

  /** A mailbox message: the reply slot it answers, its enqueue time and the request. */
  datatype Job = Job(slot: nat, t0: int, payload: seq<u8>)

  /** Where the worker is blocked. */
  datatype Pc = Connecting | Handshaking | Receiving | Querying(job: Job)

  datatype Worker = Worker(start: Port, port: Port, retry: Option<Job>, pc: Pc)

  /** What a query over the connection returns; any failure or unexpected
      message is `QueryFailed`. */
  datatype QueryReply = Top | H1P(response: Response) | QueryFailed

  /** The answer to the call the worker is blocked in. `now` is the coarse
      clock the worker reads at that point. */
  datatype Event =
    | ConnectDone(ok: bool)
    | HandshakeDone(ok: bool, now: int)
    | Dequeued(job: Job, now: int)
    | RecvFailed
    | QueryDone(reply: QueryReply)

  datatype Effect =
    | Sleep(ms: nat)
    | Connect(port: Port)
    | Probe
    | Query(job: Job, at: int)
    | Reply(job: Job, response: Option<Response>)
    | DropStale(job: Job, at: int)

  predicate Stale(job: Job, now: int) {
    now - job.t0 >= StaleAfter
  }

  predicate InRange(start: Port, port: Port) {
    port == start || port as int == start as int + 1
  }

  /** What holds of every worker once it has started. */
  predicate Inv(w: Worker) {
    && IsEven(w.start)
    && InRange(w.start, w.port)
    // the retry slot is emptied before any new request is taken
    && ((w.pc.Receiving? || w.pc.Querying?) ==> w.retry.None?)
  }

  /** The port after a failed connect or handshake: start -> start + 1 -> start. */
  function NextPort(start: Port, port: Port): (r: Port)
    requires IsEven(start) && InRange(start, port)
    ensures InRange(start, r) && r != port
  {
    if port as int >= start as int + 1 then start else port + 1
  }

  /** The head of the outer loop: sleep unless this is the first pass, then connect. */
  function Restart(w: Worker, pause: bool): (Worker, seq<Effect>) {
    (w.(pc := Connecting),
     (if pause then [Sleep(ReconnectDelay)] else []) + [Connect(w.port)])
  }

  /** A fresh worker for an even port: its first connection attempt is immediate. */
  function Spawn(start: Port): (r: (Worker, seq<Effect>))
    requires IsEven(start)
    ensures Inv(r.0) && r.0.start == start && r.0.port == start
    ensures r.0.retry.None? && r.0.pc.Connecting?
    ensures r.1 == [Connect(start)]
  {
    Restart(Worker(start, start, None, Connecting), false)
  }

  /** A request taken from the retry slot or the mailbox: queried unless it
      is stale, in which case it is dropped and the worker goes on receiving. */
  function Attempt(w: Worker, job: Job, now: int): (r: (Worker, seq<Effect>))
    requires Inv(w.(pc := Receiving))
    ensures Inv(r.0) && r.0.start == w.start && r.0.port == w.port && r.0.retry == w.retry
    ensures QueriesFresh(r.1) && DropsStale(r.1) && Chunk(r.1)
    ensures Stale(job, now) ==> r.0.pc.Receiving? && r.1 == [DropStale(job, now)]
    ensures !Stale(job, now) ==> r.0.pc == Querying(job) && r.1 == [Query(job, now)]
  {
    if Stale(job, now) then (w.(pc := Receiving), [DropStale(job, now)])
    else (w.(pc := Querying(job)), [Query(job, now)])
  }

  /** The requests the worker holds: the one in flight or the one in the retry slot. */
  function Held(w: Worker): multiset<Job> {
    (if w.pc.Querying? then multiset{w.pc.job} else multiset{})
    + (if w.retry.Some? then multiset{w.retry.value} else multiset{})
  }

  /** The requests an effect list disposes of, by a reply or as stale. */
  function Finished(effs: seq<Effect>): multiset<Job> {
    if effs == [] then multiset{}
    else
      (match effs[0]
       case Reply(j, _) => multiset{j}
       case DropStale(j, _) => multiset{j}
       case _ => multiset{})
      + Finished(effs[1..])
  }

  /** The request an event hands to a worker in state `w`, if it takes one. */
  function Taken(w: Worker, ev: Event): multiset<Job> {
    if w.pc.Receiving? && ev.Dequeued? then multiset{ev.job} else multiset{}
  }

  /** The connect attempt returned: go on to the handshake, or move to the
      other port and start over after a pause. */
  function OnConnect(w: Worker, ok: bool): (r: (Worker, seq<Effect>))
    requires Inv(w) && w.pc.Connecting?
    ensures Inv(r.0) && r.0.start == w.start && r.0.retry == w.retry
    ensures QueriesFresh(r.1) && DropsStale(r.1) && Chunk(r.1)
    ensures ok ==> r.0.pc.Handshaking? && r.0.port == w.port && r.1 == [Probe]
    ensures !ok ==>
      && r.0.pc.Connecting? && r.0.port == NextPort(w.start, w.port)
      && r.1 == [Sleep(ReconnectDelay), Connect(r.0.port)]
  {
    if ok then (w.(pc := Handshaking), [Probe])
    else Restart(w.(port := NextPort(w.start, w.port)), true)
  }

  /** The liveness handshake returned at clock `now`. On failure, move to the
      other port and start over after a pause. On success, try the retry
      slot first, emptying it, then go on receiving. */
  function OnHandshake(w: Worker, ok: bool, now: int): (r: (Worker, seq<Effect>))
    requires Inv(w) && w.pc.Handshaking?
    ensures Inv(r.0) && r.0.start == w.start
    ensures QueriesFresh(r.1) && DropsStale(r.1) && Chunk(r.1)
    ensures !ok ==>
      && r.0.pc.Connecting? && r.0.retry == w.retry && r.0.port == NextPort(w.start, w.port)
      && r.1 == [Sleep(ReconnectDelay), Connect(r.0.port)]
    ensures ok ==> r.0.retry.None? && r.0.port == w.port
    ensures ok && w.retry.None? ==> r.0.pc.Receiving? && r.1 == []
    ensures ok && w.retry.Some? && Stale(w.retry.value, now) ==>
      r.0.pc.Receiving? && r.1 == [DropStale(w.retry.value, now)]
    ensures ok && w.retry.Some? && !Stale(w.retry.value, now) ==>
      r.0.pc == Querying(w.retry.value) && r.1 == [Query(w.retry.value, now)]
  {
    if !ok then Restart(w.(port := NextPort(w.start, w.port)), true)
    else if w.retry.None? then (w.(pc := Receiving), [])
    else Attempt(w.(retry := None), w.retry.value, now)
  }

  /** The query for the request in flight returned. An answer, or the "no
      response" sentinel, is passed back through the request's reply slot. A
      failure puts the request, with its own enqueue time, in the retry slot
      and forces a reconnect to the same port. */
  function OnQueryDone(w: Worker, reply: QueryReply): (r: (Worker, seq<Effect>))
    requires Inv(w) && w.pc.Querying?
    ensures Inv(r.0) && r.0.start == w.start && r.0.port == w.port
    ensures QueriesFresh(r.1) && DropsStale(r.1) && Chunk(r.1)
    ensures reply.Top? ==> r.0.pc.Receiving? && r.0.retry.None? && r.1 == [Reply(w.pc.job, None)]
    ensures reply.H1P? ==>
      r.0.pc.Receiving? && r.0.retry.None? && r.1 == [Reply(w.pc.job, Some(reply.response))]
    ensures reply.QueryFailed? ==>
      && r.0.pc.Connecting? && r.0.retry == Some(w.pc.job)
      && r.1 == [Sleep(ReconnectDelay), Connect(w.port)]
  {
    match reply
    case Top => (w.(pc := Receiving), [Reply(w.pc.job, None)])
    case H1P(resp) => (w.(pc := Receiving), [Reply(w.pc.job, Some(resp))])
    case QueryFailed => Restart(w.(retry := Some(w.pc.job)), true)
  }

  /** One event. A request taken from the mailbox is attempted like a retried
      one; a mailbox receive error, or an event that does not answer the call
      the worker is blocked in, changes nothing. */
  function Step(w: Worker, ev: Event): (r: (Worker, seq<Effect>))
    requires Inv(w)
    ensures Inv(r.0) && r.0.start == w.start
    // the worker holds at most one request
    ensures |Held(r.0)| <= 1
    // a query only for a fresh request, a drop only for a stale one
    ensures QueriesFresh(r.1) && DropsStale(r.1) && Chunk(r.1)
    ensures !Answers(w.pc, ev) || (w.pc.Receiving? && ev.RecvFailed?) ==> r == (w, [])
  {
    match w.pc
    case Connecting =>
      if ev.ConnectDone? then OnConnect(w, ev.ok) else (w, [])
    case Handshaking =>
      if ev.HandshakeDone? then OnHandshake(w, ev.ok, ev.now) else (w, [])
    case Receiving =>
      if ev.Dequeued? then Attempt(w, ev.job, ev.now) else (w, [])
    case Querying(_) =>
      if ev.QueryDone? then OnQueryDone(w, ev.reply) else (w, [])
  }

  /** The event is the result of the call the worker is blocked in. */
  predicate Answers(pc: Pc, ev: Event) {
    match pc
    case Connecting => ev.ConnectDone?
    case Handshaking => ev.HandshakeDone?
    case Receiving => ev.Dequeued? || ev.RecvFailed?
    case Querying(_) => ev.QueryDone?
  }

  /** Feed a sequence of events to the worker, collecting its effects. */
  function Run(w: Worker, evs: seq<Event>): (r: (Worker, seq<Effect>))
    requires Inv(w)
    ensures Inv(r.0) && r.0.start == w.start
    decreases |evs|
  {
    if evs == [] then (w, [])
    else
      var (w1, e1) := Step(w, evs[0]);
      var (w2, e2) := Run(w1, evs[1..]);
      (w2, e1 + e2)
  }

  /** Every pause is 2 s and is followed by a connect; every connect after the
      first is preceded by a pause. */
  predicate WellPaced(e: seq<Effect>) {
    && (forall i :: 0 <= i < |e| && e[i].Sleep? ==> e[i].ms == ReconnectDelay && i + 1 < |e| && e[i + 1].Connect?)
    && (forall i :: 0 < i < |e| && e[i].Connect? ==> e[i - 1].Sleep?)
  }

  /** Every connection attempt goes to `start` or its failover port. */
  predicate ConnectsWithin(start: Port, e: seq<Effect>) {
    forall i :: 0 <= i < |e| && e[i].Connect? ==> InRange(start, e[i].port)
  }

  /** Only requests younger than two seconds are queried. */
  predicate QueriesFresh(e: seq<Effect>) {
    forall i :: 0 <= i < |e| && e[i].Query? ==> !Stale(e[i].job, e[i].at)
  }

  /** Only requests two seconds old or older are dropped. */
  predicate DropsStale(e: seq<Effect>) {
    forall i :: 0 <= i < |e| && e[i].DropStale? ==> Stale(e[i].job, e[i].at)
  }

  /** The effects of some steps of a started worker: well paced, starting
      with no connect and ending with no pause. */
  predicate Chunk(e: seq<Effect>) {
    WellPaced(e) && (|e| > 0 ==> !e[0].Connect? && !e[|e| - 1].Sleep?)
  }

  lemma ChunkConcat(a: seq<Effect>, b: seq<Effect>)
    requires Chunk(a) && Chunk(b)
    ensures Chunk(a + b)
  {
  }

  lemma FinishedOne(x: Effect)
    ensures Finished([x]) == (if x.Reply? || x.DropStale? then multiset{x.job} else multiset{})
  {
  }

  lemma FinishedPause(p: Port)
    ensures Finished([Sleep(ReconnectDelay), Connect(p)]) == multiset{}
  {
    var e := [Sleep(ReconnectDelay), Connect(p)];
    assert e[1..] == [Connect(p)];
    FinishedOne(Connect(p));
  }

  lemma ConservesConnecting(w: Worker, ev: Event)
    requires Inv(w) && w.pc.Connecting?
    ensures Held(w) + Taken(w, ev) == Held(Step(w, ev).0) + Finished(Step(w, ev).1)
  {
    FinishedOne(Probe);
    if ev == ConnectDone(false) {
      FinishedPause(NextPort(w.start, w.port));
    }
  }

  lemma ConservesHandshaking(w: Worker, ev: Event)
    requires Inv(w) && w.pc.Handshaking?
    ensures Held(w) + Taken(w, ev) == Held(Step(w, ev).0) + Finished(Step(w, ev).1)
  {
    var r := Step(w, ev);
    if ev.HandshakeDone? && !ev.ok {
      FinishedPause(r.0.port);
    } else if ev.HandshakeDone? && w.retry.Some? {
      FinishedOne(r.1[0]);
      assert r.1 == [r.1[0]];
    }
  }

  lemma ConservesReceiving(w: Worker, ev: Event)
    requires Inv(w) && w.pc.Receiving?
    ensures Held(w) + Taken(w, ev) == Held(Step(w, ev).0) + Finished(Step(w, ev).1)
  {
  }

  lemma ConservesQueryFailed(w: Worker, ev: Event)
    requires Inv(w) && w.pc.Querying? && ev == QueryDone(QueryFailed)
    ensures Held(w) + Taken(w, ev) == Held(Step(w, ev).0) + Finished(Step(w, ev).1)
  {
    var w' := w.(retry := Some(w.pc.job), pc := Connecting);
    FinishedPause(w.port);
    assert Held(w') == Held(w);
    assert Step(w, ev) == (w', [Sleep(ReconnectDelay), Connect(w.port)]);
  }

  lemma ConservesQueryAnswered(w: Worker, ev: Event)
    requires Inv(w) && w.pc.Querying? && ev.QueryDone? && !ev.reply.QueryFailed?
    ensures Held(w) + Taken(w, ev) == Held(Step(w, ev).0) + Finished(Step(w, ev).1)
  {
  }

  lemma ConservesQuerying(w: Worker, ev: Event)
    requires Inv(w) && w.pc.Querying?
    ensures Held(w) + Taken(w, ev) == Held(Step(w, ev).0) + Finished(Step(w, ev).1)
  {
    if ev == QueryDone(QueryFailed) {
      ConservesQueryFailed(w, ev);
    } else if ev.QueryDone? {
      ConservesQueryAnswered(w, ev);
    } else {
      assert Step(w, ev) == (w, []);
    }
  }

  /** No request is lost or duplicated by a step: each one the worker held or
      took is still held, was replied to, or was dropped as stale. */
  lemma StepConserves(w: Worker, ev: Event)
    requires Inv(w)
    ensures Held(w) + Taken(w, ev) == Held(Step(w, ev).0) + Finished(Step(w, ev).1)
  {
    match w.pc
    case Connecting => ConservesConnecting(w, ev);
    case Handshaking => ConservesHandshaking(w, ev);
    case Receiving => ConservesReceiving(w, ev);
    case Querying(_) => ConservesQuerying(w, ev);
  }

  predicate Sound(start: Port, e: seq<Effect>) {
    Chunk(e) && ConnectsWithin(start, e) && QueriesFresh(e) && DropsStale(e)
  }

  lemma SoundConcat(start: Port, a: seq<Effect>, b: seq<Effect>)
    requires Sound(start, a) && Sound(start, b)
    ensures Sound(start, a + b)
  {
    ChunkConcat(a, b);
  }

  lemma StepSound(w: Worker, ev: Event)
    requires Inv(w)
    ensures Sound(w.start, Step(w, ev).1)
  {
  }

  /** Connection attempts, ports and staleness along any run of a started worker. */
  lemma {:induction false} RunFacts(w: Worker, evs: seq<Event>)
    requires Inv(w)
    ensures Sound(w.start, Run(w, evs).1)
    decreases |evs|
  {
    if evs != [] {
      var (w1, e1) := Step(w, evs[0]);
      var (w2, e2) := Run(w1, evs[1..]);
      RunFacts(w1, evs[1..]);
      StepSound(w, evs[0]);
      SoundConcat(w.start, e1, e2);
      assert Run(w, evs).1 == e1 + e2;
    }
  }

  /** Over the whole life of a worker: the first connection attempt is to
      `start` with no pause before it, every later one waits 2 s first, every
      attempt targets `start` or `start + 1`, no stale request is queried and
      only stale requests are dropped. */
  lemma WorkerLifetime(start: Port, evs: seq<Event>)
    requires IsEven(start)
    ensures var (w0, e0) := Spawn(start);
            var e := e0 + Run(w0, evs).1;
            && e[0] == Connect(start)
            && WellPaced(e)
            && ConnectsWithin(start, e)
            && QueriesFresh(e)
            && DropsStale(e)
  {
    var (w0, e0) := Spawn(start);
    var rest := Run(w0, evs).1;
    RunFacts(w0, evs);
    var e := e0 + rest;
    forall i | 0 <= i < |e| && e[i].Sleep?
      ensures e[i].ms == ReconnectDelay && i + 1 < |e| && e[i + 1].Connect?
    {
      assert rest[i - 1].Sleep?;
    }
    forall i | 0 < i < |e| && e[i].Connect?
      ensures e[i - 1].Sleep?
    {
      assert rest[i - 1].Connect?;
      if i > 1 {
        assert rest[i - 2] == e[i - 1];
      }
    }
    assert forall i :: 0 < i < |e| ==> e[i] == rest[i - 1];
  }

  /** The two-port rotation is a cycle of length two. */
  lemma NextPortAlternates(start: Port, port: Port)
    requires IsEven(start) && InRange(start, port)
    ensures NextPort(start, NextPort(start, port)) == port
  {
  }
}
