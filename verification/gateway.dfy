/** The gateway as a whole: one backend worker per configured port, reached
    through a mailbox keyed by that port, and the front end's dispatch into
    those mailboxes. */
module Gateway {
  import opened Wrappers
  import opened GatewayConfig
  import opened Frontend
  import opened Backend

  /** The worker pool started for a configuration that passed the startup
      checks: a fresh worker for every port of `allPorts`, each starting on its
      own port with an empty retry slot. */
  function Pool(c: Config): (pool: map<Port, Worker>)
    requires Valid(c) && c.primHost.Some?
    ensures pool.Keys == c.allPorts
    ensures forall p :: p in pool ==>
      && Inv(pool[p]) && pool[p].start == p && pool[p].port == p
      && pool[p].retry.None? && pool[p].pc.Connecting?
  {
    map p | p in c.allPorts :: Spawn(p).0
  }

  /** The start of `gateway443`: without a primary host, or when the TLS
      identity for it or the acceptor cannot be built, it returns before any
      worker exists; otherwise it starts the pool. */
  function Startup(c: Config, identityOk: bool, acceptorOk: bool): (r: Option<map<Port, Worker>>)
    requires Valid(c)
    ensures r.Some? <==> c.primHost.Some? && identityOk && acceptorOk
    ensures r.Some? ==>
      && r.value.Keys == c.allPorts
      && forall p :: p in r.value ==>
           && Inv(r.value[p]) && r.value[p].start == p && r.value[p].port == p
           && r.value[p].retry.None? && r.value[p].pc.Connecting?
  {
    if c.primHost.None? || !identityOk || !acceptorOk then None
    else Some(Pool(c))
  }

  /** With the mailboxes of the configuration's own pool, the "no backend for
      port" branch cannot be reached: an acceptable request is dispatched
      exactly when the send succeeds. */
  lemma RoutedPortHasWorker(c: Config, conn: Connection, sendOk: bool, now: int, wait: ReplyWait)
    requires Valid(c) && c.primHost.Some?
    ensures var x := Serve(c, Pool(c).Keys, conn, sendOk, now, wait);
            && (Acceptable(c, conn) ==> Deliverable(c, Pool(c).Keys, conn))
            && (x.sent.Some? <==> Acceptable(c, conn) && sendOk)
  {
  }

  /** The mailbox message a dispatched envelope becomes, answered through `slot`. */
  function Enqueue(env: Envelope, slot: nat): Job {
    Job(slot, env.enqueued, env.payload)
  }

  /** A request the front end dispatched at `now` that its worker takes from
      the mailbox two seconds or more later is dropped and never queried;
      earlier, it is queried. */
  lemma DispatchedThenDequeued(c: Config, conn: Connection, sendOk: bool, now: int, wait: ReplyWait,
                               w: Worker, slot: nat, t: int)
    requires Valid(c) && c.primHost.Some? && Inv(w) && w.pc.Receiving?
    requires Serve(c, Pool(c).Keys, conn, sendOk, now, wait).sent.Some?
    ensures var env := Serve(c, Pool(c).Keys, conn, sendOk, now, wait).sent.value;
            var job := Enqueue(env, slot);
            && (t - now >= StaleAfter ==> Step(w, Dequeued(job, t)).1 == [DropStale(job, t)])
            && (t - now < StaleAfter ==> Step(w, Dequeued(job, t)).1 == [Query(job, t)])
  {
  }
}
