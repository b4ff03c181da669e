/**
 * The process-wide serialized request queue: a FIFO of pending requests and
 * a busy flag. The two entry points push a tagged request at the tail and
 * kick the queue; `processQueue` refuses to start while busy or empty, takes
 * the head, resolves it, settles it once, clears the flag and kicks again.
 *
 * The asynchronous `processQueue` is cut after the `shift`: the entry guard
 * and `shift` (`ProcessQueue`), then the body followed by the `finally` block
 * (`RunCurrent`). Nothing else runs between the `shift` and the body's first
 * `await`; the body's awaits and the final delay are collapsed into
 * `RunCurrent`. A push made meanwhile only appends to `pending`, which the
 * body does not read, and the object state seen at each await is carried by
 * the `World`. Each request's promise is identified by a ticket, the
 * number of requests pushed before it; `settled` records every call of a
 * promise's `resolve`, and `outbox` every notice handed to `reply`/`followUp`.
 *
 * A queued request holds references to its caller context and client, not
 * copies: their state (whether the interaction was deferred or replied, the
 * configured API key) is read when the request is served, from the `World`
 * given to that step.
 */
module RequestQueue {
  import opened Js
  import opened Interaction
  import opened Resolver

  /** A reference to a JavaScript object (a caller context or a client). */
  type ObjectRef = nat

  /** The state of every referenced context and client at one moment. */
  datatype Objects = Objects(contexts: ObjectRef -> Context, clients: ObjectRef -> Client)

  /**
   * What the outside world looks like while one request is served: the outcome
   * of each HTTP lookup and the state of the referenced objects.
   */
  datatype World = World(net: Network, objects: Objects)

  /** A queued request: the ticket of the promise it settles, its tag and id, and its object references. */
  datatype Pending = Pending(ticket: nat, kind: string, id: string, context: ObjectRef, client: ObjectRef)

  /** One call of a promise's `resolve`. */
  datatype Delivered = Delivered(ticket: nat, value: IdentityResult)

  /** One notice attempted on behalf of a request. */
  datatype Sent = Sent(ticket: nat, notice: Notice)

  predicate ValidKind(kind: string) {
    kind == "discord" || kind == "roblox"
  }

  /** The request as the body of `processQueue` reads it: its objects in their state at service time. */
  function AtService(p: Pending, objects: Objects): (r: Request) {
    Request(p.kind, p.id, objects.contexts(p.context), objects.clients(p.client))
  }

  /** The value `resolve` receives when the request is served in the given world. */
  function SettleOf(p: Pending, world: World): (r: Delivered) {
    Delivered(p.ticket, Resolve(AtService(p, world.objects), world.net).result)
  }

  /** The notices actually handed to the context for the messages a request attempts. */
  function Sends(ticket: nat, ctx: Context, messages: seq<string>): (r: seq<Sent>)
    ensures |r| == (if CanDeliver(ctx) then |messages| else 0)
    ensures forall i :: 0 <= i < |r| ==>
      r[i] == Sent(ticket, SafeInteractionResponse(ctx, Text(messages[i])).value)
  {
    if messages == [] then []
    else
      var first := match SafeInteractionResponse(ctx, Text(messages[0]))
        case None => []
        case Some(n) => [Sent(ticket, n)];
      first + Sends(ticket, ctx, messages[1..])
  }

  /** The notices sent on behalf of one request served in the given world. */
  function SendsOf(p: Pending, world: World): (r: seq<Sent>) {
    Sends(p.ticket, world.objects.contexts(p.context), Resolve(AtService(p, world.objects), world.net).notices)
  }

  /** The `resolve` calls made while serving the given requests in order, each in the world its ticket meets. */
  function ServeAll(ps: seq<Pending>, world: nat -> World): (r: seq<Delivered>)
    ensures |r| == |ps|
    ensures forall i :: 0 <= i < |ps| ==> r[i] == SettleOf(ps[i], world(ps[i].ticket))
  {
    if ps == [] then [] else [SettleOf(ps[0], world(ps[0].ticket))] + ServeAll(ps[1..], world)
  }

  /** The notices sent while serving the given requests in order. */
  function SendAll(ps: seq<Pending>, world: nat -> World): (r: seq<Sent>) {
    if ps == [] then [] else SendsOf(ps[0], world(ps[0].ticket)) + SendAll(ps[1..], world)
  }

  /** Serving the head and then the rest yields what serving them all yields. */
  lemma ServeHeadThenRest(done: seq<Delivered>, p: Pending, rest: seq<Pending>, world: nat -> World)
    ensures (done + [SettleOf(p, world(p.ticket))]) + ServeAll(rest, world) == done + ServeAll([p] + rest, world)
  {
    assert ([p] + rest)[1..] == rest;
  }

  /** Sending the head's notices and then the rest's yields what sending them all yields. */
  lemma SendHeadThenRest(done: seq<Sent>, p: Pending, rest: seq<Pending>, world: nat -> World)
    ensures (done + SendsOf(p, world(p.ticket))) + SendAll(rest, world) == done + SendAll([p] + rest, world)
  {
    assert ([p] + rest)[1..] == rest;
  }

  /** How many times ticket `t` occurs. */
  function Count(s: seq<nat>, t: nat): (r: nat) {
    if s == [] then 0 else (if s[0] == t then 1 else 0) + Count(s[1..], t)
  }

  /** In a run of consecutive tickets, each ticket of the run occurs exactly once. */
  lemma {:induction false} ConsecutiveCountsOnce(s: seq<nat>, from: nat, t: nat)
    requires forall i :: 0 <= i < |s| ==> s[i] == from + i
    ensures Count(s, t) == (if from <= t < from + |s| then 1 else 0)
  {
    if s != [] {
      ConsecutiveCountsOnce(s[1..], from + 1, t);
    }
  }

  function Tickets(ps: seq<Pending>): (r: seq<nat>) {
    seq(|ps|, i requires 0 <= i < |ps| => ps[i].ticket)
  }

  function DeliveredTickets(ds: seq<Delivered>): (r: seq<nat>) {
    seq(|ds|, i requires 0 <= i < |ds| => ds[i].ticket)
  }

  class Queue {
    var pending: seq<Pending>
    var processing: bool
    /** The request `processQueue` has shifted and is still working on. */
    var current: Option<Pending>
    var nextTicket: nat
    var settled: seq<Delivered>
    var outbox: seq<Sent>

    /** The request in progress, if any, followed by those waiting. */
    ghost function InFlight(): (r: seq<Pending>)
      reads this
    {
      (if current.Some? then [current.value] else []) + pending
    }

    /**
     * The queue's invariant between steps: the flag is set exactly while one
     * request is in progress; the i-th `resolve` call settles the i-th request
     * pushed; the requests not yet settled are the following ones, in push
     * order; only the two entry points' type tags are ever queued.
     */
    ghost predicate Coherent()
      reads this
    {
      (processing <==> current.Some?) &&
      (forall i :: 0 <= i < |settled| ==> settled[i].ticket == i) &&
      (forall i :: 0 <= i < |InFlight()| ==> InFlight()[i].ticket == |settled| + i) &&
      nextTicket == |settled| + |InFlight()| &&
      (forall i :: 0 <= i < |InFlight()| ==> ValidKind(InFlight()[i].kind))
    }

    /** Coherent, and no request waits while the queue is idle. */
    ghost predicate Valid()
      reads this
    {
      Coherent() && (!processing ==> pending == [])
    }

    constructor ()
      ensures Valid()
      ensures pending == [] && !processing && current == None
      ensures nextTicket == 0 && settled == [] && outbox == []
    {
      pending, processing, current := [], false, None;
      nextTicket, settled, outbox := 0, [], [];
    }

    /**
     * The entry guard of `processQueue`: nothing happens while a request is in
     * progress or none is waiting; otherwise the flag is set and the head taken.
     */
    method ProcessQueue()
      requires Coherent()
      modifies this
      ensures Valid()
      ensures InFlight() == old(InFlight())
      ensures settled == old(settled) && outbox == old(outbox) && nextTicket == old(nextTicket)
      ensures old(processing) || old(pending) == [] ==>
        processing == old(processing) && current == old(current) && pending == old(pending)
      ensures !old(processing) && old(pending) != [] ==>
        processing && current == Some(old(pending)[0]) && pending == old(pending)[1..]
    {
      if processing || |pending| == 0 {
        return;
      }
      ghost var before := InFlight();
      processing := true;
      current := Some(pending[0]);
      pending := pending[1..];
      assert InFlight() == before;
    }

    /** Pushes a request at the tail and kicks the queue. */
    method Push(kind: string, id: string, context: ObjectRef, client: ObjectRef) returns (ticket: nat)
      requires Valid() && ValidKind(kind)
      modifies this
      ensures Valid()
      ensures ticket == old(nextTicket) && nextTicket == ticket + 1
      ensures InFlight() == old(InFlight()) + [Pending(ticket, kind, id, context, client)]
      ensures settled == old(settled) && outbox == old(outbox)
      ensures old(processing) ==> processing && current == old(current)
      ensures !old(processing) ==> current == Some(Pending(ticket, kind, id, context, client))
    {
      ticket := nextTicket;
      var p := Pending(ticket, kind, id, context, client);
      ghost var before := InFlight();
      pending := pending + [p];
      nextTicket := nextTicket + 1;
      assert InFlight() == before + [p];
      ProcessQueue();
    }

    /** `getRobloxInfo`: queue a lookup by Discord id. */
    method GetRobloxInfo(discordId: string, context: ObjectRef, client: ObjectRef) returns (ticket: nat)
      requires Valid()
      modifies this
      ensures Valid()
      ensures ticket == old(nextTicket) && nextTicket == ticket + 1
      ensures InFlight() == old(InFlight()) + [Pending(ticket, "discord", discordId, context, client)]
      ensures settled == old(settled) && outbox == old(outbox)
      ensures old(processing) ==> current == old(current)
    {
      ticket := Push("discord", discordId, context, client);
    }

    /** `getDiscordInfo`: queue a lookup by Roblox id. */
    method GetDiscordInfo(robloxId: string, context: ObjectRef, client: ObjectRef) returns (ticket: nat)
      requires Valid()
      modifies this
      ensures Valid()
      ensures ticket == old(nextTicket) && nextTicket == ticket + 1
      ensures InFlight() == old(InFlight()) + [Pending(ticket, "roblox", robloxId, context, client)]
      ensures settled == old(settled) && outbox == old(outbox)
      ensures old(processing) ==> current == old(current)
    {
      ticket := Push("roblox", robloxId, context, client);
    }

    /**
     * The rest of `processQueue` for the request in progress, in the given
     * world: resolve it from its objects' current state, send its notices,
     * settle it once, then (the `finally` block) clear the flag and kick the
     * queue again. With no request in progress there is nothing to resume.
     */
    method RunCurrent(world: World)
      requires Valid()
      modifies this
      ensures Valid()
      ensures nextTicket == old(nextTicket)
      ensures old(current).None? ==>
        pending == old(pending) && current == old(current) && processing == old(processing) &&
        settled == old(settled) && outbox == old(outbox)
      ensures old(current).Some? ==>
        var p := old(current).value;
        settled == old(settled) + [SettleOf(p, world)] &&
        outbox == old(outbox) + SendsOf(p, world) &&
        InFlight() == old(pending)
    {
      if current.None? {
        return;
      }
      var p := current.value;
      ghost var before := InFlight();
      assert before == [p] + pending;
      assert p.ticket == |settled| by { assert before[0] == p; }
      var request := AtService(p, world.objects);
      var settlement, notices, lookups := ProcessRequest(request, world.net);
      outbox := outbox + Sends(p.ticket, request.context, notices);
      settled := settled + [Delivered(p.ticket, settlement.value)];
      processing := false;
      current := None;
      assert InFlight() == before[1..];
      ProcessQueue();
    }

    /**
     * The chain of `processQueue` re-invocations until the queue is idle, each
     * request served in the world `world` gives for its ticket.
     */
    method Drain(world: nat -> World)
      requires Valid()
      modifies this
      ensures Valid() && !processing && pending == []
      ensures nextTicket == old(nextTicket)
      ensures settled == old(settled) + ServeAll(old(InFlight()), world)
      ensures outbox == old(outbox) + SendAll(old(InFlight()), world)
    {
      ghost var served := old(settled) + ServeAll(old(InFlight()), world);
      ghost var sent := old(outbox) + SendAll(old(InFlight()), world);
      while processing
        invariant Valid() && nextTicket == old(nextTicket)
        invariant settled + ServeAll(InFlight(), world) == served
        invariant outbox + SendAll(InFlight(), world) == sent
        decreases |InFlight()|
      {
        var p := current.value;
        ghost var s0, o0, rest := settled, outbox, pending;
        assert InFlight() == [p] + rest;
        ServeHeadThenRest(s0, p, rest, world);
        SendHeadThenRest(o0, p, rest, world);
        RunCurrent(world(p.ticket));
      }
    }

    /**
     * Only the entry points' two type tags reach the resolver through the
     * queue, so its invalid-type branch is never taken for a queued request.
     */
    lemma CurrentKindIsValid()
      requires Coherent() && current.Some?
      ensures MappingEndpoint(current.value.kind).Some?
    {
      assert InFlight()[0] == current.value;
    }

    /**
     * Every pushed request is settled exactly once or still in flight exactly
     * once, never both; a ticket not yet issued appears nowhere.
     */
    lemma SettledExactlyOnce(t: nat)
      requires Coherent()
      ensures Count(DeliveredTickets(settled), t) == (if t < |settled| then 1 else 0)
      ensures Count(DeliveredTickets(settled), t) + Count(Tickets(InFlight()), t) ==
        (if t < nextTicket then 1 else 0)
    {
      ConsecutiveCountsOnce(DeliveredTickets(settled), 0, t);
      ConsecutiveCountsOnce(Tickets(InFlight()), |settled|, t);
    }
  }

  /**
   * Two requests that share one interaction, served without an API key: the
   * interaction is unanswered when the first is served and replied when the
   * second is, so the first notice goes through `reply` and the second
   * through `followUp`.
   */
  method SharedInteractionRoutes() returns (routes: seq<Route>)
    ensures routes == [Reply, FollowUp]
  {
    var q := new Queue();
    var unanswered := Context(Answers(true), true, true, true, true, false, false, Undefined);
    var answered := unanswered.(replied := true);
    var noKey := Client(Undefined);
    var down := Network(Fail, Fail, Fail, Fail);
    var first := q.GetRobloxInfo("1", 7, 8);
    var second := q.GetRobloxInfo("2", 7, 8);
    q.RunCurrent(World(down, Objects(_ => unanswered, _ => noKey)));
    q.RunCurrent(World(down, Objects(_ => answered, _ => noKey)));
    routes := [q.outbox[0].notice.route, q.outbox[1].notice.route];
  }
}
