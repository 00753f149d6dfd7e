/** Counting what a sequence holds, as a multiset. */
module Bags {

  ghost function Bag<T>(s: seq<T>, f: T -> multiset<nat>): multiset<nat> {
    if s == [] then multiset{} else f(s[0]) + Bag(s[1..], f)
  }

  lemma {:induction false} BagAppend<T>(s: seq<T>, t: seq<T>, f: T -> multiset<nat>)
    ensures Bag(s + t, f) == Bag(s, f) + Bag(t, f)
  {
    if s == [] {
      assert s + t == t;
    } else {
      BagAppend(s[1..], t, f);
      assert (s + t)[1..] == s[1..] + t;
    }
  }

  lemma BagSnoc<T>(s: seq<T>, x: T, f: T -> multiset<nat>)
    ensures Bag(s + [x], f) == Bag(s, f) + f(x)
  {
    BagAppend(s, [x], f);
    assert Bag([x][1..], f) == multiset{};
  }

  lemma BagTakeOut<T>(s: seq<T>, i: nat, f: T -> multiset<nat>)
    requires i < |s|
    ensures Bag(s, f) == f(s[i]) + Bag(s[..i] + s[i + 1..], f)
  {
    BagAppend(s[..i], s[i..], f);
    BagAppend(s[..i], s[i + 1..], f);
    assert s == s[..i] + s[i..];
    assert s[i..][1..] == s[i + 1..];
  }
}

/**
 One tunnel between the gateway and a provider: cmd/gateway/main.go on one end, internal/tunnel/client.go on the
 other, and a FIFO link each way. One event is one region under a mutex, one unlocked access, one channel
 operation or one message put on or taken off the link. Who moves, what times out, which sends fail and what a
 container answers is chosen by the event.
 */
module TunnelLink {
  import opened Machines
  import opened Options

  /** What a provider sends back for a request: 404, 500, 502, or what the container at a port said. */
  datatype Reply = NotFound | InternalError | Unreachable | FromContainer(port: int, content: nat)

  /**
   Messages to the gateway. The origin of a response, and of a request below, names the `Request` call it goes
   back to. It is bookkeeping: it is not on the wire and no step looks at it.
   */
  datatype UpMsg =
    | Register(dep: string, port: int)
    | Unregister(dep: string)
    | Response(reqId: string, reply: Reply, origin: nat)

  /** Messages to the provider. */
  datatype DownMsg =
    | Registered(dep: string)
    | Forward(reqId: string, dep: string, origin: nat)

  /** Where a `Request` call of the gateway stands. */
  datatype Wait =
    | Inserted                          // its channel is in the pending table, the message is not sent
    | Waiting                           // in the `select`
    | GivingUp                          // sending failed or time ran out; the table entry is to be deleted
    | Returned(answer: Option<UpMsg>)

  /** `slot` is the call's channel, which has room for one message; `sent` is history: its request has gone out. */
  datatype Call = Call(reqId: string, dep: string, wait: Wait, slot: Option<UpMsg>, sent: bool)

  /** The goroutine that reads a connection at the gateway. */
  datatype Reader =
    | Idle
    | Holding(msg: UpMsg)               // read off the link, not yet acted on
    | Indexing(dep: string)             // `Routes` written, the shared index not yet
    | Confirming(dep: string)
    | Unlocking(reqId: string)          // response put in the channel; entry not deleted, mutex held
    | Closed                            // cleaned up

  /** A handler of the provider after its look at the routes: what it was asked and what it saw. */
  datatype Lookup = Lookup(reqId: string, dep: string, origin: nat, routes: map<string, int>)

  /** A `RegisterDeployment` or `UnregisterDeployment` call, by the message it sends. */
  datatype Op = Op(msg: UpMsg, sent: bool)

  datatype Link = Link(
    // gateway
    reader: Reader,
    gwRoutes: map<string, int>,
    pending: map<string, nat>,
    calls: map<nat, Call>,
    // the two directions of the link
    up: seq<UpMsg>,
    down: seq<DownMsg>,
    // provider
    clientRoutes: map<string, int>,
    ops: map<nat, Op>,
    spawned: seq<DownMsg>,              // requests whose handler has not looked at the routes yet
    busy: seq<Lookup>,                  // handlers that have
    // history
    lookups: seq<Lookup>,               // every look a handler took, and the routes at that moment
    answered: multiset<nat>)            // for which call each response was sent

  const FRESH: Link := Link(Idle, map[], map[], map[], [], [], map[], map[], [], [], [], multiset{})

  datatype Event =
    | Begin(call: nat, reqId: string, dep: string)
    | SendRequest(call: nat, ok: bool)
    | Receive(call: nat)
    | TimeOut(call: nat)
    | CleanUp(call: nat)
    | Read
    | WriteRoute
    | WriteIndex
    | Confirm(ok: bool)
    | DropRoute
    | Deliver
    | Unlock
    | Disconnect
    | ClientRead
    | Look(job: nat)
    | Answer(job: nat, reply: Reply, ok: bool)
    | OpBegin(op: nat, msg: UpMsg)
    | OpSend(op: nat, ok: bool)
    | OpFinish(op: nat)

  /** The connection's mutex is free: only the reader ever keeps it across two events. */
  predicate LockFree(l: Link) { !l.reader.Unlocking? }

  /** The reader is about to send on a channel that is full, with the mutex held. */
  predicate Blocked(l: Link) {
    l.reader.Holding? && l.reader.msg.Response? && l.reader.msg.reqId in l.pending &&
    l.pending[l.reader.msg.reqId] in l.calls && l.calls[l.pending[l.reader.msg.reqId]].slot.Some?
  }

  /** The replies a handler can give after seeing `routes`. */
  predicate Possible(reply: Reply, dep: string, routes: map<string, int>) {
    if dep in routes
    then reply.InternalError? || reply.Unreachable? || (reply.FromContainer? && reply.port == routes[dep])
    else reply.NotFound?
  }

  predicate Stands(l: Link, call: nat, wait: Wait) { call in l.calls && l.calls[call].wait == wait }

  predicate Enabled(l: Link, e: Event) {
    match e
    case Begin(k, _, _) => LockFree(l) && k !in l.calls
    case SendRequest(k, _) => LockFree(l) && Stands(l, k, Inserted)
    case Receive(k) => Stands(l, k, Waiting) && l.calls[k].slot.Some?
    case TimeOut(k) => Stands(l, k, Waiting)
    case CleanUp(k) => LockFree(l) && Stands(l, k, GivingUp)
    case Read => l.reader.Idle? && l.up != []
    case WriteRoute => l.reader.Holding? && l.reader.msg.Register?
    case WriteIndex => l.reader.Indexing?
    case Confirm(_) => l.reader.Confirming?
    case DropRoute => l.reader.Holding? && l.reader.msg.Unregister?
    case Deliver => l.reader.Holding? && l.reader.msg.Response? && !Blocked(l)
                    && (l.reader.msg.reqId in l.pending ==> l.pending[l.reader.msg.reqId] in l.calls)
    case Unlock => l.reader.Unlocking?
    case Disconnect => l.reader.Idle?
    case ClientRead => l.down != []
    case Look(i) => i < |l.spawned| && l.spawned[i].Forward?
    case Answer(i, reply, _) => i < |l.busy| && Possible(reply, l.busy[i].dep, l.busy[i].routes)
    case OpBegin(o, msg) => o !in l.ops && (msg.Register? || msg.Unregister?)
    case OpSend(o, _) => o in l.ops && !l.ops[o].sent
    case OpFinish(o) => o in l.ops && l.ops[o].sent
  }

  /** The effect of a register or unregister message on a table of routes. */
  function Apply(routes: map<string, int>, m: UpMsg): map<string, int> {
    match m
    case Register(d, p) => routes[d := p]
    case Unregister(d) => routes - {d}
    case Response(_, _, _) => routes
  }

  function SetWait(l: Link, k: nat, wait: Wait): map<nat, Call>
    requires k in l.calls
  {
    l.calls[k := l.calls[k].(wait := wait)]
  }

  function TakeOut<T>(s: seq<T>, i: nat): seq<T>
    requires i < |s|
  {
    s[..i] + s[i + 1..]
  }

  function Next(l: Link, e: Event): Link
    requires Enabled(l, e)
  {
    match e
    case Begin(k, r, d) =>
      l.(pending := l.pending[r := k], calls := l.calls[k := Call(r, d, Inserted, None, false)])
    case SendRequest(k, ok) =>
      if ok then
        l.(down := l.down + [Forward(l.calls[k].reqId, l.calls[k].dep, k)],
           calls := l.calls[k := l.calls[k].(wait := Waiting, sent := true)])
      else l.(calls := SetWait(l, k, GivingUp))
    case Receive(k) =>
      l.(calls := l.calls[k := l.calls[k].(wait := Returned(l.calls[k].slot), slot := None)])
    case TimeOut(k) => l.(calls := SetWait(l, k, GivingUp))
    case CleanUp(k) => l.(pending := l.pending - {l.calls[k].reqId}, calls := SetWait(l, k, Returned(None)))
    case Read => l.(reader := Holding(l.up[0]), up := l.up[1..])
    case WriteRoute => l.(reader := Indexing(l.reader.msg.dep), gwRoutes := Apply(l.gwRoutes, l.reader.msg))
    case WriteIndex => l.(reader := Confirming(l.reader.dep))
    case Confirm(ok) => l.(reader := Idle, down := if ok then l.down + [Registered(l.reader.dep)] else l.down)
    case DropRoute => l.(reader := Idle, gwRoutes := Apply(l.gwRoutes, l.reader.msg))
    case Deliver =>
      var r := l.reader.msg.reqId;
      if r in l.pending then
        var k := l.pending[r];
        l.(reader := Unlocking(r), calls := l.calls[k := l.calls[k].(slot := Some(l.reader.msg))])
      else l.(reader := Idle)
    case Unlock => l.(reader := Idle, pending := l.pending - {l.reader.reqId})
    case Disconnect => l.(reader := Closed)
    case ClientRead =>
      l.(down := l.down[1..], spawned := if l.down[0].Forward? then l.spawned + [l.down[0]] else l.spawned)
    case Look(i) =>
      var m := l.spawned[i];
      var seen := Lookup(m.reqId, m.dep, m.origin, l.clientRoutes);
      l.(spawned := TakeOut(l.spawned, i), busy := l.busy + [seen], lookups := l.lookups + [seen])
    case Answer(i, reply, ok) =>
      var b := l.busy[i];
      l.(busy := TakeOut(l.busy, i),
         up := if ok then l.up + [Response(b.reqId, reply, b.origin)] else l.up,
         answered := if ok then l.answered + multiset{b.origin} else l.answered)
    case OpBegin(o, msg) => l.(ops := l.ops[o := Op(msg, false)])
    case OpSend(o, ok) =>
      if ok then l.(up := l.up + [l.ops[o].msg], ops := l.ops[o := l.ops[o].(sent := true)])
      else l.(ops := l.ops - {o})
    case OpFinish(o) => l.(clientRoutes := Apply(l.clientRoutes, l.ops[o].msg), ops := l.ops - {o})
  }

  // ---------- what the events leave alone ----------

  /** The gateway's calls and the delivery of a response. */
  predicate OnCalls(e: Event) {
    e.Begin? || e.SendRequest? || e.Receive? || e.TimeOut? || e.CleanUp? || e.Deliver?
  }

  lemma OthersLeaveCalls(l: Link, e: Event)
    requires Enabled(l, e) && !OnCalls(e)
    ensures Next(l, e).calls == l.calls
    ensures Next(l, e).pending == if e.Unlock? then l.pending - {l.reader.reqId} else l.pending
  {}

  /** The calls that register and unregister. */
  predicate OnOps(e: Event) { e.OpBegin? || e.OpSend? || e.OpFinish? }

  lemma OthersLeaveOps(l: Link, e: Event)
    requires Enabled(l, e) && !OnOps(e)
    ensures Next(l, e).ops == l.ops
  {}

  /** The reader keeps the mutex from the delivery of a response to the unlocking, and only then. */
  lemma UnlockingStays(l: Link, e: Event)
    requires Enabled(l, e) && !e.Deliver? && !e.Unlock?
    ensures Next(l, e).reader.Unlocking? <==> l.reader.Unlocking?
    ensures l.reader.Unlocking? ==> Next(l, e).reader == l.reader
  {}

  /** What an event does to the index that all connections of the gateway share. */
  datatype Effect = Nothing | Route(dep: string) | Drop(deps: set<string>)

  function EffectOf(l: Link, e: Event): Effect
    requires Enabled(l, e)
  {
    match e
    case WriteIndex => Route(l.reader.dep)
    case DropRoute => Drop({l.reader.msg.dep})
    case Disconnect => Drop(l.gwRoutes.Keys)
    case _ => Nothing
  }

  ghost function Linking(env: (Link, Event) -> bool): Machine<Link, Event> {
    Machine((l, e) => Enabled(l, e) && env(l, e), (l, e) => if Enabled(l, e) then Next(l, e) else l)
  }

  predicate Anything(l: Link, e: Event) { true }

  /** `es` is a run of a fresh connection that ends in `l`. */
  ghost predicate Reached(es: seq<Event>, l: Link) { Runs(Linking(Anything), FRESH, es, l) }

  /** One step of a run that is being built. */
  lemma Do(es: seq<Event>, l: Link, e: Event) returns (es': seq<Event>, n: Link)
    requires Reached(es, l) && Enabled(l, e)
    ensures Reached(es', n) && n == Next(l, e)
  {
    assert Anything(l, e);
    Extend(Linking(Anything), FRESH, es, l, e);
    es', n := es + [e], Next(l, e);
  }
}

/** The table of pending requests, with no assumption on request IDs. */
module PendingTable {
  import opened Machines
  import opened Options
  import opened TunnelLink

  /**
   An entry belongs to a call that asked under this ID. Unless the reader is between filling the call's channel
   and deleting the entry, the channel is empty and the call is in flight.
   */
  ghost predicate EntryFits(l: Link, r: string) {
    r in l.pending ==>
      && l.pending[r] in l.calls
      && l.calls[l.pending[r]].reqId == r
      && (l.reader != Unlocking(r) ==> l.calls[l.pending[r]].slot == None && !l.calls[l.pending[r]].wait.Returned?)
  }

  ghost predicate Inv(l: Link) { forall r :: EntryFits(l, r) }

  lemma StepEntryFits(l: Link, e: Event, r: string)
    requires EntryFits(l, r) && Enabled(l, e) && (e.Deliver? ==> EntryFits(l, l.reader.msg.reqId))
    ensures EntryFits(Next(l, e), r)
  {
    if e.Deliver? {
      DeliverFits(l, r);
    } else if OnCalls(e) {
      CallFits(l, e, r);
    } else {
      OthersLeaveCalls(l, e);
      if !e.Unlock? {
        UnlockingStays(l, e);
      }
    }
  }

  lemma DeliverFits(l: Link, r: string)
    requires EntryFits(l, r) && Enabled(l, Deliver) && EntryFits(l, l.reader.msg.reqId)
    ensures EntryFits(Next(l, Deliver), r)
  {}

  lemma CallFits(l: Link, e: Event, r: string)
    requires EntryFits(l, r) && Enabled(l, e) && OnCalls(e) && !e.Deliver?
    ensures EntryFits(Next(l, e), r)
  {}

  lemma StepsKeep(env: (Link, Event) -> bool)
    ensures Keeps(Linking(env), Inv)
  {
    forall l, e | Inv(l) && Enabled(l, e)
      ensures Inv(Next(l, e))
    {
      forall r
        ensures EntryFits(Next(l, e), r)
      {
        assert EntryFits(l, r) && (e.Deliver? ==> EntryFits(l, l.reader.msg.reqId));
        StepEntryFits(l, e, r);
      }
    }
  }

  lemma Invariant(env: (Link, Event) -> bool, es: seq<Event>, t: Link)
    requires Runs(Linking(env), FRESH, es, t)
    ensures Inv(t)
  {
    StepsKeep(env);
    Induction(Linking(env), Inv, FRESH, es, t);
  }

  /**
   In every interleaving, even when request IDs are reused: the reader never blocks on a full channel while it
   holds the mutex; it can act on any message it holds; outside that region every channel in the table is empty
   and is that of a call in flight; and no two entries lead to the same call.
   */
  lemma NeverBlocks(es: seq<Event>, t: Link)
    requires Runs(Linking(Anything), FRESH, es, t)
    ensures !Blocked(t)
    ensures t.reader.Holding? ==> Enabled(t, WriteRoute) || Enabled(t, DropRoute) || Enabled(t, Deliver)
    ensures LockFree(t) ==> forall r :: r in t.pending ==>
              t.pending[r] in t.calls && t.calls[t.pending[r]].slot == None && !t.calls[t.pending[r]].wait.Returned?
    ensures forall r, q :: r in t.pending && q in t.pending && t.pending[r] == t.pending[q] ==> r == q
  {
    Invariant(Anything, es, t);
    assert forall r :: r in t.pending ==> EntryFits(t, r);
  }

  /** Nothing leaks: once every call has returned and the reader is out of its region, the table is empty. */
  lemma Drains(es: seq<Event>, t: Link)
    requires Runs(Linking(Anything), FRESH, es, t)
    requires LockFree(t) && forall k :: k in t.calls ==> t.calls[k].wait.Returned?
    ensures t.pending == map[]
  {
    NeverBlocks(es, t);
    assert forall r :: r !in t.pending;
  }
}
