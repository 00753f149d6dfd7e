/** That things get done: what each call can reach when it is left to itself, from any quiet state of its link. */
module LinkProgress {
  import opened Machines
  import opened Options
  import opened TunnelLink
  import Table = PendingTable

  /** The replies a handler can give: 404 without a route; with one 500, 502 or what the container at its port says. */
  lemma EveryReplyIsEnabled(l: Link, i: nat, reply: Reply, ok: bool)
    requires i < |l.busy|
    ensures Enabled(l, Answer(i, reply, ok)) <==>
            match reply
            case NotFound => l.busy[i].dep !in l.busy[i].routes
            case InternalError => l.busy[i].dep in l.busy[i].routes
            case Unreachable => l.busy[i].dep in l.busy[i].routes
            case FromContainer(p, _) => l.busy[i].dep in l.busy[i].routes && l.busy[i].routes[l.busy[i].dep] == p
  {}

  // ---------- nobody waits for long ----------

  ghost predicate OnlyRequestsSpawned(l: Link) { forall m :: m in l.spawned ==> m.Forward? }

  lemma StepOnlyRequests(l: Link, e: Event)
    requires OnlyRequestsSpawned(l) && Enabled(l, e)
    ensures OnlyRequestsSpawned(Next(l, e))
  {}

  lemma SpawnedAreRequests(es: seq<Event>, t: Link)
    requires Runs(Linking(Anything), FRESH, es, t)
    ensures OnlyRequestsSpawned(t)
  {
    forall l, e | OnlyRequestsSpawned(l) && Enabled(l, e)
      ensures OnlyRequestsSpawned(Next(l, e))
    {
      StepOnlyRequests(l, e);
    }
    Induction(Linking(Anything), OnlyRequestsSpawned, FRESH, es, t);
  }

  /**
   At the gateway, in every reachable state: a call begins, sends and cleans up whenever the mutex is free, may time out
   whenever it waits, and receives what is in its channel; the reader takes the next message when it is idle, may find
   the connection closed then, and otherwise goes on at once. The mutex is free unless the reader is about to free it.
   */
  lemma GatewayCanMove(es: seq<Event>, t: Link, k: nat, r: string, d: string, ok: bool)
    requires Runs(Linking(Anything), FRESH, es, t)
    ensures !LockFree(t) ==> Enabled(t, Unlock)
    ensures LockFree(t) && k !in t.calls ==> Enabled(t, Begin(k, r, d))
    ensures k in t.calls ==>
              match t.calls[k].wait
              case Inserted => LockFree(t) ==> Enabled(t, SendRequest(k, ok))
              case Waiting => Enabled(t, TimeOut(k)) && (t.calls[k].slot.Some? ==> Enabled(t, Receive(k)))
              case GivingUp => LockFree(t) ==> Enabled(t, CleanUp(k))
              case Returned(_) => true
    ensures match t.reader
            case Idle => Enabled(t, Disconnect) && (t.up != [] ==> Enabled(t, Read))
            case Holding(m) =>
              Enabled(t, if m.Register? then WriteRoute else if m.Unregister? then DropRoute else Deliver)
            case Indexing(_) => Enabled(t, WriteIndex)
            case Confirming(_) => Enabled(t, Confirm(ok))
            case Unlocking(_) => Enabled(t, Unlock)
            case Closed => true
  {
    Table.NeverBlocks(es, t);
  }

  /** And at the provider: every message is read, every request looked up, every call of a handler goes on at once. */
  lemma ProviderCanMove(es: seq<Event>, t: Link, i: nat, o: nat, m: UpMsg, ok: bool)
    requires Runs(Linking(Anything), FRESH, es, t)
    ensures t.down != [] ==> Enabled(t, ClientRead)
    ensures i < |t.spawned| ==> Enabled(t, Look(i))
    ensures o !in t.ops && !m.Response? ==> Enabled(t, OpBegin(o, m))
    ensures o in t.ops ==> Enabled(t, if t.ops[o].sent then OpFinish(o) else OpSend(o, ok))
  {
    SpawnedAreRequests(es, t);
  }

  // ---------- what is begun can be brought to its end ----------

  /** Nothing is on its way in either direction, and no handler is at work. */
  predicate Quiet(l: Link) {
    l.reader == Idle && l.up == [] && l.down == [] && l.spawned == [] && l.busy == []
  }

  ghost predicate Leads(l: Link, es: seq<Event>, t: Link) { Runs(Linking(Anything), l, es, t) }

  lemma Go(l: Link, es: seq<Event>, s: Link, e: Event) returns (es': seq<Event>, t: Link)
    requires Leads(l, es, s) && Enabled(s, e)
    ensures Leads(l, es', t) && t == Next(s, e)
  {
    assert Anything(s, e);
    Extend(Linking(Anything), l, es, s, e);
    es', t := es + [e], Next(s, e);
  }

  /** The gateway puts a request on the link, and the provider's handler looks at its routes. */
  lemma Ask(l: Link, k: nat, r: string, d: string) returns (es: seq<Event>, t: Link)
    requires Quiet(l) && k !in l.calls
    ensures Leads(l, es, t)
    ensures t == l.(calls := l.calls[k := Call(r, d, Waiting, None, true)], pending := l.pending[r := k],
                    busy := [Lookup(r, d, k, l.clientRoutes)],
                    lookups := l.lookups + [Lookup(r, d, k, l.clientRoutes)])
  {
    es, t := Send(l, k, r, d);
    es, t := Go(l, es, t, ClientRead);
    es, t := Go(l, es, t, Look(0));
  }

  lemma Send(l: Link, k: nat, r: string, d: string) returns (es: seq<Event>, t: Link)
    requires Quiet(l) && k !in l.calls
    ensures Leads(l, es, t)
    ensures t == l.(calls := l.calls[k := Call(r, d, Waiting, None, true)], pending := l.pending[r := k],
                    down := [Forward(r, d, k)])
  {
    es, t := Go(l, [], l, Begin(k, r, d));
    es, t := Go(l, es, t, SendRequest(k, true));
  }

  /** The answer is put in the waiting call's channel, and its entry goes. */
  lemma Return(l: Link, es: seq<Event>, s: Link, k: nat, m: UpMsg) returns (es': seq<Event>, t: Link)
    requires Leads(l, es, s) && s.reader == Idle && s.up == [m] && m.Response?
    requires m.reqId in s.pending && s.pending[m.reqId] == k && k in s.calls
    requires s.calls[k].wait == Waiting && s.calls[k].slot == None
    ensures Leads(l, es', t)
    ensures t == s.(up := [], pending := s.pending - {m.reqId},
                    calls := s.calls[k := s.calls[k].(wait := Returned(Some(m)))])
  {
    es', t := Go(l, es, s, Read);
    es', t := Go(l, es', t, Deliver);
    es', t := Go(l, es', t, Unlock);
    es', t := Go(l, es', t, Receive(k));
  }

  /**
   A request gets through. From any quiet state of a link, a call that begins can return each of the replies that the
   source allows given the provider's routes, under its own request ID, and leaves nothing behind it.
   */
  lemma RequestIsServed(l: Link, k: nat, r: string, d: string, reply: Reply) returns (es: seq<Event>, t: Link)
    requires Quiet(l) && k !in l.calls && r !in l.pending
    requires match reply
             case NotFound => d !in l.clientRoutes
             case InternalError => d in l.clientRoutes
             case Unreachable => d in l.clientRoutes
             case FromContainer(p, _) => d in l.clientRoutes && l.clientRoutes[d] == p
    ensures Runs(Linking(Anything), l, es, t) && Quiet(t) && t.pending == l.pending
    ensures k in t.calls && t.calls[k].wait == Returned(Some(Response(r, reply, k))) && t.calls - {k} == l.calls
    ensures t.gwRoutes == l.gwRoutes && t.clientRoutes == l.clientRoutes && t.ops == l.ops
  {
    es, t := Ask(l, k, r, d);
    EveryReplyIsEnabled(t, 0, reply, true);
    es, t := Go(l, es, t, Answer(0, reply, true));
    es, t := Return(l, es, t, k, Response(r, reply, k));
    assert t.calls - {k} == l.calls && t.pending == l.pending;
  }

  /** `RegisterDeployment` or `UnregisterDeployment` runs to its end at the provider. */
  lemma CallOnce(l: Link, o: nat, m: UpMsg) returns (es: seq<Event>, t: Link)
    requires Quiet(l) && o !in l.ops && !m.Response?
    ensures Leads(l, es, t)
    ensures t == l.(up := [m], clientRoutes := t.clientRoutes)
    ensures t.clientRoutes == if m.Register? then l.clientRoutes[m.dep := m.port] else l.clientRoutes - {m.dep}
  {
    es, t := Go(l, [], l, OpBegin(o, m));
    es, t := Go(l, es, t, OpSend(o, true));
    es, t := Go(l, es, t, OpFinish(o));
    assert t.ops == l.ops;
  }

  /**
   A registration takes effect. From any quiet state it can lead to a quiet state in which both ends have the route at
   its port and nothing else has changed.
   */
  lemma RegistrationTakesEffect(l: Link, o: nat, d: string, p: int) returns (es: seq<Event>, t: Link)
    requires Quiet(l) && o !in l.ops
    ensures Runs(Linking(Anything), l, es, t)
    ensures t == l.(clientRoutes := l.clientRoutes[d := p], gwRoutes := l.gwRoutes[d := p])
  {
    es, t := CallOnce(l, o, Register(d, p));
    es, t := Go(l, es, t, Read);
    es, t := Go(l, es, t, WriteRoute);
    es, t := Go(l, es, t, WriteIndex);
    es, t := Confirmed(l, es, t, d);
  }

  /** The gateway confirms and the provider reads it. */
  lemma Confirmed(l: Link, es: seq<Event>, s: Link, d: string) returns (es': seq<Event>, t: Link)
    requires Leads(l, es, s) && s.reader == Confirming(d) && s.down == []
    ensures Leads(l, es', t) && t == s.(reader := Idle)
  {
    es', t := Go(l, es, s, Confirm(true));
    assert t.down == [Registered(d)];
    es', t := Go(l, es', t, ClientRead);
  }

  /** So does an unregistration. */
  lemma UnregistrationTakesEffect(l: Link, o: nat, d: string) returns (es: seq<Event>, t: Link)
    requires Quiet(l) && o !in l.ops
    ensures Runs(Linking(Anything), l, es, t)
    ensures t == l.(clientRoutes := l.clientRoutes - {d}, gwRoutes := l.gwRoutes - {d})
  {
    es, t := CallOnce(l, o, Unregister(d));
    es, t := Go(l, es, t, Read);
    es, t := Go(l, es, t, DropRoute);
  }

  /** A request that cannot be sent returns without a response and leaves nothing behind it. */
  lemma UnsentRequestReturns(l: Link, k: nat, r: string, d: string) returns (es: seq<Event>, t: Link)
    requires Quiet(l) && k !in l.calls && r !in l.pending
    ensures Runs(Linking(Anything), l, es, t)
    ensures k in t.calls && t.calls[k].wait == Returned(None) && t.calls - {k} == l.calls
    ensures t == l.(calls := t.calls)
  {
    es, t := Go(l, [], l, Begin(k, r, d));
    es, t := Go(l, es, t, SendRequest(k, false));
    es, t := Go(l, es, t, CleanUp(k));
    assert t.calls - {k} == l.calls && t.pending == l.pending;
  }

  /** A registration or unregistration that cannot be sent changes nothing at either end. */
  lemma UnsentCallChangesNothing(l: Link, o: nat, m: UpMsg) returns (es: seq<Event>, t: Link)
    requires o !in l.ops && !m.Response?
    ensures Runs(Linking(Anything), l, es, t) && t == l
  {
    es, t := Go(l, [], l, OpBegin(o, m));
    es, t := Go(l, es, t, OpSend(o, false));
    assert t.ops == l.ops;
  }
}

/** The same for the gateway's index. */
module GatewayProgress {
  import opened LinkProgress
  import opened Machines
  import opened Options
  import opened TunnelSystem
  import Link = TunnelLink

  /** The events `es`, all of connection `c`, lead from `s` to `t`. */
  ghost predicate Moved(s: System, c: nat, es: seq<Event>, t: System) {
    && Runs(Serving(Anything), s, es, t)
    && c in s.conns && c in t.conns && t.conns == s.conns[c := t.conns[c]]
  }

  /** One move of connection `c`. */
  lemma Go(s: System, c: nat, es: seq<Event>, u: System, m: Move) returns (es': seq<Event>, t: System)
    requires Moved(s, c, es, u) && Link.Enabled(u.conns[c], m)
    ensures Moved(s, c, es', t) && t.conns[c] == Link.Next(u.conns[c], m)
    ensures t.routes == match Link.EffectOf(u.conns[c], m)
                        case Nothing => u.routes
                        case Route(d) => u.routes[d := c]
                        case Drop(ds) => u.routes - ds
  {
    assert Anything(u, At(c, m));
    Extend(Serving(Anything), s, es, u, At(c, m));
    es', t := es + [At(c, m)], Next(u, At(c, m));
  }

  lemma SendsOn(s: System, c: nat, o: nat, m: Link.UpMsg) returns (es: seq<Event>, t: System)
    requires c in s.conns && Quiet(s.conns[c]) && o !in s.conns[c].ops && !m.Response?
    ensures Moved(s, c, es, t) && t.routes == s.routes
    ensures t.conns[c] == s.conns[c].(up := [m], clientRoutes := t.conns[c].clientRoutes)
    ensures t.conns[c].clientRoutes ==
            if m.Register? then s.conns[c].clientRoutes[m.dep := m.port] else s.conns[c].clientRoutes - {m.dep}
  {
    assert s.conns == s.conns[c := s.conns[c]];
    es, t := Go(s, c, [], s, Link.OpBegin(o, m));
    es, t := Go(s, c, es, t, Link.OpSend(o, true));
    es, t := Go(s, c, es, t, Link.OpFinish(o));
    assert t.conns[c].ops == s.conns[c].ops;
  }

  lemma ReadsRegistration(s: System, c: nat, es: seq<Event>, u: System, d: string, p: int)
    returns (es': seq<Event>, t: System)
    requires Moved(s, c, es, u) && u.conns[c].reader == Link.Idle
    requires u.conns[c].up == [Link.Register(d, p)]
    ensures Moved(s, c, es', t) && t.routes == u.routes[d := c]
    ensures t.conns[c] == u.conns[c].(reader := Link.Confirming(d), up := [], gwRoutes := u.conns[c].gwRoutes[d := p])
  {
    es', t := Go(s, c, es, u, Link.Read);
    es', t := Go(s, c, es', t, Link.WriteRoute);
    es', t := Go(s, c, es', t, Link.WriteIndex);
  }

  lemma Confirms(s: System, c: nat, es: seq<Event>, u: System, d: string) returns (es': seq<Event>, t: System)
    requires Moved(s, c, es, u) && u.conns[c].reader == Link.Confirming(d) && u.conns[c].down == []
    ensures Moved(s, c, es', t) && t.routes == u.routes && t.conns[c] == u.conns[c].(reader := Link.Idle)
  {
    es', t := Go(s, c, es, u, Link.Confirm(true));
    assert t.conns[c].down == [Link.Registered(d)];
    es', t := Go(s, c, es', t, Link.ClientRead);
  }

  /**
   A registration is routed. From any state of the gateway in which a connection is quiet, its provider can register a
   deployment, after which `GetTunnel` finds this connection for it, both ends have the route, and nothing else has
   changed.
   */
  lemma RegistrationIsRouted(s: System, c: nat, o: nat, d: string, p: int) returns (es: seq<Event>, t: System)
    requires c in s.conns && Quiet(s.conns[c]) && o !in s.conns[c].ops
    ensures Runs(Serving(Anything), s, es, t) && GetTunnel(t, d) == Some(c)
    ensures forall e :: e != d ==> GetTunnel(t, e) == GetTunnel(s, e)
    ensures var l := s.conns[c];
            t.conns == s.conns[c := l.(clientRoutes := l.clientRoutes[d := p], gwRoutes := l.gwRoutes[d := p])]
  {
    es, t := SendsOn(s, c, o, Link.Register(d, p));
    es, t := ReadsRegistration(s, c, es, t, d, p);
    es, t := Confirms(s, c, es, t, d);
  }

  /** And an unregistration takes the route away, whosever it was. */
  lemma UnregistrationIsRouted(s: System, c: nat, o: nat, d: string) returns (es: seq<Event>, t: System)
    requires c in s.conns && Quiet(s.conns[c]) && o !in s.conns[c].ops
    ensures Runs(Serving(Anything), s, es, t) && GetTunnel(t, d) == None
    ensures forall e :: e != d ==> GetTunnel(t, e) == GetTunnel(s, e)
    ensures var l := s.conns[c];
            t.conns == s.conns[c := l.(clientRoutes := l.clientRoutes - {d}, gwRoutes := l.gwRoutes - {d})]
  {
    es, t := SendsOn(s, c, o, Link.Unregister(d));
    es, t := Go(s, c, es, t, Link.Read);
    assert t.conns[c].up == [];
    es, t := Go(s, c, es, t, Link.DropRoute);
    var l := s.conns[c];
    assert t.conns[c] == l.(clientRoutes := l.clientRoutes - {d}, gwRoutes := l.gwRoutes - {d});
  }

  /** A connection that ends takes with it exactly the routes of the deployments it lists. */
  lemma DisconnectDropsItsRoutes(s: System, c: nat, d: string)
    requires c in s.conns && s.conns[c].reader == Link.Idle
    ensures Enabled(s, At(c, Link.Disconnect))
    ensures GetTunnel(Next(s, At(c, Link.Disconnect)), d) ==
            if d in s.conns[c].gwRoutes then None else GetTunnel(s, d)
  {}
}
