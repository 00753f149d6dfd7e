/** The gateway with any number of connections and the index `routes` that they share. */
module TunnelSystem {
  import opened Machines
  import opened Options
  import Link = TunnelLink

  type Conn = Link.Link
  type Move = Link.Event

  datatype System = System(routes: map<string, nat>, conns: map<nat, Conn>)

  const EMPTY: System := System(map[], map[])

  datatype Event = Accept(conn: nat) | At(conn: nat, move: Move)

  predicate Enabled(s: System, e: Event) {
    match e
    case Accept(c) => c !in s.conns
    case At(c, m) => c in s.conns && Link.Enabled(s.conns[c], m)
  }

  function Next(s: System, e: Event): System
    requires Enabled(s, e)
  {
    match e
    case Accept(c) => s.(conns := s.conns[c := Link.FRESH])
    case At(c, m) =>
      System(match Link.EffectOf(s.conns[c], m)
             case Nothing => s.routes
             case Route(d) => s.routes[d := c]
             case Drop(ds) => s.routes - ds,
             s.conns[c := Link.Next(s.conns[c], m)])
  }

  /** The gateway when `env` is assumed of every event. */
  ghost function Serving(env: (System, Event) -> bool): Machine<System, Event> {
    Machine((s, e) => Enabled(s, e) && env(s, e), (s, e) => if Enabled(s, e) then Next(s, e) else s)
  }

  predicate Anything(s: System, e: Event) { true }

  /** `linkEnv` holds of the event, if it is a move on some connection. */
  predicate OnLink(linkEnv: (Conn, Move) -> bool, s: System, e: Event) {
    e.At? && e.conn in s.conns ==> linkEnv(s.conns[e.conn], e.move)
  }

  /** `GetTunnel`. */
  function GetTunnel(s: System, id: string): Option<nat> {
    if id in s.routes then Some(s.routes[id]) else None
  }

  // ---------- each connection runs on its own ----------

  ghost predicate Projects(env: (Conn, Move) -> bool, s: System) {
    forall c :: c in s.conns ==> exists ms :: Runs(Link.Linking(env), Link.FRESH, ms, s.conns[c])
  }

  /**
   What is proved of one link holds of every connection: its part of a run of the gateway is a run of the link.
   */
  lemma ConnectionsRunAlone(env: (System, Event) -> bool, linkEnv: (Conn, Move) -> bool, es: seq<Event>, t: System)
    requires forall s, e :: env(s, e) ==> OnLink(linkEnv, s, e)
    requires Runs(Serving(env), EMPTY, es, t)
    ensures Projects(linkEnv, t)
  {
    var mach := Serving(env);
    var inv := s => Projects(linkEnv, s);
    forall s, e | inv(s) && mach.may(s, e)
      ensures inv(mach.next(s, e))
    {
      forall c | c in Next(s, e).conns
        ensures exists ms :: Runs(Link.Linking(linkEnv), Link.FRESH, ms, Next(s, e).conns[c])
      {
        ProjectsStep(linkEnv, s, e, c);
      }
    }
    Induction(mach, inv, EMPTY, es, t);
  }

  lemma ProjectsStep(linkEnv: (Conn, Move) -> bool, s: System, e: Event, c: nat)
    requires Projects(linkEnv, s) && Enabled(s, e) && OnLink(linkEnv, s, e) && c in Next(s, e).conns
    ensures exists ms :: Runs(Link.Linking(linkEnv), Link.FRESH, ms, Next(s, e).conns[c])
  {
    var m := Link.Linking(linkEnv);
    if e == Accept(c) {
      assert Runs(m, Link.FRESH, [], Link.FRESH);
    } else {
      var ms :| Runs(m, Link.FRESH, ms, s.conns[c]);
      if e.At? && e.conn == c {
        Extend(m, Link.FRESH, ms, s.conns[c], e.move);
      }
    }
  }
}

/** The shared index against what each connection itself lists. */
module RouteIndex {
  import opened HostRouting
  import opened Machines
  import opened Options
  import opened TunnelSystem
  import Link = TunnelLink
  import Replay = RouteReplay

  /** Connection `c` is still served and lists deployment `d`. */
  predicate Lists(s: System, c: nat, d: string) {
    c in s.conns && !s.conns[c].reader.Closed? && d in s.conns[c].gwRoutes
  }

  ghost predicate Backed(s: System, d: string) {
    d in s.routes ==> Lists(s, s.routes[d], d)
  }

  /** A reader about to write the index has written its own table. */
  predicate Prepared(l: Conn) { l.reader.Indexing? ==> l.reader.dep in l.gwRoutes }

  ghost predicate Inv(s: System) {
    (forall c :: c in s.conns ==> Prepared(s.conns[c])) && forall d :: Backed(s, d)
  }

  lemma StepPrepared(l: Conn, m: Move)
    requires Prepared(l) && Link.Enabled(l, m)
    ensures Prepared(Link.Next(l, m))
  {}

  /** What a move leaves of a connection's own list, and what it does to the index. */
  lemma MoveLists(l: Conn, m: Move, d: string)
    requires Link.Enabled(l, m) && !l.reader.Closed? && d in l.gwRoutes
    ensures var n := Link.Next(l, m);
            (!n.reader.Closed? && d in n.gwRoutes) || (Link.EffectOf(l, m).Drop? && d in Link.EffectOf(l, m).deps)
  {
    if !WritesRoutes(m) {
      OthersLeaveRoutes(l, m);
    }
  }

  predicate WritesRoutes(m: Move) { m.WriteRoute? || m.WriteIndex? || m.DropRoute? || m.Disconnect? }

  /** Only these moves touch a connection's list or the index, or end the service. */
  lemma OthersLeaveRoutes(l: Conn, m: Move)
    requires Link.Enabled(l, m) && !WritesRoutes(m)
    ensures Link.Next(l, m).gwRoutes == l.gwRoutes
    ensures Link.EffectOf(l, m) == Link.Nothing
    ensures Link.Next(l, m).reader.Closed? <==> l.reader.Closed?
    ensures l.reader.Indexing? || Link.Next(l, m).reader.Indexing? ==> Link.Next(l, m).reader == l.reader
  {
    OthersLeaveList(l, m);
    OthersLeaveReader(l, m);
  }

  lemma OthersLeaveList(l: Conn, m: Move)
    requires Link.Enabled(l, m) && !WritesRoutes(m)
    ensures Link.Next(l, m).gwRoutes == l.gwRoutes
  {
    if m.Deliver? {
      Replay.DeliverLeaves(l);
    } else if Replay.ReaderMoves(m) {
      Replay.CarryStep(l, m);
    } else if m.Answer? || Link.OnOps(m) {
      ProviderLeavesList(l, m);
    } else {
      Replay.OtherStep(l, m);
    }
  }

  lemma ProviderLeavesList(l: Conn, m: Move)
    requires Link.Enabled(l, m) && (m.Answer? || Link.OnOps(m))
    ensures Link.Next(l, m).gwRoutes == l.gwRoutes
  {}

  lemma OthersLeaveReader(l: Conn, m: Move)
    requires Link.Enabled(l, m) && !WritesRoutes(m)
    ensures Link.Next(l, m).reader.Closed? <==> l.reader.Closed?
    ensures l.reader.Indexing? || Link.Next(l, m).reader.Indexing? ==> Link.Next(l, m).reader == l.reader
  {}

  lemma IndexingStays(l: Conn, m: Move)
    requires Link.Enabled(l, m) && Link.EffectOf(l, m).Route?
    ensures l.reader == Link.Indexing(Link.EffectOf(l, m).dep)
    ensures Link.Next(l, m).gwRoutes == l.gwRoutes && !Link.Next(l, m).reader.Closed?
  {}

  lemma StepBacked(s: System, e: Event, d: string)
    requires Backed(s, d) && Enabled(s, e) && (e.At? ==> Prepared(s.conns[e.conn]))
    ensures Backed(Next(s, e), d)
  {
    if e.At? && d in Next(s, e).routes {
      var l, m := s.conns[e.conn], e.move;
      var x := Link.EffectOf(l, m);
      if x == Link.Route(d) {
        IndexingStays(l, m);
      } else if s.routes[d] == e.conn {
        MoveLists(l, m, d);
      }
    }
  }

  lemma StepInv(s: System, e: Event)
    requires Inv(s) && Enabled(s, e)
    ensures Inv(Next(s, e))
  {
    if e.At? {
      StepPrepared(s.conns[e.conn], e.move);
    }
    forall d
      ensures Backed(Next(s, e), d)
    {
      assert Backed(s, d);
      StepBacked(s, e, d);
    }
  }

  lemma Invariant(env: (System, Event) -> bool, es: seq<Event>, t: System)
    requires Runs(Serving(env), EMPTY, es, t)
    ensures Inv(t)
  {
    forall s, e | Inv(s) && Enabled(s, e)
      ensures Inv(Next(s, e))
    {
      StepInv(s, e);
    }
    Induction(Serving(env), Inv, EMPTY, es, t);
  }

  /**
   No dangling routes, over any number of connections, re-registration and foreign unregistration included: a
   route leads to a connection that is still served and lists the deployment itself.
   */
  lemma NoDanglingRoutes(es: seq<Event>, t: System, d: string)
    requires Runs(Serving(Anything), EMPTY, es, t)
    ensures GetTunnel(t, d).Some? ==> Lists(t, GetTunnel(t, d).value, d)
  {
    Invariant(Anything, es, t);
    assert Backed(t, d);
  }

  // ---------- each deployment on one connection at a time ----------

  /**
   Connection `l` is served and has to do with `d`: it lists it, or a call, an undelivered message or the reader is
   about to register or unregister it.
   */
  ghost predicate Concerned(l: Conn, d: string) {
    && !l.reader.Closed?
    && (|| (exists o :: o in l.ops && Replay.Concerns(l.ops[o].msg, d))
        || (exists m :: m in l.up && Replay.Concerns(m, d))
        || (l.reader.Holding? && Replay.Concerns(l.reader.msg, d))
        || (l.reader.Indexing? && l.reader.dep == d)
        || d in l.gwRoutes)
  }

  /**
   The assumption: a provider begins to register or unregister a deployment only when no other connection has to do
   with it any more. So a deployment may pass from one connection to another.
   */
  ghost predicate Exclusive(s: System, e: Event) {
    e.At? && e.move.OpBegin? && !e.move.msg.Response? ==>
      forall b :: b in s.conns && b != e.conn ==> !Concerned(s.conns[b], e.move.msg.dep)
  }

  lemma StepCalls(l: Conn, m: Move, d: string, o: nat)
    requires Link.Enabled(l, m) && o in Link.Next(l, m).ops && Replay.Concerns(Link.Next(l, m).ops[o].msg, d)
    ensures (o in l.ops && Replay.Concerns(l.ops[o].msg, d)) || (m.OpBegin? && Replay.Concerns(m.msg, d))
  {
    if !Link.OnOps(m) {
      Link.OthersLeaveOps(l, m);
    }
  }

  lemma StepMessages(l: Conn, m: Move, d: string, x: Link.UpMsg)
    requires Link.Enabled(l, m) && x in Link.Next(l, m).up && Replay.Concerns(x, d)
    ensures x in l.up || (exists o :: o in l.ops && Replay.Concerns(l.ops[o].msg, d))
  {
    if m.OpSend? {
      assert x in l.up || x == l.ops[m.op].msg;
    } else {
      OthersSendNothing(l, m, x, d);
    }
  }

  lemma OthersSendNothing(l: Conn, m: Move, x: Link.UpMsg, d: string)
    requires Link.Enabled(l, m) && !m.OpSend? && x in Link.Next(l, m).up && Replay.Concerns(x, d)
    ensures x in l.up
  {}

  lemma StepRoutes(l: Conn, m: Move, d: string)
    requires Link.Enabled(l, m) && d in Link.Next(l, m).gwRoutes
    ensures (l.reader.Holding? && Replay.Concerns(l.reader.msg, d)) || d in l.gwRoutes
  {
    if !WritesRoutes(m) {
      OthersLeaveRoutes(l, m);
    }
  }

  lemma StepReader(l: Conn, m: Move, d: string)
    requires Link.Enabled(l, m)
    requires var n := Link.Next(l, m);
             (n.reader.Holding? && Replay.Concerns(n.reader.msg, d)) || (n.reader.Indexing? && n.reader.dep == d)
    ensures || (exists x :: x in l.up && Replay.Concerns(x, d))
            || (l.reader.Holding? && Replay.Concerns(l.reader.msg, d))
            || (l.reader.Indexing? && l.reader.dep == d)
  {}

  /** A connection comes to have to do with a deployment only by a call that begins. */
  lemma StepConcerned(l: Conn, m: Move, d: string)
    requires Link.Enabled(l, m) && Concerned(Link.Next(l, m), d)
    ensures Concerned(l, d) || (m.OpBegin? && Replay.Concerns(m.msg, d))
  {
    var n := Link.Next(l, m);
    if l.reader.Closed? {
      Replay.StaysClosed(l, m);
    } else if o :| o in n.ops && Replay.Concerns(n.ops[o].msg, d) {
      StepCalls(l, m, d, o);
    } else if x :| x in n.up && Replay.Concerns(x, d) {
      StepMessages(l, m, d, x);
    } else if d in n.gwRoutes {
      StepRoutes(l, m, d);
    } else {
      StepReader(l, m, d);
    }
  }

  /** What a move does to the index concerns its own connection. */
  lemma EffectConcerned(l: Conn, m: Move)
    requires Link.Enabled(l, m)
    ensures match Link.EffectOf(l, m)
            case Nothing => true
            case Route(d) => Concerned(l, d)
            case Drop(ds) => forall d :: d in ds ==> Concerned(l, d)
  {}

  /** At most one connection has to do with `d`. */
  ghost predicate Alone(s: System, d: string) {
    forall b, c :: b in s.conns && c in s.conns && Concerned(s.conns[b], d) && Concerned(s.conns[c], d) ==> b == c
  }

  lemma StepAlone(s: System, e: Event, d: string)
    requires Alone(s, d) && Enabled(s, e) && Exclusive(s, e)
    ensures Alone(Next(s, e), d)
  {
    if e.At? && Concerned(Next(s, e).conns[e.conn], d) {
      StepConcerned(s.conns[e.conn], e.move, d);
    }
  }

  /** What `c` lists is in the index, unless its reader is just about to write it there. */
  ghost predicate Indexed(s: System, c: nat, d: string) {
    Lists(s, c, d) && s.conns[c].reader != Link.Indexing(d) ==> d in s.routes && s.routes[d] == c
  }

  ghost predicate AloneInv(s: System) {
    && Inv(s)
    && (forall d :: Alone(s, d))
    && (forall c, d :: Indexed(s, c, d))
  }

  /**
   When a move of connection `c` leaves it listing `d` with the index write done, it did so before, or has just
   written it.
   */
  lemma MoveIndexed(l: Conn, m: Move, d: string)
    requires Link.Enabled(l, m)
    ensures var n := Link.Next(l, m);
            !n.reader.Closed? && d in n.gwRoutes && n.reader != Link.Indexing(d) ==>
              || Link.EffectOf(l, m) == Link.Route(d)
              || (!l.reader.Closed? && d in l.gwRoutes && l.reader != Link.Indexing(d) &&
                  !(Link.EffectOf(l, m).Drop? && d in Link.EffectOf(l, m).deps))
  {
    if !WritesRoutes(m) {
      OthersLeaveRoutes(l, m);
    }
  }

  lemma StepIndexed(s: System, e: Event, c: nat, d: string)
    requires AloneInv(s) && Enabled(s, e)
    ensures Indexed(Next(s, e), c, d)
  {
    assert Indexed(s, c, d);
    if e.At? {
      EffectConcerned(s.conns[e.conn], e.move);
      if e.conn == c {
        MoveIndexed(s.conns[c], e.move, d);
      } else if Lists(s, c, d) {
        assert Alone(s, d) && Concerned(s.conns[c], d);
      }
    }
  }

  lemma StepKeeps(s: System, e: Event)
    requires AloneInv(s) && Enabled(s, e) && Exclusive(s, e)
    ensures AloneInv(Next(s, e))
  {
    StepInv(s, e);
    forall d
      ensures Alone(Next(s, e), d)
    {
      assert Alone(s, d);
      StepAlone(s, e, d);
    }
    forall c, d
      ensures Indexed(Next(s, e), c, d)
    {
      StepIndexed(s, e, c, d);
    }
  }

  lemma AloneInvariant(env: (System, Event) -> bool, es: seq<Event>, t: System)
    requires forall s, e :: env(s, e) ==> Exclusive(s, e)
    requires Runs(Serving(env), EMPTY, es, t)
    ensures AloneInv(t)
  {
    forall s, e | AloneInv(s) && Serving(env).may(s, e)
      ensures AloneInv(Serving(env).next(s, e))
    {
      assert Exclusive(s, e);
      StepKeeps(s, e);
    }
    Induction(Serving(env), AloneInv, EMPTY, es, t);
  }

  /**
   If each deployment is used on one connection at a time, the index is exactly the union of what the served
   connections list, at every deployment that its connection's reader is not just writing there; being a map, it shows
   that union to be disjoint.
   */
  lemma IndexIsUnion(env: (System, Event) -> bool, es: seq<Event>, t: System, c: nat, d: string)
    requires forall s, e :: env(s, e) ==> Exclusive(s, e)
    requires Runs(Serving(env), EMPTY, es, t)
    requires c in t.conns ==> t.conns[c].reader != Link.Indexing(d)
    ensures GetTunnel(t, d) == Some(c) <==> Lists(t, c, d)
  {
    AloneInvariant(env, es, t);
    assert Indexed(t, c, d) && Backed(t, d);
  }

  // ---------- one connection for good ----------

  /** Deployments that stay with one connection: a provider registers and unregisters only its own. */
  predicate OwnOnly(owner: string -> nat, s: System, e: Event) {
    e.At? && e.move.OpBegin? && !e.move.msg.Response? ==> owner(e.move.msg.dep) == e.conn
  }

  ghost predicate Own(owner: string -> nat, s: System) {
    forall c, d :: c in s.conns && Concerned(s.conns[c], d) ==> owner(d) == c
  }

  lemma StepOwn(owner: string -> nat, s: System, e: Event)
    requires Own(owner, s) && Enabled(s, e) && OwnOnly(owner, s, e)
    ensures Own(owner, Next(s, e))
  {
    forall c, d | c in Next(s, e).conns && Concerned(Next(s, e).conns[c], d)
      ensures owner(d) == c
    {
      if e.At? && e.conn == c {
        StepConcerned(s.conns[c], e.move, d);
      }
    }
  }

  /** This is a special case: every such run is one in which deployments are used on one connection at a time. */
  lemma {:induction false} OwnersAreExclusive(owner: string -> nat, s: System, es: seq<Event>, t: System)
    requires Own(owner, s) && Runs(Serving((s, e) => OwnOnly(owner, s, e)), s, es, t)
    ensures Runs(Serving(Exclusive), s, es, t)
    decreases |es|
  {
    if es != [] {
      assert OwnOnly(owner, s, es[0]) && Exclusive(s, es[0]);
      StepOwn(owner, s, es[0]);
      OwnersAreExclusive(owner, Next(s, es[0]), es[1..], t);
    }
  }

  // ---------- from host name to provider ----------

  /** The connection that a request for this host is put on. */
  function RouteHost(s: System, host: string, baseDomain: string): Option<nat> {
    var id := GatewaySubdomain(host, baseDomain);
    if id == "" then None else GetTunnel(s, id)
  }

  /** A deployment that has a host name, as `HostRoundTrip` says. */
  predicate Nameable(id: string, baseDomain: string) {
    id != "" && id != "www" && ':' !in id && ':' !in baseDomain
  }

  /**
   Host routing. Each deployment is used on one connection at a time. Then, whatever else is in transit anywhere, a
   request for the host of a deployment, on any port, is put on connection `c` exactly when `c` is served and lists the
   deployment, except for the moment between the two writes of that very registration.
   */
  lemma HostReachesConnection(env: (System, Event) -> bool, es: seq<Event>, t: System,
                              c: nat, id: string, baseDomain: string, port: string)
    requires forall s, e :: env(s, e) ==> Exclusive(s, e)
    requires Runs(Serving(env), EMPTY, es, t)
    requires c in t.conns ==> t.conns[c].reader != Link.Indexing(id)
    requires Nameable(id, baseDomain)
    ensures RouteHost(t, Host(id, baseDomain, port), baseDomain) == Some(c) <==> Lists(t, c, id)
  {
    HostRoundTrip(id, baseDomain, port);
    IndexIsUnion(env, es, t, c, id);
  }

  /** A move that takes `d` off the list of connection `c`: an unregistration acted on, or the clean-up. */
  predicate Removes(s: System, e: Event, c: nat, d: string) {
    && e.At? && e.conn == c && Enabled(s, e)
    && Link.EffectOf(s.conns[c], e.move).Drop? && d in Link.EffectOf(s.conns[c], e.move).deps
  }

  lemma StaysIndexed(s: System, e: Event, c: nat, d: string)
    requires AloneInv(s) && d in s.routes && s.routes[d] == c && Enabled(s, e) && !Removes(s, e, c, d)
    ensures d in Next(s, e).routes && Next(s, e).routes[d] == c
  {
    assert Backed(s, d) && Alone(s, d);
    if e.At? {
      EffectConcerned(s.conns[e.conn], e.move);
      assert Concerned(s.conns[c], d);
    }
  }

  /**
   After registration and before removal. Once the reader of `c` has written a deployment's route, every request for
   its host, on any port, is put on `c`, whatever all connections do, until `c` removes the deployment itself.
   */
  lemma RoutedUntilRemoved(env: (System, Event) -> bool, before: seq<Event>, s: System,
                           c: nat, id: string, keep: (System, Event) -> bool, after: seq<Event>, t: System,
                           baseDomain: string, port: string)
    requires forall s, e :: env(s, e) ==> Exclusive(s, e)
    requires Runs(Serving(env), EMPTY, before, s) && c in s.conns && s.conns[c].reader == Link.Indexing(id)
    requires forall s, e :: keep(s, e) ==> env(s, e) && !Removes(s, e, c, id)
    requires Runs(Serving(keep), Next(s, At(c, Link.WriteIndex)), after, t)
    requires Nameable(id, baseDomain)
    ensures RouteHost(t, Host(id, baseDomain, port), baseDomain) == Some(c)
  {
    var u := Next(s, At(c, Link.WriteIndex));
    AloneInvariant(env, before, s);
    StepKeeps(s, At(c, Link.WriteIndex));
    var mach := Serving(keep);
    var inv := s => AloneInv(s) && id in s.routes && s.routes[id] == c;
    forall s, e | inv(s) && mach.may(s, e)
      ensures inv(mach.next(s, e))
    {
      assert keep(s, e) && env(s, e) && Exclusive(s, e) && !Removes(s, e, c, id);
      StepKeeps(s, e);
      StaysIndexed(s, e, c, id);
    }
    Induction(mach, inv, u, after, t);
    HostRoundTrip(id, baseDomain, port);
  }

  ghost predicate WellBehaved(s: System, e: Event) { Exclusive(s, e) && OnLink(Replay.NoConflict, s, e) }

  /** Nothing on its way to the gateway concerns `d`, and no call of the provider is between send and update for it. */
  ghost predicate Settled(l: Conn, d: string) {
    && (forall m :: m in Replay.Undelivered(l) ==> !Replay.Concerns(m, d))
    && (forall o :: !Replay.BetweenSendAndUpdate(l, o, d))
  }

  /**
   From the host name to the provider. If moreover a provider's calls for one deployment overlap only when they make
   the same of its route, then on a served connection where this deployment is settled a request for its host, on any
   port, goes to `c` exactly when the provider behind `c` has a route for it. Other deployments and responses may be in
   transit.
   */
  lemma HostReachesProvider(env: (System, Event) -> bool, es: seq<Event>, t: System,
                            c: nat, id: string, baseDomain: string, port: string)
    requires forall s, e :: env(s, e) ==> WellBehaved(s, e)
    requires Runs(Serving(env), EMPTY, es, t)
    requires c in t.conns && !t.conns[c].reader.Closed? && t.conns[c].reader != Link.Indexing(id)
    requires Settled(t.conns[c], id) && Nameable(id, baseDomain)
    ensures RouteHost(t, Host(id, baseDomain, port), baseDomain) == Some(c) <==> id in t.conns[c].clientRoutes
  {
    forall s, e | env(s, e)
      ensures Exclusive(s, e) && OnLink(Replay.NoConflict, s, e)
    {
      assert WellBehaved(s, e);
    }
    HostReachesConnection(env, es, t, c, id, baseDomain, port);
    ConnectionsRunAlone(env, Replay.NoConflict, es, t);
    var l := t.conns[c];
    var ms :| Runs(Link.Linking(Replay.NoConflict), Link.FRESH, ms, l);
    Replay.ReplayGivesClientRoutes(ms, l, id);
    Replay.ReplayOthers(l.gwRoutes, Replay.Undelivered(l), id);
  }

  // ---------- the hypothesis on deployments is needed ----------

  ghost predicate Reached(es: seq<Event>, s: System) { Runs(Serving(Anything), EMPTY, es, s) }

  lemma Do(es: seq<Event>, s: System, e: Event) returns (es': seq<Event>, t: System)
    requires Reached(es, s) && Enabled(s, e)
    ensures Reached(es', t) && t == Next(s, e)
  {
    assert Anything(s, e);
    Extend(Serving(Anything), EMPTY, es, s, e);
    es', t := es + [e], Next(s, e);
  }

  /** A fresh connection registers one deployment and has it indexed. */
  lemma RegisterOn(es: seq<Event>, s: System, c: nat, d: string, p: int) returns (es': seq<Event>, t: System)
    requires Reached(es, s) && c in s.conns && s.conns[c] == Link.FRESH
    ensures Reached(es', t) && OnlyChanges(s, t, c) && t.routes == s.routes[d := c]
    ensures t.conns[c].reader == Link.Idle && t.conns[c].gwRoutes == map[d := p]
  {
    es', t := SendOn(es, s, c, d, p);
    es', t := ReadOn(es', t, c, d, p);
    es', t := IndexOn(es', t, c, d);
  }

  lemma IndexOn(es: seq<Event>, s: System, c: nat, d: string) returns (es': seq<Event>, t: System)
    requires Reached(es, s) && c in s.conns && s.conns[c].reader == Link.Indexing(d)
    ensures Reached(es', t) && OnlyChanges(s, t, c) && t.routes == s.routes[d := c]
    ensures t.conns[c].reader == Link.Idle && t.conns[c].gwRoutes == s.conns[c].gwRoutes
  {
    es', t := Do(es, s, At(c, Link.WriteIndex));
    es', t := Do(es', t, At(c, Link.Confirm(true)));
  }

  ghost predicate OnlyChanges(s: System, t: System, c: nat) {
    && c in s.conns && t.conns.Keys == s.conns.Keys
    && (forall b :: b in s.conns && b != c ==> t.conns[b] == s.conns[b])
  }

  lemma ReadOn(es: seq<Event>, s: System, c: nat, d: string, p: int) returns (es': seq<Event>, t: System)
    requires Reached(es, s) && c in s.conns && s.conns[c].up == [Link.Register(d, p)]
    requires s.conns[c].reader == Link.Idle && s.conns[c].gwRoutes == map[]
    ensures Reached(es', t) && OnlyChanges(s, t, c) && t.routes == s.routes
    ensures t.conns[c].reader == Link.Indexing(d) && t.conns[c].gwRoutes == map[d := p]
  {
    es', t := Do(es, s, At(c, Link.Read));
    es', t := Do(es', t, At(c, Link.WriteRoute));
  }

  lemma SendOn(es: seq<Event>, s: System, c: nat, d: string, p: int) returns (es': seq<Event>, t: System)
    requires Reached(es, s) && c in s.conns && s.conns[c] == Link.FRESH
    ensures Reached(es', t) && OnlyChanges(s, t, c) && t.routes == s.routes
    ensures t.conns[c] == Link.FRESH.(up := [Link.Register(d, p)], ops := t.conns[c].ops)
  {
    es', t := Do(es, s, At(c, Link.OpBegin(0, Link.Register(d, p))));
    es', t := Do(es', t, At(c, Link.OpSend(0, true)));
  }

  lemma AcceptTwo() returns (es: seq<Event>, t: System)
    ensures Reached(es, t) && t == System(map[], map[0 := Link.FRESH, 1 := Link.FRESH])
  {
    es, t := Do([], EMPTY, Accept(0));
    es, t := Do(es, t, Accept(1));
  }

  lemma BothRegister(d: string, p: int, q: int) returns (es: seq<Event>, t: System)
    ensures Reached(es, t) && t.conns.Keys == {0, 1}
    ensures t.conns[0].reader == t.conns[1].reader == Link.Idle
    ensures t.conns[0].gwRoutes == map[d := p] && t.conns[1].gwRoutes == map[d := q]
  {
    es, t := AcceptTwo();
    es, t := RegisterOn(es, t, 0, d, p);
    es, t := RegisterOn(es, t, 1, d, q);
  }

  /**
   The hypothesis is needed. Two connections register the same deployment, and the first goes away. Its clean-up takes
   the route of the second with it: the second is still served and lists the deployment, but requests for it find no
   tunnel.
   */
  lemma SharedDeploymentLosesRoute(d: string, p: int, q: int) returns (es: seq<Event>, t: System)
    ensures Runs(Serving(Anything), EMPTY, es, t) && forall c :: c in t.conns ==> !t.conns[c].reader.Indexing?
    ensures Lists(t, 1, d) && GetTunnel(t, d) == None
  {
    es, t := BothRegister(d, p, q);
    es, t := Do(es, t, At(0, Link.Disconnect));
  }
}
