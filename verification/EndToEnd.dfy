/** From the host name of a request to the port of the container that answers it. */
module EndToEnd {
  import opened HostRouting
  import opened Machines
  import opened Options
  import opened TunnelSystem
  import Crosstalk
  import Index = RouteIndex
  import Link = TunnelLink
  import Requests = RequestIds

  /** On every connection request IDs are used again only when it is safe. */
  predicate SafeIds(s: System, e: Event) { OnLink(Requests.SafeReuse, s, e) }

  /** A connection stays a connection, and its calls, like the looks its handlers took, stay on record. */
  lemma {:induction false} ConnectionStays(env: (System, Event) -> bool, s: System, es: seq<Event>, t: System, c: nat)
    requires Runs(Serving(env), s, es, t) && c in s.conns
    ensures c in t.conns && Crosstalk.Grows(s.conns[c], t.conns[c])
    decreases |es|
  {
    if es != [] {
      if es[0].At? {
        Crosstalk.StepGrows(s.conns[es[0].conn], es[0].move);
      }
      ConnectionStays(env, Next(s, es[0]), es[1..], t, c);
    }
  }

  /** `u` is a state of the run in which a handler of connection `c` takes the look `b`. */
  ghost predicate LooksAt(env: (System, Event) -> bool, s: System, es: seq<Event>, i: nat, u: System,
                          c: nat, b: Link.Lookup)
  {
    && i < |es| && Runs(Serving(env), s, es[..i], u)
    && es[i].At? && es[i].conn == c && es[i].move.Look? && Enabled(u, es[i])
    && b.routes == u.conns[c].clientRoutes
  }

  /** A look on record was taken in the run, and shows the routes the provider had at that moment. */
  lemma {:induction false} LooksAreTrue(env: (System, Event) -> bool, s: System, es: seq<Event>, t: System,
                                        c: nat, b: Link.Lookup)
    returns (i: nat, u: System)
    requires Runs(Serving(env), s, es, t) && c in s.conns && c in t.conns
    requires b in t.conns[c].lookups && b !in s.conns[c].lookups
    ensures LooksAt(env, s, es, i, u, c, b)
    decreases |es|
  {
    var n := Next(s, es[0]);
    if b in n.conns[c].lookups {
      i, u := 0, s;
      NewLook(s, es[0], c, b);
    } else {
      i, u := LooksAreTrue(env, n, es[1..], t, c, b);
      assert es[..i + 1][1..] == es[1..][..i];
      i := i + 1;
    }
  }

  lemma NewLook(s: System, e: Event, c: nat, b: Link.Lookup)
    requires Enabled(s, e) && c in s.conns
    requires b in Next(s, e).conns[c].lookups && b !in s.conns[c].lookups
    ensures e.At? && e.conn == c && e.move.Look? && b.routes == s.conns[c].clientRoutes
  {
    assert e.At? && e.conn == c;
    Crosstalk.LookIsNew(s.conns[c], e.move, b);
  }

  /** A call that has not begun has had no look taken for it. */
  lemma NoLookBefore(env: (System, Event) -> bool, es: seq<Event>, s: System, c: nat, k: nat)
    requires forall s, e :: env(s, e) ==> SafeIds(s, e)
    requires Runs(Serving(env), EMPTY, es, s) && c in s.conns && k !in s.conns[c].calls
    ensures forall b :: b in s.conns[c].lookups ==> b.origin != k
  {
    ConnectionsRunAlone(env, Requests.SafeReuse, es, s);
    var ms :| Runs(Link.Linking(Requests.SafeReuse), Link.FRESH, ms, s.conns[c]);
    Crosstalk.Invariant(Requests.SafeReuse, ms, s.conns[c]);
    forall b | b in s.conns[c].lookups
      ensures b.origin != k
    {
      assert Crosstalk.LookFits(s.conns[c], b);
    }
  }

  /** The response a call returns was produced after a look that was taken for this very call. */
  lemma AnswerHasLook(env: (System, Event) -> bool, es: seq<Event>, t: System, c: nat, k: nat, m: Link.UpMsg)
    returns (b: Link.Lookup)
    requires forall s, e :: env(s, e) ==> SafeIds(s, e)
    requires Runs(Serving(env), EMPTY, es, t) && c in t.conns
    requires k in t.conns[c].calls && t.conns[c].calls[k].wait == Link.Returned(Some(m))
    ensures m.Response? && b in t.conns[c].lookups && b.origin == k && b.dep == t.conns[c].calls[k].dep
    ensures m.reply == Link.NotFound <==> b.dep !in b.routes
    ensures m.reply.FromContainer? ==> b.dep in b.routes && m.reply.port == b.routes[b.dep]
  {
    ConnectionsRunAlone(env, Requests.SafeReuse, es, t);
    var ms :| Runs(Link.Linking(Requests.SafeReuse), Link.FRESH, ms, t.conns[c]);
    Requests.NoCrosstalkOnReuse(ms, t.conns[c], k, m);
    b :| && b in t.conns[c].lookups && b.origin == k && b.dep == t.conns[c].calls[k].dep
         && (m.reply == Link.NotFound <==> b.dep !in b.routes)
         && (m.reply.FromContainer? ==> b.dep in b.routes && m.reply.port == b.routes[b.dep]);
  }

  /**
   From the host name to the container, over any number of connections. The gateway finds connection `c` for the host of
   a request; some time later a call for the host's deployment begins there, and some time later still it returns a
   response. Then `c` was served and listed the deployment when it was found. And there was a moment after the call
   began in which a handler of the provider behind `c` looked for the deployment: if the provider had no route then, the
   response is 404; otherwise it is 500, 502, or what the container at the port of that route said.
   */
  lemma HostIsAnswered(env: (System, Event) -> bool, found: seq<Event>, s: System, host: string, baseDomain: string,
                       c: nat, between: seq<Event>, u: System, k: nat, r: string, after: seq<Event>, t: System,
                       m: Link.UpMsg)
    returns (i: nat, v: System)
    requires forall s, e :: env(s, e) ==> SafeIds(s, e)
    requires Runs(Serving(env), EMPTY, found, s) && Index.RouteHost(s, host, baseDomain) == Some(c)
    requires Runs(Serving(env), s, between, u)
    requires var begin := At(c, Link.Begin(k, r, GatewaySubdomain(host, baseDomain)));
             Enabled(u, begin) && env(u, begin) && Runs(Serving(env), Next(u, begin), after, t)
    requires c in t.conns && k in t.conns[c].calls && t.conns[c].calls[k].wait == Link.Returned(Some(m))
    ensures Index.Lists(s, c, GatewaySubdomain(host, baseDomain))
    ensures i < |after| && after[i].At? && after[i].conn == c && after[i].move.Look? && Enabled(v, after[i])
    ensures Runs(Serving(env), Next(u, At(c, Link.Begin(k, r, GatewaySubdomain(host, baseDomain)))), after[..i], v)
    ensures m.Response?
    ensures m.reply == Link.NotFound <==> GatewaySubdomain(host, baseDomain) !in v.conns[c].clientRoutes
    ensures m.reply.FromContainer? ==>
              && GatewaySubdomain(host, baseDomain) in v.conns[c].clientRoutes
              && m.reply.port == v.conns[c].clientRoutes[GatewaySubdomain(host, baseDomain)]
  {
    var id := GatewaySubdomain(host, baseDomain);
    var begin := At(c, Link.Begin(k, r, id));
    Index.Invariant(env, found, s);
    assert Index.Backed(s, id);
    RunsAppend(Serving(env), EMPTY, found, s, between, u);
    NoLookBefore(env, found + between, u, c, k);
    Extend(Serving(env), EMPTY, found + between, u, begin);
    var n := Next(u, begin);
    RunsAppend(Serving(env), EMPTY, found + between + [begin], n, after, t);
    ConnectionStays(env, n, after, t, c);
    var b := AnswerHasLook(env, found + between + [begin] + after, t, c, k, m);
    i, v := LooksAreTrue(env, n, after, t, c, b);
  }
}
