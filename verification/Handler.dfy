/** The calls of internal/tunnel/client.go that change the provider's routes, each run to completion. */
module TunnelClient {
  import opened TunnelLink

  class Client {
    var connected: bool
    var routes: map<string, int>
    var written: seq<UpMsg>          // what has gone out on the link

    constructor (connected: bool)
      ensures this.connected == connected && routes == map[] && written == []
    {
      this.connected, routes, written := connected, map[], [];
    }

    /** `send`: `ok` is whether the connection takes the message. */
    method Send(m: UpMsg, ok: bool)
      modifies `written
      ensures written == if ok then old(written) + [m] else old(written)
    {
      if ok {
        written := written + [m];
      }
    }

    method RegisterDeployment(id: string, port: int, sendOk: bool) returns (ok: bool)
      modifies `routes, `written
      ensures ok == (connected && sendOk)
      ensures routes == if ok then Apply(old(routes), Register(id, port)) else old(routes)
      ensures written == if ok then old(written) + [Register(id, port)] else old(written)
    {
      if !connected {
        return false;
      }
      Send(Register(id, port), sendOk);
      if !sendOk {
        return false;
      }
      routes := routes[id := port];
      return true;
    }

    /** Unlike registration, it does not look at `connected` first. */
    method UnregisterDeployment(id: string, sendOk: bool) returns (ok: bool)
      modifies `routes, `written
      ensures ok == sendOk
      ensures routes == if ok then Apply(old(routes), Unregister(id)) else old(routes)
      ensures written == if ok then old(written) + [Unregister(id)] else old(written)
    {
      Send(Unregister(id), sendOk);
      if !sendOk {
        return false;
      }
      routes := routes - {id};
      return true;
    }
  }
}

/**
 internal/handler/handler.go: deploy and stop requests as transactions over scheduler, trust list and tunnel
 client.
 */
module RequestHandler {
  import opened Protocol
  import opened Accounting
  import opened Machines
  import opened TunnelClient
  import Calls = SequentialCalls
  import Link = TunnelLink
  import Scheduling = ProviderScheduler
  import Trust = TrustStore

  datatype Tunnel = NoTunnel | Tunnel(connected: bool, routes: map<string, int>)

  /** What the handlers work on, as a value. */
  datatype Provider = Provider(books: Books, trusted: map<string, Trust.TrustedPeer>, tunnel: Tunnel)

  /** What the world answers during one deploy request; `id` is what the clock yields. */
  datatype World = World(id: string, firstPullOk: bool, pullOk: bool, run: Calls.RunAnswer, sendOk: bool)

  datatype Reply =
    | NotTrusted
    | PullFailed
    | NotScheduled(why: Calls.Outcome)
    | Panicked                      // the container ID is shorter than the 12 characters that are logged
    | Deployed(id: string, containerId: string, exposed: bool)

  function AsPeer(req: DeployRequest, peer: string): DeployRequest { req.(requesterId := peer, timestamp := 0) }

  function RegisterRoute(t: Tunnel, id: string, port: int, sendOk: bool): Tunnel {
    if t.Tunnel? && t.connected && sendOk then t.(routes := Link.Apply(t.routes, Link.Register(id, port))) else t
  }

  function UnregisterRoute(t: Tunnel, id: string, sendOk: bool): Tunnel {
    if t.Tunnel? && t.connected && sendOk then t.(routes := Link.Apply(t.routes, Link.Unregister(id))) else t
  }

  /** `handleDeploy` once `Schedule` has answered: what is left to do, and the reply. */
  function Conclude(p: Provider, outcome: Calls.Outcome, id: string, port: int, sendOk: bool): (Provider, Reply) {
    if !outcome.Scheduled? then (p, NotScheduled(outcome))
    else if |outcome.containerId| < 12 then (p, Panicked)
    else if port > 0 then
      (p.(tunnel := RegisterRoute(p.tunnel, id, port, sendOk)),
       Deployed(id, outcome.containerId, p.tunnel.Tunnel? && p.tunnel.connected && sendOk))
    else (p, Deployed(id, outcome.containerId, false))
  }

  /** `handleDeploy` for a request that could be read, from `peer`. */
  function Deploy(cfg: Config, p: Provider, peer: string, req: DeployRequest, w: World): (Provider, Reply) {
    if peer !in p.trusted then (p, NotTrusted)
    else if !w.firstPullOk then (p, PullFailed)
    else
      var (books, outcome) := Calls.Schedule(cfg, p.books, AsPeer(req, peer), w.id, w.pullOk, w.run);
      Conclude(p.(books := books), outcome, w.id, req.exposePort, w.sendOk)
  }

  /** `handleStop`: the route goes first, whether or not the deployment turns out to exist. */
  function Stop(p: Provider, id: string, sendOk: bool): (Provider, bool) {
    var (books, found) := Calls.Stop(p.books, id);
    (p.(books := books, tunnel := UnregisterRoute(p.tunnel, id, sendOk)), found)
  }

  class Handler {
    const scheduler: Scheduling.Scheduler
    const trust: Trust.TrustManager
    const client: Client?

    constructor (scheduler: Scheduling.Scheduler, trust: Trust.TrustManager, client: Client?)
      ensures this.scheduler == scheduler && this.trust == trust && this.client == client
    {
      this.scheduler, this.trust, this.client := scheduler, trust, client;
    }

    function ToProvider(): Provider
      reads scheduler, scheduler.deployments.Values, trust, if client == null then {} else {client as object}
    {
      Provider(scheduler.ToBooks(), trust.peers,
               if client == null then NoTunnel else Tunnel(client.connected, client.routes))
    }

    /** The end of `handleDeploy`: log, expose the port if there is one, reply. */
    method ConcludeDeploy(outcome: Calls.Outcome, id: string, port: int, sendOk: bool) returns (reply: Reply)
      modifies if client == null then {} else {client as object}
      ensures ToProvider() == Conclude(old(ToProvider()), outcome, id, port, sendOk).0
      ensures reply == Conclude(old(ToProvider()), outcome, id, port, sendOk).1
    {
      if !outcome.Scheduled? {
        return NotScheduled(outcome);
      }
      if |outcome.containerId| < 12 {
        return Panicked;
      }
      var exposed := false;
      if client != null && client.connected && port > 0 {
        exposed := client.RegisterDeployment(id, port, sendOk);
      }
      return Deployed(id, outcome.containerId, exposed);
    }

    /** The call of `Schedule`; the handler keeps nothing of the record it returns but its IDs. */
    method ScheduleFor(req: DeployRequest, w: World) returns (outcome: Calls.Outcome)
      requires scheduler.Valid()
      modifies scheduler, scheduler.deployments.Values
      ensures scheduler.Valid()
      ensures var done := Calls.Schedule(scheduler.cfg, old(ToProvider()).books, req, w.id, w.pullOk, w.run);
              (ToProvider(), outcome) == (old(ToProvider()).(books := done.0), done.1)
    {
      var result;
      result, outcome := scheduler.Schedule(req, w.id, w.pullOk, w.run);
    }

    method HandleDeploy(peer: string, req: DeployRequest, w: World) returns (reply: Reply)
      requires scheduler.Valid()
      modifies scheduler, scheduler.deployments.Values
      modifies if client == null then {} else {client as object}
      ensures scheduler.Valid()
      ensures ToProvider() == Deploy(scheduler.cfg, old(ToProvider()), peer, req, w).0
      ensures reply == Deploy(scheduler.cfg, old(ToProvider()), peer, req, w).1
    {
      var trusted := trust.IsTrusted(peer);
      if !trusted {
        return NotTrusted;
      }
      if !w.firstPullOk {
        return PullFailed;
      }
      var outcome := ScheduleFor(AsPeer(req, peer), w);
      reply := ConcludeDeploy(outcome, w.id, req.exposePort, w.sendOk);
    }

    method HandleStop(id: string, sendOk: bool) returns (found: bool)
      requires scheduler.Valid()
      modifies scheduler, scheduler.deployments.Values
      modifies if client == null then {} else {client as object}
      ensures scheduler.Valid()
      ensures ToProvider() == Stop(old(ToProvider()), id, sendOk).0
      ensures found == Stop(old(ToProvider()), id, sendOk).1
    {
      if client != null && client.connected {
        var _ := client.UnregisterDeployment(id, sendOk);
      }
      found := scheduler.Stop(id);
    }
  }

  // ---------- any run of requests ----------

  datatype Request =
    | DeployRequested(peer: string, req: DeployRequest, world: World)
    | StopRequested(id: string, sendOk: bool)
    | TrustChanged(trusted: map<string, Trust.TrustedPeer>)

  function Perform(cfg: Config, p: Provider, r: Request): Provider {
    match r
    case DeployRequested(peer, req, w) => Deploy(cfg, p, peer, req, w).0
    case StopRequested(id, sendOk) => Stop(p, id, sendOk).0
    case TrustChanged(trusted) => p.(trusted := trusted)
  }

  /** Deployment IDs are fresh. */
  predicate FreshIds(p: Provider, r: Request) { r.DeployRequested? ==> r.world.id !in p.books.deployments }

  /** The tunnel is up and sends succeed. */
  predicate Smooth(p: Provider, r: Request) {
    && FreshIds(p, r)
    && p.tunnel.Tunnel? && p.tunnel.connected
    && (r.DeployRequested? ==> r.world.sendOk)
    && (r.StopRequested? ==> r.sendOk)
  }

  predicate Panics(cfg: Config, p: Provider, r: Request) {
    r.DeployRequested? && Deploy(cfg, p, r.peer, r.req, r.world).1.Panicked?
  }

  /** A panic in a handler ends the daemon, so no run goes beyond it. */
  ghost function Handling(cfg: Config, env: (Provider, Request) -> bool): Machine<Provider, Request> {
    Machine((p, r) => env(p, r) && !Panics(cfg, p, r), (p, r) => Perform(cfg, p, r))
  }

  /**
   Which deploy requests end the daemon: those that are trusted, pulled, admitted, valid and started, in a container
   whose ID docker gives in fewer than 12 characters. It is then running on record, with no route.
   */
  lemma PanicsIff(cfg: Config, p: Provider, peer: string, req: DeployRequest, w: World)
    requires w.id !in p.books.deployments
    ensures Panics(cfg, p, DeployRequested(peer, req, w)) <==>
            && peer in p.trusted && w.firstPullOk && w.pullOk && w.run.Started? && |w.run.containerId| < 12
            && CanSchedule(cfg, p.books, req.cpuMillicores, req.memoryBytes) == Admitted && ValidConfig(w.id, req)
    ensures Panics(cfg, p, DeployRequested(peer, req, w)) ==>
              var q := Deploy(cfg, p, peer, req, w).0;
              && w.id in q.books.deployments && q.books.deployments[w.id].status == Running
              && q.tunnel == p.tunnel
  {
    if Calls.Schedule(cfg, p.books, AsPeer(req, peer), w.id, w.pullOk, w.run).1.Scheduled? {
      Calls.SuccessfulScheduleAdds(cfg, p.books, AsPeer(req, peer), w.id, w.pullOk, w.run);
    }
  }

  /** The routes are those of the deployments that expose a port, and of nothing else. */
  predicate RoutesAreExposures(p: Provider) {
    p.tunnel.Tunnel? ==>
      && (forall id :: id in p.books.deployments && p.books.deployments[id].exposePort > 0 ==> id in p.tunnel.routes)
      && (forall id :: id in p.tunnel.routes ==>
            id in p.books.deployments && p.books.deployments[id].exposePort > 0 &&
              p.tunnel.routes[id] == p.books.deployments[id].exposePort)
  }

  /**
   Every answer to a deploy request and when it is given. It is `Deployed` exactly for a trusted peer whose request can
   be pulled, is admitted, can be run and is started in a container whose ID has 12 characters or more.
   */
  lemma DeployAnswers(cfg: Config, p: Provider, peer: string, req: DeployRequest, w: World)
    ensures var (verdict, reply) := (CanSchedule(cfg, p.books, req.cpuMillicores, req.memoryBytes),
                                     Deploy(cfg, p, peer, req, w).1);
            var valid := w.id != "" && req.image != "" && 0 < req.cpuMillicores && 4194304 <= req.memoryBytes;
            var started := verdict == Admitted && w.pullOk && valid && w.run.Started?;
            && (reply == NotTrusted <==> peer !in p.trusted)
            && (reply == PullFailed <==> peer in p.trusted && !w.firstPullOk)
            && (reply.NotScheduled? <==> peer in p.trusted && w.firstPullOk && !started)
            && (reply.NotScheduled? ==>
                reply.why == if verdict != Admitted then Calls.Rejected(verdict)
                             else if !w.pullOk then Calls.PullFailed else Calls.RunFailed)
            && (reply == Panicked <==> peer in p.trusted && w.firstPullOk && started && |w.run.containerId| < 12)
            && (reply.Deployed? <==> peer in p.trusted && w.firstPullOk && started && |w.run.containerId| >= 12)
  {
    Calls.ScheduleAnswers(cfg, p.books, AsPeer(req, peer), w.id, w.pullOk, w.run);
  }

  /**
   What a successful answer carries, and that it is true: the deployment's ID and the container's, which are on record
   with what the request asked for and the peer as requester; and whether the deployment is exposed, which it is exactly
   if it asks for a port, the tunnel is up and the message goes out, and then its route is there at that port.
   */
  lemma DeployedIsTrue(cfg: Config, p: Provider, peer: string, req: DeployRequest, w: World)
    requires Deploy(cfg, p, peer, req, w).1.Deployed?
    ensures var (q, reply) := Deploy(cfg, p, peer, req, w);
            && reply.id == w.id && w.run == Calls.Started(reply.containerId)
            && w.id in q.books.deployments
            && var d := q.books.deployments[w.id];
            && d.id == w.id && d.image == req.image && d.requesterId == peer
            && d.cpuLimit == req.cpuMillicores && d.memoryLimit == req.memoryBytes && d.exposePort == req.exposePort
            && d.status == Running && d.containerId == reply.containerId
            && q.books.deployments - {w.id} == p.books.deployments - {w.id} && q.trusted == p.trusted
            && (reply.exposed <==> req.exposePort > 0 && p.tunnel.Tunnel? && p.tunnel.connected && w.sendOk)
            && q.tunnel == if reply.exposed then p.tunnel.(routes := p.tunnel.routes[w.id := req.exposePort])
                           else p.tunnel
  {
    Calls.ScheduleAnswers(cfg, p.books, AsPeer(req, peer), w.id, w.pullOk, w.run);
    Calls.ScheduledIsOnRecord(cfg, p.books, AsPeer(req, peer), w.id, w.pullOk, w.run);
  }

  /**
   What a stop request does: it finds exactly what is on record and takes that off; the route goes if the tunnel is up
   and takes the message, found or not; nothing else changes.
   */
  lemma StopAnswers(p: Provider, id: string, sendOk: bool)
    ensures var (q, found) := Stop(p, id, sendOk);
            && (found <==> id in p.books.deployments)
            && q.books.deployments == p.books.deployments - {id} && q.trusted == p.trusted
            && (id !in p.books.deployments ==> q.books == p.books)
            && q.tunnel == if p.tunnel.Tunnel? && p.tunnel.connected && sendOk
                           then p.tunnel.(routes := p.tunnel.routes - {id}) else p.tunnel
  {
    Calls.StopAnswers(p.books, id);
  }

  /** A failed deploy request leaves books and routes as they were. */
  lemma FailedDeployChangesNothing(cfg: Config, p: Provider, peer: string, req: DeployRequest, w: World)
    requires w.id !in p.books.deployments
    ensures var (q, reply) := Deploy(cfg, p, peer, req, w); !reply.Deployed? && !reply.Panicked? ==> q == p
  {
    Calls.FailedScheduleRestores(cfg, p.books, AsPeer(req, peer), w.id, w.pullOk, w.run);
  }

  lemma DeployKeepsRoutes(cfg: Config, p: Provider, peer: string, req: DeployRequest, w: World)
    requires RoutesAreExposures(p) && Smooth(p, DeployRequested(peer, req, w))
    requires !Panics(cfg, p, DeployRequested(peer, req, w))
    ensures RoutesAreExposures(Deploy(cfg, p, peer, req, w).0)
  {
    FailedDeployChangesNothing(cfg, p, peer, req, w);
    if Calls.Schedule(cfg, p.books, AsPeer(req, peer), w.id, w.pullOk, w.run).1.Scheduled? {
      Calls.SuccessfulScheduleAdds(cfg, p.books, AsPeer(req, peer), w.id, w.pullOk, w.run);
    }
  }

  /**
   When a stop request leaves a route behind. Given routes that are right before, they are right after it exactly
   if there was no route for the deployment, or the tunnel was up and took the message.
   */
  lemma StopKeepsRoutesIff(p: Provider, id: string, sendOk: bool)
    requires RoutesAreExposures(p) && p.tunnel.Tunnel?
    ensures RoutesAreExposures(Stop(p, id, sendOk).0) <==> id !in p.tunnel.routes || (p.tunnel.connected && sendOk)
  {
    var q := Stop(p, id, sendOk).0;
    assert q.books.deployments == p.books.deployments - {id};
    if p.tunnel.connected && sendOk {
      assert q.tunnel.routes == p.tunnel.routes - {id};
    } else {
      assert q.tunnel.routes == p.tunnel.routes;
      assert id !in q.books.deployments;
    }
  }

  /**
   Over any run of deploy and stop requests, with peers coming into and going out of trust in between, while the
   tunnel stays up and sends succeed: the provider's routes are exactly those of the registered deployments that
   expose a port.
   */
  lemma RoutesFollowDeployments(cfg: Config, trusted: map<string, Trust.TrustedPeer>, rs: seq<Request>, t: Provider)
    requires Runs(Handling(cfg, Smooth), Provider(EMPTY, trusted, Tunnel(true, map[])), rs, t)
    ensures RoutesAreExposures(t)
  {
    var m := Handling(cfg, Smooth);
    forall p, r | RoutesAreExposures(p) && m.may(p, r)
      ensures RoutesAreExposures(m.next(p, r))
    {
      assert Smooth(p, r);
      match r
      case DeployRequested(peer, req, w) => DeployKeepsRoutes(cfg, p, peer, req, w);
      case StopRequested(id, sendOk) => StopKeepsRoutesIff(p, id, sendOk);
      case TrustChanged(_) =>
    }
    Induction(m, RoutesAreExposures, Provider(EMPTY, trusted, Tunnel(true, map[])), rs, t);
  }

  /**
   A deploy request adds a deployment only under the ID it was given and only for a peer trusted at that moment.
   */
  lemma DeployAddsTrusted(cfg: Config, p: Provider, peer: string, req: DeployRequest, w: World, id: string)
    requires w.id !in p.books.deployments
    requires id !in p.books.deployments && id in Deploy(cfg, p, peer, req, w).0.books.deployments
    ensures id == w.id && peer in p.trusted && Deploy(cfg, p, peer, req, w).0.books.deployments[id].requesterId == peer
  {
    FailedDeployChangesNothing(cfg, p, peer, req, w);
    Calls.SuccessfulScheduleAdds(cfg, p.books, AsPeer(req, peer), w.id, w.pullOk, w.run);
  }

  /** No request changes the requester of a deployment that is on record. */
  lemma RequesterStays(cfg: Config, p: Provider, r: Request, id: string)
    requires FreshIds(p, r) && id in p.books.deployments && id in Perform(cfg, p, r).books.deployments
    ensures Perform(cfg, p, r).books.deployments[id].requesterId == p.books.deployments[id].requesterId
  {
    if r.DeployRequested? {
      FailedDeployChangesNothing(cfg, p, r.peer, r.req, r.world);
      if Calls.Schedule(cfg, p.books, AsPeer(r.req, r.peer), r.world.id, r.world.pullOk, r.world.run).1.Scheduled? {
        Calls.SuccessfulScheduleAdds(cfg, p.books, AsPeer(r.req, r.peer), r.world.id, r.world.pullOk, r.world.run);
      }
    }
  }

  /**
   A deployment on record at the end was there at the start, or was added by a request of the run from a peer
   trusted then.
   */
  lemma {:induction false} Traced(cfg: Config, s: Provider, rs: seq<Request>, t: Provider, id: string)
    returns (added: bool, i: nat, u: Provider)
    requires Runs(Handling(cfg, FreshIds), s, rs, t) && id in t.books.deployments
    ensures !added ==> id in s.books.deployments
    ensures !added ==> s.books.deployments[id].requesterId == t.books.deployments[id].requesterId
    ensures added ==>
              && i < |rs| && Runs(Handling(cfg, FreshIds), s, rs[..i], u)
              && rs[i].DeployRequested? && rs[i].world.id == id && rs[i].peer in u.trusted
              && rs[i].peer == t.books.deployments[id].requesterId
    decreases |rs|
  {
    if rs == [] {
      added, i, u := false, 0, s;
    } else {
      var n := Perform(cfg, s, rs[0]);
      added, i, u := Traced(cfg, n, rs[1..], t, id);
      if added {
        assert rs[..i + 1][1..] == rs[1..][..i];
        i := i + 1;
      } else if id in s.books.deployments {
        RequesterStays(cfg, s, rs[0], id);
      } else {
        assert rs[0].DeployRequested?;
        DeployAddsTrusted(cfg, s, rs[0].peer, rs[0].req, rs[0].world, id);
        added, i, u := true, 0, s;
      }
    }
  }

  /**
   Every deployment on record was asked for by its requester in a deploy request of the run, and that peer was
   trusted in the state in which the request was checked, however the trust list has changed since and whatever
   the tunnel does.
   */
  lemma RequesterWasTrusted(cfg: Config, trusted: map<string, Trust.TrustedPeer>, tunnel: Tunnel,
                            rs: seq<Request>, t: Provider, id: string)
    returns (i: nat, u: Provider)
    requires Runs(Handling(cfg, FreshIds), Provider(EMPTY, trusted, tunnel), rs, t) && id in t.books.deployments
    ensures i < |rs| && Runs(Handling(cfg, FreshIds), Provider(EMPTY, trusted, tunnel), rs[..i], u)
    ensures rs[i].DeployRequested? && rs[i].world.id == id && rs[i].peer in u.trusted
    ensures rs[i].peer == t.books.deployments[id].requesterId
  {
    var added;
    added, i, u := Traced(cfg, Provider(EMPTY, trusted, tunnel), rs, t, id);
  }
}
