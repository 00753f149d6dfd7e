/**
 Deploy and stop handlers that overlap: each stream has a goroutine of its own, so a stop request may come at any
 moment of a deploy request. One event is one region of the scheduler, one read and write of the tunnel client's
 `connected` and link, or one write of its routes.
 */
module HandlerRaces {
  import opened Accounting
  import opened Machines
  import opened Options
  import Steps = SchedulerSteps
  import Safety = SchedulerSafety

  /** Where the deploy handler of a deployment stands once `Schedule` has returned it. */
  datatype DeployStage =
    | Exposing      // its register message is sent, the route is not written
    | Answered      // about to reply

  datatype StopStage =
    | Unrouting     // its unregister message is sent, the route is not deleted
    | Ready         // the scheduler's `Stop` is next
    | Calling

  /**
   A stop handler. `orderly` is history: it began when the deploy request had been answered, and its unregister
   message went out.
   */
  datatype StopCall = StopCall(id: string, stage: StopStage, orderly: bool)

  datatype State = State(
    sched: Steps.State,
    routes: map<string, int>,            // of the tunnel client
    deploys: map<string, DeployStage>,
    stops: map<nat, StopCall>,
    crashed: Option<string>,             // the deployment whose deploy handler has panicked
    hasty: set<string>)                  // history: deployments that a disorderly stop has found

  const INIT: State := State(Steps.INIT, map[], map[], map[], None, {})

  datatype Event =
    | Sched(e: Steps.Event)
    | Expose(id: string, sent: bool)
    | WriteRoute(id: string)
    | StopBegin(stop: nat, id: string, sent: bool)
    | DropRoute(stop: nat)
    | StopMark(stop: nat)

  /** The scheduler's own regions but for the first of `Stop`, which a stop handler enters when it gets there. */
  predicate Enabled(cfg: Config, s: State, e: Event) {
    s.crashed.None? &&
    match e
    case Sched(x) => !x.StopMark? && Steps.Enabled(cfg, s.sched, x)
    case Expose(id, _) =>
      && id in s.sched.phase && s.sched.phase[id].Returned? && id !in s.deploys
      && (id in s.sched.books.deployments || id in s.sched.gone)
    case WriteRoute(id) =>
      && id in s.deploys && s.deploys[id].Exposing?
      && (id in s.sched.books.deployments || id in s.sched.gone)
    case StopBegin(k, _, _) => k !in s.stops
    case DropRoute(k) => k in s.stops && s.stops[k].stage.Unrouting?
    case StopMark(k) =>
      k in s.stops && s.stops[k].stage.Ready? && Steps.Enabled(cfg, s.sched, Steps.StopMark(k, s.stops[k].id))
  }

  function Port(s: Steps.State, id: string): int
    requires id in s.books.deployments || id in s.gone
  {
    Steps.RecordOf(s, id).exposePort
  }

  function Next(cfg: Config, s: State, e: Event): State
    requires Enabled(cfg, s, e)
  {
    match e
    case Sched(x) => s.(sched := Steps.Next(cfg, s.sched, x))
    case Expose(id, sent) =>
      if |Steps.RecordOf(s.sched, id).containerId| < 12 then s.(crashed := Some(id))
      else s.(deploys := s.deploys[id := if Port(s.sched, id) > 0 && sent then Exposing else Answered])
    case WriteRoute(id) =>
      s.(routes := s.routes[id := Port(s.sched, id)], deploys := s.deploys[id := Answered])
    case StopBegin(k, id, sent) =>
      s.(stops := s.stops[k := StopCall(id, if sent then Unrouting else Ready,
                                        sent && id in s.deploys && s.deploys[id].Answered?)])
    case DropRoute(k) =>
      s.(routes := s.routes - {s.stops[k].id}, stops := s.stops[k := s.stops[k].(stage := Ready)])
    case StopMark(k) =>
      s.(sched := Steps.Next(cfg, s.sched, Steps.StopMark(k, s.stops[k].id)),
         stops := s.stops[k := s.stops[k].(stage := Calling)],
         hasty := if s.stops[k].orderly then s.hasty else s.hasty + {s.stops[k].id})
  }

  ghost function Handling(cfg: Config, env: (State, Event) -> bool): Machine<State, Event> {
    Machine((s, e) => Enabled(cfg, s, e) && env(s, e),
            (s, e) => if Enabled(cfg, s, e) then Next(cfg, s, e) else s)
  }

  predicate Anything(s: State, e: Event) { true }

  /**
   No handler waits for another: in every state without a panic, a deploy handler goes on as soon as `Schedule` has
   returned, a stop handler begins at any time for any deployment, and each does its next step at once. So does the
   scheduler.
   */
  lemma HandlersCanProceed(cfg: Config, s: State, id: string, k: nat, sent: bool, x: Steps.Event)
    requires s.crashed.None?
    ensures !x.StopMark? ==> (Enabled(cfg, s, Sched(x)) <==> Steps.Enabled(cfg, s.sched, x))
    ensures id in s.sched.books.deployments || id in s.sched.gone ==>
              && (id in s.sched.phase && s.sched.phase[id].Returned? && id !in s.deploys ==>
                  Enabled(cfg, s, Expose(id, sent)))
              && (id in s.deploys && s.deploys[id].Exposing? ==> Enabled(cfg, s, WriteRoute(id)))
    ensures k !in s.stops ==> Enabled(cfg, s, StopBegin(k, id, sent))
    ensures k in s.stops ==>
              && (s.stops[k].stage.Unrouting? ==> Enabled(cfg, s, DropRoute(k)))
              && (s.stops[k].stage.Ready? && k !in s.sched.stops ==>
                  (Enabled(cfg, s, StopMark(k)) <==> s.stops[k].id in s.sched.books.deployments))
  {}

  // ---------- what a region of the scheduler does to one deployment ----------

  lemma RecordStays(cfg: Config, s: Steps.State, e: Steps.Event, id: string)
    requires Steps.Enabled(cfg, s, e) && id in s.phase
    requires (id in s.books.deployments) != (id in s.gone)
    ensures var t := Steps.Next(cfg, s, e);
            (id in t.books.deployments || id in t.gone) && Port(t, id) == Port(s, id)
  {}

  lemma ReturnStays(cfg: Config, s: Steps.State, e: Steps.Event, id: string)
    requires Steps.Enabled(cfg, s, e) && id in s.phase
    ensures var t := Steps.Next(cfg, s, e);
            id in t.phase && (s.phase[id].Returned? || s.phase[id].ReturnedError? ==> t.phase[id] == s.phase[id])
  {}

  /** A record is lost only to the failure of its own call or to a `Stop`. */
  lemma GoneGrows(cfg: Config, s: Steps.State, e: Steps.Event, id: string)
    requires Steps.Enabled(cfg, s, e)
    ensures var t := Steps.Next(cfg, s, e);
            id in t.gone && id !in s.gone ==>
              || (id in t.phase && t.phase[id] == Steps.ReturnedError)
              || (e.StopRelease? && s.stops[e.stop].id == id)
  {}

  lemma StopsStay(cfg: Config, s: Steps.State, e: Steps.Event, k: nat)
    requires Steps.Enabled(cfg, s, e)
    ensures var t := Steps.Next(cfg, s, e);
            k in t.stops && e != Steps.StopMark(k, t.stops[k].id) ==> k in s.stops && t.stops[k].id == s.stops[k].id
    ensures e.StopMark? && e.stop == k ==> k in Steps.Next(cfg, s, e).stops && Steps.Next(cfg, s, e).stops[k].id == e.id
  {}

  // ---------- the invariant ----------

  /** The deploy request has been answered and there is no route, nor will there be one. */
  predicate Closed(s: State, id: string) {
    id in s.deploys && s.deploys[id].Answered? && id !in s.routes
  }

  /** A route is at the port that its deployment's record, lost or not, exposes; what is lost is closed or was hasty. */
  ghost predicate IdFits(s: State, id: string) {
    && (id in s.routes ==> id in s.deploys)
    && (id in s.deploys ==> id in s.sched.phase && s.sched.phase[id].Returned?)
    && (id in s.sched.phase ==> id in s.sched.books.deployments || id in s.sched.gone)
    && (id in s.deploys && s.deploys[id].Exposing? ==> Port(s.sched, id) > 0)
    && (id in s.routes ==> s.routes[id] == Port(s.sched, id) > 0)
    && (id in s.sched.gone && id in s.sched.phase && s.sched.phase[id] != Steps.ReturnedError ==>
          Closed(s, id) || id in s.hasty)
  }

  /** A stop handler that began in order has closed its deployment by the time it calls the scheduler. */
  ghost predicate StopFits(s: State, k: nat) {
    && (k in s.stops && s.stops[k].orderly ==>
          && s.stops[k].id in s.deploys && s.deploys[s.stops[k].id].Answered?
          && (!s.stops[k].stage.Unrouting? ==> Closed(s, s.stops[k].id)))
    && (k in s.sched.stops ==>
          && k in s.stops && s.stops[k].id == s.sched.stops[k].id && s.stops[k].stage.Calling?
          && (s.stops[k].orderly || s.stops[k].id in s.hasty))
  }

  ghost predicate Inv(s: State) {
    && Safety.Inv(s.sched)
    && (forall id :: IdFits(s, id))
    && (forall k :: StopFits(s, k))
  }

  lemma SchedIdFits(cfg: Config, s: State, x: Steps.Event, t: State, id: string)
    requires IdFits(s, id) && Safety.Fits(s.sched, id) && Steps.Enabled(cfg, s.sched, x)
    requires Safety.Fits(Steps.Next(cfg, s.sched, x), id)
    requires x.StopRelease? ==> StopFits(s, x.stop)
    requires t == s.(sched := Steps.Next(cfg, s.sched, x), stops := t.stops, hasty := t.hasty) && s.hasty <= t.hasty
    ensures IdFits(t, id)
  {
    GoneGrows(cfg, s.sched, x, id);
    if id in s.sched.phase {
      RecordStays(cfg, s.sched, x, id);
      ReturnStays(cfg, s.sched, x, id);
    }
  }

  lemma OwnIdFits(cfg: Config, s: State, e: Event, id: string)
    requires IdFits(s, id) && Enabled(cfg, s, e) && !e.Sched? && !e.StopMark?
    ensures IdFits(Next(cfg, s, e), id)
  {}

  lemma StepIdFits(cfg: Config, s: State, e: Event, id: string)
    requires Inv(s) && Enabled(cfg, s, e) && Safety.Fits(Next(cfg, s, e).sched, id)
    ensures IdFits(Next(cfg, s, e), id)
  {
    assert IdFits(s, id) && Safety.Fits(s.sched, id);
    if e.Sched? {
      assert e.e.StopRelease? ==> StopFits(s, e.e.stop);
      SchedIdFits(cfg, s, e.e, Next(cfg, s, e), id);
    } else if e.StopMark? {
      SchedIdFits(cfg, s, Steps.StopMark(e.stop, s.stops[e.stop].id), Next(cfg, s, e), id);
    } else {
      OwnIdFits(cfg, s, e, id);
    }
  }

  lemma StepStopFits(cfg: Config, s: State, e: Event, k: nat)
    requires StopFits(s, k) && Enabled(cfg, s, e)
    ensures StopFits(Next(cfg, s, e), k)
  {
    if e.Sched? {
      StopsStay(cfg, s.sched, e.e, k);
    } else if e.StopMark? {
      StopsStay(cfg, s.sched, Steps.StopMark(e.stop, s.stops[e.stop].id), k);
    }
  }

  lemma StepSafe(cfg: Config, s: State, e: Event)
    requires Safety.Inv(s.sched) && Enabled(cfg, s, e)
    ensures Safety.Inv(Next(cfg, s, e).sched)
  {
    if e.Sched? {
      Safety.StepInv(cfg, s.sched, e.e);
    } else if e.StopMark? {
      Safety.StepInv(cfg, s.sched, Steps.StopMark(e.stop, s.stops[e.stop].id));
    }
  }

  lemma StepInv(cfg: Config, s: State, e: Event)
    requires Inv(s) && Enabled(cfg, s, e)
    ensures Inv(Next(cfg, s, e))
  {
    StepSafe(cfg, s, e);
    forall id
      ensures IdFits(Next(cfg, s, e), id)
    {
      assert Safety.Fits(Next(cfg, s, e).sched, id);
      StepIdFits(cfg, s, e, id);
    }
    forall k
      ensures StopFits(Next(cfg, s, e), k)
    {
      assert StopFits(s, k);
      StepStopFits(cfg, s, e, k);
    }
  }

  lemma Invariant(cfg: Config, env: (State, Event) -> bool, es: seq<Event>, t: State)
    requires Runs(Handling(cfg, env), INIT, es, t)
    ensures Inv(t)
  {
    Safety.Invariant(cfg, Steps.Anything, [], Steps.INIT);
    forall s, e | Inv(s) && Handling(cfg, env).may(s, e)
      ensures Inv(Handling(cfg, env).next(s, e))
    {
      StepInv(cfg, s, e);
    }
    Induction(Handling(cfg, env), Inv, INIT, es, t);
  }

  /**
   In every interleaving of deploy and stop handlers, tunnel up or not: a route is at the port its deployment exposes,
   and the deployment is on record, unless it was found by a stop that began before the deploy request was answered
   or whose unregister message did not go out.
   */
  lemma StaleOnlyIfHasty(cfg: Config, es: seq<Event>, t: State, id: string)
    requires Runs(Handling(cfg, Anything), INIT, es, t) && id in t.routes
    ensures id in t.sched.books.deployments || (id in t.sched.gone && id in t.hasty)
    ensures t.routes[id] == Port(t.sched, id) > 0
  {
    Invariant(cfg, Anything, es, t);
    assert IdFits(t, id) && Safety.Fits(t.sched, id);
  }

  /** The assumption: a stop that finds its deployment began after the deploy request was answered, and was sent. */
  predicate Orderly(s: State, e: Event) { e.StopMark? && e.stop in s.stops ==> s.stops[e.stop].orderly }

  lemma OrderlyStep(cfg: Config, s: State, e: Event)
    requires Enabled(cfg, s, e) && Orderly(s, e)
    ensures Next(cfg, s, e).hasty == s.hasty
  {}

  lemma OrderlyNeverHasty(cfg: Config, es: seq<Event>, t: State)
    requires Runs(Handling(cfg, Orderly), INIT, es, t)
    ensures t.hasty == {}
  {
    var m := Handling(cfg, Orderly);
    var inv := (s: State) => s.hasty == {};
    forall s, e | inv(s) && m.may(s, e)
      ensures inv(m.next(s, e))
    {
      OrderlyStep(cfg, s, e);
    }
    Induction(m, inv, INIT, es, t);
  }

  lemma OrderlyIsAnyRun(cfg: Config, es: seq<Event>, t: State)
    requires Runs(Handling(cfg, Orderly), INIT, es, t)
    ensures Runs(Handling(cfg, Anything), INIT, es, t)
  {
    var strict, lax := Handling(cfg, Orderly), Handling(cfg, Anything);
    forall s, e | strict.may(s, e)
      ensures lax.may(s, e)
    {
      assert Enabled(cfg, s, e) && Anything(s, e);
    }
    Weaken(strict, lax, INIT, es, t);
  }

  /** Under it the routes stay within the exposures of the deployments on record, in every interleaving. */
  lemma RoutesStayWithinExposures(cfg: Config, es: seq<Event>, t: State, id: string)
    requires Runs(Handling(cfg, Orderly), INIT, es, t) && id in t.routes
    ensures id in t.sched.books.deployments
    ensures t.routes[id] == t.sched.books.deployments[id].exposePort > 0
  {
    OrderlyNeverHasty(cfg, es, t);
    OrderlyIsAnyRun(cfg, es, t);
    StaleOnlyIfHasty(cfg, es, t, id);
  }
}
