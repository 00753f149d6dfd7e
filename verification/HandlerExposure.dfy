/** Routes against exposures once overlapping handlers have come to their end. */
module HandlerExposure {
  import opened Accounting
  import opened HandlerRaces
  import opened Machines
  import Safety = SchedulerSafety
  import Steps = SchedulerSteps

  /** The assumption: stops are orderly, the tunnel is up and takes every message. */
  predicate Prompt(s: State, e: Event) {
    Orderly(s, e) && (e.Expose? ==> e.sent) && (e.StopBegin? ==> e.sent)
  }

  /** An exposed deployment has its route, until a stop handler has dropped it. */
  ghost predicate RouteThere(s: State, id: string) {
    id in s.deploys && s.deploys[id].Answered? && (id in s.sched.books.deployments || id in s.sched.gone) &&
    Port(s.sched, id) > 0 ==>
      id in s.routes || exists k :: k in s.stops && s.stops[k].id == id && !s.stops[k].stage.Unrouting?
  }

  /** A stop handler that has called the scheduler did so for an issued ID, and leaves no record when it is done. */
  ghost predicate StopDone(s: State, k: nat) {
    k in s.stops && s.stops[k].stage.Calling? ==>
      && s.stops[k].id in s.sched.phase
      && (k !in s.sched.stops ==> s.stops[k].id !in s.sched.books.deployments)
  }

  ghost predicate QuietInv(s: State) {
    Inv(s) && (forall id :: RouteThere(s, id)) && (forall k :: StopDone(s, k))
  }

  lemma StepRouteThere(cfg: Config, s: State, e: Event, id: string)
    requires RouteThere(s, id) && IdFits(s, id) && Safety.Fits(s.sched, id)
    requires Enabled(cfg, s, e) && Prompt(s, e)
    ensures RouteThere(Next(cfg, s, e), id)
  {
    var n := Next(cfg, s, e);
    if e.DropRoute? {
      assert n.stops[e.stop].id == s.stops[e.stop].id && !n.stops[e.stop].stage.Unrouting?;
    } else if e.Sched? && id in s.sched.phase {
      RecordStays(cfg, s.sched, e.e, id);
    } else if e.StopMark? {
      assert n.stops[e.stop].id == s.stops[e.stop].id && !n.stops[e.stop].stage.Unrouting?;
      if id in s.sched.phase {
        RecordStays(cfg, s.sched, Steps.StopMark(e.stop, s.stops[e.stop].id), id);
      }
    }
    if k :| k in s.stops && s.stops[k].id == id && !s.stops[k].stage.Unrouting? {
      assert k in n.stops && n.stops[k].id == id && !n.stops[k].stage.Unrouting?;
    }
  }

  /** The record of an issued ID does not come back once it is lost. */
  lemma LostStaysLost(cfg: Config, s: Steps.State, e: Steps.Event, id: string)
    requires Steps.Enabled(cfg, s, e) && id in s.phase && id !in s.books.deployments
    ensures id in Steps.Next(cfg, s, e).phase && id !in Steps.Next(cfg, s, e).books.deployments
  {}

  lemma StopEnds(cfg: Config, s: Steps.State, e: Steps.Event, k: nat)
    requires Steps.Enabled(cfg, s, e) && k in s.stops && k !in Steps.Next(cfg, s, e).stops
    ensures e.StopRelease? && s.stops[k].id !in Steps.Next(cfg, s, e).books.deployments
  {}

  lemma SchedStopDone(cfg: Config, s: State, e: Event, k: nat)
    requires StopDone(s, k) && StopFits(s, k) && Enabled(cfg, s, e) && e.Sched?
    ensures StopDone(Next(cfg, s, e), k)
  {
    if k in s.stops && s.stops[k].stage.Calling? {
      ReturnStays(cfg, s.sched, e.e, s.stops[k].id);
      if k !in s.sched.stops {
        LostStaysLost(cfg, s.sched, e.e, s.stops[k].id);
      } else if k !in Next(cfg, s, e).sched.stops {
        StopEnds(cfg, s.sched, e.e, k);
      }
    }
  }

  lemma OwnStopDone(cfg: Config, s: State, e: Event, k: nat)
    requires StopDone(s, k) && StopFits(s, k) && Enabled(cfg, s, e) && !e.Sched?
    requires e.StopMark? ==> Safety.Fits(s.sched, s.stops[e.stop].id)
    ensures StopDone(Next(cfg, s, e), k)
  {}

  lemma StepQuiet(cfg: Config, s: State, e: Event)
    requires QuietInv(s) && Enabled(cfg, s, e) && Prompt(s, e)
    ensures QuietInv(Next(cfg, s, e))
  {
    StepInv(cfg, s, e);
    forall id
      ensures RouteThere(Next(cfg, s, e), id)
    {
      assert RouteThere(s, id) && IdFits(s, id) && Safety.Fits(s.sched, id);
      StepRouteThere(cfg, s, e, id);
    }
    forall k
      ensures StopDone(Next(cfg, s, e), k)
    {
      assert StopDone(s, k) && StopFits(s, k);
      if e.Sched? {
        SchedStopDone(cfg, s, e, k);
      } else {
        assert e.StopMark? ==> Safety.Fits(s.sched, s.stops[e.stop].id);
        OwnStopDone(cfg, s, e, k);
      }
    }
  }

  /** Every handler has come to its end: deploy requests are answered, stop requests have found nothing or are done. */
  ghost predicate AllAnswered(s: State) {
    && (forall id :: id in s.sched.phase ==>
          || s.sched.phase[id].ReturnedError?
          || (s.sched.phase[id].Returned? && id in s.deploys && s.deploys[id].Answered?))
    && (forall k :: k in s.stops ==>
          || (s.stops[k].stage.Ready? && s.stops[k].id !in s.sched.books.deployments)
          || (s.stops[k].stage.Calling? && k !in s.sched.stops))
  }

  /**
   Handlers may overlap in any way that keeps stops orderly, with a tunnel that is up and takes every message: whenever
   all of them have come to their end, the routes are exactly those of the deployments on record that expose a port, at
   that port.
   */
  lemma RoutesEqualExposures(cfg: Config, es: seq<Event>, t: State, id: string)
    requires Runs(Handling(cfg, Prompt), INIT, es, t) && AllAnswered(t)
    ensures id in t.routes <==> id in t.sched.books.deployments && t.sched.books.deployments[id].exposePort > 0
    ensures id in t.routes ==> t.routes[id] == t.sched.books.deployments[id].exposePort
  {
    Invariant(cfg, Anything, [], INIT);
    forall s, e | QuietInv(s) && Handling(cfg, Prompt).may(s, e)
      ensures QuietInv(Handling(cfg, Prompt).next(s, e))
    {
      StepQuiet(cfg, s, e);
    }
    Induction(Handling(cfg, Prompt), QuietInv, INIT, es, t);
    PromptIsOrderly(cfg, es, t);
    if id in t.routes {
      RoutesStayWithinExposures(cfg, es, t, id);
    } else if id in t.sched.books.deployments {
      assert Safety.Fits(t.sched, id) && IdFits(t, id) && RouteThere(t, id);
      assert forall k :: k in t.stops ==> StopDone(t, k);
    }
  }

  lemma PromptIsOrderly(cfg: Config, es: seq<Event>, t: State)
    requires Runs(Handling(cfg, Prompt), INIT, es, t)
    ensures Runs(Handling(cfg, Orderly), INIT, es, t)
  {
    var strict, lax := Handling(cfg, Prompt), Handling(cfg, Orderly);
    forall s, e | strict.may(s, e)
      ensures lax.may(s, e)
    {
      assert Prompt(s, e);
    }
    Weaken(strict, lax, INIT, es, t);
  }
}
