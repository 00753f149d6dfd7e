/** Runs of overlapping handlers which show that stop requests must come late. */
module HandlerRuns {
  import opened Protocol
  import opened Accounting
  import opened HandlerCrash
  import opened HandlerRaces
  import opened Machines
  import opened Options
  import Steps = SchedulerSteps

  ghost predicate Reached(cfg: Config, es: seq<Event>, s: State) { Runs(Handling(cfg, LongIds), INIT, es, s) }

  /** One step of a run that is being built. */
  lemma Do(cfg: Config, es: seq<Event>, s: State, e: Event) returns (es': seq<Event>, t: State)
    requires Reached(cfg, es, s) && Enabled(cfg, s, e) && LongIds(s, e)
    ensures Reached(cfg, es', t) && t == Next(cfg, s, e)
  {
    Extend(Handling(cfg, LongIds), INIT, es, s, e);
    es', t := es + [e], Next(cfg, s, e);
  }

  /** Only the scheduler has moved: one call for `id` is in phase `p`, and nothing has been stopped. */
  ghost predicate OneCall(s: State, req: DeployRequest, id: string, p: Steps.Phase) {
    && s == INIT.(sched := s.sched) && s.sched.stops == map[] && s.sched.gone == map[]
    && s.sched.phase == map[id := p]
    && s.sched.books.deployments.Keys == {id} && s.sched.books.deployments[id].exposePort == req.exposePort
  }

  lemma Registers(cfg: Config, req: DeployRequest, id: string) returns (es: seq<Event>, t: State)
    requires CanSchedule(cfg, EMPTY, req.cpuMillicores, req.memoryBytes) == Admitted
    ensures Reached(cfg, es, t) && OneCall(t, req, id, Steps.Entered(req))
    ensures t.sched.books.deployments[id].containerId == ""
  {
    es, t := Do(cfg, [], INIT, Sched(Steps.Check(0, req)));
    es, t := Do(cfg, es, t, Sched(Steps.Enter(0, id)));
  }

  /** The call in phase `Entered` goes on to `docker run`, with its record or without. */
  lemma ToStart(cfg: Config, es: seq<Event>, s: State, req: DeployRequest, id: string)
    returns (es': seq<Event>, t: State)
    requires Reached(cfg, es, s) && s.crashed.None? && id in s.sched.phase && s.sched.phase[id] == Steps.Entered(req)
    ensures Reached(cfg, es', t) && t == s.(sched := t.sched)
    ensures t.sched == s.sched.(books := t.sched.books, phase := s.sched.phase[id := Steps.Starts(req)])
    ensures t.sched.books.deployments.Keys == s.sched.books.deployments.Keys
    ensures id in s.sched.books.deployments ==>
              && t.sched.books.deployments[id].exposePort == s.sched.books.deployments[id].exposePort
              && t.sched.books.deployments[id].containerId == s.sched.books.deployments[id].containerId
  {
    es', t := Do(cfg, es, s, Sched(Steps.MarkPulling(id)));
    es', t := Do(cfg, es', t, Sched(Steps.Pull(id, true)));
    es', t := Do(cfg, es', t, Sched(Steps.MarkStarting(id)));
  }

  lemma ToReturn(cfg: Config, es: seq<Event>, s: State, req: DeployRequest, id: string, c: string)
    returns (es': seq<Event>, t: State)
    requires Reached(cfg, es, s) && s.crashed.None? && id in s.sched.phase && s.sched.phase[id] == Steps.Starts(req)
    requires ValidConfig(id, req) && |c| >= 12
    ensures Reached(cfg, es', t) && t == s.(sched := t.sched)
    ensures t.sched.phase == s.sched.phase[id := Steps.Returned(c)]
    ensures t.sched.stops == s.sched.stops && t.sched.gone == s.sched.gone
    ensures t.sched.books.deployments.Keys == s.sched.books.deployments.Keys
    ensures id in s.sched.books.deployments ==>
              && t.sched.books.deployments[id].exposePort == s.sched.books.deployments[id].exposePort
              && t.sched.books.deployments[id].containerId == c
  {
    es', t := Do(cfg, es, s, Sched(Steps.RunOk(id, c)));
    es', t := Do(cfg, es', t, Sched(Steps.Finish(id)));
  }

  /** A stop handler runs from start to end. */
  lemma StopsAll(cfg: Config, es: seq<Event>, s: State, id: string) returns (es': seq<Event>, t: State)
    requires Reached(cfg, es, s) && s.crashed.None? && s.stops == map[] && s.sched.stops == map[]
    requires s.sched.books.deployments.Keys == {id} && id !in s.sched.gone
    ensures Reached(cfg, es', t) && t.crashed.None?
    ensures t.sched.books.deployments == map[] && t.sched.phase == s.sched.phase
    ensures t.deploys == s.deploys && t.sched.gone.Keys == s.sched.gone.Keys + {id}
    ensures t.sched.gone[id].exposePort == s.sched.books.deployments[id].exposePort
    ensures t.sched.gone[id].containerId == s.sched.books.deployments[id].containerId
  {
    es', t := Do(cfg, es, s, StopBegin(0, id, true));
    es', t := Do(cfg, es', t, DropRoute(0));
    es', t := Do(cfg, es', t, StopMark(0));
    es', t := ReadAndRelease(cfg, es', t, id);
  }

  lemma ReadAndRelease(cfg: Config, es: seq<Event>, s: State, id: string) returns (es': seq<Event>, t: State)
    requires Reached(cfg, es, s) && s.crashed.None? && 0 in s.sched.stops && s.sched.stops[0] == Steps.Marked(id)
    requires s.sched.books.deployments.Keys == {id}
    ensures Reached(cfg, es', t) && t == s.(sched := t.sched) && t.sched.books.deployments == map[]
    ensures t.sched.phase == s.sched.phase && t.sched.gone.Keys == s.sched.gone.Keys + {id}
    ensures t.sched.gone[id].exposePort == s.sched.books.deployments[id].exposePort
    ensures t.sched.gone[id].containerId == s.sched.books.deployments[id].containerId
  {
    es', t := Do(cfg, es, s, Sched(Steps.StopRead(0)));
    es', t := Do(cfg, es', t, Sched(Steps.StopDocker(0, true)));
    es', t := Do(cfg, es', t, Sched(Steps.StopRelease(0)));
    assert t.sched.books.deployments == map[];
  }

  /**
   A stop request that is handled between the register message of a deploy request and the writing of its route: for
   every request that is admitted, can be run and exposes a port, the route then stays, to a deployment that is gone.
   */
  lemma RouteOutlivesDeployment(cfg: Config, req: DeployRequest, id: string, c: string)
    returns (es: seq<Event>, t: State)
    requires CanSchedule(cfg, EMPTY, req.cpuMillicores, req.memoryBytes) == Admitted
    requires ValidConfig(id, req) && req.exposePort > 0 && |c| >= 12
    ensures Runs(Handling(cfg, LongIds), INIT, es, t)
    ensures id in t.routes && t.sched.books.deployments == map[] && id in t.deploys && t.deploys[id].Answered?
  {
    es, t := Registers(cfg, req, id);
    es, t := ToStart(cfg, es, t, req, id);
    es, t := ToReturn(cfg, es, t, req, id, c);
    es, t := Do(cfg, es, t, Expose(id, true));
    es, t := StopsAll(cfg, es, t, id);
    es, t := Do(cfg, es, t, WriteRoute(id));
  }

  /**
   A stop request that is handled right after a deployment is registered: for every request that is admitted and can
   be run, the deploy handler then finds no container ID in the record it is handed, and its panic ends the daemon.
   */
  lemma EarlyStopCrashes(cfg: Config, req: DeployRequest, id: string, c: string) returns (es: seq<Event>, t: State)
    requires CanSchedule(cfg, EMPTY, req.cpuMillicores, req.memoryBytes) == Admitted
    requires ValidConfig(id, req) && |c| >= 12
    ensures Runs(Handling(cfg, LongIds), INIT, es, t) && t.crashed == Some(id)
  {
    es, t := Registers(cfg, req, id);
    es, t := StopsAll(cfg, es, t, id);
    es, t := ToStart(cfg, es, t, req, id);
    es, t := ToReturn(cfg, es, t, req, id, c);
    es, t := Do(cfg, es, t, Expose(id, true));
  }

  /** A stop handler goes as far as `docker stop`, having read no container ID. */
  lemma StopsUpToRelease(cfg: Config, es: seq<Event>, s: State, req: DeployRequest, id: string)
    returns (es': seq<Event>, t: State)
    requires Reached(cfg, es, s) && OneCall(s, req, id, Steps.Starts(req))
    requires s.sched.books.deployments[id].containerId == ""
    ensures Reached(cfg, es', t) && t.crashed.None? && t.deploys == map[] && t.sched.phase == s.sched.phase
    ensures t.sched.stops == map[0 := Steps.Removed(id, "")] && t.sched.gone == map[]
    ensures t.sched.books.deployments.Keys == {id}
  {
    es', t := Do(cfg, es, s, StopBegin(0, id, true));
    es', t := Do(cfg, es', t, DropRoute(0));
    es', t := Do(cfg, es', t, StopMark(0));
    es', t := ReadsNothing(cfg, es', t, id);
  }

  lemma ReadsNothing(cfg: Config, es: seq<Event>, s: State, id: string) returns (es': seq<Event>, t: State)
    requires Reached(cfg, es, s) && s.crashed.None? && s.sched.stops == map[0 := Steps.Marked(id)]
    requires id in s.sched.books.deployments && s.sched.books.deployments[id].containerId == ""
    ensures Reached(cfg, es', t) && t == s.(sched := t.sched)
    ensures t.sched == s.sched.(stops := map[0 := Steps.Removed(id, "")])
  {
    es', t := Do(cfg, es, s, Sched(Steps.StopRead(0)));
    es', t := Do(cfg, es', t, Sched(Steps.StopDocker(0, true)));
  }

  /**
   It is the release that must come early, not the stop: for every request that is admitted and can be run there is a
   run in which a stop request reads no container ID and yet the deploy handler is answered, because the release came
   after the container ID was written.
   */
  lemma LateReleaseDoesNotCrash(cfg: Config, req: DeployRequest, id: string, c: string)
    returns (es: seq<Event>, t: State)
    requires CanSchedule(cfg, EMPTY, req.cpuMillicores, req.memoryBytes) == Admitted
    requires ValidConfig(id, req) && |c| >= 12
    ensures Runs(Handling(cfg, LongIds), INIT, es, t) && t.crashed.None?
    ensures id in t.sched.early && id in t.sched.gone && id in t.deploys
  {
    es, t := Registers(cfg, req, id);
    es, t := ToStart(cfg, es, t, req, id);
    es, t := StopsUpToRelease(cfg, es, t, req, id);
    es, t := ToReturn(cfg, es, t, req, id, c);
    es, t := Do(cfg, es, t, Sched(Steps.StopRelease(0)));
    es, t := Do(cfg, es, t, Expose(id, false));
  }
}
