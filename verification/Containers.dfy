/** Who answers for the containers docker is running. */
module Containers {
  import opened Protocol
  import opened Accounting
  import opened Machines
  import opened SchedulerSteps
  import Safety = SchedulerSafety

  /** A container is owned by a record on the map, or by a `Schedule` call that has yet to write it down. */
  datatype Owner = ByRecord(id: string) | ByCall(id: string)

  ghost function Owners(s: State, c: string): set<Owner> {
    (set id | id in s.books.deployments && s.books.deployments[id].containerId == c :: ByRecord(id))
    + (set id | id in s.phase && s.phase[id] == Ran(c) :: ByCall(id))
  }

  /** `docker run` answers with a new ID that is not empty, and removal takes effect. */
  predicate DockerContract(s: State, e: Event) {
    && (e.RunOk? ==> e.containerId != "" && e.containerId !in s.made)
    && (e.StopDocker? ==> e.effective)
  }

  predicate Holds(p: Phase) { p.Ran? || p.Returned? }

  /** One deployment: the container its call holds, and what became of it if the record is gone. */
  ghost predicate DeploymentFits(s: State, id: string) {
    && (id in s.phase && Holds(s.phase[id]) ==>
          var c := s.phase[id].containerId; c != "" && c in s.made && s.made[c] == id)
    && (id in s.early ==> id in s.gone)
    && (id in s.gone ==> id in s.phase)
    && (id in s.gone && id !in s.early && s.phase[id] != ReturnedError ==>
          s.phase[id].Returned? && s.phase[id].containerId !in s.live)
  }

  /** One container: it was made for a deployment whose call still knows it. */
  ghost predicate ContainerFits(s: State, c: string) {
    && (c in s.live ==> c in s.made)
    && (c in s.made ==> s.made[c] in s.phase && Holds(s.phase[s.made[c]]) && s.phase[s.made[c]].containerId == c)
  }

  /** One `Stop` call: what it has read is right, and what it has removed is gone. */
  ghost predicate StopFits(s: State, k: nat) {
    && Safety.HasReadFits(s, k)
    && (k in s.stops && s.stops[k].Removed? && s.stops[k].containerId != "" ==> s.stops[k].containerId !in s.live)
  }

  ghost predicate Inv(s: State) {
    && Safety.Inv(s)
    && (forall id :: DeploymentFits(s, id))
    && (forall c :: ContainerFits(s, c))
    && (forall k :: StopFits(s, k))
  }

  lemma StepDeploymentFits(cfg: Config, s: State, e: Event, id: string)
    requires DeploymentFits(s, id) && Safety.Fits(s, id) && (e.StopRelease? ==> StopFits(s, e.stop))
    requires Enabled(cfg, s, e) && DockerContract(s, e)
    ensures DeploymentFits(Next(cfg, s, e), id)
  {}

  lemma StepContainerFits(cfg: Config, s: State, e: Event, c: string)
    requires ContainerFits(s, c)
    requires Enabled(cfg, s, e) && DockerContract(s, e)
    ensures ContainerFits(Next(cfg, s, e), c)
  {}

  lemma StepStopFits(cfg: Config, s: State, e: Event, k: nat)
    requires StopFits(s, k)
    requires k in s.stops ==> Safety.Fits(s, s.stops[k].id) && DeploymentFits(s, s.stops[k].id)
    requires Enabled(cfg, s, e) && DockerContract(s, e)
    ensures StopFits(Next(cfg, s, e), k)
  {
    Safety.StepHasReadFits(cfg, s, e, k);
  }

  lemma StepsKeep(cfg: Config, env: (State, Event) -> bool)
    requires forall s, e :: env(s, e) ==> DockerContract(s, e)
    ensures Keeps(Scheduling(cfg, env), Inv)
  {
    Safety.StepsKeep(cfg, env);
    forall s, e | Inv(s) && Scheduling(cfg, env).may(s, e)
      ensures Inv(Scheduling(cfg, env).next(s, e))
    {
      assert Safety.Inv(Scheduling(cfg, env).next(s, e));
      forall id
        ensures DeploymentFits(Next(cfg, s, e), id)
      {
        assert DeploymentFits(s, id) && Safety.Fits(s, id) && (e.StopRelease? ==> StopFits(s, e.stop));
        StepDeploymentFits(cfg, s, e, id);
      }
      forall c
        ensures ContainerFits(Next(cfg, s, e), c)
      {
        assert ContainerFits(s, c);
        StepContainerFits(cfg, s, e, c);
      }
      forall k
        ensures StopFits(Next(cfg, s, e), k)
      {
        assert StopFits(s, k);
        assert k in s.stops ==> Safety.Fits(s, s.stops[k].id) && DeploymentFits(s, s.stops[k].id);
        StepStopFits(cfg, s, e, k);
      }
    }
  }

  lemma Invariant(cfg: Config, env: (State, Event) -> bool, es: seq<Event>, t: State)
    requires forall s, e :: env(s, e) ==> DockerContract(s, e)
    requires Runs(Scheduling(cfg, env), INIT, es, t)
    ensures Inv(t)
  {
    Safety.Invariant(cfg, env, [], INIT);
    StepsKeep(cfg, env);
    Induction(Scheduling(cfg, env), Inv, INIT, es, t);
  }

  /**
   Exactly which containers are orphans, in every interleaving: those whose deployment was released by a `Stop`
   that had read no container ID, once their `Schedule` call has returned. Every other live container has exactly
   one owner.
   */
  lemma OrphanIffStoppedEarly(cfg: Config, es: seq<Event>, t: State, c: string)
    requires Runs(Scheduling(cfg, DockerContract), INIT, es, t) && c in t.live
    ensures c in t.made && t.made[c] in t.phase
    ensures Owners(t, c) == {} <==> t.made[c] in t.early && t.phase[t.made[c]] == Returned(c)
    ensures Owners(t, c) != {} ==> Owners(t, c) == {ByRecord(t.made[c])} || Owners(t, c) == {ByCall(t.made[c])}
  {
    Invariant(cfg, DockerContract, es, t);
    assert ContainerFits(t, c);
    var id := t.made[c];
    assert DeploymentFits(t, id) && Safety.Fits(t, id);
    forall o | o in Owners(t, c)
      ensures o.id == id
    {
      assert DeploymentFits(t, o.id) && Safety.Fits(t, o.id);
    }
    if t.phase[id] == Ran(c) {
      assert ByCall(id) in Owners(t, c);
    } else if id in t.books.deployments {
      assert ByRecord(id) in Owners(t, c);
    }
  }

  // ---------- stopping only what has been scheduled ----------

  /** `Stop` is issued only for deployments whose `Schedule` call has returned. */
  predicate StopsWhatIsScheduled(s: State, e: Event) {
    DockerContract(s, e) && (e.StopMark? ==> e.id in s.phase && s.phase[e.id].Returned?)
  }

  ghost predicate GoneFits(s: State, id: string) {
    id in s.gone ==>
      && id in s.phase
      && (s.phase[id] == ReturnedError || (s.phase[id].Returned? && s.gone[id].containerId != ""))
  }

  ghost predicate LateStop(s: State, k: nat) {
    k in s.stops ==> && s.stops[k].id in s.phase && s.phase[s.stops[k].id].Returned?
                     && (!s.stops[k].Marked? ==> s.stops[k].containerId != "")
  }

  ghost predicate LateInv(s: State) {
    && Inv(s)
    && s.early == {}
    && (forall id :: GoneFits(s, id))
    && (forall k :: LateStop(s, k))
  }

  lemma StepGoneFits(cfg: Config, s: State, e: Event, id: string)
    requires GoneFits(s, id) && Safety.Fits(s, id) && DeploymentFits(s, id) && (e.StopRelease? ==> LateStop(s, e.stop))
    requires Enabled(cfg, s, e)
    ensures GoneFits(Next(cfg, s, e), id)
  {}

  lemma StepLateStop(cfg: Config, s: State, e: Event, k: nat)
    requires LateStop(s, k)
    requires k in s.stops ==>
               GoneFits(s, s.stops[k].id) && Safety.Fits(s, s.stops[k].id) && DeploymentFits(s, s.stops[k].id)
    requires Enabled(cfg, s, e) && StopsWhatIsScheduled(s, e)
    ensures LateStop(Next(cfg, s, e), k)
  {}

  lemma StepLate(cfg: Config, s: State, e: Event)
    requires LateInv(s) && Enabled(cfg, s, e) && StopsWhatIsScheduled(s, e)
    ensures Next(cfg, s, e).early == {}
    ensures forall id :: GoneFits(Next(cfg, s, e), id)
    ensures forall k :: LateStop(Next(cfg, s, e), k)
  {
    if e.StopRelease? {
      assert LateStop(s, e.stop);
    }
    forall id
      ensures GoneFits(Next(cfg, s, e), id)
    {
      assert GoneFits(s, id) && Safety.Fits(s, id) && DeploymentFits(s, id);
      StepGoneFits(cfg, s, e, id);
    }
    forall k
      ensures LateStop(Next(cfg, s, e), k)
    {
      assert LateStop(s, k);
      if k in s.stops {
        var id := s.stops[k].id;
        assert GoneFits(s, id) && Safety.Fits(s, id) && DeploymentFits(s, id);
      }
      StepLateStop(cfg, s, e, k);
    }
  }

  /** No orphans: if only scheduled deployments are stopped, every live container has exactly one owner, always. */
  lemma NoOrphans(cfg: Config, es: seq<Event>, t: State, c: string)
    requires Runs(Scheduling(cfg, StopsWhatIsScheduled), INIT, es, t) && c in t.live
    ensures exists o :: Owners(t, c) == {o}
  {
    var m := Scheduling(cfg, StopsWhatIsScheduled);
    Safety.Invariant(cfg, Safety.NamesContainers, [], INIT);
    StepsKeep(cfg, StopsWhatIsScheduled);
    forall s, e | LateInv(s) && m.may(s, e)
      ensures LateInv(m.next(s, e))
    {
      assert Inv(m.next(s, e));
      StepLate(cfg, s, e);
    }
    Induction(m, LateInv, INIT, es, t);
    Weaken(m, Scheduling(cfg, DockerContract), INIT, es, t);
    OrphanIffStoppedEarly(cfg, es, t, c);
  }

  // ---------- the hypothesis on `Stop` is needed ----------

  ghost predicate Reached(cfg: Config, es: seq<Event>, s: State) {
    Runs(Scheduling(cfg, DockerContract), INIT, es, s)
  }

  /** Only the `Schedule` call of `id` has done anything, and docker has made nothing. */
  ghost predicate OnlyCall(s: State, id: string, p: Phase) {
    s.live == {} && s.made == map[] && s.phase.Keys == {id} && s.phase[id] == p
  }

  /** One step of a run that is being built. */
  lemma Do(cfg: Config, es: seq<Event>, s: State, e: Event)
    requires Reached(cfg, es, s) && Enabled(cfg, s, e) && DockerContract(s, e)
    ensures Reached(cfg, es + [e], Next(cfg, s, e))
  {
    Extend(Scheduling(cfg, DockerContract), INIT, es, s, e);
  }

  lemma RegisterFirst(cfg: Config, req: DeployRequest, id: string) returns (es: seq<Event>, t: State)
    requires CanSchedule(cfg, EMPTY, req.cpuMillicores, req.memoryBytes) == Admitted
    ensures Reached(cfg, es, t) && OnlyCall(t, id, Entered(req))
    ensures t.books == Register(EMPTY, NewDeployment(id, req)) && t.stops == map[]
  {
    var s := Next(cfg, INIT, Check(0, req));
    Do(cfg, [], INIT, Check(0, req));
    Do(cfg, [] + [Check(0, req)], s, Enter(0, id));
    es, t := [] + [Check(0, req)] + [Enter(0, id)], Next(cfg, s, Enter(0, id));
  }

  lemma MarkAndRead(cfg: Config, es: seq<Event>, s: State, req: DeployRequest, id: string)
    returns (es': seq<Event>, t: State)
    requires Reached(cfg, es, s) && OnlyCall(s, id, Entered(req))
    requires s.books == Register(EMPTY, NewDeployment(id, req)) && s.stops == map[]
    ensures Reached(cfg, es', t) && OnlyCall(t, id, Entered(req))
    ensures t.books == SetStatus(Register(EMPTY, NewDeployment(id, req)), id, Stopping)
    ensures 0 in t.stops && t.stops[0] == HasRead(id, "")
  {
    var s1 := Next(cfg, s, StopMark(0, id));
    Do(cfg, es, s, StopMark(0, id));
    Do(cfg, es + [StopMark(0, id)], s1, StopRead(0));
    es', t := es + [StopMark(0, id)] + [StopRead(0)], Next(cfg, s1, StopRead(0));
  }

  lemma ReleaseUnread(cfg: Config, es: seq<Event>, s: State, req: DeployRequest, id: string)
    returns (es': seq<Event>, t: State)
    requires Reached(cfg, es, s) && OnlyCall(s, id, Entered(req))
    requires s.books == SetStatus(Register(EMPTY, NewDeployment(id, req)), id, Stopping)
    requires 0 in s.stops && s.stops[0] == HasRead(id, "")
    ensures Reached(cfg, es', t) && OnlyCall(t, id, Entered(req)) && t.books == EMPTY
  {
    var s1 := Next(cfg, s, StopDocker(0, true));
    Do(cfg, es, s, StopDocker(0, true));
    Do(cfg, es + [StopDocker(0, true)], s1, StopRelease(0));
    es', t := es + [StopDocker(0, true)] + [StopRelease(0)], Next(cfg, s1, StopRelease(0));
    ReleaseOnly(req, id);
  }

  lemma ReleaseOnly(req: DeployRequest, id: string)
    ensures Release(SetStatus(Register(EMPTY, NewDeployment(id, req)), id, Stopping), id) == EMPTY
  {
    var b := SetStatus(Register(EMPTY, NewDeployment(id, req)), id, Stopping);
    assert b.deployments - {id} == map[];
  }

  lemma PullWithoutRecord(cfg: Config, es: seq<Event>, s: State, req: DeployRequest, id: string)
    returns (es': seq<Event>, t: State)
    requires Reached(cfg, es, s) && OnlyCall(s, id, Entered(req)) && s.books == EMPTY
    ensures Reached(cfg, es', t) && OnlyCall(t, id, Starts(req)) && t.books == EMPTY
  {
    var s1 := Next(cfg, s, MarkPulling(id));
    var s2 := Next(cfg, s1, Pull(id, true));
    Do(cfg, es, s, MarkPulling(id));
    Do(cfg, es + [MarkPulling(id)], s1, Pull(id, true));
    Do(cfg, es + [MarkPulling(id)] + [Pull(id, true)], s2, MarkStarting(id));
    es', t := es + [MarkPulling(id)] + [Pull(id, true)] + [MarkStarting(id)], Next(cfg, s2, MarkStarting(id));
  }

  lemma RunWithoutRecord(cfg: Config, es: seq<Event>, s: State, req: DeployRequest, id: string, c: string)
    returns (es': seq<Event>, t: State)
    requires Reached(cfg, es, s) && OnlyCall(s, id, Starts(req)) && s.books == EMPTY
    requires ValidConfig(id, req) && c != ""
    ensures Reached(cfg, es', t) && t.books == EMPTY
    ensures t.live == {c} && t.phase.Keys == {id} && t.phase[id] == Returned(c)
  {
    var s1 := Next(cfg, s, RunOk(id, c));
    Do(cfg, es, s, RunOk(id, c));
    Do(cfg, es + [RunOk(id, c)], s1, Finish(id));
    es', t := es + [RunOk(id, c)] + [Finish(id)], Next(cfg, s1, Finish(id));
  }

  /**
   A `Stop` that comes right after registration and is carried to its end before `docker pull` begins: for every
   request that is admitted and that docker can run, its container then lives on without an owner.
   */
  lemma EarlyStopLeavesOrphan(cfg: Config, req: DeployRequest, id: string, c: string) returns (es: seq<Event>, t: State)
    requires CanSchedule(cfg, EMPTY, req.cpuMillicores, req.memoryBytes) == Admitted
    requires ValidConfig(id, req) && c != ""
    ensures Runs(Scheduling(cfg, DockerContract), INIT, es, t)
    ensures c in t.live && Owners(t, c) == {} && t.books == EMPTY
  {
    es, t := RegisterFirst(cfg, req, id);
    es, t := MarkAndRead(cfg, es, t, req, id);
    es, t := ReleaseUnread(cfg, es, t, req, id);
    es, t := PullWithoutRecord(cfg, es, t, req, id);
    es, t := RunWithoutRecord(cfg, es, t, req, id, c);
  }
}
