/** What the scheduler's calls do when each runs to completion. */
module SequentialCalls {
  import opened MachineInt
  import opened MapSums
  import opened Protocol
  import opened Accounting
  import opened Machines
  import Steps = SchedulerSteps

  datatype Outcome = Scheduled(containerId: string) | Rejected(reason: Admission) | PullFailed | RunFailed

  /** What docker answers `docker run` with. */
  datatype RunAnswer = Started(containerId: string) | Refused

  /**
   What `Schedule` does with a deployment it has registered, given docker's two answers; docker is not asked to
   run a container whose configuration is invalid.
   */
  function Launch(b: Books, req: DeployRequest, id: string, pullOk: bool, run: RunAnswer): (Books, Outcome) {
    var pulling := SetStatus(b, id, Pulling);
    if !pullOk then (Release(pulling, id), PullFailed)
    else
      var starting := SetStatus(pulling, id, Starting);
      if !ValidConfig(id, req) || run.Refused? then (Release(starting, id), RunFailed)
      else (Finalise(starting, id, run.containerId), Scheduled(run.containerId))
  }

  /** `Schedule`, with `id` what the clock yields. */
  function Schedule(cfg: Config, b: Books, req: DeployRequest, id: string, pullOk: bool, run: RunAnswer)
    : (Books, Outcome)
  {
    var verdict := CanSchedule(cfg, b, req.cpuMillicores, req.memoryBytes);
    if verdict != Admitted then (b, Rejected(verdict))
    else Launch(Register(b, NewDeployment(id, req)), req, id, pullOk, run)
  }

  /** `Stop`, and whether it found the deployment. */
  function Stop(b: Books, id: string): (Books, bool) {
    (Release(SetStatus(b, id, Stopping), id), id in b.deployments)
  }

  datatype Call =
    | DoSchedule(req: DeployRequest, id: string, pullOk: bool, run: RunAnswer)
    | DoStop(id: string)

  /**
   A `Schedule` that fails, for whatever reason and whatever the size of the request, puts everything back as it
   was.
   */
  lemma FailedScheduleRestores(cfg: Config, b: Books, req: DeployRequest, id: string, pullOk: bool, run: RunAnswer)
    requires id !in b.deployments
    ensures !Schedule(cfg, b, req, id, pullOk, run).1.Scheduled? ==> Schedule(cfg, b, req, id, pullOk, run).0 == b
  {
    var d := NewDeployment(id, req);
    ReleaseUndoesRegister(b, d);
    var pulling := SetStatus(Register(b, d), id, Pulling);
    assert pulling.deployments - {id} == Register(b, d).deployments - {id};
    assert SetStatus(pulling, id, Starting).deployments - {id} == Register(b, d).deployments - {id};
  }

  /** A successful `Schedule` adds one running record with positive limits to what there was. */
  lemma SuccessfulScheduleAdds(cfg: Config, b: Books, req: DeployRequest, id: string, pullOk: bool, run: RunAnswer)
    requires id !in b.deployments && Schedule(cfg, b, req, id, pullOk, run).1.Scheduled?
    ensures ValidConfig(id, req) && CanSchedule(cfg, b, req.cpuMillicores, req.memoryBytes) == Admitted
    ensures var d := NewDeployment(id, req).(status := Running, containerId := run.containerId);
            Schedule(cfg, b, req, id, pullOk, run).0 == Register(b, d)
  {
    var d := NewDeployment(id, req).(status := Running, containerId := run.containerId);
    assert Schedule(cfg, b, req, id, pullOk, run).0.deployments == Register(b, d).deployments;
  }

  /** Stopping a deployment just scheduled undoes the call that scheduled it. */
  lemma StopUndoesSchedule(cfg: Config, b: Books, req: DeployRequest, id: string, pullOk: bool, run: RunAnswer)
    requires id !in b.deployments && Schedule(cfg, b, req, id, pullOk, run).1.Scheduled?
    ensures Stop(Schedule(cfg, b, req, id, pullOk, run).0, id) == (b, true)
  {
    SuccessfulScheduleAdds(cfg, b, req, id, pullOk, run);
    var d := NewDeployment(id, req).(status := Running, containerId := run.containerId);
    ReleaseUndoesRegister(b, d);
    assert SetStatus(Register(b, d), id, Stopping).deployments - {id} == Register(b, d).deployments - {id};
  }

  // ---------- what the calls answer ----------

  /**
   When `Schedule` succeeds, and how it fails otherwise: it succeeds exactly if the request is admitted, the image can
   be pulled, the configuration has an ID, an image, some CPU and at least 4 MiB, and docker starts the container; the
   answer then carries docker's container ID.
   */
  lemma ScheduleAnswers(cfg: Config, b: Books, req: DeployRequest, id: string, pullOk: bool, run: RunAnswer)
    ensures var (verdict, answer) := (CanSchedule(cfg, b, req.cpuMillicores, req.memoryBytes),
                                      Schedule(cfg, b, req, id, pullOk, run).1);
            var valid := id != "" && req.image != "" && 0 < req.cpuMillicores && 4194304 <= req.memoryBytes;
            && (answer.Rejected? <==> verdict != Admitted) && (answer.Rejected? ==> answer.reason == verdict)
            && (answer == PullFailed <==> verdict == Admitted && !pullOk)
            && (answer == RunFailed <==> verdict == Admitted && pullOk && (!valid || run == Refused))
            && (answer.Scheduled? <==> verdict == Admitted && pullOk && valid && run.Started?)
            && (answer.Scheduled? ==> run == Started(answer.containerId))
  {}

  /** What is on record after a successful `Schedule`, whether or not the ID was taken. */
  lemma ScheduledIsOnRecord(cfg: Config, b: Books, req: DeployRequest, id: string, pullOk: bool, run: RunAnswer)
    requires Schedule(cfg, b, req, id, pullOk, run).1.Scheduled?
    ensures var after := Schedule(cfg, b, req, id, pullOk, run).0;
            && id in after.deployments
            && var d := after.deployments[id];
            && d.id == id && d.image == req.image && d.requesterId == req.requesterId
            && d.cpuLimit == req.cpuMillicores && d.memoryLimit == req.memoryBytes && d.exposePort == req.exposePort
            && d.status == Running && run == Started(d.containerId)
            && after.deployments - {id} == b.deployments - {id}
            && after.usedCPU == Wrap(b.usedCPU + req.cpuMillicores)
            && after.usedMemory == Wrap(b.usedMemory + req.memoryBytes)
  {
    WrapStep(b.usedCPU, req.cpuMillicores);
    WrapStep(b.usedMemory, req.memoryBytes);
    var after := Schedule(cfg, b, req, id, pullOk, run).0;
    assert after.deployments - {id} == b.deployments - {id};
  }

  /** `Stop` finds exactly what is on record; it takes that off with its charge, and otherwise changes nothing. */
  lemma StopAnswers(b: Books, id: string)
    ensures Stop(b, id).1 <==> id in b.deployments
    ensures Stop(b, id).0.deployments == b.deployments - {id}
    ensures id !in b.deployments ==> Stop(b, id).0 == b
    ensures id in b.deployments ==>
              && Stop(b, id).0.usedCPU == Wrap(b.usedCPU - b.deployments[id].cpuLimit)
              && Stop(b, id).0.usedMemory == Wrap(b.usedMemory - b.deployments[id].memoryLimit)
  {
    if id in b.deployments {
      var d := b.deployments[id];
      WrapStep(b.usedCPU, d.cpuLimit);
      WrapStep(b.usedMemory, d.memoryLimit);
    }
    assert Stop(b, id).0.deployments == b.deployments - {id};
  }

  // ---------- any list of completed calls ----------

  /** IDs are fresh, and a request added to a full budget does not wrap. Sizes may be zero or negative. */
  predicate Sane(cfg: Config, b: Books, c: Call) {
    c.DoSchedule? ==>
      && c.id !in b.deployments
      && Max(0, cfg.maxCPU) + c.req.cpuMillicores < TWO_63
      && Max(0, cfg.maxMemory) + c.req.memoryBytes < TWO_63
  }

  function Perform(cfg: Config, b: Books, c: Call): Books {
    match c
    case DoSchedule(req, id, pullOk, run) => Schedule(cfg, b, req, id, pullOk, run).0
    case DoStop(id) => Stop(b, id).0
  }

  ghost function Calling(cfg: Config): Machine<Books, Call> {
    Machine((b, c) => Sane(cfg, b, c), (b, c) => Perform(cfg, b, c))
  }

  ghost predicate InBudget(cfg: Config, b: Books) {
    && Filed(b)
    && (forall id :: id in b.deployments ==>
          0 < b.deployments[id].cpuLimit && MIN_MEMORY <= b.deployments[id].memoryLimit)
    && b.usedCPU == Sum(b.deployments, Cpu) && b.usedMemory == Sum(b.deployments, Memory)
    && b.usedCPU <= Max(0, cfg.maxCPU) && b.usedMemory <= Max(0, cfg.maxMemory)
    && |b.deployments| <= Max(0, cfg.maxSlots)
  }

  lemma TotalsPositive(cfg: Config, b: Books)
    requires InBudget(cfg, b)
    ensures |b.deployments| <= b.usedCPU && 0 <= b.usedMemory && MIN_MEMORY * |b.deployments| <= b.usedMemory
  {
    SumBounds(b.deployments, Memory, 0, TWO_63);
    SumBounds(b.deployments, Cpu, 1, TWO_63);
    SumBounds(b.deployments, Memory, MIN_MEMORY, TWO_63);
  }

  lemma AddKeepsBudget(cfg: Config, b: Books, d: Deployment, cpu: int64, memory: int64)
    requires InBudget(cfg, b) && d.id !in b.deployments
    requires cpu == d.cpuLimit && memory == d.memoryLimit && 0 < cpu && MIN_MEMORY <= memory
    requires CanSchedule(cfg, b, cpu, memory) == Admitted
    requires Max(0, cfg.maxCPU) + cpu < TWO_63 && Max(0, cfg.maxMemory) + memory < TWO_63
    ensures InBudget(cfg, Register(b, d))
  {
    TotalsPositive(cfg, b);
    SumInsert(b.deployments, d.id, d, Cpu);
    SumInsert(b.deployments, d.id, d, Memory);
  }

  lemma RemoveKeepsSum(m: map<string, Deployment>, id: string, f: Deployment -> int, lo: nat)
    requires id in m && forall k :: k in m ==> lo <= f(m[k]) < TWO_63
    ensures Sum(m - {id}, f) == Sum(m, f) - f(m[id]) && 0 <= Sum(m - {id}, f)
  {
    SumRemove(m, id, f);
    SumBounds(m - {id}, f, 0, TWO_63);
  }

  lemma StopKeepsBudget(cfg: Config, b: Books, id: string)
    requires InBudget(cfg, b)
    ensures InBudget(cfg, Stop(b, id).0)
  {
    if id in b.deployments {
      var rest := b.deployments - {id};
      RemoveKeepsSum(b.deployments, id, Cpu, 1);
      RemoveKeepsSum(b.deployments, id, Memory, MIN_MEMORY);
      assert |rest| <= |b.deployments| by {
        assert b.deployments == rest[id := b.deployments[id]];
      }
      ReleaseIs(b, id, rest);
    }
  }

  lemma ReleaseIs(b: Books, id: string, rest: map<string, Deployment>)
    requires id in b.deployments && rest == b.deployments - {id}
    requires 0 < b.deployments[id].cpuLimit <= b.usedCPU && 0 < b.deployments[id].memoryLimit <= b.usedMemory
    ensures var d := b.deployments[id];
            Stop(b, id).0 == Books(rest, b.usedCPU - d.cpuLimit, b.usedMemory - d.memoryLimit)
  {
    assert SetStatus(b, id, Stopping).deployments - {id} == rest;
  }

  lemma CallKeepsBudget(cfg: Config, b: Books, c: Call)
    requires InBudget(cfg, b) && Sane(cfg, b, c)
    ensures InBudget(cfg, Perform(cfg, b, c))
  {
    match c
    case DoSchedule(req, id, pullOk, run) =>
      if Schedule(cfg, b, req, id, pullOk, run).1.Scheduled? {
        SuccessfulScheduleAdds(cfg, b, req, id, pullOk, run);
        var d := NewDeployment(id, req).(status := Running, containerId := run.containerId);
        AddKeepsBudget(cfg, b, d, req.cpuMillicores, req.memoryBytes);
      } else {
        FailedScheduleRestores(cfg, b, req, id, pullOk, run);
      }
    case DoStop(id) => StopKeepsBudget(cfg, b, id);
  }

  lemma CallsInvariant(cfg: Config, cs: seq<Call>, b: Books)
    requires Runs(Calling(cfg), EMPTY, cs, b)
    ensures InBudget(cfg, b)
  {
    var inv := b => InBudget(cfg, b);
    forall b, c | inv(b) && Sane(cfg, b, c)
      ensures inv(Perform(cfg, b, c))
    {
      CallKeepsBudget(cfg, b, c);
    }
    Induction(Calling(cfg), inv, EMPTY, cs, b);
  }

  /**
   After any list of completed calls every deployment on record has positive CPU and at least 4 MiB, the totals
   are the sums and lie within the budget, and there are no more deployments than slots, millicores of CPU, or 4
   MiB units of memory.
   */
  lemma CallsStayInBudget(cfg: Config, cs: seq<Call>, b: Books)
    requires Runs(Calling(cfg), EMPTY, cs, b)
    ensures forall id :: id in b.deployments ==>
              b.deployments[id].id == id && 0 < b.deployments[id].cpuLimit &&
                MIN_MEMORY <= b.deployments[id].memoryLimit
    ensures b.usedCPU == Sum(b.deployments, Cpu) && b.usedMemory == Sum(b.deployments, Memory)
    ensures 0 <= b.usedCPU <= Max(0, cfg.maxCPU) && 0 <= b.usedMemory <= Max(0, cfg.maxMemory)
    ensures |b.deployments| <= Max(0, cfg.maxSlots) && |b.deployments| <= Max(0, cfg.maxCPU)
    ensures MIN_MEMORY * |b.deployments| <= Max(0, cfg.maxMemory)
  {
    CallsInvariant(cfg, cs, b);
    BudgetMeans(cfg, b);
  }

  lemma BudgetMeans(cfg: Config, b: Books)
    requires InBudget(cfg, b)
    ensures 0 <= b.usedCPU && 0 <= b.usedMemory && |b.deployments| <= Max(0, cfg.maxCPU)
    ensures MIN_MEMORY * |b.deployments| <= Max(0, cfg.maxMemory)
  {
    TotalsPositive(cfg, b);
  }

  /**
   A request that makes the CPU sum wrap is let in over the budget: on a provider with one millicore in use, 2^63
   - 1 more.
   */
  lemma WrappingRequestExceedsBudget(cfg: Config, b: Books, req: DeployRequest, id: string, c: string)
    requires InBudget(cfg, b) && |b.deployments| + 1 <= cfg.maxSlots && b.usedMemory + MIN_MEMORY <= cfg.maxMemory
    requires 1 <= b.usedCPU && req.cpuMillicores == TWO_63 - 1 && req.memoryBytes == MIN_MEMORY
    requires id !in b.deployments && id != "" && req.image != ""
    ensures Schedule(cfg, b, req, id, true, Started(c)).1 == Scheduled(c)
    ensures Schedule(cfg, b, req, id, true, Started(c)).0.usedCPU < 0
  {}

  // ---------- a completed call is one of the interleavings ----------

  ghost function Free(cfg: Config): Machine<Steps.State, Steps.Event> { Steps.Scheduling(cfg, Steps.Anything) }

  /** The events of one `Schedule` call with nothing in between. */
  function ScheduleEvents(call: nat, req: DeployRequest, id: string, pullOk: bool, run: RunAnswer): seq<Steps.Event> {
    [Steps.Check(call, req), Steps.Enter(call, id), Steps.MarkPulling(id)] + PullEvents(req, id, pullOk, run)
  }

  function PullEvents(req: DeployRequest, id: string, pullOk: bool, run: RunAnswer): seq<Steps.Event> {
    if !pullOk then [Steps.Pull(id, false), Steps.Fail(id)]
    else
      [Steps.Pull(id, true), Steps.MarkStarting(id)]
      + if !ValidConfig(id, req) || run.Refused? then [Steps.RunFailed(id), Steps.Fail(id)]
        else [Steps.RunOk(id, run.containerId), Steps.Finish(id)]
  }

  ghost predicate At(cfg: Config, s: Steps.State, es: seq<Steps.Event>, t: Steps.State, id: string, p: Steps.Phase) {
    Runs(Free(cfg), s, es, t) && id in t.phase && t.phase[id] == p
  }

  lemma Do(cfg: Config, s: Steps.State, es: seq<Steps.Event>, t: Steps.State, e: Steps.Event)
    returns (es': seq<Steps.Event>, t': Steps.State)
    requires Runs(Free(cfg), s, es, t) && Steps.Enabled(cfg, t, e)
    ensures Runs(Free(cfg), s, es', t') && es' == es + [e] && t' == Steps.Next(cfg, t, e)
  {
    assert Steps.Anything(t, e);
    Extend(Free(cfg), s, es, t, e);
    es', t' := es + [e], Steps.Next(cfg, t, e);
  }

  lemma UpToPull(cfg: Config, s: Steps.State, call: nat, req: DeployRequest, id: string)
    returns (es: seq<Steps.Event>, t: Steps.State)
    requires call !in s.checked && id !in s.phase
    requires CanSchedule(cfg, s.books, req.cpuMillicores, req.memoryBytes) == Admitted
    ensures es == [Steps.Check(call, req), Steps.Enter(call, id), Steps.MarkPulling(id)]
    ensures At(cfg, s, es, t, id, Steps.Pulls(req))
    ensures t.books == SetStatus(Register(s.books, NewDeployment(id, req)), id, Pulling)
  {
    es, t := Do(cfg, s, [], s, Steps.Check(call, req));
    es, t := Do(cfg, s, es, t, Steps.Enter(call, id));
    es, t := Do(cfg, s, es, t, Steps.MarkPulling(id));
  }

  /**
   The run-to-completion scheduler is the concurrent one on a particular schedule: from any state, the regions of
   one admitted call, with nothing in between, change the books exactly as `Schedule` says.
   */
  lemma ScheduleIsARun(cfg: Config, s: Steps.State, call: nat, req: DeployRequest, id: string,
                       pullOk: bool, run: RunAnswer)
    returns (t: Steps.State)
    requires call !in s.checked && id !in s.phase
    requires CanSchedule(cfg, s.books, req.cpuMillicores, req.memoryBytes) == Admitted
    ensures Runs(Free(cfg), s, ScheduleEvents(call, req, id, pullOk, run), t)
    ensures t.books == Schedule(cfg, s.books, req, id, pullOk, run).0
  {
    var es, u := UpToPull(cfg, s, call, req, id);
    es, t := AfterPulling(cfg, s, es, u, req, id, pullOk, run);
    assert Launch(Register(s.books, NewDeployment(id, req)), req, id, pullOk, run).0 == t.books;
  }

  lemma AfterPulling(cfg: Config, s: Steps.State, es: seq<Steps.Event>, u: Steps.State,
                     req: DeployRequest, id: string, pullOk: bool, run: RunAnswer)
    returns (es': seq<Steps.Event>, t: Steps.State)
    requires At(cfg, s, es, u, id, Steps.Pulls(req))
    ensures Runs(Free(cfg), s, es', t) && es' == es + PullEvents(req, id, pullOk, run)
    ensures t.books == if !pullOk then Release(u.books, id)
                       else
                         var starting := SetStatus(u.books, id, Starting);
                         if !ValidConfig(id, req) || run.Refused? then Release(starting, id)
                         else Finalise(starting, id, run.containerId)
  {
    es', t := Do(cfg, s, es, u, Steps.Pull(id, pullOk));
    if !pullOk {
      es', t := Do(cfg, s, es', t, Steps.Fail(id));
    } else {
      es', t := Do(cfg, s, es', t, Steps.MarkStarting(id));
      es', t := AfterStarting(cfg, s, es', t, req, id, run);
    }
  }

  lemma AfterStarting(cfg: Config, s: Steps.State, es: seq<Steps.Event>, u: Steps.State,
                      req: DeployRequest, id: string, run: RunAnswer)
    returns (es': seq<Steps.Event>, t: Steps.State)
    requires At(cfg, s, es, u, id, Steps.Starts(req))
    ensures Runs(Free(cfg), s, es', t)
    ensures !ValidConfig(id, req) || run.Refused? ==>
              es' == es + [Steps.RunFailed(id), Steps.Fail(id)] && t.books == Release(u.books, id)
    ensures ValidConfig(id, req) && run.Started? ==>
              && es' == es + [Steps.RunOk(id, run.containerId), Steps.Finish(id)]
              && t.books == Finalise(u.books, id, run.containerId)
  {
    if !ValidConfig(id, req) || run.Refused? {
      es', t := Do(cfg, s, es, u, Steps.RunFailed(id));
      es', t := Do(cfg, s, es', t, Steps.Fail(id));
    } else {
      es', t := Do(cfg, s, es, u, Steps.RunOk(id, run.containerId));
      es', t := Do(cfg, s, es', t, Steps.Finish(id));
    }
  }

  function StopEvents(stop: nat, id: string): seq<Steps.Event> {
    [Steps.StopMark(stop, id), Steps.StopRead(stop), Steps.StopDocker(stop, true), Steps.StopRelease(stop)]
  }

  lemma StopIsARun(cfg: Config, s: Steps.State, stop: nat, id: string) returns (t: Steps.State)
    requires stop !in s.stops && id in s.books.deployments
    ensures Runs(Free(cfg), s, StopEvents(stop, id), t)
    ensures t.books == Stop(s.books, id).0
  {
    var es, u := Do(cfg, s, [], s, Steps.StopMark(stop, id));
    es, u := Do(cfg, s, es, u, Steps.StopRead(stop));
    es, u := Do(cfg, s, es, u, Steps.StopDocker(stop, true));
    es, t := Do(cfg, s, es, u, Steps.StopRelease(stop));
    assert es == StopEvents(stop, id);
  }
}
