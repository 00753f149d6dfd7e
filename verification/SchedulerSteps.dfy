/**
 The provider scheduler under concurrency. Any number of `Schedule` and `Stop` calls are in flight; one event is
 one region between a lock and its unlock, one unlocked read, or one docker command. What docker answers, which ID
 the clock yields and who moves next are chosen by the event.
 */
module SchedulerSteps {
  import opened Protocol
  import opened Accounting
  import opened Machines

  /** Where the `Schedule` call that registered a deployment stands. */
  datatype Phase =
    | Entered(req: DeployRequest)      // registered; the write of `pulling` is next
    | Pulls(req: DeployRequest)        // `docker pull` is next
    | HasPulled(req: DeployRequest)    // the write of `starting` is next
    | Starts(req: DeployRequest)       // `docker run` is next
    | Ran(containerId: string)         // `docker run` answered; the last region is next
    | Failing                          // `failDeployment` is next
    | Returned(containerId: string)
    | ReturnedError

  /** Where a `Stop` call stands. It holds on to the record it found, even once the map has lost it. */
  datatype StopPhase =
    | Marked(id: string)                           // the unlocked read of the container ID is next
    | HasRead(id: string, containerId: string)     // `docker stop` and `docker rm` are next
    | Removed(id: string, containerId: string)     // the release is next

  datatype State = State(
    books: Books,
    gone: map<string, Deployment>,         // records deleted from the map, still reachable by pointer
    checked: map<nat, DeployRequest>,      // calls that passed `CanSchedule` and have not registered
    phase: map<string, Phase>,             // by deployment ID; its keys are the IDs issued so far
    stops: map<nat, StopPhase>,
    live: set<string>,                     // containers docker holds
    made: map<string, string>,             // history: every container ID docker returned, and for which deployment
    released: seq<string>,                 // history: deployment IDs in order of release
    early: set<string>)                    // history: IDs released by a `Stop` that read no container ID

  const INIT: State := State(EMPTY, map[], map[], map[], map[], {}, map[], [], {})

  datatype Event =
    | Check(call: nat, req: DeployRequest)
    | Enter(call: nat, id: string)
    | MarkPulling(id: string)
    | Pull(id: string, ok: bool)
    | MarkStarting(id: string)
    | RunOk(id: string, containerId: string)
    | RunFailed(id: string)
    | Finish(id: string)
    | Fail(id: string)
    | StopMark(stop: nat, id: string)
    | StopRead(stop: nat)
    | StopDocker(stop: nat, effective: bool)
    | StopRelease(stop: nat)

  /** A record, whether or not the map still has it. */
  function RecordOf(s: State, id: string): Deployment
    requires id in s.books.deployments || id in s.gone
  {
    if id in s.books.deployments then s.books.deployments[id] else s.gone[id]
  }

  /** A rejected check and a `Stop` that finds nothing return at once and change nothing: no event. */
  predicate Enabled(cfg: Config, s: State, e: Event) {
    match e
    case Check(call, req) =>
      call !in s.checked && CanSchedule(cfg, s.books, req.cpuMillicores, req.memoryBytes) == Admitted
    case Enter(call, id) => call in s.checked && id !in s.phase
    case MarkPulling(id) => id in s.phase && s.phase[id].Entered?
    case Pull(id, _) => id in s.phase && s.phase[id].Pulls?
    case MarkStarting(id) => id in s.phase && s.phase[id].HasPulled?
    case RunOk(id, _) => id in s.phase && s.phase[id].Starts? && ValidConfig(id, s.phase[id].req)
    case RunFailed(id) => id in s.phase && s.phase[id].Starts?
    case Finish(id) => id in s.phase && s.phase[id].Ran?
    case Fail(id) => id in s.phase && s.phase[id].Failing?
    case StopMark(stop, id) => stop !in s.stops && id in s.books.deployments
    case StopRead(stop) =>
      stop in s.stops && s.stops[stop].Marked? &&
      (s.stops[stop].id in s.books.deployments || s.stops[stop].id in s.gone)
    case StopDocker(stop, _) => stop in s.stops && s.stops[stop].HasRead?
    case StopRelease(stop) => stop in s.stops && s.stops[stop].Removed?
  }

  /** Delete a record if it is still there; its last status stays visible to those who hold it. */
  function Retire(s: State, id: string, status: Status): State {
    if id in s.books.deployments then
      s.(books := Release(s.books, id),
         gone := s.gone[id := s.books.deployments[id].(status := status)],
         released := s.released + [id])
    else s
  }

  function Next(cfg: Config, s: State, e: Event): State
    requires Enabled(cfg, s, e)
  {
    match e
    case Check(call, req) => s.(checked := s.checked[call := req])
    case Enter(call, id) =>
      s.(books := Register(s.books, NewDeployment(id, s.checked[call])),
         checked := s.checked - {call},
         phase := s.phase[id := Entered(s.checked[call])])
    case MarkPulling(id) =>
      s.(books := SetStatus(s.books, id, Pulling), phase := s.phase[id := Pulls(s.phase[id].req)])
    case Pull(id, ok) =>
      s.(phase := s.phase[id := if ok then HasPulled(s.phase[id].req) else Failing])
    case MarkStarting(id) =>
      s.(books := SetStatus(s.books, id, Starting), phase := s.phase[id := Starts(s.phase[id].req)])
    case RunOk(id, c) =>
      s.(live := s.live + {c}, made := s.made[c := id], phase := s.phase[id := Ran(c)])
    case RunFailed(id) => s.(phase := s.phase[id := Failing])
    case Finish(id) =>
      s.(books := Finalise(s.books, id, s.phase[id].containerId),
         phase := s.phase[id := Returned(s.phase[id].containerId)])
    case Fail(id) => Retire(s, id, Failed).(phase := s.phase[id := ReturnedError])
    case StopMark(stop, id) =>
      s.(books := SetStatus(s.books, id, Stopping), stops := s.stops[stop := Marked(id)])
    case StopRead(stop) =>
      var id := s.stops[stop].id;
      s.(stops := s.stops[stop := HasRead(id, RecordOf(s, id).containerId)])
    case StopDocker(stop, effective) =>
      var HasRead(id, c) := s.stops[stop];
      s.(live := if c != "" && effective then s.live - {c} else s.live,
         stops := s.stops[stop := Removed(id, c)])
    case StopRelease(stop) =>
      var Removed(id, c) := s.stops[stop];
      Retire(s, id, Stopped).(
        stops := s.stops - {stop},
        early := if c == "" && id in s.books.deployments then s.early + {id} else s.early)
  }

  /** The scheduler in an environment of which `env` is assumed at every step. */
  ghost function Scheduling(cfg: Config, env: (State, Event) -> bool): Machine<State, Event> {
    Machine((s, e) => Enabled(cfg, s, e) && env(s, e),
            (s, e) => if Enabled(cfg, s, e) then Next(cfg, s, e) else s)
  }

  /** No assumption. */
  predicate Anything(s: State, e: Event) { true }
}

/** What every interleaving keeps: the totals, one release per deployment, and status against container ID. */
module SchedulerSafety {
  import opened MachineInt
  import opened MapSums
  import opened Protocol
  import opened Accounting
  import opened Machines
  import opened SchedulerSteps

  /**
   What a registered record shows while its `Schedule` call is in phase `p`: the status its call has last written,
   unless a `Stop` has overwritten that.
   */
  predicate ShowsPhase(d: Deployment, p: Phase) {
    match p
    case Entered(_) => d.containerId == "" && d.status in {Pending, Stopping}
    case Pulls(_) => d.containerId == "" && d.status in {Pulling, Stopping}
    case HasPulled(_) => d.containerId == "" && d.status in {Pulling, Stopping}
    case Starts(_) => d.containerId == "" && d.status in {Starting, Stopping}
    case Ran(_) => d.containerId == "" && d.status in {Starting, Stopping}
    case Failing => d.containerId == "" && d.status in {Pulling, Starting, Stopping}
    case Returned(c) => d.containerId == c && d.status in {Running, Stopping}
    case ReturnedError => false
  }

  /**
   What every state says about one ID: if it was issued, its record is on the map or was released from it, exactly
   once; the record shows where its call stands; a lost record keeps its container ID.
   */
  ghost predicate Fits(s: State, id: string) {
    && !(id in s.books.deployments && id in s.gone)
    && (id in s.phase <==> id in s.books.deployments || id in s.gone)
    && (id in s.books.deployments ==> ShowsPhase(s.books.deployments[id], s.phase[id]))
    && (id in s.gone ==> (s.gone[id].containerId == "" || s.phase[id] == Returned(s.gone[id].containerId)))
    && multiset(s.released)[id] == if id in s.gone then 1 else 0
  }

  ghost predicate Balanced(b: Books) { Conserved(b) && Filed(b) }

  ghost predicate Inv(s: State) {
    Balanced(s.books) && forall id :: Fits(s, id)
  }

  lemma StepBalanced(cfg: Config, s: State, e: Event)
    requires Balanced(s.books) && Enabled(cfg, s, e)
    requires forall id :: Fits(s, id)
    ensures Balanced(Next(cfg, s, e).books)
  {
    match e
    case Enter(call, id) =>
      assert Fits(s, id);
      RegisterConserves(s.books, NewDeployment(id, s.checked[call]));
    case MarkPulling(id) => StatusBalanced(s.books, id, Pulling);
    case MarkStarting(id) => StatusBalanced(s.books, id, Starting);
    case StopMark(_, id) => StatusBalanced(s.books, id, Stopping);
    case Finish(id) =>
      if id in s.books.deployments {
        RewriteConserves(s.books, id,
          s.books.deployments[id].(containerId := s.phase[id].containerId, status := Running));
      }
    case Fail(id) => ReleaseConserves(s.books, id);
    case StopRelease(stop) => ReleaseConserves(s.books, s.stops[stop].id);
    case _ =>
  }

  lemma StatusBalanced(b: Books, id: string, status: Status)
    requires Balanced(b)
    ensures Balanced(SetStatus(b, id, status))
  {
    if id in b.deployments {
      RewriteConserves(b, id, b.deployments[id].(status := status));
    }
  }

  lemma StepFits(cfg: Config, s: State, e: Event, id: string)
    requires Fits(s, id) && Enabled(cfg, s, e)
    ensures Fits(Next(cfg, s, e), id)
  {
    match e
    case Fail(i) => FailFits(cfg, s, i, id);
    case StopRelease(k) => ReleaseFits(cfg, s, k, id);
    case _ => OtherFits(cfg, s, e, id);
  }

  lemma FailFits(cfg: Config, s: State, i: string, id: string)
    requires Fits(s, id) && Enabled(cfg, s, Fail(i))
    ensures Fits(Next(cfg, s, Fail(i)), id)
  {}

  lemma ReleaseFits(cfg: Config, s: State, k: nat, id: string)
    requires Fits(s, id) && Enabled(cfg, s, StopRelease(k))
    ensures Fits(Next(cfg, s, StopRelease(k)), id)
  {}

  lemma OtherFits(cfg: Config, s: State, e: Event, id: string)
    requires Fits(s, id) && Enabled(cfg, s, e) && !e.Fail? && !e.StopRelease?
    ensures Fits(Next(cfg, s, e), id)
  {}

  lemma StepInv(cfg: Config, s: State, e: Event)
    requires Inv(s) && Enabled(cfg, s, e)
    ensures Inv(Next(cfg, s, e))
  {
    assert forall id :: Fits(s, id);
    StepBalanced(cfg, s, e);
    forall id {
      StepFits(cfg, s, e, id);
    }
  }

  lemma StepsKeep(cfg: Config, env: (State, Event) -> bool)
    ensures Keeps(Scheduling(cfg, env), Inv)
  {
    forall s, e | Inv(s) && Enabled(cfg, s, e)
      ensures Inv(Next(cfg, s, e))
    {
      StepInv(cfg, s, e);
    }
  }

  lemma Invariant(cfg: Config, env: (State, Event) -> bool, es: seq<Event>, t: State)
    requires Runs(Scheduling(cfg, env), INIT, es, t)
    ensures Inv(t)
  {
    assert INIT.released == [];
    StepsKeep(cfg, env);
    Induction(Scheduling(cfg, env), Inv, INIT, es, t);
  }

  /**
   Conservation and exactly-once release, in every interleaving. The totals are the sums over the map modulo 2^64,
   and the sums themselves whenever these fit an `int64`. Every ID ever registered is either still on the map and
   never released, or off the map and released exactly once.
   */
  lemma Conservation(cfg: Config, es: seq<Event>, t: State)
    requires Runs(Scheduling(cfg, Anything), INIT, es, t)
    ensures Conserved(t.books) && Filed(t.books)
    ensures -TWO_63 <= Sum(t.books.deployments, Cpu) < TWO_63 ==> t.books.usedCPU == Sum(t.books.deployments, Cpu)
    ensures -TWO_63 <= Sum(t.books.deployments, Memory) < TWO_63 ==>
              t.books.usedMemory == Sum(t.books.deployments, Memory)
    ensures t.books.deployments.Keys <= t.phase.Keys
    ensures forall id :: multiset(t.released)[id] == if id in t.phase && id !in t.books.deployments then 1 else 0
  {
    Invariant(cfg, Anything, es, t);
    forall id
      ensures multiset(t.released)[id] == if id in t.phase && id !in t.books.deployments then 1 else 0
      ensures id in t.books.deployments ==> id in t.phase
    {
      assert Fits(t, id);
    }
  }

  /**
   Status against container ID, in every interleaving and although a `Stop` may overlap any phase. A record on the
   map is running or stopping once its call has returned, with the ID docker gave that call; before, it has no ID
   and is not running.
   */
  lemma StatusAgreesWithContainer(cfg: Config, es: seq<Event>, t: State, id: string)
    requires Runs(Scheduling(cfg, Anything), INIT, es, t) && id in t.books.deployments
    ensures id in t.phase
    ensures var d := t.books.deployments[id];
            && (d.status == Running ==> t.phase[id] == Returned(d.containerId))
            && (d.containerId != "" ==> t.phase[id] == Returned(d.containerId))
            && (t.phase[id].Returned? ==> d.status == Running || d.status == Stopping)
            && d.status != Stopped && d.status != Failed
  {
    Invariant(cfg, Anything, es, t);
    assert Fits(t, id);
  }

  /** A record that shows `stopping` is in the hands of some `Stop`. */
  ghost predicate StoppingFits(s: State, id: string) {
    id in s.books.deployments && s.books.deployments[id].status == Stopping ==>
      exists k :: k in s.stops && s.stops[k].id == id
  }

  lemma StepStoppingFits(cfg: Config, s: State, e: Event, id: string)
    requires StoppingFits(s, id) && Enabled(cfg, s, e)
    ensures StoppingFits(Next(cfg, s, e), id)
  {
    var t := Next(cfg, s, e);
    if e.StopMark? {
      assert t.stops[e.stop].id == e.id;
    }
    if k :| k in s.stops && s.stops[k].id == id {
      StopGoesWithRecord(cfg, s, e, k);
    }
  }

  /** A `Stop` that ends leaves no record of its deployment. */
  lemma StopGoesWithRecord(cfg: Config, s: State, e: Event, k: nat)
    requires Enabled(cfg, s, e) && k in s.stops
    ensures var t := Next(cfg, s, e);
            (k in t.stops && t.stops[k].id == s.stops[k].id) || s.stops[k].id !in t.books.deployments
  {}

  ghost predicate AllStoppingFit(s: State) { forall id :: StoppingFits(s, id) }

  /**
   What a caller sees of a deployment on record, in every interleaving: the status of the phase its `Schedule` call is
   in, or that it is being stopped, and then some `Stop` has found it and not yet released it.
   */
  lemma StatusShowsPhase(cfg: Config, es: seq<Event>, t: State, id: string)
    requires Runs(Scheduling(cfg, Anything), INIT, es, t) && id in t.books.deployments
    ensures id in t.phase
    ensures var status := t.books.deployments[id].status;
            || (status == Stopping && exists k :: k in t.stops && t.stops[k].id == id)
            || match t.phase[id]
               case Entered(_) => status == Pending
               case Pulls(_) => status == Pulling
               case HasPulled(_) => status == Pulling
               case Starts(_) => status == Starting
               case Ran(_) => status == Starting
               case Failing => status == Pulling || status == Starting
               case Returned(_) => status == Running
               case ReturnedError => false
  {
    Invariant(cfg, Anything, es, t);
    forall s, e | AllStoppingFit(s) && Enabled(cfg, s, e)
      ensures AllStoppingFit(Next(cfg, s, e))
    {
      forall id
        ensures StoppingFits(Next(cfg, s, e), id)
      {
        assert StoppingFits(s, id);
        StepStoppingFits(cfg, s, e, id);
      }
    }
    Induction(Scheduling(cfg, Anything), AllStoppingFit, INIT, es, t);
    assert Fits(t, id) && StoppingFits(t, id);
  }

  /** A container ID that a `Stop` call has read is that of the finished `Schedule` call. */
  ghost predicate HasReadFits(s: State, k: nat) {
    k in s.stops && !s.stops[k].Marked? && s.stops[k].containerId != "" ==>
      s.stops[k].id in s.phase && s.phase[s.stops[k].id] == Returned(s.stops[k].containerId)
  }

  lemma StepHasReadFits(cfg: Config, s: State, e: Event, k: nat)
    requires HasReadFits(s, k) && Enabled(cfg, s, e)
    requires k in s.stops ==> Fits(s, s.stops[k].id)
    ensures HasReadFits(Next(cfg, s, e), k)
  {}

  /** A `Stop` in flight has found a record under an issued ID. */
  ghost predicate StopsIssued(s: State) {
    && (forall id :: id in s.books.deployments ==> id in s.phase)
    && (forall k :: k in s.stops ==> s.stops[k].id in s.phase)
  }

  lemma StepStopsIssued(cfg: Config, s: State, e: Event)
    requires StopsIssued(s) && Enabled(cfg, s, e)
    ensures StopsIssued(Next(cfg, s, e))
  {}

  lemma StopsAreIssued(cfg: Config, es: seq<Event>, t: State)
    requires Runs(Scheduling(cfg, Anything), INIT, es, t)
    ensures StopsIssued(t)
  {
    forall s, e | StopsIssued(s) && Enabled(cfg, s, e)
      ensures StopsIssued(Next(cfg, s, e))
    {
      StepStopsIssued(cfg, s, e);
    }
    Induction(Scheduling(cfg, Anything), StopsIssued, INIT, es, t);
  }

  /**
   No `Schedule` call waits for another call. In every state, one begins as soon as its request is admitted, and what it
   is about to do it can do at once, whatever docker answers; docker runs exactly what has an ID, an image, some CPU and
   at least 4 MiB.
   */
  lemma ScheduleCanProceed(cfg: Config, t: State, id: string, k: nat, req: DeployRequest, c: string, ok: bool)
    ensures k !in t.checked ==>
              (Enabled(cfg, t, Check(k, req)) <==>
               CanSchedule(cfg, t.books, req.cpuMillicores, req.memoryBytes) == Admitted)
    ensures k in t.checked && id !in t.phase ==> Enabled(cfg, t, Enter(k, id))
    ensures id in t.phase ==>
              match t.phase[id]
              case Entered(_) => Enabled(cfg, t, MarkPulling(id))
              case Pulls(_) => Enabled(cfg, t, Pull(id, ok))
              case HasPulled(_) => Enabled(cfg, t, MarkStarting(id))
              case Starts(r) =>
                && Enabled(cfg, t, RunFailed(id))
                && (Enabled(cfg, t, RunOk(id, c)) <==>
                    id != "" && r.image != "" && 0 < r.cpuMillicores && 4194304 <= r.memoryBytes)
              case Ran(_) => Enabled(cfg, t, Finish(id))
              case Failing => Enabled(cfg, t, Fail(id))
              case _ => true
  {}

  /** Nor does any `Stop`: in every reachable state one can begin for every record there is, and go on to its end. */
  lemma StopCanProceed(cfg: Config, es: seq<Event>, t: State, id: string, k: nat, ok: bool)
    requires Runs(Scheduling(cfg, Anything), INIT, es, t)
    ensures k !in t.stops ==> (Enabled(cfg, t, StopMark(k, id)) <==> id in t.books.deployments)
    ensures k in t.stops ==>
              match t.stops[k]
              case Marked(_) => Enabled(cfg, t, StopRead(k))
              case HasRead(_, _) => Enabled(cfg, t, StopDocker(k, ok))
              case Removed(_, _) => Enabled(cfg, t, StopRelease(k))
  {
    StopsAreIssued(cfg, es, t);
    Invariant(cfg, Anything, es, t);
    if k in t.stops {
      assert Fits(t, t.stops[k].id);
    }
  }

  /** Docker never answers `docker run` with an empty ID. */
  predicate NamesContainers(s: State, e: Event) { e.RunOk? ==> e.containerId != "" }

  ghost predicate Named(s: State) {
    forall id :: id in s.phase && (s.phase[id].Ran? || s.phase[id].Returned?) ==> s.phase[id].containerId != ""
  }

  lemma StepsKeepNamed(cfg: Config, env: (State, Event) -> bool)
    requires forall s, e :: env(s, e) ==> NamesContainers(s, e)
    ensures Keeps(Scheduling(cfg, env), Named)
  {
    forall s, e | Named(s) && Enabled(cfg, s, e) && env(s, e)
      ensures Named(Next(cfg, s, e))
    {
      assert NamesContainers(s, e);
    }
  }

  /** With a docker that names its containers, running means having a container ID. */
  lemma RunningHasContainer(cfg: Config, es: seq<Event>, t: State, id: string)
    requires Runs(Scheduling(cfg, NamesContainers), INIT, es, t) && id in t.books.deployments
    ensures t.books.deployments[id].status == Running ==> t.books.deployments[id].containerId != ""
    ensures t.books.deployments[id].containerId != "" ==>
              t.books.deployments[id].status == Running || t.books.deployments[id].status == Stopping
  {
    Invariant(cfg, NamesContainers, es, t);
    assert Fits(t, id);
    StepsKeepNamed(cfg, NamesContainers);
    Induction(Scheduling(cfg, NamesContainers), Named, INIT, es, t);
  }
}
