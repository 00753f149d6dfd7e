/**
 Requests of negative size. `CanSchedule` does not look at the sign; `docker run` is refused later, but until then the
 charge is negative and makes room for others.
 */
module NegativeRequests {
  import opened MachineInt
  import opened Protocol
  import opened Accounting
  import opened Machines
  import opened SchedulerSteps
  import Bound = AdmissionBound

  /** One call at a time between check and register; it asks for `r`, or for CPU in [0, c] and memory in [0, m]. */
  predicate Asks(r: DeployRequest, c: nat, m: nat, s: State, e: Event) {
    e.Check? ==>
      |s.checked| < 1 && (e.req == r || (0 <= e.req.cpuMillicores <= c && 0 <= e.req.memoryBytes <= m))
  }

  ghost function Asking(cfg: Config, r: DeployRequest, c: nat, m: nat): Machine<State, Event> {
    Scheduling(cfg, (s, e) => Asks(r, c, m, s, e))
  }

  /** A run that ends in `s`. */
  ghost predicate Reached(cfg: Config, r: DeployRequest, c: nat, m: nat, es: seq<Event>, s: State) {
    Runs(Asking(cfg, r, c, m), INIT, es, s)
  }

  lemma Do(cfg: Config, r: DeployRequest, c: nat, m: nat, es: seq<Event>, s: State, e: Event)
    returns (es': seq<Event>, t: State)
    requires Reached(cfg, r, c, m, es, s) && Enabled(cfg, s, e) && Asks(r, c, m, s, e)
    ensures Reached(cfg, r, c, m, es', t) && t == Next(cfg, s, e)
  {
    Extend(Asking(cfg, r, c, m), INIT, es, s, e);
    es', t := es + [e], Next(cfg, s, e);
  }

  /** One call checks and registers with no other in the gap. */
  lemma EnterAlone(cfg: Config, r: DeployRequest, c: nat, m: nat, es: seq<Event>, s: State,
                   q: DeployRequest, id: string)
    returns (es': seq<Event>, t: State)
    requires Reached(cfg, r, c, m, es, s) && s.checked == map[] && id !in s.phase
    requires CanSchedule(cfg, s.books, q.cpuMillicores, q.memoryBytes) == Admitted
    requires q == r || (0 <= q.cpuMillicores <= c && 0 <= q.memoryBytes <= m)
    ensures Reached(cfg, r, c, m, es', t) && t.checked == map[]
    ensures t.books == Register(s.books, NewDeployment(id, q)) && t.phase == s.phase[id := Entered(q)]
  {
    es', t := Do(cfg, r, c, m, es, s, Check(0, q));
    es', t := Do(cfg, r, c, m, es', t, Enter(0, id));
    assert t.checked == map[];
  }

  /** The call for `id` goes on to `docker run`, is refused there and gives back its charge. */
  lemma RefusedAndReleased(cfg: Config, r: DeployRequest, c: nat, m: nat, es: seq<Event>, s: State, id: string)
    returns (es': seq<Event>, t: State)
    requires Reached(cfg, r, c, m, es, s) && id in s.phase && s.phase[id].Entered? && id in s.books.deployments
    ensures Reached(cfg, r, c, m, es', t)
    ensures t.books.usedCPU == Sub(s.books.usedCPU, s.books.deployments[id].cpuLimit)
    ensures t.books.usedMemory == Sub(s.books.usedMemory, s.books.deployments[id].memoryLimit)
  {
    es', t := ToStart(cfg, r, c, m, es, s, id);
    es', t := Do(cfg, r, c, m, es', t, RunFailed(id));
    es', t := Do(cfg, r, c, m, es', t, Fail(id));
  }

  lemma ToStart(cfg: Config, r: DeployRequest, c: nat, m: nat, es: seq<Event>, s: State, id: string)
    returns (es': seq<Event>, t: State)
    requires Reached(cfg, r, c, m, es, s) && id in s.phase && s.phase[id].Entered? && id in s.books.deployments
    ensures Reached(cfg, r, c, m, es', t) && id in t.phase && t.phase[id].Starts? && id in t.books.deployments
    ensures t.books.usedCPU == s.books.usedCPU && t.books.usedMemory == s.books.usedMemory
    ensures t.books.deployments[id].cpuLimit == s.books.deployments[id].cpuLimit
    ensures t.books.deployments[id].memoryLimit == s.books.deployments[id].memoryLimit
  {
    es', t := Do(cfg, r, c, m, es, s, MarkPulling(id));
    es', t := Do(cfg, r, c, m, es', t, Pull(id, true));
    es', t := Do(cfg, r, c, m, es', t, MarkStarting(id));
  }

  /** `r` enters, `q` enters in the room that `r` makes, `r` fails: what is left is the charge of `q`. */
  lemma OnlyLaterCharge(cfg: Config, r: DeployRequest, c: nat, m: nat, q: DeployRequest)
    returns (es: seq<Event>, t: State)
    requires cfg.maxSlots >= 2 && CanSchedule(cfg, EMPTY, r.cpuMillicores, r.memoryBytes) == Admitted
    requires 0 <= q.cpuMillicores <= c && 0 <= q.memoryBytes <= m
    requires r.cpuMillicores + q.cpuMillicores <= cfg.maxCPU && r.memoryBytes + q.memoryBytes <= cfg.maxMemory
    ensures Reached(cfg, r, c, m, es, t)
    ensures t.books.usedCPU == q.cpuMillicores && t.books.usedMemory == q.memoryBytes
  {
    es, t := EnterAlone(cfg, r, c, m, [], INIT, r, "a");
    var books := t.books;
    assert books == Books(map["a" := NewDeployment("a", r)], r.cpuMillicores, r.memoryBytes);
    es, t := EnterAlone(cfg, r, c, m, es, t, q, "b");
    assert t.books.deployments["a"] == NewDeployment("a", r);
    es, t := RefusedAndReleased(cfg, r, c, m, es, t, "a");
  }

  function Request(cpu: int64, memory: int64): DeployRequest { DeployRequest("", "", cpu, memory, 0, "", 0) }

  /** For every request of negative CPU that `CanSchedule` admits, some run exceeds the CPU budget by as much. */
  lemma NegativeCpuExceedsBudget(cfg: Config, r: DeployRequest, c: nat, m: nat) returns (es: seq<Event>, t: State)
    requires cfg.maxSlots >= 2 && 0 <= cfg.maxCPU
    requires CanSchedule(cfg, EMPTY, r.cpuMillicores, r.memoryBytes) == Admitted && r.cpuMillicores < 0
    requires cfg.maxCPU - r.cpuMillicores <= c && cfg.maxCPU - r.cpuMillicores < TWO_63
    ensures Reached(cfg, r, c, m, es, t) && t.books.usedCPU == cfg.maxCPU - r.cpuMillicores
  {
    es, t := OnlyLaterCharge(cfg, r, c, m, Request(cfg.maxCPU - r.cpuMillicores, 0));
  }

  /** And memory likewise. */
  lemma NegativeMemoryExceedsBudget(cfg: Config, r: DeployRequest, c: nat, m: nat) returns (es: seq<Event>, t: State)
    requires cfg.maxSlots >= 2 && 0 <= cfg.maxMemory
    requires CanSchedule(cfg, EMPTY, r.cpuMillicores, r.memoryBytes) == Admitted && r.memoryBytes < 0
    requires cfg.maxMemory - r.memoryBytes <= m && cfg.maxMemory - r.memoryBytes < TWO_63
    ensures Reached(cfg, r, c, m, es, t) && t.books.usedMemory == cfg.maxMemory - r.memoryBytes
  {
    es, t := OnlyLaterCharge(cfg, r, c, m, Request(0, cfg.maxMemory - r.memoryBytes));
  }

  predicate InBudgets(cfg: Config, s: State) {
    s.books.usedCPU <= cfg.maxCPU && s.books.usedMemory <= cfg.maxMemory
  }

  lemma NegativeExceeds(cfg: Config, r: DeployRequest, c: nat, m: nat) returns (es: seq<Event>, t: State)
    requires cfg.maxSlots >= 2 && 0 <= cfg.maxCPU && 0 <= cfg.maxMemory && Bound.FitsInt64(cfg, 1, c, m)
    requires CanSchedule(cfg, EMPTY, r.cpuMillicores, r.memoryBytes) == Admitted
    requires cfg.maxCPU - r.cpuMillicores <= c && cfg.maxMemory - r.memoryBytes <= m
    requires r.cpuMillicores < 0 || r.memoryBytes < 0
    ensures Reached(cfg, r, c, m, es, t) && !InBudgets(cfg, t)
  {
    if r.cpuMillicores < 0 {
      es, t := NegativeCpuExceedsBudget(cfg, r, c, m);
    } else {
      es, t := NegativeMemoryExceedsBudget(cfg, r, c, m);
    }
  }

  /**
   Exactly when a request is harmless. Take one that is admitted on an empty provider, beside any requests of
   non-negative and bounded size, one call in the gap at a time and no sum that wraps. Every run stays within both
   budgets if and only if the request's CPU and memory are not negative.
   */
  lemma WithinBudgetIffNonNegative(cfg: Config, r: DeployRequest, c: nat, m: nat)
    requires cfg.maxSlots >= 2 && 0 <= cfg.maxCPU && 0 <= cfg.maxMemory && Bound.FitsInt64(cfg, 1, c, m)
    requires CanSchedule(cfg, EMPTY, r.cpuMillicores, r.memoryBytes) == Admitted
    requires r.cpuMillicores <= c && cfg.maxCPU - r.cpuMillicores <= c
    requires r.memoryBytes <= m && cfg.maxMemory - r.memoryBytes <= m
    ensures (forall es, t :: Reached(cfg, r, c, m, es, t) ==> InBudgets(cfg, t))
       <==> 0 <= r.cpuMillicores && 0 <= r.memoryBytes
  {
    if r.cpuMillicores < 0 || r.memoryBytes < 0 {
      var es, t := NegativeExceeds(cfg, r, c, m);
    } else {
      forall es, t | Reached(cfg, r, c, m, es, t)
        ensures InBudgets(cfg, t)
      {
        Bound.OneAtATimeStaysWithinBudget(cfg, c, m, (s, e) => Asks(r, c, m, s, e), es, t);
      }
    }
  }
}
