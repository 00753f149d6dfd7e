/** Go's `int64`, with the wrap-around of its additions and subtractions written out. */
module MachineInt {

  const TWO_63: int := 0x8000_0000_0000_0000
  const TWO_64: int := 0x1_0000_0000_0000_0000

  type int64 = x: int | -0x8000_0000_0000_0000 <= x < 0x8000_0000_0000_0000

  /** `x + y` in Go. */
  function Add(x: int64, y: int64): int64 {
    if x + y >= TWO_63 then x + y - TWO_64
    else if x + y < -TWO_63 then x + y + TWO_64
    else x + y
  }

  /** `x - y` in Go. */
  function Sub(x: int64, y: int64): int64 {
    if x - y >= TWO_63 then x - y - TWO_64
    else if x - y < -TWO_63 then x - y + TWO_64
    else x - y
  }

  /** The `int64` that agrees with `x` modulo 2^64. */
  function Wrap(x: int): (r: int64)
    ensures (r - x) % TWO_64 == 0
    ensures -TWO_63 <= x < TWO_63 ==> r == x
  {
    (x + TWO_63) % TWO_64 - TWO_63
  }

  /** `Add` and `Sub` compute modulo 2^64. */
  lemma WrapStep(x: int, y: int64)
    ensures Add(Wrap(x), y) == Wrap(x + y)
    ensures Sub(Wrap(x), y) == Wrap(x - y)
  {
    var q := (x + TWO_63) / TWO_64;
    assert x - Wrap(x) == TWO_64 * q;
    WrapUnique(x + y, Add(Wrap(x), y), q + (Wrap(x) + y - Add(Wrap(x), y)) / TWO_64);
    WrapUnique(x - y, Sub(Wrap(x), y), q + (Wrap(x) - y - Sub(Wrap(x), y)) / TWO_64);
  }

  lemma WrapUnique(x: int, r: int64, q: int)
    requires x - r == TWO_64 * q
    ensures Wrap(x) == r
  {
    assert (x + TWO_63) % TWO_64 == r + TWO_63;
  }

  /** Shifting a number by an `int64` other than zero changes what it wraps to. */
  lemma WrapSeparates(x: int, y: int64)
    ensures Wrap(x) == Wrap(x - y) <==> y == 0
  {
    var p, q := x + TWO_63, x - y + TWO_63;
    if p % TWO_64 == q % TWO_64 {
      assert (p - q) == TWO_64 * (p / TWO_64 - q / TWO_64);
      assert p - q == y;
    }
  }
}

/** The data types of internal/protocol/messages.go that the provider works on. */
module Protocol {
  import opened MachineInt

  datatype Status = Pending | Pulling | Starting | Running | Stopping | Stopped | Failed

  datatype DeployRequest = DeployRequest(
    requestId: string,
    image: string,
    cpuMillicores: int64,
    memoryBytes: int64,
    exposePort: int64,
    requesterId: string,
    timestamp: int64)

  datatype Deployment = Deployment(
    id: string,
    image: string,
    requesterId: string,
    status: Status,
    containerId: string,
    cpuLimit: int64,
    memoryLimit: int64,
    exposePort: int64)
}

/**
 The provider's books: the map of deployments with the two running totals, and one function for each region of
 internal/scheduler/scheduler.go that runs under the scheduler's lock.
 */
module Accounting {
  import opened MachineInt
  import opened MapSums
  import opened Protocol

  datatype Config = Config(maxSlots: int, maxCPU: int64, maxMemory: int64)

  datatype Books = Books(deployments: map<string, Deployment>, usedCPU: int64, usedMemory: int64)

  datatype Admission = Admitted | SlotsReached | InsufficientCPU | InsufficientMemory

  const MIN_MEMORY: int := 4 * 1024 * 1024

  const EMPTY: Books := Books(map[], 0, 0)

  /** `DefaultConfig`: ten deployments, four CPUs, 4 GiB. */
  const DEFAULT_CONFIG: Config := Config(10, 4000, 4 * 1024 * 1024 * 1024)

  function Max(x: int, y: int): int { if x < y then y else x }

  function Cpu(d: Deployment): int { d.cpuLimit }

  function Memory(d: Deployment): int { d.memoryLimit }

  /** `CanSchedule`: the sums are `int64` sums. */
  function CanSchedule(cfg: Config, b: Books, cpu: int64, memory: int64): Admission {
    if |b.deployments| >= cfg.maxSlots then SlotsReached
    else if Add(b.usedCPU, cpu) > cfg.maxCPU then InsufficientCPU
    else if Add(b.usedMemory, memory) > cfg.maxMemory then InsufficientMemory
    else Admitted
  }

  function NewDeployment(id: string, req: DeployRequest): Deployment {
    Deployment(id, req.image, req.requesterId, Pending, "", req.cpuMillicores, req.memoryBytes, req.exposePort)
  }

  /** The region that enters a new record and charges its limits. */
  function Register(b: Books, d: Deployment): Books {
    Books(b.deployments[d.id := d], Add(b.usedCPU, d.cpuLimit), Add(b.usedMemory, d.memoryLimit))
  }

  /** `updateStatus`, and the first region of `Stop`. */
  function SetStatus(b: Books, id: string, status: Status): Books {
    if id in b.deployments
    then b.(deployments := b.deployments[id := b.deployments[id].(status := status)])
    else b
  }

  /** The last region of a successful `Schedule`. */
  function Finalise(b: Books, id: string, containerId: string): Books {
    if id in b.deployments
    then b.(deployments := b.deployments[id := b.deployments[id].(containerId := containerId, status := Running)])
    else b
  }

  /** `failDeployment`, and the last region of `Stop`: delete the record and give its limits back. */
  function Release(b: Books, id: string): Books {
    if id in b.deployments then
      var d := b.deployments[id];
      Books(b.deployments - {id}, Sub(b.usedCPU, d.cpuLimit), Sub(b.usedMemory, d.memoryLimit))
    else b
  }

  /** `validateConfig` of internal/runtime/docker.go. */
  predicate ValidConfig(id: string, req: DeployRequest) {
    id != "" && req.image != "" && req.cpuMillicores > 0 && req.memoryBytes > 0 && req.memoryBytes >= MIN_MEMORY
  }

  /** Both totals are the sums of the limits on record, up to the wrap-around of `int64`. */
  ghost predicate Conserved(b: Books) {
    && b.usedCPU == Wrap(Sum(b.deployments, Cpu))
    && b.usedMemory == Wrap(Sum(b.deployments, Memory))
  }

  /** Every record is filed under its own ID. */
  predicate Filed(b: Books) {
    forall id :: id in b.deployments ==> b.deployments[id].id == id
  }

  // ---------- what the admission test means ----------

  /** Which answer is given when, with the `int64` sums taken modulo 2^64. */
  lemma VerdictMeans(cfg: Config, b: Books, cpu: int64, memory: int64)
    ensures var (verdict, slots) := (CanSchedule(cfg, b, cpu, memory), |b.deployments|);
            && (verdict == SlotsReached <==> slots >= cfg.maxSlots)
            && (verdict == InsufficientCPU <==> slots < cfg.maxSlots && Wrap(b.usedCPU + cpu) > cfg.maxCPU)
            && (verdict == InsufficientMemory <==>
                && slots < cfg.maxSlots && Wrap(b.usedCPU + cpu) <= cfg.maxCPU
                && Wrap(b.usedMemory + memory) > cfg.maxMemory)
            && (verdict == Admitted <==>
                && slots < cfg.maxSlots && Wrap(b.usedCPU + cpu) <= cfg.maxCPU
                && Wrap(b.usedMemory + memory) <= cfg.maxMemory)
  {
    WrapStep(b.usedCPU, cpu);
    WrapStep(b.usedMemory, memory);
  }

  /**
   A request that fits is admitted, and only such a one: when neither sum leaves `int64`, admission means that there is
   a slot and that both sums, as integers, are within the configuration; and each refusal names the first that is not.
   */
  lemma AdmittedIffFits(cfg: Config, b: Books, cpu: int64, memory: int64)
    requires -TWO_63 <= b.usedCPU + cpu < TWO_63 && -TWO_63 <= b.usedMemory + memory < TWO_63
    ensures var (verdict, slots) := (CanSchedule(cfg, b, cpu, memory), |b.deployments|);
            && (verdict == Admitted <==>
                slots < cfg.maxSlots && b.usedCPU + cpu <= cfg.maxCPU && b.usedMemory + memory <= cfg.maxMemory)
            && (verdict == SlotsReached <==> slots >= cfg.maxSlots)
            && (verdict == InsufficientCPU <==> slots < cfg.maxSlots && b.usedCPU + cpu > cfg.maxCPU)
            && (verdict == InsufficientMemory <==>
                slots < cfg.maxSlots && b.usedCPU + cpu <= cfg.maxCPU && b.usedMemory + memory > cfg.maxMemory)
  {
    VerdictMeans(cfg, b, cpu, memory);
  }

  // ---------- what each region keeps ----------

  lemma RegisterConserves(b: Books, d: Deployment)
    requires Conserved(b) && d.id !in b.deployments
    ensures Conserved(Register(b, d))
  {
    SumInsert(b.deployments, d.id, d, Cpu);
    SumInsert(b.deployments, d.id, d, Memory);
    WrapStep(Sum(b.deployments, Cpu), d.cpuLimit);
    WrapStep(Sum(b.deployments, Memory), d.memoryLimit);
  }

  /** A region that rewrites a record without touching its limits moves neither sum. */
  lemma RewriteConserves(b: Books, id: string, d: Deployment)
    requires Conserved(b) && id in b.deployments
    requires d.cpuLimit == b.deployments[id].cpuLimit && d.memoryLimit == b.deployments[id].memoryLimit
    ensures Conserved(b.(deployments := b.deployments[id := d]))
  {
    SumReplace(b.deployments, id, d, Cpu);
    SumReplace(b.deployments, id, d, Memory);
  }

  lemma ReleaseConserves(b: Books, id: string)
    requires Conserved(b)
    ensures Conserved(Release(b, id))
  {
    if id in b.deployments {
      var d := b.deployments[id];
      SumRemove(b.deployments, id, Cpu);
      SumRemove(b.deployments, id, Memory);
      WrapStep(Sum(b.deployments, Cpu), d.cpuLimit);
      WrapStep(Sum(b.deployments, Memory), d.memoryLimit);
    }
  }

  /**
   Freshness of deployment IDs is exactly what registration needs: an ID that is taken leaves the totals right
   only if the record it overwrites was charged nothing (modulo 2^64, that is, nothing).
   */
  lemma RegisterConservesIff(b: Books, d: Deployment)
    requires Conserved(b)
    ensures Conserved(Register(b, d)) <==>
            d.id in b.deployments ==> b.deployments[d.id].cpuLimit == 0 && b.deployments[d.id].memoryLimit == 0
  {
    if d.id in b.deployments {
      var was := b.deployments[d.id];
      SumReplace(b.deployments, d.id, d, Cpu);
      SumReplace(b.deployments, d.id, d, Memory);
      WrapStep(Sum(b.deployments, Cpu), d.cpuLimit);
      WrapStep(Sum(b.deployments, Memory), d.memoryLimit);
      WrapSeparates(Sum(b.deployments, Cpu) + d.cpuLimit, was.cpuLimit);
      WrapSeparates(Sum(b.deployments, Memory) + d.memoryLimit, was.memoryLimit);
    } else {
      RegisterConserves(b, d);
    }
  }

  /** Releasing a deployment undoes its registration, even when the sums wrapped. */
  lemma ReleaseUndoesRegister(b: Books, d: Deployment)
    requires d.id !in b.deployments
    ensures Release(Register(b, d), d.id) == b
  {
    assert b.deployments[d.id := d] - {d.id} == b.deployments;
  }

  /**
   When the admission test can be wrong. With totals inside a non-negative budget, a request is let in although it
   exceeds the CPU (memory) budget exactly when the `int64` sum wraps.
   */
  lemma AdmitsOverBudgetIffSumWraps(cfg: Config, b: Books, cpu: int64, memory: int64)
    requires |b.deployments| < cfg.maxSlots
    requires 0 <= b.usedCPU <= cfg.maxCPU && 0 <= b.usedMemory <= cfg.maxMemory
    ensures CanSchedule(cfg, b, cpu, memory) != InsufficientCPU && b.usedCPU + cpu > cfg.maxCPU
       <==> b.usedCPU + cpu >= TWO_63
    ensures b.usedCPU + cpu <= cfg.maxCPU ==>
              (CanSchedule(cfg, b, cpu, memory) == Admitted && b.usedMemory + memory > cfg.maxMemory
               <==> b.usedMemory + memory >= TWO_63)
  {}
}
