/** Overlapping calls really do overshoot the budget by as much as `AdmissionBound` allows. */
module AdmissionTightness {
  import opened MachineInt
  import opened MapSums
  import opened Protocol
  import opened Accounting
  import opened Machines
  import opened SchedulerSteps
  import opened AdmissionBound

  /** `x` added up `k` times. */
  function Times(x: nat, k: nat): (r: nat)
  {
    if k == 0 then 0 else Times(x, k - 1) + x
  }

  lemma {:induction false} TimesIsProduct(x: nat, k: nat)
    ensures Times(x, k) == x * k
  {
    if k > 0 {
      TimesIsProduct(x, k - 1);
      MulSuccessor(x, k - 1);
    }
  }

  lemma {:induction false} TimesMonotone(x: nat, j: nat, k: nat)
    requires j <= k
    ensures Times(x, j) <= Times(x, k)
  {
    if j < k {
      TimesMonotone(x, j, k - 1);
    }
  }

  function Name(i: nat): string { seq(i + 1, _ => 'd') }

  /** `k` deployments of the same request `r` are registered and calls `k .. k+j` are in the gap. */
  ghost predicate Shape(r: DeployRequest, k: nat, j: nat, s: State) {
    && |s.books.deployments| == k
    && 0 <= r.cpuMillicores && 0 <= r.memoryBytes
    && s.books.usedCPU == Times(r.cpuMillicores, k) && s.books.usedMemory == Times(r.memoryBytes, k)
    && |s.checked| == j
    && (forall q: nat :: q in s.checked <==> k <= q < k + j)
    && (forall q: nat :: q in s.checked ==> s.checked[q] == r)
    && (forall id :: id in s.books.deployments ==> |id| <= k)
    && (forall id :: id in s.phase ==> |id| <= k)
  }

  lemma CheckShape(cfg: Config, r: DeployRequest, k: nat, j: nat, s: State)
    requires 0 <= r.cpuMillicores && 0 <= r.memoryBytes && Shape(r, k, j, s) && k < cfg.maxSlots
    requires Times(r.cpuMillicores, k + 1) <= cfg.maxCPU
    requires Times(r.memoryBytes, k + 1) <= cfg.maxMemory
    ensures Enabled(cfg, s, Check(k + j, r))
    ensures Shape(r, k, j + 1, Next(cfg, s, Check(k + j, r)))
  {
  }

  lemma EnterShape(cfg: Config, r: DeployRequest, k: nat, j: nat, s: State)
    requires 0 <= r.cpuMillicores && 0 <= r.memoryBytes && Shape(r, k, j, s) && j > 0
    requires Times(r.cpuMillicores, k + 1) < TWO_63 && Times(r.memoryBytes, k + 1) < TWO_63
    ensures Enabled(cfg, s, Enter(k, Name(k)))
    ensures Shape(r, k + 1, j - 1, Next(cfg, s, Enter(k, Name(k))))
  {
    RemoveCount(s.checked, k);
  }

  /** `(es, t)` is a run of the assumed environment that ends in `Shape(r, k, j)`. */
  ghost predicate Reached(cfg: Config, env: (State, Event) -> bool, r: DeployRequest, k: nat, j: nat,
                          es: seq<Event>, t: State)
  {
    Runs(Scheduling(cfg, env), INIT, es, t) && Shape(r, k, j, t)
  }

  ghost predicate Allows(env: (State, Event) -> bool, n: nat, c: nat, m: nat) {
    forall s, e :: Bounded(n, c, m, s, e) ==> env(s, e)
  }

  lemma CheckOne(cfg: Config, env: (State, Event) -> bool, n: nat, r: DeployRequest, k: nat, j: nat,
                 es: seq<Event>, s: State)
    returns (es': seq<Event>, t: State)
    requires 0 <= r.cpuMillicores && 0 <= r.memoryBytes && j < n && k < cfg.maxSlots
    requires Allows(env, n, r.cpuMillicores, r.memoryBytes)
    requires Times(r.cpuMillicores, k + 1) <= cfg.maxCPU && Times(r.memoryBytes, k + 1) <= cfg.maxMemory
    requires Reached(cfg, env, r, k, j, es, s)
    ensures Reached(cfg, env, r, k, j + 1, es', t)
  {
    var e := Check(k + j, r);
    CheckShape(cfg, r, k, j, s);
    assert Bounded(n, r.cpuMillicores, r.memoryBytes, s, e);
    Extend(Scheduling(cfg, env), INIT, es, s, e);
    es', t := es + [e], Next(cfg, s, e);
  }

  lemma EnterOne(cfg: Config, env: (State, Event) -> bool, n: nat, r: DeployRequest, k: nat, j: nat,
                 es: seq<Event>, s: State)
    returns (es': seq<Event>, t: State)
    requires 0 <= r.cpuMillicores && 0 <= r.memoryBytes && j > 0
    requires Allows(env, n, r.cpuMillicores, r.memoryBytes)
    requires Times(r.cpuMillicores, k + 1) < TWO_63 && Times(r.memoryBytes, k + 1) < TWO_63
    requires Reached(cfg, env, r, k, j, es, s)
    ensures Reached(cfg, env, r, k + 1, j - 1, es', t)
  {
    var e := Enter(k, Name(k));
    EnterShape(cfg, r, k, j, s);
    assert Bounded(n, r.cpuMillicores, r.memoryBytes, s, e);
    Extend(Scheduling(cfg, env), INIT, es, s, e);
    es', t := es + [e], Next(cfg, s, e);
  }

  /** `j` calls in all pass the check before any of them registers. */
  lemma {:induction false} CheckMany(cfg: Config, env: (State, Event) -> bool, n: nat, r: DeployRequest,
                  k: nat, i: nat, j: nat, es: seq<Event>, s: State)
    returns (es': seq<Event>, t: State)
    requires 0 <= r.cpuMillicores && 0 <= r.memoryBytes && i <= j <= n && k < cfg.maxSlots
    requires Allows(env, n, r.cpuMillicores, r.memoryBytes)
    requires Times(r.cpuMillicores, k + 1) <= cfg.maxCPU && Times(r.memoryBytes, k + 1) <= cfg.maxMemory
    requires Reached(cfg, env, r, k, i, es, s)
    ensures Reached(cfg, env, r, k, j, es', t)
    decreases j - i
  {
    if i == j {
      es', t := es, s;
    } else {
      es', t := CheckOne(cfg, env, n, r, k, i, es, s);
      es', t := CheckMany(cfg, env, n, r, k, i + 1, j, es', t);
    }
  }

  predicate NoWrap(r: DeployRequest, k: nat) {
    0 <= r.cpuMillicores && 0 <= r.memoryBytes && Times(r.cpuMillicores, k) < TWO_63 && Times(r.memoryBytes, k) < TWO_63
  }

  lemma NoWrapBelow(r: DeployRequest, j: nat, k: nat)
    requires NoWrap(r, k) && j <= k
    ensures NoWrap(r, j)
  {
    TimesMonotone(r.cpuMillicores, j, k);
    TimesMonotone(r.memoryBytes, j, k);
  }

  /** All `j` calls in the gap register, which makes `all` deployments. */
  lemma {:induction false} EnterMany(cfg: Config, env: (State, Event) -> bool, n: nat, r: DeployRequest,
                  k: nat, j: nat, all: nat, es: seq<Event>, s: State)
    returns (es': seq<Event>, t: State)
    requires all == k + j && NoWrap(r, all) && Allows(env, n, r.cpuMillicores, r.memoryBytes)
    requires Reached(cfg, env, r, k, j, es, s)
    ensures Reached(cfg, env, r, all, 0, es', t)
    decreases j
  {
    if j == 0 {
      es', t := es, s;
    } else {
      NoWrapBelow(r, k + 1, all);
      var es1, s1 := EnterOne(cfg, env, n, r, k, j, es, s);
      es', t := EnterMany(cfg, env, n, r, k + 1, j - 1, all, es1, s1);
    }
  }

  /** Calls that check and register one at a time fill `k` slots, one short of the limit at most. */
  lemma {:induction false} Fill(cfg: Config, env: (State, Event) -> bool, n: nat, r: DeployRequest, k: nat)
    returns (es: seq<Event>, t: State)
    requires 0 <= r.cpuMillicores && 0 <= r.memoryBytes && 1 <= n && k <= cfg.maxSlots
    requires Allows(env, n, r.cpuMillicores, r.memoryBytes)
    requires Times(r.cpuMillicores, k) <= cfg.maxCPU && Times(r.memoryBytes, k) <= cfg.maxMemory
    ensures Reached(cfg, env, r, k, 0, es, t)
  {
    if k == 0 {
      es, t := [], INIT;
    } else {
      TimesMonotone(r.cpuMillicores, k - 1, k);
      TimesMonotone(r.memoryBytes, k - 1, k);
      es, t := Fill(cfg, env, n, r, k - 1);
      es, t := FillOne(cfg, env, n, r, k - 1, es, t);
    }
  }

  lemma FillOne(cfg: Config, env: (State, Event) -> bool, n: nat, r: DeployRequest, k: nat, es: seq<Event>, s: State)
    returns (es': seq<Event>, t: State)
    requires 0 <= r.cpuMillicores && 0 <= r.memoryBytes && 1 <= n && k < cfg.maxSlots
    requires Allows(env, n, r.cpuMillicores, r.memoryBytes)
    requires Times(r.cpuMillicores, k + 1) <= cfg.maxCPU && Times(r.memoryBytes, k + 1) <= cfg.maxMemory
    requires Reached(cfg, env, r, k, 0, es, s)
    ensures Reached(cfg, env, r, k + 1, 0, es', t)
  {
    es', t := CheckOne(cfg, env, n, r, k, 0, es, s);
    es', t := EnterOne(cfg, env, n, r, k, 1, es', t);
  }

  /** All slots but one are filled one call at a time; then `n` calls pass the check together. */
  lemma Overshoot(cfg: Config, env: (State, Event) -> bool, n: nat, r: DeployRequest, k: nat)
    returns (es: seq<Event>, t: State)
    requires 0 <= r.cpuMillicores && 0 <= r.memoryBytes && 1 <= n && k + 1 == cfg.maxSlots
    requires Allows(env, n, r.cpuMillicores, r.memoryBytes)
    requires Times(r.cpuMillicores, k + 1) <= cfg.maxCPU && Times(r.memoryBytes, k + 1) <= cfg.maxMemory
    requires Times(r.cpuMillicores, k + n) < TWO_63 && Times(r.memoryBytes, k + n) < TWO_63
    ensures Reached(cfg, env, r, k + n, 0, es, t)
  {
    var es1, t1 := FillAndCheck(cfg, env, n, r, k);
    es, t := EnterMany(cfg, env, n, r, k, n, k + n, es1, t1);
  }

  lemma FillAndCheck(cfg: Config, env: (State, Event) -> bool, n: nat, r: DeployRequest, k: nat)
    returns (es: seq<Event>, t: State)
    requires 0 <= r.cpuMillicores && 0 <= r.memoryBytes && 1 <= n && k + 1 == cfg.maxSlots
    requires Allows(env, n, r.cpuMillicores, r.memoryBytes)
    requires Times(r.cpuMillicores, k + 1) <= cfg.maxCPU && Times(r.memoryBytes, k + 1) <= cfg.maxMemory
    ensures Reached(cfg, env, r, k, n, es, t)
  {
    TimesMonotone(r.cpuMillicores, k, k + 1);
    TimesMonotone(r.memoryBytes, k, k + 1);
    var es1, t1 := Fill(cfg, env, n, r, k);
    es, t := CheckMany(cfg, env, n, r, k, 0, n, es1, t1);
  }

  /**
   Tightness. On every provider, for every `n` and every request for which it has `maxSlots` times the room, there is
   a run with at most `n` calls in the gap that ends with `maxSlots + n - 1` deployments of it, all charged.
   */
  lemma SlotsAreOvershot(cfg: Config, n: nat, r: DeployRequest, env: (State, Event) -> bool)
    returns (es: seq<Event>, t: State)
    requires cfg.maxSlots >= 1 && n >= 1 && 0 <= r.cpuMillicores && 0 <= r.memoryBytes
    requires r.cpuMillicores * cfg.maxSlots <= cfg.maxCPU && r.memoryBytes * cfg.maxSlots <= cfg.maxMemory
    requires r.cpuMillicores * (cfg.maxSlots - 1 + n) < TWO_63 && r.memoryBytes * (cfg.maxSlots - 1 + n) < TWO_63
    requires Allows(env, n, r.cpuMillicores, r.memoryBytes)
    ensures Runs(Scheduling(cfg, env), INIT, es, t)
    ensures |t.books.deployments| == cfg.maxSlots + n - 1
    ensures t.books.usedCPU == r.cpuMillicores * (cfg.maxSlots - 1 + n)
    ensures t.books.usedMemory == r.memoryBytes * (cfg.maxSlots - 1 + n)
  {
    TimesAre(r, cfg.maxSlots);
    TimesAre(r, cfg.maxSlots - 1 + n);
    es, t := Overshoot(cfg, env, n, r, cfg.maxSlots - 1);
  }

  /** A provider whose budgets are exactly `maxSlots` such requests then ends on all three bounds at once. */
  lemma BoundIsReached(cfg: Config, n: nat, r: DeployRequest, env: (State, Event) -> bool)
    returns (es: seq<Event>, t: State)
    requires cfg.maxSlots >= 1 && n >= 1 && 0 <= r.cpuMillicores && 0 <= r.memoryBytes
    requires cfg.maxCPU == r.cpuMillicores * cfg.maxSlots && cfg.maxMemory == r.memoryBytes * cfg.maxSlots
    requires r.cpuMillicores * (cfg.maxSlots - 1 + n) < TWO_63 && r.memoryBytes * (cfg.maxSlots - 1 + n) < TWO_63
    requires Allows(env, n, r.cpuMillicores, r.memoryBytes)
    ensures Runs(Scheduling(cfg, env), INIT, es, t)
    ensures |t.books.deployments| == cfg.maxSlots + n - 1
    ensures t.books.usedCPU == cfg.maxCPU + r.cpuMillicores * (n - 1)
    ensures t.books.usedMemory == cfg.maxMemory + r.memoryBytes * (n - 1)
  {
    Distribute(r.cpuMillicores, cfg.maxSlots, n);
    Distribute(r.memoryBytes, cfg.maxSlots, n);
    es, t := SlotsAreOvershot(cfg, n, r, env);
  }

  lemma TimesAre(r: DeployRequest, k: nat)
    requires 0 <= r.cpuMillicores && 0 <= r.memoryBytes
    ensures Times(r.cpuMillicores, k) == r.cpuMillicores * k && Times(r.memoryBytes, k) == r.memoryBytes * k
  {
    TimesIsProduct(r.cpuMillicores, k);
    TimesIsProduct(r.memoryBytes, k);
  }

  lemma Distribute(x: int, y: int, z: int)
    ensures x * (y - 1 + z) == x * y + x * (z - 1)
  {}
}
