/**
 `CanSchedule` reads the totals under a lock that it gives back before the deployment is registered. How far calls
 that overlap in that gap can overshoot the budget, and that they really can.
 */
module AdmissionBound {
  import opened MachineInt
  import opened MapSums
  import opened Protocol
  import opened Accounting
  import opened Machines
  import opened SchedulerSteps
  import Safety = SchedulerSafety

  function ReqCpu(r: DeployRequest): int { r.cpuMillicores }

  function ReqMemory(r: DeployRequest): int { r.memoryBytes }

  /**
   The assumption: never more than `n` calls between check and register, and every request asks for CPU in [0, c]
   and memory in [0, m]. `NegativeRequests` shows that it takes the zeros.
   */
  predicate Bounded(n: nat, c: nat, m: nat, s: State, e: Event) {
    e.Check? ==> |s.checked| < n && 0 <= e.req.cpuMillicores <= c && 0 <= e.req.memoryBytes <= m
  }

  /** The budgets are small enough that no `int64` sum over them wraps. */
  predicate FitsInt64(cfg: Config, n: nat, c: nat, m: nat) {
    Max(0, cfg.maxCPU) + c * n < TWO_63 && Max(0, cfg.maxMemory) + m * n < TWO_63
  }

  /**
   One resource: `f` is what a record has of it, `g` what a request asks for, at most `c`. What is on record and
   in the gap together overshoots the budget `max` by at most `gap`.
   */
  ghost predicate Within(deployments: map<string, Deployment>, checked: map<nat, DeployRequest>,
                         f: Deployment -> int, g: DeployRequest -> int, max: int, gap: int, c: nat)
  {
    && (forall id :: id in deployments ==> 0 <= f(deployments[id]) <= c)
    && (forall k :: k in checked ==> 0 <= g(checked[k]) <= c)
    && Sum(deployments, f) + Sum(checked, g) <= Max(0, max + gap)
  }

  /** At most `most` requests of at most `c` ask for at most `c * most`. */
  lemma GapSum(checked: map<nat, DeployRequest>, g: DeployRequest -> int, most: nat, c: nat)
    requires |checked| <= most && forall k :: k in checked ==> 0 <= g(checked[k]) <= c
    ensures 0 <= Sum(checked, g) <= c * most
  {
    NonNegative(checked, g, c);
    AtMost(checked, g, c);
    MulMonotone(c, |checked|, most);
  }

  lemma MulMonotone(c: nat, x: int, y: int)
    requires x <= y
    ensures c * x <= c * y
  {}

  lemma NonNegative<K(!new), V>(m: map<K, V>, f: V -> int, c: nat)
    requires forall k :: k in m ==> 0 <= f(m[k]) <= c
    ensures 0 <= Sum(m, f)
  {
    SumBounds(m, f, 0, c);
  }

  lemma AtMost<K(!new), V>(m: map<K, V>, f: V -> int, c: nat)
    requires forall k :: k in m ==> 0 <= f(m[k]) <= c
    ensures Sum(m, f) <= c * |m|
  {
    SumBounds(m, f, 0, c);
  }

  lemma CheckWithin(deployments: map<string, Deployment>, checked: map<nat, DeployRequest>,
                    f: Deployment -> int, g: DeployRequest -> int, max: int, gap: int, c: nat, k: nat, r: DeployRequest,
                    used: int64, ask: int64)
    requires Within(deployments, checked, f, g, max, gap, c)
    requires k !in checked && 0 <= g(r) <= c && 0 <= Sum(checked, g) <= gap
    requires Max(0, max) + gap + c < TWO_63
    requires used == Sum(deployments, f) && ask == g(r) && Add(used, ask) <= max
    ensures Within(deployments, checked[k := r], f, g, max, gap, c)
  {
    NonNegative(deployments, f, c);
    SumInsert(checked, k, r, g);
  }

  lemma EnterWithin(deployments: map<string, Deployment>, checked: map<nat, DeployRequest>,
                    f: Deployment -> int, g: DeployRequest -> int, max: int, gap: int, c: nat,
                    k: nat, id: string, d: Deployment)
    requires Within(deployments, checked, f, g, max, gap, c)
    requires k in checked && id !in deployments && f(d) == g(checked[k])
    ensures Within(deployments[id := d], checked - {k}, f, g, max, gap, c)
  {
    SumInsert(deployments, id, d, f);
    SumRemove(checked, k, g);
  }

  lemma RewriteWithin(deployments: map<string, Deployment>, checked: map<nat, DeployRequest>,
                      f: Deployment -> int, g: DeployRequest -> int, max: int, gap: int, c: nat,
                      id: string, d: Deployment)
    requires Within(deployments, checked, f, g, max, gap, c)
    requires id in deployments && f(d) == f(deployments[id])
    ensures Within(deployments[id := d], checked, f, g, max, gap, c)
  {
    SumReplace(deployments, id, d, f);
  }

  lemma ReleaseWithin(deployments: map<string, Deployment>, checked: map<nat, DeployRequest>,
                      f: Deployment -> int, g: DeployRequest -> int, max: int, gap: int, c: nat, id: string)
    requires Within(deployments, checked, f, g, max, gap, c) && id in deployments
    ensures Within(deployments - {id}, checked, f, g, max, gap, c)
  {
    SumRemove(deployments, id, f);
  }

  /** What one step does to the map and to the calls in the gap. */
  datatype Change =
    | Quiet
    | Checks(k: nat, r: DeployRequest)
    | Enters(k: nat, id: string)
    | Rewrites(id: string, d: Deployment)
    | Deletes(id: string)

  ghost predicate Changed(x: Change, ds: map<string, Deployment>, ds': map<string, Deployment>,
                          q: map<nat, DeployRequest>, q': map<nat, DeployRequest>)
  {
    match x
    case Quiet => ds' == ds && q' == q
    case Checks(k, r) => ds' == ds && q' == q[k := r]
    case Enters(k, id) => k in q && id in ds' && ds' == ds[id := ds'[id]] && q' == q - {k}
    case Rewrites(id, d) => id in ds && ds' == ds[id := d] && q' == q
    case Deletes(id) => id in ds && ds' == ds - {id} && q' == q
  }

  ghost function ChangeOf(cfg: Config, s: State, e: Event): (x: Change)
    requires Enabled(cfg, s, e)
    ensures var t := Next(cfg, s, e); Changed(x, s.books.deployments, t.books.deployments, s.checked, t.checked)
    ensures x.Checks? <==> e.Check?
    ensures x.Enters? ==> e == Enter(x.k, x.id)
    ensures x.Enters? ==> Next(cfg, s, e).books.deployments[x.id] == NewDeployment(x.id, s.checked[x.k])
    ensures x.Rewrites? ==> Cpu(x.d) == Cpu(s.books.deployments[x.id])
    ensures x.Rewrites? ==> Memory(x.d) == Memory(s.books.deployments[x.id])
  {
    var there := s.books.deployments;
    var t := Next(cfg, s, e);
    match e
    case Check(k, r) => Checks(k, r)
    case Enter(k, id) => Enters(k, id)
    case Fail(id) => if id in there then Deletes(id) else Quiet
    case StopRelease(stop) => if s.stops[stop].id in there then Deletes(s.stops[stop].id) else Quiet
    case MarkPulling(id) => if id in there then Rewrites(id, t.books.deployments[id]) else Quiet
    case MarkStarting(id) => if id in there then Rewrites(id, t.books.deployments[id]) else Quiet
    case Finish(id) => if id in there then Rewrites(id, t.books.deployments[id]) else Quiet
    case StopMark(_, id) => Rewrites(id, t.books.deployments[id])
    case _ => Quiet
  }

  /** `extra`, `gapC` and `gapM` are the slots, the CPU and the memory by which the limits may be overshot. */
  ghost predicate Room(cfg: Config, extra: int, gapC: int, gapM: int, c: nat, m: nat, s: State) {
    && |s.books.deployments| + |s.checked| <= Max(0, cfg.maxSlots + extra)
    && Within(s.books.deployments, s.checked, Cpu, ReqCpu, cfg.maxCPU, gapC, c)
    && Within(s.books.deployments, s.checked, Memory, ReqMemory, cfg.maxMemory, gapM, m)
  }

  ghost predicate Exact(b: Books) {
    b.usedCPU == Sum(b.deployments, Cpu) && b.usedMemory == Sum(b.deployments, Memory)
  }

  /** Below 2^63 the totals are the sums themselves. */
  lemma TotalsExact(cfg: Config, extra: int, gapC: int, gapM: int, c: nat, m: nat, s: State)
    requires Conserved(s.books) && Room(cfg, extra, gapC, gapM, c, m, s)
    requires Max(0, cfg.maxCPU + gapC) < TWO_63 && Max(0, cfg.maxMemory + gapM) < TWO_63
    ensures Exact(s.books)
  {
    NonNegative(s.books.deployments, Cpu, c);
    NonNegative(s.books.deployments, Memory, m);
    NonNegative(s.checked, ReqCpu, c);
    NonNegative(s.checked, ReqMemory, m);
  }

  lemma CheckRoom(cfg: Config, extra: int, gapC: int, gapM: int, c: nat, m: nat, s: State, k: nat, r: DeployRequest)
    requires Exact(s.books) && Room(cfg, extra, gapC, gapM, c, m, s) && k !in s.checked
    requires CanSchedule(cfg, s.books, r.cpuMillicores, r.memoryBytes) == Admitted
    requires |s.checked| <= extra && 0 <= ReqCpu(r) <= c && 0 <= ReqMemory(r) <= m
    requires 0 <= Sum(s.checked, ReqCpu) <= gapC && 0 <= Sum(s.checked, ReqMemory) <= gapM
    requires Max(0, cfg.maxCPU) + gapC + c < TWO_63 && Max(0, cfg.maxMemory) + gapM + m < TWO_63
    ensures Room(cfg, extra, gapC, gapM, c, m, s.(checked := s.checked[k := r]))
  {
    var q := s.checked[k := r];
    assert Within(s.books.deployments, q, Cpu, ReqCpu, cfg.maxCPU, gapC, c) by {
      CheckWithin(s.books.deployments, s.checked, Cpu, ReqCpu, cfg.maxCPU, gapC, c, k, r,
                  s.books.usedCPU, r.cpuMillicores);
    }
    assert Within(s.books.deployments, q, Memory, ReqMemory, cfg.maxMemory, gapM, m) by {
      CheckWithin(s.books.deployments, s.checked, Memory, ReqMemory, cfg.maxMemory, gapM, m, k, r,
                  s.books.usedMemory, r.memoryBytes);
    }
    assert |q| == |s.checked| + 1;
  }

  lemma ChangeWithin(x: Change, ds: map<string, Deployment>, ds': map<string, Deployment>,
                     q: map<nat, DeployRequest>, q': map<nat, DeployRequest>,
                     f: Deployment -> int, g: DeployRequest -> int, max: int, gap: int, c: nat)
    requires !x.Checks? && Changed(x, ds, ds', q, q') && Within(ds, q, f, g, max, gap, c)
    requires x.Enters? ==> x.id !in ds && f(ds'[x.id]) == g(q[x.k])
    requires x.Rewrites? ==> f(x.d) == f(ds[x.id])
    ensures Within(ds', q', f, g, max, gap, c)
  {
    match x
    case Quiet =>
    case Enters(k, id) => EnterWithin(ds, q, f, g, max, gap, c, k, id, ds'[id]);
    case Rewrites(id, d) => RewriteWithin(ds, q, f, g, max, gap, c, id, d);
    case Deletes(id) => ReleaseWithin(ds, q, f, g, max, gap, c, id);
  }

  lemma ChangeCount(x: Change, ds: map<string, Deployment>, ds': map<string, Deployment>,
                    q: map<nat, DeployRequest>, q': map<nat, DeployRequest>)
    requires !x.Checks? && Changed(x, ds, ds', q, q')
    ensures |ds'| + |q'| <= |ds| + |q|
  {
    match x
    case Quiet =>
    case Enters(k, id) => RemoveCount(q, k);
    case Rewrites(id, d) => assert ds'.Keys == ds.Keys;
    case Deletes(id) => RemoveCount(ds, id);
  }

  lemma OtherRoom(cfg: Config, extra: int, gapC: int, gapM: int, c: nat, m: nat, s: State, e: Event)
    requires Room(cfg, extra, gapC, gapM, c, m, s) && !e.Check? && Enabled(cfg, s, e)
    requires e.Enter? ==> e.id !in s.books.deployments
    ensures Room(cfg, extra, gapC, gapM, c, m, Next(cfg, s, e))
  {
    var t := Next(cfg, s, e);
    var x := ChangeOf(cfg, s, e);
    var (ds, ds', q, q') := (s.books.deployments, t.books.deployments, s.checked, t.checked);
    ChangeCount(x, ds, ds', q, q');
    ChangeWithin(x, ds, ds', q, q', Cpu, ReqCpu, cfg.maxCPU, gapC, c);
    ChangeWithin(x, ds, ds', q, q', Memory, ReqMemory, cfg.maxMemory, gapM, m);
  }

  lemma RemoveCount<K, V>(m: map<K, V>, k: K)
    requires k in m
    ensures |m - {k}| == |m| - 1
  {
    assert m == (m - {k})[k := m[k]];
  }

  /** A check while at most `gap` calls are in the gap. */
  lemma CheckStep(cfg: Config, gap: nat, c: nat, m: nat, s: State, e: Event)
    requires FitsInt64(cfg, gap + 1, c, m)
    requires Safety.Inv(s) && e.Check? && Enabled(cfg, s, e) && Bounded(gap + 1, c, m, s, e)
    requires Room(cfg, gap, c * gap, m * gap, c, m, s)
    ensures Room(cfg, gap, c * gap, m * gap, c, m, Next(cfg, s, e))
  {
    GapSum(s.checked, ReqCpu, gap, c);
    GapSum(s.checked, ReqMemory, gap, m);
    MulSuccessor(c, gap);
    MulSuccessor(m, gap);
    TotalsExact(cfg, gap, c * gap, m * gap, c, m, s);
    CheckRoom(cfg, gap, c * gap, m * gap, c, m, s, e.call, e.req);
  }

  lemma StepRoom(cfg: Config, n: nat, c: nat, m: nat, s: State, e: Event)
    requires FitsInt64(cfg, n, c, m)
    requires Safety.Inv(s) && Enabled(cfg, s, e) && Bounded(n, c, m, s, e)
    requires Room(cfg, n - 1, c * (n - 1), m * (n - 1), c, m, s)
    ensures Room(cfg, n - 1, c * (n - 1), m * (n - 1), c, m, Next(cfg, s, e))
  {
    if e.Check? {
      CheckStep(cfg, n - 1, c, m, s, e);
    } else {
      if e.Enter? {
        assert Safety.Fits(s, e.id);
      }
      OtherRoom(cfg, n - 1, c * (n - 1), m * (n - 1), c, m, s, e);
    }
  }

  ghost predicate BoundInv(cfg: Config, n: nat, c: nat, m: nat, s: State) {
    Safety.Inv(s) && Room(cfg, n - 1, c * (n - 1), m * (n - 1), c, m, s)
  }

  lemma Invariant(cfg: Config, n: nat, c: nat, m: nat, env: (State, Event) -> bool, es: seq<Event>, t: State)
    requires FitsInt64(cfg, n, c, m)
    requires forall s, e :: env(s, e) ==> Bounded(n, c, m, s, e)
    requires Runs(Scheduling(cfg, env), INIT, es, t)
    ensures BoundInv(cfg, n, c, m, t)
  {
    var mach := Scheduling(cfg, env);
    var inv := s => BoundInv(cfg, n, c, m, s);
    Safety.Invariant(cfg, env, [], INIT);
    Safety.StepsKeep(cfg, env);
    forall s, e | inv(s) && mach.may(s, e)
      ensures inv(mach.next(s, e))
    {
      assert Safety.Inv(mach.next(s, e));
      StepRoom(cfg, n, c, m, s, e);
    }
    Induction(mach, inv, INIT, es, t);
  }

  /**
   The bound. Whatever else is going on, `n` calls in the gap overshoot the slots by at most `n - 1` and each
   budget by at most `n - 1` requests of the largest size. One call at a time never overshoots.
   */
  lemma AdmissionBounded(cfg: Config, n: nat, c: nat, m: nat, env: (State, Event) -> bool, es: seq<Event>, t: State)
    requires FitsInt64(cfg, n, c, m)
    requires forall s, e :: env(s, e) ==> Bounded(n, c, m, s, e)
    requires Runs(Scheduling(cfg, env), INIT, es, t)
    ensures |t.books.deployments| <= Max(0, cfg.maxSlots + n - 1)
    ensures 0 <= t.books.usedCPU <= Max(0, cfg.maxCPU + c * (n - 1))
    ensures 0 <= t.books.usedMemory <= Max(0, cfg.maxMemory + m * (n - 1))
  {
    Invariant(cfg, n, c, m, env, es, t);
    MulSuccessor(c, n - 1);
    MulSuccessor(m, n - 1);
    TotalsExact(cfg, n - 1, c * (n - 1), m * (n - 1), c, m, t);
    NonNegative(t.books.deployments, Cpu, c);
    NonNegative(t.books.deployments, Memory, m);
    NonNegative(t.checked, ReqCpu, c);
    NonNegative(t.checked, ReqMemory, m);
  }

  /** One call in the gap at a time keeps the provider strictly within its configuration. */
  lemma OneAtATimeStaysWithinBudget(cfg: Config, c: nat, m: nat, env: (State, Event) -> bool, es: seq<Event>, t: State)
    requires FitsInt64(cfg, 1, c, m)
    requires forall s, e :: env(s, e) ==> Bounded(1, c, m, s, e)
    requires Runs(Scheduling(cfg, env), INIT, es, t)
    ensures |t.books.deployments| <= Max(0, cfg.maxSlots)
    ensures t.books.usedCPU <= Max(0, cfg.maxCPU) && t.books.usedMemory <= Max(0, cfg.maxMemory)
  {
    AdmissionBounded(cfg, 1, c, m, env, es, t);
  }
}
