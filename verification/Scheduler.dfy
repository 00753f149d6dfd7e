/** internal/scheduler/scheduler.go as an object: a map of records that its methods update in place. */
module ProviderScheduler {
  import opened MachineInt
  import opened Options
  import opened Protocol
  import opened Accounting
  import Machines
  import Calls = SequentialCalls
  import Steps = SchedulerSteps
  import Safety = SchedulerSafety

  /** A deployment record, shared by the map and by whoever was handed it. */
  class Record {
    const id: string
    const image: string
    const requesterId: string
    const cpuLimit: int64
    const memoryLimit: int64
    const exposePort: int64
    var status: Status
    var containerId: string

    constructor (id: string, req: DeployRequest)
      ensures this.id == id && image == req.image && requesterId == req.requesterId
      ensures cpuLimit == req.cpuMillicores && memoryLimit == req.memoryBytes && exposePort == req.exposePort
      ensures status == Pending && containerId == "" && View() == NewDeployment(id, req)
    {
      this.id, image, requesterId := id, req.image, req.requesterId;
      cpuLimit, memoryLimit, exposePort := req.cpuMillicores, req.memoryBytes, req.exposePort;
      status, containerId := Pending, "";
    }

    /** The copy that `Get` and `List` hand out. */
    function View(): Deployment
      reads this
    {
      Deployment(id, image, requesterId, status, containerId, cpuLimit, memoryLimit, exposePort)
    }
  }

  class Scheduler {
    const cfg: Config
    var deployments: map<string, Record>
    var usedCPU: int64
    var usedMemory: int64

    /** Without a configuration it is the default one. */
    constructor (cfg: Option<Config>)
      ensures this.cfg == if cfg.Some? then cfg.value else Config(10, 4000, 4294967296)
      ensures deployments == map[] && Valid() && ToBooks() == EMPTY
    {
      this.cfg := if cfg.Some? then cfg.value else DEFAULT_CONFIG;
      deployments, usedCPU, usedMemory := map[], 0, 0;
    }

    /** Every record is filed under its own ID, so no record is filed twice. */
    ghost predicate Valid()
      reads this
    {
      forall id :: id in deployments ==> deployments[id].id == id
    }

    function ToBooks(): Books
      reads this, deployments.Values
    {
      Books(map id | id in deployments :: deployments[id].View(), usedCPU, usedMemory)
    }

    method CanSchedule(cpu: int64, memory: int64) returns (verdict: Admission)
      ensures verdict == Accounting.CanSchedule(cfg, ToBooks(), cpu, memory)
      ensures -TWO_63 <= usedCPU + cpu < TWO_63 && -TWO_63 <= usedMemory + memory < TWO_63 ==>
                (verdict == Admitted <==>
                 |deployments| < cfg.maxSlots && usedCPU + cpu <= cfg.maxCPU && usedMemory + memory <= cfg.maxMemory)
    {
      assert ToBooks().deployments.Keys == deployments.Keys;
      if |deployments| >= cfg.maxSlots {
        return SlotsReached;
      }
      if Add(usedCPU, cpu) > cfg.maxCPU {
        return InsufficientCPU;
      }
      if Add(usedMemory, memory) > cfg.maxMemory {
        return InsufficientMemory;
      }
      return Admitted;
    }

    method UpdateStatus(id: string, status: Status)
      requires Valid()
      modifies deployments.Values
      ensures Valid() && ToBooks() == SetStatus(old(ToBooks()), id, status)
      ensures forall i :: i in deployments ==>
                && deployments[i].status == (if i == id then status else old(deployments[i].status))
                && deployments[i].containerId == old(deployments[i].containerId)
    {
      if id in deployments {
        var d := deployments[id];
        d.status := status;
        assert ToBooks().deployments == SetStatus(old(ToBooks()), id, status).deployments;
      }
    }

    /** `failDeployment` when `last` is `Failed`, and the last region of `Stop` when it is `Stopped`. */
    method ReleaseDeployment(id: string, last: Status)
      requires Valid()
      modifies this, deployments.Values
      ensures Valid() && ToBooks() == Release(old(ToBooks()), id)
      ensures deployments == old(deployments) - {id}
      ensures id in old(deployments) ==> old(deployments)[id].status == last
    {
      if id in deployments {
        var d := deployments[id];
        d.status := last;
        usedCPU := Sub(usedCPU, d.cpuLimit);
        usedMemory := Sub(usedMemory, d.memoryLimit);
        deployments := deployments - {id};
        assert ToBooks().deployments == Release(old(ToBooks()), id).deployments;
      } else {
        assert deployments - {id} == deployments;
      }
    }

    /** The region of `Schedule` that enters a new record; one that is there under its ID is overwritten. */
    method RegisterRecord(id: string, req: DeployRequest) returns (d: Record)
      requires Valid()
      modifies this
      ensures Valid() && ToBooks() == Register(old(ToBooks()), NewDeployment(id, req))
      ensures fresh(d) && deployments == old(deployments)[id := d]
    {
      d := new Record(id, req);
      deployments := deployments[id := d];
      usedCPU := Add(usedCPU, d.cpuLimit);
      usedMemory := Add(usedMemory, d.memoryLimit);
      assert ToBooks().deployments == Register(old(ToBooks()), NewDeployment(id, req)).deployments;
    }

    method FinaliseRecord(id: string, containerId: string)
      requires Valid()
      modifies deployments.Values
      ensures Valid() && ToBooks() == Finalise(old(ToBooks()), id, containerId)
      ensures forall i :: i in deployments ==>
                && deployments[i].status == (if i == id then Running else old(deployments[i].status))
                && deployments[i].containerId == (if i == id then containerId else old(deployments[i].containerId))
    {
      if id in deployments {
        var d := deployments[id];
        d.containerId := containerId;
        d.status := Running;
        assert ToBooks().deployments == Finalise(old(ToBooks()), id, containerId).deployments;
      }
    }

    /** The part of `Schedule` after registration. */
    method Launch(req: DeployRequest, id: string, pullOk: bool, run: Calls.RunAnswer) returns (outcome: Calls.Outcome)
      requires Valid()
      modifies this, deployments.Values
      ensures Valid()
      ensures (ToBooks(), outcome) == Calls.Launch(old(ToBooks()), req, id, pullOk, run)
      ensures deployments == if outcome.Scheduled? then old(deployments) else old(deployments) - {id}
    {
      UpdateStatus(id, Pulling);
      if !pullOk {
        ReleaseDeployment(id, Failed);
        return Calls.PullFailed;
      }
      UpdateStatus(id, Starting);
      if !ValidConfig(id, req) || run.Refused? {
        ReleaseDeployment(id, Failed);
        return Calls.RunFailed;
      }
      FinaliseRecord(id, run.containerId);
      return Calls.Scheduled(run.containerId);
    }

    /** `Schedule` once the request is admitted. */
    method ScheduleAdmitted(req: DeployRequest, id: string, pullOk: bool, run: Calls.RunAnswer)
      returns (d: Record?, outcome: Calls.Outcome)
      requires Valid()
      modifies this, deployments.Values
      ensures Valid()
      ensures var registered := Register(old(ToBooks()), NewDeployment(id, req));
              (ToBooks(), outcome) == Calls.Launch(registered, req, id, pullOk, run)
      ensures d != null <==> outcome.Scheduled?
      ensures d != null ==> fresh(d) && deployments == old(deployments)[id := d]
      ensures d == null ==> deployments == old(deployments) - {id}
    {
      var record := RegisterRecord(id, req);
      outcome := Launch(req, id, pullOk, run);
      if outcome.Scheduled? {
        return record, outcome;
      }
      assert old(deployments)[id := record] - {id} == old(deployments) - {id};
      return null, outcome;
    }

    /**
     `Schedule`. `id` is what the clock yields, `pullOk` and `run` what docker answers. The record returned on
     success is the very one on the map.
     */
    method Schedule(req: DeployRequest, id: string, pullOk: bool, run: Calls.RunAnswer)
      returns (d: Record?, outcome: Calls.Outcome)
      requires Valid()
      modifies this, deployments.Values
      ensures Valid()
      ensures (ToBooks(), outcome) == Calls.Schedule(cfg, old(ToBooks()), req, id, pullOk, run)
      ensures d != null <==> outcome.Scheduled?
      ensures d != null ==> fresh(d) && deployments == old(deployments)[id := d]
      ensures d == null ==> deployments == if outcome.Rejected? then old(deployments) else old(deployments) - {id}
    {
      var verdict := CanSchedule(req.cpuMillicores, req.memoryBytes);
      if verdict != Admitted {
        return null, Calls.Rejected(verdict);
      }
      d, outcome := ScheduleAdmitted(req, id, pullOk, run);
    }

    /** `Stop`; docker's own failures are ignored, as `Runtime.Stop` ignores them. */
    method Stop(id: string) returns (found: bool)
      requires Valid()
      modifies this, deployments.Values
      ensures Valid() && ToBooks() == Calls.Stop(old(ToBooks()), id).0 && found == Calls.Stop(old(ToBooks()), id).1
      ensures found == (id in old(deployments)) && deployments == old(deployments) - {id}
      ensures id in old(deployments) ==> old(deployments)[id].status == Stopped
    {
      if id !in deployments {
        assert deployments - {id} == deployments;
        return false;
      }
      UpdateStatus(id, Stopping);
      ReleaseDeployment(id, Stopped);
      return true;
    }

    /** `Get`: a copy. */
    method Get(id: string) returns (d: Deployment, ok: bool)
      requires Valid()
      ensures ok == (id in ToBooks().deployments)
      ensures ok ==> d == ToBooks().deployments[id]
    {
      ok := id in deployments;
      if ok {
        d := deployments[id].View();
      } else {
        d := Deployment("", "", "", Pending, "", 0, 0, 0);
      }
    }

    /** `List`: a copy of every record, in whatever order the map yields them. */
    method List() returns (all: seq<Deployment>)
      requires Valid()
      ensures Lists(all, deployments.Keys)
      ensures forall d :: d in all ==> d.id in ToBooks().deployments && d == ToBooks().deployments[d.id]
    {
      all := [];
      var rest := deployments.Keys;
      while rest != {}
        invariant rest <= deployments.Keys && Lists(all, deployments.Keys - rest)
        invariant forall d :: d in all ==> d.id in ToBooks().deployments && d == ToBooks().deployments[d.id]
      {
        var id :| id in rest;
        ListsSnoc(all, deployments.Keys - rest, deployments[id].View());
        all := all + [deployments[id].View()];
        assert deployments.Keys - rest + {id} == deployments.Keys - (rest - {id});
        rest := rest - {id};
      }
      assert deployments.Keys - rest == deployments.Keys;
    }

    /**
     `StopAll` with no other call in progress: it stops what a snapshot lists, in whatever order. Nothing goes
     wrong, the map ends up empty and both totals are zero.
     */
    method StopAll() returns (errors: seq<string>)
      requires Valid() && Conserved(ToBooks())
      modifies this, deployments.Values
      ensures errors == [] && deployments == map[] && ToBooks() == EMPTY
    {
      var all := List();
      assert ToBooks().deployments.Keys == deployments.Keys;
      StopEachEmpties(ToBooks(), all);
      errors := [];
      assert all[0..] == all;
      var i := 0;
      while i < |all|
        invariant 0 <= i <= |all| && errors == []
        invariant Valid() && StopEach(ToBooks(), all[i..]) == EMPTY
        invariant Lists(all[i..], deployments.Keys) && deployments.Values <= old(deployments.Values)
      {
        assert all[i..][0] == all[i] && all[i..][1..] == all[i + 1..];
        var id := all[i].id;
        var found := Stop(id);
        if !found {
          errors := errors + [id];
        }
        i := i + 1;
      }
    }
  }

  /** Stop what `all` lists, one after the other. */
  function StopEach(b: Books, all: seq<Deployment>): Books
    decreases |all|
  {
    if all == [] then b else StopEach(Calls.Stop(b, all[0].id).0, all[1..])
  }

  /** Whatever the order, stopping everything on a balanced map leaves nothing: no deployment and no charge. */
  lemma {:induction false} StopEachEmpties(b: Books, all: seq<Deployment>)
    requires Conserved(b) && Lists(all, b.deployments.Keys)
    ensures StopEach(b, all) == EMPTY
    decreases |all|
  {
    if all == [] {
      assert b.deployments == map[];
    } else {
      ConservedStop(b, all[0].id);
      assert Calls.Stop(b, all[0].id).0.deployments.Keys == b.deployments.Keys - {all[0].id};
      StopEachEmpties(Calls.Stop(b, all[0].id).0, all[1..]);
    }
  }

  /** `all` has one record for each of `ids`. */
  ghost predicate Lists(all: seq<Deployment>, ids: set<string>) {
    if all == [] then ids == {} else all[0].id in ids && Lists(all[1..], ids - {all[0].id})
  }

  lemma {:induction false} ListsSnoc(all: seq<Deployment>, ids: set<string>, d: Deployment)
    requires Lists(all, ids) && d.id !in ids
    ensures Lists(all + [d], ids + {d.id})
  {
    if all == [] {
      assert [d][1..] == [] && ids + {d.id} - {d.id} == {};
    } else {
      ListsSnoc(all[1..], ids - {all[0].id}, d);
      assert (all + [d])[1..] == all[1..] + [d];
      assert ids + {d.id} - {all[0].id} == ids - {all[0].id} + {d.id};
    }
  }

  lemma ConservedStop(b: Books, id: string)
    requires Conserved(b)
    ensures Conserved(Calls.Stop(b, id).0)
  {
    if id in b.deployments {
      RewriteConserves(b, id, b.deployments[id].(status := Stopping));
    }
    ReleaseConserves(SetStatus(b, id, Stopping), id);
  }

  /**
   `StopAll` drains from any state that any interleaving of calls can reach: whatever order the map is listed in,
   stopping what is listed leaves no deployment and no charge.
   */
  lemma ReachableBooksDrain(cfg: Config, es: seq<Steps.Event>, t: Steps.State, all: seq<Deployment>)
    requires Machines.Runs(Steps.Scheduling(cfg, Steps.Anything), Steps.INIT, es, t)
    requires Lists(all, t.books.deployments.Keys)
    ensures StopEach(t.books, all) == EMPTY
  {
    Safety.Conservation(cfg, es, t);
    StopEachEmpties(t.books, all);
  }
}
