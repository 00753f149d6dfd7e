/**
 When `handleDeploy` panics: it logs the first 12 characters of the container ID in the record that `Schedule` hands it.
 */
module HandlerCrash {
  import opened Accounting
  import opened HandlerRaces
  import opened Machines
  import opened Options
  import Safety = SchedulerSafety
  import Steps = SchedulerSteps

  /** Docker's container IDs have at least 12 characters. */
  predicate LongIds(s: State, e: Event) { e.Sched? && e.e.RunOk? ==> |e.e.containerId| >= 12 }

  ghost predicate Long(s: Steps.State, id: string) {
    id in s.phase && (s.phase[id].Ran? || s.phase[id].Returned?) ==> |s.phase[id].containerId| >= 12
  }

  /** A lost record of a call that has returned shows the container ID it returned, unless it was stopped early. */
  ghost predicate Shows(s: Steps.State, id: string) {
    && (id in s.gone ==> id in s.phase)
    && (id in s.gone && id !in s.early ==>
          || s.phase[id] == Steps.ReturnedError
          || s.phase[id] == Steps.Returned(s.gone[id].containerId))
  }

  lemma StepShows(cfg: Config, s: Steps.State, e: Steps.Event, id: string)
    requires Shows(s, id) && Safety.Fits(s, id) && Steps.Enabled(cfg, s, e)
    requires e.StopRelease? ==> Safety.HasReadFits(s, e.stop)
    ensures Shows(Steps.Next(cfg, s, e), id)
  {}

  lemma StepLong(cfg: Config, s: Steps.State, e: Steps.Event, id: string)
    requires Long(s, id) && Steps.Enabled(cfg, s, e) && (e.RunOk? ==> |e.containerId| >= 12)
    ensures Long(Steps.Next(cfg, s, e), id)
  {}

  /** The record that the deploy handler of `id` is handed had been released before its container ID was written. */
  predicate LostUnfinished(s: Steps.State, id: string) {
    id in s.gone && s.gone[id].containerId == "" && id in s.phase && s.phase[id].Returned?
  }

  ghost predicate SchedInv(s: Steps.State) {
    && Safety.Inv(s)
    && (forall id :: Shows(s, id) && Long(s, id))
    && (forall k :: Safety.HasReadFits(s, k))
  }

  ghost predicate CrashInv(s: State) {
    && SchedInv(s.sched)
    && (s.crashed.Some? ==> LostUnfinished(s.sched, s.crashed.value) && s.crashed.value in s.sched.early)
  }

  lemma StepSchedInv(cfg: Config, s: Steps.State, e: Steps.Event)
    requires SchedInv(s) && Steps.Enabled(cfg, s, e) && (e.RunOk? ==> |e.containerId| >= 12)
    ensures SchedInv(Steps.Next(cfg, s, e))
  {
    Safety.StepInv(cfg, s, e);
    var t := Steps.Next(cfg, s, e);
    forall id
      ensures Shows(t, id) && Long(t, id)
    {
      assert Safety.Fits(s, id) && Shows(s, id) && Long(s, id);
      assert e.StopRelease? ==> Safety.HasReadFits(s, e.stop);
      StepShows(cfg, s, e, id);
      StepLong(cfg, s, e, id);
    }
    forall k
      ensures Safety.HasReadFits(t, k)
    {
      assert Safety.HasReadFits(s, k) && (k in s.stops ==> Safety.Fits(s, s.stops[k].id));
      Safety.StepHasReadFits(cfg, s, e, k);
    }
  }

  /** The event in which a deploy handler reads the container ID, and what it then does. */
  lemma ReadsContainerId(cfg: Config, s: State, id: string, sent: bool)
    requires SchedInv(s.sched) && Enabled(cfg, s, Expose(id, sent))
    ensures Next(cfg, s, Expose(id, sent)).crashed.Some? <==> LostUnfinished(s.sched, id)
    ensures LostUnfinished(s.sched, id) ==>
              id in s.sched.early && Next(cfg, s, Expose(id, sent)) == s.(crashed := Some(id))
  {
    assert Safety.Fits(s.sched, id) && Shows(s.sched, id) && Long(s.sched, id);
  }

  lemma StepCrashInv(cfg: Config, s: State, e: Event)
    requires CrashInv(s) && Enabled(cfg, s, e) && LongIds(s, e)
    ensures CrashInv(Next(cfg, s, e))
  {
    if e.Sched? {
      StepSchedInv(cfg, s.sched, e.e);
    } else if e.StopMark? {
      StepSchedInv(cfg, s.sched, Steps.StopMark(e.stop, s.stops[e.stop].id));
    } else if e.Expose? {
      ReadsContainerId(cfg, s, e.id, e.sent);
    }
  }

  lemma Invariant(cfg: Config, es: seq<Event>, t: State)
    requires Runs(Handling(cfg, LongIds), INIT, es, t)
    ensures CrashInv(t)
  {
    Safety.Invariant(cfg, Steps.Anything, [], Steps.INIT);
    var m := Handling(cfg, LongIds);
    forall s, e | CrashInv(s) && m.may(s, e)
      ensures CrashInv(m.next(s, e))
    {
      StepCrashInv(cfg, s, e);
    }
    Induction(m, CrashInv, INIT, es, t);
  }

  /**
   Exactly which deploy handlers panic, with a docker that gives long container IDs. In every reachable state in which
   one is about to read the container ID, it panics if and only if the record it was handed had been released before the
   container ID was written to it; and then a `Stop` that had read no container ID has released it.
   */
  lemma CrashIffLostUnfinished(cfg: Config, es: seq<Event>, t: State, id: string, sent: bool)
    requires Runs(Handling(cfg, LongIds), INIT, es, t) && Enabled(cfg, t, Expose(id, sent))
    ensures Next(cfg, t, Expose(id, sent)).crashed.Some? <==>
            id in t.sched.gone && id in t.sched.early && t.sched.gone[id].containerId == ""
  {
    Invariant(cfg, es, t);
    ReadsContainerId(cfg, t, id, sent);
  }

  /** So the deployment whose handler has panicked is one that was stopped early, itself and not another. */
  lemma CrashOnlyAfterEarlyStop(cfg: Config, es: seq<Event>, t: State)
    requires Runs(Handling(cfg, LongIds), INIT, es, t) && t.crashed.Some?
    ensures var id := t.crashed.value;
            id in t.sched.early && id in t.sched.gone && t.sched.gone[id].containerId == ""
  {
    Invariant(cfg, es, t);
  }

  // ---------- stopping only what has been scheduled ----------

  /** A stop handler gets to the scheduler only for deployments whose `Schedule` call has returned. */
  predicate StopsWhatIsScheduled(s: State, e: Event) {
    && LongIds(s, e)
    && (e.StopMark? && e.stop in s.stops ==>
          s.stops[e.stop].id in s.sched.phase && s.sched.phase[s.stops[e.stop].id].Returned?)
  }

  ghost predicate StopIsLate(s: Steps.State, k: nat) {
    k in s.stops ==> s.stops[k].id in s.phase && s.phase[s.stops[k].id].Returned?
  }

  ghost predicate NotLostUnfinished(s: Steps.State, id: string) {
    id in s.gone ==>
      && id in s.phase
      && (s.phase[id] == Steps.ReturnedError || s.phase[id] == Steps.Returned(s.gone[id].containerId))
  }

  lemma StepStopIsLate(cfg: Config, s: Steps.State, e: Steps.Event, k: nat)
    requires StopIsLate(s, k) && Steps.Enabled(cfg, s, e)
    requires e.StopMark? ==> e.id in s.phase && s.phase[e.id].Returned?
    ensures StopIsLate(Steps.Next(cfg, s, e), k)
  {}

  lemma StepNotLost(cfg: Config, s: Steps.State, e: Steps.Event, id: string)
    requires NotLostUnfinished(s, id) && Safety.Fits(s, id) && Steps.Enabled(cfg, s, e)
    requires e.StopRelease? ==> StopIsLate(s, e.stop)
    ensures NotLostUnfinished(Steps.Next(cfg, s, e), id)
  {}

  ghost predicate LateInv(s: State) {
    && CrashInv(s)
    && s.crashed.None?
    && (forall id :: NotLostUnfinished(s.sched, id))
    && (forall k :: StopIsLate(s.sched, k))
  }

  lemma SchedLate(cfg: Config, s: Steps.State, e: Steps.Event)
    requires Safety.Inv(s) && Steps.Enabled(cfg, s, e) && (e.StopMark? ==> e.id in s.phase && s.phase[e.id].Returned?)
    requires (forall id :: NotLostUnfinished(s, id)) && (forall k :: StopIsLate(s, k))
    ensures forall id :: NotLostUnfinished(Steps.Next(cfg, s, e), id)
    ensures forall k :: StopIsLate(Steps.Next(cfg, s, e), k)
  {
    forall id
      ensures NotLostUnfinished(Steps.Next(cfg, s, e), id)
    {
      assert NotLostUnfinished(s, id) && Safety.Fits(s, id) && (e.StopRelease? ==> StopIsLate(s, e.stop));
      StepNotLost(cfg, s, e, id);
    }
    forall k
      ensures StopIsLate(Steps.Next(cfg, s, e), k)
    {
      assert StopIsLate(s, k);
      StepStopIsLate(cfg, s, e, k);
    }
  }

  lemma StepLate(cfg: Config, s: State, e: Event)
    requires LateInv(s) && Enabled(cfg, s, e) && StopsWhatIsScheduled(s, e)
    ensures LateInv(Next(cfg, s, e))
  {
    StepCrashInv(cfg, s, e);
    if e.Sched? {
      SchedLate(cfg, s.sched, e.e);
    } else if e.StopMark? {
      SchedLate(cfg, s.sched, Steps.StopMark(e.stop, s.stops[e.stop].id));
    } else if e.Expose? {
      ReadsContainerId(cfg, s, e.id, e.sent);
      assert NotLostUnfinished(s.sched, e.id) && Long(s.sched, e.id);
    }
  }

  /**
   If stop requests reach the scheduler only for deployments whose `Schedule` has returned, no handler ever panics, in
   any interleaving. It is the condition under which no container is orphaned.
   */
  lemma NoCrashWhenStopsAreLate(cfg: Config, es: seq<Event>, t: State)
    requires Runs(Handling(cfg, StopsWhatIsScheduled), INIT, es, t)
    ensures t.crashed.None?
  {
    Safety.Invariant(cfg, Steps.Anything, [], Steps.INIT);
    var m := Handling(cfg, StopsWhatIsScheduled);
    forall s, e | LateInv(s) && m.may(s, e)
      ensures LateInv(m.next(s, e))
    {
      StepLate(cfg, s, e);
    }
    Induction(m, LateInv, INIT, es, t);
  }
}
