/** When a request ID may be used again without answers going astray. */
module RequestIds {
  import opened Bags
  import opened Machines
  import opened Options
  import opened TunnelLink
  import opened Crosstalk
  import Replay = RouteReplay
  import Table = PendingTable

  /** A call after which nothing can still be on its way: it was never sent, or its response has been returned. */
  predicate Settled(l: Link, k: nat)
    requires k in l.calls
  {
    var c := l.calls[k];
    || (!c.sent && (c.wait.GivingUp? || c.wait.Returned?))
    || (c.wait.Returned? && c.wait.answer.Some?)
  }

  /** The assumption: a call begins only under an ID whose earlier calls are all settled. */
  predicate SafeReuse(l: Link, e: Event) {
    e.Begin? ==> forall j :: j in l.calls && l.calls[j].reqId == e.reqId ==> Settled(l, j)
  }

  function Origin(m: UpMsg): multiset<nat> { if m.Response? then multiset{m.origin} else multiset{} }

  /** What is on its way for call `k`: its request, a handler at work, or a response. */
  ghost function OnTheWay(l: Link, k: nat): nat {
    Bag(l.down, Asks)[k] + Bag(l.spawned, Asks)[k] + Bag(l.busy, Looks)[k] + Bag(Replay.Undelivered(l), Origin)[k]
  }

  /** Responses that have reached call `k`: in its channel or returned. */
  function Arrived(l: Link, k: nat): nat {
    if k !in l.calls then 0
    else
      (if l.calls[k].slot.Some? then 1 else 0)
      + (if l.calls[k].wait.Returned? && l.calls[k].wait.answer.Some? then 1 else 0)
  }

  function WasSent(l: Link, k: nat): nat { if k in l.calls && l.calls[k].sent then 1 else 0 }

  predicate OwnAnswer(k: nat, a: Option<UpMsg>) { a.Some? ==> a.value.Response? && a.value.origin == k }

  /** A call gets its own responses only; while it is open, its ID leads to it and to no other. */
  predicate CallOwns(l: Link, k: nat) {
    k in l.calls ==>
      && (l.calls[k].wait.Inserted? ==> !l.calls[k].sent)
      && OwnAnswer(k, l.calls[k].slot)
      && (l.calls[k].wait.Returned? ==> OwnAnswer(k, l.calls[k].wait.answer))
      && (!Settled(l, k) && l.calls[k].reqId in l.pending ==> l.pending[l.calls[k].reqId] == k)
  }

  /** Each call has at most one of everything, and only once it was sent. */
  ghost predicate Single(l: Link, k: nat) {
    OnTheWay(l, k) + Arrived(l, k) <= WasSent(l, k) && CallOwns(l, k)
  }

  ghost predicate Inv(l: Link) { FullInv(l) && forall k :: Single(l, k) }

  // ---------- what each step does to what is on its way ----------

  lemma SendOnTheWay(l: Link, c: nat, ok: bool, k: nat)
    requires Enabled(l, SendRequest(c, ok))
    ensures OnTheWay(Next(l, SendRequest(c, ok)), k) == OnTheWay(l, k) + (if ok && c == k then 1 else 0)
  {
    if ok {
      BagSnoc(l.down, Forward(l.calls[c].reqId, l.calls[c].dep, c), Asks);
    }
  }

  lemma ConfirmOnTheWay(l: Link, ok: bool, k: nat)
    requires Enabled(l, Confirm(ok))
    ensures OnTheWay(Next(l, Confirm(ok)), k) == OnTheWay(l, k)
  {
    if ok {
      BagSnoc(l.down, Registered(l.reader.dep), Asks);
    }
  }

  lemma ClientReadOnTheWay(l: Link, k: nat)
    requires Enabled(l, ClientRead)
    ensures OnTheWay(Next(l, ClientRead), k) == OnTheWay(l, k)
  {
    BagSnoc(l.spawned, l.down[0], Asks);
  }

  lemma LookOnTheWay(l: Link, i: nat, k: nat)
    requires Enabled(l, Look(i))
    ensures OnTheWay(Next(l, Look(i)), k) == OnTheWay(l, k)
  {
    var m := l.spawned[i];
    BagTakeOut(l.spawned, i, Asks);
    BagSnoc(l.busy, Lookup(m.reqId, m.dep, m.origin, l.clientRoutes), Looks);
  }

  lemma AnswerOnTheWay(l: Link, i: nat, reply: Reply, ok: bool, k: nat)
    requires Enabled(l, Answer(i, reply, ok))
    ensures OnTheWay(Next(l, Answer(i, reply, ok)), k) <= OnTheWay(l, k)
  {
    var n := Next(l, Answer(i, reply, ok));
    BagTakeOut(l.busy, i, Looks);
    if ok {
      var m := Response(l.busy[i].reqId, reply, l.busy[i].origin);
      assert Replay.Undelivered(n) == Replay.Undelivered(l) + [m];
      BagSnoc(Replay.Undelivered(l), m, Origin);
    } else {
      assert Replay.Undelivered(n) == Replay.Undelivered(l);
    }
  }

  /** Acting on a message takes it off what is on its way, and changes nothing else of that. */
  lemma ActOnTheWay(l: Link, e: Event, k: nat)
    requires Enabled(l, e) && Replay.Acts(e)
    ensures OnTheWay(l, k) == OnTheWay(Next(l, e), k) + Origin(l.reader.msg)[k]
  {
    Replay.ActStep(l, e);
    assert Replay.Undelivered(l)[1..] == Replay.Undelivered(Next(l, e));
  }

  lemma OpOnTheWay(l: Link, e: Event, k: nat)
    requires Enabled(l, e) && (e.OpBegin? || e.OpSend? || e.OpFinish?)
    requires e.OpSend? ==> !l.ops[e.op].msg.Response?
    ensures OnTheWay(Next(l, e), k) == OnTheWay(l, k)
  {
    var n := Next(l, e);
    if e.OpSend? && e.ok {
      assert Replay.Undelivered(n) == Replay.Undelivered(l) + [l.ops[e.op].msg];
      BagSnoc(Replay.Undelivered(l), l.ops[e.op].msg, Origin);
    } else {
      assert Replay.Undelivered(n) == Replay.Undelivered(l);
    }
  }

  /** The other steps leave it alone. */
  lemma RestOnTheWay(l: Link, e: Event, k: nat)
    requires Enabled(l, e)
    requires || e.Begin? || e.Receive? || e.TimeOut? || e.CleanUp?
             || e.Read? || e.WriteIndex? || e.Unlock? || e.Disconnect?
    ensures OnTheWay(Next(l, e), k) == OnTheWay(l, k)
  {
    assert Replay.Undelivered(Next(l, e)) == Replay.Undelivered(l);
  }

  lemma StepOnTheWay(l: Link, e: Event, k: nat)
    requires Enabled(l, e) && (e.OpSend? ==> !l.ops[e.op].msg.Response?)
    ensures OnTheWay(Next(l, e), k) + (if e.Deliver? then Origin(l.reader.msg)[k] else 0)
            <= OnTheWay(l, k) + (if e == SendRequest(k, true) then 1 else 0)
  {
    match e
    case SendRequest(c, ok) => SendOnTheWay(l, c, ok, k);
    case Confirm(ok) => ConfirmOnTheWay(l, ok, k);
    case ClientRead => ClientReadOnTheWay(l, k);
    case Look(i) => LookOnTheWay(l, i, k);
    case Answer(i, reply, ok) => AnswerOnTheWay(l, i, reply, ok, k);
    case WriteRoute => ActOnTheWay(l, e, k);
    case DropRoute => ActOnTheWay(l, e, k);
    case Deliver => ActOnTheWay(l, e, k);
    case OpBegin(_, _) => OpOnTheWay(l, e, k);
    case OpSend(_, _) => OpOnTheWay(l, e, k);
    case OpFinish(_) => OpOnTheWay(l, e, k);
    case _ => RestOnTheWay(l, e, k);
  }

  // ---------- one event at a time ----------

  /** A response in the reader's hand is that of an open call, which its ID leads to if it leads anywhere. */
  lemma HeldIsOpen(l: Link)
    requires Inv(l) && l.reader.Holding? && l.reader.msg.Response?
    ensures var m := l.reader.msg;
            && m.origin in l.calls && l.calls[m.origin].reqId == m.reqId && !Settled(l, m.origin)
            && Arrived(l, m.origin) == 0
            && (m.reqId in l.pending ==> l.pending[m.reqId] == m.origin)
  {
    var m := l.reader.msg;
    assert Single(l, m.origin);
    assert Replay.Undelivered(l)[0] == m;
    assert OnTheWay(l, m.origin) >= Origin(m)[m.origin];
    var b :| b in l.lookups && b.origin == m.origin && b.reqId == m.reqId && Possible(m.reply, b.dep, b.routes);
    assert LookFits(l, b);
  }

  /** From `l` to `n` call `k` keeps to its own, and at most `came` more responses reach it. */
  predicate CallMoves(l: Link, n: Link, k: nat, came: nat) {
    CallOwns(n, k) && Arrived(n, k) <= Arrived(l, k) + came && WasSent(l, k) <= WasSent(n, k)
  }

  lemma BeginCall(l: Link, c: nat, r: string, d: string, k: nat)
    requires CallOwns(l, k) && Enabled(l, Begin(c, r, d)) && SafeReuse(l, Begin(c, r, d))
    ensures CallMoves(l, Next(l, Begin(c, r, d)), k, 0)
  {
    if k in l.calls && l.calls[k].reqId == r {
      assert Settled(l, k);
    }
  }

  lemma SendCall(l: Link, c: nat, ok: bool, k: nat)
    requires CallOwns(l, k) && Enabled(l, SendRequest(c, ok))
    ensures CallMoves(l, Next(l, SendRequest(c, ok)), k, 0)
    ensures c == k && ok ==> WasSent(l, k) == 0 && WasSent(Next(l, SendRequest(c, ok)), k) == 1
  {}

  lemma ReceiveCall(l: Link, c: nat, k: nat)
    requires CallOwns(l, k) && Enabled(l, Receive(c))
    ensures CallMoves(l, Next(l, Receive(c)), k, 0)
  {}

  lemma TimeOutCall(l: Link, c: nat, k: nat)
    requires CallOwns(l, k) && Enabled(l, TimeOut(c))
    ensures CallMoves(l, Next(l, TimeOut(c)), k, 0)
  {}

  lemma CleanUpCall(l: Link, c: nat, k: nat)
    requires CallOwns(l, k) && Enabled(l, CleanUp(c))
    ensures CallMoves(l, Next(l, CleanUp(c)), k, 0)
  {}

  lemma DeliverCall(l: Link, k: nat)
    requires CallOwns(l, k) && Enabled(l, Deliver)
    requires l.reader.msg.reqId in l.pending ==> l.pending[l.reader.msg.reqId] == l.reader.msg.origin
    ensures CallMoves(l, Next(l, Deliver), k, Origin(l.reader.msg)[k])
  {}

  lemma StepCall(l: Link, e: Event, k: nat)
    requires CallOwns(l, k) && Enabled(l, e) && SafeReuse(l, e)
    requires e.Deliver? && l.reader.msg.reqId in l.pending ==> l.pending[l.reader.msg.reqId] == l.reader.msg.origin
    ensures CallMoves(l, Next(l, e), k, if e.Deliver? then Origin(l.reader.msg)[k] else 0)
    ensures e == SendRequest(k, true) ==> WasSent(l, k) == 0 && WasSent(Next(l, e), k) == 1
  {
    match e
    case Begin(c, r, d) => BeginCall(l, c, r, d, k);
    case SendRequest(c, ok) => SendCall(l, c, ok, k);
    case Receive(c) => ReceiveCall(l, c, k);
    case TimeOut(c) => TimeOutCall(l, c, k);
    case CleanUp(c) => CleanUpCall(l, c, k);
    case Deliver => DeliverCall(l, k);
    case _ => OthersLeaveCalls(l, e);
  }

  lemma StepSingle(l: Link, e: Event, k: nat)
    requires Inv(l) && Enabled(l, e) && SafeReuse(l, e)
    ensures Single(Next(l, e), k)
  {
    assert Single(l, k);
    if e.Deliver? {
      HeldIsOpen(l);
    }
    StepOnTheWay(l, e, k);
    StepCall(l, e, k);
  }

  lemma Invariant(env: (Link, Event) -> bool, es: seq<Event>, t: Link)
    requires forall l, e :: env(l, e) ==> SafeReuse(l, e)
    requires Runs(Linking(env), FRESH, es, t)
    ensures Inv(t)
  {
    var m := Linking(env);
    Crosstalk.Invariant(env, [], FRESH);
    Table.StepsKeep(env);
    forall l, e | Inv(l) && m.may(l, e)
      ensures Inv(m.next(l, e))
    {
      assert SafeReuse(l, e);
      assert Table.Inv(m.next(l, e));
      StepKeeps(l, e);
      forall k
        ensures Single(Next(l, e), k)
      {
        StepSingle(l, e, k);
      }
    }
    Induction(m, Inv, FRESH, es, t);
  }

  /**
   No crosstalk although request IDs are used again. In every interleaving in which a call begins only under an ID
   whose earlier calls have returned their response or could not be sent: a call that returns a response gets its
   own, produced after a look at the routes that allows it.
   */
  lemma NoCrosstalkOnReuse(es: seq<Event>, t: Link, k: nat, m: UpMsg)
    requires Runs(Linking(SafeReuse), FRESH, es, t)
    requires k in t.calls && t.calls[k].wait == Returned(Some(m))
    ensures m.Response? && m.reqId == t.calls[k].reqId && m.origin == k
    ensures exists b ::
              && b in t.lookups && b.origin == k && b.dep == t.calls[k].dep
              && (m.reply == NotFound <==> b.dep !in b.routes)
              && (m.reply.FromContainer? ==> b.dep in b.routes && m.reply.port == b.routes[b.dep])
  {
    Invariant(SafeReuse, es, t);
    assert Single(t, k) && CallFits(t, k);
    var b :| b in t.lookups && b.origin == m.origin && b.reqId == m.reqId && Possible(m.reply, b.dep, b.routes);
    assert LookFits(t, b);
  }

  /** And a response that comes after its call has returned is dropped, although its ID may be used again. */
  lemma LateIsDroppedOnReuse(es: seq<Event>, t: Link)
    requires Runs(Linking(SafeReuse), FRESH, es, t)
    requires t.reader.Holding? && t.reader.msg.Response? && t.reader.msg.origin in t.calls
    requires t.calls[t.reader.msg.origin].wait.Returned?
    ensures Enabled(t, Deliver) && Next(t, Deliver) == t.(reader := Idle)
  {
    Invariant(SafeReuse, es, t);
    HeldIsOpen(t);
    assert Table.EntryFits(t, t.reader.msg.reqId);
  }

  /** IDs that are never used again are a special case. */
  lemma {:induction false} DistinctIdsAreSafe(s: Link, es: seq<Event>, t: Link)
    requires Runs(Linking(Anything), s, es, t) && DistinctIds(t)
    ensures Runs(Linking(SafeReuse), s, es, t)
    ensures Grows(s, t)
    decreases |es|
  {
    if es != [] {
      var n := Next(s, es[0]);
      DistinctIdsAreSafe(n, es[1..], t);
      StepGrows(s, es[0]);
      if es[0].Begin? {
        var c := es[0].call;
        assert c !in s.calls && c in n.calls && n.calls[c].reqId == es[0].reqId;
        assert forall j :: j in s.calls ==> j in t.calls && t.calls[j].reqId == s.calls[j].reqId;
        assert forall j :: j in s.calls && s.calls[j].reqId == es[0].reqId ==> j == c;
      }
      assert SafeReuse(s, es[0]);
    }
  }

  // ---------- and not before ----------

  /** Call 0 asks, gives up waiting and cleans up; call 1 asks under the same ID. */
  lemma AskAgain(es: seq<Event>, l: Link, r: string, d1: string, d2: string) returns (es': seq<Event>, t: Link)
    requires Reached(es, l) && LockFree(l) && l.calls == map[] && l.pending == map[] && l.down == []
    ensures Reached(es', t) && t.down == [Forward(r, d1, 0), Forward(r, d2, 1)]
    ensures r in t.pending && t.pending[r] == 1 && t.calls.Keys == {0, 1}
    ensures t.calls[0].wait == Returned(None) && t.calls[1] == Call(r, d2, Waiting, None, true)
    ensures t == l.(down := t.down, pending := t.pending, calls := t.calls)
  {
    es', t := AskInVain(es, l, r, d1);
    es', t := Do(es', t, Begin(1, r, d2));
    es', t := Do(es', t, SendRequest(1, true));
  }

  lemma AskInVain(es: seq<Event>, l: Link, r: string, d: string) returns (es': seq<Event>, t: Link)
    requires Reached(es, l) && LockFree(l) && l.calls == map[] && l.pending == map[] && l.down == []
    ensures Reached(es', t) && t.calls.Keys == {0} && t.calls[0].wait == Returned(None)
    ensures t == l.(down := [Forward(r, d, 0)], calls := t.calls)
  {
    es', t := AsksFirst(es, l, r, d);
    es', t := Do(es', t, TimeOut(0));
    es', t := Do(es', t, CleanUp(0));
    assert t.pending == map[];
  }

  lemma AsksFirst(es: seq<Event>, l: Link, r: string, d: string) returns (es': seq<Event>, t: Link)
    requires Reached(es, l) && LockFree(l) && l.calls == map[] && l.pending == map[] && l.down == []
    ensures Reached(es', t) && t.pending == map[r := 0] && t.calls == map[0 := Call(r, d, Waiting, None, true)]
    ensures t == l.(down := [Forward(r, d, 0)], pending := t.pending, calls := t.calls)
  {
    es', t := Do(es, l, Begin(0, r, d));
    es', t := Do(es', t, SendRequest(0, true));
  }

  /**
   A call that has timed out is not settled: although it has returned and cleaned up, the next call under its ID can
   return what was meant for it, whatever the ID, the deployments, the port and the content.
   */
  lemma ReuseAfterTimeoutCrosses(r: string, d1: string, d2: string, p: int, content: nat)
    returns (es: seq<Event>, t: Link)
    ensures Runs(Linking(Anything), FRESH, es, t)
    ensures 0 in t.calls && t.calls[0].wait == Returned(None)
    ensures 1 in t.calls && t.calls[1].dep == d2
    ensures t.calls[1].wait == Returned(Some(Response(r, FromContainer(p, content), 0)))
  {
    es, t := Exposes(d1, p);
    es, t := AskAgain(es, t, r, d1, d2);
    es, t := FirstAnswered(es, t, r, d1, p, content);
    es, t := ReaderRegisters(es, t);
    es, t := Do(es, t, Read);
    es, t := Do(es, t, Deliver);
    es, t := Do(es, t, Receive(1));
  }
}
