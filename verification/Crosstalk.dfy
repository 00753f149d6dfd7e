/** Which request a response answers. */
module Crosstalk {
  import opened Bags
  import opened Machines
  import opened Options
  import opened TunnelLink
  import Table = PendingTable

  /** Call `o` asked for deployment `d` under request ID `r`. */
  predicate Asked(l: Link, r: string, d: string, o: nat) {
    o in l.calls && l.calls[o].reqId == r && l.calls[o].dep == d
  }

  predicate DownFits(l: Link, m: DownMsg) { m.Forward? ==> Asked(l, m.reqId, m.dep, m.origin) }

  predicate LookFits(l: Link, b: Lookup) { Asked(l, b.reqId, b.dep, b.origin) }

  /**
   A response was produced by a handler of the request it names, after a look at the routes that allows its reply.
   */
  ghost predicate Explained(l: Link, m: UpMsg) {
    m.Response? ==>
      exists b :: b in l.lookups && b.origin == m.origin && b.reqId == m.reqId && Possible(m.reply, b.dep, b.routes)
  }

  ghost predicate AnswerFits(l: Link, r: string, a: Option<UpMsg>) {
    a.Some? ==> a.value.Response? && a.value.reqId == r && Explained(l, a.value)
  }

  ghost predicate CallFits(l: Link, k: nat) {
    k in l.calls ==> && AnswerFits(l, l.calls[k].reqId, l.calls[k].slot)
                     && (l.calls[k].wait.Returned? ==> AnswerFits(l, l.calls[k].reqId, l.calls[k].wait.answer))
  }

  ghost predicate Inv(l: Link) {
    && (forall m :: m in l.down ==> DownFits(l, m))
    && (forall m :: m in l.spawned ==> DownFits(l, m))
    && (forall b :: b in l.lookups ==> LookFits(l, b))
    && (forall b :: b in l.busy ==> b in l.lookups)
    && (forall m :: m in l.up ==> Explained(l, m))
    && (l.reader.Holding? ==> Explained(l, l.reader.msg))
    && (forall o :: o in l.ops ==> !l.ops[o].msg.Response?)
    && (forall k :: CallFits(l, k))
  }

  /** What later states only add to. */
  ghost predicate Grows(l: Link, n: Link) {
    && (forall k :: k in l.calls ==>
          k in n.calls && n.calls[k].reqId == l.calls[k].reqId && n.calls[k].dep == l.calls[k].dep)
    && (forall b :: b in l.lookups ==> b in n.lookups)
  }

  lemma StepGrows(l: Link, e: Event)
    requires Enabled(l, e)
    ensures Grows(l, Next(l, e))
  {
    var n := Next(l, e);
    forall k | k in l.calls
      ensures k in n.calls && n.calls[k].reqId == l.calls[k].reqId && n.calls[k].dep == l.calls[k].dep
    {}
    forall b | b in l.lookups
      ensures b in n.lookups
    {}
  }

  lemma StepRequests(l: Link, e: Event)
    requires Inv(l) && Enabled(l, e)
    ensures var n := Next(l, e);
            && (forall m :: m in n.down ==> DownFits(n, m))
            && (forall m :: m in n.spawned ==> DownFits(n, m))
  {
    StepGrows(l, e);
    var n := Next(l, e);
    forall m | m in n.down
      ensures DownFits(n, m)
    {
      assert m in l.down ==> DownFits(l, m);
    }
    forall m | m in n.spawned
      ensures DownFits(n, m)
    {
      assert m in l.down ==> DownFits(l, m);
      assert m in l.spawned ==> DownFits(l, m);
    }
  }

  lemma StepLookups(l: Link, e: Event)
    requires Inv(l) && Enabled(l, e)
    ensures var n := Next(l, e);
            && (forall b :: b in n.lookups ==> LookFits(n, b))
            && (forall b :: b in n.busy ==> b in n.lookups)
  {
    StepGrows(l, e);
    var n := Next(l, e);
    forall b | b in n.lookups
      ensures LookFits(n, b)
    {
      assert b in l.lookups ==> LookFits(l, b);
      if e.Look? {
        assert DownFits(l, l.spawned[e.job]);
      }
    }
    forall b | b in n.busy
      ensures b in n.lookups
    {
      assert b in l.busy ==> b in l.lookups;
    }
  }

  lemma StillExplained(l: Link, n: Link, m: UpMsg)
    requires Explained(l, m) && Grows(l, n)
    ensures Explained(n, m)
  {}

  lemma StepUp(l: Link, e: Event)
    requires Inv(l) && Enabled(l, e)
    ensures var n := Next(l, e);
            && (forall m :: m in n.up ==> Explained(n, m))
            && (n.reader.Holding? ==> Explained(n, n.reader.msg))
  {
    StepGrows(l, e);
    var n := Next(l, e);
    forall m | m in n.up
      ensures Explained(n, m)
    {
      if m in l.up {
        StillExplained(l, n, m);
      } else if e.Answer? {
        assert l.busy[e.job] in l.lookups;
      }
    }
    if e.Read? {
      StillExplained(l, n, l.up[0]);
    } else if l.reader.Holding? {
      StillExplained(l, n, l.reader.msg);
    }
  }

  lemma StillFits(l: Link, n: Link, r: string, a: Option<UpMsg>)
    requires AnswerFits(l, r, a) && Grows(l, n)
    ensures AnswerFits(n, r, a)
  {
    if a.Some? {
      StillExplained(l, n, a.value);
    }
  }

  /** What a call has or answers after a step: what it had, or the message in the reader's hand. */
  predicate Kept(l: Link, n: Link, k: nat) {
    k in n.calls ==>
      && (k in l.calls ==> n.calls[k].reqId == l.calls[k].reqId)
      && (n.calls[k].slot.Some? && !(k in l.calls && n.calls[k].slot == l.calls[k].slot) ==>
            l.reader.Holding? && l.reader.msg.Response? && n.calls[k].slot == Some(l.reader.msg) &&
            n.calls[k].reqId == l.reader.msg.reqId)
      && (n.calls[k].wait.Returned? && n.calls[k].wait.answer.Some? ==>
            k in l.calls && (n.calls[k].wait.answer == l.calls[k].slot || n.calls[k].wait == l.calls[k].wait))
  }

  lemma DeliverKept(l: Link, k: nat)
    requires Enabled(l, Deliver) && Table.EntryFits(l, l.reader.msg.reqId)
    ensures Kept(l, Next(l, Deliver), k)
  {}

  lemma CallerKept(l: Link, e: Event, k: nat)
    requires Enabled(l, e) && OnCalls(e) && !e.Deliver?
    ensures Kept(l, Next(l, e), k)
  {}

  /**
   A call keeps its channel and its answer, or moves the one to the other, or is given the message in the reader's
   hand.
   */
  lemma StepCallFits(l: Link, e: Event, k: nat)
    requires CallFits(l, k) && Enabled(l, e)
    requires e.Deliver? ==> Table.EntryFits(l, l.reader.msg.reqId)
    requires l.reader.Holding? ==> Explained(l, l.reader.msg)
    ensures CallFits(Next(l, e), k)
  {
    StepGrows(l, e);
    if e.Deliver? {
      DeliverKept(l, k);
    } else if OnCalls(e) {
      CallerKept(l, e, k);
    } else {
      OthersLeaveCalls(l, e);
    }
    CallStillFits(l, Next(l, e), k);
  }

  lemma CallStillFits(l: Link, n: Link, k: nat)
    requires CallFits(l, k) && Grows(l, n) && Kept(l, n, k)
    requires l.reader.Holding? ==> Explained(l, l.reader.msg)
    ensures CallFits(n, k)
  {
    if k in l.calls {
      StillFits(l, n, l.calls[k].reqId, l.calls[k].slot);
      if l.calls[k].wait.Returned? {
        StillFits(l, n, l.calls[k].reqId, l.calls[k].wait.answer);
      }
    }
    if l.reader.Holding? {
      StillExplained(l, n, l.reader.msg);
    }
  }

  ghost predicate FullInv(l: Link) { Table.Inv(l) && Inv(l) }

  lemma StepKeeps(l: Link, e: Event)
    requires FullInv(l) && Enabled(l, e)
    ensures Inv(Next(l, e))
  {
    StepRequests(l, e);
    StepLookups(l, e);
    StepUp(l, e);
    var n := Next(l, e);
    forall k
      ensures CallFits(n, k)
    {
      assert CallFits(l, k);
      assert e.Deliver? ==> Table.EntryFits(l, l.reader.msg.reqId);
      StepCallFits(l, e, k);
    }
    assert forall o :: o in n.ops ==> !n.ops[o].msg.Response?;
  }

  lemma Invariant(env: (Link, Event) -> bool, es: seq<Event>, t: Link)
    requires Runs(Linking(env), FRESH, es, t)
    ensures FullInv(t)
  {
    var m := Linking(env);
    Table.StepsKeep(env);
    forall l, e | FullInv(l) && m.may(l, e)
      ensures FullInv(m.next(l, e))
    {
      assert Table.Inv(m.next(l, e));
      StepKeeps(l, e);
    }
    Induction(m, FullInv, FRESH, es, t);
  }

  // ---------- at most one of everything per call ----------

  function Asks(m: DownMsg): multiset<nat> { if m.Forward? then multiset{m.origin} else multiset{} }

  function Looks(b: Lookup): multiset<nat> { multiset{b.origin} }

  /** Requests of call `k`: on the link, with a fresh handler, or looked up. */
  ghost function Requests(l: Link, k: nat): nat {
    Bag(l.down, Asks)[k] + Bag(l.spawned, Asks)[k] + Bag(l.lookups, Looks)[k]
  }

  /** Handlers that have looked for call `k` and not answered, and responses sent for it. */
  ghost function Responses(l: Link, k: nat): nat { Bag(l.busy, Looks)[k] + l.answered[k] }

  predicate Sent(l: Link, k: nat) { k in l.calls && !l.calls[k].wait.Inserted? }

  ghost predicate Tokens(l: Link, k: nat) {
    && Requests(l, k) <= (if Sent(l, k) then 1 else 0)
    && Responses(l, k) <= Bag(l.lookups, Looks)[k]
  }

  /** A step that is neither of those below leaves all these bags alone. */
  predicate MovesRequests(e: Event) { e.SendRequest? || e.Confirm? || e.ClientRead? || e.Look? || e.Answer? }

  lemma OthersLeaveRequests(l: Link, e: Event)
    requires Enabled(l, e) && !MovesRequests(e)
    ensures var n := Next(l, e);
            n.down == l.down && n.spawned == l.spawned && n.lookups == l.lookups && n.busy == l.busy &&
              n.answered == l.answered
  {}

  /** A call sends its request once, and has then sent it for good. */
  lemma SentStays(l: Link, e: Event, k: nat)
    requires Enabled(l, e)
    ensures Sent(l, k) ==> Sent(Next(l, e), k) && e != SendRequest(k, true)
    ensures e == SendRequest(k, true) ==> Sent(Next(l, e), k)
  {}

  lemma SendMoves(l: Link, c: nat, ok: bool, k: nat)
    requires Enabled(l, SendRequest(c, ok))
    ensures Requests(Next(l, SendRequest(c, ok)), k) == Requests(l, k) + (if c == k && ok then 1 else 0)
  {
    if ok {
      BagSnoc(l.down, Forward(l.calls[c].reqId, l.calls[c].dep, c), Asks);
    }
  }

  lemma ConfirmMoves(l: Link, ok: bool, k: nat)
    requires Enabled(l, Confirm(ok))
    ensures Requests(Next(l, Confirm(ok)), k) == Requests(l, k)
  {
    if ok {
      BagSnoc(l.down, Registered(l.reader.dep), Asks);
    }
  }

  lemma ClientReadMoves(l: Link, k: nat)
    requires Enabled(l, ClientRead)
    ensures Requests(Next(l, ClientRead), k) == Requests(l, k)
  {
    BagSnoc(l.spawned, l.down[0], Asks);
  }

  lemma LookMoves(l: Link, i: nat, k: nat)
    requires Enabled(l, Look(i))
    ensures Requests(Next(l, Look(i)), k) == Requests(l, k)
  {
    BagTakeOut(l.spawned, i, Asks);
    BagSnoc(l.lookups, Next(l, Look(i)).lookups[|l.lookups|], Looks);
  }

  lemma LookAnswers(l: Link, i: nat, k: nat)
    requires Enabled(l, Look(i)) && Responses(l, k) <= Bag(l.lookups, Looks)[k]
    ensures Responses(Next(l, Look(i)), k) <= Bag(Next(l, Look(i)).lookups, Looks)[k]
  {
    var seen := Lookup(l.spawned[i].reqId, l.spawned[i].dep, l.spawned[i].origin, l.clientRoutes);
    BagSnoc(l.busy, seen, Looks);
    BagSnoc(l.lookups, seen, Looks);
  }

  lemma AnswerMoves(l: Link, i: nat, reply: Reply, ok: bool, k: nat)
    requires Enabled(l, Answer(i, reply, ok))
    ensures Responses(Next(l, Answer(i, reply, ok)), k) <= Responses(l, k)
    ensures Requests(Next(l, Answer(i, reply, ok)), k) == Requests(l, k)
    ensures Next(l, Answer(i, reply, ok)).lookups == l.lookups
  {
    BagTakeOut(l.busy, i, Looks);
  }

  lemma StepRequestCount(l: Link, e: Event, k: nat)
    requires Enabled(l, e)
    ensures Requests(Next(l, e), k) == Requests(l, k) + (if e == SendRequest(k, true) then 1 else 0)
  {
    match e
    case SendRequest(c, ok) => SendMoves(l, c, ok, k);
    case Confirm(ok) => ConfirmMoves(l, ok, k);
    case ClientRead => ClientReadMoves(l, k);
    case Look(i) => LookMoves(l, i, k);
    case Answer(i, reply, ok) => AnswerMoves(l, i, reply, ok, k);
    case _ => OthersLeaveRequests(l, e);
  }

  lemma StepResponseCount(l: Link, e: Event, k: nat)
    requires Enabled(l, e) && Responses(l, k) <= Bag(l.lookups, Looks)[k]
    ensures Responses(Next(l, e), k) <= Bag(Next(l, e).lookups, Looks)[k]
  {
    if e.Look? {
      LookAnswers(l, e.job, k);
    } else if e.Answer? {
      AnswerMoves(l, e.job, e.reply, e.ok, k);
    }
  }

  lemma StepTokens(l: Link, e: Event, k: nat)
    requires Tokens(l, k) && Enabled(l, e)
    ensures Tokens(Next(l, e), k)
  {
    SentStays(l, e, k);
    StepRequestCount(l, e, k);
    StepResponseCount(l, e, k);
  }

  lemma TokensInvariant(env: (Link, Event) -> bool, es: seq<Event>, t: Link)
    requires Runs(Linking(env), FRESH, es, t)
    ensures forall k :: Tokens(t, k)
  {
    var m := Linking(env);
    forall l, e | TokensAll(l) && m.may(l, e)
      ensures TokensAll(m.next(l, e))
    {
      forall k
        ensures Tokens(Next(l, e), k)
      {
        assert Tokens(l, k);
        StepTokens(l, e, k);
      }
    }
    Induction(m, TokensAll, FRESH, es, t);
  }

  ghost predicate TokensAll(l: Link) { forall k :: Tokens(l, k) }

  /** In every interleaving a request is looked up at most once and answered at most once. */
  lemma AtMostOneResponse(es: seq<Event>, t: Link, k: nat)
    requires Runs(Linking(Anything), FRESH, es, t)
    ensures t.answered[k] <= Bag(t.lookups, Looks)[k] <= 1
  {
    TokensInvariant(Anything, es, t);
    assert Tokens(t, k);
  }

  // ---------- correlation ----------

  /** Request IDs on this connection are distinct over the run: no two calls ever made share one. */
  predicate DistinctIds(l: Link) {
    forall j, k :: j in l.calls && k in l.calls && l.calls[j].reqId == l.calls[k].reqId ==> j == k
  }

  /** Only a look adds to the history of looks. */
  lemma LookIsNew(l: Link, e: Event, b: Lookup)
    requires Enabled(l, e) && b in Next(l, e).lookups && b !in l.lookups
    ensures e.Look?
    ensures var m := l.spawned[e.job]; b == Lookup(m.reqId, m.dep, m.origin, l.clientRoutes)
  {
    if e.Look? {
    } else if MovesRequests(e) {
      OthersKeepLooks(l, e);
    } else {
      OthersLeaveRequests(l, e);
    }
  }

  lemma OthersKeepLooks(l: Link, e: Event)
    requires Enabled(l, e) && MovesRequests(e) && !e.Look?
    ensures Next(l, e).lookups == l.lookups
  {}

  /**
   The history of looks is true: each entry was the provider's routes in the state in which that handler looked.
   */
  lemma {:induction false} LookupsAreTrue(s: Link, es: seq<Event>, t: Link, b: Lookup) returns (i: nat, u: Link)
    requires Runs(Linking(Anything), s, es, t) && b in t.lookups && b !in s.lookups
    ensures i < |es| && Runs(Linking(Anything), s, es[..i], u) && Enabled(u, es[i]) && es[i].Look?
    ensures var m := u.spawned[es[i].job]; b == Lookup(m.reqId, m.dep, m.origin, u.clientRoutes)
    decreases |es|
  {
    var n := Next(s, es[0]);
    if b in n.lookups {
      LookIsNew(s, es[0], b);
      i, u := 0, s;
    } else {
      i, u := LookupsAreTrue(n, es[1..], t, b);
      assert es[..i + 1][1..] == es[1..][..i];
      i := i + 1;
    }
  }

  /**
   No crosstalk. In every interleaving a `Request` call that returns a response gets one with the request ID it
   asked under. If request IDs are distinct, the response was produced for that very call: its handler looked
   exactly once, saw some routes, and the reply is 404 if the deployment was not among them and otherwise 500, 502
   or what the container at the port found there said.
   */
  lemma NoCrosstalk(es: seq<Event>, t: Link, k: nat, m: UpMsg)
    requires Runs(Linking(Anything), FRESH, es, t)
    requires k in t.calls && t.calls[k].wait == Returned(Some(m))
    ensures m.Response? && m.reqId == t.calls[k].reqId
    ensures DistinctIds(t) ==> m.origin == k
    ensures DistinctIds(t) ==> exists b ::
              && b in t.lookups && b.origin == k && b.dep == t.calls[k].dep
              && (m.reply == NotFound <==> b.dep !in b.routes)
              && (m.reply.FromContainer? ==> b.dep in b.routes && m.reply.port == b.routes[b.dep])
    ensures Bag(t.lookups, Looks)[k] <= 1
  {
    Invariant(Anything, es, t);
    AtMostOneResponse(es, t, k);
    assert CallFits(t, k);
    var b :| b in t.lookups && b.origin == m.origin && b.reqId == m.reqId && Possible(m.reply, b.dep, b.routes);
    assert LookFits(t, b);
  }

  /** A response that comes after its call has returned finds no entry, and is dropped without a trace. */
  lemma LateResponseIsDropped(es: seq<Event>, t: Link)
    requires Runs(Linking(Anything), FRESH, es, t) && DistinctIds(t)
    requires t.reader.Holding? && t.reader.msg.Response?
    ensures t.reader.msg.origin in t.calls
    ensures t.calls[t.reader.msg.origin].wait.Returned? ==>
              Enabled(t, Deliver) && Next(t, Deliver) == t.(reader := Idle)
  {
    Invariant(Anything, es, t);
    var m := t.reader.msg;
    var b :| b in t.lookups && b.origin == m.origin && b.reqId == m.reqId && Possible(m.reply, b.dep, b.routes);
    assert LookFits(t, b);
    assert Table.EntryFits(t, m.reqId);
  }

  // ---------- distinct request IDs are needed ----------

  lemma Exposes(d: string, p: int) returns (es: seq<Event>, t: Link)
    ensures Reached(es, t)
    ensures t == FRESH.(up := [Register(d, p)], clientRoutes := map[d := p])
  {
    es, t := Do([], FRESH, OpBegin(0, Register(d, p)));
    es, t := Do(es, t, OpSend(0, true));
    es, t := Do(es, t, OpFinish(0));
    assert t.ops == map[];
  }

  /** Calls 0 and 1 both ask under `r`; the entry is that of call 1. */
  lemma BothAsk(es: seq<Event>, l: Link, r: string, d1: string, d2: string) returns (es': seq<Event>, t: Link)
    requires Reached(es, l) && LockFree(l) && l.calls == map[] && l.pending == map[] && l.down == []
    ensures Reached(es', t) && t.down == [Forward(r, d1, 0), Forward(r, d2, 1)]
    ensures r in t.pending && t.pending[r] == 1 && 1 in t.calls && t.calls[1] == Call(r, d2, Waiting, None, true)
    ensures t == l.(down := t.down, pending := t.pending, calls := t.calls)
  {
    es', t := Do(es, l, Begin(0, r, d1));
    es', t := Do(es', t, SendRequest(0, true));
    es', t := Do(es', t, Begin(1, r, d2));
    es', t := Do(es', t, SendRequest(1, true));
  }

  lemma FirstAnswered(es: seq<Event>, l: Link, r: string, d: string, p: int, content: nat)
    returns (es': seq<Event>, t: Link)
    requires Reached(es, l) && l.down != [] && l.down[0] == Forward(r, d, 0) && l.spawned == [] && l.busy == []
    requires d in l.clientRoutes && l.clientRoutes[d] == p
    ensures Reached(es', t) && t.up == l.up + [Response(r, FromContainer(p, content), 0)]
    ensures t.reader == l.reader && t.pending == l.pending && t.calls == l.calls
  {
    es', t := Do(es, l, ClientRead);
    es', t := Do(es', t, Look(0));
    es', t := Do(es', t, Answer(0, FromContainer(p, content), true));
  }

  lemma ReaderRegisters(es: seq<Event>, l: Link) returns (es': seq<Event>, t: Link)
    requires Reached(es, l) && l.reader == Idle && l.up != [] && l.up[0].Register?
    ensures Reached(es', t) && t.reader == Idle && t.up == l.up[1..] && t.pending == l.pending && t.calls == l.calls
  {
    es', t := Do(es, l, Read);
    es', t := Do(es', t, WriteRoute);
    es', t := Do(es', t, WriteIndex);
    es', t := Do(es', t, Confirm(true));
  }

  /**
   A hypothesis on request IDs is needed: two calls that ask under one ID while both are pending can cross.
   Whatever the ID, the deployments, the port and the content, call 1 can return what the container of call 0's
   deployment said.
   */
  lemma ReusedIdCrosses(r: string, d1: string, d2: string, p: int, content: nat) returns (es: seq<Event>, t: Link)
    ensures Runs(Linking(Anything), FRESH, es, t)
    ensures 1 in t.calls && t.calls[1].dep == d2
    ensures t.calls[1].wait == Returned(Some(Response(r, FromContainer(p, content), 0)))
  {
    es, t := Exposes(d1, p);
    es, t := BothAsk(es, t, r, d1, d2);
    es, t := FirstAnswered(es, t, r, d1, p, content);
    es, t := ReaderRegisters(es, t);
    es, t := Do(es, t, Read);
    es, t := Do(es, t, Deliver);
    es, t := Do(es, t, Receive(1));
  }
}
