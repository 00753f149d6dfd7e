/** How the gateway's copy of a provider's routes follows the provider's own. */
module RouteReplay {
  import opened Machines
  import opened Options
  import opened TunnelLink

  /** The table after all of `msgs` have been acted on, in order. */
  function Replay(routes: map<string, int>, msgs: seq<UpMsg>): map<string, int>
    decreases |msgs|
  {
    if msgs == [] then routes else Replay(Apply(routes, msgs[0]), msgs[1..])
  }

  lemma {:induction false} ReplaySnoc(routes: map<string, int>, msgs: seq<UpMsg>, m: UpMsg)
    ensures Replay(routes, msgs + [m]) == Apply(Replay(routes, msgs), m)
    decreases |msgs|
  {
    if msgs == [] {
      assert Replay(Apply(routes, m), [m][1..]) == Apply(routes, m);
    } else {
      ReplaySnoc(Apply(routes, msgs[0]), msgs[1..], m);
      assert (msgs + [m])[1..] == msgs[1..] + [m];
    }
  }

  /** A register or unregister message for `d`. */
  predicate Concerns(m: UpMsg, d: string) { !m.Response? && m.dep == d }

  /** Messages that do not concern a deployment leave its entry alone. */
  lemma {:induction false} ReplayOthers(routes: map<string, int>, msgs: seq<UpMsg>, d: string)
    requires forall m :: m in msgs ==> !Concerns(m, d)
    ensures Get(Replay(routes, msgs), d) == Get(routes, d)
    decreases |msgs|
  {
    if msgs != [] {
      assert !Concerns(msgs[0], d);
      ReplayOthers(Apply(routes, msgs[0]), msgs[1..], d);
    }
  }

  /** Messages the gateway has not acted on yet: the one its reader holds, then those on the link. */
  function Undelivered(l: Link): seq<UpMsg> {
    (if l.reader.Holding? then [l.reader.msg] else []) + l.up
  }

  function Get(routes: map<string, int>, d: string): Option<int> {
    if d in routes then Some(routes[d]) else None
  }

  /** What the call that sends `m` makes of the provider's route for its deployment. */
  function Target(m: UpMsg): Option<int>
    requires !m.Response?
  {
    if m.Register? then Some(m.port) else None
  }

  /**
   Calls of `RegisterDeployment` and `UnregisterDeployment` for one deployment do not overlap, unless they are about to
   make the same of its route.
   */
  predicate NoConflict(l: Link, e: Event) {
    e.OpBegin? && !e.msg.Response? ==>
      forall o :: o in l.ops && Concerns(l.ops[o].msg, e.msg.dep) ==> Target(l.ops[o].msg) == Target(e.msg)
  }

  ghost predicate OpsFit(l: Link) {
    && (forall o :: o in l.ops ==> !l.ops[o].msg.Response?)
    && (forall o, q :: o in l.ops && q in l.ops && l.ops[o].msg.dep == l.ops[q].msg.dep ==>
          Target(l.ops[o].msg) == Target(l.ops[q].msg))
  }

  /** The call for `d` that has sent its message and not yet updated the provider's own routes, if there is one. */
  predicate BetweenSendAndUpdate(l: Link, o: nat, d: string) {
    o in l.ops && !l.ops[o].msg.Response? && l.ops[o].sent && l.ops[o].msg.dep == d
  }

  /**
   The gateway, once it has caught up, will have for `d` what the provider has; or, while a call for `d` is
   between its send and its update, what that call is about to write there.
   */
  ghost predicate Agrees(l: Link, d: string) {
    l.reader != Closed ==>
      var caughtUp := Get(Replay(l.gwRoutes, Undelivered(l)), d);
      && (forall o :: BetweenSendAndUpdate(l, o, d) ==> caughtUp == Target(l.ops[o].msg))
      && ((forall o :: !BetweenSendAndUpdate(l, o, d)) ==> caughtUp == Get(l.clientRoutes, d))
  }

  ghost predicate Inv(l: Link) { OpsFit(l) && forall d :: Agrees(l, d) }

  // ---------- one event at a time ----------

  predicate ReaderMoves(e: Event) {
    e.Read? || e.WriteRoute? || e.WriteIndex? || e.Confirm? || e.DropRoute? || e.Deliver? || e.Unlock?
  }

  /**
   A step that only moves a message from the link into the reader's hand and on to the table changes nothing here.
   */
  lemma ReaderStep(l: Link, e: Event)
    requires Enabled(l, e) && ReaderMoves(e)
    ensures var n := Next(l, e);
            && Replay(n.gwRoutes, Undelivered(n)) == Replay(l.gwRoutes, Undelivered(l))
            && n.ops == l.ops && n.clientRoutes == l.clientRoutes
  {
    if Acts(e) {
      ActStep(l, e);
      HeadReplayed(l.gwRoutes, l.reader.msg, Undelivered(Next(l, e)));
    } else {
      CarryStep(l, e);
    }
  }

  predicate Acts(e: Event) { e.WriteRoute? || e.DropRoute? || e.Deliver? }

  lemma HeadReplayed(routes: map<string, int>, m: UpMsg, msgs: seq<UpMsg>)
    ensures Replay(routes, [m] + msgs) == Replay(Apply(routes, m), msgs)
  {
    assert ([m] + msgs)[1..] == msgs;
  }

  /** Acting on the message in the reader's hand. */
  lemma ActStep(l: Link, e: Event)
    requires Enabled(l, e) && Acts(e)
    ensures Undelivered(l) == [l.reader.msg] + Undelivered(Next(l, e))
    ensures Next(l, e).gwRoutes == Apply(l.gwRoutes, l.reader.msg)
    ensures Next(l, e).ops == l.ops && Next(l, e).clientRoutes == l.clientRoutes
  {
    match e
    case WriteRoute =>
    case DropRoute =>
    case Deliver => DeliverLeaves(l);
  }

  lemma DeliverLeaves(l: Link)
    requires Enabled(l, Deliver)
    ensures var n := Next(l, Deliver);
            && !n.reader.Holding? && n.up == l.up && n.gwRoutes == l.gwRoutes
            && n.ops == l.ops && n.clientRoutes == l.clientRoutes
  {}

  /** The reader's other steps. */
  lemma CarryStep(l: Link, e: Event)
    requires Enabled(l, e) && ReaderMoves(e) && !Acts(e)
    ensures var n := Next(l, e);
            && Undelivered(n) == Undelivered(l) && n.gwRoutes == l.gwRoutes
            && n.ops == l.ops && n.clientRoutes == l.clientRoutes
  {}

  lemma OtherStep(l: Link, e: Event)
    requires Enabled(l, e)
    requires e.Begin? || e.SendRequest? || e.Receive? || e.TimeOut? || e.CleanUp? || e.ClientRead? || e.Look?
    ensures var n := Next(l, e);
            && n.gwRoutes == l.gwRoutes && Undelivered(n) == Undelivered(l)
            && n.ops == l.ops && n.clientRoutes == l.clientRoutes && n.reader == l.reader
  {}

  lemma AnswerStep(l: Link, e: Event)
    requires Enabled(l, e) && e.Answer?
    ensures var n := Next(l, e);
            && n.reader == l.reader && n.ops == l.ops && n.clientRoutes == l.clientRoutes
            && Replay(n.gwRoutes, Undelivered(n)) == Replay(l.gwRoutes, Undelivered(l))
  {
    var n := Next(l, e);
    if e.ok {
      var m := n.up[|l.up|];
      assert Undelivered(n) == Undelivered(l) + [m];
      ReplaySnoc(l.gwRoutes, Undelivered(l), m);
    } else {
      assert Undelivered(n) == Undelivered(l);
    }
  }

  lemma SendStep(l: Link, o: nat, ok: bool, d: string)
    requires Inv(l) && Enabled(l, OpSend(o, ok))
    ensures Agrees(Next(l, OpSend(o, ok)), d)
  {
    var n := Next(l, OpSend(o, ok));
    assert Agrees(l, d);
    assert forall q :: q != o ==> (BetweenSendAndUpdate(n, q, d) <==> BetweenSendAndUpdate(l, q, d));
    assert !BetweenSendAndUpdate(l, o, d);
    if ok {
      var m := l.ops[o].msg;
      assert Undelivered(n) == Undelivered(l) + [m];
      ReplaySnoc(l.gwRoutes, Undelivered(l), m);
      if m.dep == d {
        assert BetweenSendAndUpdate(n, o, d);
        assert forall q :: BetweenSendAndUpdate(l, q, d) ==> Target(l.ops[q].msg) == Target(m);
      }
    } else {
      assert Undelivered(n) == Undelivered(l);
    }
  }

  lemma FinishStep(l: Link, o: nat, d: string)
    requires Inv(l) && Enabled(l, OpFinish(o))
    ensures Agrees(Next(l, OpFinish(o)), d)
  {
    var n := Next(l, OpFinish(o));
    assert Agrees(l, d);
    assert Undelivered(n) == Undelivered(l);
    assert forall q :: q != o ==> (BetweenSendAndUpdate(n, q, d) <==> BetweenSendAndUpdate(l, q, d));
    if l.ops[o].msg.dep == d {
      assert BetweenSendAndUpdate(l, o, d);
      assert Get(n.clientRoutes, d) == Target(l.ops[o].msg);
    } else {
      assert !BetweenSendAndUpdate(l, o, d);
      assert !BetweenSendAndUpdate(n, o, d);
    }
  }

  lemma BeginStep(l: Link, o: nat, m: UpMsg, d: string)
    requires Inv(l) && Enabled(l, OpBegin(o, m))
    ensures Agrees(Next(l, OpBegin(o, m)), d)
  {
    var n := Next(l, OpBegin(o, m));
    assert Agrees(l, d);
    assert Undelivered(n) == Undelivered(l);
    assert forall q :: BetweenSendAndUpdate(n, q, d) <==> BetweenSendAndUpdate(l, q, d);
  }

  lemma SameAgrees(l: Link, n: Link, d: string)
    requires Agrees(l, d) && n.ops == l.ops && n.clientRoutes == l.clientRoutes && l.reader != Closed
    requires Replay(n.gwRoutes, Undelivered(n)) == Replay(l.gwRoutes, Undelivered(l))
    ensures Agrees(n, d)
  {
    assert forall o :: BetweenSendAndUpdate(n, o, d) <==> BetweenSendAndUpdate(l, o, d);
  }

  lemma StepAgrees(l: Link, e: Event, d: string)
    requires Inv(l) && Enabled(l, e)
    ensures Agrees(Next(l, e), d)
  {
    assert Agrees(l, d);
    if l.reader.Closed? || e.Disconnect? {
      StaysClosed(l, e);
    } else if e.OpSend? {
      SendStep(l, e.op, e.ok, d);
    } else if e.OpFinish? {
      FinishStep(l, e.op, d);
    } else if e.OpBegin? {
      BeginStep(l, e.op, e.msg, d);
    } else {
      if ReaderMoves(e) {
        ReaderStep(l, e);
      } else if e.Answer? {
        AnswerStep(l, e);
      } else {
        OtherStep(l, e);
      }
      SameAgrees(l, Next(l, e), d);
    }
  }

  lemma StaysClosed(l: Link, e: Event)
    requires Enabled(l, e) && (l.reader.Closed? || e.Disconnect?)
    ensures Next(l, e).reader == Closed
  {}

  lemma StepOpsFit(l: Link, e: Event)
    requires OpsFit(l) && Enabled(l, e) && NoConflict(l, e)
    ensures OpsFit(Next(l, e))
  {
    if OnOps(e) {
      CallOpsFit(l, e);
    } else {
      OthersLeaveOps(l, e);
    }
  }

  lemma CallOpsFit(l: Link, e: Event)
    requires OpsFit(l) && Enabled(l, e) && NoConflict(l, e) && OnOps(e)
    ensures OpsFit(Next(l, e))
  {}

  lemma Invariant(env: (Link, Event) -> bool, es: seq<Event>, t: Link)
    requires forall l, e :: env(l, e) ==> NoConflict(l, e)
    requires Runs(Linking(env), FRESH, es, t)
    ensures Inv(t)
  {
    var m := Linking(env);
    forall l, e | Inv(l) && m.may(l, e)
      ensures Inv(m.next(l, e))
    {
      assert NoConflict(l, e);
      StepOpsFit(l, e);
      forall d
        ensures Agrees(Next(l, e), d)
      {
        StepAgrees(l, e, d);
      }
    }
    assert forall d :: Agrees(FRESH, d);
    Induction(m, Inv, FRESH, es, t);
  }

  /**
   Queue replay. While the gateway serves the connection and calls for one deployment do not overlap, acting on
   what is still undelivered gives the provider's own routes, except where a call is between its send and its
   update.
   */
  lemma ReplayGivesClientRoutes(es: seq<Event>, t: Link, d: string)
    requires Runs(Linking(NoConflict), FRESH, es, t) && t.reader != Closed
    ensures (forall o :: !BetweenSendAndUpdate(t, o, d)) ==>
              Get(Replay(t.gwRoutes, Undelivered(t)), d) == Get(t.clientRoutes, d)
    ensures forall o :: BetweenSendAndUpdate(t, o, d) ==>
              Get(Replay(t.gwRoutes, Undelivered(t)), d) == Target(t.ops[o].msg)
  {
    Invariant(NoConflict, es, t);
    assert Agrees(t, d);
  }

  /** With nothing undelivered and no call in progress, the two ends have the same routes. */
  lemma QuiescentRoutesEqual(es: seq<Event>, t: Link)
    requires Runs(Linking(NoConflict), FRESH, es, t) && t.reader != Closed
    requires Undelivered(t) == [] && t.ops == map[]
    ensures t.gwRoutes == t.clientRoutes
  {
    forall d
      ensures Get(t.gwRoutes, d) == Get(t.clientRoutes, d)
    {
      ReplayGivesClientRoutes(es, t, d);
    }
    assert forall d :: d in t.gwRoutes <==> Get(t.gwRoutes, d).Some?;
    assert forall d :: d in t.clientRoutes <==> Get(t.clientRoutes, d).Some?;
    assert forall d :: d in t.gwRoutes ==> Get(t.gwRoutes, d) == Some(t.gwRoutes[d]);
  }

  // ---------- the hypothesis is exact ----------

  /** A call that begins is `m1` or `m2`. */
  predicate BeginsOne(e: Event, m1: UpMsg, m2: UpMsg) { e.OpBegin? ==> e.msg == m1 || e.msg == m2 }

  /** The runs in which the only calls are `m1` and `m2`, any number of times and however they overlap. */
  ghost function Calling(m1: UpMsg, m2: UpMsg): Machine<Link, Event> {
    Linking((l, e) => BeginsOne(e, m1, m2))
  }

  ghost predicate Called(m1: UpMsg, m2: UpMsg, es: seq<Event>, l: Link) { Runs(Calling(m1, m2), FRESH, es, l) }

  /** Such a run ends with the link served, nothing undelivered and no call in progress. */
  ghost predicate EndsQuiet(m1: UpMsg, m2: UpMsg, es: seq<Event>, t: Link) {
    Called(m1, m2, es, t) && t.reader != Closed && Undelivered(t) == [] && t.ops == map[]
  }

  /** One step of such a run. */
  lemma Go(m1: UpMsg, m2: UpMsg, es: seq<Event>, l: Link, e: Event) returns (es': seq<Event>, n: Link)
    requires Called(m1, m2, es, l) && Enabled(l, e) && BeginsOne(e, m1, m2)
    ensures Called(m1, m2, es', n) && n == Next(l, e)
  {
    Extend(Calling(m1, m2), FRESH, es, l, e);
    es', n := es + [e], Next(l, e);
  }

  lemma BothBegin(m1: UpMsg, m2: UpMsg) returns (es: seq<Event>, t: Link)
    requires !m1.Response? && !m2.Response?
    ensures Called(m1, m2, es, t) && t == FRESH.(ops := map[0 := Op(m1, false), 1 := Op(m2, false)])
  {
    es, t := Go(m1, m2, [], FRESH, OpBegin(0, m1));
    es, t := Go(m1, m2, es, t, OpBegin(1, m2));
  }

  /** Both calls send, `m1` first. */
  lemma BothSend(m1: UpMsg, m2: UpMsg) returns (es: seq<Event>, t: Link)
    requires !m1.Response? && !m2.Response?
    ensures Called(m1, m2, es, t)
    ensures t == FRESH.(up := [m1, m2], ops := map[0 := Op(m1, true), 1 := Op(m2, true)])
  {
    es, t := BothBegin(m1, m2);
    es, t := Go(m1, m2, es, t, OpSend(0, true));
    es, t := Go(m1, m2, es, t, OpSend(1, true));
    assert t.up == [m1, m2];
  }

  /** Then they write the provider's routes, `m2` first. */
  lemma CallsCross(m1: UpMsg, m2: UpMsg) returns (es: seq<Event>, t: Link)
    requires !m1.Response? && !m2.Response? && m1.dep == m2.dep
    ensures Called(m1, m2, es, t) && t == FRESH.(up := [m1, m2], clientRoutes := t.clientRoutes)
    ensures Get(t.clientRoutes, m1.dep) == Target(m1)
  {
    es, t := BothSend(m1, m2);
    es, t := Go(m1, m2, es, t, OpFinish(1));
    es, t := Go(m1, m2, es, t, OpFinish(0));
    assert t.ops == map[];
  }

  /** The gateway acts on the next message. */
  lemma ActOnNext(m1: UpMsg, m2: UpMsg, es: seq<Event>, l: Link) returns (es': seq<Event>, t: Link)
    requires Called(m1, m2, es, l) && l.reader == Idle && l.up != [] && !l.up[0].Response?
    ensures Called(m1, m2, es', t) && t.reader == Idle && t.up == l.up[1..]
    ensures t.gwRoutes == Apply(l.gwRoutes, l.up[0]) && t.ops == l.ops && t.clientRoutes == l.clientRoutes
  {
    es', t := Go(m1, m2, es, l, Read);
    if l.up[0].Register? {
      es', t := Go(m1, m2, es', t, WriteRoute);
      es', t := Go(m1, m2, es', t, WriteIndex);
      es', t := Go(m1, m2, es', t, Confirm(true));
    } else {
      es', t := Go(m1, m2, es', t, DropRoute);
    }
  }

  /**
   Any two calls for one deployment that overlap can send in one order and update in the other: the link falls silent
   with the provider holding what the first makes of the route and the gateway what the second does.
   */
  lemma OverlapDiverges(m1: UpMsg, m2: UpMsg) returns (es: seq<Event>, t: Link)
    requires !m1.Response? && !m2.Response? && m1.dep == m2.dep
    ensures EndsQuiet(m1, m2, es, t)
    ensures Get(t.clientRoutes, m1.dep) == Target(m1) && Get(t.gwRoutes, m1.dep) == Target(m2)
  {
    es, t := CallsCross(m1, m2);
    es, t := ActOnNext(m1, m2, es, t);
    es, t := ActOnNext(m1, m2, es, t);
  }

  /**
   The exact condition. Two calls for one deployment, made any number of times and overlapping in any way, leave both
   ends with the same routes whenever the link falls silent, if and only if they make the same of the route.
   */
  lemma OverlapHarmlessIff(m1: UpMsg, m2: UpMsg)
    requires !m1.Response? && !m2.Response? && m1.dep == m2.dep
    ensures (forall es, t :: EndsQuiet(m1, m2, es, t) ==> t.gwRoutes == t.clientRoutes) <==> Target(m1) == Target(m2)
  {
    if Target(m1) == Target(m2) {
      forall es, t | EndsQuiet(m1, m2, es, t)
        ensures t.gwRoutes == t.clientRoutes
      {
        HarmlessWhenEqual(m1, m2, es, t);
      }
    } else {
      var es, t := OverlapDiverges(m1, m2);
    }
  }

  ghost predicate OnlyThese(l: Link, m1: UpMsg, m2: UpMsg) {
    forall o :: o in l.ops ==> l.ops[o].msg == m1 || l.ops[o].msg == m2
  }

  lemma StepOnlyThese(l: Link, e: Event, m1: UpMsg, m2: UpMsg)
    requires OnlyThese(l, m1, m2) && Enabled(l, e) && BeginsOne(e, m1, m2)
    ensures OnlyThese(Next(l, e), m1, m2)
  {
    if !OnOps(e) {
      OthersLeaveOps(l, e);
    }
  }

  lemma {:induction false} IsConflictFree(s: Link, es: seq<Event>, t: Link, m1: UpMsg, m2: UpMsg)
    requires !m1.Response? && !m2.Response? && Target(m1) == Target(m2)
    requires OnlyThese(s, m1, m2) && Runs(Calling(m1, m2), s, es, t)
    ensures Runs(Linking(NoConflict), s, es, t)
    decreases |es|
  {
    if es != [] {
      assert BeginsOne(es[0], m1, m2);
      assert NoConflict(s, es[0]);
      StepOnlyThese(s, es[0], m1, m2);
      IsConflictFree(Next(s, es[0]), es[1..], t, m1, m2);
    }
  }

  lemma HarmlessWhenEqual(m1: UpMsg, m2: UpMsg, es: seq<Event>, t: Link)
    requires !m1.Response? && !m2.Response? && Target(m1) == Target(m2) && EndsQuiet(m1, m2, es, t)
    ensures t.gwRoutes == t.clientRoutes
  {
    IsConflictFree(FRESH, es, t, m1, m2);
    QuiescentRoutesEqual(es, t);
  }
}
