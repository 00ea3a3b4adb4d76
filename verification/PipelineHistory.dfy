/**
 * The pipeline against its run. Its two halves are runs of their own, so every
 * theorem about a connection or about the proxy holds inside it; and calls and
 * replies are the ones its own events brought.
 */
module PipelineHistory {
  import opened Wire
  import opened Pipeline
  import opened PipelineTheorems
  import C = Connection
  import CS = ConnectionSafety
  import P = Proxy
  import PT = ProxyTheorems
  import Pub = Publish

  // ---------- the halves ----------

  /** What the connection sees of a pipeline step. */
  ghost function ConnPart(s: State, e: Event): seq<C.Event>
    requires Enabled(s, e)
  {
    match e
    case OnConn(ce) => [ce]
    case Establish(t, token) => [C.ByTask(t, C.SetupOk(token))]
    case Hop(t) => [C.ByTask(t, C.Arrive(C.Chunk(P.Out(s.proxy.calls[s.callOf[t]])[s.crossed[t]])))]
    case HopEnds(t, item) => [C.ByTask(t, C.Arrive(item))]
    case Answer(p, trip) => [C.ByPub(p, C.Reply(Pub.TripReply(trip)))]
    case _ => []
  }

  /** What the proxy sees of it. */
  ghost function ProxyPart(s: State, e: Event): seq<P.Event>
    requires Enabled(s, e)
  {
    match e
    case OnProxy(pe) => [pe]
    case Invoke(t, up) => [P.Begin(s.conn.tasks[t].sub, s.conn.tasks[t].filters, up)]
    case _ => []
  }

  lemma StepOfHalves(s: State, e: Event)
    requires Enabled(s, e)
    ensures var c, p := ConnPart(s, e), ProxyPart(s, e);
      && (if c == [] then Apply(s, e).conn == s.conn
          else |c| == 1 && C.Enabled(s.conn, c[0]) && Apply(s, e).conn == C.Apply(s.conn, c[0]))
      && (if p == [] then Apply(s, e).proxy == s.proxy
          else |p| == 1 && P.Enabled(s.proxy, p[0]) && Apply(s, e).proxy == P.Apply(s.proxy, p[0]))
  {
  }

  lemma ConnOneMore(a: C.State, es: seq<C.Event>, e: C.Event)
    requires C.ValidRun(a, es) && C.Enabled(C.Exec(a, es), e)
    ensures C.ValidRun(a, es + [e]) && C.Exec(a, es + [e]) == C.Apply(C.Exec(a, es), e)
  {
    CS.RunSnoc(a, es, e);
  }

  lemma ProxyOneMore(a: P.State, es: seq<P.Event>, e: P.Event)
    requires P.ValidRun(a, es) && P.Enabled(P.Exec(a, es), e)
    ensures P.ValidRun(a, es + [e]) && P.Exec(a, es + [e]) == P.Apply(P.Exec(a, es), e)
  {
    assert (es + [e])[..|es|] == es;
  }

  lemma {:induction false} RunOfHalves(capacity: nat, es: seq<Event>) returns (cs: seq<C.Event>, ps: seq<P.Event>)
    requires ValidRun(Initial(capacity), es)
    ensures C.ValidRun(C.INITIAL, cs) && C.Exec(C.INITIAL, cs) == Exec(Initial(capacity), es).conn
    ensures P.ValidRun(P.Initial(capacity), ps) && P.Exec(P.Initial(capacity), ps) == Exec(Initial(capacity), es).proxy
  {
    cs, ps := [], [];
    if es != [] {
      var init, e := es[..|es| - 1], es[|es| - 1];
      cs, ps := RunOfHalves(capacity, init);
      var s := Exec(Initial(capacity), init);
      StepOfHalves(s, e);
      if ConnPart(s, e) != [] {
        ConnOneMore(C.INITIAL, cs, ConnPart(s, e)[0]);
        cs := cs + [ConnPart(s, e)[0]];
      }
      if ProxyPart(s, e) != [] {
        ProxyOneMore(P.Initial(capacity), ps, ProxyPart(s, e)[0]);
        ps := ps + [ProxyPart(s, e)[0]];
      }
    }
  }

  /** The connection and the proxy inside a reachable pipeline are reachable on their own. */
  lemma HalvesReachable(s: State)
    requires Reachable(s)
    ensures CS.Reachable(s.conn) && PT.Reachable(s.proxy)
  {
    var capacity, es :| ValidRun(Initial(capacity), es) && s == Exec(Initial(capacity), es);
    var cs, ps := RunOfHalves(capacity, es);
  }

  // ---------- calls and replies ----------

  /** Task `t` is served by the call its request opened, and no task is without a request. */
  ghost predicate Served(s: State, es: seq<Event>) {
    && (forall t :: t in s.callOf <==> exists up :: Invoke(t, up) in es)
    && (forall t, up :: Invoke(t, up) in es ==>
          t in s.callOf && s.callOf[t] < |s.proxy.calls| && s.proxy.calls[s.callOf[t]].up == up)
  }

  ghost predicate Replied(s: State, es: seq<Event>) {
    && (forall p: nat, trip :: Answer(p, trip) in es ==>
          p < |s.conn.pubs| && s.conn.pubs[p].reply == Some(Pub.TripReply(trip)) && p in s.trips && s.trips[p] == trip)
    && (forall p :: 0 <= p < |s.conn.pubs| && s.conn.pubs[p].reply.Some? ==>
          p in s.trips && Answer(p, s.trips[p]) in es)
  }

  lemma RepliesKept(a: C.State, ce: C.Event)
    requires C.Enabled(a, ce) && !(ce.ByPub? && ce.pub.Reply?)
    ensures var b := C.Apply(a, ce);
      && |a.pubs| <= |b.pubs|
      && (forall p :: 0 <= p < |b.pubs| ==> b.pubs[p].reply == if p < |a.pubs| then a.pubs[p].reply else None)
  {
    match ce
    case ByReader(r) =>
      ReaderAlone(a, r);
      assert C.Apply(a, ce) == C.ReaderNext(a, r);
    case _ =>
  }

  lemma ServedByInvoke(s: State, es: seq<Event>, t: nat, up: string)
    requires Enabled(s, Invoke(t, up)) && Served(s, es)
    ensures Served(Apply(s, Invoke(t, up)), es + [Invoke(t, up)])
  {
    var s' := Apply(s, Invoke(t, up));
    assert s'.callOf == s.callOf[t := |s.proxy.calls|] && s'.proxy.calls[|s.proxy.calls|].up == up;
    forall u ensures u in s'.callOf <==> exists v :: Invoke(u, v) in es + [Invoke(t, up)] {
      if u == t {
        assert Invoke(t, up) in es + [Invoke(t, up)];
      } else if v :| Invoke(u, v) in es {
        assert Invoke(u, v) in es + [Invoke(t, up)];
      }
    }
  }

  lemma ServedByOthers(s: State, s': State, es: seq<Event>, e: Event)
    requires Served(s, es) && !e.Invoke? && s'.callOf == s.callOf && |s.proxy.calls| <= |s'.proxy.calls|
    requires forall c :: 0 <= c < |s.proxy.calls| ==> s'.proxy.calls[c].up == s.proxy.calls[c].up
    ensures Served(s', es + [e])
  {
    forall t ensures t in s'.callOf <==> exists up :: Invoke(t, up) in es + [e] {
      if up :| Invoke(t, up) in es {
        assert Invoke(t, up) in es + [e];
      }
    }
  }

  lemma ServedStep(s: State, es: seq<Event>, e: Event)
    requires Enabled(s, e) && Served(s, es)
    ensures Served(Apply(s, e), es + [e])
  {
    if e.Invoke? {
      ServedByInvoke(s, es, e.t, e.up);
    } else {
      if e.OnProxy? {
        ProxyMoves(s.proxy, e.pe);
      }
      ServedByOthers(s, Apply(s, e), es, e);
    }
  }

  lemma RepliedByAnswer(s: State, es: seq<Event>, p: nat, trip: Pub.Trip)
    requires C.Inv(s.conn) && Enabled(s, Answer(p, trip)) && Replied(s, es)
    ensures Replied(Apply(s, Answer(p, trip)), es + [Answer(p, trip)])
  {
    assert s.conn.pubs[p].reply.None? by { assert C.PubOk(s.conn, s.conn.pubs[p]); }
    var s' := Apply(s, Answer(p, trip));
    assert s'.trips == s.trips[p := trip];
    assert s'.conn.pubs[p].reply == Some(Pub.TripReply(trip));
    assert forall q :: 0 <= q < |s.conn.pubs| && q != p ==> s'.conn.pubs[q] == s.conn.pubs[q];
  }

  lemma RepliedByOthers(s: State, s': State, es: seq<Event>, e: Event)
    requires Replied(s, es) && !e.Answer? && s'.trips == s.trips && |s.conn.pubs| <= |s'.conn.pubs|
    requires forall p :: 0 <= p < |s'.conn.pubs| ==>
      s'.conn.pubs[p].reply == if p < |s.conn.pubs| then s.conn.pubs[p].reply else None
    ensures Replied(s', es + [e])
  {
  }

  lemma RepliedStep(s: State, es: seq<Event>, e: Event)
    requires C.Inv(s.conn) && Enabled(s, e) && Replied(s, es)
    ensures Replied(Apply(s, e), es + [e])
  {
    if e.Answer? {
      RepliedByAnswer(s, es, e.p, e.trip);
    } else {
      StepOfHalves(s, e);
      if ConnPart(s, e) != [] {
        RepliesKept(s.conn, ConnPart(s, e)[0]);
      }
      RepliedByOthers(s, Apply(s, e), es, e);
    }
  }

  lemma {:induction false} HistoryRun(capacity: nat, es: seq<Event>)
    requires ValidRun(Initial(capacity), es)
    ensures Served(Exec(Initial(capacity), es), es) && Replied(Exec(Initial(capacity), es), es)
  {
    if es != [] {
      var init, e := es[..|es| - 1], es[|es| - 1];
      HistoryRun(capacity, init);
      CS.InitialInv();
      InvRun(Initial(capacity), init);
      assert es == init + [e];
      ServedStep(Exec(Initial(capacity), init), init, e);
      RepliedStep(Exec(Initial(capacity), init), init, e);
    }
  }

  lemma ServedWith(s: State, t: nat)
    requires LinksOk(s) && t in s.callOf
    ensures t < |s.conn.tasks| && s.callOf[t] < |s.proxy.calls|
    ensures s.proxy.calls[s.callOf[t]].sub == s.conn.tasks[t].sub
    ensures s.proxy.calls[s.callOf[t]].filters == s.conn.tasks[t].filters
  {
    assert LinkOk(s, t);
  }

  /**
   * Over every run: a task is served by a call if and only if its request
   * reached the proxy, and that call has the upstream id drawn for that request,
   * the task's own subscription id and its filters; a publish was answered if
   * and only if a round trip came back for it, and by that trip.
   */
  lemma CallsAndReplies(capacity: nat, es: seq<Event>)
    requires ValidRun(Initial(capacity), es)
    ensures Served(Exec(Initial(capacity), es), es) && Replied(Exec(Initial(capacity), es), es)
    ensures var s := Exec(Initial(capacity), es);
      forall t :: t in s.callOf ==>
        && t < |s.conn.tasks| && s.callOf[t] < |s.proxy.calls|
        && s.proxy.calls[s.callOf[t]].sub == s.conn.tasks[t].sub
        && s.proxy.calls[s.callOf[t]].filters == s.conn.tasks[t].filters
  {
    HistoryRun(capacity, es);
    var s := Exec(Initial(capacity), es);
    assert LinksOk(s) by {
      CS.InitialInv();
      InvRun(Initial(capacity), es);
    }
    forall t | t in s.callOf
      ensures t < |s.conn.tasks| && s.callOf[t] < |s.proxy.calls|
      ensures s.proxy.calls[s.callOf[t]].sub == s.conn.tasks[t].sub
      ensures s.proxy.calls[s.callOf[t]].filters == s.conn.tasks[t].filters
    {
      ServedWith(s, t);
    }
  }

  // ---------- how a stream ends ----------

  /** The ends and breaks of the stream of task `t` in this run. */
  function EndsOf(es: seq<Event>, t: nat): seq<C.StreamItem> {
    if es == [] then [] else
      EndsOf(es[..|es| - 1], t)
      + (match es[|es| - 1] case HopEnds(u, item) => if u == t then [item] else [] case _ => [])
  }

  /** The items that are no chunks. */
  function NoChunks(items: seq<C.StreamItem>): seq<C.StreamItem> {
    if items == [] then [] else
      var rest, last := NoChunks(items[..|items| - 1]), items[|items| - 1];
      if last.Chunk? then rest else rest + [last]
  }

  lemma NoChunksAppend(items: seq<C.StreamItem>, item: C.StreamItem)
    ensures NoChunks(items + [item]) == NoChunks(items) + (if item.Chunk? then [] else [item])
  {
    assert (items + [item])[..|items|] == items;
  }

  lemma EndsAppend(es: seq<Event>, e: Event, t: nat)
    ensures EndsOf(es + [e], t) == EndsOf(es, t) + (if e.HopEnds? && e.t == t then [e.item] else [])
  {
    assert (es + [e])[..|es|] == es;
  }

  ghost predicate EndsArrive(a: C.State, es: seq<Event>) {
    && (forall t :: 0 <= t < |a.tasks| ==> NoChunks(a.tasks[t].arrived) == EndsOf(es, t))
    && (forall t :: t >= |a.tasks| ==> EndsOf(es, t) == [])
  }

  /** What a step of the connection alone or the set-up adds to what streams have received: nothing. */
  lemma ArrivedKept(s: State, e: Event)
    requires Enabled(s, e) && !e.Hop? && !e.HopEnds?
    ensures var a, b := s.conn, Apply(s, e).conn;
      && |a.tasks| <= |b.tasks|
      && forall t :: 0 <= t < |b.tasks| ==> b.tasks[t].arrived == if t < |a.tasks| then a.tasks[t].arrived else []
  {
    match e
    case OnConn(ce) => ConnAlone(s.conn, ce);
    case _ =>
  }

  lemma EndsStep(s: State, es: seq<Event>, e: Event)
    requires Enabled(s, e) && EndsArrive(s.conn, es)
    ensures EndsArrive(Apply(s, e).conn, es + [e])
  {
    forall t ensures EndsOf(es + [e], t) == EndsOf(es, t) + (if e.HopEnds? && e.t == t then [e.item] else []) {
      EndsAppend(es, e, t);
    }
    match e
    case Hop(t) =>
      HopMoves(s, t);
      NoChunksAppend(s.conn.tasks[t].arrived, C.Chunk(P.Out(s.proxy.calls[s.callOf[t]])[s.crossed[t]]));
    case HopEnds(t, item) =>
      ArriveMoves(s.conn, t, item);
      NoChunksAppend(s.conn.tasks[t].arrived, item);
    case _ => ArrivedKept(s, e);
  }

  /** Over every run: a stream breaks and ends in its task's hands exactly as it did on the way. */
  lemma {:induction false} EndsAreEvents(capacity: nat, es: seq<Event>)
    requires ValidRun(Initial(capacity), es)
    ensures EndsArrive(Exec(Initial(capacity), es).conn, es)
  {
    if es != [] {
      var init, e := es[..|es| - 1], es[|es| - 1];
      EndsAreEvents(capacity, init);
      assert es == init + [e];
      EndsStep(Exec(Initial(capacity), init), init, e);
    }
  }

  // ---------- what the remote side can do ----------

  /**
   * In every reachable state a request can reach the proxy, once, with any fresh
   * upstream id, and the next chunk can cross whenever there is one and the
   * stream is established.
   */
  lemma RequestOffers(s: State, t: nat, up: string)
    requires Reachable(s)
    ensures t < |s.conn.tasks| ==>
      (Enabled(s, Invoke(t, up)) <==>
         && t !in s.callOf && s.conn.tasks[t].filters != []
         && (forall c :: 0 <= c < |s.proxy.calls| ==> s.proxy.calls[c].up != up)
         && (forall i :: 0 <= i < |s.proxy.log| ==> P.Tag(s.proxy.log[i]) != Some(up)))
    ensures t in s.callOf ==>
      && t < |s.conn.tasks| && t in s.crossed && s.callOf[t] < |s.proxy.calls|
      && (Enabled(s, Hop(t)) <==>
            s.conn.tasks[t].token.Some? && s.crossed[t] < |P.Out(s.proxy.calls[s.callOf[t]])|)
  {
    if t in s.callOf {
      LinkOfReachable(s, t);
      HopOffer(s, t);
    }
  }

  /** Streams are established, break and end, and publishes are answered, whenever the connection awaits it. */
  lemma ReplyOffers(s: State, t: nat, token: nat, item: C.StreamItem, trip: Pub.Trip)
    ensures t < |s.conn.tasks| ==>
      (Enabled(s, Establish(t, token)) <==>
         && s.conn.tasks[t].phase.Setup?
         && forall u :: 0 <= u < |s.conn.tasks| ==> s.conn.tasks[u].token != Some(token))
    ensures t < |s.conn.tasks| ==> (Enabled(s, HopEnds(t, item)) <==> !item.Chunk? && s.conn.tasks[t].token.Some?)
    ensures t < |s.conn.pubs| ==> (Enabled(s, Answer(t, trip)) <==> s.conn.pubs[t].phase.Calling?)
  {
  }

  lemma HopOffer(s: State, t: nat)
    requires t in s.callOf && t < |s.conn.tasks| && t in s.crossed && s.callOf[t] < |s.proxy.calls|
    ensures Enabled(s, Hop(t)) <==>
      s.conn.tasks[t].token.Some? && s.crossed[t] < |P.Out(s.proxy.calls[s.callOf[t]])|
  {
  }

  lemma LinkOfReachable(s: State, t: nat)
    requires Reachable(s) && t in s.callOf
    ensures t < |s.conn.tasks| && t in s.crossed && s.callOf[t] < |s.proxy.calls|
  {
    ReachableInv(s);
    assert LinkOk(s, t);
  }

  lemma HalvesMoveFreely(s: State, ce: C.Event, pe: P.Event)
    ensures Enabled(s, OnProxy(pe)) <==> P.Enabled(s.proxy, pe)
    ensures Enabled(s, OnConn(ce)) <==>
      && C.Enabled(s.conn, ce)
      && !(ce.ByTask? && (ce.act.SetupOk? || ce.act.Arrive?)) && !(ce.ByPub? && ce.pub.Reply?)
    ensures Enabled(s, OnProxy(pe)) ==> Apply(s, OnProxy(pe)) == s.(proxy := P.Apply(s.proxy, pe))
    ensures Enabled(s, OnConn(ce)) ==> Apply(s, OnConn(ce)) == s.(conn := C.Apply(s.conn, ce))
  {
  }
}
