/** The end-to-end guarantees, over every interleaving of the whole path. */
module PipelineTheorems {
  import opened Wire
  import opened Pipeline
  import C = Connection
  import CS = ConnectionSafety
  import P = Proxy
  import PS = ProxySafety
  import PT = ProxyTheorems
  import Pub = Publish

  // ---------- one step ----------

  lemma InvokeKeeps(s: State, t: nat, up: string)
    requires Inv(s) && Enabled(s, Invoke(t, up))
    ensures LinksOk(Apply(s, Invoke(t, up)))
  {
    var s' := Apply(s, Invoke(t, up));
    assert C.TaskOk(s.conn.tasks[t], t);
    forall u | u in s'.callOf ensures LinkOk(s', u) {
      if u != t {
        assert LinkOk(s, u);
      }
    }
    forall u, v | u in s'.callOf && v in s'.callOf && s'.callOf[u] == s'.callOf[v] ensures u == v {
      assert u != t ==> LinkOk(s, u);
      assert v != t ==> LinkOk(s, v);
    }
  }

  /** An item arriving at task `t`: nothing else about the connection's tasks changes. */
  lemma ArriveMoves(a: C.State, t: nat, item: C.StreamItem)
    requires C.Enabled(a, C.ByTask(t, C.Arrive(item)))
    ensures var b := C.Apply(a, C.ByTask(t, C.Arrive(item)));
      && b == a.(tasks := a.tasks[t := a.tasks[t].(arrived := a.tasks[t].arrived + [item])])
      && C.Chunks(b.tasks[t].arrived) == C.Chunks(a.tasks[t].arrived) + (if item.Chunk? then [item.frame] else [])
  {
    C.ChunksAppend(a.tasks[t].arrived, item);
  }

  /** A hop appends the next chunk to what the task's stream received. */
  lemma HopMoves(s: State, t: nat)
    requires Enabled(s, Hop(t))
    ensures var task, chunk := s.conn.tasks[t], P.Out(s.proxy.calls[s.callOf[t]])[s.crossed[t]];
      Apply(s, Hop(t)) == s.(
        conn := s.conn.(tasks := s.conn.tasks[t := task.(arrived := task.arrived + [C.Chunk(chunk)])]),
        crossed := s.crossed[t := s.crossed[t] + 1])
  {
    ArriveMoves(s.conn, t, C.Chunk(P.Out(s.proxy.calls[s.callOf[t]])[s.crossed[t]]));
  }

  lemma OneMoreChunk(arrived: seq<C.StreamItem>, out: seq<Json>, n: nat)
    requires n < |out| && C.Chunks(arrived) == out[..n]
    ensures C.Chunks(arrived + [C.Chunk(out[n])]) == out[..n + 1]
  {
    C.ChunksAppend(arrived, C.Chunk(out[n]));
  }

  lemma HopKeeps(s: State, t: nat)
    requires LinksOk(s) && Enabled(s, Hop(t))
    ensures LinksOk(Apply(s, Hop(t)))
  {
    assert LinkOk(s, t);
    var out, n := P.Out(s.proxy.calls[s.callOf[t]]), s.crossed[t];
    OneMoreChunk(s.conn.tasks[t].arrived, out, n);
    LinksAfterHop(s, t, s.conn.tasks[t].arrived + [C.Chunk(out[n])]);
    HopMoves(s, t);
  }

  lemma LinksAfterHop(s: State, t: nat, arrived: seq<C.StreamItem>)
    requires LinksOk(s) && t in s.callOf && LinkOk(s, t) && s.crossed[t] < |P.Out(s.proxy.calls[s.callOf[t]])|
    requires C.Chunks(arrived) == P.Out(s.proxy.calls[s.callOf[t]])[..s.crossed[t] + 1]
    ensures LinksOk(s.(conn := s.conn.(tasks := s.conn.tasks[t := s.conn.tasks[t].(arrived := arrived)]),
                       crossed := s.crossed[t := s.crossed[t] + 1]))
  {
    var s' := s.(conn := s.conn.(tasks := s.conn.tasks[t := s.conn.tasks[t].(arrived := arrived)]),
                 crossed := s.crossed[t := s.crossed[t] + 1]);
    forall u | u in s'.callOf ensures LinkOk(s', u) {
      assert LinkOk(s, u);
    }
  }

  lemma HopEndsKeeps(s: State, t: nat, item: C.StreamItem)
    requires LinksOk(s) && Enabled(s, HopEnds(t, item))
    ensures LinksOk(Apply(s, HopEnds(t, item)))
  {
    var s' := Apply(s, HopEnds(t, item));
    ArriveMoves(s.conn, t, item);
    forall u | u in s'.callOf ensures LinkOk(s', u) {
      assert LinkOk(s, u);
    }
  }

  lemma EstablishKeeps(s: State, t: nat, token: nat)
    requires LinksOk(s) && Enabled(s, Establish(t, token))
    ensures LinksOk(Apply(s, Establish(t, token)))
  {
    var s' := Apply(s, Establish(t, token));
    forall u | u in s'.callOf ensures LinkOk(s', u) {
      assert LinkOk(s, u);
    }
  }

  lemma AnswerKeeps(s: State, p: nat, trip: Pub.Trip)
    requires LinksOk(s) && TripsOk(s) && Enabled(s, Answer(p, trip))
    ensures LinksOk(Apply(s, Answer(p, trip))) && TripsOk(Apply(s, Answer(p, trip)))
  {
    var s' := Apply(s, Answer(p, trip));
    forall u | u in s'.callOf ensures LinkOk(s', u) {
      assert LinkOk(s, u);
    }
  }

  /** The connection and the proxy each keep their own invariant. */
  lemma HalvesKept(s: State, e: Event)
    requires Inv(s) && Enabled(s, e)
    ensures C.Inv(Apply(s, e).conn) && P.Inv(Apply(s, e).proxy)
  {
    match e
    case OnConn(ce) => CS.InvStep(s.conn, ce);
    case OnProxy(pe) => PS.InvStep(s.proxy, pe);
    case Invoke(t, up) => PS.InvStep(s.proxy, P.Begin(s.conn.tasks[t].sub, s.conn.tasks[t].filters, up));
    case Establish(t, token) => CS.InvStep(s.conn, C.ByTask(t, C.SetupOk(token)));
    case Hop(t) =>
      CS.InvStep(s.conn, C.ByTask(t, C.Arrive(C.Chunk(P.Out(s.proxy.calls[s.callOf[t]])[s.crossed[t]]))));
    case HopEnds(t, item) => CS.InvStep(s.conn, C.ByTask(t, C.Arrive(item)));
    case Answer(p, trip) => CS.InvStep(s.conn, C.ByPub(p, C.Reply(Pub.TripReply(trip))));
  }

  lemma ConnKeepsLinks(s: State, ce: C.Event)
    requires LinksOk(s) && TripsOk(s) && Enabled(s, OnConn(ce))
    ensures LinksOk(Apply(s, OnConn(ce))) && TripsOk(Apply(s, OnConn(ce)))
  {
    ConnAlone(s.conn, ce);
    LinksAfterConn(s, C.Apply(s.conn, ce));
  }

  lemma ProxyKeepsLinks(s: State, pe: P.Event)
    requires LinksOk(s) && TripsOk(s) && Enabled(s, OnProxy(pe))
    ensures LinksOk(Apply(s, OnProxy(pe))) && TripsOk(Apply(s, OnProxy(pe)))
  {
    ProxyMoves(s.proxy, pe);
    LinksAfterProxy(s, P.Apply(s.proxy, pe));
  }

  /** The links between them hold on. */
  lemma LinksKept(s: State, e: Event)
    requires Inv(s) && Enabled(s, e)
    ensures LinksOk(Apply(s, e)) && TripsOk(Apply(s, e))
  {
    match e
    case OnConn(ce) => ConnKeepsLinks(s, ce);
    case OnProxy(pe) => ProxyKeepsLinks(s, pe);
    case Invoke(t, up) => InvokeKeeps(s, t, up);
    case Establish(t, token) => EstablishKeeps(s, t, token);
    case Hop(t) => HopKeeps(s, t);
    case HopEnds(t, item) => HopEndsKeeps(s, t, item);
    case Answer(p, trip) => AnswerKeeps(s, p, trip);
  }

  lemma InvStep(s: State, e: Event)
    requires Inv(s) && Enabled(s, e)
    ensures Inv(Apply(s, e))
  {
    HalvesKept(s, e);
    LinksKept(s, e);
  }

  // ---------- whole runs ----------

  ghost predicate Reachable(s: State) {
    exists capacity, es :: ValidRun(Initial(capacity), es) && s == Exec(Initial(capacity), es)
  }

  lemma {:induction false} InvRun(s: State, es: seq<Event>)
    requires Inv(s) && ValidRun(s, es)
    ensures Inv(Exec(s, es))
  {
    if es != [] {
      InvRun(s, es[..|es| - 1]);
      InvStep(Exec(s, es[..|es| - 1]), es[|es| - 1]);
    }
  }

  lemma ReachableInv(s: State)
    requires Reachable(s)
    ensures Inv(s)
  {
    var capacity, es :| ValidRun(Initial(capacity), es) && s == Exec(Initial(capacity), es);
    CS.InitialInv();
    InvRun(Initial(capacity), es);
  }

  /** The stream frames of task `t` that reached the client. */
  function Got(s: State, t: nat): seq<Json> { C.Proj(s.conn.delivered, C.StreamOf(t)) }

  /** Only what the task's own call wrote reaches the client, in order. */
  lemma GotByLink(s: State, t: nat)
    requires t in s.callOf && LinkOk(s, t) && Got(s, t) <= C.Chunks(s.conn.tasks[t].arrived)
    ensures Got(s, t) <= P.Out(s.proxy.calls[s.callOf[t]])
  {
  }

  lemma GotIsOutPrefix(s: State, t: nat)
    requires Inv(s) && t in s.callOf
    ensures LinkOk(s, t) && Got(s, t) <= P.Out(s.proxy.calls[s.callOf[t]])
  {
    assert LinkOk(s, t);
    CS.ForwardedPrefix(s.conn, t);
    GotByLink(s, t);
  }

  lemma RelabelTail(log: seq<P.Notification>, call: P.Call)
    requires P.CursorOk(log, call) && P.OutputOk(log, call)
    ensures P.Subsequence(P.Out(call), P.Relabel(log[call.start..], call.up, call.sub))
    ensures call.skipped == {} ==> P.Out(call) <= P.Relabel(log[call.start..], call.up, call.sub)
  {
    var mine := P.Relabel(log[call.start..call.cursor], call.up, call.sub);
    var rest := P.Relabel(log[call.cursor..], call.up, call.sub);
    assert P.Relabel(log[call.start..], call.up, call.sub) == mine + rest by {
      assert log[call.start..] == log[call.start..call.cursor] + log[call.cursor..];
      PS.RelabelConcat(log[call.start..call.cursor], log[call.cursor..], call.up, call.sub);
    }
    PS.SubsequenceExtend(P.Out(call), mine, rest);
  }

  /**
   * End to end. In every reachable state the stream frames the client received
   * from a subscribe task are, in order, a subsequence of what the upstream
   * sent to that task's call, relabelled with the client's own id, and a prefix
   * of it when that call never lagged.
   */
  lemma EndToEnd(s: State, t: nat)
    requires Reachable(s) && t in s.callOf
    ensures t < |s.conn.tasks| && s.callOf[t] < |s.proxy.calls|
    ensures var call := s.proxy.calls[s.callOf[t]];
      && call.sub == s.conn.tasks[t].sub && call.start <= |s.proxy.log|
      && P.Subsequence(Got(s, t), P.Relabel(s.proxy.log[call.start..], call.up, call.sub))
      && (call.skipped == {} ==> Got(s, t) <= P.Relabel(s.proxy.log[call.start..], call.up, call.sub))
  {
    ReachableInv(s);
    GotIsOutPrefix(s, t);
    var call := s.proxy.calls[s.callOf[t]];
    assert P.CallOk(s.proxy.log, call);
    RelabelTail(s.proxy.log, call);
    var mine := P.Relabel(s.proxy.log[call.start..], call.up, call.sub);
    PS.SubsequenceOfPrefix(Got(s, t), P.Out(call), mine);
  }

  lemma OwnUpstreamIds(s: State, t: nat, u: nat)
    requires P.Inv(s.proxy) && LinksOk(s) && t in s.callOf && u in s.callOf && t != u
    ensures s.callOf[t] < |s.proxy.calls| && s.callOf[u] < |s.proxy.calls|
    ensures s.proxy.calls[s.callOf[t]].up != s.proxy.calls[s.callOf[u]].up
  {
    assert LinkOk(s, t) && LinkOk(s, u);
    var c, d := s.callOf[t], s.callOf[u];
    assert c != d;
    assert c < d ==> s.proxy.calls[c].up != s.proxy.calls[d].up;
    assert d < c ==> s.proxy.calls[d].up != s.proxy.calls[c].up;
  }

  /**
   * Every stream frame the client received from a task carries the task's own
   * subscription id and is the image of one upstream message, each of a
   * different one in log order, tagged with the upstream id of that task's call
   * (or the pool's shutdown). No other task shares that id.
   */
  lemma NoCrossDelivery(s: State, t: nat)
    requires Reachable(s) && t in s.callOf
    ensures t < |s.conn.tasks| && s.callOf[t] < |s.proxy.calls|
    ensures var call := s.proxy.calls[s.callOf[t]];
      && call.sub == s.conn.tasks[t].sub
      && |Got(s, t)| <= |call.hits|
      && (forall k :: 0 <= k < |Got(s, t)| ==>
            call.hits[k] < |s.proxy.log| && PT.Provenance(s.proxy.log[call.hits[k]], call, Got(s, t)[k]))
      && (forall k, l :: 0 <= k < l < |call.hits| ==> call.hits[k] < call.hits[l])
    ensures forall u :: u in s.callOf && u != t && s.callOf[u] < |s.proxy.calls| ==>
      s.proxy.calls[s.callOf[u]].up != s.proxy.calls[s.callOf[t]].up
  {
    assert LinkOk(s, t) && Got(s, t) <= P.Out(s.proxy.calls[s.callOf[t]]) by {
      ReachableInv(s);
      GotIsOutPrefix(s, t);
    }
    var call := s.proxy.calls[s.callOf[t]];
    assert P.CursorOk(s.proxy.log, call) && P.HitsOk(s.proxy.log, call) by {
      ReachableInv(s);
      assert P.CallOk(s.proxy.log, call);
    }
    PT.HitsHaveProvenance(s.proxy.log, call);
    forall u | u in s.callOf && u != t
      ensures s.callOf[u] < |s.proxy.calls| && s.proxy.calls[s.callOf[u]].up != call.up
    {
      ReachableInv(s);
      OwnUpstreamIds(s, t, u);
    }
  }

  /** Nothing is under way for task `t`: all read, all crossed, all written to the socket. */
  predicate AtRest(s: State, t: nat)
    requires t in s.callOf && t < |s.conn.tasks| && s.callOf[t] < |s.proxy.calls| && t in s.crossed
  {
    var call := s.proxy.calls[s.callOf[t]];
    && call.phase.Looping? && call.cursor == |s.proxy.log|
    && s.crossed[t] == |P.Out(call)|
    && s.conn.tasks[t].phase.Streaming? && s.conn.tasks[t].taken == |s.conn.tasks[t].arrived|
    && s.conn.writer.Receiving? && s.conn.queue == []
  }

  /**
   * Nothing is lost on the way: whenever a subscription is at rest and its call
   * never lagged, the client has received exactly what the upstream sent to it,
   * relabelled, from first to last.
   */
  lemma NothingLostAtRest(s: State, t: nat)
    requires Reachable(s) && t in s.callOf
    ensures t < |s.conn.tasks| && s.callOf[t] < |s.proxy.calls| && t in s.crossed
    ensures var call := s.proxy.calls[s.callOf[t]];
      AtRest(s, t) ==>
        && call.start <= |s.proxy.log|
        && Got(s, t) == call.sent
        && (call.skipped == {} ==> Got(s, t) == P.Relabel(s.proxy.log[call.start..], call.up, call.sub))
  {
    ReachableInv(s);
    GotIsOutPrefix(s, t);
    var call := s.proxy.calls[s.callOf[t]];
    if AtRest(s, t) {
      CS.ForwardedAll(s.conn, t);
      assert P.CallOk(s.proxy.log, call);
      CallAtRest(s.proxy.log, call);
    }
  }

  lemma CallAtRest(log: seq<P.Notification>, call: P.Call)
    requires P.CallOk(log, call) && call.phase.Looping? && call.cursor == |log|
    ensures call.sent == call.attempted == P.Out(call)
    ensures call.skipped == {} ==> call.attempted == P.Relabel(log[call.start..], call.up, call.sub)
  {
    assert log[call.start..call.cursor] == log[call.start..];
    assert call.attempted + P.Pending(call) == call.attempted;
  }

  /** A task no call serves has delivered no stream frame. */
  lemma NothingWithoutCall(s: State, t: nat)
    requires Reachable(s) && t !in s.callOf
    ensures Got(s, t) == []
  {
    ReachableInv(s);
    if t < |s.conn.tasks| {
      CS.ForwardedPrefix(s.conn, t);
    } else {
      CS.DeliveredPrefix(s.conn, C.StreamOf(t));
    }
  }

  /**
   * Publish conservation. An accepted client EVENT has enqueued nothing until
   * its call returns and, while the channel is open, exactly one OK frame once
   * it is answered; a frame that reached the client is that one. It reports
   * acceptance if and only if the upstream recorded a success, and echoes the
   * client's id whenever the upstream did not answer or the id was canonical.
   */
  lemma PublishConservation(s: State, p: nat)
    requires Reachable(s) && p < |s.conn.pubs|
    ensures var pub := s.conn.pubs[p];
      && (!pub.phase.Answered? ==> pub.enqueued == [])
      && (pub.phase.Answered? && !s.conn.writer.Done? ==> |pub.enqueued| == 1)
      && |pub.enqueued| <= 1
      && C.Proj(s.conn.delivered, C.Publisher(p)) <= pub.enqueued
      && (pub.enqueued != [] ==> p in s.trips && OkOf(pub.event, s.trips[p], pub.enqueued[0]))
  {
    ReachableInv(s);
    var pub := s.conn.pubs[p];
    assert C.PubOk(s.conn, pub);
    CS.DeliveredPrefix(s.conn, C.Publisher(p));
    if pub.enqueued != [] {
      Pub.OkFrameOfTrip(pub.event, s.trips[p]);
    }
  }

  /** `frame` is the OK frame the client must see for this event and this trip. */
  ghost predicate OkOf(event: Json, trip: Pub.Trip, frame: Json) {
    exists id, ok ::
      && frame == Arr([Str("OK"), Str(id), Bool(ok), Str(Pub.Verdict(trip))])
      && (ok <==> trip.Handled? && trip.decoded.EventWithId? && trip.upstream.Sent? && trip.upstream.success != {})
      && id == (if Pub.Answered(trip) then trip.decoded.id else Pub.RawId(event))
      && ((Pub.Answered(trip) ==> trip.decoded.id == Pub.RawId(event)) <==> id == Pub.RawId(event))
  }
}
