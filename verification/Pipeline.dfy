/**
 * The whole subscription path: one client connection of the shim, the outlay
 * proxy with all its calls (those of other clients included), and the FIFO
 * open-stream hop between a subscribe task and the call serving it. Every
 * interleaving of the parts is a run.
 */
module Pipeline {
  import opened Wire
  import C = Connection
  import P = Proxy
  import Pub = Publish

  datatype State = State(
    conn: C.State,
    proxy: P.State,
    callOf: map<nat, nat>,      // subscribe task -> the proxy call serving it
    crossed: map<nat, nat>,     // chunks of that call that have crossed the hop
    trips: map<nat, Pub.Trip>)  // publish task -> its completed round trip

  function Initial(capacity: nat): State {
    State(C.INITIAL, P.Initial(capacity), map[], map[], map[])
  }

  datatype Event =
    | OnConn(ce: C.Event)                 // a step inside the connection
    | OnProxy(pe: P.Event)                // a step inside the proxy, or another client's call
    | Invoke(t: nat, up: string)          // the request of task `t` reaches the proxy
    | Establish(t: nat, token: nat)       // its stream is established
    | Hop(t: nat)                         // the next chunk of its call crosses over
    | HopEnds(t: nat, item: C.StreamItem) // its stream breaks or ends, at any time
    | Answer(p: nat, trip: Pub.Trip)      // publish task `p` gets its reply

  /** Steps a connection takes on its own, without the remote side. */
  predicate Alone(ce: C.Event) {
    match ce
    case ByTask(_, SetupOk(_)) => false
    case ByTask(_, Arrive(_)) => false
    case ByPub(_, Reply(_)) => false
    case _ => true
  }

  ghost predicate Enabled(s: State, e: Event) {
    match e
    case OnConn(ce) => Alone(ce) && C.Enabled(s.conn, ce)
    case OnProxy(pe) => P.Enabled(s.proxy, pe)
    case Invoke(t, up) =>
      && t < |s.conn.tasks| && t !in s.callOf
      && P.Enabled(s.proxy, P.Begin(s.conn.tasks[t].sub, s.conn.tasks[t].filters, up))
    case Establish(t, token) => C.Enabled(s.conn, C.ByTask(t, C.SetupOk(token)))
    case Hop(t) =>
      && t in s.callOf && t in s.crossed && s.callOf[t] < |s.proxy.calls|
      && s.crossed[t] < |P.Out(s.proxy.calls[s.callOf[t]])|
      && C.Enabled(s.conn, C.ByTask(t, C.Arrive(C.Chunk(P.Out(s.proxy.calls[s.callOf[t]])[s.crossed[t]]))))
    case HopEnds(t, item) => !item.Chunk? && C.Enabled(s.conn, C.ByTask(t, C.Arrive(item)))
    case Answer(p, trip) => C.Enabled(s.conn, C.ByPub(p, C.Reply(Pub.TripReply(trip))))
  }

  ghost function Apply(s: State, e: Event): State
    requires Enabled(s, e)
  {
    match e
    case OnConn(ce) => s.(conn := C.Apply(s.conn, ce))
    case OnProxy(pe) => s.(proxy := P.Apply(s.proxy, pe))
    case Invoke(t, up) =>
      s.(proxy := P.Apply(s.proxy, P.Begin(s.conn.tasks[t].sub, s.conn.tasks[t].filters, up)),
         callOf := s.callOf[t := |s.proxy.calls|], crossed := s.crossed[t := 0])
    case Establish(t, token) => s.(conn := C.Apply(s.conn, C.ByTask(t, C.SetupOk(token))))
    case Hop(t) =>
      var chunk := P.Out(s.proxy.calls[s.callOf[t]])[s.crossed[t]];
      s.(conn := C.Apply(s.conn, C.ByTask(t, C.Arrive(C.Chunk(chunk)))), crossed := s.crossed[t := s.crossed[t] + 1])
    case HopEnds(t, item) => s.(conn := C.Apply(s.conn, C.ByTask(t, C.Arrive(item))))
    case Answer(p, trip) =>
      s.(conn := C.Apply(s.conn, C.ByPub(p, C.Reply(Pub.TripReply(trip)))), trips := s.trips[p := trip])
  }

  ghost predicate ValidRun(s: State, es: seq<Event>)
    decreases |es|, 0
  {
    es == [] || (ValidRun(s, es[..|es| - 1]) && Enabled(Exec(s, es[..|es| - 1]), es[|es| - 1]))
  }

  ghost function Exec(s: State, es: seq<Event>): State
    requires ValidRun(s, es)
    decreases |es|, 1
  {
    if es == [] then s else Apply(Exec(s, es[..|es| - 1]), es[|es| - 1])
  }

  // ---------- what every step keeps ----------

  /**
   * Task `t` has received the first `crossed[t]` chunks its call wrote, in order.
   * A chunk may cross while its `write` is still awaited, or fails in the end.
   */
  ghost predicate LinkOk(s: State, t: nat)
    requires t in s.callOf
  {
    && t < |s.conn.tasks| && s.callOf[t] < |s.proxy.calls| && t in s.crossed
    && s.conn.tasks[t].sub == s.proxy.calls[s.callOf[t]].sub
    && s.conn.tasks[t].filters == s.proxy.calls[s.callOf[t]].filters
    && s.crossed[t] <= |P.Out(s.proxy.calls[s.callOf[t]])|
    && C.Chunks(s.conn.tasks[t].arrived) == P.Out(s.proxy.calls[s.callOf[t]])[..s.crossed[t]]
  }

  ghost predicate LinksOk(s: State) {
    && (forall t :: t in s.callOf ==> LinkOk(s, t))
    && (forall t, u :: t in s.callOf && u in s.callOf && s.callOf[t] == s.callOf[u] ==> t == u)
    && (forall t :: 0 <= t < |s.conn.tasks| && t !in s.callOf ==> C.Chunks(s.conn.tasks[t].arrived) == [])
  }

  ghost predicate TripsOk(s: State) {
    forall p :: 0 <= p < |s.conn.pubs| && s.conn.pubs[p].reply.Some? ==>
      p in s.trips && s.conn.pubs[p].reply == Some(Pub.TripReply(s.trips[p]))
  }

  ghost predicate Inv(s: State) {
    C.Inv(s.conn) && P.Inv(s.proxy) && LinksOk(s) && TripsOk(s)
  }

  // ---------- how the parts move ----------

  /** What a connection may do to its tasks and publishes on its own. */
  ghost predicate ConnFrame(a: C.State, b: C.State) {
    && |a.tasks| <= |b.tasks| && |a.pubs| <= |b.pubs|
    && (forall t :: 0 <= t < |a.tasks| ==>
          && b.tasks[t].sub == a.tasks[t].sub && b.tasks[t].filters == a.tasks[t].filters
          && b.tasks[t].arrived == a.tasks[t].arrived)
    && (forall t :: |a.tasks| <= t < |b.tasks| ==> b.tasks[t].arrived == [])
    && (forall p :: 0 <= p < |a.pubs| ==> b.pubs[p].reply == a.pubs[p].reply)
    && (forall p :: |a.pubs| <= p < |b.pubs| ==> b.pubs[p].reply.None?)
  }

  lemma ReaderAlone(a: C.State, r: C.ReaderAct)
    requires C.ReaderReady(a, r)
    ensures ConnFrame(a, C.ReaderNext(a, r))
  {
    var b := C.ReaderNext(a, r);
    assert b.pubs[..|a.pubs|] == a.pubs;
    assert forall p :: 0 <= p < |a.pubs| ==> b.pubs[p] == a.pubs[p];
    assert forall t :: 0 <= t < |a.tasks| ==>
        b.tasks[t].sub == a.tasks[t].sub && b.tasks[t].filters == a.tasks[t].filters
        && b.tasks[t].arrived == a.tasks[t].arrived;
  }

  lemma TaskAlone(a: C.State, t: nat, act: C.TaskAct)
    requires C.Enabled(a, C.ByTask(t, act)) && Alone(C.ByTask(t, act))
    ensures ConnFrame(a, C.Apply(a, C.ByTask(t, act)))
  {
    var next := C.TaskNext(a.tasks[t], t, act);
    assert next.sub == a.tasks[t].sub && next.filters == a.tasks[t].filters && next.arrived == a.tasks[t].arrived;
  }

  lemma ConnAlone(a: C.State, ce: C.Event)
    requires C.Enabled(a, ce) && Alone(ce)
    ensures ConnFrame(a, C.Apply(a, ce))
  {
    match ce
    case ByReader(r) => ReaderAlone(a, r);
    case ByTask(t, act) => TaskAlone(a, t, act);
    case _ =>
  }

  /** What the proxy may do to its calls. */
  ghost predicate ProxyFrame(a: P.State, b: P.State) {
    && |a.calls| <= |b.calls|
    && (forall c :: 0 <= c < |a.calls| ==>
          && b.calls[c].sub == a.calls[c].sub && b.calls[c].up == a.calls[c].up
          && b.calls[c].filters == a.calls[c].filters && b.calls[c].start == a.calls[c].start
          && P.Out(a.calls[c]) <= P.Out(b.calls[c]))
  }

  lemma ProxyMoves(a: P.State, pe: P.Event)
    requires P.Enabled(a, pe)
    ensures ProxyFrame(a, P.Apply(a, pe))
  {
    if pe.ByCall? {
      CallMoves(a, a.calls[pe.c], pe.act);
    }
  }

  lemma CallMoves(a: P.State, call: P.Call, act: P.CallAct)
    requires P.CallReady(a, call, act)
    ensures var next := P.CallNext(a, call, act);
      && next.sub == call.sub && next.up == call.up && next.filters == call.filters && next.start == call.start
      && P.Out(call) <= P.Out(next)
  {
  }

  lemma LinksAfterConn(s: State, conn: C.State)
    requires LinksOk(s) && TripsOk(s) && ConnFrame(s.conn, conn)
    ensures LinksOk(s.(conn := conn)) && TripsOk(s.(conn := conn))
  {
    var s' := s.(conn := conn);
    forall t | t in s'.callOf ensures LinkOk(s', t) {
      assert LinkOk(s, t);
    }
  }

  lemma LinkAfterProxy(s: State, proxy: P.State, t: nat)
    requires t in s.callOf && LinkOk(s, t) && ProxyFrame(s.proxy, proxy)
    ensures LinkOk(s.(proxy := proxy), t)
  {
    var c, n := s.callOf[t], s.crossed[t];
    assert P.Out(proxy.calls[c])[..n] == P.Out(s.proxy.calls[c])[..n];
  }

  lemma LinksAfterProxy(s: State, proxy: P.State)
    requires LinksOk(s) && ProxyFrame(s.proxy, proxy)
    ensures LinksOk(s.(proxy := proxy))
  {
    forall t | t in s.callOf ensures LinkOk(s.(proxy := proxy), t) {
      LinkAfterProxy(s, proxy, t);
    }
  }
}
