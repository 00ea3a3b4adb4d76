/**
 * The upstream proxy (crates/outlay/src/proxy.rs): many `subscribe` calls read
 * one bounded broadcast log of upstream notifications, each with its own cursor
 * and its own random upstream id.
 */
module Proxy {
  import opened Wire

  // ---------- the pure mapping ----------

  datatype RelayMessage =
    | RelayEvent(sid: string, event: Json)
    | RelayEose(sid: string)
    | RelayClosed(sid: string, message: string)
    | RelayOther(text: string)                  // OK, NOTICE, AUTH, COUNT, ...

  datatype Notification =
    | Message(message: RelayMessage)
    | Deduplicated(sid: string, event: Json)    // the pool's `Event` variant
    | Shutdown

  datatype Forward = Continue(chunk: Json) | Stop(chunk: Json)

  /** `map_notification` */
  function MapNotification(n: Notification, up: string, sub: string): Option<Forward> {
    match n
    case Message(RelayEvent(sid, event)) => if sid == up then Some(Continue(EventFrame(sub, event))) else None
    case Message(RelayEose(sid)) => if sid == up then Some(Continue(EoseFrame(sub))) else None
    case Message(RelayClosed(sid, message)) => if sid == up then Some(Stop(ClosedFrame(sub, message))) else None
    case Message(RelayOther(_)) => None
    case Deduplicated(_, _) => None
    case Shutdown => Some(Stop(ClosedFrame(sub, "error: upstream relay pool shut down")))
  }

  /** The upstream subscription a notification is about. */
  function Tag(n: Notification): Option<string> {
    match n
    case Message(RelayEvent(sid, _)) => Some(sid)
    case Message(RelayEose(sid)) => Some(sid)
    case Message(RelayClosed(sid, _)) => Some(sid)
    case _ => None
  }

  /** The frame the upstream relay itself sent. */
  function UpstreamFrame(m: RelayMessage): Json {
    match m
    case RelayEvent(sid, event) => Arr([Str("EVENT"), Str(sid), event])
    case RelayEose(sid) => Arr([Str("EOSE"), Str(sid)])
    case RelayClosed(sid, message) => Arr([Str("CLOSED"), Str(sid), Str(message)])
    case RelayOther(text) => Arr([Str(text)])
  }

  /**
   * The proxy is transparent: a call forwards exactly the messages tagged with
   * its upstream id, and the shutdown; what it forwards is the upstream's own
   * frame with nothing but the subscription id replaced; and it stops exactly at
   * a CLOSED.
   */
  lemma MapIsRelabelling(n: Notification, up: string, sub: string)
    ensures MapNotification(n, up, sub).Some? <==> n.Shutdown? || Tag(n) == Some(up)
    ensures MapNotification(n, up, sub).Some? ==>
      var f := MapNotification(n, up, sub).value;
      && CarriesSub(f.chunk, sub)
      && (f.Stop? <==> IsClosed(f.chunk))
      && (n.Message? ==> f.chunk == Arr(UpstreamFrame(n.message).items[1 := Str(sub)]))
      && (n.Shutdown? ==>
            f.chunk == Arr([Str("CLOSED"), Str(sub), Str("error: upstream relay pool shut down")]) && f.Stop?)
      && (f.Stop? ==> n.Shutdown? || n.message.RelayClosed?)
  {
    match n
    case Message(RelayEvent(sid, event)) =>
      assert [Str("EVENT"), Str(sid), event][1 := Str(sub)] == [Str("EVENT"), Str(sub), event];
    case Message(RelayEose(sid)) =>
      assert [Str("EOSE"), Str(sid)][1 := Str(sub)] == [Str("EOSE"), Str(sub)];
    case Message(RelayClosed(sid, message)) =>
      assert [Str("CLOSED"), Str(sid), Str(message)][1 := Str(sub)] == [Str("CLOSED"), Str(sub), Str(message)];
    case _ =>
  }

  /** Which upstream id each notification is about, and so which call it is for. */
  lemma TaggedBy(n: Notification, up: string, sub: string, sid: string, event: Json, text: string)
    ensures MapNotification(Message(RelayEvent(sid, event)), up, sub)
         == if sid == up then Some(Continue(Arr([Str("EVENT"), Str(sub), event]))) else None
    ensures MapNotification(Message(RelayEose(sid)), up, sub)
         == if sid == up then Some(Continue(Arr([Str("EOSE"), Str(sub)]))) else None
    ensures MapNotification(Message(RelayClosed(sid, text)), up, sub)
         == if sid == up then Some(Stop(Arr([Str("CLOSED"), Str(sub), Str(text)]))) else None
    ensures MapNotification(Message(RelayOther(text)), up, sub).None?
    ensures MapNotification(Deduplicated(sid, event), up, sub).None?
    ensures MapNotification(Shutdown, up, sub).Some?
    ensures Tag(n) == Some(up) <==>
      n.Message? && !n.message.RelayOther? && n.message.sid == up
  {
  }

  /** Chunks of the log for one call, oldest first. */
  function Relabel(log: seq<Notification>, up: string, sub: string): seq<Json> {
    if log == [] then [] else
      var rest := Relabel(log[..|log| - 1], up, sub);
      match MapNotification(log[|log| - 1], up, sub)
      case Some(f) => rest + [f.chunk]
      case None => rest
  }

  // ---------- one turn of the subscribe loop ----------

  /** What one turn of the `select!` yields, with the answers the sink gives. */
  datatype Pick =
    | Received(n: Notification, accepted: bool, alive: bool)   // `write` is ok; `is_active` afterwards
    | Lagged
    | ChannelClosed
    | PollTick(alive: bool)

  /** The loop breaks after this turn. */
  predicate Breaks(pick: Pick, up: string, sub: string) {
    match pick
    case Received(n, accepted, alive) =>
      (match MapNotification(n, up, sub)
       case Some(Continue(_)) => !(accepted && alive)
       case Some(Stop(_)) => true
       case None => false)
    case Lagged => false
    case ChannelClosed => true
    case PollTick(alive) => !alive
  }

  /** The chunks written in these turns, in order. */
  function Writes(picks: seq<Pick>, up: string, sub: string): seq<Json> {
    if picks == [] then [] else
      var rest := Writes(picks[..|picks| - 1], up, sub);
      match picks[|picks| - 1]
      case Received(n, _, _) =>
        (match MapNotification(n, up, sub) case Some(f) => rest + [f.chunk] case None => rest)
      case _ => rest
  }

  // ---------- the multiplexer ----------

  datatype CallPhase =
    | Registered              // receiver registered, REQ not sent
    | Requested               // awaiting `subscribe_with_id`
    | Looping                 // in the `select!`
    | Writing(n: Notification, fwd: Forward)   // awaiting `sink.write`
    | Unwinding               // left the loop, awaiting `unsubscribe`
    | Closing                 // unsubscribed, about to close the sink
    | Exited
    | Failed                  // `subscribe_with_id` failed

  datatype Call = Call(
    sub: string,              // the client's subscription id
    filters: seq<Json>,       // the client's filters
    up: string,               // the random upstream id
    start: nat,               // log position at registration
    cursor: nat,              // next log position to receive
    phase: CallPhase,
    active: bool,             // the sink's liveness flag
    // history
    hits: seq<nat>,           // log positions received and mapped to a chunk
    skipped: set<nat>,        // log positions lost to lag
    attempted: seq<Json>,     // chunks given to `sink.write`
    sent: seq<Json>,          // chunks the sink accepted
    picks: seq<Pick>,         // completed turns of the loop
    unsubscribes: nat,        // calls of `unsubscribe`
    sinkClosed: bool)

  /** A REQ sent upstream. */
  datatype Request = Request(up: string, filters: seq<Json>)

  datatype State = State(
    capacity: nat,
    log: seq<Notification>,   // every notification ever broadcast
    base: nat,                // oldest position still retained
    closed: bool,             // all senders dropped
    calls: seq<Call>,
    // history
    reqs: seq<Request>,       // sent by `subscribe_with_id`
    open: set<string>,        // upstream ids subscribed and not yet unsubscribed
    unsubscribed: seq<string>)

  function Initial(capacity: nat): State { State(capacity, [], 0, false, [], [], {}, []) }

  datatype CallAct =
    | SendReq
    | SubscribeOk
    | SubscribeErr
    | Recv
    | Lag
    | RecvClosed
    | Poll
    | SinkDies
    | WriteDone(accepted: bool)
    | Unsubscribe
    | CloseSink

  datatype Event =
    | Begin(sub: string, filters: seq<Json>, up: string)
    | RejectEmpty(rejected: string)     // `filters.is_empty()`: an error before anything else
    | Broadcast(n: Notification)
    | PoolDropped
    | ByCall(c: nat, act: CallAct)

  predicate CallReady(s: State, call: Call, a: CallAct) {
    match a
    case SendReq => call.phase.Registered?
    case SubscribeOk => call.phase.Requested?
    case SubscribeErr => call.phase.Requested?
    case Recv => call.phase.Looping? && s.base <= call.cursor < |s.log|
    case Lag => call.phase.Looping? && call.cursor < s.base
    case RecvClosed => call.phase.Looping? && s.closed && call.cursor == |s.log|
    case Poll => call.phase.Looping?
    case SinkDies => call.active
    case WriteDone(_) => call.phase.Writing?
    case Unsubscribe => call.phase.Unwinding?
    case CloseSink => call.phase.Closing?
  }

  /**
   * Environment assumptions: a drawn id is one no call uses and no message
   * carries, and the upstream does not answer a REQ before it was sent.
   */
  predicate Enabled(s: State, e: Event) {
    match e
    case Begin(_, filters, up) =>
      && filters != []
      && (forall c :: 0 <= c < |s.calls| ==> s.calls[c].up != up)
      && (forall i :: 0 <= i < |s.log| ==> Tag(s.log[i]) != Some(up))
    case RejectEmpty(_) => true
    case Broadcast(n) =>
      && !s.closed
      && (forall c :: 0 <= c < |s.calls| && s.calls[c].phase.Registered? ==> Tag(n) != Some(s.calls[c].up))
    case PoolDropped => true
    case ByCall(c, a) => c < |s.calls| && CallReady(s, s.calls[c], a)
  }

  function Turn(call: Call, pick: Pick): Call {
    call.(picks := call.picks + [pick],
          phase := if Breaks(pick, call.up, call.sub) then Unwinding else Looping)
  }

  /** The positions from `lo` up to `hi`. */
  function Span(lo: nat, hi: nat): (r: set<nat>)
    ensures forall i :: i in r <==> lo <= i < hi
  {
    if lo >= hi then {} else Span(lo, hi - 1) + {hi - 1}
  }

  function CallNext(s: State, call: Call, a: CallAct): Call
    requires CallReady(s, call, a)
  {
    match a
    case SendReq => call.(phase := Requested)
    case SubscribeOk => call.(phase := Looping)
    case SubscribeErr => call.(phase := Failed)
    case Recv =>
      var n := s.log[call.cursor];
      (match MapNotification(n, call.up, call.sub)
       case Some(f) => call.(cursor := call.cursor + 1, phase := Writing(n, f), hits := call.hits + [call.cursor])
       case None => Turn(call.(cursor := call.cursor + 1), Received(n, true, call.active)))
    case Lag => Turn(call.(cursor := s.base, skipped := call.skipped + Span(call.cursor, s.base)), Lagged)
    case RecvClosed => Turn(call, ChannelClosed)
    case Poll => Turn(call, PollTick(call.active))
    case SinkDies => call.(active := false)
    case WriteDone(accepted) =>
      var chunk := call.phase.fwd.chunk;
      Turn(call.(attempted := call.attempted + [chunk],
                 sent := if accepted then call.sent + [chunk] else call.sent),
           Received(call.phase.n, accepted, call.active))
    case Unsubscribe => call.(phase := Closing, unsubscribes := call.unsubscribes + 1)
    case CloseSink => call.(phase := Exited, sinkClosed := call.active)
  }

  function Apply(s: State, e: Event): State
    requires Enabled(s, e)
  {
    match e
    case Begin(sub, filters, up) =>
      var call := Call(sub, filters, up, |s.log|, |s.log|, Registered, true, [], {}, [], [], [], 0, false);
      s.(calls := s.calls + [call])
    case RejectEmpty(_) => s
    case Broadcast(n) =>
      s.(log := s.log + [n], base := if |s.log| + 1 > s.base + s.capacity then |s.log| + 1 - s.capacity else s.base)
    case PoolDropped => s.(closed := true)
    case ByCall(c, a) =>
      var call := s.calls[c];
      s.(calls := s.calls[c := CallNext(s, call, a)],
         reqs := if a.SendReq? then s.reqs + [Request(call.up, call.filters)] else s.reqs,
         open := (match a
                  case SubscribeOk => s.open + {call.up}
                  case Unsubscribe => s.open - {call.up}
                  case _ => s.open),
         unsubscribed := if a.Unsubscribe? then s.unsubscribed + [call.up] else s.unsubscribed)
  }

  ghost predicate ValidRun(s: State, es: seq<Event>)
    decreases |es|, 0
  {
    es == [] || (ValidRun(s, es[..|es| - 1]) && Enabled(Exec(s, es[..|es| - 1]), es[|es| - 1]))
  }

  ghost function Exec(s: State, es: seq<Event>): State
    requires ValidRun(s, es)
    decreases |es|, 1
  {
    if es == [] then s else Apply(Exec(s, es[..|es| - 1]), es[|es| - 1])
  }

  // ---------- what every step keeps ----------

  /** `a` is obtained from `b` by leaving elements out. */
  predicate Subsequence(a: seq<Json>, b: seq<Json>) {
    if a == [] then true
    else if b == [] then false
    else if a[|a| - 1] == b[|b| - 1] && Subsequence(a[..|a| - 1], b[..|b| - 1]) then true
    else Subsequence(a, b[..|b| - 1])
  }

  function Pending(call: Call): seq<Json> {
    if call.phase.Writing? then [call.phase.fwd.chunk] else []
  }

  /** The chunks a call has written or is writing. */
  function Out(call: Call): seq<Json> { call.attempted + Pending(call) }

  predicate Matches(n: Notification, call: Call) { MapNotification(n, call.up, call.sub).Some? }

  /** Loop history of one call: turns, writes, sink. */
  predicate LoopOk(call: Call) {
    && call.attempted == Writes(call.picks, call.up, call.sub)
    && (forall i :: 0 <= i < |call.picks| - 1 ==> !Breaks(call.picks[i], call.up, call.sub))
    && (call.phase.Looping? || call.phase.Writing? ==>
          forall i :: 0 <= i < |call.picks| ==> !Breaks(call.picks[i], call.up, call.sub))
    && (call.phase.Unwinding? || call.phase.Closing? || call.phase.Exited? ==>
          |call.picks| > 0 && Breaks(call.picks[|call.picks| - 1], call.up, call.sub))
    && (call.phase.Registered? || call.phase.Requested? || call.phase.Failed? ==> call.picks == [])
    && (call.phase.Looping? || call.phase.Writing? ==> call.sent == call.attempted)
    && call.sent <= call.attempted
    && (call.phase.Writing? ==> MapNotification(call.phase.n, call.up, call.sub) == Some(call.phase.fwd))
    && call.unsubscribes == (if call.phase.Closing? || call.phase.Exited? then 1 else 0)
    && (call.sinkClosed ==> call.phase.Exited?)
  }

  /** Positions of one call in the log. */
  predicate CursorOk(log: seq<Notification>, call: Call) {
    && call.start <= call.cursor <= |log|
    && (forall i :: 0 <= i < call.start ==> Tag(log[i]) != Some(call.up))
    && (call.phase.Registered? ==> forall i :: 0 <= i < |log| ==> Tag(log[i]) != Some(call.up))
    && (forall i :: i in call.skipped ==> call.start <= i < call.cursor)
  }

  /** The positions received are the matching ones not skipped; they give the chunks written. */
  ghost predicate HitsOk(log: seq<Notification>, call: Call)
    requires CursorOk(log, call)
  {
    && |call.hits| == |Out(call)|
    && (forall k :: 0 <= k < |call.hits| ==>
          && call.start <= call.hits[k] < call.cursor && call.hits[k] !in call.skipped
          && MapNotification(log[call.hits[k]], call.up, call.sub).Some?
          && MapNotification(log[call.hits[k]], call.up, call.sub).value.chunk == Out(call)[k])
    && (forall k, l :: 0 <= k < l < |call.hits| ==> call.hits[k] < call.hits[l])
    && (forall i :: call.start <= i < call.cursor && i !in call.skipped && Matches(log[i], call) ==> i in call.hits)
  }

  /** The chunks written against the relabelled log. */
  predicate OutputOk(log: seq<Notification>, call: Call)
    requires CursorOk(log, call)
  {
    var mine := Relabel(log[call.start..call.cursor], call.up, call.sub);
    && Subsequence(Out(call), mine)
    && (call.skipped == {} ==> Out(call) == mine)
  }

  ghost predicate CallOk(log: seq<Notification>, call: Call) {
    LoopOk(call) && CursorOk(log, call) && HitsOk(log, call) && OutputOk(log, call)
  }

  /** Between a successful subscribe and the unsubscribe. */
  predicate Live(call: Call) { call.phase.Looping? || call.phase.Writing? || call.phase.Unwinding? }

  function Ups(calls: seq<Call>): set<string> { set c | 0 <= c < |calls| :: calls[c].up }

  ghost predicate OpenOk(s: State) {
    && s.open <= Ups(s.calls)
    && (forall c :: 0 <= c < |s.calls| ==> (s.calls[c].up in s.open <==> Live(s.calls[c])))
    && (forall u :: u in s.unsubscribed ==> u in Ups(s.calls))
    && (forall c :: 0 <= c < |s.calls| ==> (s.calls[c].up in s.unsubscribed <==> s.calls[c].unsubscribes > 0))
    && (forall i, j :: 0 <= i < j < |s.unsubscribed| ==> s.unsubscribed[i] != s.unsubscribed[j])
  }

  /** The newest `capacity` notifications are retained. */
  function Oldest(length: nat, capacity: nat): nat { if length > capacity then length - capacity else 0 }

  ghost predicate Inv(s: State) {
    && s.base == Oldest(|s.log|, s.capacity)
    && (forall c, d :: 0 <= c < d < |s.calls| ==> s.calls[c].up != s.calls[d].up)
    && (forall c :: 0 <= c < |s.calls| ==> CallOk(s.log, s.calls[c]))
    && OpenOk(s)
  }
}
