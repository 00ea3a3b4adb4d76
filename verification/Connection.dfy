/**
 * The per-connection WebSocket bridge (crates/outlay-shim/src/conn.rs) as a
 * transition system: one reader, one writer, one task for each REQ and one for
 * each EVENT, all feeding one bounded channel. Each event is one atomic step of
 * one of them or of the environment; a run is any sequence of enabled events,
 * so a run is an interleaving.
 */
module Connection {
  import opened Wire

  const OUTBOUND_BUF: nat := 256

  // ---------- state ----------

  /** Who put a frame into the channel. `ShimFor` is the CLOSED frame a task makes itself. */
  datatype Producer = StreamOf(task: nat) | ShimFor(task: nat) | Publisher(pub: nat) | Reader

  datatype Outbound = Outbound(from: Producer, frame: Json)

  /** What `call.stream.next()` can yield. */
  datatype StreamItem = Chunk(frame: Json) | Broken(reason: string) | Ended

  datatype TaskPhase =
    | Setup                                // in the first `select!`
    | Streaming                            // in the `select!` of the loop
    | Sending(out: Outbound, last: bool)   // awaiting `tx.send`; `last`: returns afterwards
    | Cancelling                           // awaiting `handle.cancel`
    | Finished

  /** One `subscribe_loop`. `permit` is the stored permit of its `Notify`. */
  datatype SubTask = SubTask(
    sub: string,
    filters: seq<Json>,
    phase: TaskPhase,
    permit: bool,
    token: Option<nat>,          // progress token, once the stream is established
    arrived: seq<StreamItem>,    // what the stream has received so far ...
    taken: nat,                  // ... and how much of it the loop has read
    // history
    signals: nat,                // calls of `notify_one`
    cancels: seq<nat>,           // tokens passed to `handle.cancel`
    streamed: seq<Json>,         // stream chunks enqueued
    synthesized: seq<Json>,      // own CLOSED frames enqueued
    setupError: Option<string>)  // why `call_tool_stream` failed

  /** The outcome of the `publish_event` tool call as the shim sees it. */
  datatype CallReply = Result(structured: Option<Json>) | CallError(message: string)

  datatype PubPhase = Calling | Replying(frame: Json) | Answered

  /** One `publish_once`. */
  datatype PubTask = PubTask(event: Json, phase: PubPhase, reply: Option<CallReply>, enqueued: seq<Json>)

  datatype ReaderPhase =
    | Reading
    | Noticing                        // awaiting `tx.send` of the NOTICE
    | Cleaning(pending: set<string>)  // in the cleanup loop, these not signalled yet
    | Dropped                         // `subs` and `tx` dropped, awaiting the writer

  datatype WriterPhase =
    | Receiving
    | Writing(out: Outbound)          // awaiting `sink.send`
    | Closing(failed: bool)           // left the loop, awaiting `sink.close`
    | Done(failed: bool)              // task over, receiver dropped

  datatype State = State(
    reader: ReaderPhase,
    subs: map<string, nat>,
    tasks: seq<SubTask>,
    pubs: seq<PubTask>,
    queue: seq<Outbound>,
    writer: WriterPhase,
    // history
    delivered: seq<Outbound>,         // accepted by the sink
    lost: seq<Outbound>,              // taken from or left in the channel by a failed writer
    notices: seq<Json>)               // enqueued by the reader

  const INITIAL: State := State(Reading, map[], [], [], [], Receiving, [], [], [])

  // ---------- steps ----------

  /** What the client's socket yields to the reader. */
  datatype WsFrame = Text(parsed: Option<seq<Json>>) | Control | Gone

  /** Steps of one subscribe task; `Arrive` is the remote end feeding its stream. */
  datatype TaskAct =
    | SetupOk(newToken: nat)
    | SetupErr(reason: string)
    | SetupCancelled
    | Take
    | Teardown
    | TeardownDone
    | Send
    | SendRefused
    | Arrive(item: StreamItem)

  datatype PubAct = Reply(reply: CallReply) | PubSend | PubRefused

  datatype WriterAct = Receive | SinkAccepts | SinkFails | ChannelEnded | SinkClosed

  datatype ReaderAct =
    | Inbound(frame: WsFrame)
    | NoticeSent
    | NoticeRefused
    | CleanupSignal(sub: string)
    | CleanupDone

  datatype Event =
    | ByReader(read: ReaderAct)
    | ByTask(t: nat, act: TaskAct)
    | ByPub(p: nat, pub: PubAct)
    | ByWriter(write: WriterAct)

  /** Steps that neither the client nor the remote stream has to initiate. */
  predicate Internal(e: Event) {
    !(e.ByReader? && e.read.Inbound?) && !(e.ByTask? && e.act.Arrive?)
  }

  predicate ChannelOpen(s: State) { !s.writer.Done? }
  predicate HasRoom(s: State) { ChannelOpen(s) && |s.queue| < OUTBOUND_BUF }

  ghost predicate SendersDropped(s: State) {
    && s.reader.Dropped?
    && (forall t :: 0 <= t < |s.tasks| ==> s.tasks[t].phase.Finished?)
    && (forall p :: 0 <= p < |s.pubs| ==> s.pubs[p].phase.Answered?)
  }

  predicate ReaderReady(s: State, a: ReaderAct) {
    match a
    case Inbound(_) => s.reader.Reading?
    case NoticeSent => s.reader.Noticing? && HasRoom(s)
    case NoticeRefused => s.reader.Noticing? && !ChannelOpen(s)
    case CleanupSignal(sub) => s.reader.Cleaning? && sub in s.reader.pending && sub in s.subs
    case CleanupDone => s.reader == Cleaning({})
  }

  predicate TaskReady(task: SubTask, a: TaskAct) {
    match a
    case SetupOk(_) => task.phase.Setup?
    case SetupErr(_) => task.phase.Setup?
    case SetupCancelled => task.phase.Setup? && task.permit
    case Take => task.phase.Streaming? && task.taken < |task.arrived|
    case Teardown => task.phase.Streaming? && task.permit && task.token.Some?
    case TeardownDone => task.phase.Cancelling?
    case Send => task.phase.Sending?
    case SendRefused => task.phase.Sending?
    case Arrive(_) => task.token.Some?
  }

  predicate PubReady(pub: PubTask, a: PubAct) {
    match a
    case Reply(_) => pub.phase.Calling?
    case PubSend => pub.phase.Replying?
    case PubRefused => pub.phase.Replying?
  }

  ghost predicate WriterReady(s: State, a: WriterAct) {
    match a
    case Receive => s.writer.Receiving? && |s.queue| > 0
    case SinkAccepts => s.writer.Writing?
    case SinkFails => s.writer.Writing?
    case ChannelEnded => s.writer.Receiving? && s.queue == [] && SendersDropped(s)
    case SinkClosed => s.writer.Closing?
  }

  /** `SetupOk` yields a token no other task holds: rmcp counts them up. */
  predicate TokenFresh(s: State, a: TaskAct) {
    a.SetupOk? ==> forall u :: 0 <= u < |s.tasks| ==> s.tasks[u].token != Some(a.newToken)
  }

  ghost predicate Enabled(s: State, e: Event) {
    match e
    case ByReader(a) => ReaderReady(s, a)
    case ByTask(t, a) =>
      && t < |s.tasks| && TaskReady(s.tasks[t], a) && TokenFresh(s, a)
      && (a.Send? ==> HasRoom(s)) && (a.SendRefused? ==> !ChannelOpen(s))
    case ByPub(p, a) =>
      && p < |s.pubs| && PubReady(s.pubs[p], a)
      && (a.PubSend? ==> HasRoom(s)) && (a.PubRefused? ==> !ChannelOpen(s))
    case ByWriter(a) => WriterReady(s, a)
  }

  // `notify_one`: stores the permit.
  function Signalled(task: SubTask): SubTask { task.(permit := true, signals := task.signals + 1) }

  function SignalAt(tasks: seq<SubTask>, t: nat): seq<SubTask> {
    if t < |tasks| then tasks[t := Signalled(tasks[t])] else tasks
  }

  /** `if let Some((cancel, _)) = subs.remove(&sub) { cancel.notify_one() }` */
  function Signal(s: State, sub: string): State {
    if sub in s.subs then s.(subs := s.subs - {sub}, tasks := SignalAt(s.tasks, s.subs[sub])) else s
  }

  function NewTask(sub: string, filters: seq<Json>): SubTask {
    SubTask(sub, filters, Setup, false, None, [], 0, 0, [], [], [], None)
  }

  function Dispatch(s: State, m: Option<ClientMsg>): State
  {
    match m
    case Some(Req(sub, filters)) =>
      var s1 := Signal(s, sub);
      s1.(subs := s1.subs[sub := |s1.tasks|], tasks := s1.tasks + [NewTask(sub, filters)])
    case Some(Close(sub)) => Signal(s, sub)
    case Some(Publish(event)) => s.(pubs := s.pubs + [PubTask(event, Calling, None, [])])
    case None => s.(reader := Noticing)
  }

  function OnFrame(s: State, frame: WsFrame): State
  {
    match frame
    case Text(parsed) => Dispatch(s, ParseClientFrame(parsed))
    case Control => s
    case Gone => s.(reader := Cleaning(s.subs.Keys))
  }

  function TakeItem(task: SubTask, t: nat, item: StreamItem): SubTask {
    match item
    case Chunk(c) => task.(phase := Sending(Outbound(StreamOf(t), c), false), taken := task.taken + 1)
    case Broken(why) =>
      task.(phase := Sending(Outbound(ShimFor(t), ClosedFrame(task.sub, why)), true), taken := task.taken + 1)
    case Ended => task.(phase := Finished, taken := task.taken + 1)
  }

  function Sent(task: SubTask): SubTask
    requires task.phase.Sending?
  {
    if task.phase.last
    then task.(phase := Finished, synthesized := task.synthesized + [task.phase.out.frame])
    else task.(phase := Streaming, streamed := task.streamed + [task.phase.out.frame])
  }

  /** The `OK` frame `publish_once` synthesises. */
  function PublishFrame(event: Json, reply: CallReply): Json {
    var id := match Field(event, "id") case Some(Str(s)) => s case _ => "";
    match reply
    case CallError(message) => OkFrame(id, false, message)
    case Result(structured) =>
      var sc := match structured case Some(v) => v case None => Null;
      var ok := match Field(sc, "ok") case Some(Bool(b)) => b case _ => false;
      var msg := match Field(sc, "message") case Some(Str(m)) => m case _ => "";
      var okId := match Field(sc, "event_id") case Some(Str(i)) => i case _ => id;
      OkFrame(okId, ok, msg)
  }

  function ReaderNext(s: State, a: ReaderAct): State
    requires ReaderReady(s, a)
  {
    match a
    case Inbound(frame) => OnFrame(s, frame)
    case NoticeSent =>
      var n := NoticeFrame("unrecognized frame");
      s.(reader := Reading, queue := s.queue + [Outbound(Reader, n)], notices := s.notices + [n])
    case NoticeRefused => s.(reader := Reading)
    case CleanupSignal(sub) =>
      s.(tasks := SignalAt(s.tasks, s.subs[sub]), reader := Cleaning(s.reader.pending - {sub}))
    case CleanupDone => s.(reader := Dropped, subs := map[])
  }

  /** The next state of the subscribe task with number `t`. */
  function TaskNext(task: SubTask, t: nat, a: TaskAct): SubTask
    requires TaskReady(task, a)
  {
    match a
    case SetupOk(tok) => task.(phase := Streaming, token := Some(tok))
    case SetupErr(why) =>
      task.(phase := Sending(Outbound(ShimFor(t), ClosedFrame(task.sub, why)), true), setupError := Some(why))
    case SetupCancelled => task.(phase := Finished, permit := false)
    case Take => TakeItem(task, t, task.arrived[task.taken])
    case Teardown => task.(phase := Cancelling, permit := false, cancels := task.cancels + [task.token.value])
    case TeardownDone => task.(phase := Finished)
    case Send => Sent(task)
    case SendRefused => task.(phase := Finished)
    case Arrive(item) => task.(arrived := task.arrived + [item])
  }

  function PubNext(pub: PubTask, a: PubAct): PubTask
    requires PubReady(pub, a)
  {
    match a
    case Reply(reply) => pub.(phase := Replying(PublishFrame(pub.event, reply)), reply := Some(reply))
    case PubSend => pub.(phase := Answered, enqueued := pub.enqueued + [pub.phase.frame])
    case PubRefused => pub.(phase := Answered)
  }

  ghost function WriterNext(s: State, a: WriterAct): State
    requires WriterReady(s, a)
  {
    match a
    case Receive => s.(writer := Writing(s.queue[0]), queue := s.queue[1..])
    case SinkAccepts => s.(writer := Receiving, delivered := s.delivered + [s.writer.out])
    case SinkFails => s.(writer := Closing(true), lost := s.lost + [s.writer.out])
    case ChannelEnded => s.(writer := Closing(false))
    case SinkClosed => s.(writer := Done(s.writer.failed), queue := [], lost := s.lost + s.queue)
  }

  ghost function Apply(s: State, e: Event): State
    requires Enabled(s, e)
  {
    match e
    case ByReader(a) => ReaderNext(s, a)
    case ByTask(t, a) =>
      s.(tasks := s.tasks[t := TaskNext(s.tasks[t], t, a)],
         queue := if a.Send? then s.queue + [s.tasks[t].phase.out] else s.queue)
    case ByPub(p, a) =>
      s.(pubs := s.pubs[p := PubNext(s.pubs[p], a)],
         queue := if a.PubSend? then s.queue + [Outbound(Publisher(p), s.pubs[p].phase.frame)] else s.queue)
    case ByWriter(a) => WriterNext(s, a)
  }

  // ---------- what every step keeps ----------

  /** Stream chunks among the items read so far. */
  function Chunks(items: seq<StreamItem>): seq<Json> {
    if items == [] then [] else
      var rest := Chunks(items[..|items| - 1]);
      var last := items[|items| - 1];
      if last.Chunk? then rest + [last.frame] else rest
  }

  lemma ChunksAppend(items: seq<StreamItem>, item: StreamItem)
    ensures Chunks(items + [item]) == Chunks(items) + (if item.Chunk? then [item.frame] else [])
  {
    assert (items + [item])[..|items|] == items;
  }

  lemma {:induction false} ChunksPrefix(items: seq<StreamItem>, n: nat)
    requires n <= |items|
    ensures Chunks(items[..n]) <= Chunks(items)
  {
    if n == |items| {
      assert items[..n] == items;
    } else {
      ChunksPrefix(items[..|items| - 1], n);
      assert items[..|items| - 1][..n] == items[..n];
    }
  }

  /** The signal was sent and has been consumed. */
  predicate SignalConsumed(task: SubTask) { task.signals == 1 && !task.permit }

  /** Signal bookkeeping of one task: the one-permit flag loses nothing. */
  predicate SignalsOk(task: SubTask) {
    && task.signals <= 1
    && (task.permit ==> task.signals == 1)
    && (SignalConsumed(task) ==> task.phase.Cancelling? || task.phase.Finished?)
    && (task.phase.Cancelling? ==> SignalConsumed(task))
    && task.cancels == (if task.token.Some? && SignalConsumed(task) then [task.token.value] else [])
    && (task.phase.Setup? ==> task.token.None?)
    && (task.phase.Streaming? || task.phase.Cancelling? || (task.phase.Sending? && !task.phase.last) ==>
          task.token.Some?)
  }

  /** Data flow of task `t`: what it enqueued is what it read, in order. */
  predicate FlowOk(task: SubTask, t: nat) {
    && task.taken <= |task.arrived|
    && (task.token.None? ==> task.arrived == [] && task.streamed == [])
    && (match task.phase
        case Setup => task.streamed == [] == task.synthesized
        case Streaming => task.synthesized == [] && task.streamed == Chunks(task.arrived[..task.taken])
        case Sending(out, true) =>
          && out.from == ShimFor(t) && task.synthesized == []
          && CarriesSub(out.frame, task.sub) && IsClosed(out.frame)
          && task.streamed == Chunks(task.arrived[..task.taken])
        case Sending(out, false) =>
          && out.from == StreamOf(t) && task.synthesized == [] && task.token.Some?
          && task.streamed + [out.frame] == Chunks(task.arrived[..task.taken])
        case _ => task.streamed <= Chunks(task.arrived[..task.taken]))
    && |task.synthesized| <= 1
    && (forall i :: 0 <= i < |task.synthesized| ==>
          CarriesSub(task.synthesized[i], task.sub) && IsClosed(task.synthesized[i]))
  }

  predicate TaskOk(task: SubTask, t: nat) { SignalsOk(task) && FlowOk(task, t) }

  predicate TasksOk(tasks: seq<SubTask>) { forall t :: 0 <= t < |tasks| ==> TaskOk(tasks[t], t) }

  predicate PubOk(s: State, pub: PubTask) {
    match pub.phase
    case Calling => pub.reply.None? && pub.enqueued == []
    case Replying(f) => pub.reply.Some? && f == PublishFrame(pub.event, pub.reply.value) && pub.enqueued == []
    case Answered =>
      && pub.reply.Some?
      && (pub.enqueued == [PublishFrame(pub.event, pub.reply.value)] || (pub.enqueued == [] && s.writer.Done?))
  }

  /** `t` is the live entry of `subs` for its own subscription id. */
  predicate Held(s: State, t: nat)
    requires t < |s.tasks|
  {
    var sub := s.tasks[t].sub;
    sub in s.subs && s.subs[sub] == t && (s.reader.Cleaning? ==> sub in s.reader.pending)
  }

  ghost predicate SubsOk(s: State) {
    && (forall k :: k in s.subs ==> s.subs[k] < |s.tasks| && s.tasks[s.subs[k]].sub == k)
    && (s.reader.Cleaning? ==> s.reader.pending <= s.subs.Keys)
    && (s.reader.Dropped? ==> s.subs == map[])
    && (forall t :: 0 <= t < |s.tasks| ==> (s.tasks[t].signals == 0 <==> Held(s, t)))
  }

  /** No two tasks hold the same progress token. */
  ghost predicate TokensOk(tasks: seq<SubTask>) {
    forall t, u :: 0 <= t < u < |tasks| && tasks[t].token.Some? ==> tasks[t].token != tasks[u].token
  }

  /** Everything ever put into the channel, oldest first. */
  function Conduit(s: State): seq<Outbound> {
    s.delivered + s.lost + (if s.writer.Writing? then [s.writer.out] else []) + s.queue
  }

  function Proj(os: seq<Outbound>, p: Producer): seq<Json> {
    if os == [] then [] else
      var rest := Proj(os[..|os| - 1], p);
      var last := os[|os| - 1];
      if last.from == p then rest + [last.frame] else rest
  }

  /** What producer `p` itself recorded as enqueued. */
  function Own(s: State, p: Producer): seq<Json> {
    match p
    case StreamOf(t) => if t < |s.tasks| then s.tasks[t].streamed else []
    case ShimFor(t) => if t < |s.tasks| then s.tasks[t].synthesized else []
    case Publisher(i) => if i < |s.pubs| then s.pubs[i].enqueued else []
    case Reader => s.notices
  }

  ghost predicate MergeOk(s: State) {
    forall p :: Proj(Conduit(s), p) == Own(s, p)
  }

  ghost predicate WriterOk(s: State) {
    && |s.queue| <= OUTBOUND_BUF
    && (s.writer.Done? ==> s.queue == [])
    && (match s.writer
        case Closing(false) => s.lost == [] && s.queue == [] && SendersDropped(s)
        case Done(false) => s.lost == [] && SendersDropped(s)
        case Closing(true) => true
        case Done(true) => true
        case _ => s.lost == [])
  }

  ghost predicate Inv(s: State) {
    && SubsOk(s)
    && TasksOk(s.tasks)
    && TokensOk(s.tasks)
    && (forall p :: 0 <= p < |s.pubs| ==> PubOk(s, s.pubs[p]))
    && MergeOk(s)
    && WriterOk(s)
  }

  // ---------- runs ----------

  /** `es` is an interleaving the connection can perform from `s`. */
  ghost predicate ValidRun(s: State, es: seq<Event>)
    decreases |es|, 0
  {
    es == [] || (ValidRun(s, es[..|es| - 1]) && Enabled(Exec(s, es[..|es| - 1]), es[|es| - 1]))
  }

  ghost function Exec(s: State, es: seq<Event>): State
    requires ValidRun(s, es)
    decreases |es|, 1
  {
    if es == [] then s else Apply(Exec(s, es[..|es| - 1]), es[|es| - 1])
  }
}
