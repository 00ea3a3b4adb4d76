/**
 * What a CLOSE does not stop. The `select!` of `subscribe_loop` is unbiased, so
 * a signalled task may go on forwarding. Here is exactly when a task can still
 * put a stream chunk into the channel, and exactly when the client can still
 * receive one; whether the task was signalled is part of neither.
 */
module ConnectionClose {
  import opened Wire
  import opened Connection
  import opened ConnectionSafety

  /** The task has left its loop, or reads the end of its stream next, or its frames go nowhere. */
  predicate Muted(s: State, t: nat)
    requires t < |s.tasks|
  {
    || s.writer.Done?
    || (s.writer.Closing? && |s.queue| >= 256)
    || TaskMuted(s.tasks[t])
  }

  predicate TaskMuted(task: SubTask) {
    match task.phase
    case Finished => true
    case Cancelling => true
    case Sending(_, last) => last
    case Setup => false
    case Streaming => task.taken < |task.arrived| && !task.arrived[task.taken].Chunk?
  }

  // ---------- a muted task stays silent ----------

  lemma TaskMutedStep(task: SubTask, t: nat, a: TaskAct)
    requires TaskReady(task, a) && TaskMuted(task)
    ensures TaskMuted(TaskNext(task, t, a)) && TaskNext(task, t, a).streamed == task.streamed
  {
  }

  lemma ChannelStep(s: State, e: Event)
    requires Enabled(s, e)
    ensures s.writer.Done? ==> Apply(s, e).writer.Done?
    ensures s.writer.Closing? && |s.queue| >= OUTBOUND_BUF ==>
      Apply(s, e).writer.Done? || (Apply(s, e).writer.Closing? && |Apply(s, e).queue| >= OUTBOUND_BUF)
  {
    match e
    case ByReader(a) => assert Apply(s, e) == ReaderNext(s, a);
    case _ =>
  }

  lemma MutedStep(s: State, e: Event, t: nat)
    requires Enabled(s, e) && t < |s.tasks| && Muted(s, t)
    ensures var s' := Apply(s, e); t < |s'.tasks| && Muted(s', t) && s'.tasks[t].streamed == s.tasks[t].streamed
  {
    ChannelStep(s, e);
    if e.ByTask? && e.t == t {
      if TaskMuted(s.tasks[t]) {
        TaskMutedStep(s.tasks[t], t, e.act);
      }
    } else {
      OthersStep(s, e, t);
    }
  }

  lemma {:induction false} MutedForever(s: State, es: seq<Event>, t: nat)
    requires ValidRun(s, es) && t < |s.tasks| && Muted(s, t)
    ensures var s' := Exec(s, es); t < |s'.tasks| && Muted(s', t) && s'.tasks[t].streamed == s.tasks[t].streamed
  {
    if es != [] {
      MutedForever(s, es[..|es| - 1], t);
      MutedStep(Exec(s, es[..|es| - 1]), es[|es| - 1], t);
    }
  }

  // ---------- what the client has and what is on its way ----------

  /** The writer can still hand a frame to the client. */
  predicate Running(s: State) { s.writer.Receiving? || s.writer.Writing? }

  /** The stream chunks of task `t` the client has. */
  function Received(s: State, t: nat): seq<Json> { Proj(s.delivered, StreamOf(t)) }

  /** Those being written or queued. */
  function InChannel(s: State, t: nat): seq<Json> {
    Proj((if s.writer.Writing? then [s.writer.out] else []) + s.queue, StreamOf(t))
  }

  function Onward(s: State, t: nat): seq<Json> { Received(s, t) + InChannel(s, t) }

  lemma OneStep(s: State, e: Event)
    requires Enabled(s, e)
    ensures ValidRun(s, [e]) && Exec(s, [e]) == Apply(s, e)
  {
    assert [e][..0] == [];
  }

  lemma TakenIsInFlight(s: State, t: nat)
    requires WriterReady(s, Receive)
    ensures Onward(WriterNext(s, Receive), t) == Onward(s, t)
  {
    assert [s.queue[0]] + s.queue[1..] == [] + s.queue;
  }

  lemma AcceptedIsReceived(s: State, t: nat)
    requires s.writer.Writing?
    ensures Onward(WriterNext(s, SinkAccepts), t) == Onward(s, t)
  {
    var s' := WriterNext(s, SinkAccepts);
    var one, rest := Proj([s.writer.out], StreamOf(t)), Proj(s.queue, StreamOf(t));
    assert InChannel(s', t) == rest by { assert [] + s.queue == s.queue; }
    assert InChannel(s, t) == one + rest by { ProjConcat([s.writer.out], s.queue, StreamOf(t)); }
    assert Received(s', t) == Received(s, t) + one by { ProjConcat(s.delivered, [s.writer.out], StreamOf(t)); }
    assert Received(s, t) + one + rest == Received(s, t) + (one + rest);
  }

  lemma MovesOn(s: State, a: WriterAct, t: nat)
    requires WriterReady(s, a) && (a.Receive? || a.SinkAccepts?)
    ensures Running(WriterNext(s, a)) && Onward(WriterNext(s, a), t) == Onward(s, t)
  {
    match a
    case Receive => TakenIsInFlight(s, t);
    case SinkAccepts => AcceptedIsReceived(s, t);
  }

  // ---------- one that is not muted can still forward ----------

  /** From `s` to `s'` the task forwarded nothing and the channel neither stopped nor lost anything. */
  ghost predicate Level(s: State, s': State, t: nat) {
    && t < |s.tasks| && t < |s'.tasks| && s'.tasks[t].streamed == s.tasks[t].streamed
    && (Running(s) ==> Running(s') && Onward(s', t) == Onward(s, t))
  }

  /** The task awaits `tx.send` of a chunk and the channel takes it. */
  predicate Offers(s: State, t: nat) {
    t < |s.tasks| && s.tasks[t].phase.Sending? && !s.tasks[t].phase.last && HasRoom(s)
  }

  ghost predicate CanOffer(s: State, t: nat) {
    exists es :: ValidRun(s, es) && Level(s, Exec(s, es), t) && Offers(Exec(s, es), t)
  }

  lemma OfferNow(s: State, t: nat)
    requires Offers(s, t)
    ensures CanOffer(s, t)
  {
    assert ValidRun(s, []) && Level(s, Exec(s, []), t);
  }

  lemma OfferBack(s: State, e: Event, t: nat)
    requires Enabled(s, e) && Level(s, Apply(s, e), t) && CanOffer(Apply(s, e), t)
    ensures CanOffer(s, t)
  {
    var s1 := Apply(s, e);
    var es :| ValidRun(s1, es) && Level(s1, Exec(s1, es), t) && Offers(Exec(s1, es), t);
    OneStep(s, e);
    RunsCompose(s, [e], es);
  }

  lemma OfferAfterRoom(s: State, t: nat)
    requires WriterOk(s) && t < |s.tasks| && s.tasks[t].phase.Sending? && !s.tasks[t].phase.last && !Muted(s, t)
    ensures CanOffer(s, t)
    decreases s.writer.Writing?
  {
    if |s.queue| < OUTBOUND_BUF {
      OfferNow(s, t);
    } else if s.writer.Receiving? {
      MovesOn(s, Receive, t);
      OfferNow(Apply(s, ByWriter(Receive)), t);
      OfferBack(s, ByWriter(Receive), t);
    } else {
      MovesOn(s, SinkAccepts, t);
      OfferAfterRoom(Apply(s, ByWriter(SinkAccepts)), t);
      OfferBack(s, ByWriter(SinkAccepts), t);
    }
  }

  lemma TakeThenOffer(s: State, t: nat)
    requires WriterOk(s) && t < |s.tasks| && s.tasks[t].phase.Streaming? && !Muted(s, t)
    requires s.tasks[t].taken < |s.tasks[t].arrived|
    ensures CanOffer(s, t)
  {
    OfferAfterRoom(Apply(s, ByTask(t, Take)), t);
    OfferBack(s, ByTask(t, Take), t);
  }

  lemma StreamThenOffer(s: State, t: nat)
    requires WriterOk(s) && t < |s.tasks| && TaskOk(s.tasks[t], t) && s.tasks[t].phase.Streaming? && !Muted(s, t)
    ensures CanOffer(s, t)
  {
    if s.tasks[t].taken < |s.tasks[t].arrived| {
      TakeThenOffer(s, t);
    } else {
      var e := ByTask(t, Arrive(Chunk(Null)));
      TakeThenOffer(Apply(s, e), t);
      OfferBack(s, e, t);
    }
  }

  lemma {:induction false} FreshToken(tasks: seq<SubTask>) returns (tok: nat)
    ensures forall u :: 0 <= u < |tasks| && tasks[u].token.Some? ==> tasks[u].token.value < tok
  {
    if tasks == [] {
      tok := 0;
    } else {
      tok := FreshToken(tasks[..|tasks| - 1]);
      var last := tasks[|tasks| - 1].token;
      if last.Some? && last.value >= tok {
        tok := last.value + 1;
      }
    }
  }

  lemma SetupThenOffer(s: State, t: nat)
    requires WriterOk(s) && t < |s.tasks| && TaskOk(s.tasks[t], t) && s.tasks[t].phase.Setup? && !Muted(s, t)
    ensures CanOffer(s, t)
  {
    var tok := FreshToken(s.tasks);
    var e := ByTask(t, SetupOk(tok));
    SignalsKept(s.tasks[t], t, SetupOk(tok));
    FlowKept(s.tasks[t], t, SetupOk(tok));
    assert s.tasks[t].arrived == [];
    StreamThenOffer(Apply(s, e), t);
    OfferBack(s, e, t);
  }

  lemma UnmutedOffers(s: State, t: nat)
    requires Inv(s) && t < |s.tasks| && !Muted(s, t)
    ensures CanOffer(s, t)
  {
    assert TaskOk(s.tasks[t], t);
    match s.tasks[t].phase
    case Setup => SetupThenOffer(s, t);
    case Streaming => StreamThenOffer(s, t);
    case Sending(_, _) => OfferAfterRoom(s, t);
  }

  ghost predicate CanForward(s: State, t: nat, n: nat) {
    exists es :: ValidRun(s, es) && t < |Exec(s, es).tasks| && |Exec(s, es).tasks[t].streamed| > n
  }

  lemma OfferForwards(s: State, t: nat)
    requires t < |s.tasks| && CanOffer(s, t)
    ensures CanForward(s, t, |s.tasks[t].streamed|)
  {
    var es :| ValidRun(s, es) && Level(s, Exec(s, es), t) && Offers(Exec(s, es), t);
    RunSnoc(s, es, ByTask(t, Send));
    assert |Exec(s, es + [ByTask(t, Send)]).tasks[t].streamed| > |s.tasks[t].streamed|;
  }

  /**
   * In every reachable state a task can still put a stream chunk into the
   * channel in some continuation if and only if it is not muted, signalled or not.
   */
  lemma CanForwardIffNotMuted(s: State, t: nat)
    requires Reachable(s) && t < |s.tasks|
    ensures CanForward(s, t, |s.tasks[t].streamed|) <==> !Muted(s, t)
  {
    if Muted(s, t) {
      var n := |s.tasks[t].streamed|;
      forall es | ValidRun(s, es) ensures t < |Exec(s, es).tasks| ==> |Exec(s, es).tasks[t].streamed| <= n {
        MutedForever(s, es, t);
      }
    } else {
      ReachableInv(s);
      UnmutedOffers(s, t);
      OfferForwards(s, t);
    }
  }

  // ---------- what the client can still receive ----------

  /** In some continuation the client has more than `n` stream chunks of task `t`. */
  ghost predicate CanReceive(s: State, t: nat, n: nat) {
    exists es :: ValidRun(s, es) && |Received(Exec(s, es), t)| > n
  }

  lemma ReceiveBack(s: State, es: seq<Event>, t: nat, n: nat)
    requires ValidRun(s, es) && CanReceive(Exec(s, es), t, n)
    ensures CanReceive(s, t, n)
  {
    var fs :| ValidRun(Exec(s, es), fs) && |Received(Exec(Exec(s, es), fs), t)| > n;
    RunsCompose(s, es, fs);
  }

  /** A running writer can hand over all that is in the channel. */
  lemma {:induction false} Drains(s: State, t: nat, n: nat)
    requires Running(s) && |Onward(s, t)| > n
    ensures CanReceive(s, t, n)
    decreases 2 * |s.queue| + if s.writer.Writing? then 1 else 0
  {
    if s.writer.Receiving? && s.queue == [] {
      assert ValidRun(s, []) && Exec(s, []) == s;
    } else {
      var a := if s.writer.Receiving? then Receive else SinkAccepts;
      MovesOn(s, a, t);
      Drains(Apply(s, ByWriter(a)), t, n);
      OneStep(s, ByWriter(a));
      ReceiveBack(s, [ByWriter(a)], t, n);
    }
  }

  lemma OfferReaches(s: State, t: nat)
    requires Inv(s) && Running(s) && Offers(s, t)
    ensures CanReceive(s, t, |Onward(s, t)|)
  {
    var e := ByTask(t, Send);
    var s' := Apply(s, e);
    assert TaskOk(s.tasks[t], t);
    var flight := if s.writer.Writing? then [s.writer.out] else [];
    ProjAppend(flight + s.queue, s.tasks[t].phase.out, StreamOf(t));
    assert flight + s'.queue == flight + s.queue + [s.tasks[t].phase.out];
    Drains(s', t, |Onward(s, t)|);
    OneStep(s, e);
    ReceiveBack(s, [e], t, |Onward(s, t)|);
  }

  lemma UnmutedReaches(s: State, t: nat)
    requires Inv(s) && t < |s.tasks| && Running(s) && !TaskMuted(s.tasks[t])
    ensures CanReceive(s, t, |Onward(s, t)|)
  {
    UnmutedOffers(s, t);
    var es :| ValidRun(s, es) && Level(s, Exec(s, es), t) && Offers(Exec(s, es), t);
    InvRun(s, es);
    OfferReaches(Exec(s, es), t);
    ReceiveBack(s, es, t, |Onward(s, t)|);
  }

  /** Nothing of task `t` can reach the client: the writer has stopped, or no chunk is on its way and none will be. */
  predicate Quiet(s: State, t: nat)
    requires t < |s.tasks|
  {
    !Running(s) || (TaskMuted(s.tasks[t]) && InChannel(s, t) == [])
  }

  lemma TaskMutedKept(s: State, e: Event, t: nat)
    requires TasksOk(s.tasks) && Enabled(s, e) && t < |s.tasks| && TaskMuted(s.tasks[t])
    ensures t < |Apply(s, e).tasks| && TaskMuted(Apply(s, e).tasks[t])
    ensures Added(s, e) != [] ==> Added(s, e)[0].from != StreamOf(t)
  {
    if e.ByTask? {
      assert TaskOk(s.tasks[e.t], e.t);
    }
    if e.ByTask? && e.t == t {
      TaskMutedStep(s.tasks[t], t, e.act);
    } else {
      OthersStep(s, e, t);
    }
  }

  lemma QuietWriter(s: State, a: WriterAct, t: nat)
    requires WriterReady(s, a) && t < |s.tasks| && Quiet(s, t)
    ensures Quiet(WriterNext(s, a), t) && Received(WriterNext(s, a), t) == Received(s, t)
  {
    if a.Receive? || a.SinkAccepts? {
      MovesOn(s, a, t);
      ProjConcat(s.delivered, WriterNext(s, a).delivered[|s.delivered|..], StreamOf(t));
      assert WriterNext(s, a).delivered == s.delivered + WriterNext(s, a).delivered[|s.delivered|..];
    }
  }

  lemma QuietStep(s: State, e: Event, t: nat)
    requires Inv(s) && Enabled(s, e) && t < |s.tasks| && Quiet(s, t)
    ensures var s' := Apply(s, e); t < |s'.tasks| && Quiet(s', t) && Received(s', t) == Received(s, t)
  {
    if e.ByWriter? {
      QuietWriter(s, e.write, t);
    } else {
      ProducersOnlyAppend(s, e);
      if Running(s) {
        TaskMutedKept(s, e, t);
        NoRoomNoFrame(s, e);
        QuietAppend(s, Apply(s, e), Added(s, e), t);
      } else if !(e.ByTask? && e.t == t) {
        OthersStep(s, e, t);
      }
    }
  }

  lemma QuietAppend(s: State, s': State, added: seq<Outbound>, t: nat)
    requires InChannel(s, t) == [] && s'.writer == s.writer && s'.queue == s.queue + added
    requires |added| <= 1 && (added != [] ==> added[0].from != StreamOf(t))
    ensures InChannel(s', t) == []
  {
    var flight := if s.writer.Writing? then [s.writer.out] else [];
    if added == [] {
      assert s'.queue == s.queue;
    } else {
      ProjAppend(flight + s.queue, added[0], StreamOf(t));
      assert flight + s'.queue == flight + s.queue + [added[0]];
    }
  }

  lemma {:induction false} QuietForever(s: State, es: seq<Event>, t: nat)
    requires Inv(s) && ValidRun(s, es) && t < |s.tasks| && Quiet(s, t)
    ensures var s' := Exec(s, es); t < |s'.tasks| && Quiet(s', t) && Received(s', t) == Received(s, t)
  {
    if es != [] {
      QuietForever(s, es[..|es| - 1], t);
      InvRun(s, es[..|es| - 1]);
      QuietStep(Exec(s, es[..|es| - 1]), es[|es| - 1], t);
    }
  }

  /**
   * In every reachable state the client can still receive a stream chunk of a
   * task if and only if the writer still runs and either a chunk of that task is
   * in the channel or the task is in its loop with no end of stream next.
   */
  lemma ClientReceivesIff(s: State, t: nat)
    requires Reachable(s) && t < |s.tasks|
    ensures CanReceive(s, t, |Received(s, t)|)
       <==> Running(s) && (InChannel(s, t) != [] || !TaskMuted(s.tasks[t]))
  {
    ReachableInv(s);
    var n := |Received(s, t)|;
    if Quiet(s, t) {
      forall es | ValidRun(s, es) ensures |Received(Exec(s, es), t)| <= n {
        QuietForever(s, es, t);
      }
    } else if InChannel(s, t) != [] {
      Drains(s, t, n);
    } else {
      UnmutedReaches(s, t);
    }
  }

  /** The client's message `[kind, sub]` reaches the reader. */
  function Read(kind: string, sub: string): Event { ByReader(Inbound(Text(Some([Str(kind), Str(sub)])))) }

  /**
   * The reader processes a CLOSE in any reachable state: the task is signalled
   * and leaves `subs`, and the client can receive a further chunk of it if and
   * only if it could have before, a condition on the state the CLOSE found.
   */
  lemma ClientAfterClose(s: State, sub: string)
    requires Reachable(s) && s.reader.Reading? && sub in s.subs
    ensures var t, e := s.subs[sub], Read("CLOSE", sub);
      && t < |s.tasks| && Enabled(s, e) && sub !in Apply(s, e).subs && Apply(s, e).tasks[t] == Signalled(s.tasks[t])
      && (CanReceive(Apply(s, e), t, |Received(s, t)|)
          <==> Running(s) && (InChannel(s, t) != [] || !TaskMuted(s.tasks[t])))
  {
    ReachableInv(s);
    assert ParseClientFrame(Some([Str("CLOSE"), Str(sub)])) == Some(Close(sub));
    var es :| ValidRun(INITIAL, es) && s == Exec(INITIAL, es);
    RunSnoc(INITIAL, es, Read("CLOSE", sub));
    ClientReceivesIff(Apply(s, Read("CLOSE", sub)), s.subs[sub]);
  }

  // ---------- a concrete run ----------

  /** REQ, the stream is established, a chunk arrives, CLOSE. */
  function UpToClose(sub: string, chunk: Json): seq<Event> {
    [Read("REQ", sub), ByTask(0, SetupOk(7)), ByTask(0, Arrive(Chunk(chunk))), Read("CLOSE", sub)]
  }

  function OneTask(task: SubTask, subs: map<string, nat>): State { INITIAL.(tasks := [task], subs := subs) }

  /** The only task of that run: signalled, with its chunk unread. */
  function Closed(sub: string, chunk: Json): SubTask {
    Signalled(NewTask(sub, []).(phase := Streaming, token := Some(7), arrived := [Chunk(chunk)]))
  }

  lemma ReqStep(sub: string)
    ensures Enabled(INITIAL, Read("REQ", sub))
    ensures Apply(INITIAL, Read("REQ", sub)) == OneTask(NewTask(sub, []), map[sub := 0])
  {
    assert [Str("REQ"), Str(sub)][2..] == [];
    assert ParseClientFrame(Some([Str("REQ"), Str(sub)])) == Some(Req(sub, []));
  }

  lemma CloseStep(task: SubTask)
    ensures var s := OneTask(task, map[task.sub := 0]);
      Enabled(s, Read("CLOSE", task.sub)) && Apply(s, Read("CLOSE", task.sub)) == OneTask(Signalled(task), map[])
  {
    assert ParseClientFrame(Some([Str("CLOSE"), Str(task.sub)])) == Some(Close(task.sub));
    assert map[task.sub := 0 as nat] - {task.sub} == map[];
  }

  lemma TaskStepOf(task: SubTask, subs: map<string, nat>, a: TaskAct)
    requires TaskReady(task, a) && (a.SetupOk? ==> task.token.None?) && !a.Send? && !a.SendRefused?
    ensures Enabled(OneTask(task, subs), ByTask(0, a))
    ensures Apply(OneTask(task, subs), ByTask(0, a)) == OneTask(TaskNext(task, 0, a), subs)
  {
  }

  lemma RunUpToClose(sub: string, chunk: Json)
    ensures ValidRun(INITIAL, UpToClose(sub, chunk))
    ensures Exec(INITIAL, UpToClose(sub, chunk)) == OneTask(Closed(sub, chunk), map[])
  {
    var es, t1 := UpToClose(sub, chunk), NewTask(sub, []);
    var t2 := TaskNext(t1, 0, SetupOk(7));
    var t3 := TaskNext(t2, 0, Arrive(Chunk(chunk)));
    assert Signalled(t3) == Closed(sub, chunk) by { assert [] + [Chunk(chunk)] == [Chunk(chunk)]; }
    ReqStep(sub);
    OneStep(INITIAL, es[0]);
    TaskStepOf(t1, map[sub := 0], SetupOk(7));
    RunSnoc(INITIAL, [es[0]], es[1]);
    assert [es[0]] + [es[1]] == es[..2];
    TaskStepOf(t2, map[sub := 0], Arrive(Chunk(chunk)));
    RunSnoc(INITIAL, es[..2], es[2]);
    assert es[..2] + [es[2]] == es[..3];
    CloseStep(t3);
    RunSnoc(INITIAL, es[..3], es[3]);
    assert es[..3] + [es[3]] == es;
  }

  /** The rest: the task reads its chunk and the writer hands it over. */
  function AfterClose(): seq<Event> {
    [ByTask(0, Take), ByTask(0, Send), ByWriter(Receive), ByWriter(SinkAccepts)]
  }

  /** After the CLOSE the task is signalled and the channel is empty, yet the client receives the chunk. */
  lemma ChunkFollowsClose(sub: string, chunk: Json)
    ensures ValidRun(INITIAL, UpToClose(sub, chunk))
    ensures var s := Exec(INITIAL, UpToClose(sub, chunk));
      && |s.tasks| == 1 && s.tasks[0].signals == 1 && s.queue == [] && s.delivered == []
      && ValidRun(s, AfterClose()) && Exec(s, AfterClose()).delivered == [Outbound(StreamOf(0), chunk)]
  {
    RunUpToClose(sub, chunk);
    var task, es := Closed(sub, chunk), AfterClose();
    var s := OneTask(task, map[]);
    TaskStepOf(task, map[], Take);
    OneStep(s, es[0]);
    RunSnoc(s, [es[0]], es[1]);
    assert [es[0]] + [es[1]] == es[..2];
    RunSnoc(s, es[..2], es[2]);
    assert es[..2] + [es[2]] == es[..3];
    RunSnoc(s, es[..3], es[3]);
    assert es[..3] + [es[3]] == es;
  }
}
