/** Invariants of the connection machine, over every run. */
module ConnectionSafety {
  import opened Wire
  import opened Connection

  // ---------- one step ----------

  lemma SignalsKept(task: SubTask, t: nat, a: TaskAct)
    requires TaskReady(task, a) && SignalsOk(task)
    ensures var next := TaskNext(task, t, a);
      SignalsOk(next) && next.sub == task.sub && next.signals == task.signals
  {
  }

  lemma NextChunk(task: SubTask)
    requires task.taken < |task.arrived|
    ensures Chunks(task.arrived[..task.taken + 1]) == Chunks(task.arrived[..task.taken])
         + (if task.arrived[task.taken].Chunk? then [task.arrived[task.taken].frame] else [])
  {
    ChunksAppend(task.arrived[..task.taken], task.arrived[task.taken]);
    assert task.arrived[..task.taken + 1] == task.arrived[..task.taken] + [task.arrived[task.taken]];
  }

  lemma TakeFlowKept(task: SubTask, t: nat)
    requires task.phase.Streaming? && task.taken < |task.arrived| && task.token.Some? && FlowOk(task, t)
    ensures FlowOk(TakeItem(task, t, task.arrived[task.taken]), t)
  {
    NextChunk(task);
  }

  lemma FlowKept(task: SubTask, t: nat, a: TaskAct)
    requires TaskReady(task, a) && TaskOk(task, t)
    ensures FlowOk(TaskNext(task, t, a), t)
  {
    match a
    case Take => TakeFlowKept(task, t);
    case Arrive(item) =>
      assert (task.arrived + [item])[..task.taken] == task.arrived[..task.taken];
    case _ =>
  }

  lemma SetOneTask(tasks: seq<SubTask>, t: nat, next: SubTask)
    requires TasksOk(tasks) && t < |tasks| && TaskOk(next, t)
    ensures TasksOk(tasks[t := next])
  {
  }

  /** Replacing a task by one with the same id and signal count keeps the link to `subs`. */
  lemma SubsAfterSwap(s: State, t: nat, next: SubTask, queue: seq<Outbound>)
    requires SubsOk(s) && t < |s.tasks| && next.sub == s.tasks[t].sub && next.signals == s.tasks[t].signals
    ensures SubsOk(s.(tasks := s.tasks[t := next], queue := queue))
  {
    var s' := s.(tasks := s.tasks[t := next], queue := queue);
    assert forall u :: 0 <= u < |s.tasks| ==> Held(s', u) == Held(s, u);
  }

  lemma SignalTaskOk(task: SubTask, t: nat)
    requires TaskOk(task, t) && task.signals == 0
    ensures TaskOk(Signalled(task), t)
  {
  }

  lemma SignalKeeps(s: State, sub: string)
    requires SubsOk(s) && s.reader.Reading? && TasksOk(s.tasks)
    ensures SubsOk(Signal(s, sub)) && TasksOk(Signal(s, sub).tasks) && sub !in Signal(s, sub).subs
  {
    if sub in s.subs {
      var t := s.subs[sub];
      assert Held(s, t);
      SignalTaskOk(s.tasks[t], t);
      SetOneTask(s.tasks, t, Signalled(s.tasks[t]));
    }
  }

  lemma SpawnKeeps(s: State, sub: string, filters: seq<Json>)
    requires SubsOk(s) && s.reader.Reading? && TasksOk(s.tasks) && sub !in s.subs
    ensures var s' := s.(subs := s.subs[sub := |s.tasks|], tasks := s.tasks + [NewTask(sub, filters)]);
      SubsOk(s') && TasksOk(s'.tasks)
  {
    assert TaskOk(NewTask(sub, filters), |s.tasks|);
  }

  lemma CleanupKeeps(s: State, sub: string)
    requires SubsOk(s) && TasksOk(s.tasks) && ReaderReady(s, CleanupSignal(sub))
    ensures SubsOk(ReaderNext(s, CleanupSignal(sub))) && TasksOk(ReaderNext(s, CleanupSignal(sub)).tasks)
  {
    var t, s' := s.subs[sub], ReaderNext(s, CleanupSignal(sub));
    assert Held(s, t);
    assert TasksOk(s'.tasks) by {
      SignalTaskOk(s.tasks[t], t);
      SetOneTask(s.tasks, t, Signalled(s.tasks[t]));
    }
    forall u | 0 <= u < |s'.tasks| ensures s'.tasks[u].signals == 0 <==> Held(s', u) {
      assert s'.tasks[u].sub == s.tasks[u].sub;
      assert u != t ==> s'.tasks[u] == s.tasks[u] && Held(s', u) == Held(s, u);
    }
  }

  lemma ReaderKeeps(s: State, a: ReaderAct)
    requires SubsOk(s) && TasksOk(s.tasks) && ReaderReady(s, a)
    ensures SubsOk(ReaderNext(s, a)) && TasksOk(ReaderNext(s, a).tasks)
  {
    match a
    case Inbound(Text(parsed)) =>
      match ParseClientFrame(parsed) {
        case Some(Req(sub, filters)) =>
          SignalKeeps(s, sub);
          SpawnKeeps(Signal(s, sub), sub, filters);
        case Some(Close(sub)) => SignalKeeps(s, sub);
        case _ =>
      }
    case CleanupSignal(sub) => CleanupKeeps(s, sub);
    case _ =>
  }

  lemma TaskKeeps(s: State, t: nat, a: TaskAct)
    requires SubsOk(s) && TasksOk(s.tasks) && Enabled(s, ByTask(t, a))
    ensures SubsOk(Apply(s, ByTask(t, a))) && TasksOk(Apply(s, ByTask(t, a)).tasks)
  {
    var next := TaskNext(s.tasks[t], t, a);
    assert TaskOk(s.tasks[t], t);
    assert TaskOk(next, t) && next.sub == s.tasks[t].sub && next.signals == s.tasks[t].signals by {
      SignalsKept(s.tasks[t], t, a);
      FlowKept(s.tasks[t], t, a);
    }
    assert TasksOk(s.tasks[t := next]) by { SetOneTask(s.tasks, t, next); }
    SubsAfterSwap(s, t, next, Apply(s, ByTask(t, a)).queue);
  }

  /** A publish or the writer touches neither tasks nor `subs`. */
  lemma OthersKeep(s: State, e: Event)
    requires SubsOk(s) && Enabled(s, e) && (e.ByPub? || e.ByWriter?)
    ensures SubsOk(Apply(s, e)) && Apply(s, e).tasks == s.tasks
  {
    var s' := Apply(s, e);
    assert s'.subs == s.subs && s'.tasks == s.tasks && s'.reader == s.reader;
    assert forall t :: 0 <= t < |s.tasks| ==> Held(s', t) == Held(s, t);
  }

  lemma TasksStep(s: State, e: Event)
    requires SubsOk(s) && TasksOk(s.tasks) && Enabled(s, e)
    ensures SubsOk(Apply(s, e)) && TasksOk(Apply(s, e).tasks)
  {
    match e
    case ByTask(t, a) => TaskKeeps(s, t, a);
    case ByReader(a) => ReaderKeeps(s, a);
    case _ => OthersKeep(s, e);
  }

  lemma TokensStep(s: State, e: Event)
    requires TokensOk(s.tasks) && Enabled(s, e)
    ensures TokensOk(Apply(s, e).tasks)
  {
    match e
    case ByTask(t, a) => TaskTokens(s, t, a);
    case ByReader(a) => ReaderTokens(s, a);
    case _ =>
  }

  lemma TaskTokens(s: State, t: nat, a: TaskAct)
    requires TokensOk(s.tasks) && Enabled(s, ByTask(t, a))
    ensures TokensOk(s.tasks[t := TaskNext(s.tasks[t], t, a)])
  {
    var next := TaskNext(s.tasks[t], t, a);
    assert a.SetupOk? || next.token == s.tasks[t].token;
  }

  lemma ReaderTokens(s: State, a: ReaderAct)
    requires TokensOk(s.tasks) && ReaderReady(s, a)
    ensures TokensOk(ReaderNext(s, a).tasks)
  {
    var tasks := ReaderNext(s, a).tasks;
    assert |tasks| >= |s.tasks|;
    assert forall u :: 0 <= u < |s.tasks| ==> tasks[u].token == s.tasks[u].token;
    assert forall u :: |s.tasks| <= u < |tasks| ==> tasks[u].token.None?;
  }

  lemma PubsStep(s: State, e: Event)
    requires SubsOk(s) && Enabled(s, e)
    requires forall p :: 0 <= p < |s.pubs| ==> PubOk(s, s.pubs[p])
    ensures var s' := Apply(s, e); forall p :: 0 <= p < |s'.pubs| ==> PubOk(s', s'.pubs[p])
  {
  }

  lemma WriterKept(s: State, a: WriterAct)
    requires WriterOk(s) && WriterReady(s, a)
    ensures WriterOk(WriterNext(s, a))
  {
  }

  /** Once all senders are gone no task, publish or reader step can add a frame or bring one back. */
  lemma SendersStayDropped(s: State, e: Event)
    requires SendersDropped(s) && Enabled(s, e) && !e.ByWriter?
    ensures SendersDropped(Apply(s, e)) && Apply(s, e).queue == s.queue
  {
  }

  lemma WriterStep(s: State, e: Event)
    requires WriterOk(s) && Enabled(s, e)
    ensures WriterOk(Apply(s, e))
  {
    match e
    case ByWriter(a) => WriterKept(s, a);
    case _ =>
      ProducersOnlyAppend(s, e);
      if SendersDropped(s) {
        SendersStayDropped(s, e);
      }
      NoRoomNoFrame(s, e);
  }

  lemma NoRoomNoFrame(s: State, e: Event)
    requires Enabled(s, e)
    ensures |Added(s, e)| <= 1 && (Added(s, e) != [] ==> HasRoom(s))
  {
  }

  lemma ProjAppend(os: seq<Outbound>, o: Outbound, p: Producer)
    ensures Proj(os + [o], p) == Proj(os, p) + (if o.from == p then [o.frame] else [])
  {
    assert (os + [o])[..|os|] == os;
  }

  lemma {:induction false} ProjConcat(a: seq<Outbound>, b: seq<Outbound>, p: Producer)
    ensures Proj(a + b, p) == Proj(a, p) + Proj(b, p)
    decreases |b|
  {
    if b == [] {
      assert a + b == a;
    } else {
      var b' := b[..|b| - 1];
      ProjConcat(a, b', p);
      ProjAppend(a + b', b[|b| - 1], p);
      assert a + b == a + b' + [b[|b| - 1]];
    }
  }

  /** The frame a step puts into the channel, if any. */
  function Added(s: State, e: Event): seq<Outbound>
    requires Enabled(s, e)
  {
    match e
    case ByTask(t, Send) => [s.tasks[t].phase.out]
    case ByPub(p, PubSend) => [Outbound(Publisher(p), s.pubs[p].phase.frame)]
    case ByReader(NoticeSent) => [Outbound(Reader, NoticeFrame("unrecognized frame"))]
    case _ => []
  }

  /** Only the writer takes from the channel. */
  lemma ProducersOnlyAppend(s: State, e: Event)
    requires Enabled(s, e) && !e.ByWriter?
    ensures var s' := Apply(s, e);
      && s'.queue == s.queue + Added(s, e)
      && s'.writer == s.writer && s'.delivered == s.delivered && s'.lost == s.lost
  {
  }

  /** The writer invents and reorders nothing: what it takes is delivered, in flight or recorded as lost. */
  lemma WriterMovesAlong(s: State, a: WriterAct)
    requires WriterOk(s) && WriterReady(s, a)
    ensures Conduit(WriterNext(s, a)) == Conduit(s)
  {
    match a
    case Receive => assert s.queue == [s.queue[0]] + s.queue[1..];
    case _ =>
  }

  /** A step appends to the conduit what it adds to the channel, and nothing else. */
  lemma ConduitStep(s: State, e: Event)
    requires SubsOk(s) && WriterOk(s) && Enabled(s, e)
    ensures Conduit(Apply(s, e)) == Conduit(s) + Added(s, e)
  {
    match e
    case ByWriter(a) => WriterMovesAlong(s, a);
    case _ => ProducersOnlyAppend(s, e);
  }

  predicate OwnGrows(s: State, s': State, added: seq<Outbound>, p: Producer) {
    Own(s', p) == Own(s, p) + (if |added| == 1 && added[0].from == p then [added[0].frame] else [])
  }

  lemma TaskOwn(task: SubTask, t: nat, a: TaskAct)
    requires TaskReady(task, a) && FlowOk(task, t)
    ensures var next, sent := TaskNext(task, t, a), if a.Send? then [task.phase.out.frame] else [];
      && next.streamed == task.streamed + (if a.Send? && task.phase.out.from == StreamOf(t) then sent else [])
      && next.synthesized == task.synthesized + (if a.Send? && task.phase.out.from == ShimFor(t) then sent else [])
      && (a.Send? ==> task.phase.out.from == StreamOf(t) || task.phase.out.from == ShimFor(t))
  {
  }

  lemma OwnByTask(s: State, t: nat, a: TaskAct, p: Producer)
    requires Enabled(s, ByTask(t, a)) && FlowOk(s.tasks[t], t)
    ensures OwnGrows(s, Apply(s, ByTask(t, a)), Added(s, ByTask(t, a)), p)
  {
    TaskOwn(s.tasks[t], t, a);
  }

  /** The reader changes nothing tasks and publishes have enqueued, and new ones have enqueued nothing. */
  lemma ReaderLeavesOwn(s: State, a: ReaderAct)
    requires ReaderReady(s, a)
    ensures var s' := ReaderNext(s, a);
      && |s.tasks| <= |s'.tasks| && |s.pubs| <= |s'.pubs|
      && (forall t :: 0 <= t < |s.tasks| ==>
            s'.tasks[t].streamed == s.tasks[t].streamed && s'.tasks[t].synthesized == s.tasks[t].synthesized)
      && (forall t :: |s.tasks| <= t < |s'.tasks| ==> s'.tasks[t].streamed == [] == s'.tasks[t].synthesized)
      && (forall p :: 0 <= p < |s.pubs| ==> s'.pubs[p] == s.pubs[p])
      && (forall p :: |s.pubs| <= p < |s'.pubs| ==> s'.pubs[p].enqueued == [])
  {
  }

  lemma OwnByReader(s: State, a: ReaderAct, p: Producer)
    requires Enabled(s, ByReader(a))
    ensures OwnGrows(s, Apply(s, ByReader(a)), Added(s, ByReader(a)), p)
  {
    ReaderLeavesOwn(s, a);
    assert Apply(s, ByReader(a)) == ReaderNext(s, a);
  }

  lemma OwnStep(s: State, e: Event, p: Producer)
    requires SubsOk(s) && TasksOk(s.tasks) && Enabled(s, e)
    ensures OwnGrows(s, Apply(s, e), Added(s, e), p)
  {
    match e
    case ByTask(t, a) =>
      assert TaskOk(s.tasks[t], t);
      OwnByTask(s, t, a, p);
    case ByReader(a) => OwnByReader(s, a, p);
    case _ =>
  }

  lemma MergeStep(s: State, e: Event)
    requires Inv(s) && Enabled(s, e)
    ensures MergeOk(Apply(s, e))
  {
    ConduitStep(s, e);
    forall p ensures Proj(Conduit(Apply(s, e)), p) == Own(Apply(s, e), p) {
      var added := Added(s, e);
      OwnStep(s, e, p);
      if added == [] {
        assert Conduit(s) + added == Conduit(s);
      } else {
        ProjAppend(Conduit(s), added[0], p);
        assert added == [added[0]];
      }
    }
  }

  /** Every step of every kind keeps the invariant. */
  lemma InvStep(s: State, e: Event)
    requires Inv(s) && Enabled(s, e)
    ensures Inv(Apply(s, e))
  {
    TasksStep(s, e);
    TokensStep(s, e);
    PubsStep(s, e);
    MergeStep(s, e);
    WriterStep(s, e);
  }

  // ---------- one task among the others ----------

  /** Steps of others leave a task's loop where it is. */
  lemma OthersStep(s: State, e: Event, t: nat)
    requires Enabled(s, e) && t < |s.tasks| && !(e.ByTask? && e.t == t)
    ensures t < |Apply(s, e).tasks|
    ensures var was, now := s.tasks[t], Apply(s, e).tasks[t]; now == was.(permit := now.permit, signals := now.signals)
  {
    match e
    case ByReader(a) => ReaderSignals(s, a, t);
    case _ => assert Apply(s, e).tasks[t] == s.tasks[t];
  }

  lemma ReaderSignals(s: State, a: ReaderAct, t: nat)
    requires ReaderReady(s, a) && t < |s.tasks|
    ensures t < |ReaderNext(s, a).tasks|
    ensures ReaderNext(s, a).tasks[t] == s.tasks[t] || ReaderNext(s, a).tasks[t] == Signalled(s.tasks[t])
  {
  }

  // ---------- whole runs ----------

  lemma {:induction false} InvRun(s: State, es: seq<Event>)
    requires Inv(s) && ValidRun(s, es)
    ensures Inv(Exec(s, es))
  {
    if es != [] {
      InvRun(s, es[..|es| - 1]);
      InvStep(Exec(s, es[..|es| - 1]), es[|es| - 1]);
    }
  }

  lemma RunSnoc(s: State, es: seq<Event>, e: Event)
    requires ValidRun(s, es) && Enabled(Exec(s, es), e)
    ensures ValidRun(s, es + [e]) && Exec(s, es + [e]) == Apply(Exec(s, es), e)
  {
    assert (es + [e])[..|es|] == es;
  }

  lemma {:induction false} RunsCompose(s: State, es: seq<Event>, fs: seq<Event>)
    requires ValidRun(s, es) && ValidRun(Exec(s, es), fs)
    ensures ValidRun(s, es + fs) && Exec(s, es + fs) == Exec(Exec(s, es), fs)
    decreases |fs|
  {
    if fs == [] {
      assert es + fs == es;
    } else {
      RunsCompose(s, es, fs[..|fs| - 1]);
      assert (es + fs)[..|es + fs| - 1] == es + fs[..|fs| - 1];
    }
  }

  lemma InitialInv()
    ensures Inv(INITIAL)
  {
    forall p ensures Proj(Conduit(INITIAL), p) == Own(INITIAL, p) { }
  }

  ghost predicate Reachable(s: State) {
    exists es :: ValidRun(INITIAL, es) && s == Exec(INITIAL, es)
  }

  lemma ReachableInv(s: State)
    requires Reachable(s)
    ensures Inv(s)
  {
    var es :| ValidRun(INITIAL, es) && s == Exec(INITIAL, es);
    InitialInv();
    InvRun(INITIAL, es);
  }

  /**
   * Before cleanup the unsignalled tasks are exactly the entries of `subs`, so a
   * subscription id has at most one; after cleanup every task was signalled,
   * and at no time is one signalled twice.
   */
  lemma SignalledExactlyOnce(s: State)
    requires Reachable(s)
    ensures s.reader.Reading? || s.reader.Noticing? ==>
      forall t :: 0 <= t < |s.tasks| ==>
        (s.tasks[t].signals == 0 <==> s.tasks[t].sub in s.subs && s.subs[s.tasks[t].sub] == t)
    ensures forall t, u | 0 <= t < |s.tasks| && 0 <= u < |s.tasks| && s.tasks[t].sub == s.tasks[u].sub ::
              s.tasks[t].signals == 0 && s.tasks[u].signals == 0 ==> t == u
    ensures s.reader.Dropped? ==> forall t :: 0 <= t < |s.tasks| ==> s.tasks[t].signals == 1
    ensures forall t :: 0 <= t < |s.tasks| ==> s.tasks[t].signals <= 1
  {
    ReachableInv(s);
    forall t | 0 <= t < |s.tasks| ensures s.tasks[t].signals <= 1 && (s.tasks[t].signals == 0 <==> Held(s, t)) {
      assert TaskOk(s.tasks[t], t);
    }
  }

  /**
   * A signal is never lost: a signalled task that still runs has the permit
   * waiting or is already tearing down. `handle.cancel` is called exactly when
   * the signal was consumed on an established stream, once, with the task's
   * own token, which no other task holds.
   */
  lemma CancelNeverLost(s: State, t: nat)
    requires Reachable(s) && t < |s.tasks|
    ensures var task := s.tasks[t];
      && (task.signals > 0 && !task.phase.Finished? ==> task.permit || task.phase.Cancelling?)
      && task.cancels == (if task.token.Some? && task.signals > 0 && !task.permit then [task.token.value] else [])
      && (forall u :: 0 <= u < |s.tasks| && u != t && task.cancels != [] ==> s.tasks[u].token != Some(task.cancels[0]))
  {
    ReachableInv(s);
    assert TaskOk(s.tasks[t], t);
  }

  lemma DeliveredPrefix(s: State, p: Producer)
    requires MergeOk(s)
    ensures Proj(s.delivered, p) <= Own(s, p)
  {
    var rest := s.lost + (if s.writer.Writing? then [s.writer.out] else []) + s.queue;
    assert Conduit(s) == s.delivered + rest;
    assert Proj(Conduit(s), p) == Own(s, p);
    ProjConcat(s.delivered, rest, p);
  }

  /**
   * Single-writer merge. For every producer, delivered, in-flight and queued
   * frames together are what it enqueued, in order, while the sink works; after
   * a sink failure the delivered ones are still a prefix; and when the writer
   * ends without failure everything was delivered.
   */
  lemma SingleWriterMerge(s: State, p: Producer)
    requires Reachable(s)
    ensures |s.queue| <= 256
    ensures s.writer.Receiving? ==> Proj(s.delivered + s.queue, p) == Own(s, p)
    ensures s.writer.Writing? ==> Proj(s.delivered + [s.writer.out] + s.queue, p) == Own(s, p)
    ensures Proj(s.delivered, p) <= Own(s, p)
    ensures s.writer == Done(false) ==> Proj(s.delivered, p) == Own(s, p)
  {
    ReachableInv(s);
    assert Proj(Conduit(s), p) == Own(s, p);
    if s.writer.Receiving? {
      assert Conduit(s) == s.delivered + s.queue;
    }
    if s.writer.Writing? {
      assert Conduit(s) == s.delivered + [s.writer.out] + s.queue;
    }
    if s.writer == Done(false) {
      assert Conduit(s) == s.delivered;
    }
    DeliveredPrefix(s, p);
  }

  /** What a task forwarded is a prefix of the chunks its stream received, in order. */
  lemma ForwardedPrefix(s: State, t: nat)
    requires Inv(s) && t < |s.tasks|
    ensures Proj(s.delivered, StreamOf(t)) <= Chunks(s.tasks[t].arrived)
  {
    DeliveredPrefix(s, StreamOf(t));
    assert TaskOk(s.tasks[t], t);
    ChunksPrefix(s.tasks[t].arrived, s.tasks[t].taken);
  }

  /** With all chunks read and nothing in the channel, the client has every chunk received. */
  lemma ForwardedAll(s: State, t: nat)
    requires Inv(s) && t < |s.tasks| && s.writer.Receiving? && s.queue == []
    requires s.tasks[t].phase.Streaming? && s.tasks[t].taken == |s.tasks[t].arrived|
    ensures Proj(s.delivered, StreamOf(t)) == Chunks(s.tasks[t].arrived)
  {
    assert TaskOk(s.tasks[t], t);
    assert s.tasks[t].arrived[..s.tasks[t].taken] == s.tasks[t].arrived;
    assert Conduit(s) == s.delivered;
    assert Proj(Conduit(s), StreamOf(t)) == Own(s, StreamOf(t));
  }
}
