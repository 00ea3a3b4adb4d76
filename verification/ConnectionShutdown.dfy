/** Shutdown of a connection: it cannot deadlock and, fed finitely many chunks, it ends. */
module ConnectionShutdown {
  import opened Connection
  import opened ConnectionSafety
  import opened ConnectionHistory

  predicate ShuttingDown(s: State) { s.reader.Cleaning? || s.reader.Dropped? }

  /** Internal steps that do not wait for the remote side either: no set-up answer, no reply of a publish. */
  predicate Local(e: Event) {
    Internal(e) && !(e.ByTask? && (e.act.SetupOk? || e.act.SetupErr?)) && !(e.ByPub? && e.pub.Reply?)
  }

  // ---------- no deadlock ----------

  /** Unless it waits for frames, or is over, the writer can move. */
  lemma WriterCanMove(s: State) returns (e: Event)
    requires WriterOk(s) && !s.writer.Done? && (|s.queue| > 0 || !s.writer.Receiving?)
    ensures e.ByWriter? && Enabled(s, e)
  {
    e := ByWriter(match s.writer
                  case Receiving => Receive
                  case Writing(_) => SinkAccepts
                  case Closing(_) => SinkClosed);
  }

  /** A signalled task that has not finished can step, or the writer can. */
  lemma TaskCanMove(s: State, t: nat) returns (e: Event)
    requires Inv(s) && t < |s.tasks|
    requires s.tasks[t].signals == 1 && !s.tasks[t].phase.Finished?
    ensures OwnOrWriter(e, t)
    ensures Enabled(s, e)
  {
    assert TaskOk(s.tasks[t], t);
    match s.tasks[t].phase
    case Setup => e := ByTask(t, SetupCancelled);
    case Streaming => e := ByTask(t, Teardown);
    case Cancelling => e := ByTask(t, TeardownDone);
    case Sending(_, _) =>
      if s.writer.Done? {
        e := ByTask(t, SendRefused);
      } else if |s.queue| < OUTBOUND_BUF {
        e := ByTask(t, Send);
      } else {
        e := WriterCanMove(s);
      }
  }

  lemma PubCanMove(s: State, p: nat) returns (e: Event)
    requires Inv(s) && p < |s.pubs| && s.pubs[p].phase.Replying?
    ensures Local(e) && Enabled(s, e)
  {
    if s.writer.Done? {
      e := ByPub(p, PubRefused);
    } else if |s.queue| < OUTBOUND_BUF {
      e := ByPub(p, PubSend);
    } else {
      e := WriterCanMove(s);
    }
  }

  /** The reader, unless it waits for the client, can step, or the writer can. */
  lemma ReaderCanMove(s: State) returns (e: Event)
    requires Inv(s) && (s.reader.Noticing? || s.reader.Cleaning?)
    ensures Local(e) && Enabled(s, e)
  {
    if s.reader.Noticing? {
      if s.writer.Done? {
        e := ByReader(NoticeRefused);
      } else if |s.queue| < OUTBOUND_BUF {
        e := ByReader(NoticeSent);
      } else {
        e := WriterCanMove(s);
      }
    } else if s.reader.pending == {} {
      e := ByReader(CleanupDone);
    } else {
      var sub :| sub in s.reader.pending;
      e := ByReader(CleanupSignal(sub));
    }
  }

  /**
   * In every reachable state in which the reader no longer waits for the client,
   * some step that needs neither the client nor the remote side is enabled,
   * unless the reader and every subscribe task are done and the writer either is
   * too or waits, with nothing queued, for publishes whose reply is outstanding.
   */
  lemma NoDeadlock(s: State)
    requires Reachable(s) && !s.reader.Reading?
    ensures (exists e :: Local(e) && Enabled(s, e)) ||
      (&& s.reader.Dropped?
       && (forall t :: 0 <= t < |s.tasks| ==> s.tasks[t].phase.Finished?)
       && (forall p :: 0 <= p < |s.pubs| ==> s.pubs[p].phase.Answered? || s.pubs[p].phase.Calling?)
       && (s.writer.Done?
           || (s.writer.Receiving? && s.queue == [] && exists p :: 0 <= p < |s.pubs| && s.pubs[p].phase.Calling?)))
  {
    ReachableInv(s);
    var e: Event;
    if !s.reader.Dropped? {
      e := ReaderCanMove(s);
    } else if t :| 0 <= t < |s.tasks| && !s.tasks[t].phase.Finished? {
      SignalledExactlyOnce(s);
      e := TaskCanMove(s, t);
    } else if p :| 0 <= p < |s.pubs| && s.pubs[p].phase.Replying? {
      e := PubCanMove(s, p);
    } else if !s.writer.Done? && (|s.queue| > 0 || !s.writer.Receiving?) {
      e := WriterCanMove(s);
    } else if s.writer.Receiving? && forall p :: 0 <= p < |s.pubs| ==> s.pubs[p].phase.Answered? {
      e := ByWriter(ChannelEnded);
      assert Enabled(s, e);
    }
  }

  // ---------- the measure ----------

  function TaskWeight(task: SubTask): nat {
    match task.phase
    case Finished => 0
    case Cancelling => 1
    case Sending(_, true) => 3
    case Setup => 4 + 4 * Unread(task)
    case Streaming => 2 + 4 * Unread(task)
    case Sending(_, false) => 5 + 4 * Unread(task)
  }

  function Unread(task: SubTask): nat {
    if task.taken <= |task.arrived| then |task.arrived| - task.taken else 0
  }

  function PubWeight(pub: PubTask): nat {
    match pub.phase case Calling => 4 case Replying(_) => 3 case Answered => 0
  }

  function WriterWeight(w: WriterPhase): nat {
    match w case Writing(_) => 3 case Receiving => 2 case Closing(_) => 1 case Done(_) => 0
  }

  function ReaderWeight(r: ReaderPhase): nat {
    match r case Cleaning(pending) => |pending| + 1 case _ => 0
  }

  function TasksWeight(tasks: seq<SubTask>): nat {
    if tasks == [] then 0 else TasksWeight(tasks[..|tasks| - 1]) + TaskWeight(tasks[|tasks| - 1])
  }

  function PubsWeight(pubs: seq<PubTask>): nat {
    if pubs == [] then 0 else PubsWeight(pubs[..|pubs| - 1]) + PubWeight(pubs[|pubs| - 1])
  }

  /** Chunks left, unfinished tasks and queue length, weighted. */
  function Measure(s: State): nat {
    ReaderWeight(s.reader) + TasksWeight(s.tasks) + PubsWeight(s.pubs) + 2 * |s.queue| + WriterWeight(s.writer)
  }

  lemma {:induction false} TasksWeightSet(tasks: seq<SubTask>, t: nat, task: SubTask)
    requires t < |tasks|
    ensures TasksWeight(tasks[t := task]) + TaskWeight(tasks[t]) == TasksWeight(tasks) + TaskWeight(task)
  {
    var n := |tasks| - 1;
    if t == n {
      assert tasks[t := task][..n] == tasks[..n];
    } else {
      TasksWeightSet(tasks[..n], t, task);
      assert tasks[t := task][..n] == tasks[..n][t := task];
    }
  }

  lemma {:induction false} PubsWeightSet(pubs: seq<PubTask>, p: nat, pub: PubTask)
    requires p < |pubs|
    ensures PubsWeight(pubs[p := pub]) + PubWeight(pubs[p]) == PubsWeight(pubs) + PubWeight(pub)
  {
    var n := |pubs| - 1;
    if p == n {
      assert pubs[p := pub][..n] == pubs[..n];
    } else {
      PubsWeightSet(pubs[..n], p, pub);
      assert pubs[p := pub][..n] == pubs[..n][p := pub];
    }
  }

  /** What a step may cost: an arriving chunk adds at most 4, all else takes at least 1 away. */
  lemma TaskStepWeight(task: SubTask, t: nat, a: TaskAct)
    requires TaskReady(task, a) && FlowOk(task, t)
    ensures var w, w' := TaskWeight(task), TaskWeight(TaskNext(task, t, a));
      if a.Arrive? then w' <= w + 4 else if a.Send? then w' + 2 < w else w' < w
  {
  }

  lemma MeasureByTask(s: State, t: nat, a: TaskAct)
    requires Enabled(s, ByTask(t, a)) && FlowOk(s.tasks[t], t)
    ensures Measure(Apply(s, ByTask(t, a))) + 1 <= Measure(s) + (if a.Arrive? then 5 else 0)
  {
    TaskStepWeight(s.tasks[t], t, a);
    TasksWeightSet(s.tasks, t, TaskNext(s.tasks[t], t, a));
  }

  lemma MeasureByReader(s: State, a: ReaderAct)
    requires SubsOk(s) && ShuttingDown(s) && ReaderReady(s, a)
    ensures ShuttingDown(ReaderNext(s, a)) && Measure(ReaderNext(s, a)) < Measure(s)
  {
    if a.CleanupSignal? {
      var t := s.subs[a.sub];
      TasksWeightSet(s.tasks, t, Signalled(s.tasks[t]));
    }
  }

  lemma MeasureByPub(s: State, p: nat, a: PubAct)
    requires Enabled(s, ByPub(p, a))
    ensures Measure(Apply(s, ByPub(p, a))) < Measure(s)
  {
    PubsWeightSet(s.pubs, p, PubNext(s.pubs[p], a));
  }

  lemma MeasureByWriter(s: State, a: WriterAct)
    requires WriterReady(s, a)
    ensures Measure(WriterNext(s, a)) < Measure(s)
  {
  }

  lemma MeasureStep(s: State, e: Event)
    requires Inv(s) && ShuttingDown(s) && Enabled(s, e)
    ensures ShuttingDown(Apply(s, e))
    ensures Measure(Apply(s, e)) + 1 <= Measure(s) + (if Internal(e) then 0 else 5)
  {
    match e
    case ByTask(t, a) =>
      assert TaskOk(s.tasks[t], t);
      MeasureByTask(s, t, a);
    case ByPub(p, a) => MeasureByPub(s, p, a);
    case ByReader(a) => MeasureByReader(s, a);
    case ByWriter(a) => MeasureByWriter(s, a);
  }

  function Arrivals(es: seq<Event>): nat {
    if es == [] then 0 else Arrivals(es[..|es| - 1]) + (if Internal(es[|es| - 1]) then 0 else 1)
  }

  /**
   * Once the client is gone, a run has at most `Measure(s)` steps plus five for
   * each item its streams still receive.
   */
  lemma {:induction false} ShutdownBounded(s: State, es: seq<Event>)
    requires Inv(s) && ShuttingDown(s) && ValidRun(s, es)
    ensures ShuttingDown(Exec(s, es))
    ensures |es| + Measure(Exec(s, es)) <= Measure(s) + 5 * Arrivals(es)
  {
    if es != [] {
      var init := es[..|es| - 1];
      ShutdownBounded(s, init);
      InvRun(s, init);
      MeasureStep(Exec(s, init), es[|es| - 1]);
    }
  }

  lemma RunOfGone(es: seq<Event>)
    requires ValidRun(INITIAL, es) && ByReader(Inbound(Gone)) in es
    ensures Inv(Exec(INITIAL, es)) && ShuttingDown(Exec(INITIAL, es))
  {
    InitialInv();
    InvRun(INITIAL, es);
    ReadsUntilGone(es);
    var i :| 0 <= i < |es| && es[i] == ByReader(Inbound(Gone));
  }

  /**
   * Once the client has gone the connection comes to its end. Every run from
   * there is bounded, and one that no step from inside can continue has signalled
   * and finished every subscribe task, answered or dropped every publish, closed
   * the socket and ended the writer: `handle_ws` returns. With a remote side
   * that stays silent it gets as far, but for publishes that await their reply.
   */
  lemma ShutdownCompletes(es: seq<Event>, fs: seq<Event>)
    requires ValidRun(INITIAL, es) && ByReader(Inbound(Gone)) in es
    requires ValidRun(Exec(INITIAL, es), fs)
    ensures |fs| <= Measure(Exec(INITIAL, es)) + 5 * Arrivals(fs)
    ensures var s := Exec(Exec(INITIAL, es), fs);
      (forall e :: Internal(e) ==> !Enabled(s, e)) ==>
        && s.reader.Dropped? && s.writer.Done?
        && (forall t :: 0 <= t < |s.tasks| ==> s.tasks[t].phase.Finished? && s.tasks[t].signals == 1)
        && (forall p :: 0 <= p < |s.pubs| ==> s.pubs[p].phase.Answered?)
    ensures var s := Exec(Exec(INITIAL, es), fs);
      (forall e :: Local(e) ==> !Enabled(s, e)) ==>
        && s.reader.Dropped?
        && (forall t :: 0 <= t < |s.tasks| ==> s.tasks[t].phase.Finished? && s.tasks[t].signals == 1)
        && (s.writer.Done? || exists p :: 0 <= p < |s.pubs| && s.pubs[p].phase.Calling?)
  {
    var s := Exec(INITIAL, es);
    RunOfGone(es);
    ShutdownBounded(s, fs);
    RunsCompose(INITIAL, es, fs);
    var s' := Exec(s, fs);
    NoDeadlock(s');
    SignalledExactlyOnce(s');
    if p :| 0 <= p < |s'.pubs| && s'.pubs[p].phase.Calling? {
      assert Enabled(s', ByPub(p, Reply(CallError("")))) && Internal(ByPub(p, Reply(CallError(""))));
    }
  }

  // ---------- a signalled task ends on its own ----------

  /** A step of task `t` that reads nothing and waits for nothing of the remote side, or one of the writer. */
  predicate OwnOrWriter(e: Event, t: nat) {
    e.ByWriter? || (e.ByTask? && e.t == t && e.act in {SetupCancelled, Teardown, TeardownDone, Send, SendRefused})
  }

  ghost predicate GetsTo(s: State, end: State, t: nat) {
    exists es :: ValidRun(s, es) && Exec(s, es) == end && forall i :: 0 <= i < |es| ==> OwnOrWriter(es[i], t)
  }

  lemma GetsBack(s: State, e: Event, end: State, t: nat)
    requires Enabled(s, e) && OwnOrWriter(e, t) && GetsTo(Apply(s, e), end, t)
    ensures GetsTo(s, end, t)
  {
    var s1 := Apply(s, e);
    var es :| ValidRun(s1, es) && Exec(s1, es) == end && forall i :: 0 <= i < |es| ==> OwnOrWriter(es[i], t);
    assert ValidRun(s, [e]) && Exec(s, [e]) == s1 by {
      RunSnoc(s, [], e);
      assert [] + [e] == [e];
    }
    var all := [e] + es;
    assert ValidRun(s, all) && Exec(s, all) == end by { RunsCompose(s, [e], es); }
    assert forall i :: 0 <= i < |all| ==> OwnOrWriter(all[i], t);
  }

  function StepsLeft(task: SubTask): nat {
    match task.phase
    case Finished => 0
    case Cancelling => 1
    case Setup => 1
    case Streaming => 2
    case Sending(_, _) => 3
  }

  lemma StepsShrink(task: SubTask, t: nat, a: TaskAct)
    requires TaskReady(task, a) && a in {SetupCancelled, Teardown, TeardownDone, Send, SendRefused}
    ensures StepsLeft(TaskNext(task, t, a)) < StepsLeft(task)
  {
  }

  /**
   * From every reachable state a signalled task comes to its end by its own and
   * the writer's steps alone: it waits for no answer to its set-up, for no item
   * of its stream and for no one else.
   */
  lemma {:induction false} SignalledFinishes(s: State, t: nat) returns (end: State)
    requires Inv(s) && t < |s.tasks| && s.tasks[t].signals > 0
    ensures GetsTo(s, end, t) && t < |end.tasks| && end.tasks[t].phase.Finished?
    decreases StepsLeft(s.tasks[t]), 2 * |s.queue| + WriterWeight(s.writer)
  {
    assert TaskOk(s.tasks[t], t);
    if s.tasks[t].phase.Finished? {
      end := s;
      assert ValidRun(s, []) && Exec(s, []) == s;
    } else {
      var e := TaskCanMove(s, t);
      InvStep(s, e);
      if e.ByWriter? {
        WriterWeighs(s, e.write);
      } else {
        StepsShrink(s.tasks[t], t, e.act);
      }
      end := SignalledFinishes(Apply(s, e), t);
      GetsBack(s, e, end, t);
    }
  }

  lemma WriterWeighs(s: State, a: WriterAct)
    requires WriterReady(s, a)
    ensures var s' := WriterNext(s, a);
      && s'.tasks == s.tasks
      && 2 * |s'.queue| + WriterWeight(s'.writer) < 2 * |s.queue| + WriterWeight(s.writer)
  {
  }

  /** In particular one still in set-up can return at once, and one in its loop can tear its stream down. */
  lemma SignalledAlone(s: State, t: nat)
    requires Reachable(s) && t < |s.tasks| && s.tasks[t].signals > 0
    ensures exists es: seq<Event> ::
      && ValidRun(s, es)
      && (forall i :: 0 <= i < |es| ==>
            es[i].ByWriter? || (es[i].ByTask? && es[i].t == t
                                && es[i].act in {SetupCancelled, Teardown, TeardownDone, Send, SendRefused}))
      && t < |Exec(s, es).tasks| && Exec(s, es).tasks[t].phase.Finished?
    ensures s.tasks[t].phase.Setup? ==> Enabled(s, ByTask(t, SetupCancelled))
    ensures s.tasks[t].phase.Streaming? ==> Enabled(s, ByTask(t, Teardown))
  {
    ReachableInv(s);
    var end := SignalledFinishes(s, t);
    assert TaskOk(s.tasks[t], t);
  }
}
