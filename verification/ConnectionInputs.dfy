/** What tasks and publishes know is what the run gave them: each input is an event of the run, and no other is. */
module ConnectionInputs {
  import opened Wire
  import opened Connection
  import opened ConnectionSafety
  import opened ConnectionEnds

  /** The items the stream of task `t` received in this run, in order. */
  function ItemsOf(es: seq<Event>, t: nat): seq<StreamItem> {
    if es == [] then [] else ItemsOf(es[..|es| - 1], t) + ItemIn(es[|es| - 1], t)
  }

  function ItemIn(e: Event, t: nat): seq<StreamItem> {
    match e case ByTask(u, Arrive(item)) => if u == t then [item] else [] case _ => []
  }

  lemma ItemsSnoc(es: seq<Event>, e: Event, t: nat)
    ensures ItemsOf(es + [e], t)
         == ItemsOf(es, t) + (if e.ByTask? && e.t == t && e.act.Arrive? then [e.act.item] else [])
  {
    assert (es + [e])[..|es|] == es;
  }

  /**
   * Task `t` got its stream items, its token and its set-up error from these
   * events, and awaits `handle.cancel` from its teardown on until that returns.
   */
  ghost predicate TaskGiven(task: SubTask, es: seq<Event>, t: nat) {
    && task.arrived == ItemsOf(es, t)
    && (forall k: nat :: task.token == Some(k) <==> ByTask(t, SetupOk(k)) in es)
    && (forall why :: task.setupError == Some(why) <==> ByTask(t, SetupErr(why)) in es)
    && CancelGiven(task, es, t)
  }

  predicate CancelGiven(task: SubTask, es: seq<Event>, t: nat) {
    && (task.phase.Cancelling? <==> ByTask(t, Teardown) in es && ByTask(t, TeardownDone) !in es)
    && (ByTask(t, Teardown) in es ==> task.phase.Cancelling? || task.phase.Finished?)
    && (ByTask(t, TeardownDone) in es ==> task.phase.Finished?)
  }

  ghost predicate PubGiven(pub: PubTask, es: seq<Event>, p: nat) {
    forall reply :: pub.reply == Some(reply) <==> ByPub(p, Reply(reply)) in es
  }

  /** No task or publish of these numbers or above has had a turn. */
  predicate NotYet(es: seq<Event>, tasks: nat, pubs: nat) {
    && (forall i :: 0 <= i < |es| && es[i].ByTask? ==> es[i].t < tasks)
    && (forall i :: 0 <= i < |es| && es[i].ByPub? ==> es[i].p < pubs)
  }

  lemma {:induction false} NoItemsYet(es: seq<Event>, tasks: nat, pubs: nat, t: nat)
    requires NotYet(es, tasks, pubs) && t >= tasks
    ensures ItemsOf(es, t) == []
  {
    if es != [] {
      assert es[|es| - 1].ByTask? ==> es[|es| - 1].t != t;
      NoItemsYet(es[..|es| - 1], tasks, pubs, t);
    }
  }

  lemma OwnCancel(task: SubTask, es: seq<Event>, t: nat, a: TaskAct)
    requires CancelGiven(task, es, t) && TaskReady(task, a)
    ensures CancelGiven(TaskNext(task, t, a), es + [ByTask(t, a)], t)
  {
    assert forall b :: ByTask(t, b) in es + [ByTask(t, a)] <==> ByTask(t, b) in es || a == b;
  }

  lemma OwnActsGrow(es: seq<Event>, t: nat, a: TaskAct)
    ensures forall b :: ByTask(t, b) in es + [ByTask(t, a)] <==> ByTask(t, b) in es || a == b
  {
  }

  /** The three steps that bring a task something, and all others, which bring it nothing. */
  lemma OwnSetupOk(task: SubTask, es: seq<Event>, t: nat, k: nat)
    requires TaskGiven(task, es, t) && TaskReady(task, SetupOk(k)) && FinalOk(task, t)
    ensures TaskGiven(TaskNext(task, t, SetupOk(k)), es + [ByTask(t, SetupOk(k))], t)
  {
    ItemsSnoc(es, ByTask(t, SetupOk(k)), t);
    OwnActsGrow(es, t, SetupOk(k));
  }

  lemma OwnSetupErr(task: SubTask, es: seq<Event>, t: nat, why: string)
    requires TaskGiven(task, es, t) && TaskReady(task, SetupErr(why)) && FinalOk(task, t)
    ensures TaskGiven(TaskNext(task, t, SetupErr(why)), es + [ByTask(t, SetupErr(why))], t)
  {
    ItemsSnoc(es, ByTask(t, SetupErr(why)), t);
    OwnActsGrow(es, t, SetupErr(why));
  }

  lemma SameInputs(task: SubTask, t: nat, a: TaskAct)
    requires TaskReady(task, a) && !a.SetupOk? && !a.SetupErr?
    ensures var next := TaskNext(task, t, a);
      && next.token == task.token && next.setupError == task.setupError
      && next.arrived == task.arrived + (if a.Arrive? then [a.item] else [])
  {
  }

  lemma OwnOther(task: SubTask, next: SubTask, es: seq<Event>, t: nat, a: TaskAct)
    requires TaskGiven(task, es, t) && !a.SetupOk? && !a.SetupErr?
    requires next.token == task.token && next.setupError == task.setupError
    requires next.arrived == task.arrived + (if a.Arrive? then [a.item] else [])
    requires CancelGiven(next, es + [ByTask(t, a)], t)
    ensures TaskGiven(next, es + [ByTask(t, a)], t)
  {
    ItemsSnoc(es, ByTask(t, a), t);
    OwnActsGrow(es, t, a);
  }

  lemma OwnAct(task: SubTask, es: seq<Event>, t: nat, a: TaskAct)
    requires TaskGiven(task, es, t) && TaskReady(task, a) && FinalOk(task, t)
    ensures TaskGiven(TaskNext(task, t, a), es + [ByTask(t, a)], t)
  {
    match a
    case SetupOk(k) => OwnSetupOk(task, es, t, k);
    case SetupErr(why) => OwnSetupErr(task, es, t, why);
    case _ =>
      OwnCancel(task, es, t, a);
      SameInputs(task, t, a);
      OwnOther(task, TaskNext(task, t, a), es, t, a);
  }

  lemma OtherAct(task: SubTask, now: SubTask, es: seq<Event>, t: nat, e: Event)
    requires TaskGiven(task, es, t) && !(e.ByTask? && e.t == t)
    requires now == task.(permit := now.permit, signals := now.signals)
    ensures TaskGiven(now, es + [e], t)
  {
    ItemsSnoc(es, e, t);
  }

  lemma FreshGiven(es: seq<Event>, e: Event, t: nat, tasks: nat, pubs: nat, sub: string, filters: seq<Json>)
    requires NotYet(es, tasks, pubs) && t >= tasks && !e.ByTask?
    ensures TaskGiven(NewTask(sub, filters), es + [e], t)
  {
    NoItemsYet(es, tasks, pubs, t);
    ItemsSnoc(es, e, t);
  }

  ghost predicate Given(s: State, es: seq<Event>) {
    && NotYet(es, |s.tasks|, |s.pubs|)
    && (forall t :: 0 <= t < |s.tasks| ==> TaskGiven(s.tasks[t], es, t))
    && (forall p :: 0 <= p < |s.pubs| ==> PubGiven(s.pubs[p], es, p))
  }

  lemma TasksGiven(s: State, es: seq<Event>, e: Event)
    requires Given(s, es) && FinalsOk(s) && Enabled(s, e)
    ensures forall t :: 0 <= t < |Apply(s, e).tasks| ==> TaskGiven(Apply(s, e).tasks[t], es + [e], t)
  {
    var s' := Apply(s, e);
    forall t | 0 <= t < |s'.tasks| ensures TaskGiven(s'.tasks[t], es + [e], t) {
      if t >= |s.tasks| {
        FreshTask(s, e, t);
        FreshGiven(es, e, t, |s.tasks|, |s.pubs|, s'.tasks[t].sub, s'.tasks[t].filters);
      } else if e.ByTask? && e.t == t {
        OwnAct(s.tasks[t], es, t, e.act);
      } else {
        OthersStep(s, e, t);
        OtherAct(s.tasks[t], s'.tasks[t], es, t, e);
      }
    }
  }

  lemma PubKept(s: State, e: Event, p: nat)
    requires Enabled(s, e) && p < |Apply(s, e).pubs| && !(e.ByPub? && e.p == p)
    ensures if p < |s.pubs| then Apply(s, e).pubs[p] == s.pubs[p] else Apply(s, e).pubs[p].reply.None? && !e.ByPub?
  {
    match e
    case ByReader(a) => assert Apply(s, e) == ReaderNext(s, a);
    case _ =>
  }

  lemma PubsGiven(s: State, es: seq<Event>, e: Event)
    requires Given(s, es) && Inv(s) && Enabled(s, e)
    ensures forall p :: 0 <= p < |Apply(s, e).pubs| ==> PubGiven(Apply(s, e).pubs[p], es + [e], p)
  {
    var s' := Apply(s, e);
    forall p | 0 <= p < |s'.pubs| ensures PubGiven(s'.pubs[p], es + [e], p) {
      if e.ByPub? && e.p == p {
        assert PubOk(s, s.pubs[p]) && s'.pubs[p] == PubNext(s.pubs[p], e.pub);
      } else {
        PubKept(s, e, p);
      }
    }
  }

  lemma CountsGrow(s: State, e: Event)
    requires Enabled(s, e)
    ensures |s.tasks| <= |Apply(s, e).tasks| && |s.pubs| <= |Apply(s, e).pubs|
  {
    match e
    case ByReader(a) => assert Apply(s, e) == ReaderNext(s, a);
    case _ =>
  }

  /**
   * Over every run: what a task's stream received, the token it holds, the error
   * of its set-up and the reply of a publish are those its own events of the run
   * brought, all of them and in order, and no others.
   */
  lemma {:induction false} InputsAreEvents(es: seq<Event>)
    requires ValidRun(INITIAL, es)
    ensures Given(Exec(INITIAL, es), es)
  {
    if es != [] {
      var init, e := es[..|es| - 1], es[|es| - 1];
      var s := Exec(INITIAL, init);
      InputsAreEvents(init);
      FinalRun(init);
      InitialInv();
      InvRun(INITIAL, init);
      assert es == init + [e];
      TasksGiven(s, init, e);
      PubsGiven(s, init, e);
      CountsGrow(s, e);
    }
  }

  ghost predicate WriterGiven(writer: WriterPhase, es: seq<Event>) {
    && (writer.Closing? || writer.Done? <==> ByWriter(SinkFails) in es || ByWriter(ChannelEnded) in es)
    && (writer.Closing? || writer.Done? ==> (writer.failed <==> ByWriter(SinkFails) in es))
    && (writer.Done? <==> ByWriter(SinkClosed) in es)
  }

  lemma WriterGivenStep(s: State, es: seq<Event>, e: Event)
    requires WriterGiven(s.writer, es) && Enabled(s, e)
    ensures WriterGiven(Apply(s, e).writer, es + [e])
  {
    WriterMoves(s, e);
    assert forall a :: ByWriter(a) in es + [e] <==> ByWriter(a) in es || e == ByWriter(a);
  }

  /**
   * Over every run: the writer left its loop if and only if a send failed or the
   * channel ended, the first of which is remembered as the failure; it is done,
   * its receiver dropped, if and only if it then closed the socket.
   */
  lemma {:induction false} WriterFollowsRun(es: seq<Event>)
    requires ValidRun(INITIAL, es)
    ensures var writer := Exec(INITIAL, es).writer;
      && (writer.Closing? || writer.Done? <==> ByWriter(SinkFails) in es || ByWriter(ChannelEnded) in es)
      && (writer.Closing? || writer.Done? ==> (writer.failed <==> ByWriter(SinkFails) in es))
      && (writer.Done? <==> ByWriter(SinkClosed) in es)
  {
    if es != [] {
      var init, e := es[..|es| - 1], es[|es| - 1];
      WriterFollowsRun(init);
      assert es == init + [e];
      WriterGivenStep(Exec(INITIAL, init), init, e);
    }
  }

  lemma WriterMoves(s: State, e: Event)
    requires Enabled(s, e)
    ensures var now := Apply(s, e).writer;
      match e
      case ByWriter(SinkFails) => now == Closing(true) && s.writer.Writing?
      case ByWriter(ChannelEnded) => now == Closing(false) && s.writer.Receiving?
      case ByWriter(SinkClosed) => s.writer.Closing? && now == Done(s.writer.failed)
      case ByWriter(_) => !s.writer.Closing? && !s.writer.Done? && !now.Closing? && !now.Done?
      case _ => now == s.writer
  {
    if !e.ByWriter? {
      ProducersOnlyAppend(s, e);
    }
  }
}
