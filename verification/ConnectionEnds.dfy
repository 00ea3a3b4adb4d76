/** Why a subscribe task ended, and what it had forwarded by then. */
module ConnectionEnds {
  import opened Wire
  import opened Connection
  import opened ConnectionSafety

  /** The item the loop read last. */
  predicate LastRead(task: SubTask, item: StreamItem) {
    0 < task.taken <= |task.arrived| && task.arrived[task.taken - 1] == item
  }

  /**
   * `frame` is the CLOSED that says why: the reason the set-up failed for, or,
   * on an established stream, the one in the item read last.
   */
  predicate Reports(task: SubTask, frame: Json) {
    if task.token.None? then
      task.setupError.Some? && frame == Arr([Str("CLOSED"), Str(task.sub), Str(task.setupError.value)])
    else
      && 0 < task.taken <= |task.arrived| && task.arrived[task.taken - 1].Broken?
      && frame == Arr([Str("CLOSED"), Str(task.sub), Str(task.arrived[task.taken - 1].reason)])
  }

  /** How the task came to an end. */
  predicate EndReason(task: SubTask) {
    || SignalConsumed(task)
    || (task.token.Some? && LastRead(task, Ended))
    || (|task.synthesized| == 1 && Reports(task, task.synthesized[0]))
  }

  /** What is known of one task while the channel is open. */
  predicate EndOk(task: SubTask) {
    && task.taken <= |task.arrived|
    && (match task.phase
        case Setup => true
        case Streaming => true
        case Sending(out, last) => last ==> Reports(task, out.frame)
        case Cancelling => SignalConsumed(task) && task.streamed == Chunks(task.arrived[..task.taken])
        case Finished => task.streamed == Chunks(task.arrived[..task.taken]) && EndReason(task))
  }

  ghost predicate EndsOk(s: State) {
    !s.writer.Done? ==> forall t :: 0 <= t < |s.tasks| ==> EndOk(s.tasks[t])
  }

  lemma EndByTake(task: SubTask, t: nat)
    requires TaskReady(task, Take) && TaskOk(task, t) && EndOk(task)
    ensures EndOk(TaskNext(task, t, Take))
  {
    NextChunk(task);
  }

  lemma EndByArrive(task: SubTask, t: nat, item: StreamItem)
    requires EndOk(task) && task.token.Some?
    ensures EndOk(TaskNext(task, t, Arrive(item)))
  {
    var next := TaskNext(task, t, Arrive(item));
    assert next.arrived[..task.taken] == task.arrived[..task.taken];
  }

  lemma EndBySend(task: SubTask, t: nat)
    requires TaskReady(task, Send) && TaskOk(task, t) && EndOk(task)
    ensures EndOk(TaskNext(task, t, Send))
  {
  }

  lemma EndByTask(task: SubTask, t: nat, a: TaskAct)
    requires TaskReady(task, a) && TaskOk(task, t) && EndOk(task) && !a.SendRefused?
    ensures EndOk(TaskNext(task, t, a))
  {
    match a
    case Take => EndByTake(task, t);
    case Arrive(item) => EndByArrive(task, t, item);
    case Send => EndBySend(task, t);
    case SetupCancelled => assert task.arrived[..task.taken] == [];
    case _ =>
  }

  /** A signal reaches only a task that has not consumed one, and hides nothing. */
  lemma EndBySignal(task: SubTask)
    requires EndOk(task) && task.signals == 0
    ensures EndOk(Signalled(task))
  {
  }

  lemma EndsBySignal(tasks: seq<SubTask>, t: nat)
    requires t < |tasks| && tasks[t].signals == 0 && forall u :: 0 <= u < |tasks| ==> EndOk(tasks[u])
    ensures forall u :: 0 <= u < |tasks| ==> EndOk(SignalAt(tasks, t)[u])
  {
    EndBySignal(tasks[t]);
  }

  lemma EndsByReader(s: State, a: ReaderAct)
    requires SubsOk(s) && EndsOk(s) && ReaderReady(s, a)
    ensures EndsOk(ReaderNext(s, a))
  {
    if !s.writer.Done? {
      match a
      case CleanupSignal(sub) =>
        assert Held(s, s.subs[sub]);
        EndsBySignal(s.tasks, s.subs[sub]);
      case Inbound(Text(parsed)) =>
        var m := ParseClientFrame(parsed);
        if m.Some? && !m.value.Publish? && m.value.sub in s.subs {
          assert Held(s, s.subs[m.value.sub]);
          EndsBySignal(s.tasks, s.subs[m.value.sub]);
        }
      case _ =>
    }
  }

  lemma EndsStep(s: State, e: Event)
    requires Inv(s) && EndsOk(s) && Enabled(s, e)
    ensures EndsOk(Apply(s, e))
  {
    match e
    case ByReader(a) => EndsByReader(s, a);
    case ByTask(t, a) =>
      if !s.writer.Done? {
        assert TaskOk(s.tasks[t], t);
        EndByTask(s.tasks[t], t, a);
      }
    case _ =>
  }

  lemma {:induction false} EndsRun(es: seq<Event>)
    requires ValidRun(INITIAL, es)
    ensures EndsOk(Exec(INITIAL, es))
  {
    if es != [] {
      EndsRun(es[..|es| - 1]);
      InitialInv();
      InvRun(INITIAL, es[..|es| - 1]);
      EndsStep(Exec(INITIAL, es[..|es| - 1]), es[|es| - 1]);
    }
  }

  /**
   * While the channel is open a finished task has forwarded every chunk it read,
   * and it finished for one of these reasons only: it consumed its signal; its
   * stream ended; its stream broke, or its set-up failed, and the client was
   * told CLOSED with that very reason, once.
   */
  lemma WhyFinished(s: State, t: nat)
    requires Reachable(s) && t < |s.tasks| && s.tasks[t].phase.Finished? && !s.writer.Done?
    ensures var task := s.tasks[t];
      && task.taken <= |task.arrived|
      && task.streamed == Chunks(task.arrived[..task.taken])
      && EndReason(task)
  {
    var es :| ValidRun(INITIAL, es) && s == Exec(INITIAL, es);
    EndsRun(es);
    assert EndOk(s.tasks[t]);
  }

  // ---------- the end of a stream is final ----------

  /** The task is done, or awaits `tx.send` of the CLOSED frame with this reason, its last act. */
  predicate ClosesWith(task: SubTask, t: nat, why: string) {
    || task.phase.Finished?
    || task.phase == Sending(Outbound(ShimFor(t), Arr([Str("CLOSED"), Str(task.sub), Str(why)])), true)
  }

  predicate FinalOk(task: SubTask, t: nat) {
    && task.taken <= |task.arrived|
    && (forall i :: 0 <= i < task.taken - 1 ==> task.arrived[i].Chunk?)
    && (task.taken > 0 ==>
          match task.arrived[task.taken - 1]
          case Chunk(_) => true
          case Ended => task.phase.Finished?
          case Broken(why) => ClosesWith(task, t, why))
    && (task.setupError.Some? ==> task.token.None? && ClosesWith(task, t, task.setupError.value))
    && (task.phase.Setup? ==> task.token.None? && task.taken == 0)
  }

  lemma FinalByTask(task: SubTask, t: nat, a: TaskAct)
    requires TaskReady(task, a) && FinalOk(task, t)
    ensures FinalOk(TaskNext(task, t, a), t)
  {
  }

  ghost predicate FinalsOk(s: State) { forall t :: 0 <= t < |s.tasks| ==> FinalOk(s.tasks[t], t) }

  lemma FinalStep(s: State, e: Event)
    requires FinalsOk(s) && Enabled(s, e)
    ensures FinalsOk(Apply(s, e))
  {
    var s' := Apply(s, e);
    forall t | 0 <= t < |s'.tasks| ensures FinalOk(s'.tasks[t], t) {
      if t >= |s.tasks| {
        FreshTask(s, e, t);
      } else if e.ByTask? && e.t == t {
        FinalByTask(s.tasks[t], t, e.act);
      } else {
        OthersStep(s, e, t);
      }
    }
  }

  /** A task is added only by a REQ, and is then as it was made. */
  lemma FreshTask(s: State, e: Event, t: nat)
    requires Enabled(s, e) && |s.tasks| <= t < |Apply(s, e).tasks|
    ensures e.ByReader? && Apply(s, e).tasks[t] == NewTask(Apply(s, e).tasks[t].sub, Apply(s, e).tasks[t].filters)
  {
    match e
    case ByReader(a) => assert Apply(s, e) == ReaderNext(s, a);
    case _ =>
  }

  lemma {:induction false} FinalRun(es: seq<Event>)
    requires ValidRun(INITIAL, es)
    ensures FinalsOk(Exec(INITIAL, es))
  {
    if es != [] {
      FinalRun(es[..|es| - 1]);
      FinalStep(Exec(INITIAL, es[..|es| - 1]), es[|es| - 1]);
    }
  }

  /**
   * Nothing is read past the end: of the items a task has read only the last can
   * be anything but a chunk; having read the end of its stream it is finished,
   * and having read a broken stream, or failed to set up, it has only its CLOSED
   * frame with that reason left to send.
   */
  lemma EndIsFinal(s: State, t: nat)
    requires Reachable(s) && t < |s.tasks|
    ensures var task := s.tasks[t];
      && task.taken <= |task.arrived|
      && (forall i :: 0 <= i < task.taken - 1 ==> task.arrived[i].Chunk?)
      && (task.taken > 0 && task.arrived[task.taken - 1].Ended? ==> task.phase.Finished?)
      && (task.taken > 0 && task.arrived[task.taken - 1].Broken? ==>
            ClosesWith(task, t, task.arrived[task.taken - 1].reason))
      && (task.setupError.Some? ==> ClosesWith(task, t, task.setupError.value))
  {
    var es :| ValidRun(INITIAL, es) && s == Exec(INITIAL, es);
    FinalRun(es);
    assert FinalOk(s.tasks[t], t);
  }
}
