/**
 * The loops of crates/outlay-shim/src/conn.rs in the form they have there:
 * fields updated in place. A turn of the reader loop is proved to be one step of
 * the connection machine, the cleanup and the writer task to be runs of it.
 */
module ConnectionLoops {
  import opened Wire
  import opened Connection
  import opened ConnectionSafety
  import opened ConnectionHistory

  class Bridge {
    var reader: ReaderPhase
    var subs: map<string, nat>
    var tasks: seq<SubTask>
    var pubs: seq<PubTask>
    var queue: seq<Outbound>
    var writer: WriterPhase
    var delivered: seq<Outbound>
    var lost: seq<Outbound>
    var notices: seq<Json>

    ghost function Abs(): State
      reads this
    {
      State(reader, subs, tasks, pubs, queue, writer, delivered, lost, notices)
    }

    constructor ()
      ensures Abs() == INITIAL
    {
      reader, subs, tasks, pubs, queue := Reading, map[], [], [], [];
      writer, delivered, lost, notices := Receiving, [], [], [];
    }

    /** `subs.remove(&sub_id)` and, when there was an entry, `cancel.notify_one()`. */
    method CancelEntry(sub: string)
      requires SubsOk(Abs())
      modifies this`subs, this`tasks
      ensures Abs() == Signal(old(Abs()), sub)
    {
      if sub in subs {
        var t := subs[sub];
        tasks := tasks[t := Signalled(tasks[t])];
        subs := subs - {sub};
      }
    }

    /** One turn of the reader loop: exactly the machine's `Inbound` step, invariant kept. */
    method OnInbound(frame: WsFrame)
      requires Inv(Abs()) && reader.Reading?
      modifies this
      ensures Abs() == Apply(old(Abs()), ByReader(Inbound(frame)))
      ensures Inv(Abs())
      ensures frame.Control? ==> Abs() == old(Abs())
      ensures frame.Gone? ==> Abs() == old(Abs()).(reader := Cleaning(set sub | sub in old(subs)))
    {
      InvStep(Abs(), ByReader(Inbound(frame)));
      match frame
      case Control =>
      case Gone =>
        SocketFrames(Abs(), frame);
        reader := Cleaning(subs.Keys);
      case Text(parsed) =>
        match ParseClientFrame(parsed) {
          case Some(Req(sub, filters)) =>
            CancelEntry(sub);
            subs := subs[sub := |tasks|];
            tasks := tasks + [NewTask(sub, filters)];
          case Some(Close(sub)) =>
            CancelEntry(sub);
          case Some(Publish(event)) =>
            pubs := pubs + [PubTask(event, Calling, None, [])];
          case None =>
            reader := Noticing;
        }
    }

    /** One turn of the cleanup loop: `cancel.notify_one()` on one entry of `subs`. */
    method SignalOne(sub: string)
      requires Inv(Abs()) && reader.Cleaning? && sub in reader.pending
      modifies this`reader, this`tasks
      ensures Enabled(old(Abs()), ByReader(CleanupSignal(sub)))
      ensures Abs() == Apply(old(Abs()), ByReader(CleanupSignal(sub)))
      ensures Inv(Abs()) && reader == Cleaning(old(reader).pending - {sub})
    {
      InvStep(Abs(), ByReader(CleanupSignal(sub)));
      var t := subs[sub];
      tasks := tasks[t := Signalled(tasks[t])];
      reader := Cleaning(reader.pending - {sub});
    }

    /** `drop(subs); drop(tx)` */
    method DropSender()
      requires Inv(Abs()) && reader == Cleaning({})
      modifies this`reader, this`subs
      ensures Abs() == Apply(old(Abs()), ByReader(CleanupDone))
      ensures reader.Dropped? && subs == map[] && forall t :: 0 <= t < |tasks| ==> tasks[t].signals == 1
    {
      forall t | 0 <= t < |tasks| ensures tasks[t].signals == 1 {
        assert !Held(Abs(), t) && TaskOk(tasks[t], t);
      }
      reader, subs := Dropped, map[];
    }

    /**
     * The whole cleanup, in whatever order the map yields its entries: a run of
     * the machine that leaves every task signalled exactly once and drops the
     * reader's sender.
     */
    method Cleanup() returns (ghost run: seq<Event>)
      requires Inv(Abs()) && reader.Cleaning?
      modifies this`reader, this`subs, this`tasks
      ensures ValidRun(old(Abs()), run) && Abs() == Exec(old(Abs()), run)
      ensures reader.Dropped? && subs == map[]
      ensures forall t :: 0 <= t < |tasks| ==> tasks[t].signals == 1
    {
      run := [];
      while reader.pending != {}
        invariant reader.Cleaning? && Inv(Abs())
        invariant ValidRun(old(Abs()), run) && Abs() == Exec(old(Abs()), run)
        decreases reader.pending
      {
        var sub :| sub in reader.pending;
        SignalOne(sub);
        RunSnoc(old(Abs()), run, ByReader(CleanupSignal(sub)));
        run := run + [ByReader(CleanupSignal(sub))];
      }
      DropSender();
      RunSnoc(old(Abs()), run, ByReader(CleanupDone));
      run := run + [ByReader(CleanupDone)];
    }

    /**
     * The writer loop on what is queued, `answers[i]` being whether the sink
     * takes the i-th frame: a run of the machine that delivers the frames before
     * the first refusal, in order, loses the refused one and leaves the rest.
     */
    method DrainQueue(answers: seq<bool>) returns (n: nat, ghost run: seq<Event>)
      requires writer.Receiving? && |answers| >= |queue|
      modifies this`queue, this`writer, this`delivered, this`lost
      ensures ValidRun(old(Abs()), run) && Abs() == Exec(old(Abs()), run)
      ensures n <= |old(queue)| && delivered == old(delivered) + old(queue)[..n]
      ensures forall i :: 0 <= i < n ==> answers[i]
      ensures n == |old(queue)| ==> writer.Receiving? && queue == [] && lost == old(lost)
      ensures n < |old(queue)| ==> !answers[n] && writer == Closing(true) && queue == old(queue)[n + 1..]
      ensures n < |old(queue)| ==> lost == old(lost) + [old(queue)[n]]
    {
      n := 0;
      while writer.Receiving? && |queue| > 0
        invariant n <= |old(queue)| && delivered == old(delivered) + old(queue)[..n]
        invariant forall i :: 0 <= i < n ==> answers[i]
        invariant writer.Receiving? ==> queue == old(queue)[n..] && lost == old(lost)
        invariant !writer.Receiving? ==> writer == Closing(true) && n < |old(queue)| && !answers[n]
        invariant !writer.Receiving? ==> lost == old(lost) + [old(queue)[n]] && queue == old(queue)[n + 1..]
        decreases |queue|
      {
        var out := queue[0];
        queue := queue[1..];
        if answers[n] {
          delivered := delivered + [out];
          n := n + 1;
        } else {
          lost := lost + [out];
          writer := Closing(true);
        }
      }
      run := WriterRun(old(Abs()), n);
    }

    /**
     * The whole writer task once every sender is gone: the loop, its end on the
     * closed channel or on a refusal, `sink.close()` and the drop of the receiver.
     */
    method FinishWriter(answers: seq<bool>) returns (n: nat, ghost run: seq<Event>)
      requires writer.Receiving? && |answers| >= |queue| && SendersDropped(Abs())
      modifies this`queue, this`writer, this`delivered, this`lost
      ensures ValidRun(old(Abs()), run) && Abs() == Exec(old(Abs()), run)
      ensures n <= |old(queue)| && delivered == old(delivered) + old(queue)[..n] && queue == []
      ensures writer == Done(n < |old(queue)|)
      ensures lost == old(lost) + old(queue)[n..]
      ensures forall i :: 0 <= i < n ==> answers[i]
      ensures n < |old(queue)| ==> !answers[n]
    {
      n, run := DrainQueue(answers);
      ghost var last := EndWriter();
      assert ValidRun(old(Abs()), run + last) && Abs() == Exec(old(Abs()), run + last) by {
        RunsCompose(old(Abs()), run, last);
      }
      run := run + last;
      assert lost == old(lost) + old(queue)[n..] by { LostFrom(old(lost), old(queue), n); }
    }

    /** Behind the loop: `sink.close()`, then the receiver goes with what is left in it. */
    method EndWriter() returns (ghost run: seq<Event>)
      requires writer == Closing(true) || (writer.Receiving? && queue == [] && SendersDropped(Abs()))
      modifies this`queue, this`writer, this`lost
      ensures ValidRun(old(Abs()), run) && Abs() == Exec(old(Abs()), run)
      ensures queue == [] && lost == old(lost) + old(queue) && writer == Done(old(writer).Closing?)
    {
      run := [];
      if writer.Receiving? {
        RunSnoc(old(Abs()), [], ByWriter(ChannelEnded));
        run := run + [ByWriter(ChannelEnded)];
        writer := Closing(false);
      }
      RunSnoc(old(Abs()), run, ByWriter(SinkClosed));
      run := run + [ByWriter(SinkClosed)];
      lost := lost + queue;
      queue := [];
      writer := Done(writer.failed);
    }
  }

  lemma LostFrom(lost: seq<Outbound>, queue: seq<Outbound>, n: nat)
    requires n <= |queue|
    ensures n < |queue| ==> lost + [queue[n]] + queue[n + 1..] == lost + queue[n..]
    ensures n == |queue| ==> lost + queue[n..] == lost == lost + []
  {
    assert n < |queue| ==> queue[n..] == [queue[n]] + queue[n + 1..];
  }

  /** One turn of the writer loop. */
  function Turn(takes: bool): seq<Event> { [ByWriter(Receive)] + [ByWriter(if takes then SinkAccepts else SinkFails)] }

  function Turns(n: nat): seq<Event> { if n == 0 then [] else Turns(n - 1) + Turn(true) }

  /** After `n` frames taken and accepted. */
  function AfterTurns(s: State, n: nat): State
    requires n <= |s.queue|
  {
    s.(queue := s.queue[n..], delivered := s.delivered + s.queue[..n])
  }

  /** After that one taken and refused. */
  function AfterRefusal(s: State, n: nat): State
    requires n < |s.queue|
  {
    AfterTurns(s, n).(queue := s.queue[n + 1..], lost := s.lost + [s.queue[n]], writer := Closing(true))
  }

  lemma OneTurn(s: State, takes: bool)
    requires s.writer.Receiving? && s.queue != []
    ensures ValidRun(s, Turn(takes)) && Exec(s, Turn(takes)) == if takes then AfterTurns(s, 1) else AfterRefusal(s, 0)
  {
    var first := [ByWriter(Receive)];
    assert ValidRun(s, first) && Exec(s, first) == WriterNext(s, Receive) by { RunSnoc(s, [], ByWriter(Receive)); }
    RunSnoc(s, first, Turn(takes)[1]);
    assert s.queue[..1] == [s.queue[0]] && s.queue[..0] == [];
  }

  lemma TurnAfterTurns(s: State, n: nat)
    requires n < |s.queue|
    ensures AfterTurns(AfterTurns(s, n), 1) == AfterTurns(s, n + 1)
    ensures AfterRefusal(AfterTurns(s, n), 0) == AfterRefusal(s, n)
  {
    assert s.queue[n..][..1] == [s.queue[n]];
    assert s.queue[..n + 1] == s.queue[..n] + [s.queue[n]];
  }

  lemma {:induction false} TurnsDeliver(s: State, n: nat)
    requires s.writer.Receiving? && n <= |s.queue|
    ensures ValidRun(s, Turns(n)) && Exec(s, Turns(n)) == AfterTurns(s, n)
  {
    if n > 0 {
      TurnsDeliver(s, n - 1);
      OneTurn(AfterTurns(s, n - 1), true);
      TurnAfterTurns(s, n - 1);
      RunsCompose(s, Turns(n - 1), Turn(true));
    }
  }

  /** The run the writer loop makes when the sink takes `n` frames and refuses the next, if there is one. */
  lemma WriterRun(s: State, n: nat) returns (run: seq<Event>)
    requires s.writer.Receiving? && n <= |s.queue|
    ensures ValidRun(s, run) && Exec(s, run) == if n < |s.queue| then AfterRefusal(s, n) else AfterTurns(s, n)
  {
    run := Turns(n);
    TurnsDeliver(s, n);
    if n < |s.queue| {
      OneTurn(AfterTurns(s, n), false);
      TurnAfterTurns(s, n);
      RunsCompose(s, run, Turn(false));
      run := run + Turn(false);
    }
  }
}
