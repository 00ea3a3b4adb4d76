/**
 * What each await of the connection can be woken by, in every reachable state.
 * Safety says nothing wrong happens; this says that the model refuses nothing
 * the program allows.
 */
module ConnectionOffers {
  import opened Wire
  import opened Connection
  import opened ConnectionSafety

  /**
   * A subscribe task. Both branches of a `select!` are open at once: a signal
   * neither waits for the stream nor goes before it.
   */
  lemma TaskOffers(s: State, t: nat, token: nat, why: string, item: StreamItem)
    requires Reachable(s) && t < |s.tasks|
    ensures var task := s.tasks[t];
      && (Enabled(s, ByTask(t, SetupOk(token))) <==>
            task.phase.Setup? && forall u :: 0 <= u < |s.tasks| ==> s.tasks[u].token != Some(token))
      && (Enabled(s, ByTask(t, SetupErr(why))) <==> task.phase.Setup?)
      && (Enabled(s, ByTask(t, SetupCancelled)) <==> task.phase.Setup? && task.signals > 0)
      && (Enabled(s, ByTask(t, Take)) <==> task.phase.Streaming? && task.taken < |task.arrived|)
      && (Enabled(s, ByTask(t, Teardown)) <==> task.phase.Streaming? && task.signals > 0)
      && (Enabled(s, ByTask(t, TeardownDone)) <==> task.phase.Cancelling?)
      && (Enabled(s, ByTask(t, Send)) <==> task.phase.Sending? && !s.writer.Done? && |s.queue| < 256)
      && (Enabled(s, ByTask(t, SendRefused)) <==> task.phase.Sending? && s.writer.Done?)
      && (Enabled(s, ByTask(t, Arrive(item))) <==> task.token.Some?)
  {
    var task := s.tasks[t];
    assert (task.phase.Setup? || task.phase.Streaming? ==> (task.permit <==> task.signals > 0))
        && (task.phase.Streaming? ==> task.token.Some?) by {
      ReachableInv(s);
      assert TaskOk(task, t);
    }
    SendOffers(s, t);
  }

  lemma SendOffers(s: State, t: nat)
    requires t < |s.tasks|
    ensures Enabled(s, ByTask(t, Send)) <==> s.tasks[t].phase.Sending? && !s.writer.Done? && |s.queue| < 256
    ensures Enabled(s, ByTask(t, SendRefused)) <==> s.tasks[t].phase.Sending? && s.writer.Done?
  {
  }

  /** A publish, the reader's own sends, and the cleanup. */
  lemma SenderOffers(s: State, p: nat, reply: CallReply, sub: string)
    requires Reachable(s)
    ensures p < |s.pubs| ==> var pub := s.pubs[p];
      && (Enabled(s, ByPub(p, Reply(reply))) <==> pub.phase.Calling?)
      && (Enabled(s, ByPub(p, PubSend)) <==> pub.phase.Replying? && !s.writer.Done? && |s.queue| < 256)
      && (Enabled(s, ByPub(p, PubRefused)) <==> pub.phase.Replying? && s.writer.Done?)
    ensures Enabled(s, ByReader(NoticeSent)) <==> s.reader.Noticing? && !s.writer.Done? && |s.queue| < 256
    ensures Enabled(s, ByReader(NoticeRefused)) <==> s.reader.Noticing? && s.writer.Done?
    ensures Enabled(s, ByReader(CleanupSignal(sub))) <==> s.reader.Cleaning? && sub in s.reader.pending
    ensures Enabled(s, ByReader(CleanupDone)) <==> s.reader.Cleaning? && s.reader.pending == {}
  {
    ReachableInv(s);
  }

  /** The writer: it hears of the end of the channel only when every sender is gone and all was read. */
  lemma WriterOffers(s: State)
    ensures Enabled(s, ByWriter(Receive)) <==> s.writer.Receiving? && s.queue != []
    ensures Enabled(s, ByWriter(SinkAccepts)) <==> s.writer.Writing?
    ensures Enabled(s, ByWriter(SinkFails)) <==> s.writer.Writing?
    ensures Enabled(s, ByWriter(SinkClosed)) <==> s.writer.Closing?
    ensures Enabled(s, ByWriter(ChannelEnded)) <==>
      && s.writer.Receiving? && s.queue == [] && s.reader.Dropped?
      && (forall t :: 0 <= t < |s.tasks| ==> s.tasks[t].phase.Finished?)
      && (forall p :: 0 <= p < |s.pubs| ==> s.pubs[p].phase.Answered?)
  {
  }
}
