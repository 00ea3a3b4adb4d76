/**
 * The multiplexer against its run: which calls exist and with what, what the
 * log holds, what was asked upstream, and that a dead sink ends its call.
 */
module ProxyHistory {
  import opened Wire
  import opened Proxy
  import opened ProxySafety
  import opened ProxyTheorems

  // ---------- the reference: the events of the run ----------

  /** What a `subscribe` call was given, its upstream id, and where in the log it began to listen. */
  datatype Begun = Begun(sub: string, filters: seq<Json>, up: string, start: nat)

  function Broadcasts(es: seq<Event>): seq<Notification> {
    if es == [] then [] else
      Broadcasts(es[..|es| - 1]) + (match es[|es| - 1] case Broadcast(n) => [n] case _ => [])
  }

  function Begins(es: seq<Event>): seq<Begun> {
    if es == [] then [] else
      var init := es[..|es| - 1];
      Begins(init)
      + (match es[|es| - 1] case Begin(sub, filters, up) => [Begun(sub, filters, up, |Broadcasts(init)|)] case _ => [])
  }

  /** The REQs sent, in order: each is that of the call whose turn it was. */
  function Asked(es: seq<Event>): seq<Request> {
    if es == [] then [] else
      var init := es[..|es| - 1];
      Asked(init)
      + (match es[|es| - 1]
         case ByCall(c, SendReq) =>
           if c < |Begins(init)| then [Request(Begins(init)[c].up, Begins(init)[c].filters)] else []
         case _ => [])
  }

  /** `sink.close` ran on a sink that was still alive. */
  ghost predicate ClosedAlive(es: seq<Event>, c: nat) {
    exists i :: 0 <= i < |es| && es[i] == ByCall(c, CloseSink) && ByCall(c, SinkDies) !in es[..i]
  }

  /** Call `c` stands where its own events put it. */
  ghost predicate CallGiven(call: Call, es: seq<Event>, c: nat) {
    && (call.active <==> ByCall(c, SinkDies) !in es)
    && (call.phase.Registered? <==> ByCall(c, SendReq) !in es)
    && (call.phase.Failed? <==> ByCall(c, SubscribeErr) in es)
    && (call.phase.Exited? <==> ByCall(c, CloseSink) in es)
    && (call.sinkClosed <==> ClosedAlive(es, c))
  }

  ghost predicate Follows(s: State, capacity: nat, es: seq<Event>) {
    && s.capacity == capacity
    && s.log == Broadcasts(es)
    && (s.closed <==> PoolDropped in es)
    && s.reqs == Asked(es)
    && |s.calls| == |Begins(es)|
    && (forall c :: 0 <= c < |s.calls| ==>
          var call := s.calls[c];
          Begun(call.sub, call.filters, call.up, call.start) == Begins(es)[c] && call.filters != [])
  }

  lemma ReferenceSnoc(es: seq<Event>, e: Event)
    ensures Broadcasts(es + [e]) == Broadcasts(es) + (if e.Broadcast? then [e.n] else [])
    ensures Begins(es + [e])
         == Begins(es) + (if e.Begin? then [Begun(e.sub, e.filters, e.up, |Broadcasts(es)|)] else [])
    ensures Asked(es + [e])
         == Asked(es) + (if e.ByCall? && e.act.SendReq? && e.c < |Begins(es)|
                         then [Request(Begins(es)[e.c].up, Begins(es)[e.c].filters)] else [])
  {
    assert (es + [e])[..|es|] == es;
  }

  lemma FollowsStep(s: State, capacity: nat, es: seq<Event>, e: Event)
    requires Follows(s, capacity, es) && Enabled(s, e)
    ensures Follows(Apply(s, e), capacity, es + [e])
  {
    ReferenceSnoc(es, e);
    if e.ByCall? {
      GivenKept(s, s.calls[e.c], e.act);
    }
  }

  lemma GivenKept(s: State, call: Call, a: CallAct)
    requires CallReady(s, call, a)
    ensures var next := CallNext(s, call, a);
      next.sub == call.sub && next.filters == call.filters && next.up == call.up && next.start == call.start
  {
  }

  /** No call of this number or above has had a turn. */
  predicate NotYet(es: seq<Event>, calls: nat) { forall i :: 0 <= i < |es| && es[i].ByCall? ==> es[i].c < calls }

  lemma ClosedSnoc(es: seq<Event>, e: Event, c: nat)
    ensures ClosedAlive(es + [e], c) <==>
      ClosedAlive(es, c) || (e == ByCall(c, CloseSink) && ByCall(c, SinkDies) !in es)
  {
    var next := es + [e];
    forall i | 0 <= i <= |es| ensures next[..i] == es[..i] {
    }
    assert es[..|es|] == es;
    if ClosedAlive(next, c) {
      var i :| 0 <= i < |next| && next[i] == ByCall(c, CloseSink) && ByCall(c, SinkDies) !in next[..i];
      assert i < |es| ==> es[i] == next[i];
    }
    if ClosedAlive(es, c) {
      var i :| 0 <= i < |es| && es[i] == ByCall(c, CloseSink) && ByCall(c, SinkDies) !in es[..i];
      assert next[i] == es[i];
    }
    if e == ByCall(c, CloseSink) && ByCall(c, SinkDies) !in es {
      assert next[|es|] == e;
    }
  }

  lemma OwnTurn(s: State, call: Call, es: seq<Event>, c: nat, a: CallAct)
    requires CallReady(s, call, a) && CallGiven(call, es, c) && LoopOk(call)
    ensures CallGiven(CallNext(s, call, a), es + [ByCall(c, a)], c)
  {
    ClosedSnoc(es, ByCall(c, a), c);
  }

  lemma OthersTurn(call: Call, es: seq<Event>, c: nat, e: Event)
    requires CallGiven(call, es, c) && !(e.ByCall? && e.c == c)
    ensures CallGiven(call, es + [e], c)
  {
    ClosedSnoc(es, e, c);
  }

  lemma FreshCall(call: Call, es: seq<Event>, c: nat, e: Event)
    requires NotYet(es, c) && !e.ByCall? && call.phase.Registered? && call.active && !call.sinkClosed
    ensures CallGiven(call, es + [e], c)
  {
    assert forall a :: ByCall(c, a) !in es;
    ClosedSnoc(es, e, c);
  }

  ghost predicate AllGiven(s: State, es: seq<Event>) {
    NotYet(es, |s.calls|) && forall c :: 0 <= c < |s.calls| ==> CallGiven(s.calls[c], es, c)
  }

  lemma AllGivenStep(s: State, es: seq<Event>, e: Event)
    requires AllGiven(s, es) && Inv(s) && Enabled(s, e)
    ensures AllGiven(Apply(s, e), es + [e])
  {
    var s' := Apply(s, e);
    forall c | 0 <= c < |s'.calls| ensures CallGiven(s'.calls[c], es + [e], c) {
      if e.ByCall? && e.c == c {
        assert CallOk(s.log, s.calls[c]);
        OwnTurn(s, s.calls[c], es, c, e.act);
      } else if c < |s.calls| {
        OthersTurn(s.calls[c], es, c, e);
      } else {
        FreshCall(s'.calls[c], es, c, e);
      }
    }
  }

  lemma {:induction false} HistoryRun(capacity: nat, es: seq<Event>)
    requires ValidRun(Initial(capacity), es)
    ensures Follows(Exec(Initial(capacity), es), capacity, es) && AllGiven(Exec(Initial(capacity), es), es)
  {
    if es != [] {
      var init, e := es[..|es| - 1], es[|es| - 1];
      HistoryRun(capacity, init);
      InvRun(Initial(capacity), init);
      assert es == init + [e];
      FollowsStep(Exec(Initial(capacity), init), capacity, init, e);
      AllGivenStep(Exec(Initial(capacity), init), init, e);
    }
  }

  /**
   * Over every run: the log is what was broadcast. There is one call for each
   * accepted `subscribe`, in order, with the client's id and filters, none of
   * them empty, its own upstream id, and listening from what was broadcast next.
   * What was asked upstream is, for each call that sent its REQ, that REQ with
   * that call's id and filters.
   */
  lemma CallsAreBegun(capacity: nat, es: seq<Event>)
    requires ValidRun(Initial(capacity), es)
    ensures var s := Exec(Initial(capacity), es);
      && s.capacity == capacity && s.log == Broadcasts(es) && (s.closed <==> PoolDropped in es)
      && |s.calls| == |Begins(es)|
      && (forall c :: 0 <= c < |s.calls| ==>
            && s.calls[c].sub == Begins(es)[c].sub && s.calls[c].filters == Begins(es)[c].filters != []
            && s.calls[c].up == Begins(es)[c].up && s.calls[c].start == Begins(es)[c].start)
      && s.reqs == Asked(es)
  {
    HistoryRun(capacity, es);
  }

  /**
   * Over every run: a sink is alive until it dies; a call has exited if and only
   * if it closed its part, and its sink was closed by it if and only if it was
   * alive at that moment.
   */
  lemma SinkClosedIfAlive(capacity: nat, es: seq<Event>, c: nat)
    requires ValidRun(Initial(capacity), es) && c < |Exec(Initial(capacity), es).calls|
    ensures var call := Exec(Initial(capacity), es).calls[c];
      && (call.active <==> ByCall(c, SinkDies) !in es)
      && (call.phase.Exited? <==> ByCall(c, CloseSink) in es)
      && (call.sinkClosed <==>
            exists i :: 0 <= i < |es| && es[i] == ByCall(c, CloseSink) && ByCall(c, SinkDies) !in es[..i])
      && (call.phase.Exited? && call.active ==> call.sinkClosed)
  {
    HistoryRun(capacity, es);
    var call := Exec(Initial(capacity), es).calls[c];
    if call.phase.Exited? && call.active {
      var i :| 0 <= i < |es| && es[i] == ByCall(c, CloseSink);
      assert ByCall(c, SinkDies) !in es[..i];
    }
  }

  // ---------- what each await of a call can be woken by ----------

  /** Which step a call can take follows from its phase, its unread messages and its sink. */
  ghost predicate Offers(s: State, c: nat, call: Call, unread: int, accepted: bool) {
    && (Enabled(s, ByCall(c, SendReq)) <==> call.phase.Registered?)
    && (Enabled(s, ByCall(c, SubscribeOk)) <==> call.phase.Requested?)
    && (Enabled(s, ByCall(c, SubscribeErr)) <==> call.phase.Requested?)
    && (Enabled(s, ByCall(c, Recv)) <==> call.phase.Looping? && 0 < unread <= s.capacity)
    && (Enabled(s, ByCall(c, Lag)) <==> call.phase.Looping? && unread > s.capacity)
    && (Enabled(s, ByCall(c, RecvClosed)) <==> call.phase.Looping? && s.closed && unread == 0)
    && (Enabled(s, ByCall(c, Poll)) <==> call.phase.Looping?)
    && (Enabled(s, ByCall(c, SinkDies)) <==> call.active)
    && (Enabled(s, ByCall(c, WriteDone(accepted))) <==> call.phase.Writing?)
    && (Enabled(s, ByCall(c, Unsubscribe)) <==> call.phase.Unwinding?)
    && (Enabled(s, ByCall(c, CloseSink)) <==> call.phase.Closing?)
  }

  lemma ReadyAt(s: State, call: Call, accepted: bool)
    requires s.base == Oldest(|s.log|, s.capacity) && call.cursor <= |s.log|
    ensures var unread := |s.log| - call.cursor;
      && (CallReady(s, call, Recv) <==> call.phase.Looping? && 0 < unread <= s.capacity)
      && (CallReady(s, call, Lag) <==> call.phase.Looping? && unread > s.capacity)
      && (CallReady(s, call, RecvClosed) <==> call.phase.Looping? && s.closed && unread == 0)
  {
  }

  lemma OffersAt(s: State, c: nat, accepted: bool)
    requires c < |s.calls| && s.base == Oldest(|s.log|, s.capacity) && s.calls[c].cursor <= |s.log|
    ensures Offers(s, c, s.calls[c], |s.log| - s.calls[c].cursor, accepted)
  {
    ReadyAt(s, s.calls[c], accepted);
  }

  lemma CallOffers(s: State, c: nat, accepted: bool)
    requires Reachable(s) && c < |s.calls|
    ensures Offers(s, c, s.calls[c], |s.log| - s.calls[c].cursor, accepted)
  {
    assert s.base == Oldest(|s.log|, s.capacity) && s.calls[c].cursor <= |s.log| by {
      ReachableInv(s);
      assert CallOk(s.log, s.calls[c]);
    }
    OffersAt(s, c, accepted);
  }

  /** An empty filter list opens nothing; any other is taken with any upstream id nobody uses. */
  lemma PoolOffers(s: State, sub: string, filters: seq<Json>, up: string, n: Notification)
    ensures !Enabled(s, Begin(sub, [], up))
    ensures Enabled(s, RejectEmpty(sub)) && Apply(s, RejectEmpty(sub)) == s
    ensures filters != [] ==>
      (Enabled(s, Begin(sub, filters, up)) <==>
         && (forall c :: 0 <= c < |s.calls| ==> s.calls[c].up != up)
         && (forall i :: 0 <= i < |s.log| ==> Tag(s.log[i]) != Some(up)))
    ensures Enabled(s, Broadcast(n)) <==>
      && !s.closed
      && (forall c :: 0 <= c < |s.calls| && s.calls[c].phase.Registered? ==> Tag(n) != Some(s.calls[c].up))
    ensures Enabled(s, PoolDropped)
  {
  }

  // ---------- a dead sink ends its call ----------

  /** Steps of call `c` that receive nothing more: with a dead sink no write goes through. */
  predicate Unwinds(e: Event, c: nat) {
    e.ByCall? && e.c == c && e.act in {SendReq, SubscribeOk, Poll, WriteDone(false), Unsubscribe, CloseSink}
  }

  /** At most `n` steps of call `c` alone lead from `s` to `end`. */
  ghost predicate UnwindsTo(s: State, end: State, c: nat, n: nat) {
    exists es :: ValidRun(s, es) && Exec(s, es) == end && |es| <= n && forall i :: 0 <= i < |es| ==> Unwinds(es[i], c)
  }

  lemma {:induction false} RunsCompose(s: State, es: seq<Event>, fs: seq<Event>)
    requires ValidRun(s, es) && ValidRun(Exec(s, es), fs)
    ensures ValidRun(s, es + fs) && Exec(s, es + fs) == Exec(Exec(s, es), fs)
    decreases |fs|
  {
    if fs == [] {
      assert es + fs == es;
    } else {
      RunsCompose(s, es, fs[..|fs| - 1]);
      assert (es + fs)[..|es + fs| - 1] == es + fs[..|fs| - 1];
    }
  }

  lemma UnwindOn(a: State, b: State, end: State, c: nat, n: nat)
    requires UnwindsTo(a, b, c, 1) && UnwindsTo(b, end, c, n)
    ensures UnwindsTo(a, end, c, n + 1)
  {
    var es :| ValidRun(a, es) && Exec(a, es) == b && |es| <= 1 && forall i :: 0 <= i < |es| ==> Unwinds(es[i], c);
    var fs :| ValidRun(b, fs) && Exec(b, fs) == end && |fs| <= n && forall i :: 0 <= i < |fs| ==> Unwinds(fs[i], c);
    RunsCompose(a, es, fs);
  }

  lemma UnwindStep(s: State, e: Event, c: nat)
    requires Enabled(s, e) && Unwinds(e, c)
    ensures UnwindsTo(s, Apply(s, e), c, 1)
  {
    assert ValidRun(s, []) && Exec(s, []) == s;
    assert [e][..|[e]| - 1] == [];
    assert ValidRun(s, [e]);
  }

  lemma ReachableStep(s: State, e: Event)
    requires Reachable(s) && Enabled(s, e)
    ensures Reachable(Apply(s, e))
  {
    var capacity, es :| ValidRun(Initial(capacity), es) && s == Exec(Initial(capacity), es);
    assert (es + [e])[..|es + [e]| - 1] == es;
    assert ValidRun(Initial(capacity), es + [e]) && Exec(Initial(capacity), es + [e]) == Apply(s, e);
  }

  function Ahead(call: Call): nat {
    match call.phase
    case Registered => 5
    case Requested => 4
    case Looping => 3
    case Writing(_, _) => 3
    case Unwinding => 2
    case Closing => 1
    case _ => 0
  }

  lemma UnwindOnce(s: State, c: nat) returns (next: State)
    requires Reachable(s) && c < |s.calls|
    requires !s.calls[c].active && !s.calls[c].phase.Failed? && !s.calls[c].phase.Exited?
    ensures UnwindsTo(s, next, c, 1) && Reachable(next) && c < |next.calls|
    ensures !next.calls[c].active && !next.calls[c].phase.Failed? && Ahead(next.calls[c]) == Ahead(s.calls[c]) - 1
  {
    var e := ByCall(c, NextAct(s.calls[c]));
    GoesAhead(s, s.calls[c]) by {
      ReachableInv(s);
      assert CallOk(s.log, s.calls[c]);
    }
    next := Apply(s, e);
    UnwindStep(s, e, c);
    ReachableStep(s, e);
  }

  lemma {:induction false} DeadSinkExits(s: State, c: nat, n: nat) returns (end: State)
    requires Reachable(s) && c < |s.calls| && !s.calls[c].active && !s.calls[c].phase.Failed?
    requires Ahead(s.calls[c]) <= n
    ensures UnwindsTo(s, end, c, n)
    ensures c < |end.calls| && end.calls[c].phase.Exited?
    ensures end.calls[c].up !in end.open && end.calls[c].unsubscribes == 1
    decreases n
  {
    if s.calls[c].phase.Exited? {
      end := s;
      StaysPut(s, c, n);
      ExitedIsUnsubscribed(s, c);
    } else {
      var next := UnwindOnce(s, c);
      end := DeadSinkExits(next, c, n - 1);
      UnwindOn(s, next, end, c, n - 1);
    }
  }

  lemma StaysPut(s: State, c: nat, n: nat)
    ensures UnwindsTo(s, s, c, n)
  {
    assert ValidRun(s, []) && Exec(s, []) == s;
  }

  function NextAct(call: Call): CallAct {
    match call.phase
    case Registered => SendReq
    case Requested => SubscribeOk
    case Looping => Poll
    case Writing(_, _) => WriteDone(false)
    case Unwinding => Unsubscribe
    case _ => CloseSink
  }

  lemma GoesAhead(s: State, call: Call)
    requires LoopOk(call) && !call.active && !call.phase.Failed? && !call.phase.Exited?
    ensures CallReady(s, call, NextAct(call))
    ensures var next := CallNext(s, call, NextAct(call));
      Ahead(next) == Ahead(call) - 1 && !next.active && !next.phase.Failed?
  {
  }

  lemma ExitedIsUnsubscribed(s: State, c: nat)
    requires Reachable(s) && c < |s.calls| && s.calls[c].phase.Exited?
    ensures s.calls[c].up !in s.open && s.calls[c].unsubscribes == 1
  {
    ReachableInv(s);
    assert CallOk(s.log, s.calls[c]);
  }

  /**
   * A call whose sink has died (the client aborted, or its stream was lost)
   * comes to its end by at most five steps of its own, whatever upstream does,
   * unless its subscribe failed: it leaves the loop at its next turn, exits, and
   * its upstream subscription is closed, by exactly one unsubscribe.
   */
  lemma AbortedCallUnsubscribes(s: State, c: nat)
    requires Reachable(s) && c < |s.calls| && !s.calls[c].active && !s.calls[c].phase.Failed?
    ensures exists end ::
      && UnwindsTo(s, end, c, 5)
      && c < |end.calls| && end.calls[c].phase.Exited?
      && end.calls[c].up !in end.open && end.calls[c].unsubscribes == 1
  {
    var end := DeadSinkExits(s, c, 5);
  }
}
