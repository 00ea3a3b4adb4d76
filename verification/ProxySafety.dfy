/** Invariants of the subscription multiplexer, over every run. */
module ProxySafety {
  import opened Wire
  import opened Proxy

  // ---------- sequences ----------

  lemma RelabelAppend(log: seq<Notification>, n: Notification, up: string, sub: string)
    ensures Relabel(log + [n], up, sub)
         == Relabel(log, up, sub) + (match MapNotification(n, up, sub) case Some(f) => [f.chunk] case None => [])
  {
    assert (log + [n])[..|log|] == log;
  }

  lemma {:induction false} RelabelConcat(a: seq<Notification>, b: seq<Notification>, up: string, sub: string)
    ensures Relabel(a + b, up, sub) == Relabel(a, up, sub) + Relabel(b, up, sub)
    decreases |b|
  {
    if b == [] {
      assert a + b == a;
    } else {
      var b', n := b[..|b| - 1], b[|b| - 1];
      var more := match MapNotification(n, up, sub) case Some(f) => [f.chunk] case None => [];
      RelabelConcat(a, b', up, sub);
      assert Relabel(a + b, up, sub) == Relabel(a + b', up, sub) + more by {
        RelabelAppend(a + b', n, up, sub);
        assert a + b == a + b' + [n];
      }
      assert Relabel(b, up, sub) == Relabel(b', up, sub) + more;
    }
  }

  lemma WritesAppend(picks: seq<Pick>, pick: Pick, up: string, sub: string)
    ensures Writes(picks + [pick], up, sub)
         == Writes(picks, up, sub)
          + (if pick.Received? && MapNotification(pick.n, up, sub).Some?
             then [MapNotification(pick.n, up, sub).value.chunk] else [])
  {
    assert (picks + [pick])[..|picks|] == picks;
  }

  lemma {:induction false} SubsequenceExtend(a: seq<Json>, b: seq<Json>, c: seq<Json>)
    requires Subsequence(a, b)
    ensures Subsequence(a, b + c)
    decreases |c|
  {
    if c == [] {
      assert b + c == b;
    } else {
      SubsequenceExtend(a, b, c[..|c| - 1]);
      assert (b + c)[..|b + c| - 1] == b + c[..|c| - 1];
    }
  }

  lemma SubsequenceBoth(a: seq<Json>, b: seq<Json>, x: Json)
    requires Subsequence(a, b)
    ensures Subsequence(a + [x], b + [x])
  {
    assert (a + [x])[..|a|] == a && (b + [x])[..|b|] == b;
  }

  lemma {:induction false} SubsequenceOfPrefix(p: seq<Json>, a: seq<Json>, b: seq<Json>)
    requires p <= a && Subsequence(a, b)
    ensures Subsequence(p, b)
    decreases |a| + |b|
  {
    if p != [] && p != a {
      if a[|a| - 1] == b[|b| - 1] && Subsequence(a[..|a| - 1], b[..|b| - 1]) {
        SubsequenceOfPrefix(p, a[..|a| - 1], b[..|b| - 1]);
      } else {
        SubsequenceOfPrefix(p, a, b[..|b| - 1]);
      }
      SubsequenceExtend(p, b[..|b| - 1], [b[|b| - 1]]);
      assert b[..|b| - 1] + [b[|b| - 1]] == b;
    }
  }

  // ---------- one call ----------

  function Written(pick: Pick, up: string, sub: string): seq<Json> {
    if pick.Received? && MapNotification(pick.n, up, sub).Some?
    then [MapNotification(pick.n, up, sub).value.chunk]
    else []
  }

  /** A completed turn: `call` already carries what the turn wrote. */
  lemma TurnOk(call: Call, pick: Pick)
    requires forall i :: 0 <= i < |call.picks| ==> !Breaks(call.picks[i], call.up, call.sub)
    requires call.attempted == Writes(call.picks, call.up, call.sub) + Written(pick, call.up, call.sub)
    requires call.sent <= call.attempted && (!Breaks(pick, call.up, call.sub) ==> call.sent == call.attempted)
    requires call.unsubscribes == 0 && !call.sinkClosed
    ensures LoopOk(Turn(call, pick))
  {
    WritesAppend(call.picks, pick, call.up, call.sub);
  }

  lemma RecvLoopKept(s: State, call: Call)
    requires CallReady(s, call, Recv) && LoopOk(call)
    ensures LoopOk(CallNext(s, call, Recv))
  {
    var n := s.log[call.cursor];
    if MapNotification(n, call.up, call.sub).None? {
      TurnOk(call.(cursor := call.cursor + 1), Received(n, true, call.active));
    }
  }

  lemma WriteLoopKept(s: State, call: Call, accepted: bool)
    requires CallReady(s, call, WriteDone(accepted)) && LoopOk(call)
    ensures LoopOk(CallNext(s, call, WriteDone(accepted)))
  {
    var chunk := call.phase.fwd.chunk;
    var next := call.(
      attempted := call.attempted + [chunk],
      sent := if accepted then call.sent + [chunk] else call.sent);
    TurnOk(next, Received(call.phase.n, accepted, call.active));
  }

  lemma LoopKept(s: State, call: Call, a: CallAct)
    requires CallReady(s, call, a) && LoopOk(call)
    ensures LoopOk(CallNext(s, call, a))
  {
    match a
    case Recv => RecvLoopKept(s, call);
    case Lag => TurnOk(call.(cursor := s.base, skipped := call.skipped + Span(call.cursor, s.base)), Lagged);
    case RecvClosed => TurnOk(call, ChannelClosed);
    case Poll => TurnOk(call, PollTick(call.active));
    case WriteDone(accepted) => WriteLoopKept(s, call, accepted);
    case _ =>
  }

  lemma CursorKept(s: State, call: Call, a: CallAct)
    requires CallReady(s, call, a) && CursorOk(s.log, call) && (a.Lag? ==> s.base <= |s.log|)
    ensures CursorOk(s.log, CallNext(s, call, a))
  {
  }

  lemma OutStep(s: State, call: Call, a: CallAct)
    requires CallReady(s, call, a)
    ensures var next := CallNext(s, call, a);
      if a.Recv? && Matches(s.log[call.cursor], call)
      then next.hits == call.hits + [call.cursor]
        && Out(next) == Out(call) + [MapNotification(s.log[call.cursor], call.up, call.sub).value.chunk]
      else next.hits == call.hits && Out(next) == Out(call)
  {
  }

  lemma HitsSame(log: seq<Notification>, call: Call, next: Call)
    requires CursorOk(log, call) && HitsOk(log, call) && CursorOk(log, next)
    requires next.up == call.up && next.sub == call.sub && next.start == call.start
    requires next.hits == call.hits && Out(next) == Out(call)
    requires call.cursor <= next.cursor && call.skipped <= next.skipped
    requires forall i :: i in next.skipped && i !in call.skipped ==> call.cursor <= i
    requires forall i :: call.cursor <= i < next.cursor ==> i in next.skipped || !Matches(log[i], call)
    ensures HitsOk(log, next)
  {
  }

  lemma HitsRecv(s: State, call: Call)
    requires CallReady(s, call, Recv) && CursorOk(s.log, call) && HitsOk(s.log, call)
    requires Matches(s.log[call.cursor], call)
    ensures CursorOk(s.log, CallNext(s, call, Recv)) && HitsOk(s.log, CallNext(s, call, Recv))
  {
    var next := CallNext(s, call, Recv);
    assert CursorOk(s.log, next) by { CursorKept(s, call, Recv); }
    OutStep(s, call, Recv);
    assert next.cursor == call.cursor + 1 && next.skipped == call.skipped;
    HitsMore(s.log, call, next);
  }

  lemma HitsMore(log: seq<Notification>, call: Call, next: Call)
    requires CursorOk(log, call) && HitsOk(log, call) && CursorOk(log, next) && call.cursor < |log|
    requires next.up == call.up && next.sub == call.sub && next.start == call.start
    requires next.cursor == call.cursor + 1 && next.skipped == call.skipped && Matches(log[call.cursor], call)
    requires next.hits == call.hits + [call.cursor]
    requires Out(next) == Out(call) + [MapNotification(log[call.cursor], call.up, call.sub).value.chunk]
    ensures HitsOk(log, next)
  {
    forall i | next.start <= i < next.cursor && i !in next.skipped && Matches(log[i], next) ensures i in next.hits {
      assert i < call.cursor ==> i in call.hits;
      assert next.hits[|call.hits|] == call.cursor;
    }
    forall k | 0 <= k < |next.hits|
      ensures next.start <= next.hits[k] < next.cursor && next.hits[k] !in next.skipped
      ensures Matches(log[next.hits[k]], next)
      ensures MapNotification(log[next.hits[k]], next.up, next.sub).value.chunk == Out(next)[k]
    {
      assert next.hits[k] == if k < |call.hits| then call.hits[k] else call.cursor;
    }
  }

  lemma HitsKept(s: State, call: Call, a: CallAct)
    requires CallReady(s, call, a) && CursorOk(s.log, call) && HitsOk(s.log, call) && s.base <= |s.log|
    ensures CursorOk(s.log, CallNext(s, call, a)) && HitsOk(s.log, CallNext(s, call, a))
  {
    if a.Recv? && Matches(s.log[call.cursor], call) {
      HitsRecv(s, call);
    } else {
      CursorKept(s, call, a);
      OutStep(s, call, a);
      HitsSame(s.log, call, CallNext(s, call, a));
    }
  }

  /** One more message read: the output grows as the relabelled log does. */
  lemma OutputNext(log: seq<Notification>, call: Call, next: Call)
    requires CursorOk(log, call) && OutputOk(log, call) && CursorOk(log, next) && call.cursor < |log|
    requires next.start == call.start && next.cursor == call.cursor + 1 && next.skipped == call.skipped
    requires next.up == call.up && next.sub == call.sub
    requires Out(next) == Out(call) + Written(Received(log[call.cursor], true, true), call.up, call.sub)
    ensures OutputOk(log, next)
  {
    RelabelNext(log, call);
    var mine := Relabel(log[call.start..call.cursor], call.up, call.sub);
    var more := Written(Received(log[call.cursor], true, true), call.up, call.sub);
    if more == [] {
      assert mine + more == mine && Out(call) + more == Out(call);
    } else {
      SubsequenceBoth(Out(call), mine, more[0]);
    }
  }

  lemma OutputRecv(s: State, call: Call)
    requires CallReady(s, call, Recv) && CursorOk(s.log, call) && OutputOk(s.log, call)
    ensures CursorOk(s.log, CallNext(s, call, Recv)) && OutputOk(s.log, CallNext(s, call, Recv))
  {
    CursorKept(s, call, Recv);
    OutStep(s, call, Recv);
    var next := CallNext(s, call, Recv);
    assert Out(call) + [] == Out(call);
    OutputNext(s.log, call, next);
  }

  lemma OutputLag(s: State, call: Call)
    requires CallReady(s, call, Lag) && CursorOk(s.log, call) && OutputOk(s.log, call) && s.base <= |s.log|
    ensures CursorOk(s.log, CallNext(s, call, Lag)) && OutputOk(s.log, CallNext(s, call, Lag))
  {
    OutStep(s, call, Lag);
    RelabelOver(s.log, call, s.base);
    SubsequenceExtend(Out(call), Relabel(s.log[call.start..call.cursor], call.up, call.sub),
                      Relabel(s.log[call.cursor..s.base], call.up, call.sub));
    assert call.cursor in CallNext(s, call, Lag).skipped;
  }

  lemma OutputKept(s: State, call: Call, a: CallAct)
    requires CallReady(s, call, a) && CursorOk(s.log, call) && OutputOk(s.log, call) && s.base <= |s.log|
    ensures CursorOk(s.log, CallNext(s, call, a)) && OutputOk(s.log, CallNext(s, call, a))
  {
    match a
    case Recv => OutputRecv(s, call);
    case Lag => OutputLag(s, call);
    case _ => OutputSame(s, call, a);
  }

  lemma OutputSame(s: State, call: Call, a: CallAct)
    requires CallReady(s, call, a) && !a.Recv? && !a.Lag? && CursorOk(s.log, call) && OutputOk(s.log, call)
    ensures CursorOk(s.log, CallNext(s, call, a)) && OutputOk(s.log, CallNext(s, call, a))
  {
    var next := CallNext(s, call, a);
    assert CursorOk(s.log, next) by { CursorKept(s, call, a); }
    assert Out(next) == Out(call) by { OutStep(s, call, a); }
    assert next.start == call.start && next.cursor == call.cursor && next.skipped == call.skipped;
  }

  lemma RelabelNext(log: seq<Notification>, call: Call)
    requires call.start <= call.cursor < |log|
    ensures Relabel(log[call.start..call.cursor + 1], call.up, call.sub)
         == Relabel(log[call.start..call.cursor], call.up, call.sub)
          + Written(Received(log[call.cursor], true, true), call.up, call.sub)
  {
    assert log[call.start..call.cursor + 1] == log[call.start..call.cursor] + [log[call.cursor]];
    RelabelAppend(log[call.start..call.cursor], log[call.cursor], call.up, call.sub);
  }

  lemma RelabelOver(log: seq<Notification>, call: Call, to: nat)
    requires call.start <= call.cursor <= to <= |log|
    ensures Relabel(log[call.start..to], call.up, call.sub)
         == Relabel(log[call.start..call.cursor], call.up, call.sub) + Relabel(log[call.cursor..to], call.up, call.sub)
  {
    assert log[call.start..to] == log[call.start..call.cursor] + log[call.cursor..to];
    RelabelConcat(log[call.start..call.cursor], log[call.cursor..to], call.up, call.sub);
  }

  /** A longer log changes nothing for a call, when the new message does not precede its REQ. */
  lemma BroadcastKeeps(log: seq<Notification>, call: Call, n: Notification)
    requires CallOk(log, call) && (call.phase.Registered? ==> Tag(n) != Some(call.up))
    ensures CallOk(log + [n], call)
  {
    assert CursorOk(log + [n], call);
    assert HitsOk(log + [n], call) by { HitsLonger(log, call, n); }
    assert (log + [n])[call.start..call.cursor] == log[call.start..call.cursor];
  }

  lemma HitsLonger(log: seq<Notification>, call: Call, n: Notification)
    requires CursorOk(log, call) && HitsOk(log, call) && CursorOk(log + [n], call)
    ensures HitsOk(log + [n], call)
  {
    assert forall i :: 0 <= i < |log| ==> (log + [n])[i] == log[i];
  }

  // ---------- all calls ----------

  lemma IdsKept(s: State, call: Call, a: CallAct)
    requires CallReady(s, call, a)
    ensures CallNext(s, call, a).up == call.up && CallNext(s, call, a).sub == call.sub
  {
  }

  lemma CallKept(s: State, call: Call, a: CallAct)
    requires CallReady(s, call, a) && CallOk(s.log, call) && s.base <= |s.log|
    ensures CallOk(s.log, CallNext(s, call, a))
  {
    var next := CallNext(s, call, a);
    assert LoopOk(next) by { LoopKept(s, call, a); }
    assert CursorOk(s.log, next) by { CursorKept(s, call, a); }
    assert HitsOk(s.log, next) by { HitsKept(s, call, a); }
    assert OutputOk(s.log, next) by { OutputKept(s, call, a); }
  }

  predicate DistinctUps(calls: seq<Call>) {
    forall c, d :: 0 <= c < d < |calls| ==> calls[c].up != calls[d].up
  }

  ghost predicate CallsOk(log: seq<Notification>, calls: seq<Call>) {
    DistinctUps(calls) && forall c :: 0 <= c < |calls| ==> CallOk(log, calls[c])
  }

  lemma CallsAfterSwap(log: seq<Notification>, calls: seq<Call>, c: nat, next: Call)
    requires CallsOk(log, calls) && c < |calls| && CallOk(log, next) && next.up == calls[c].up
    ensures CallsOk(log, calls[c := next])
  {
    var after := calls[c := next];
    assert DistinctUps(after) by { assert forall d :: 0 <= d < |calls| ==> after[d].up == calls[d].up; }
    forall d | 0 <= d < |after| ensures CallOk(log, after[d]) {
      if d != c {
        assert CallOk(log, calls[d]);
      }
    }
  }

  lemma CallsAfterBroadcast(s: State, n: Notification)
    requires CallsOk(s.log, s.calls) && Enabled(s, Broadcast(n))
    ensures CallsOk(s.log + [n], s.calls)
  {
    forall c | 0 <= c < |s.calls| ensures CallOk(s.log + [n], s.calls[c]) {
      BroadcastKeeps(s.log, s.calls[c], n);
    }
  }

  lemma DistinctAfterBegin(calls: seq<Call>, call: Call)
    requires DistinctUps(calls) && forall c :: 0 <= c < |calls| ==> calls[c].up != call.up
    ensures DistinctUps(calls + [call])
  {
    assert forall d :: 0 <= d < |calls| ==> (calls + [call])[d] == calls[d];
  }

  lemma CallsAfterBegin(s: State, call: Call)
    requires CallsOk(s.log, s.calls) && CallOk(s.log, call)
    requires forall c :: 0 <= c < |s.calls| ==> s.calls[c].up != call.up
    ensures CallsOk(s.log, s.calls + [call])
  {
    var after := s.calls + [call];
    DistinctAfterBegin(s.calls, call);
    assert forall d :: 0 <= d < |s.calls| ==> after[d] == s.calls[d];
    assert after[|s.calls|] == call;
  }

  lemma CallsStep(s: State, e: Event)
    requires Inv(s) && Enabled(s, e)
    ensures CallsOk(Apply(s, e).log, Apply(s, e).calls)
    ensures Apply(s, e).base == Oldest(|Apply(s, e).log|, Apply(s, e).capacity)
  {
    assert CallsOk(s.log, s.calls);
    match e
    case ByCall(c, a) =>
      CallKept(s, s.calls[c], a);
      IdsKept(s, s.calls[c], a);
      CallsAfterSwap(s.log, s.calls, c, CallNext(s, s.calls[c], a));
    case Broadcast(n) => CallsAfterBroadcast(s, n);
    case Begin(sub, _, up) =>
      NewCallOk(s.log, Apply(s, e).calls[|s.calls|]);
      CallsAfterBegin(s, Apply(s, e).calls[|s.calls|]);
    case _ =>
  }

  lemma NewCallOk(log: seq<Notification>, call: Call)
    requires call == Call(call.sub, call.filters, call.up, |log|, |log|, Registered, true, [], {}, [], [], [], 0, false)
    requires forall i :: 0 <= i < |log| ==> Tag(log[i]) != Some(call.up)
    ensures CallOk(log, call)
  {
  }

  /** Life cycle of one call: opened by `SubscribeOk`, closed by `Unsubscribe`, by nothing else. */
  lemma LifeStep(s: State, call: Call, a: CallAct)
    requires CallReady(s, call, a) && LoopOk(call)
    ensures var next := CallNext(s, call, a);
      && next.up == call.up
      && Live(next) == (a.SubscribeOk? || (Live(call) && !a.Unsubscribe?))
      && next.unsubscribes == call.unsubscribes + (if a.Unsubscribe? then 1 else 0)
      && (a.Unsubscribe? ==> call.unsubscribes == 0)
  {
  }

  lemma UpsKept(calls: seq<Call>, c: nat, next: Call)
    requires c < |calls| && next.up == calls[c].up
    ensures Ups(calls[c := next]) == Ups(calls)
  {
    var calls' := calls[c := next];
    assert forall d :: 0 <= d < |calls| ==> calls'[d].up == calls[d].up;
  }

  /** A call whose life does not change leaves the books as they are. */
  lemma OpenSame(s: State, c: nat, next: Call)
    requires OpenOk(s) && c < |s.calls| && next.up == s.calls[c].up
    requires Live(next) == Live(s.calls[c]) && next.unsubscribes == s.calls[c].unsubscribes
    ensures OpenOk(s.(calls := s.calls[c := next]))
  {
    UpsKept(s.calls, c, next);
  }

  lemma OpenOpened(s: State, c: nat, next: Call)
    requires OpenOk(s) && DistinctUps(s.calls) && c < |s.calls| && next.up == s.calls[c].up
    requires Live(next) && next.unsubscribes == s.calls[c].unsubscribes
    ensures OpenOk(s.(calls := s.calls[c := next], open := s.open + {next.up}))
  {
    UpsKept(s.calls, c, next);
  }

  lemma OpenClosed(s: State, c: nat, next: Call)
    requires OpenOk(s) && DistinctUps(s.calls) && c < |s.calls| && next.up == s.calls[c].up
    requires !Live(next) && s.calls[c].unsubscribes == 0 && next.unsubscribes == 1
    ensures OpenOk(s.(
      calls := s.calls[c := next],
      open := s.open - {next.up},
      unsubscribed := s.unsubscribed + [next.up]))
  {
    UpsKept(s.calls, c, next);
    assert next.up !in s.unsubscribed;
  }

  lemma OpenByCall(s: State, c: nat, a: CallAct)
    requires OpenOk(s) && DistinctUps(s.calls) && Enabled(s, ByCall(c, a)) && LoopOk(s.calls[c])
    ensures OpenOk(Apply(s, ByCall(c, a)))
  {
    var call := s.calls[c];
    LifeStep(s, call, a);
    match a
    case SubscribeOk => OpenOpened(s, c, CallNext(s, call, a));
    case Unsubscribe => OpenClosed(s, c, CallNext(s, call, a));
    case _ => OpenSame(s, c, CallNext(s, call, a));
  }

  lemma OpenBegin(s: State, call: Call)
    requires OpenOk(s) && call.phase.Registered? && call.unsubscribes == 0
    requires forall c :: 0 <= c < |s.calls| ==> s.calls[c].up != call.up
    ensures OpenOk(s.(calls := s.calls + [call]))
  {
    var calls := s.calls + [call];
    assert call.up !in Ups(s.calls);
    assert Ups(calls) == Ups(s.calls) + {call.up} by {
      assert forall d :: 0 <= d < |s.calls| ==> calls[d] == s.calls[d];
      assert calls[|s.calls|] == call;
    }
  }

  lemma OpenStep(s: State, e: Event)
    requires Inv(s) && Enabled(s, e)
    ensures OpenOk(Apply(s, e))
  {
    match e
    case ByCall(c, a) =>
      assert CallOk(s.log, s.calls[c]);
      OpenByCall(s, c, a);
    case Begin(_, _, _) => OpenBegin(s, Apply(s, e).calls[|s.calls|]);
    case _ =>
      var s' := Apply(s, e);
      assert s'.calls == s.calls && s'.open == s.open && s'.unsubscribed == s.unsubscribed;
  }

  lemma InvStep(s: State, e: Event)
    requires Inv(s) && Enabled(s, e)
    ensures Inv(Apply(s, e))
  {
    CallsStep(s, e);
    OpenStep(s, e);
  }
}
