/**
 * Nothing stands in the way of delivery: from every reachable state the parts
 * of the pipeline alone can bring the client all that upstream has sent to a
 * subscription, unless a signal, a loss or an end has come in between.
 */
module PipelineProgress {
  import opened Wire
  import opened Pipeline
  import opened PipelineTheorems
  import C = Connection
  import CS = ConnectionSafety
  import CC = ConnectionClose
  import P = Proxy
  import PS = ProxySafety

  // ---------- the steps of the parts ----------

  /** The proxy's loop reads and writes, chunks cross, the task forwards them, the writer hands them over. */
  predicate Carries(e: Event) {
    match e
    case OnProxy(ByCall(_, Recv)) => true
    case OnProxy(ByCall(_, WriteDone(accepted))) => accepted
    case Establish(_, _) => true
    case Hop(_) => true
    case OnConn(ByTask(_, Take)) => true
    case OnConn(ByTask(_, Send)) => true
    case OnConn(ByWriter(Receive)) => true
    case OnConn(ByWriter(SinkAccepts)) => true
    case _ => false
  }

  /** The last chunk is the CLOSED after which a call writes no more. */
  predicate EndsClosed(chunks: seq<Json>) { |chunks| > 0 && IsClosed(chunks[|chunks| - 1]) }

  /** The call is in its loop with a live sink and has not fallen behind, or it ended with a CLOSED. */
  predicate CallReady(p: P.State, c: nat) {
    && c < |p.calls|
    && var call := p.calls[c];
      || ((call.phase.Looping? || call.phase.Writing?) && call.active
          && call.cursor <= |p.log| && |p.log| - call.cursor <= p.capacity)
      || (call.phase.Unwinding? && EndsClosed(P.Out(call)))
  }

  /** The task is setting up or in its loop with nothing but chunks to read, and the writer runs. */
  predicate TaskReady(a: C.State, t: nat) {
    && t < |a.tasks| && (a.writer.Receiving? || a.writer.Writing?)
    && var task := a.tasks[t];
      && (task.phase.Setup? || task.phase.Streaming? || (task.phase.Sending? && !task.phase.last))
      && (forall i :: task.taken <= i < |task.arrived| ==> task.arrived[i].Chunk?)
  }

  // ---------- the proxy's side ----------

  function Behind(p: P.State, c: nat): nat
    requires c < |p.calls|
  {
    if p.calls[c].cursor <= |p.log| then |p.log| - p.calls[c].cursor else 0
  }

  function InWrite(p: P.State, c: nat): nat
    requires c < |p.calls|
  {
    if p.calls[c].phase.Writing? then 1 else 0
  }

  lemma CallReceives(p: P.State, c: nat)
    requires P.Inv(p) && CallReady(p, c) && p.calls[c].phase.Looping? && p.calls[c].cursor < |p.log|
    ensures var e := P.ByCall(c, P.Recv);
      P.Enabled(p, e) && CallReady(P.Apply(p, e), c) && Behind(P.Apply(p, e), c) < Behind(p, c)
  {
  }

  /** A write that goes through: the loop goes on, or what was written was the CLOSED. */
  lemma WriteGoesThrough(p: P.State, call: P.Call)
    requires P.LoopOk(call) && call.phase.Writing? && call.active
    ensures var next := P.CallNext(p, call, P.WriteDone(true));
      && next.cursor == call.cursor && next.active
      && (next.phase.Looping? || (next.phase.Unwinding? && EndsClosed(P.Out(next))))
  {
    P.MapIsRelabelling(call.phase.n, call.up, call.sub);
    var next := P.CallNext(p, call, P.WriteDone(true));
    assert P.Out(next)[|P.Out(next)| - 1] == call.phase.fwd.chunk;
  }

  lemma WriteStep(p: P.State, c: nat)
    requires CallReady(p, c) && p.calls[c].phase.Writing?
    requires var call := p.calls[c]; var next := P.CallNext(p, call, P.WriteDone(true));
      && next.cursor == call.cursor && next.active
      && (next.phase.Looping? || (next.phase.Unwinding? && EndsClosed(P.Out(next))))
    ensures var e := P.ByCall(c, P.WriteDone(true)); var p' := P.Apply(p, e);
      P.Enabled(p, e) && CallReady(p', c) && Behind(p', c) == Behind(p, c) && InWrite(p', c) < InWrite(p, c)
  {
  }

  lemma CallWrites(p: P.State, c: nat)
    requires P.Inv(p) && CallReady(p, c) && p.calls[c].phase.Writing?
    ensures var e := P.ByCall(c, P.WriteDone(true)); var p' := P.Apply(p, e);
      P.Enabled(p, e) && CallReady(p', c) && Behind(p', c) == Behind(p, c) && InWrite(p', c) < InWrite(p, c)
  {
    WriteStep(p, c) by {
      assert P.CallOk(p.log, p.calls[c]);
      WriteGoesThrough(p, p.calls[c]);
    }
  }

  // ---------- the connection's side ----------

  function Unread(task: C.SubTask): nat {
    if task.taken <= |task.arrived| then |task.arrived| - task.taken else 0
  }

  function InSetup(task: C.SubTask): nat { if task.phase.Setup? then 1 else 0 }

  /** Chunks to read count two, one to send counts one. */
  function ToForward(task: C.SubTask): nat { 2 * Unread(task) + if task.phase.Sending? then 1 else 0 }

  function ToWrite(a: C.State): nat { 2 * |a.queue| + if a.writer.Writing? then 1 else 0 }

  lemma TaskForwards(a: C.State, t: nat, act: C.TaskAct)
    requires C.Inv(a) && TaskReady(a, t) && !a.tasks[t].phase.Setup? && ToForward(a.tasks[t]) > 0
    requires act == if a.tasks[t].phase.Sending? then C.Send else C.Take
    requires act.Send? ==> |a.queue| < C.OUTBOUND_BUF
    ensures C.Enabled(a, C.ByTask(t, act))
    ensures var b := C.Apply(a, C.ByTask(t, act));
      TaskReady(b, t) && !b.tasks[t].phase.Setup? && ToForward(b.tasks[t]) < ToForward(a.tasks[t])
  {
  }

  lemma WriterWrites(a: C.State, t: nat, act: C.WriterAct)
    requires TaskReady(a, t) && ToWrite(a) > 0 && act == if a.writer.Writing? then C.SinkAccepts else C.Receive
    ensures C.Enabled(a, C.ByWriter(act))
    ensures var b := C.Apply(a, C.ByWriter(act));
      TaskReady(b, t) && b.tasks == a.tasks && ToWrite(b) < ToWrite(a)
  {
  }

  lemma TaskEstablishes(a: C.State, t: nat, token: nat)
    requires C.Inv(a) && TaskReady(a, t) && a.tasks[t].phase.Setup?
    requires forall u :: 0 <= u < |a.tasks| && a.tasks[u].token.Some? ==> a.tasks[u].token.value < token
    ensures C.Enabled(a, C.ByTask(t, C.SetupOk(token)))
    ensures var b := C.Apply(a, C.ByTask(t, C.SetupOk(token))); TaskReady(b, t) && !b.tasks[t].phase.Setup?
  {
  }

  lemma TaskReceives(a: C.State, t: nat, chunk: Json)
    requires C.Inv(a) && TaskReady(a, t) && !a.tasks[t].phase.Setup?
    ensures var e := C.ByTask(t, C.Arrive(C.Chunk(chunk)));
      C.Enabled(a, e) && TaskReady(C.Apply(a, e), t) && !C.Apply(a, e).tasks[t].phase.Setup?
  {
    assert C.TaskOk(a.tasks[t], t);
  }

  // ---------- the whole way ----------

  ghost predicate Ready(s: State, t: nat, c: nat) {
    && Reachable(s) && t in s.callOf && s.callOf[t] == c
    && CallReady(s.proxy, c) && TaskReady(s.conn, t)
  }

  /** Everything the call has read is with the client, and it has read all there is or has closed. */
  ghost predicate Arrived(s: State, t: nat, c: nat) {
    && Ready(s, t, c)
    && Got(s, t) == P.Out(s.proxy.calls[c])
    && (s.proxy.calls[c].cursor == |s.proxy.log| || EndsClosed(P.Out(s.proxy.calls[c])))
  }

  /** What the parts do on the way leaves the log and the identity of the call alone. */
  ghost predicate SameLog(s: State, s': State, c: nat) {
    && s'.proxy.log == s.proxy.log && c < |s.proxy.calls| && c < |s'.proxy.calls|
    && var call, call' := s.proxy.calls[c], s'.proxy.calls[c];
      call'.up == call.up && call'.sub == call.sub && call'.start == call.start && call'.skipped == call.skipped
  }

  /** The parts alone can get from `s` to `end`. */
  ghost predicate Reaches(s: State, end: State) {
    exists es :: ValidRun(s, es) && Exec(s, es) == end && forall i :: 0 <= i < |es| ==> Carries(es[i])
  }

  lemma ReachStep(s: State, e: Event)
    requires Enabled(s, e) && Carries(e)
    ensures Reaches(s, Apply(s, e))
  {
    assert ValidRun(s, []) && Exec(s, []) == s;
    assert [e][..|[e]| - 1] == [];
    assert ValidRun(s, [e]);
    assert forall i :: 0 <= i < |[e]| ==> Carries([e][i]);
  }

  lemma CarryKeepsLog(s: State, e: Event, c: nat)
    requires Enabled(s, e) && Carries(e) && c < |s.proxy.calls|
    ensures SameLog(s, Apply(s, e), c)
  {
  }

  function ToCross(s: State, t: nat, c: nat): nat
    requires c < |s.proxy.calls| && t in s.crossed
  {
    if s.crossed[t] <= |P.Out(s.proxy.calls[c])| then |P.Out(s.proxy.calls[c])| - s.crossed[t] else 0
  }

  /** The call has made its chunks of all it can read. */
  predicate CallDone(p: P.State, c: nat)
    requires c < |p.calls|
  {
    !p.calls[c].phase.Writing? && (p.calls[c].phase.Looping? ==> p.calls[c].cursor >= |p.log|)
  }

  /** The task has the stream and all its call's chunks have crossed. */
  predicate AllCrossed(s: State, t: nat, c: nat)
    requires c < |s.proxy.calls| && t in s.crossed && t < |s.conn.tasks|
  {
    CallDone(s.proxy, c) && ToCross(s, t, c) == 0 && !s.conn.tasks[t].phase.Setup?
  }

  lemma AtTheEnd(s: State, t: nat, c: nat)
    requires Ready(s, t, c) && t in s.crossed && AllCrossed(s, t, c)
    requires ToForward(s.conn.tasks[t]) == 0 && ToWrite(s.conn) == 0
    ensures Arrived(s, t, c)
  {
    ReachableInv(s);
    assert LinkOk(s, t);
    assert C.TaskOk(s.conn.tasks[t], t);
    CS.ForwardedAll(s.conn, t);
    var out := P.Out(s.proxy.calls[c]);
    assert out[..s.crossed[t]] == out;
  }

  predicate Placed(s: State, t: nat, c: nat) { c < |s.proxy.calls| && t in s.crossed && t < |s.conn.tasks| }

  /** `b` is closer to the end than `a`, the proxy's side counting before the connection's. */
  predicate Nearer(a: State, b: State, t: nat, c: nat)
    requires Placed(a, t, c) && Placed(b, t, c)
  {
    || Behind(b.proxy, c) < Behind(a.proxy, c)
    || (Behind(b.proxy, c) == Behind(a.proxy, c)
        && (InWrite(b.proxy, c) < InWrite(a.proxy, c)
            || (InWrite(b.proxy, c) == InWrite(a.proxy, c)
                && (ToCross(b, t, c) < ToCross(a, t, c)
                    || (ToCross(b, t, c) == ToCross(a, t, c) && TaskNearer(a.conn, b.conn, t))))))
  }

  predicate TaskNearer(a: C.State, b: C.State, t: nat)
    requires t < |a.tasks| && t < |b.tasks|
  {
    || InSetup(b.tasks[t]) < InSetup(a.tasks[t])
    || (InSetup(b.tasks[t]) == InSetup(a.tasks[t])
        && (ToForward(b.tasks[t]) < ToForward(a.tasks[t])
            || (ToForward(b.tasks[t]) == ToForward(a.tasks[t]) && ToWrite(b) < ToWrite(a))))
  }

  predicate AtEnd(s: State, t: nat, c: nat)
    requires Placed(s, t, c)
  {
    AllCrossed(s, t, c) && ToForward(s.conn.tasks[t]) == 0 && ToWrite(s.conn) == 0
  }

  /** A step of the parts that keeps the way open and brings the end nearer. */
  ghost predicate Onward(s: State, e: Event, t: nat, c: nat)
    requires Placed(s, t, c)
  {
    && Enabled(s, e) && Carries(e)
    && CallReady(Apply(s, e).proxy, c) && TaskReady(Apply(s, e).conn, t)
    && Placed(Apply(s, e), t, c) && Nearer(s, Apply(s, e), t, c)
  }

  lemma CallOnward(s: State, a: P.CallAct, t: nat, c: nat)
    requires Placed(s, t, c) && TaskReady(s.conn, t) && P.Enabled(s.proxy, P.ByCall(c, a))
    requires a == P.Recv || a == P.WriteDone(true)
    requires var p' := P.Apply(s.proxy, P.ByCall(c, a));
      && CallReady(p', c)
      && (Behind(p', c) < Behind(s.proxy, c)
          || (Behind(p', c) == Behind(s.proxy, c) && InWrite(p', c) < InWrite(s.proxy, c)))
    ensures Onward(s, OnProxy(P.ByCall(c, a)), t, c)
  {
  }

  /** The call's next step on the way. */
  lemma CallStep(s: State, t: nat, c: nat) returns (e: Event)
    requires Ready(s, t, c) && Placed(s, t, c) && !CallDone(s.proxy, c)
    ensures Onward(s, e, t, c)
  {
    var a := if s.proxy.calls[c].phase.Writing? then P.WriteDone(true) else P.Recv;
    e := OnProxy(P.ByCall(c, a));
    CallOnward(s, a, t, c) by {
      ReachableInv(s);
      if s.proxy.calls[c].phase.Writing? {
        CallWrites(s.proxy, c);
      } else {
        CallReceives(s.proxy, c);
      }
    }
  }

  lemma EstablishOnward(s: State, token: nat, t: nat, c: nat)
    requires Placed(s, t, c) && CallReady(s.proxy, c) && C.Enabled(s.conn, C.ByTask(t, C.SetupOk(token)))
    requires TaskReady(C.Apply(s.conn, C.ByTask(t, C.SetupOk(token))), t)
    ensures Onward(s, Establish(t, token), t, c)
  {
  }

  lemma EstablishStep(s: State, t: nat, c: nat) returns (e: Event)
    requires Ready(s, t, c) && Placed(s, t, c) && s.conn.tasks[t].phase.Setup?
    ensures Onward(s, e, t, c)
  {
    var token := CC.FreshToken(s.conn.tasks);
    e := Establish(t, token);
    EstablishOnward(s, token, t, c) by {
      ReachableInv(s);
      TaskEstablishes(s.conn, t, token);
    }
  }

  lemma HopOnward(s: State, t: nat, c: nat)
    requires Placed(s, t, c) && CallReady(s.proxy, c) && t in s.callOf && s.callOf[t] == c && ToCross(s, t, c) > 0
    requires var arrive := C.ByTask(t, C.Arrive(C.Chunk(P.Out(s.proxy.calls[c])[s.crossed[t]])));
      && C.Enabled(s.conn, arrive) && TaskReady(C.Apply(s.conn, arrive), t)
      && InSetup(C.Apply(s.conn, arrive).tasks[t]) == InSetup(s.conn.tasks[t])
    ensures Onward(s, Hop(t), t, c)
  {
  }

  lemma HopStep(s: State, t: nat, c: nat) returns (e: Event)
    requires Ready(s, t, c) && Placed(s, t, c) && !s.conn.tasks[t].phase.Setup? && ToCross(s, t, c) > 0
    ensures Onward(s, e, t, c)
  {
    e := Hop(t);
    HopOnward(s, t, c) by {
      ReachableInv(s);
      TaskReceives(s.conn, t, P.Out(s.proxy.calls[c])[s.crossed[t]]);
    }
  }

  lemma ConnOnward(s: State, ce: C.Event, t: nat, c: nat)
    requires Placed(s, t, c) && CallReady(s.proxy, c) && Carries(OnConn(ce)) && C.Enabled(s.conn, ce)
    requires TaskReady(C.Apply(s.conn, ce), t) && TaskNearer(s.conn, C.Apply(s.conn, ce), t)
    ensures Onward(s, OnConn(ce), t, c)
  {
  }

  /** The task forwards, or the writer makes room and hands over. */
  lemma ForwardStep(s: State, t: nat, c: nat) returns (e: Event)
    requires Ready(s, t, c) && Placed(s, t, c) && AllCrossed(s, t, c)
    requires ToForward(s.conn.tasks[t]) > 0 || ToWrite(s.conn) > 0
    ensures Onward(s, e, t, c)
  {
    var task := s.conn.tasks[t];
    if ToForward(task) > 0 && (task.phase.Sending? ==> |s.conn.queue| < C.OUTBOUND_BUF) {
      var act := if task.phase.Sending? then C.Send else C.Take;
      e := OnConn(C.ByTask(t, act));
      ConnOnward(s, C.ByTask(t, act), t, c) by {
        ReachableInv(s);
        TaskForwards(s.conn, t, act);
      }
    } else {
      var act := if s.conn.writer.Writing? then C.SinkAccepts else C.Receive;
      e := OnConn(C.ByWriter(act));
      ConnOnward(s, C.ByWriter(act), t, c) by { WriterWrites(s.conn, t, act); }
    }
  }

  lemma SomeStep(s: State, t: nat, c: nat) returns (e: Event)
    requires Ready(s, t, c) && Placed(s, t, c) && !AtEnd(s, t, c)
    ensures Onward(s, e, t, c)
  {
    if !CallDone(s.proxy, c) {
      e := CallStep(s, t, c);
    } else if s.conn.tasks[t].phase.Setup? {
      e := EstablishStep(s, t, c);
    } else if ToCross(s, t, c) > 0 {
      e := HopStep(s, t, c);
    } else {
      e := ForwardStep(s, t, c);
    }
  }

  lemma NextStep(s: State, t: nat, c: nat) returns (next: State)
    requires Ready(s, t, c) && Placed(s, t, c) && !AtEnd(s, t, c)
    ensures Reaches(s, next) && SameLog(s, next, c)
    ensures Ready(next, t, c) && Placed(next, t, c) && Nearer(s, next, t, c)
  {
    var e := SomeStep(s, t, c);
    next := Apply(s, e);
    CarryKeepsLog(s, e, c);
    ReachStep(s, e);
    ReachableStep(s, e);
    CarryKeepsCall(s, e, t);
  }

  lemma ReachableStep(s: State, e: Event)
    requires Reachable(s) && Enabled(s, e)
    ensures Reachable(Apply(s, e))
  {
    var capacity, es :| ValidRun(Initial(capacity), es) && s == Exec(Initial(capacity), es);
    assert (es + [e])[..|es + [e]| - 1] == es;
    assert ValidRun(Initial(capacity), es + [e]) && Exec(Initial(capacity), es + [e]) == Apply(s, e);
  }

  lemma CarryKeepsCall(s: State, e: Event, t: nat)
    requires Enabled(s, e) && Carries(e)
    ensures Apply(s, e).callOf == s.callOf
  {
  }

  lemma ReachSelf(s: State)
    ensures Reaches(s, s)
  {
    assert ValidRun(s, []) && Exec(s, []) == s;
  }

  lemma {:induction false} RunsCompose(s: State, es: seq<Event>, fs: seq<Event>)
    requires ValidRun(s, es) && ValidRun(Exec(s, es), fs)
    ensures ValidRun(s, es + fs) && Exec(s, es + fs) == Exec(Exec(s, es), fs)
    decreases |fs|
  {
    if fs == [] {
      assert es + fs == es;
    } else {
      RunsCompose(s, es, fs[..|fs| - 1]);
      assert (es + fs)[..|es + fs| - 1] == es + fs[..|fs| - 1];
    }
  }

  lemma ReachOn(a: State, b: State, end: State)
    requires Reaches(a, b) && Reaches(b, end)
    ensures Reaches(a, end)
  {
    var es :| ValidRun(a, es) && Exec(a, es) == b && forall i :: 0 <= i < |es| ==> Carries(es[i]);
    var fs :| ValidRun(b, fs) && Exec(b, fs) == end && forall i :: 0 <= i < |fs| ==> Carries(fs[i]);
    RunsCompose(a, es, fs);
  }

  lemma {:induction false} Carry(s: State, t: nat, c: nat) returns (end: State)
    requires Ready(s, t, c) && Placed(s, t, c)
    ensures Reaches(s, end) && Ready(end, t, c) && Placed(end, t, c) && AtEnd(end, t, c) && SameLog(s, end, c)
    decreases Behind(s.proxy, c), InWrite(s.proxy, c), ToCross(s, t, c), InSetup(s.conn.tasks[t]),
              ToForward(s.conn.tasks[t]), ToWrite(s.conn)
  {
    if AtEnd(s, t, c) {
      end := s;
      ReachSelf(s);
    } else {
      var next := NextStep(s, t, c);
      end := Carry(next, t, c);
      ReachOn(s, next, end);
    }
  }

  /**
   * All that was sent can arrive. Take any reachable state in which a served
   * subscription is running: its call in its loop, sink alive, not behind by
   * more than the channel holds; its task setting up or in its loop with no end
   * of stream to read; the connection's writer running. Then the parts alone,
   * without anything new from the client or from upstream, can get to a state in
   * which the client has every chunk the call made of the log, and that is the
   * whole log so far, relabelled from the call's start if it never lagged,
   * unless a CLOSED ended it, which is then the last chunk the client has.
   */
  lemma AllCanArrive(s: State, t: nat)
    requires Reachable(s) && t in s.callOf && t < |s.conn.tasks| && s.callOf[t] < |s.proxy.calls|
    requires var call := s.proxy.calls[s.callOf[t]];
      (call.phase.Looping? || call.phase.Writing?) && call.active && |s.proxy.log| - call.cursor <= s.proxy.capacity
    requires var task := s.conn.tasks[t];
      && (task.phase.Setup? || task.phase.Streaming? || (task.phase.Sending? && !task.phase.last))
      && (forall i :: task.taken <= i < |task.arrived| ==> task.arrived[i].Chunk?)
    requires s.conn.writer.Receiving? || s.conn.writer.Writing?
    ensures exists es: seq<Event> ::
      && ValidRun(s, es) && (forall i :: 0 <= i < |es| ==> Carries(es[i]))
      && Complete(s, Exec(s, es), t)
  {
    ReachableInv(s);
    var c := s.callOf[t];
    assert LinkOk(s, t);
    assert P.CallOk(s.proxy.log, s.proxy.calls[c]);
    var end := Carry(s, t, c);
    AtTheEnd(end, t, c);
    ArrivedIsComplete(s, end, t, c);
  }

  /** In `s'` the client has, of the log of `s`, all that was for task `t`. */
  ghost predicate Complete(s: State, s': State, t: nat) {
    && t in s.callOf && t in s'.callOf && s'.callOf[t] == s.callOf[t] < |s'.proxy.calls|
    && s'.proxy.log == s.proxy.log
    && var call := s'.proxy.calls[s'.callOf[t]];
      && call.start <= call.cursor <= |s.proxy.log|
      && (call.skipped == {} ==> Got(s', t) == P.Relabel(s.proxy.log[call.start..call.cursor], call.up, call.sub))
      && (call.cursor == |s.proxy.log| || (Got(s', t) != [] && IsClosed(Got(s', t)[|Got(s', t)| - 1])))
      && |Got(s', t)| == |call.hits|
  }

  lemma ArrivedIsComplete(s: State, s': State, t: nat, c: nat)
    requires t in s.callOf && s.callOf[t] == c && Arrived(s', t, c) && SameLog(s, s', c)
    ensures Complete(s, s', t)
  {
    ReachableInv(s');
    assert P.CallOk(s'.proxy.log, s'.proxy.calls[c]);
  }
}
