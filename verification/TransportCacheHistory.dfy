/** The transport cache against its run: who asked for what, in which order, and what each got. */
module TransportCacheHistory {
  import opened Lru
  import opened TransportCache
  import opened TransportCacheSafety

  // ---------- the reference: the events of the run ----------

  /** One call of `get`: the identity asked for and the relays resolved for it. */
  datatype Ask = Ask(key: string, relays: seq<string>)

  function Asks(es: seq<Event>): seq<Ask> {
    if es == [] then [] else
      Asks(es[..|es| - 1]) + (match es[|es| - 1] case Enter(key, relays) => [Ask(key, relays)] case _ => [])
  }

  /** The identities looked up, in the order of the lookups. */
  function LookedUp(es: seq<Event>): seq<string> {
    if es == [] then [] else
      var init := es[..|es| - 1];
      LookedUp(init)
      + (match es[|es| - 1] case By(c, Lookup) => if c < |Asks(init)| then [Asks(init)[c].key] else [] case _ => [])
  }

  lemma ReferenceSnoc(es: seq<Event>, e: Event)
    ensures Asks(es + [e]) == Asks(es) + (if e.Enter? then [Ask(e.key, e.relays)] else [])
    ensures LookedUp(es + [e])
         == LookedUp(es) + (if e.By? && e.act.Lookup? && e.c < |Asks(es)| then [Asks(es)[e.c].key] else [])
  {
    assert (es + [e])[..|es|] == es;
  }

  /** The callers are those that asked, and the history is their lookups. */
  ghost predicate Follows(s: State, cap: nat, es: seq<Event>) {
    && s.cap == cap && s.history == LookedUp(es)
    && |s.callers| == |Asks(es)|
    && (forall c :: 0 <= c < |s.callers| ==> Ask(s.callers[c].key, s.callers[c].relays) == Asks(es)[c])
  }

  lemma KeysKept(s: State, c: nat, a: Act)
    requires Enabled(s, By(c, a))
    ensures var s' := Apply(s, By(c, a));
      && s'.cap == s.cap && |s'.callers| == |s.callers|
      && s'.history == s.history + (if a.Lookup? then [s.callers[c].key] else [])
      && forall d :: 0 <= d < |s.callers| ==>
           s'.callers[d].key == s.callers[d].key && s'.callers[d].relays == s.callers[d].relays
  {
  }

  lemma FollowsStep(s: State, cap: nat, es: seq<Event>, e: Event)
    requires Follows(s, cap, es) && Enabled(s, e)
    ensures Follows(Apply(s, e), cap, es + [e])
  {
    ReferenceSnoc(es, e);
    if e.By? {
      KeysKept(s, e.c, e.act);
    }
  }

  /** Caller `c` stands where its own events put it. */
  ghost predicate CallerGiven(caller: Caller, es: seq<Event>, c: nat) {
    && (caller.phase.Entered? <==> By(c, Lookup) !in es && By(c, Abandon) !in es)
    && (caller.phase.Got? <==> By(c, BuildOk) in es || By(c, Share) in es)
    && (caller.phase.Failed? <==> By(c, BuildErr) in es)
    && (caller.phase.Gone? <==> By(c, Abandon) in es)
    && (caller.phase.Building? ==> By(c, StartBuild) in es)
    && (forall i :: 0 <= i < |es| && es[i] == By(c, Lookup) ==> caller.access == |LookedUp(es[..i])|)
  }

  predicate NotYet(es: seq<Event>, callers: nat) { forall i :: 0 <= i < |es| && es[i].By? ==> es[i].c < callers }

  ghost predicate AllGiven(s: State, es: seq<Event>) {
    NotYet(es, |s.callers|) && forall c :: 0 <= c < |s.callers| ==> CallerGiven(s.callers[c], es, c)
  }

  lemma AccessSnoc(caller: Caller, es: seq<Event>, e: Event, c: nat)
    requires forall i :: 0 <= i < |es| && es[i] == By(c, Lookup) ==> caller.access == |LookedUp(es[..i])|
    requires e == By(c, Lookup) ==> caller.access == |LookedUp(es)|
    ensures forall i :: 0 <= i < |es + [e]| && (es + [e])[i] == By(c, Lookup) ==>
      caller.access == |LookedUp((es + [e])[..i])|
  {
    forall i | 0 <= i < |es + [e]| ensures (es + [e])[..i] == es[..i] {
    }
    assert es[..|es|] == es;
  }

  /** What a step makes of its own caller. */
  function After(s: State, caller: Caller, c: nat, a: Act): (next: Caller)
    requires CanDo(s, caller, a)
    ensures next.phase.Entered? ==> false
  {
    match a
    case Lookup =>
      caller.(access := |s.history|, phase := Holding(CellFor(s.entries, caller.key, |s.history|)))
    case StartBuild => caller.(phase := Building(caller.phase.cell))
    case BuildOk => caller.(phase := Got(caller.phase.cell, Transport(caller.key, caller.relays, c)))
    case BuildErr => caller.(phase := Failed(caller.phase.cell))
    case Share => caller.(phase := Got(caller.phase.cell, s.cells[caller.phase.cell].state.transport))
    case Abandon => caller.(phase := Gone)
  }

  lemma StepOfCallers(s: State, c: nat, a: Act, d: nat)
    requires Enabled(s, By(c, a)) && d < |s.callers|
    ensures |Apply(s, By(c, a)).callers| == |s.callers|
    ensures Apply(s, By(c, a)).callers[d] == if d == c then After(s, s.callers[c], c, a) else s.callers[d]
  {
  }

  lemma OwnStep(s: State, caller: Caller, es: seq<Event>, c: nat, a: Act)
    requires CanDo(s, caller, a) && CallerGiven(caller, es, c) && s.history == LookedUp(es)
    ensures CallerGiven(After(s, caller, c, a), es + [By(c, a)], c)
  {
    assert a.Lookup? ==> By(c, Lookup) !in es;
    AccessSnoc(After(s, caller, c, a), es, By(c, a), c);
  }

  lemma OthersStep(caller: Caller, es: seq<Event>, c: nat, e: Event)
    requires CallerGiven(caller, es, c) && !(e.By? && e.c == c)
    ensures CallerGiven(caller, es + [e], c)
  {
    AccessSnoc(caller, es, e, c);
  }

  lemma FreshCaller(caller: Caller, es: seq<Event>, c: nat, e: Event)
    requires NotYet(es, c) && e.Enter? && caller.phase.Entered?
    ensures CallerGiven(caller, es + [e], c)
  {
    assert forall a :: By(c, a) !in es;
  }

  lemma AllGivenStep(s: State, es: seq<Event>, e: Event)
    requires AllGiven(s, es) && s.history == LookedUp(es) && Enabled(s, e)
    ensures AllGiven(Apply(s, e), es + [e])
  {
    var s' := Apply(s, e);
    forall c | 0 <= c < |s'.callers| ensures CallerGiven(s'.callers[c], es + [e], c) {
      if e.Enter? {
        if c < |s.callers| {
          OthersStep(s.callers[c], es, c, e);
        } else {
          FreshCaller(s'.callers[c], es, c, e);
        }
      } else {
        StepOfCallers(s, e.c, e.act, c);
        if e.c == c {
          OwnStep(s, s.callers[c], es, c, e.act);
        } else {
          OthersStep(s.callers[c], es, c, e);
        }
      }
    }
  }

  lemma {:induction false} HistoryRun(cap: nat, es: seq<Event>)
    requires ValidRun(Initial(cap), es)
    ensures Follows(Exec(Initial(cap), es), cap, es) && AllGiven(Exec(Initial(cap), es), es)
  {
    if es != [] {
      var init, e := es[..|es| - 1], es[|es| - 1];
      HistoryRun(cap, init);
      assert es == init + [e];
      FollowsStep(Exec(Initial(cap), init), cap, init, e);
      AllGivenStep(Exec(Initial(cap), init), init, e);
    }
  }

  /**
   * Over every run: the callers are the calls of `get`, in order, with the
   * identity and relays of each; the access history is the identities of the
   * lookups, in lock order, each numbered by its place there. A caller that got
   * a transport got one for the identity it asked for, built by a caller that
   * asked for the same, with that caller's relays.
   */
  lemma CallersAreAsks(cap: nat, es: seq<Event>, c: nat)
    requires cap > 0 && ValidRun(Initial(cap), es) && c < |Exec(Initial(cap), es).callers|
    ensures var s := Exec(Initial(cap), es);
      && s.cap == cap && s.history == LookedUp(es) && |s.callers| == |Asks(es)|
      && s.callers[c].key == Asks(es)[c].key && s.callers[c].relays == Asks(es)[c].relays
      && (forall i :: 0 <= i < |es| && es[i] == By(c, Lookup) ==> s.callers[c].access == |LookedUp(es[..i])|)
      && (s.callers[c].phase.Got? <==> By(c, BuildOk) in es || By(c, Share) in es)
      && (s.callers[c].phase.Failed? <==> By(c, BuildErr) in es)
      && (s.callers[c].phase.Gone? <==> By(c, Abandon) in es)
    ensures var s := Exec(Initial(cap), es);
      s.callers[c].phase.Got? ==>
        var t := s.callers[c].phase.transport;
        && t.builder < |Asks(es)| && By(t.builder, BuildOk) in es
        && t.key == Asks(es)[c].key == Asks(es)[t.builder].key && t.relays == Asks(es)[t.builder].relays
  {
    HistoryRun(cap, es);
    BuiltRun(cap, es);
    InvRun(Initial(cap), es);
    var s := Exec(Initial(cap), es);
    assert CallerGiven(s.callers[c], es, c);
    if s.callers[c].phase.Got? {
      BuiltBy(s, cap, es, c);
    }
  }

  lemma BuiltBy(s: State, cap: nat, es: seq<Event>, c: nat)
    requires Inv(s) && Follows(s, cap, es) && Built(s, es) && c < |s.callers| && s.callers[c].phase.Got?
    ensures var t := s.callers[c].phase.transport;
      && t.builder < |Asks(es)| && By(t.builder, BuildOk) in es
      && t.key == Asks(es)[c].key == Asks(es)[t.builder].key && t.relays == Asks(es)[t.builder].relays
  {
    BuilderOf(s, c);
    assert CallerOk(s, c);
    assert s.cells[s.callers[c].phase.cell].made[0] == s.callers[c].phase.transport;
  }

  lemma BuilderOf(s: State, c: nat)
    requires Inv(s) && c < |s.callers| && s.callers[c].phase.Got?
    ensures var t := s.callers[c].phase.transport;
      && t.builder < |s.callers| && s.callers[t.builder].phase == s.callers[c].phase
      && t.key == s.callers[c].key == s.callers[t.builder].key && t.relays == s.callers[t.builder].relays
  {
    assert CallerOk(s, c);
    assert CellOk(s, s.callers[c].phase.cell);
  }

  /** The one a transport names as its builder built it. */
  ghost predicate Built(s: State, es: seq<Event>) {
    && (forall n :: n in s.cells ==>
          forall i :: 0 <= i < |s.cells[n].made| ==> By(s.cells[n].made[i].builder, BuildOk) in es)
  }

  lemma MadeStep(s: State, es: seq<Event>, e: Event, n: nat)
    requires Enabled(s, e) && n in s.cells && n in Step(s, e).cells && !(e.By? && e.act.Lookup?)
    ensures var was, now := s.cells[n].made, Step(s, e).cells[n].made;
      now == was || (e.By? && e.act.BuildOk? && |now| == |was| + 1 && now[..|was|] == was && now[|was|].builder == e.c)
  {
  }

  lemma BuiltCell(s: State, es: seq<Event>, e: Event, n: nat)
    requires Base(s) && Enabled(s, e) && Built(s, es) && n in Step(s, e).cells
    ensures forall i :: 0 <= i < |Step(s, e).cells[n].made| ==>
      By(Step(s, e).cells[n].made[i].builder, BuildOk) in es + [e]
  {
    if e.By? && e.act.Lookup? {
      LookupCell(s, e.c);
    } else {
      MadeStep(s, es, e, n);
      assert e in es + [e];
    }
  }

  lemma BuiltStep(s: State, es: seq<Event>, e: Event)
    requires Base(s) && Enabled(s, e) && Built(s, es)
    ensures Built(Apply(s, e), es + [e])
  {
    forall n | n in Step(s, e).cells
      ensures forall i :: 0 <= i < |Step(s, e).cells[n].made| ==>
        By(Step(s, e).cells[n].made[i].builder, BuildOk) in es + [e]
    {
      BuiltCell(s, es, e, n);
    }
  }

  lemma {:induction false} BuiltRun(cap: nat, es: seq<Event>)
    requires cap > 0 && ValidRun(Initial(cap), es)
    ensures Built(Exec(Initial(cap), es), es)
  {
    if es != [] {
      var init, e := es[..|es| - 1], es[|es| - 1];
      BuiltRun(cap, init);
      InvRun(Initial(cap), init);
      assert es == init + [e];
      BuiltStep(Exec(Initial(cap), init), init, e);
    }
  }

  // ---------- what a caller can do next ----------

  /** A caller's next steps follow from its phase and its cell; it can be dropped at any await. */
  lemma CallerOffers(s: State, c: nat, key: string, relays: seq<string>)
    requires Reachable(s) && c < |s.callers|
    ensures var caller := s.callers[c];
      && Enabled(s, Enter(key, relays))
      && (Enabled(s, By(c, Lookup)) <==> caller.phase.Entered?)
      && (Enabled(s, By(c, StartBuild)) <==>
            caller.phase.Holding? && caller.phase.cell in s.cells && s.cells[caller.phase.cell].state.Empty?)
      && (Enabled(s, By(c, Share)) <==>
            caller.phase.Holding? && caller.phase.cell in s.cells && s.cells[caller.phase.cell].state.Ready?)
      && (Enabled(s, By(c, BuildOk)) <==> caller.phase.Building?)
      && (Enabled(s, By(c, BuildErr)) <==> caller.phase.Building?)
      && (Enabled(s, By(c, Abandon)) <==> caller.phase.Entered? || caller.phase.Holding? || caller.phase.Building?)
  {
    if s.callers[c].phase.Building? {
      HeldCell(s, c);
    }
  }
}
