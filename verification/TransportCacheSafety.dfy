/** What the transport cache guarantees over every interleaving of its callers. */
module TransportCacheSafety {
  import opened Lru
  import opened TransportCache

  // ---------- one step ----------

  lemma TouchedEntry(es: seq<Entry>, cap: nat, k: string, made: nat, i: nat)
    requires i < |Touch(es, cap, k, made)|
    ensures var e := Touch(es, cap, k, made)[i];
      (e.key == k && e.cell == CellFor(es, k, made)) || (exists j :: 0 <= j < |es| && es[j] == e)
  {
    var next, f := Touch(es, cap, k, made), Find(es, k);
    if i > 0 {
      var j := if f == |es| || i <= f then i - 1 else i;
      assert next[i] == es[j];
    }
  }

  lemma CellAtStable(cap: nat, h: seq<string>, k: string, i: nat)
    requires i < |h|
    ensures CellAt(cap, h + [k], i) == CellAt(cap, h, i)
  {
    assert (h + [k])[..i] == h[..i];
  }

  lemma LookupCell(s: State, c: nat)
    requires Base(s) && c < |s.callers| && s.callers[c].phase.Entered?
    ensures var s' := DoLookup(s, c); var n := |s.history|;
      && s'.callers[c].phase.cell == CellAt(s.cap, s'.history, n)
      && s'.callers[c].phase.cell in s'.cells && s'.cells[s'.callers[c].phase.cell].key == s.callers[c].key
      && s'.entries == Replay(s.cap, s'.history) && n !in s.cells
      && (forall m :: m in s.cells ==> m in s'.cells && s'.cells[m] == s.cells[m])
      && (forall m :: m in s'.cells && m !in s.cells ==> m == n && s'.cells[m] == Cell(s.callers[c].key, Empty, []))
  {
    var h, k := s.history, s.callers[c].key;
    assert (h + [k])[..|h|] == h;
    forall m | m in s.cells ensures m < |h| {
      assert CellOk(s, m);
    }
  }

  lemma LookupEntries(s: State, c: nat)
    requires Base(s) && c < |s.callers| && s.callers[c].phase.Entered?
    ensures EntriesOk(DoLookup(s, c))
  {
    LookupCell(s, c);
    var s' := DoLookup(s, c);
    forall i | 0 <= i < |s'.entries|
      ensures s'.entries[i].cell in s'.cells && s'.cells[s'.entries[i].cell].key == s'.entries[i].key
    {
      TouchedEntry(s.entries, s.cap, s.callers[c].key, |s.history|, i);
    }
  }

  lemma LookupCaller(s: State, c: nat, d: nat)
    requires Base(s) && c < |s.callers| && s.callers[c].phase.Entered? && d < |s.callers|
    ensures CallerOk(DoLookup(s, c), d)
  {
    assert CallerOk(s, d);
    LookupCell(s, c);
    if d != c && HasCell(s.callers[d].phase) {
      CellAtStable(s.cap, s.history, s.callers[c].key, s.callers[d].access);
    }
  }

  lemma LookupOneCell(s: State, c: nat, n: nat)
    requires Base(s) && c < |s.callers| && s.callers[c].phase.Entered? && n in DoLookup(s, c).cells
    ensures CellOk(DoLookup(s, c), n)
  {
    LookupCell(s, c);
    if n in s.cells {
      assert CellOk(s, n);
    }
  }

  lemma LookupKeeps(s: State, c: nat)
    requires Base(s) && c < |s.callers| && s.callers[c].phase.Entered?
    ensures Base(DoLookup(s, c))
  {
    var s' := DoLookup(s, c);
    assert s'.entries == Replay(s'.cap, s'.history) by { LookupCell(s, c); }
    assert EntriesOk(s') by { LookupEntries(s, c); }
    forall d | 0 <= d < |s'.callers| ensures CallerOk(s', d) {
      LookupCaller(s, c, d);
    }
    forall n | n in s'.cells ensures CellOk(s', n) {
      LookupOneCell(s, c, n);
    }
  }

  lemma ActCaller(s: State, c: nat, a: Act, d: nat)
    requires Enabled(s, By(c, a)) && !a.Lookup? && CallerOk(s, c) && d < |s.callers| && CallerOk(s, d)
    requires forall n :: n in s.cells ==> CellOk(s, n)
    ensures CallerOk(Step(s, By(c, a)), d)
  {
    if HasCell(s.callers[d].phase) {
      assert CellOk(s, s.callers[d].phase.cell);
    }
  }

  lemma ActCell(s: State, c: nat, a: Act, n: nat)
    requires Enabled(s, By(c, a)) && !a.Lookup? && CallerOk(s, c) && n in s.cells && CellOk(s, n)
    ensures var s' := Step(s, By(c, a)); n in s'.cells && CellOk(s', n) && s'.cells[n].key == s.cells[n].key
  {
  }

  lemma ActKeeps(s: State, c: nat, a: Act)
    requires Base(s) && Enabled(s, By(c, a)) && !a.Lookup?
    ensures Base(Step(s, By(c, a)))
  {
    var s' := Step(s, By(c, a));
    assert CallerOk(s, c);
    assert s'.cells.Keys == s.cells.Keys && |s'.callers| == |s.callers| && s'.entries == s.entries;
    forall d | 0 <= d < |s'.callers| ensures CallerOk(s', d) {
      ActCaller(s, c, a, d);
    }
    forall n | n in s'.cells ensures CellOk(s', n) && s'.cells[n].key == s.cells[n].key {
      ActCell(s, c, a, n);
    }
  }

  lemma EnterKeeps(s: State, e: Event)
    requires Base(s) && e.Enter?
    ensures Base(Step(s, e))
  {
    var s' := Step(s, e);
    forall d | 0 <= d < |s'.callers| ensures CallerOk(s', d) {
      assert d < |s.callers| ==> CallerOk(s, d);
    }
    forall n | n in s'.cells ensures CellOk(s', n) {
      assert CellOk(s, n);
    }
  }

  lemma StepKeeps(s: State, e: Event)
    requires Base(s) && Enabled(s, e)
    ensures Base(Step(s, e))
  {
    match e
    case Enter(_, _) => EnterKeeps(s, e);
    case By(c, Lookup) => LookupKeeps(s, c);
    case By(c, a) => ActKeeps(s, c, a);
  }

  /** Dropping what nobody holds touches no caller, no entry and no cell in use. */
  lemma CollectKeeps(s: State)
    requires Base(s)
    ensures Base(Collect(s))
  {
    var s' := Collect(s);
    forall d | 0 <= d < |s'.callers| ensures CallerOk(s', d) {
      assert CallerOk(s, d);
      assert HasCell(s.callers[d].phase) && Holds(s.callers[d].phase, s.callers[d].phase.cell) ==>
          Live(s, s.callers[d].phase.cell);
    }
    forall n | n in s'.cells ensures CellOk(s', n) {
      assert CellOk(s, n);
    }
  }

  /** Nobody can find a cell that nobody holds. */
  lemma DeadStays(s: State, e: Event, n: nat)
    requires Base(s) && Enabled(s, e) && n in s.cells && !Live(s, n)
    ensures !Live(Step(s, e), n)
  {
    match e
    case By(c, Lookup) => LookupRevivesNone(s, c, n);
    case By(c, a) => assert !Holds(s.callers[c].phase, n);
    case _ =>
  }

  lemma LookupRevivesNone(s: State, c: nat, n: nat)
    requires Base(s) && c < |s.callers| && s.callers[c].phase.Entered? && n in s.cells && !Live(s, n)
    ensures !Live(DoLookup(s, c), n)
  {
    var k, made := s.callers[c].key, |s.history|;
    assert CellFor(s.entries, k, made) != n by { assert CellOk(s, n); }
    forall i | 0 <= i < |DoLookup(s, c).entries| ensures DoLookup(s, c).entries[i].cell != n {
      TouchedEntry(s.entries, s.cap, k, made, i);
    }
  }

  lemma CodeDropsNone(s: State, e: Event, n: nat)
    requires Base(s) && Enabled(s, e) && n in s.cells
    ensures n in Step(s, e).cells && (Step(s, e).cells[n].state.Dropped? ==> s.cells[n].state.Dropped?)
    ensures s.cells[n].made <= Step(s, e).cells[n].made
  {
    if e.By? && e.act.Lookup? {
      LookupCell(s, e.c);
    }
  }

  lemma NewCellsLive(s: State, e: Event, n: nat)
    requires Base(s) && Enabled(s, e) && n in Step(s, e).cells && n !in s.cells
    ensures Step(s, e).cells[n].state.Empty?
  {
    LookupCell(s, e.c);
  }

  /** Every step of every caller keeps the invariant. */
  lemma InvStep(s: State, e: Event)
    requires Inv(s) && Enabled(s, e)
    ensures Inv(Apply(s, e))
  {
    var raw := Step(s, e);
    StepKeeps(s, e);
    CollectKeeps(raw);
    forall n | n in raw.cells ensures raw.cells[n].state.Dropped? ==> !Live(raw, n) {
      if n in s.cells {
        CodeDropsNone(s, e, n);
        if !Live(s, n) {
          DeadStays(s, e, n);
        }
      } else {
        NewCellsLive(s, e, n);
      }
    }
    assert forall n :: Live(Collect(raw), n) == Live(raw, n);
  }

  // ---------- whole runs ----------

  lemma {:induction false} InvRun(s: State, es: seq<Event>)
    requires Inv(s) && ValidRun(s, es)
    ensures Inv(Exec(s, es))
  {
    if es != [] {
      InvRun(s, es[..|es| - 1]);
      InvStep(Exec(s, es[..|es| - 1]), es[|es| - 1]);
    }
  }

  ghost predicate Reachable(s: State) {
    exists cap, es :: cap > 0 && ValidRun(Initial(cap), es) && s == Exec(Initial(cap), es)
  }

  lemma ReachableInv(s: State)
    requires Reachable(s)
    ensures Inv(s)
  {
    var cap, es :| cap > 0 && ValidRun(Initial(cap), es) && s == Exec(Initial(cap), es);
    InvRun(Initial(cap), es);
  }

  /**
   * However the callers interleave and whichever builds fail, the cached
   * identities are those of the access history: accessed, with fewer than `cap`
   * others since, most recent first, each once, never more than `cap`.
   */
  lemma CachedAreMostRecent(s: State)
    requires Reachable(s)
    ensures |s.entries| <= s.cap
    ensures forall k :: k in Keys(s.entries) <==> k in s.history && |Since(s.history, k)| < s.cap
    ensures forall i :: 0 <= i < |s.entries| ==> |Since(s.history, s.entries[i].key)| == i
    ensures forall i, j :: 0 <= i < j < |s.entries| ==> s.entries[i].key != s.entries[j].key
  {
    ReachableInv(s);
    RefinesAccessHistory(s.cap, s.history);
  }

  /**
   * A cell has at most one build in flight and at most one successful build;
   * a transport handed to a caller was built for that caller's own identity,
   * with the relays of whichever caller's build succeeded; and two callers got
   * the same one exactly when they reached the same cell.
   */
  lemma OneBuildPerCell(s: State, c: nat, d: nat)
    requires Reachable(s) && c < |s.callers| && d < |s.callers|
    ensures c != d && s.callers[c].phase.Building? && s.callers[d].phase.Building? ==>
      s.callers[c].phase.cell != s.callers[d].phase.cell
    ensures forall n :: n in s.cells ==> |s.cells[n].made| <= 1
    ensures forall n :: n in s.cells && s.cells[n].state.Ready? ==> s.cells[n].made == [s.cells[n].state.transport]
    ensures s.callers[c].phase.Got? ==>
      var t := s.callers[c].phase.transport;
      t.key == s.callers[c].key && t.builder < |s.callers|
      && s.callers[t.builder].relays == t.relays && s.callers[t.builder].phase == s.callers[c].phase
    ensures s.callers[c].phase.Got? && s.callers[d].phase.Got? ==>
      (s.callers[c].phase.cell == s.callers[d].phase.cell
       <==> s.callers[c].phase.transport == s.callers[d].phase.transport)
  {
    ReachableInv(s);
    assert CallerOk(s, c) && CallerOk(s, d);
    forall n | n in s.cells
      ensures |s.cells[n].made| <= 1
      ensures s.cells[n].state.Ready? ==> s.cells[n].made == [s.cells[n].state.transport]
    {
      assert CellOk(s, n);
    }
    if s.callers[c].phase.Got? {
      assert CellOk(s, s.callers[c].phase.cell);
    }
    if s.callers[d].phase.Got? {
      assert CellOk(s, s.callers[d].phase.cell);
    }
  }

  /**
   * Two callers that got a transport for one identity share it if and only if
   * between their lookups the identity was never pushed out of the last `cap`.
   */
  lemma SharedIffNeverEvicted(s: State, c: nat, d: nat)
    requires Reachable(s) && c < |s.callers| && d < |s.callers|
    requires s.callers[c].phase.Got? && s.callers[d].phase.Got? && s.callers[c].key == s.callers[d].key
    requires s.callers[c].access < s.callers[d].access
    ensures s.callers[d].access < |s.history|
    ensures s.callers[c].phase.transport == s.callers[d].phase.transport
       <==> NeverEvicted(s.cap, s.history, s.callers[c].access, s.callers[d].access)
  {
    OneBuildPerCell(s, c, d);
    ReachableInv(s);
    assert CallerOk(s, c) && CallerOk(s, d);
    SameCellIff(s.cap, s.history, s.callers[c].access, s.callers[d].access);
  }

  // ---------- along a run ----------

  lemma DroppedStep(s: State, e: Event, n: nat)
    requires Inv(s) && Enabled(s, e) && n in s.cells && s.cells[n].state.Dropped?
    ensures n in Apply(s, e).cells && Apply(s, e).cells[n].state.Dropped?
  {
    DeadStays(s, e, n);
    CodeDropsNone(s, e, n);
  }

  lemma ReadyStep(s: State, e: Event, n: nat)
    requires Base(s) && Enabled(s, e) && n in s.cells && s.cells[n].state.Ready?
    ensures n in Step(s, e).cells && Step(s, e).cells[n] == s.cells[n]
  {
    assert CellOk(s, n);
    match e
    case By(c, a) =>
      assert CallerOk(s, c);
      if a.Lookup? {
        LookupCell(s, c);
      }
    case _ =>
  }

  lemma {:induction false} FateOfCell(s: State, es: seq<Event>, n: nat)
    requires Inv(s) && ValidRun(s, es) && n in s.cells && (s.cells[n].state.Ready? || s.cells[n].state.Dropped?)
    ensures var s' := Exec(s, es);
      && n in s'.cells && s'.cells[n].state == (if Live(s', n) then s.cells[n].state else Dropped)
      && (s.cells[n].state.Dropped? ==> !Live(s', n))
  {
    if es != [] {
      var init := es[..|es| - 1];
      FateOfCell(s, init, n);
      InvRun(s, init);
      var s1, e := Exec(s, init), es[|es| - 1];
      InvStep(s1, e);
      if s1.cells[n].state.Dropped? {
        DroppedStep(s1, e, n);
      } else {
        ReadyStep(s1, e, n);
      }
    }
  }

  /** A cell lives on in the cache and with the callers that wait for it or build it, with no one else. */
  lemma LiveIff(s: State, n: nat)
    ensures Live(s, n) <==>
      || (exists i :: 0 <= i < |s.entries| && s.entries[i].cell == n)
      || (exists c :: 0 <= c < |s.callers| && s.callers[c].phase in {Holding(n), Building(n)})
  {
    if c :| 0 <= c < |s.callers| && Holds(s.callers[c].phase, n) {
      assert s.callers[c].phase in {Holding(n), Building(n)};
    }
    if c :| 0 <= c < |s.callers| && s.callers[c].phase in {Holding(n), Building(n)} {
      assert Holds(s.callers[c].phase, n);
    }
  }

  /**
   * Whatever runs on, a built transport is up in its cell as long as the cache
   * or a caller inside `get` holds the cell, and torn down, for good, once none does.
   */
  lemma ReadyWhileLive(s: State, es: seq<Event>, n: nat)
    requires Inv(s) && ValidRun(s, es) && n in s.cells && (s.cells[n].state.Ready? || s.cells[n].state.Dropped?)
    ensures var s' := Exec(s, es);
      var held := (exists i :: 0 <= i < |s'.entries| && s'.entries[i].cell == n)
               || (exists c :: 0 <= c < |s'.callers| && s'.callers[c].phase in {Holding(n), Building(n)});
      && n in s'.cells && s'.cells[n].state == (if held then s.cells[n].state else Dropped)
      && (s.cells[n].state.Dropped? ==> !held)
  {
    FateOfCell(s, es, n);
    LiveIff(Exec(s, es), n);
  }

  /** Looked up again now, the identity of access `i` would be found where that access left it. */
  predicate StillCached(cap: nat, h: seq<string>, i: nat)
    requires i < |h|
  {
    NeverEvicted(cap, h + [h[i]], i, |h|)
  }

  lemma CachedByHistory(s: State, c: nat)
    requires Base(s) && c < |s.callers| && s.callers[c].phase.Got?
    ensures s.callers[c].access < |s.history|
    ensures Cached(s, s.callers[c].phase.cell) <==> StillCached(s.cap, s.history, s.callers[c].access)
  {
    assert CallerOk(s, c);
    var caller, h := s.callers[c], s.history;
    var k, n := caller.key, caller.phase.cell;
    assert n < |h| by { assert CellOk(s, n); }
    SameCellIff(s.cap, h + [k], caller.access, |h|);
    CellAtStable(s.cap, h, k, caller.access);
    assert (h + [k])[..|h|] == h;
    assert CellAt(s.cap, h + [k], |h|) == CellFor(s.entries, k, |h|);
    assert Cached(s, n) <==> CellFor(s.entries, k, |h|) == n by { EntryOfCell(s, k, n); }
  }

  lemma EntryOfCell(s: State, k: string, n: nat)
    requires Base(s) && n in s.cells && s.cells[n].key == k && n < |s.history|
    ensures Cached(s, n) <==> CellFor(s.entries, k, |s.history|) == n
  {
    RefinesAccessHistory(s.cap, s.history);
  }

  /**
   * The transport a caller was given is up if and only if its identity never
   * left the `cap` most recent ones since that lookup or some caller is still
   * inside `get` with its cell; else it was torn down, whoever has a peer of it.
   */
  lemma TransportUpIff(s: State, c: nat)
    requires Reachable(s) && c < |s.callers| && s.callers[c].phase.Got?
    ensures var caller := s.callers[c]; var n := caller.phase.cell;
      && caller.access < |s.history| && n in s.cells
      && var inside := exists d :: 0 <= d < |s.callers| && s.callers[d].phase in {Holding(n), Building(n)};
        s.cells[n].state == (if StillCached(s.cap, s.history, caller.access) || inside
                             then Ready(caller.phase.transport)
                             else Dropped)
  {
    ReachableInv(s);
    CachedByHistory(s, c);
    GotIsBuilt(s, c);
  }

  lemma GotIsBuilt(s: State, c: nat)
    requires Inv(s) && c < |s.callers| && s.callers[c].phase.Got?
    ensures var n := s.callers[c].phase.cell;
      n in s.cells && s.cells[n].state == if Live(s, n) then Ready(s.callers[c].phase.transport) else Dropped
  {
    assert CallerOk(s, c);
    assert CellOk(s, s.callers[c].phase.cell);
  }

  lemma HeldCell(s: State, c: nat)
    requires Reachable(s) && c < |s.callers| && (s.callers[c].phase.Holding? || s.callers[c].phase.Building?)
    ensures var n := s.callers[c].phase.cell; n in s.cells && CellOk(s, n) && !s.cells[n].state.Dropped?
  {
    ReachableInv(s);
    assert CallerOk(s, c);
    assert Holds(s.callers[c].phase, s.callers[c].phase.cell);
  }

  /** A failed or dropped build leaves its cell empty, and every caller waiting on it can build. */
  lemma FailureIsRetryable(s: State, c: nat, a: Act, d: nat)
    requires Reachable(s) && Enabled(s, By(c, a)) && s.callers[c].phase.Building? && (a.BuildErr? || a.Abandon?)
    requires d < |s.callers| && s.callers[d].phase == Holding(s.callers[c].phase.cell)
    ensures var s' := Apply(s, By(c, a)); var n := s.callers[c].phase.cell;
      n in s'.cells && s'.cells[n].state == Empty && Enabled(s', By(d, StartBuild))
  {
    HeldCell(s, c);
    var n, raw := s.callers[c].phase.cell, Step(s, By(c, a));
    assert n in raw.cells && raw.cells[n].state == Empty;
    assert Live(raw, n) by { assert Holds(raw.callers[d].phase, n); }
  }

  /** No caller waits for nothing: it can build or share, or the build it waits for can finish. */
  lemma NoStuckCaller(s: State, c: nat)
    requires Reachable(s) && c < |s.callers| && s.callers[c].phase.Holding?
    ensures Enabled(s, By(c, StartBuild)) || Enabled(s, By(c, Share))
         || exists d :: 0 <= d < |s.callers| && Enabled(s, By(d, BuildOk)) && Enabled(s, By(d, BuildErr))
                     && s.callers[d].phase == Building(s.callers[c].phase.cell)
  {
    HeldCell(s, c);
    var n := s.callers[c].phase.cell;
    if s.cells[n].state.Initialising? {
      var d := s.cells[n].state.builder;
      assert s.callers[d].phase == Building(n) && Enabled(s, By(d, BuildOk));
    }
  }

  // ---------- the locked section in its own form ----------

  /** The locked part of the cache: entries in LRU order, updated in place. */
  class LockedEntries {
    const cap: nat
    var entries: seq<Entry>
    var accesses: nat
    ghost var history: seq<string>

    ghost predicate Valid()
      reads this
    {
      cap > 0 && accesses == |history| && entries == Replay(cap, history)
    }

    constructor (cap: nat)
      requires cap > 0
      ensures Valid() && this.cap == cap && history == []
    {
      this.cap := cap;
      entries, accesses, history := [], 0, [];
    }

    /**
     * `entries.get` or else `entries.put`: hands out the cell of this access,
     * after which the cached identities are the `cap` most recent ones.
     */
    method Lookup(key: string) returns (cell: nat)
      requires Valid()
      modifies this
      ensures Valid() && history == old(history) + [key]
      ensures cell == CellAt(cap, history, |old(history)|)
      ensures cell == |old(history)| <==> !Resident(cap, old(history), key)
      ensures forall k :: k in Keys(entries) <==> Resident(cap, history, k)
    {
      RefinesAccessHistory(cap, history);
      FindIsKeys(entries, key);
      CellsAreOld(cap, history);
      ghost var before := history;
      assert (before + [key])[..|before|] == before;
      var i := Find(entries, key);
      if i < |entries| {
        cell := entries[i].cell;
        entries := [entries[i]] + entries[..i] + entries[i + 1..];
      } else {
        cell := accesses;
        entries := [Entry(key, cell)] + entries;
        if |entries| > cap {
          entries := entries[..cap];
        }
      }
      accesses := accesses + 1;
      history := history + [key];
      RefinesAccessHistory(cap, history);
    }
  }

  lemma {:induction false} CellsAreOld(cap: nat, h: seq<string>)
    ensures forall i :: 0 <= i < |Replay(cap, h)| ==> Replay(cap, h)[i].cell < |h|
  {
    if h != [] {
      var init := h[..|h| - 1];
      CellsAreOld(cap, init);
      forall i | 0 <= i < |Replay(cap, h)| ensures Replay(cap, h)[i].cell < |h| {
        TouchedEntry(Replay(cap, init), cap, h[|h| - 1], |h| - 1, i);
      }
    }
  }
}
