/**
 * The bounded LRU of `TransportCache` (crates/outlay-shim/src/transport.rs)
 * against a plain specification over the history of accesses.
 */
module Lru {

  /** One cached identity and the once-cell kept for it; most recent first in the cache. */
  datatype Entry = Entry(key: string, cell: nat)

  // ---------- what one access does ----------

  /** Position of `k`, or the length when it is not cached. */
  function Find(es: seq<Entry>, k: string): (i: nat)
    ensures i <= |es| && (i < |es| ==> es[i].key == k)
    ensures forall j :: 0 <= j < i ==> es[j].key != k
  {
    if es == [] then 0 else if es[0].key == k then 0 else 1 + Find(es[1..], k)
  }

  /** `get` moves a hit to the front; a miss `put`s `made` in front and drops the last above `cap`. */
  function Touch(es: seq<Entry>, cap: nat, k: string, made: nat): seq<Entry> {
    var i := Find(es, k);
    if i < |es| then [es[i]] + es[..i] + es[i + 1..]
    else var all := [Entry(k, made)] + es; if |all| <= cap then all else all[..cap]
  }

  /** The cache after these accesses; a cell is named after the access that made it. */
  function Replay(cap: nat, h: seq<string>): seq<Entry> {
    if h == [] then [] else Touch(Replay(cap, h[..|h| - 1]), cap, h[|h| - 1], |h| - 1)
  }

  // ---------- the specification: access history only ----------

  /** The identities accessed after the last access of `k`; all of them if there is none. */
  function Since(h: seq<string>, k: string): set<string> {
    if h == [] || h[|h| - 1] == k then {} else Since(h[..|h| - 1], k) + {h[|h| - 1]}
  }

  /** `k` was accessed, and fewer than `cap` distinct others since. */
  predicate Resident(cap: nat, h: seq<string>, k: string) { k in h && |Since(h, k)| < cap }

  function Keys(es: seq<Entry>): set<string> {
    if es == [] then {} else Keys(es[..|es| - 1]) + {es[|es| - 1].key}
  }

  function Elements(h: seq<string>): set<string> { set x | x in h }

  /** `Since` really is the set of keys after the last access. */
  lemma {:induction false} SinceIsSuffix(h: seq<string>, i: nat, k: string)
    requires i < |h| && h[i] == k && k !in h[i + 1..]
    ensures Since(h, k) == Elements(h[i + 1..])
    decreases |h|
  {
    if i < |h| - 1 {
      var init := h[..|h| - 1];
      assert h[i + 1..] == init[i + 1..] + [h[|h| - 1]];
      assert h[|h| - 1] in h[i + 1..];
      SinceIsSuffix(init, i, k);
    } else {
      assert h[i + 1..] == [];
    }
  }

  // ---------- refinement ----------

  /** Cached keys were accessed, and the keys in front of one are exactly those accessed since. */
  ghost predicate Ordered(h: seq<string>, es: seq<Entry>) {
    forall i :: 0 <= i < |es| ==> es[i].key in h && Since(h, es[i].key) == Keys(es[..i])
  }

  ghost predicate Complete(cap: nat, h: seq<string>, es: seq<Entry>) {
    forall k :: k in h && k !in Keys(es) ==> |Since(h, k)| >= cap
  }

  lemma {:induction false} SinceExcludes(h: seq<string>, k: string)
    ensures k !in Since(h, k)
  {
    if h != [] && h[|h| - 1] != k {
      SinceExcludes(h[..|h| - 1], k);
    }
  }

  lemma SinceStep(h: seq<string>, k: string, x: string)
    ensures Since(h + [k], x) == if x == k then {} else Since(h, x) + {k}
  {
    assert (h + [k])[..|h|] == h;
  }

  lemma KeysAppend(es: seq<Entry>, e: Entry)
    ensures Keys(es + [e]) == Keys(es) + {e.key}
  {
    assert (es + [e])[..|es|] == es;
  }

  lemma {:induction false} KeysConcat(a: seq<Entry>, b: seq<Entry>)
    ensures Keys(a + b) == Keys(a) + Keys(b)
    decreases |b|
  {
    if b == [] {
      assert a + b == a;
    } else {
      var b', e := b[..|b| - 1], b[|b| - 1];
      KeysConcat(a, b');
      KeysAppend(a + b', e);
      assert a + b == a + b' + [e];
    }
  }

  lemma {:induction false} KeysAt(es: seq<Entry>, k: string)
    ensures k in Keys(es) <==> exists i :: 0 <= i < |es| && es[i].key == k
  {
    if es != [] {
      var init := es[..|es| - 1];
      KeysAt(init, k);
      if k in Keys(init) {
        var i :| 0 <= i < |init| && init[i].key == k;
        assert es[i].key == k;
      } else if i :| 0 <= i < |es| && es[i].key == k {
        assert i < |init| ==> init[i].key == k;
      }
    }
  }

  lemma {:induction false} PrefixCount(h: seq<string>, es: seq<Entry>, n: nat)
    requires Ordered(h, es) && n <= |es|
    ensures |Keys(es[..n])| == n
    decreases n
  {
    if n > 0 {
      PrefixCount(h, es, n - 1);
      assert es[..n] == es[..n - 1] + [es[n - 1]];
      KeysAppend(es[..n - 1], es[n - 1]);
      SinceExcludes(h, es[n - 1].key);
    }
  }

  lemma KeysOne(e: Entry)
    ensures Keys([e]) == {e.key}
  {
    assert [e][..0] == [];
  }

  lemma KeysPrefix(es: seq<Entry>, j: nat, n: nat)
    requires j < n <= |es|
    ensures es[j].key in Keys(es[..n])
  {
    KeysAt(es[..n], es[j].key);
    assert es[..n][j] == es[j];
  }

  lemma KeysRotate(a: seq<Entry>, e: Entry, b: seq<Entry>)
    ensures Keys(a + [e] + b) == Keys([e] + a + b)
  {
    KeysConcat(a + [e], b);
    KeysConcat(a, [e]);
    KeysConcat([e] + a, b);
    KeysConcat([e], a);
  }

  /** Pulling entry `i` to the front of the first `j` keeps their identities. */
  lemma KeysPulled(es: seq<Entry>, i: nat, j: nat)
    requires i < j <= |es|
    ensures Keys(es[..j]) == Keys([es[i]] + es[..i] + es[i + 1..j])
  {
    assert es[..j] == es[..i] + [es[i]] + es[i + 1..j];
    KeysRotate(es[..i], es[i], es[i + 1..j]);
  }

  /** In front of the touched entry entries shift by one. */
  lemma HitBefore(h: seq<string>, es: seq<Entry>, i: nat, j: nat)
    requires Ordered(h, es) && 0 < j <= i < |es|
    ensures Since(h + [es[i].key], es[j - 1].key) == Keys([es[i]] + es[..j - 1])
  {
    var k, x := es[i].key, es[j - 1].key;
    assert x != k by {
      KeysPrefix(es, j - 1, i);
      SinceExcludes(h, k);
    }
    assert Since(h + [k], x) == Keys(es[..j - 1]) + {k} by { SinceStep(h, k, x); }
    assert Keys([es[i]] + es[..j - 1]) == {k} + Keys(es[..j - 1]) by {
      KeysConcat([es[i]], es[..j - 1]);
      KeysOne(es[i]);
    }
  }

  /** An access of an identity that was accessed since anyway changes nothing. */
  lemma SinceOld(h: seq<string>, k: string, x: string)
    requires k in Since(h, x)
    ensures Since(h + [k], x) == Since(h, x)
  {
    SinceStep(h, k, x);
    SinceExcludes(h, x);
  }

  /** Behind it they stay. */
  lemma HitBehind(h: seq<string>, es: seq<Entry>, i: nat, j: nat)
    requires Ordered(h, es) && i < j < |es|
    ensures Since(h + [es[i].key], es[j].key) == Keys([es[i]] + es[..i] + es[i + 1..j])
  {
    var k := es[i].key;
    SinceOld(h, k, es[j].key) by { KeysPrefix(es, i, j); }
    KeysPulled(es, i, j);
  }

  lemma HitAt(h: seq<string>, es: seq<Entry>, i: nat, next: seq<Entry>, j: nat)
    requires Ordered(h, es) && i < |es| && next == [es[i]] + es[..i] + es[i + 1..] && j < |next|
    ensures next[j].key in h + [es[i].key] && Since(h + [es[i].key], next[j].key) == Keys(next[..j])
  {
    MovedToFront(es, i, next, j);
    if j == 0 {
      SinceStep(h, es[i].key, es[i].key);
    } else if j <= i {
      HitBefore(h, es, i, j);
    } else {
      HitBehind(h, es, i, j);
    }
  }

  lemma MovedToFront(es: seq<Entry>, i: nat, next: seq<Entry>, j: nat)
    requires i < |es| && next == [es[i]] + es[..i] + es[i + 1..] && j < |next|
    ensures next[j] == if j == 0 then es[i] else if j <= i then es[j - 1] else es[j]
    ensures 0 < j <= i ==> next[..j] == [es[i]] + es[..j - 1]
    ensures i < j ==> next[..j] == [es[i]] + es[..i] + es[i + 1..j]
  {
  }

  /** A hit keeps the order and the set of cached identities. */
  lemma HitOrdered(h: seq<string>, es: seq<Entry>, cap: nat, k: string, made: nat)
    requires Ordered(h, es) && Find(es, k) < |es|
    ensures Ordered(h + [k], Touch(es, cap, k, made))
    ensures Keys(Touch(es, cap, k, made)) == Keys(es)
  {
    var i, next := Find(es, k), Touch(es, cap, k, made);
    assert next == [es[i]] + es[..i] + es[i + 1..];
    assert Ordered(h + [k], next) by {
      forall j | 0 <= j < |next| ensures next[j].key in h + [k] && Since(h + [k], next[j].key) == Keys(next[..j]) {
        HitAt(h, es, i, next, j);
      }
    }
    assert Keys(next) == Keys(es) by {
      KeysPulled(es, i, |es|);
      assert es[..|es|] == es && es[i + 1..|es|] == es[i + 1..];
    }
  }

  /** A miss: the new entry comes to the front and all others shift, the last one out at most. */
  lemma MissOrdered(h: seq<string>, es: seq<Entry>, cap: nat, k: string, made: nat)
    requires Ordered(h, es) && Find(es, k) == |es| <= cap && cap > 0
    ensures Ordered(h + [k], Touch(es, cap, k, made))
  {
    var front, next := Entry(k, made), Touch(es, cap, k, made);
    assert Keys([front]) == {k} by { assert [front][..0] == []; }
    forall j | 0 <= j < |next| ensures next[j].key in h + [k] && Since(h + [k], next[j].key) == Keys(next[..j]) {
      SinceStep(h, k, next[j].key);
      if j > 0 {
        assert next[j] == es[j - 1] && next[..j] == [front] + es[..j - 1];
        KeysConcat([front], es[..j - 1]);
      }
    }
  }

  lemma TouchComplete(h: seq<string>, es: seq<Entry>, cap: nat, k: string, made: nat)
    requires Ordered(h, es) && Complete(cap, h, es) && |es| <= cap && cap > 0
    ensures Complete(cap, h + [k], Touch(es, cap, k, made))
  {
    var next := Touch(es, cap, k, made);
    forall x | x in h + [k] && x !in Keys(next) ensures |Since(h + [k], x)| >= cap {
      SinceStep(h, k, x);
      KeysAt(next, x);
      assert next[0].key == k;
      if x !in Keys(es) {
        CardMonotone(Since(h, x), Since(h + [k], x));
      } else {
        Evicted(h, es, cap, k, made, x);
      }
    }
  }

  lemma NotFound(es: seq<Entry>, k: string, n: nat)
    requires Find(es, k) == |es| && n <= |es|
    ensures k !in Keys(es[..n])
  {
    KeysAt(es[..n], k);
    assert forall q :: 0 <= q < n ==> es[..n][q] == es[q];
  }

  /** What a miss leaves in: the new identity, and all but the last of a full cache. */
  lemma MissKeeps(es: seq<Entry>, cap: nat, k: string, made: nat, p: nat)
    requires Find(es, k) == |es| <= cap && cap > 0 && p < |es|
    ensures p + 1 < cap ==> es[p].key in Keys(Touch(es, cap, k, made))
    ensures k in Keys(Touch(es, cap, k, made))
  {
    var next := Touch(es, cap, k, made);
    assert next[0].key == k;
    KeysAt(next, k);
    KeysAt(next, es[p].key);
    if p + 1 < cap {
      assert next[p + 1] == es[p];
    }
  }

  /** The identity a miss pushes out has exactly `cap` others accessed since. */
  lemma Evicted(h: seq<string>, es: seq<Entry>, cap: nat, k: string, made: nat, x: string)
    requires Ordered(h, es) && |es| <= cap && cap > 0
    requires x in Keys(es) && x !in Keys(Touch(es, cap, k, made))
    ensures Find(es, k) == |es| && |Since(h + [k], x)| == cap
  {
    if Find(es, k) < |es| {
      HitOrdered(h, es, cap, k, made);
    } else {
      var p := PositionOf(es, x);
      MissKeeps(es, cap, k, made, p);
      PrefixCount(h, es, p);
      NotFound(es, k, p);
      SinceStep(h, k, x);
    }
  }

  lemma PositionOf(es: seq<Entry>, x: string) returns (p: nat)
    requires x in Keys(es)
    ensures p < |es| && es[p].key == x
  {
    KeysAt(es, x);
    p :| 0 <= p < |es| && es[p].key == x;
  }

  lemma CardMonotone<T>(a: set<T>, b: set<T>)
    requires a <= b
    ensures |a| <= |b|
  {
    assert b == a + (b - a);
  }

  lemma {:induction false} ReplayInv(cap: nat, h: seq<string>)
    requires cap > 0
    ensures |Replay(cap, h)| <= cap && Ordered(h, Replay(cap, h)) && Complete(cap, h, Replay(cap, h))
  {
    if h != [] {
      var init, k := h[..|h| - 1], h[|h| - 1];
      ReplayInv(cap, init);
      var es := Replay(cap, init);
      assert h == init + [k];
      assert Ordered(h, Replay(cap, h)) by {
        if Find(es, k) < |es| {
          HitOrdered(init, es, cap, k, |h| - 1);
        } else {
          MissOrdered(init, es, cap, k, |h| - 1);
        }
      }
      assert Complete(cap, h, Replay(cap, h)) by { TouchComplete(init, es, cap, k, |h| - 1); }
    }
  }

  /**
   * The cached identities, in order, are the last `cap` distinct ones by most
   * recent access: an identity is cached if and only if it was accessed and
   * fewer than `cap` others since, it then stands at the position that is the
   * number of those others, it stands there once, and never more than `cap` are.
   */
  lemma RefinesAccessHistory(cap: nat, h: seq<string>)
    requires cap > 0
    ensures |Replay(cap, h)| <= cap
    ensures forall k :: k in Keys(Replay(cap, h)) <==> k in h && |Since(h, k)| < cap
    ensures forall i :: 0 <= i < |Replay(cap, h)| ==> |Since(h, Replay(cap, h)[i].key)| == i
    ensures forall i, j :: 0 <= i < j < |Replay(cap, h)| ==> Replay(cap, h)[i].key != Replay(cap, h)[j].key
  {
    ReplayInv(cap, h);
    var es := Replay(cap, h);
    forall i | 0 <= i < |es| ensures |Since(h, es[i].key)| == i {
      PrefixCount(h, es, i);
    }
    forall k ensures k in Keys(es) <==> Resident(cap, h, k) {
      KeysAt(es, k);
    }
    forall i, j | 0 <= i < j < |es| ensures es[i].key != es[j].key {
      SinceExcludes(h, es[j].key);
      KeysAt(es[..j], es[i].key);
      assert es[..j][i] == es[i];
    }
  }

  // ---------- which accesses reach the same cell ----------

  /** The cell `get` hands out for `k` next, given the cache and the number of this access. */
  function CellFor(es: seq<Entry>, k: string, made: nat): nat {
    if Find(es, k) < |es| then es[Find(es, k)].cell else made
  }

  /** The cell access number `i` reaches. */
  function CellAt(cap: nat, h: seq<string>, i: nat): nat
    requires i < |h|
  {
    CellFor(Replay(cap, h[..i]), h[i], i)
  }

  lemma {:induction false} FindUnique(es: seq<Entry>, i: nat)
    requires i < |es| && forall j :: 0 <= j < |es| && j != i ==> es[j].key != es[i].key
    ensures Find(es, es[i].key) == i
  {
  }

  predicate DistinctKeys(es: seq<Entry>) {
    forall i, j :: 0 <= i < j < |es| ==> es[i].key != es[j].key
  }

  /** One access leaves the cell of every identity still cached, and the accessed one's is the one handed out. */
  lemma TouchCells(es: seq<Entry>, cap: nat, k: string, made: nat, x: string)
    requires DistinctKeys(es) && cap > 0
    ensures var next := Touch(es, cap, k, made);
      && Find(next, k) == 0 && next[0].cell == CellFor(es, k, made)
      && (Find(next, x) < |next| && x != k ==> Find(es, x) < |es| && next[Find(next, x)].cell == es[Find(es, x)].cell)
  {
    var next, i := Touch(es, cap, k, made), Find(es, k);
    var q := Find(next, x);
    if q < |next| && x != k {
      var p := if i == |es| || q <= i then q - 1 else q;
      assert next[q] == es[p];
      FindUnique(es, p);
    }
  }

  /** Between two consecutive accesses of `k`, while it stays cached, so does its cell. */
  lemma {:induction false} CellKept(cap: nat, h: seq<string>, i: nat, m: nat)
    requires cap > 0 && i < m <= |h| && (forall n :: i < n < m ==> h[n] != h[i])
    ensures var es := Replay(cap, h[..m]);
      Find(es, h[i]) < |es| ==> es[Find(es, h[i])].cell == CellAt(cap, h, i)
  {
    var k := h[i];
    RefinesAccessHistory(cap, h[..m - 1]);
    assert h[..m][..m - 1] == h[..m - 1];
    TouchCells(Replay(cap, h[..m - 1]), cap, h[m - 1], m - 1, k);
    if m > i + 1 {
      CellKept(cap, h, i, m - 1);
    }
  }

  lemma FindIsKeys(es: seq<Entry>, k: string)
    ensures Find(es, k) < |es| <==> k in Keys(es)
  {
    KeysAt(es, k);
  }

  /** The access reaches the previous access's cell if `k` is still resident, else a new one. */
  lemma CellRecurrence(cap: nat, h: seq<string>, i: nat, j: nat)
    requires cap > 0 && i < j < |h| && h[i] == h[j] && (forall n :: i < n < j ==> h[n] != h[i])
    ensures CellAt(cap, h, j) == if |Elements(h[i + 1..j])| < cap then CellAt(cap, h, i) else j
  {
    var k, before := h[i], h[..j];
    CellKept(cap, h, i, j);
    FindIsKeys(Replay(cap, before), k);
    RefinesAccessHistory(cap, before);
    assert before[i + 1..] == h[i + 1..j];
    SinceIsSuffix(before, i, k);
    assert before[i] == k;
  }

  lemma {:induction false} CellNotLater(cap: nat, h: seq<string>, j: nat)
    requires cap > 0 && j < |h|
    ensures CellAt(cap, h, j) <= j
    ensures h[j] !in h[..j] ==> CellAt(cap, h, j) == j
    decreases j
  {
    if h[j] in h[..j] {
      var i := LastBefore(h, j);
      CellRecurrence(cap, h, i, j);
      CellNotLater(cap, h, i);
    } else {
      FindIsKeys(Replay(cap, h[..j]), h[j]);
      RefinesAccessHistory(cap, h[..j]);
    }
  }

  /** The previous access of the identity accessed at `j`. */
  function LastBefore(h: seq<string>, j: nat): (i: nat)
    requires j < |h| && h[j] in h[..j]
    ensures i < j && h[i] == h[j] && forall n :: i < n < j ==> h[n] != h[i]
  {
    PreviousIndex(h, j, h[j])
  }

  function PreviousIndex(h: seq<string>, j: nat, k: string): (i: nat)
    requires j <= |h| && k in h[..j]
    ensures i < j && h[i] == k && forall n :: i < n < j ==> h[n] != k
  {
    if h[j - 1] == k then j - 1
    else
      assert h[..j] == h[..j - 1] + [h[j - 1]];
      PreviousIndex(h, j - 1, k)
  }

  /** At access `m` the identity was still cached: fewer than `cap` others since its previous access. */
  predicate StillResident(cap: nat, h: seq<string>, m: nat) {
    m < |h| && h[m] in h[..m] && |Elements(h[LastBefore(h, m) + 1..m])| < cap
  }

  /** Still cached at every access of the identity of access `i` after it, up to `j`. */
  predicate NeverEvicted(cap: nat, h: seq<string>, i: nat, j: nat)
    requires i <= j < |h|
  {
    forall m :: i < m <= j && h[m] == h[i] ==> StillResident(cap, h, m)
  }

  lemma NeverEvictedSplit(cap: nat, h: seq<string>, i: nat, p: nat, j: nat)
    requires i <= p < j < |h| && h[i] == h[p] == h[j] && forall n :: p < n < j ==> h[n] != h[j]
    ensures NeverEvicted(cap, h, i, j) <==> NeverEvicted(cap, h, i, p) && StillResident(cap, h, j)
  {
  }

  lemma CellOfLast(cap: nat, h: seq<string>, j: nat)
    requires cap > 0 && j < |h| && h[j] in h[..j]
    ensures CellAt(cap, h, j) == if StillResident(cap, h, j) then CellAt(cap, h, LastBefore(h, j)) else j
  {
    CellRecurrence(cap, h, LastBefore(h, j), j);
  }

  lemma LastNotBefore(h: seq<string>, i: nat, j: nat)
    requires i < j < |h| && h[i] == h[j]
    ensures h[j] in h[..j] && i <= LastBefore(h, j)
  {
    assert h[..j][i] == h[i];
  }

  /**
   * Two accesses of one identity reach the same cell if and only if, at every
   * access of it after the first up to the second, fewer than `cap` distinct
   * other identities were accessed since its previous access.
   */
  lemma {:induction false} SameCellIff(cap: nat, h: seq<string>, i: nat, j: nat)
    requires cap > 0 && i < j < |h| && h[i] == h[j]
    ensures CellAt(cap, h, i) == CellAt(cap, h, j) <==> NeverEvicted(cap, h, i, j)
    decreases j
  {
    LastNotBefore(h, i, j);
    var p := LastBefore(h, j);
    NeverEvictedSplit(cap, h, i, p, j);
    CellOfLast(cap, h, j);
    var ci, cp, cj := CellAt(cap, h, i), CellAt(cap, h, p), CellAt(cap, h, j);
    assert ci <= i by { CellNotLater(cap, h, i); }
    assert ci == cp <==> NeverEvicted(cap, h, i, p) by {
      if p > i {
        SameCellIff(cap, h, i, p);
      }
    }
  }
}
