/**
  The per-host round-robin cursor used by both `nextProxy` implementations
  (proxymanager.js and app.js). A cursor is the index last handed out for a
  host; a host that was never seen has no entry, written -1 here, so that one
  advance lands on index 0 exactly as the source's `typeof Index[host] ===
  'undefined'` branch does.
*/
module Cursor {

  /** The cursor of `host` in an `Index` map, -1 if the host was never seen. */
  function CursorOf(index: map<string, nat>, host: string): (c: int)
    ensures host !in index ==> c == -1
    ensures host in index ==> c == index[host] && c >= 0
  {
    if host in index then index[host] else -1
  }

  /** One advance over a list of `n` entries: wrap to 0 once the next position
      would leave the list, otherwise move one forward. */
  function Step(c: int, n: nat): (r: int)
    requires c >= -1 && n > 0
    ensures 0 <= r < n
    ensures r == 0 || r == c + 1
  {
    if c + 1 >= n then 0 else c + 1
  }

  /** The advance as the source writes it: it wraps only when the cursor sits
      exactly on the last index, so a cursor beyond the end keeps growing. */
  function SourceStep(c: int, n: nat): (r: int)
    requires c >= -1
    ensures r == 0 || r == c + 1
    ensures 0 < n && c < n ==> 0 <= r < n
  {
    if c + 1 == n then 0 else c + 1
  }

  /** While the cursor is inside the list, the source's advance and `Step` agree. */
  lemma SourceStepAgrees(c: int, n: nat)
    requires -1 <= c < n && n > 0
    ensures SourceStep(c, n) == Step(c, n)
  {
  }

  /** Where the cursor stands after `k` advances from `c`. */
  function Orbit(c: int, k: nat, n: nat): (r: int)
    requires c >= -1 && n > 0
    ensures k > 0 ==> 0 <= r < n
    ensures k == 0 ==> r == c
  {
    if k == 0 then c else Step(Orbit(c, k - 1, n), n)
  }

  /** The source's advance, iterated. */
  function SourceOrbit(c: int, k: nat, n: nat): (r: int)
    requires c >= -1
    ensures r >= -1
    ensures k > 0 ==> r >= 0
  {
    if k == 0 then c else SourceStep(SourceOrbit(c, k - 1, n), n)
  }

  /** From inside the list, `k <= n` advances move the cursor `k` places
      forward, modulo the list length. */
  lemma {:induction false} OrbitClosedForm(c: int, k: nat, n: nat)
    requires -1 <= c < n && k <= n && n > 0
    ensures Orbit(c, k, n) == if c + k < n then c + k else c + k - n
  {
    if k > 0 {
      OrbitClosedForm(c, k - 1, n);
    }
  }

  /** A cursor at or past the last index behaves like a fresh one. */
  lemma {:induction false} OrbitFromEnd(c: int, k: nat, n: nat)
    requires n > 0 && c >= n - 1 && k > 0
    ensures Orbit(c, k, n) == Orbit(-1, k, n)
  {
    if k > 1 {
      OrbitFromEnd(c, k - 1, n);
    }
  }

  /** The number of advances that bring cursor `c` onto position `t`. */
  function Distance(c: int, t: nat, n: nat): nat
    requires c >= -1 && t < n
  {
    if c >= n then t + 1 else if c < t then t - c else n - c + t
  }

  /** Every position is reached within one full cycle, whatever the cursor. */
  lemma OrbitReaches(c: int, t: nat, n: nat)
    requires c >= -1 && t < n
    ensures 1 <= Distance(c, t, n) <= n
    ensures Orbit(c, Distance(c, t, n), n) == t
  {
    if c >= n {
      OrbitFromEnd(c, t + 1, n);
      OrbitClosedForm(-1, t + 1, n);
    } else {
      OrbitClosedForm(c, Distance(c, t, n), n);
    }
  }

  /** A host seen for the first time is handed the indices 0, 1, 2, ... in order. */
  lemma FreshHostOrder(k: nat, n: nat)
    requires 1 <= k <= n
    ensures Orbit(-1, k, n) == k - 1
  {
    OrbitClosedForm(-1, k, n);
  }

  /** `n` advances bring a cursor inside the list back to where it was. */
  lemma FullCycle(c: nat, n: nat)
    requires c < n && n > 0
    ensures Orbit(c, n, n) == c
  {
    OrbitClosedForm(c, n, n);
  }

  /** As written, a cursor that is past the end of the list (the list was
      replaced by a shorter one) never wraps again: every later index it
      hands out lies outside the list. */
  lemma {:induction false} SourceCursorEscapes(c: int, k: nat, n: nat)
    requires c >= n
    ensures SourceOrbit(c, k, n) == c + k
    ensures SourceOrbit(c, k, n) >= n
  {
    if k > 0 {
      SourceCursorEscapes(c, k - 1, n);
    }
  }

  /** The concrete case: a host whose cursor was on the last of three proxies
      when the list was cut to two. The source moves it to index 3; `Step`
      wraps it to 0. */
  lemma ShrunkListExample()
    ensures SourceStep(2, 2) == 3 && !(SourceStep(2, 2) < 2)
    ensures Step(2, 2) == 0
  {
  }
}
