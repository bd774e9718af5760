/**
  The proxy pool of proxymanager.js: an ordered list of proxy records, a
  cursor per destination host, and the sticky pool-exhaustion latch
  (`_allBlocked`). `nextProxy`'s tail recursion is the loop of `NextProxy`;
  its `setTimeout` retry is the `Wait` outcome, which the caller acts on.
*/
module Manager {
  import opened Wrappers
  import opened Cursor
  import opened ProxyHealth

  /** What `nextProxy` hands its callback: a proxy (by index), one of the
      two pool-exhaustion errors, or a request to try again after UseWaitTime. */
  datatype Outcome = Picked(index: nat) | AllBlockedError | AllBrokenError | Wait

  /** The decision taken on one candidate of the walk. */
  datatype Verdict = Skip | Hold | Take

  /** The if-chain `nextProxy` applies to the proxy at index `i`. */
  function Inspect(cfg: Config, list: seq<Proxy>, i: nat, now: int): (v: Verdict)
    requires i < |list|
    ensures v != Skip ==> !Exhausted(cfg, list[i])
    ensures v == Take ==> !BlockWindow(cfg, list[i], now)
    ensures v == Hold ==> !cfg.allowMultipleCalls && list[i].inUse && AllInUse(cfg, list, now)
    ensures IsActive(cfg, list[i], now) && (cfg.allowMultipleCalls || !list[i].inUse) ==> v == Take
  {
    var p := list[i];
    if Exhausted(cfg, p) then Skip
    else if !cfg.allowMultipleCalls && p.inUse then
      (if AllInUse(cfg, list, now) then Hold else Skip)
    else if p.blocked.Some? then
      (if now < p.blocked.value + cfg.blockTimeout then Skip else Take)
    else if p.broken.Some? then
      (if now < p.broken.value + cfg.repairTime then Skip else Take)
    else Take
  }

  /** The record `nextProxy` hands out: an expired block is cleared, or else
      an expired break; nothing else about it changes. */
  function Revive(p: Proxy): (q: Proxy)
    ensures q.address == p.address && q.errors == p.errors && q.hits == p.hits && q.inUse == p.inUse
    ensures q.blocked.None?
    ensures q.broken == (if p.blocked.Some? then p.broken else None)
  {
    if p.blocked.Some? then p.(blocked := None)
    else if p.broken.Some? then p.(broken := None)
    else p
  }

  /** What a taken proxy satisfies: it is not exhausted, not busy unless
      simultaneous calls are allowed, outside its block window; the record
      handed out differs from it at most by a cleared block, or else a
      cleared break that had expired. */
  lemma TakenProxy(cfg: Config, list: seq<Proxy>, i: nat, now: int)
    requires i < |list| && Inspect(cfg, list, i, now) == Take
    ensures var p := list[i]; var q := Revive(p);
      && !Exhausted(cfg, p)
      && (!cfg.allowMultipleCalls ==> !p.inUse)
      && !BlockWindow(cfg, p, now)
      && q.address == p.address && q.errors == p.errors && q.hits == p.hits && q.inUse == p.inUse
      && q.blocked.None?
      && (p.blocked.Some? ==> q.broken == p.broken)
      && (p.blocked.None? ==> q.broken.None? && !RepairWindow(cfg, p, now))
  {
  }

  /** A busy proxy makes the caller wait exactly when simultaneous calls are
      disallowed and every active proxy is busy. */
  lemma HoldMeansPoolBusy(cfg: Config, list: seq<Proxy>, i: nat, now: int)
    requires i < |list|
    ensures Inspect(cfg, list, i, now) == Hold <==>
      !Exhausted(cfg, list[i]) && !cfg.allowMultipleCalls && list[i].inUse && AllInUse(cfg, list, now)
  {
  }

  /** An active proxy is never skipped unless it is busy while another active
      proxy is free. */
  lemma ActiveNotSkipped(cfg: Config, list: seq<Proxy>, i: nat, now: int)
    requires i < |list| && IsActive(cfg, list[i], now)
    ensures Inspect(cfg, list, i, now) == Skip ==>
      !cfg.allowMultipleCalls && list[i].inUse && !AllInUse(cfg, list, now)
  {
  }

  /** The walk does not skip everything: unless the pool is all broken, some
      index of the list stops it, so it ends within one cycle. */
  lemma SomeCandidateStops(cfg: Config, list: seq<Proxy>, now: int) returns (t: nat)
    requires !AllBroken(cfg, list, now)
    ensures t < |list| && Inspect(cfg, list, t, now) != Skip
  {
    var j :| 0 <= j < |list| && IsActive(cfg, list[j], now);
    if Inspect(cfg, list, j, now) != Skip {
      t := j;
    } else {
      ActiveNotSkipped(cfg, list, j, now);
      var k :| 0 <= k < |list| && !list[k].inUse && IsActive(cfg, list[k], now);
      t := k;
    }
  }

  /** From any cursor, the walk reaches a stopping candidate within |list| advances. */
  lemma WalkEndsWithinLength(cfg: Config, list: seq<Proxy>, c: int, now: int)
    returns (k: nat)
    requires c >= -1 && !AllBroken(cfg, list, now)
    ensures 1 <= k <= |list|
    ensures Inspect(cfg, list, Orbit(c, k, |list|), now) != Skip
  {
    var t := SomeCandidateStops(cfg, list, now);
    OrbitReaches(c, t, |list|);
    k := Distance(c, t, |list|);
  }

  /** Every candidate visited before the `steps`-th advance from `c` was skipped. */
  ghost predicate SkippedBefore(cfg: Config, list: seq<Proxy>, c: int, steps: nat, now: int)
    requires c >= -1 && |list| > 0
  {
    forall j :: 1 <= j < steps ==> Inspect(cfg, list, Orbit(c, j, |list|), now) == Skip
  }

  /** An expired block is cleared and the proxy handed out even while it is
      still inside its repair window: the break is not looked at once a block
      was found. */
  lemma ExpiredBlockHidesBreak(now: int)
    ensures var cfg := Config(3, 1000, 1000, false, 200, 30);
      var list := [Proxy("a", 0, 0, Some(now), Some(now - 1000), false)];
      && Inspect(cfg, list, 0, now) == Take
      && RepairWindow(cfg, Revive(list[0]), now)
      && !IsActive(cfg, list[0], now)
  {
  }

  class ProxyManager {
    const cfg: Config
    /** The proxy registry, in (shuffled) configuration order. */
    var list: seq<Proxy>
    /** `Index`: the last index handed out per destination host. */
    var index: map<string, nat>
    /** `_allBlocked`: set when a request failed with ALL_BLOCKED. */
    var allBlockedLatch: bool
    /** Total time callers were told to wait because every proxy was busy. */
    var timeWaited: int

    constructor (cfg: Config, list: seq<Proxy>)
      requires |list| > 0
      ensures this.cfg == cfg && this.list == list
      ensures index == map[] && !allBlockedLatch && timeWaited == 0
    {
      this.cfg := cfg;
      this.list := list;
      index := map[];
      allBlockedLatch := false;
      timeWaited := 0;
    }

    /** `status`: the bucket counters over the list. */
    method Status(now: int) returns (r: Report)
      ensures r == StatusOf(cfg, list, now)
      ensures r.proxies == |list| && r.alive + r.broken == r.proxies
      ensures r.error + r.blocked <= r.broken && r.inUse <= r.alive
      ensures r.alive == CountActive(cfg, list, now)
    {
      r := Report(|list|, 0, 0, 0, 0, 0);
      var i := 0;
      while i < |list|
        invariant i <= |list|
        invariant r == Tally(cfg, list[..i], now).(proxies := |list|)
      {
        assert list[..i + 1][..i] == list[..i];
        r := Bump(r, cfg, list[i], now);
        i := i + 1;
      }
      assert list[..i] == list;
      StatusBalances(cfg, list, now);
    }

    /** `firstBlocked`: the proxy whose block is the oldest, the earliest in
        list order among equals; none when no proxy carries a block. */
    method FirstBlocked() returns (r: Option<nat>)
      ensures r.None? <==> forall j :: 0 <= j < |list| ==> list[j].blocked.None?
      ensures r.Some? ==> r.value < |list| && list[r.value].blocked.Some?
      ensures r.Some? ==> forall j :: 0 <= j < |list| && list[j].blocked.Some? ==>
        list[r.value].blocked.value <= list[j].blocked.value
      ensures r.Some? ==> forall j :: 0 <= j < r.value && list[j].blocked.Some? ==>
        list[r.value].blocked.value < list[j].blocked.value
    {
      r := None;
      var i := 0;
      while i < |list|
        invariant i <= |list|
        invariant r.None? <==> forall j :: 0 <= j < i ==> list[j].blocked.None?
        invariant r.Some? ==> r.value < i && list[r.value].blocked.Some?
        invariant r.Some? ==> forall j :: 0 <= j < i && list[j].blocked.Some? ==>
          list[r.value].blocked.value <= list[j].blocked.value
        invariant r.Some? ==> forall j :: 0 <= j < r.value && list[j].blocked.Some? ==>
          list[r.value].blocked.value < list[j].blocked.value
      {
        var p := list[i];
        if p.blocked.Some? && (r.None? || list[r.value].blocked.value > p.blocked.value) {
          r := Some(i);
        }
        i := i + 1;
      }
    }

    /** The counting loop of `blocked()`: counts active proxies in list order
        and stops as soon as the count reaches FreeSlotsNeeded. */
    method CountFreeSlots(now: int) returns (count: nat)
      ensures var active := CountActive(cfg, list, now);
        count == if 1 <= cfg.freeSlotsNeeded <= active then cfg.freeSlotsNeeded else active
      ensures count == cfg.freeSlotsNeeded <==> ReleasesLatch(cfg, list, now)
    {
      count := 0;
      var i := 0;
      while i < |list|
        invariant i <= |list|
        invariant count == CountActive(cfg, list[..i], now)
        invariant cfg.freeSlotsNeeded >= 1 ==> count < cfg.freeSlotsNeeded
      {
        assert list[..i + 1][..i] == list[..i];
        if IsActive(cfg, list[i], now) {
          count := count + 1;
          if count == cfg.freeSlotsNeeded {
            CountActivePrefix(cfg, list, i + 1, now);
            return;
          }
        }
        i := i + 1;
      }
      assert list[..i] == list;
    }

    /** `blocked()`: with the latch unset, not blocked and nothing changes;
        with it set, the latch is cleared (and the pool reported free) exactly
        when enough proxies are active, otherwise blocked with the latch kept. */
    method Blocked(now: int) returns (b: bool)
      modifies this`allBlockedLatch
      ensures !old(allBlockedLatch) ==> !b && !allBlockedLatch
      ensures old(allBlockedLatch) ==> b == !ReleasesLatch(cfg, list, now) && allBlockedLatch == b
    {
      if allBlockedLatch {
        var count := CountFreeSlots(now);
        if count == cfg.freeSlotsNeeded {
          allBlockedLatch := false;
        } else {
          return true;
        }
      }
      return false;
    }

    /** `setList`: installs a new registry; cursors and the latch are kept. */
    method SetList(newList: seq<Proxy>)
      modifies this`list
      ensures list == newList
      ensures index == old(index) && allBlockedLatch == old(allBlockedLatch) && timeWaited == old(timeWaited)
    {
      list := newList;
    }

    /** `nextProxy(host)`. When no proxy is active it fails at once, with
        ALL_BLOCKED (setting the latch) if the block test alone already rules
        every proxy out, else with ALL_BROKEN. Otherwise it advances the host's
        cursor one step at a time, skipping candidates, until one is taken
        (revived and handed out) or the pool is found busy (the caller waits
        UseWaitTime, which is added to `timeWaited`). `steps` counts the advances. */
    method NextProxy(host: string, now: int) returns (r: Outcome, ghost steps: nat)
      modifies this`list, this`index, this`allBlockedLatch, this`timeWaited
      ensures allBlockedLatch == (old(allBlockedLatch) || r == AllBlockedError)
      ensures AllBroken(cfg, old(list), now) ==>
        && r == (if AllBlocked(cfg, old(list), now) then AllBlockedError else AllBrokenError)
        && list == old(list) && index == old(index) && timeWaited == old(timeWaited)
      ensures !AllBroken(cfg, old(list), now) ==>
        var c := CursorOf(old(index), host);
        var n := |old(list)|;
        var i := Orbit(c, steps, n);
        && 1 <= steps <= n
        && 0 <= i < n
        && index == old(index)[host := i]
        && SkippedBefore(cfg, old(list), c, steps, now)
        && Inspect(cfg, old(list), i, now) != Skip
        && (Inspect(cfg, old(list), i, now) == Take ==>
              r == Picked(i) && list == old(list)[i := Revive(old(list)[i])] && timeWaited == old(timeWaited))
        && (Inspect(cfg, old(list), i, now) == Hold ==>
              r == Wait && list == old(list) && timeWaited == old(timeWaited) + cfg.useWaitTime)
    {
      if AllBroken(cfg, list, now) {
        if AllBlocked(cfg, list, now) {
          allBlockedLatch := true;
          return AllBlockedError, 0;
        }
        return AllBrokenError, 0;
      }
      // The recursive calls re-test allBroken on the same, unchanged list, so
      // the test above stands for all of them.
      var n := |list|;
      var c := CursorOf(index, host);
      ghost var bound := WalkEndsWithinLength(cfg, list, c, now);
      var cur := Step(c, n);
      index := index[host := cur];
      steps := 1;
      while Inspect(cfg, list, cur, now) == Skip
        invariant list == old(list) && allBlockedLatch == old(allBlockedLatch) && timeWaited == old(timeWaited)
        invariant 1 <= steps <= bound
        invariant cur == Orbit(c, steps, n)
        invariant index == old(index)[host := cur]
        invariant SkippedBefore(cfg, list, c, steps, now)
        decreases bound - steps
      {
        cur := Step(cur, n);
        steps := steps + 1;
        index := index[host := cur];
      }
      if Inspect(cfg, list, cur, now) == Take {
        list := list[cur := Revive(list[cur])];
        r := Picked(cur);
      } else {
        timeWaited := timeWaited + cfg.useWaitTime;
        r := Wait;
      }
    }
  }

  /** When every candidate would be taken, the walk stops at its first advance. */
  lemma FirstCandidateTaken(cfg: Config, list: seq<Proxy>, c: int, steps: nat, now: int)
    requires c >= -1 && |list| > 0 && steps >= 1
    requires forall i :: 0 <= i < |list| ==> Inspect(cfg, list, i, now) == Take
    requires SkippedBefore(cfg, list, c, steps, now)
    ensures steps == 1
  {
    var first := Orbit(c, 1, |list|);
    assert Inspect(cfg, list, first, now) == Take;
  }

  /** Three healthy, idle proxies: a host seen for the first time is served
      them in list order, then the cycle starts again; a second host has its
      own cursor and starts at the first proxy. */
  method RoundRobinScenario(now: int) returns (picks: seq<Outcome>)
    ensures picks == [Picked(0), Picked(1), Picked(2), Picked(0), Picked(0)]
  {
    var cfg := Config(3, 1000, 1000, false, 200, 30);
    var p := Proxy("a", 0, 0, None, None, false);
    var list := [p, p.(address := "b"), p.(address := "c")];
    assert forall i :: 0 <= i < |list| ==> Inspect(cfg, list, i, now) == Take && Revive(list[i]) == list[i];
    assert IsActive(cfg, list[0], now);
    var m := new ProxyManager(cfg, list);
    var r0, s0 := m.NextProxy("h", now);
    FirstCandidateTaken(cfg, list, -1, s0, now);
    assert m.list == list && m.index == map["h" := 0];
    var r1, s1 := m.NextProxy("h", now);
    FirstCandidateTaken(cfg, list, 0, s1, now);
    assert m.list == list && m.index == map["h" := 1];
    var r2, s2 := m.NextProxy("h", now);
    FirstCandidateTaken(cfg, list, 1, s2, now);
    assert m.list == list && m.index == map["h" := 2];
    var r3, s3 := m.NextProxy("h", now);
    FirstCandidateTaken(cfg, list, 2, s3, now);
    assert m.list == list && m.index == map["h" := 0];
    var r4, s4 := m.NextProxy("g", now);
    FirstCandidateTaken(cfg, list, -1, s4, now);
    picks := [r0, r1, r2, r3, r4];
  }
}
