/**
  Proxy records and the pure health classification of proxymanager.js:
  `isActive`, `allBlocked`, `allBroken`, `allInUse`, the bucket counting of
  `status` and the hysteresis threshold consulted by `blocked()`.
  Times are milliseconds; one instant `now` stands for every clock read of a call.
*/
module ProxyHealth {
  import opened Wrappers

  /** One upstream proxy. `broken` and `blocked` are the timestamps of the last
      breakage and block, absent when the proxy is healthy (the source stores
      `false` after a revival, which reads the same as absent). */
  datatype Proxy = Proxy(
    address: string,
    errors: nat,
    hits: nat,
    broken: Option<int>,
    blocked: Option<int>,
    inUse: bool)

  /** The module constants MaxErrors, RepairTime and BlockTimeout (both in
      milliseconds), AllowMultipleCalls, UseWaitTime and FreeSlotsNeeded. */
  datatype Config = Config(
    maxErrors: int,
    repairTime: int,
    blockTimeout: int,
    allowMultipleCalls: bool,
    useWaitTime: int,
    freeSlotsNeeded: int)

  /** The configuration file's fields as read; `None` is a missing field. */
  datatype RawConfig = RawConfig(
    maxErrors: Option<int>,
    repairTime: int,
    blockTimeout: int,
    allowMultipleCalls: Option<bool>,
    useWaitTime: Option<int>,
    freeSlotsNeeded: Option<int>)

  /** JavaScript's `value || fallback` on a numeric field: a missing field and 0 are falsy. */
  function OrElse(v: Option<int>, fallback: int): int
  {
    if v.Some? && v.value != 0 then v.value else fallback
  }

  /** The constants as the module derives them from the configuration. */
  function Settings(raw: RawConfig): (cfg: Config)
    ensures cfg.maxErrors != 0 && cfg.useWaitTime != 0 && cfg.freeSlotsNeeded != 0
    ensures cfg.allowMultipleCalls <==> raw.allowMultipleCalls == Some(true)
    ensures raw.maxErrors.Some? && raw.maxErrors.value != 0 ==> cfg.maxErrors == raw.maxErrors.value
    ensures raw.useWaitTime.Some? && raw.useWaitTime.value != 0 ==> cfg.useWaitTime == raw.useWaitTime.value
    ensures raw.freeSlotsNeeded.Some? && raw.freeSlotsNeeded.value != 0 ==>
      cfg.freeSlotsNeeded == raw.freeSlotsNeeded.value
  {
    Config(
      OrElse(raw.maxErrors, 3),
      raw.repairTime * 1000,
      raw.blockTimeout * 1000,
      raw.allowMultipleCalls == Some(true),
      OrElse(raw.useWaitTime, 200),
      OrElse(raw.freeSlotsNeeded, 30))
  }

  /** A configured non-zero count is kept; an unset or 0 count takes its
      default 3, 200 or 30, so none of the three can be 0; an unset
      AllowMultipleCalls is false; the two windows are converted from
      seconds to milliseconds. */
  lemma SettingsDefaults(raw: RawConfig)
    ensures var cfg := Settings(raw);
      && ((raw.maxErrors.None? || raw.maxErrors == Some(0)) ==> cfg.maxErrors == 3)
      && (raw.maxErrors.Some? && raw.maxErrors.value != 0 ==> cfg.maxErrors == raw.maxErrors.value)
      && (raw.allowMultipleCalls.None? ==> !cfg.allowMultipleCalls)
      && ((raw.useWaitTime.None? || raw.useWaitTime == Some(0)) ==> cfg.useWaitTime == 200)
      && (raw.useWaitTime.Some? && raw.useWaitTime.value != 0 ==> cfg.useWaitTime == raw.useWaitTime.value)
      && ((raw.freeSlotsNeeded.None? || raw.freeSlotsNeeded == Some(0)) ==> cfg.freeSlotsNeeded == 30)
      && (raw.freeSlotsNeeded.Some? && raw.freeSlotsNeeded.value != 0 ==> cfg.freeSlotsNeeded == raw.freeSlotsNeeded.value)
      && cfg.maxErrors != 0 && cfg.useWaitTime != 0 && cfg.freeSlotsNeeded != 0
      && cfg.repairTime == 1000 * raw.repairTime
      && cfg.blockTimeout == 1000 * raw.blockTimeout
  {
  }

  /** Never succeeded and has used up its error allowance. */
  predicate Exhausted(cfg: Config, p: Proxy)
  {
    p.errors >= cfg.maxErrors && p.hits == 0
  }

  /** Still inside the block window. */
  predicate BlockWindow(cfg: Config, p: Proxy, now: int)
  {
    p.blocked.Some? && now < p.blocked.value + cfg.blockTimeout
  }

  /** Still inside the repair window. */
  predicate RepairWindow(cfg: Config, p: Proxy, now: int)
  {
    p.broken.Some? && now < p.broken.value + cfg.repairTime
  }

  /** Usable when the broken test is ignored: the test `allBlocked` applies. */
  predicate UsableByBlock(cfg: Config, p: Proxy, now: int)
  {
    (p.errors < cfg.maxErrors || p.hits != 0) &&
    (p.blocked.None? || now >= p.blocked.value + cfg.blockTimeout)
  }

  /** `isActive`: not exhausted, and neither block nor break still in force. */
  predicate IsActive(cfg: Config, p: Proxy, now: int)
    ensures IsActive(cfg, p, now) ==> !Exhausted(cfg, p)
    ensures IsActive(cfg, p, now) ==> !BlockWindow(cfg, p, now) && !RepairWindow(cfg, p, now)
  {
    (p.errors < cfg.maxErrors || p.hits != 0) &&
    (p.blocked.None? || now >= p.blocked.value + cfg.blockTimeout) &&
    (p.broken.None? || now >= p.broken.value + cfg.repairTime)
  }

  /** Active is exactly: not exhausted, outside any block window, outside any repair window. */
  lemma ActiveExactly(cfg: Config, p: Proxy, now: int)
    ensures IsActive(cfg, p, now) <==>
      !Exhausted(cfg, p) && !BlockWindow(cfg, p, now) && !RepairWindow(cfg, p, now)
  {
  }

  /** A proxy that ever succeeded is never retired by its error count alone;
      one that never did is inactive once its errors reach MaxErrors. */
  lemma ErrorCountExemption(cfg: Config, p: Proxy, now: int)
    requires p.errors >= cfg.maxErrors
    ensures p.hits != 0 ==>
      (IsActive(cfg, p, now) <==> !BlockWindow(cfg, p, now) && !RepairWindow(cfg, p, now))
    ensures p.hits == 0 ==> !IsActive(cfg, p, now)
  {
  }

  /** A proxy broken at `t` and otherwise healthy is inactive strictly before
      `t + RepairTime` and active from then on. */
  lemma RepairRevival(cfg: Config, p: Proxy, t: int, now: int)
    requires p.broken == Some(t) && p.blocked.None? && !Exhausted(cfg, p)
    ensures IsActive(cfg, p, now) <==> now >= t + cfg.repairTime
  {
  }

  /** `allBlocked`: no proxy is usable when the broken test is ignored. */
  predicate AllBlocked(cfg: Config, list: seq<Proxy>, now: int)
    ensures AllBlocked(cfg, list, now) ==> forall i :: 0 <= i < |list| ==> !IsActive(cfg, list[i], now)
  {
    !(exists i :: 0 <= i < |list| && UsableByBlock(cfg, list[i], now))
  }

  /** `allBroken`: no proxy is active. */
  predicate AllBroken(cfg: Config, list: seq<Proxy>, now: int)
    ensures !AllBroken(cfg, list, now) ==> exists i :: 0 <= i < |list| && IsActive(cfg, list[i], now)
  {
    forall i :: 0 <= i < |list| ==> !IsActive(cfg, list[i], now)
  }

  /** `allInUse`: every active proxy is in use. */
  predicate AllInUse(cfg: Config, list: seq<Proxy>, now: int)
    ensures !AllInUse(cfg, list, now) ==>
      exists i :: 0 <= i < |list| && IsActive(cfg, list[i], now) && !list[i].inUse
  {
    forall i :: 0 <= i < |list| ==> list[i].inUse || !IsActive(cfg, list[i], now)
  }

  /** allBlocked implies allBroken implies allInUse. */
  lemma ExhaustionChain(cfg: Config, list: seq<Proxy>, now: int)
    ensures AllBlocked(cfg, list, now) ==> AllBroken(cfg, list, now)
    ensures AllBroken(cfg, list, now) ==> AllInUse(cfg, list, now)
  {
  }

  /** Neither implication reverses: one proxy inside its repair window is
      all-broken but not all-blocked, and one busy active proxy is all-in-use
      but not all-broken. */
  lemma ExhaustionChainStrict(now: int)
    ensures var cfg := Config(3, 1000, 1000, false, 200, 30);
      var repairing := [Proxy("a", 0, 0, Some(now), None, false)];
      var busy := [Proxy("a", 0, 0, None, None, true)];
      && AllBroken(cfg, repairing, now) && !AllBlocked(cfg, repairing, now)
      && AllInUse(cfg, busy, now) && !AllBroken(cfg, busy, now)
  {
    var cfg := Config(3, 1000, 1000, false, 200, 30);
    var repairing := [Proxy("a", 0, 0, Some(now), None, false)];
    var busy := [Proxy("a", 0, 0, None, None, true)];
    assert UsableByBlock(cfg, repairing[0], now);
    assert IsActive(cfg, busy[0], now);
  }

  /** The number of active proxies, counted over the list in order. */
  function CountActive(cfg: Config, s: seq<Proxy>, now: int): (r: nat)
    ensures r <= |s|
  {
    if s == [] then 0
    else CountActive(cfg, s[..|s| - 1], now) + (if IsActive(cfg, s[|s| - 1], now) then 1 else 0)
  }

  /** A prefix never has more active proxies than the whole list. */
  lemma {:induction false} CountActivePrefix(cfg: Config, s: seq<Proxy>, i: nat, now: int)
    requires i <= |s|
    ensures CountActive(cfg, s[..i], now) <= CountActive(cfg, s, now)
  {
    if i < |s| {
      CountActivePrefix(cfg, s[..|s| - 1], i, now);
      assert s[..|s| - 1][..i] == s[..i];
    } else {
      assert s[..i] == s;
    }
  }

  /** No active proxy at all means a count of zero, and conversely. */
  lemma {:induction false} CountActiveZero(cfg: Config, s: seq<Proxy>, now: int)
    ensures CountActive(cfg, s, now) == 0 <==> AllBroken(cfg, s, now)
  {
    if s != [] {
      var init := s[..|s| - 1];
      CountActiveZero(cfg, init, now);
      assert forall i :: 0 <= i < |init| ==> init[i] == s[i];
    }
  }

  /** `blocked()` releases the exhaustion latch when its count loop ends with
      exactly FreeSlotsNeeded: the loop stops as soon as it has counted that
      many active proxies, so it ends there when the list has at least that
      many, and otherwise ends on the total. */
  predicate ReleasesLatch(cfg: Config, list: seq<Proxy>, now: int)
    ensures cfg.freeSlotsNeeded >= 1 && ReleasesLatch(cfg, list, now) ==>
      CountActive(cfg, list, now) >= cfg.freeSlotsNeeded
  {
    var active := CountActive(cfg, list, now);
    active == cfg.freeSlotsNeeded || 1 <= cfg.freeSlotsNeeded <= active
  }

  /** With a positive FreeSlotsNeeded (the default 30, or any positive
      configured value; a configured negative one is kept as is and then
      never releases the latch at all, since the count it is compared with
      starts at 0 and only grows) the latch is released exactly when at least that
      many proxies are active; one or two revived proxies do not release it. */
  lemma HysteresisThreshold(cfg: Config, list: seq<Proxy>, now: int)
    requires cfg.freeSlotsNeeded >= 1
    ensures ReleasesLatch(cfg, list, now) <==> CountActive(cfg, list, now) >= cfg.freeSlotsNeeded
  {
  }

  /** The counters of `status`. */
  datatype Report = Report(proxies: nat, alive: nat, error: nat, broken: nat, blocked: nat, inUse: nat)

  /** Which counters one proxy adds to: the first matching branch of the
      source's if-chain wins. */
  function Bump(r: Report, cfg: Config, p: Proxy, now: int): (r': Report)
    ensures r'.alive + r'.broken == r.alive + r.broken + 1
    ensures r'.error + r'.blocked - r'.broken <= r.error + r.blocked - r.broken
    ensures r'.inUse - r'.alive <= r.inUse - r.alive
    ensures r'.alive == r.alive + (if IsActive(cfg, p, now) then 1 else 0)
    ensures r'.proxies == r.proxies
  {
    if Exhausted(cfg, p) then r.(error := r.error + 1, broken := r.broken + 1)
    else if RepairWindow(cfg, p, now) then r.(broken := r.broken + 1)
    else if BlockWindow(cfg, p, now) then r.(blocked := r.blocked + 1, broken := r.broken + 1)
    else if p.inUse then r.(inUse := r.inUse + 1, alive := r.alive + 1)
    else r.(alive := r.alive + 1)
  }

  /** The bucket counters over `s`, starting from zero (`proxies` left at 0). */
  function Tally(cfg: Config, s: seq<Proxy>, now: int): (r: Report)
    ensures r.alive + r.broken == |s| && r.proxies == 0
  {
    if s == [] then Report(0, 0, 0, 0, 0, 0)
    else Bump(Tally(cfg, s[..|s| - 1], now), cfg, s[|s| - 1], now)
  }

  /** What `status` reports for a list. */
  function StatusOf(cfg: Config, list: seq<Proxy>, now: int): (r: Report)
    ensures r.proxies == |list| && r.alive + r.broken == r.proxies
  {
    Tally(cfg, list, now).(proxies := |list|)
  }

  /** Every proxy lands in exactly one branch: alive and broken add up to the
      list; errors and blocks are kinds of broken; busy proxies are alive; and
      `alive` is the number of active proxies. */
  lemma {:induction false} TallyBalances(cfg: Config, s: seq<Proxy>, now: int)
    ensures var r := Tally(cfg, s, now);
      && r.alive + r.broken == |s|
      && r.error + r.blocked <= r.broken
      && r.inUse <= r.alive
      && r.alive == CountActive(cfg, s, now)
      && r.proxies == 0
  {
    if s != [] {
      TallyBalances(cfg, s[..|s| - 1], now);
    }
  }

  /** The report of `status` as a whole. */
  lemma StatusBalances(cfg: Config, list: seq<Proxy>, now: int)
    ensures var r := StatusOf(cfg, list, now);
      && r.proxies == |list|
      && r.alive + r.broken == r.proxies
      && r.error + r.blocked <= r.broken
      && r.inUse <= r.alive
      && r.alive == CountActive(cfg, list, now)
  {
    TallyBalances(cfg, list, now);
  }
}
