/**
  The stand-alone relay of app.js: its own round-robin `nextProxy` over the
  configured proxy addresses, with breakage recorded per destination host in
  `Broken[host][proxy]`; `onError`'s timeout bookkeeping; the URL checks of
  `handleRequest`; and the reply `sendResponse` writes. Parsing a URL is the
  caller-supplied `hostOf`, which yields the parsed `host` (None when absent).
*/
module Relay {
  import opened Wrappers
  import opened Cursor

  /** `Broken`: destination host -> proxy address -> time of its last timeout. */
  type BrokenMap = map<string, map<string, int>>

  /** `Broken[host][proxy]` holds a (truthy, non-zero) stamp whose repair
      window has not passed yet. */
  predicate InRepair(broken: BrokenMap, host: string, proxy: string, repairTime: int, now: int)
    ensures InRepair(broken, host, proxy, repairTime, now) ==>
      host in broken && proxy in broken[host] && now < broken[host][proxy] + repairTime
  {
    host in broken && proxy in broken[host] && broken[host][proxy] != 0 &&
    now < broken[host][proxy] + repairTime
  }

  /** Every configured proxy is inside its repair window for `host`. */
  predicate AllInRepair(broken: BrokenMap, host: string, proxies: seq<string>, repairTime: int, now: int)
    ensures !AllInRepair(broken, host, proxies, repairTime, now) ==>
      exists i :: 0 <= i < |proxies| && !InRepair(broken, host, proxies[i], repairTime, now)
  {
    forall i :: 0 <= i < |proxies| ==> InRepair(broken, host, proxies[i], repairTime, now)
  }

  /** The guard as written, `Broken[host].length === Proxies.length`, for a
      host whose entry is the plain object `onError` creates: that object only
      has a `length` entry if a proxy is literally called "length". (A host
      named after an inherited property, such as "constructor", reads an
      inherited value instead; such hosts are not part of this model.) */
  predicate SourceGuard(broken: BrokenMap, host: string, n: nat)
    ensures SourceGuard(broken, host, n) ==> host in broken && "length" in broken[host]
  {
    host in broken && "length" in broken[host] && broken[host]["length"] == n
  }

  /** As long as no proxy address is "length", the guard as written never
      fires for a host whose entry `onError` created, whatever the map holds. */
  lemma SourceGuardDead(broken: BrokenMap, host: string, proxies: seq<string>)
    requires host in broken ==> forall a :: a in broken[host] ==> a in proxies
    requires "length" !in proxies
    ensures !SourceGuard(broken, host, |proxies|)
  {
  }

  /** The concrete case: the one proxy timed out for this host a moment ago,
      so every proxy is in its repair window, yet the guard as written stays
      false; the source then recurses on the same proxy without end. */
  lemma SourceGuardMissesTimeout(now: int)
    ensures var broken := map["h" := map["a" := now]];
      && (now != 0 ==> AllInRepair(broken, "h", ["a"], 1000, now))
      && !SourceGuard(broken, "h", 1)
      && (forall k: nat :: k > 0 ==> Orbit(-1, k, 1) == 0)
  {
  }

  /** `onError`'s update for an `ETIMEDOUT`: create `Broken[host]` when
      missing and stamp the proxy with `now`, overwriting an earlier stamp. */
  function RecordTimeout(broken: BrokenMap, host: string, proxy: string, now: int): (r: BrokenMap)
    ensures r.Keys == broken.Keys + {host}
    ensures proxy in r[host] && r[host][proxy] == now
    ensures r[host].Keys == (if host in broken then broken[host].Keys else {}) + {proxy}
    ensures forall q :: q in r[host] && q != proxy ==> r[host][q] == broken[host][q]
    ensures forall h :: h in broken && h != host ==> r[h] == broken[h]
  {
    var entry := if host in broken then broken[host] else map[];
    broken[host := entry[proxy := now]]
  }

  /** Breakage is per host: a timeout recorded for one host changes nothing
      about any other host. */
  lemma TimeoutIsPerHost(broken: BrokenMap, host: string, proxy: string, t: int,
                         other: string, q: string, repairTime: int, now: int)
    requires other != host
    ensures InRepair(RecordTimeout(broken, host, proxy, t), other, q, repairTime, now)
        == InRepair(broken, other, q, repairTime, now)
  {
  }

  /** After a timeout at `t`, the proxy is in repair for that host exactly
      until `t + RepairTime`; the other proxies keep their state. */
  lemma TimeoutStartsRepair(broken: BrokenMap, host: string, proxy: string, t: int,
                            q: string, repairTime: int, now: int)
    ensures InRepair(RecordTimeout(broken, host, proxy, t), host, proxy, repairTime, now)
        <==> t != 0 && now < t + repairTime
    ensures q != proxy ==>
      InRepair(RecordTimeout(broken, host, proxy, t), host, q, repairTime, now)
        == InRepair(broken, host, q, repairTime, now)
  {
  }

  /** The message of the error thrown when no proxy can serve a host. */
  function TimedOutMessage(host: string): string
  {
    "all proxies timed out for " + host + ", consider using the \"timeout\" parameter"
  }

  /** A parsed URL has a host when `url.host` is a non-empty string. */
  predicate HasHost(h: Option<string>)
  {
    h.Some? && h.value != ""
  }

  /** The target of a valid request and the host its cursor is kept for. */
  datatype Target = Target(url: string, host: string)

  function MissingUrlMessage(port: string): string
  {
    "provide a url parameter, for example: service:" + port + "/url=www.google.de"
  }

  const BadUrlMessage: string := "supply a proper url, for example: url=google.de"

  /** The checks of `handleRequest`: a missing or empty `url` parameter is an
      error; a value without a host is parsed once more with an `http://`
      prefix, and is an error if that has no host either. */
  function ValidateTarget(port: string, url: Option<string>, hostOf: string -> Option<string>)
    : (r: Result<Target, string>)
    ensures (url.None? || url == Some("")) ==> r == Err(MissingUrlMessage(port))
    ensures r.Ok? ==>
      url.Some? && HasHost(hostOf(r.value.url)) && hostOf(r.value.url) == Some(r.value.host)
    ensures r.Ok? && HasHost(hostOf(url.value)) ==> r.value.url == url.value
    ensures r.Ok? && !HasHost(hostOf(url.value)) ==> r.value.url == "http://" + url.value
    ensures r.Err? <==>
      (url.None? || url == Some("") ||
       (!HasHost(hostOf(url.value)) && !HasHost(hostOf("http://" + url.value))))
    ensures r.Err? && url.Some? && url.value != "" ==> r.error == BadUrlMessage
  {
    if url.None? || url.value == "" then Err(MissingUrlMessage(port))
    else if HasHost(hostOf(url.value)) then Ok(Target(url.value, hostOf(url.value).value))
    else
      var retry := "http://" + url.value;
      if HasHost(hostOf(retry)) then Ok(Target(retry, hostOf(retry).value))
      else Err(BadUrlMessage)
  }

  /** A header value: a number or a string. */
  datatype HeaderValue = Number(n: nat) | Text(s: string)

  /** What `res.writeHead` and `res.end` send back. */
  datatype Reply = Reply(status: int, headers: map<string, HeaderValue>, body: string)

  /** How the forwarded request ended: an error (possibly without a message)
      or the upstream's response. */
  datatype Completion =
    | Failed(message: Option<string>)
    | Answered(status: int, headers: map<string, HeaderValue>, body: string)

  /** `sendResponse`: an error becomes a plain-text 500 whose declared length
      is that of its body, the message (empty when there is none); an upstream
      response is passed through unchanged. */
  function SendResponse(c: Completion): (r: Reply)
    ensures c.Failed? ==>
      && r.status == 500
      && r.headers.Keys == {"Content-Length", "Content-Type"}
      && r.headers["Content-Type"] == Text("text/plain")
      && r.headers["Content-Length"] == Number(|r.body|)
      && r.body == (if c.message.Some? then c.message.value else "")
    ensures c.Answered? ==>
      r.status == c.status && r.headers == c.headers && r.body == c.body
  {
    match c
    case Failed(message) =>
      var text := if message.Some? then message.value else "";
      Reply(500, map["Content-Length" := Number(|text|), "Content-Type" := Text("text/plain")], text)
    case Answered(status, headers, body) => Reply(status, headers, body)
  }

  /** The timeout given to the forwarded request: `query.timeout || DefaultTimeout`. */
  datatype Timeout = FromQuery(text: string) | Configured(ms: Option<int>)

  function TimeoutOf(query: Option<string>, defaultTimeout: Option<int>): (t: Timeout)
    ensures t.FromQuery? <==> query.Some? && query.value != ""
    ensures t.FromQuery? ==> t.text == query.value
    ensures t.Configured? ==> t.ms == defaultTimeout
  {
    if query.Some? && query.value != "" then FromQuery(query.value) else Configured(defaultTimeout)
  }

  /** The parameters `handleRequest` reads from the query string. */
  datatype Query = Query(url: Option<string>, timeout: Option<string>)

  /** What `handleRequest` does with a request: forward it through a proxy, or
      answer at once. */
  datatype Dispatch = Forward(url: string, proxy: string, timeout: Timeout) | Respond(reply: Reply)

  class Relay {
    /** `Proxies`: the configured proxy addresses. */
    const proxies: seq<string>
    const port: string
    /** RepairTime, used as configured (milliseconds). */
    const repairTime: int
    const defaultTimeout: Option<int>
    /** `Index`: the last index handed out per destination host. */
    var index: map<string, nat>
    var broken: BrokenMap

    /** The process start-up: the proxy list must not be empty. */
    constructor (proxies: seq<string>, port: string, repairTime: int, defaultTimeout: Option<int>)
      requires |proxies| > 0
      ensures this.proxies == proxies && this.port == port
      ensures this.repairTime == repairTime && this.defaultTimeout == defaultTimeout
      ensures index == map[] && broken == map[]
    {
      this.proxies := proxies;
      this.port := port;
      this.repairTime := repairTime;
      this.defaultTimeout := defaultTimeout;
      index := map[];
      broken := map[];
    }

    /** `nextProxy(host)`: advance the host's cursor until the proxy under it
        is outside its repair window for this host, and return that proxy.
        When every proxy is inside its window the call throws the
        "all proxies timed out" error after its first advance. */
    method NextProxy(host: string, now: int) returns (r: Result<string, string>, ghost steps: nat)
      requires |proxies| > 0
      modifies this`index
      ensures var c := CursorOf(old(index), host);
        var i := Orbit(c, steps, |proxies|);
        && 1 <= steps <= |proxies|
        && 0 <= i < |proxies|
        && index == old(index)[host := i]
        && (AllInRepair(broken, host, proxies, repairTime, now) ==>
              steps == 1 && r == Err(TimedOutMessage(host)))
        && (!AllInRepair(broken, host, proxies, repairTime, now) ==>
              && r == Ok(proxies[i])
              && !InRepair(broken, host, proxies[i], repairTime, now)
              && forall j :: 1 <= j < steps ==>
                   InRepair(broken, host, proxies[Orbit(c, j, |proxies|)], repairTime, now))
    {
      var n := |proxies|;
      var c := CursorOf(index, host);
      var cur := Step(c, n);
      index := index[host := cur];
      steps := 1;
      if AllInRepair(broken, host, proxies, repairTime, now) {
        return Err(TimedOutMessage(host)), 1;
      }
      ghost var t :| 0 <= t < n && !InRepair(broken, host, proxies[t], repairTime, now);
      OrbitReaches(c, t, n);
      ghost var bound := Distance(c, t, n);
      while InRepair(broken, host, proxies[cur], repairTime, now)
        invariant 1 <= steps <= bound
        invariant cur == Orbit(c, steps, n)
        invariant index == old(index)[host := cur]
        invariant forall j :: 1 <= j < steps ==>
          InRepair(broken, host, proxies[Orbit(c, j, n)], repairTime, now)
        decreases bound - steps
      {
        cur := Step(cur, n);
        steps := steps + 1;
        index := index[host := cur];
      }
      r := Ok(proxies[cur]);
    }

    /** `onError`: a timeout marks the proxy broken for the request's host;
        every other error leaves the map as it was. */
    method OnError(host: string, proxy: string, code: Option<string>, now: int)
      modifies this`broken
      ensures broken == if code == Some("ETIMEDOUT")
                        then RecordTimeout(old(broken), host, proxy, now)
                        else old(broken)
    {
      if code == Some("ETIMEDOUT") {
        broken := RecordTimeout(broken, host, proxy, now);
      }
    }

    /** `handleRequest` up to the forwarded call: validate the target, pick a
        proxy for its host, and forward; a thrown error is answered through
        `sendResponse`. */
    method HandleRequest(query: Query, hostOf: string -> Option<string>, now: int)
      returns (d: Dispatch, ghost steps: nat)
      requires |proxies| > 0
      modifies this`index
      ensures var v := ValidateTarget(port, query.url, hostOf);
        && (v.Err? ==> d == Respond(SendResponse(Failed(Some(v.error)))) && index == old(index) && steps == 0)
        && (v.Ok? ==>
              var host := v.value.host;
              var c := CursorOf(old(index), host);
              var i := Orbit(c, steps, |proxies|);
              && 1 <= steps <= |proxies|
              && 0 <= i < |proxies|
              && index == old(index)[host := i]
              && (AllInRepair(broken, host, proxies, repairTime, now) ==>
                    steps == 1 && d == Respond(SendResponse(Failed(Some(TimedOutMessage(host))))))
              && (!AllInRepair(broken, host, proxies, repairTime, now) ==>
                    && d == Forward(v.value.url, proxies[i], TimeoutOf(query.timeout, defaultTimeout))
                    && !InRepair(broken, host, proxies[i], repairTime, now)
                    && forall j :: 1 <= j < steps ==>
                         InRepair(broken, host, proxies[Orbit(c, j, |proxies|)], repairTime, now)))
    {
      var v := ValidateTarget(port, query.url, hostOf);
      if v.Err? {
        return Respond(SendResponse(Failed(Some(v.error)))), 0;
      }
      var picked;
      picked, steps := NextProxy(v.value.host, now);
      if picked.Err? {
        return Respond(SendResponse(Failed(Some(picked.error)))), steps;
      }
      d := Forward(v.value.url, picked.value, TimeoutOf(query.timeout, defaultTimeout));
    }
  }

  /** Two proxies; "a" times out for host "x". Host "x" is then served "b",
      while host "y", for which nothing broke, is still served "a". An error
      other than a timeout records nothing. */
  method PerHostScenario() returns (forX: Result<string, string>, forY: Result<string, string>)
    ensures forX == Ok("b") && forY == Ok("a")
  {
    var relay := new Relay(["a", "b"], "8080", 1000, None);
    relay.OnError("x", "b", Some("ECONNRESET"), 5000);
    assert relay.broken == map[];
    relay.OnError("x", "a", Some("ETIMEDOUT"), 5000);
    assert relay.broken == map["x" := map["a" := 5000]];
    assert !InRepair(relay.broken, "x", relay.proxies[1], 1000, 5000);
    assert InRepair(relay.broken, "x", relay.proxies[0], 1000, 5000);
    ghost var stepsX, stepsY;
    forX, stepsX := relay.NextProxy("x", 5000);
    assert forX == Ok("b");
    assert "y" !in relay.index && Orbit(-1, 1, 2) == 0;
    forY, stepsY := relay.NextProxy("y", 5000);
    assert stepsY == 1;
  }

  /** A fresh relay with proxies "a" and "b" and no breakage: the first valid
      request for host "x" is forwarded through "a", the first proxy, and the
      host's cursor is left on index 0. */
  method FirstRequestScenario() returns (d: Dispatch, cursor: nat)
    ensures d == Forward("x", "a", Configured(None)) && cursor == 0
  {
    var relay := new Relay(["a", "b"], "8080", 1000, None);
    var hostOf := (u: string) => if u == "x" then Some("x") else None;
    ghost var steps;
    d, steps := relay.HandleRequest(Query(Some("x"), None), hostOf, 5000);
    assert !InRepair(relay.broken, "x", relay.proxies[0], 1000, 5000);
    assert Orbit(-1, 1, 2) == 0;
    assert steps == 1;
    cursor := relay.index["x"];
  }
}
