# proxy-rotator: the proxy pool and the relay's selection logic, in Dafny

This project models the proxy pool of the proxy-rotator forwarding relay and
proves properties of that model. The pool hands out upstream HTTP proxies round-robin per
destination host, classifies them as active, broken, blocked or busy, and
keeps a sticky "pool exhausted" latch. The project also models the older,
stand-alone relay in `app.js`:

- its own round-robin picker with per-host breakage;
- its timeout bookkeeping;
- its URL checks;
- the reply it sends back.

Files:

- `wrappers.dfy`: `Option` and `Result`.
- `cursor.dfy`: the per-host cursor that both pickers advance (`Index[host]`).
- `proxy_health.dfy`: proxy records, the configuration constants and the
  pure classification (`isActive`, `allBlocked`, `allBroken`, `allInUse`).
  It also holds the counters of `status` and the release rule of `blocked()`.
- `proxy_manager.dfy`: the class `ProxyManager`. It holds the registry (a
  sequence of proxy records), the `Index` map, the `_allBlocked` latch (field `allBlockedLatch`) and
  `timeWaited`. Its methods are `status`, `firstBlocked`, `blocked`,
  `setList` and `nextProxy`, the last one as a loop.
- `relay.dfy`: the class `Relay` of `app.js`, with its `nextProxy`, `onError`
  and `handleRequest`. The URL validation and `sendResponse` are pure functions.

Time is a parameter `now` in milliseconds. One call reads the clock once.
The configuration constants are a `Config` value, derived by `Settings`
exactly as the module derives them: `|| default` and seconds times 1000.
`nextProxy`'s retry through `setTimeout` is the outcome `Wait`; the caller
retries after `UseWaitTime`.

## Model

| member | source | states |
|---|---|---|
| `ProxyHealth.SettingsDefaults` | proxymanager.js:7-12 | A configured non-zero MaxErrors, UseWaitTime or FreeSlotsNeeded is kept. A missing or 0 one takes its default 3, 200 or 30, so none of the three is 0. A missing AllowMultipleCalls is false. Repair and block times are converted from seconds to milliseconds. |
| `ProxyHealth.Settings` | proxymanager.js:7-12 | The derived MaxErrors, UseWaitTime and FreeSlotsNeeded are never 0, and each keeps its configured value when that value is non-zero. AllowMultipleCalls holds only when it is configured true. |
| `ProxyHealth.IsActive` | proxymanager.js:20-25 | An active proxy is not exhausted and is outside both its block window and its repair window. |
| `ProxyHealth.AllBlocked` | proxymanager.js:53-59 | When the pool is all blocked, no proxy is active. |
| `ProxyHealth.AllBroken` | proxymanager.js:60-65 | A pool that is not all broken has an active proxy. |
| `ProxyHealth.AllInUse` | proxymanager.js:66-71 | A pool that is not all in use has an active proxy that is not in use. |
| `ProxyHealth.ReleasesLatch` | proxymanager.js:81 | With a positive FreeSlotsNeeded, releasing the latch needs at least that many active proxies. |
| `ProxyHealth.Bump` | proxymanager.js:37-41 | One proxy adds exactly one to alive + broken. It never makes error + blocked exceed broken or inUse exceed alive. It adds to alive iff the proxy is active. |
| `ProxyHealth.Tally` | proxymanager.js:36-42 | Over a list, alive + broken equals its length. |
| `ProxyHealth.StatusOf` | proxymanager.js:26-44 | The report's proxies count is the list length, and alive + broken equals it. |
| `ProxyHealth.ActiveExactly` | proxymanager.js:20-25 | A proxy is active iff it is not exhausted (errors at MaxErrors with no hit), not inside its block window and not inside its repair window. |
| `ProxyHealth.ErrorCountExemption` | proxymanager.js:22 | A proxy with errors ≥ MaxErrors is judged only on its windows when it has hits. It is never active when it has no hit. |
| `ProxyHealth.RepairRevival` | proxymanager.js:24 | A proxy broken at t is inactive for now < t + RepairTime and active from t + RepairTime on. |
| `ProxyHealth.ExhaustionChain` | proxymanager.js:53-71 | allBlocked implies allBroken, and allBroken implies allInUse. |
| `ProxyHealth.ExhaustionChainStrict` | proxymanager.js:53-71 | Neither implication reverses. A proxy inside its repair window is all-broken but not all-blocked. A busy active proxy is all-in-use but not all-broken. |
| `ProxyHealth.CountActive` | proxymanager.js:74-80 | The number of active proxies never exceeds the list length. |
| `ProxyHealth.CountActivePrefix` | proxymanager.js:75-80 | Counting stops early at a prefix, and a prefix never has more active proxies than the whole list. |
| `ProxyHealth.CountActiveZero` | proxymanager.js:60-65 | No active proxy counted is the same as allBroken. |
| `ProxyHealth.HysteresisThreshold` | proxymanager.js:72-88 | With a positive FreeSlotsNeeded, the latch is released iff at least FreeSlotsNeeded proxies are active. Fewer revived proxies do not release it. |
| `ProxyHealth.TallyBalances` | proxymanager.js:36-42 | Each proxy falls in exactly one branch: alive + broken equals the count, error + blocked ≤ broken, inUse ≤ alive. alive is the number of active proxies. |
| `ProxyHealth.StatusBalances` | proxymanager.js:26-44 | The full report has proxies equal to the list length, alive + broken = proxies, error + blocked ≤ broken, inUse ≤ alive. |
| `Manager.Inspect` | proxymanager.js:116-144 | A candidate that is not skipped is not exhausted. A taken one is outside its block window. A wait happens only for a busy candidate, with simultaneous calls disallowed and every active proxy busy. An active candidate that is free (or multiple calls are allowed) is always taken. |
| `Manager.Revive` | proxymanager.js:128-144 | The record handed out keeps address, counters and inUse. Its block is cleared, and its break is cleared only when it had no block. |
| `Manager.TakenProxy` | proxymanager.js:116-146 | A handed-out proxy is not exhausted, is not busy when simultaneous calls are disallowed, and is outside its block window. The record handed back differs from it only by a cleared expired block, or else a cleared expired break. |
| `Manager.HoldMeansPoolBusy` | proxymanager.js:119-126 | A candidate makes the caller wait iff it is not exhausted, multiple calls are disallowed, it is in use and every active proxy is in use. |
| `Manager.ActiveNotSkipped` | proxymanager.js:116-144 | An active proxy is skipped only when it is busy while another active proxy is free. |
| `Manager.SomeCandidateStops` | proxymanager.js:98-146 | Unless the pool is all broken, some index of the list ends the walk. |
| `Manager.WalkEndsWithinLength` | proxymanager.js:105-146 | From any cursor, the walk stops within list-length advances when the pool is not all broken. |
| `Manager.ExpiredBlockHidesBreak` | proxymanager.js:128-144 | A proxy whose block expired is revived and handed out even while it is still inside its repair window, although it is not active. |
| `Manager.FirstCandidateTaken` | proxymanager.js:114-146 | When every candidate would be taken, the walk stops at its first advance. |
| `Manager.RoundRobinScenario` | proxymanager.js:97-147 | With three healthy idle proxies, a new host gets indices 0, 1, 2, then 0 again. A second host starts at 0 on its own cursor. |
| `Manager.ProxyManager.constructor` | proxymanager.js:1-6 | The pool starts with the given non-empty list, no cursors and the latch unset. |
| `Manager.ProxyManager.Status` | proxymanager.js:26-44 | Returns the bucket counts of the list. They satisfy the balance of StatusBalances, and alive equals the number of active proxies. |
| `Manager.ProxyManager.FirstBlocked` | proxymanager.js:45-52 | Returns nothing iff no proxy has a block. Otherwise it returns a blocked proxy whose timestamp is ≤ every other block timestamp and strictly < those of blocked proxies before it (first in list order on ties). |
| `Manager.ProxyManager.CountFreeSlots` | proxymanager.js:74-81 | The count loop ends on FreeSlotsNeeded when at least that many proxies are active, else on the number of active proxies. It reaches FreeSlotsNeeded exactly when the latch may be released. |
| `Manager.ProxyManager.Blocked` | proxymanager.js:72-88 | Latch unset: returns false and nothing changes. Latch set: clears it and returns false iff enough proxies are active; otherwise returns true with the latch kept. |
| `Manager.ProxyManager.SetList` | proxymanager.js:89-92 | Installs the new list and keeps every cursor, the latch and timeWaited. |
| `Manager.ProxyManager.NextProxy` | proxymanager.js:97-147 | All-broken pool: fails without touching cursors or proxies, with ALL_BLOCKED (and the latch set) iff allBlocked also holds, else ALL_BROKEN. Otherwise: only `Index[host]` moves, through 1..n advances; every earlier candidate was skipped; the last one is taken (returned, and only its record revived) or makes the caller wait (timeWaited grows by UseWaitTime, nothing else changes). |
| `Cursor.CursorOf` | proxymanager.js:106 | A host with no entry has cursor -1, so its first advance lands on index 0. A host with an entry has that entry as its cursor. |
| `Cursor.SourceStep` | proxymanager.js:106-113 | The advance as written goes to 0 or one past the cursor, and stays inside the list while the cursor is inside it. |
| `Cursor.SourceOrbit` | proxymanager.js:106-113 | After at least one advance as written, the cursor is non-negative. It may lie past the end of the list (see SourceCursorEscapes). |
| `Cursor.Step` | proxymanager.js:106-113 | One advance lands inside the list: at 0 or one past the previous cursor. |
| `Cursor.SourceStepAgrees` | app.js:29-30 | While the cursor is inside the list, the source's advance and Step agree. |
| `Cursor.Orbit` | proxymanager.js:105-118 | After at least one advance the cursor is inside the list. |
| `Cursor.OrbitClosedForm` | app.js:29-30 | From inside the list, k ≤ n advances move the cursor k places forward modulo n. |
| `Cursor.OrbitReaches` | proxymanager.js:105-118 | Every index is reached within n advances from any cursor. |
| `Cursor.FreshHostOrder` | app.js:29-30 | A host seen for the first time is given indices 0, 1, 2, … in order. |
| `Cursor.FullCycle` | proxymanager.js:106-113 | n advances bring a cursor inside the list back to where it was. |
| `Cursor.SourceCursorEscapes` | proxymanager.js:106-114 | As written, a cursor past the end of a shortened list never wraps again, so every later index is outside the list. |
| `Cursor.ShrunkListExample` | proxymanager.js:89-92 | A cursor on the last of three proxies goes to index 3 after the list is cut to two; Step wraps it to 0. |
| `Relay.InRepair` | app.js:35-42 | A proxy counts as broken for a host only when that host's entry holds a stamp for it and the repair window has not passed. |
| `Relay.AllInRepair` | app.js:35-42 | When not every proxy is in repair for the host, some configured proxy is outside its repair window. |
| `Relay.SourceGuard` | app.js:36 | The guard as written can only hold when the host's entry has a "length" key. |
| `Relay.SourceGuardDead` | app.js:36-38 | For a host whose entry `onError` created, the "all proxies timed out" guard as written never fires unless a proxy is named "length". This does not cover hosts named after inherited properties (see Left out). |
| `Relay.SourceGuardMissesTimeout` | app.js:35-42 | One proxy that has just timed out for a host puts every proxy in repair, yet the guard stays false and the walk keeps landing on that proxy. |
| `Relay.RecordTimeout` | app.js:54-58 | A timeout creates the host's entry if absent and stamps the proxy with now, overwriting an older stamp. Nothing is removed, and other hosts and proxies keep their stamps. |
| `Relay.TimeoutIsPerHost` | app.js:35-42 | A timeout recorded for one host does not change whether any proxy is in repair for another host. |
| `Relay.TimeoutStartsRepair` | app.js:39-42 | After a timeout at t, the proxy is in repair for that host iff t is non-zero and now < t + RepairTime. Other proxies are unaffected. An expired stamp stays in the map but is ignored. |
| `Relay.ValidateTarget` | app.js:74-81 | A missing or empty url is an error. A url whose parse has a host is used as given. Otherwise it is re-parsed once with an `http://` prefix, and is an error iff that has no host either. A valid target always has a host. |
| `Relay.SendResponse` | app.js:101-114 | An error gives status 500, only the headers Content-Length and Content-Type `text/plain`, a body equal to the message (empty if none) and a Content-Length equal to the body's length. An upstream response passes status, headers and body through unchanged. |
| `Relay.Relay.constructor` | app.js:14-22 | The relay starts with a non-empty proxy list, no cursors and no breakage. |
| `Relay.Relay.NextProxy` | app.js:27-46 | Only `Index[host]` moves, through 1..n advances. If some proxy is outside its repair window for the host, the first such candidate is returned and all earlier ones were in repair. Otherwise the call throws the "all proxies timed out" error after one advance. |
| `Relay.Relay.OnError` | app.js:51-65 | An `ETIMEDOUT` error records the timeout for the request's host. Any other error leaves the map unchanged. |
| `Relay.TimeoutOf` | app.js:88 | The request timeout is the query's `timeout` when present and non-empty, otherwise the configured default. |
| `Relay.Relay.HandleRequest` | app.js:70-96 | An invalid target is answered with a 500 carrying the validation message, and no cursor moves. For a valid target, only its host's cursor moves, to the position `nextProxy` reaches. If every proxy is in repair for that host, the answer is a 500 "all proxies timed out". Otherwise the request is forwarded to the target through exactly the proxy `nextProxy` picks: the first candidate outside its repair window, all earlier ones being in repair. The timeout is `query.timeout`, or else the configured default. |
| `Relay.FirstRequestScenario` | app.js:70-96 | On a fresh relay with proxies "a" and "b", the first request for "x" is forwarded through "a", and the host's cursor ends on 0. |
| `Relay.PerHostScenario` | app.js:35-58 | After a timeout of proxy "a" for host "x", "x" is served "b" while host "y" is still served "a". A non-timeout error records nothing. |

## Left out

- Configuration loading (config.js, app.js:12): a file read and `JSON.parse`. The rule that the proxy list is non-empty becomes the `requires |list| > 0` of both constructors.
- The shuffle of the list at load (proxymanager.js:6): randomness from a library. The model takes the list in whatever order it is given.
- `Date.now()`: every call takes one `now`. nextProxy's repeated clock reads are one instant.
- The timer of `setTimeout` (proxymanager.js:125): the `Wait` outcome stands for it. The retry after the delay is a new call.
- Logging through log4js and `console.log`.
- The `Proxy` constructor of `./proxy` is not part of this model. Records hold the fields the shown code reads. Nothing in the shown code increments `hits` or `errors` or sets `blocked`, so the model does not either. There is no 403 handling and no grace-time spacing.
- `ProxyManager.list`, the exported alias that `setList` also updates: the model has one `list` field.
- Manager.ProxyManager.constructor: the initial value of `timeWaited` is not set in proxymanager.js; the model starts it at 0.
- Non-numeric configuration (a missing `repairTime` or `blockTimeout` gives NaN in the source): the model takes both as integers.
- The HTTP server, `request.get`, `res.writeHead`/`res.end` and `server.listen` (network I/O). `HandleRequest` stops at the forwarded call's parameters; `SendResponse` returns the reply instead of writing it.
- Node's `url.parse` and `querystring.parse` are not part of this model. Host extraction is the parameter `hostOf`. A query with a repeated `url` parameter (which `querystring.parse` turns into an array) is not modelled.
- Relay.InRepair: looking up a proxy address that names a property every JavaScript object inherits (`constructor`, `toString`, …) is not modelled; addresses are plain keys.
- Cursor.CursorOf: `Index` (proxymanager.js:1, app.js:22) and `Broken` (app.js:21) are plain JavaScript objects. The model treats them as maps with own keys only. A destination host named after an inherited property (`constructor`, `hasOwnProperty`, `isPrototypeOf`, …) behaves differently in the source, and that behaviour is not modelled.
  - In both files, `typeof Index[host]` is then `'function'`, so `Index[host]++` gives NaN. proxymanager.js:116 then throws a TypeError on `list[NaN].errors`, and app.js:32 picks `undefined` as the proxy. The model gives such a host index 0.
- Relay.SourceGuard: for such a host, `Broken[host]` in app.js:35-36 is an inherited value. For `constructor` it is `Object`, whose `length` is 1, so with exactly one proxy the "all proxies timed out" error is thrown. SourceGuard and SourceGuardDead speak only of entries created by `onError`.
- Relay.SendResponse: lengths are counted in characters (Unicode scalar values). The source's `err.message.length` counts UTF-16 code units, and `res.end` writes UTF-8 bytes. So for a non-ASCII message the source's Content-Length differs from the model's, and from the number of bytes actually sent.
- Relay.Relay.NextProxy: the model follows the corrected behaviour of the second Findings row. As written, a host with every proxy in repair sends the source into endless recursion, which ends in a stack overflow that `handleRequest` turns into a 500.
- Relay.Relay.HandleRequest: for a host with every proxy in repair, the model answers with the corrected 500 "all proxies timed out" and moves `Index[host]` by one step. As written, app.js:41 recurses until the stack overflows. The 500 then carries the RangeError's message, and `Index[host]` has moved once per recursive call.
- Manager.ProxyManager.NextProxy: the model follows the corrected cursor step of the first Findings row. As written, the call throws a TypeError when a cursor is past the end of a shortened list.

## Findings

| source | as written | input that shows it | evidently intended | confidence | as-written member | corrected member |
|---|---|---|---|---|---|---|
| proxymanager.js:106-114 | The cursor wraps only when `Index[host] + 1` equals the list length, and `setList` keeps the cursors. | Three proxies, a host's cursor on index 2, then `setList` with two proxies. The next call sets the cursor to 3; `list[3]` is undefined and reading `.errors` throws. The cursor never comes back. | Wrap whenever the next position is outside the list. | medium, not executed | `Cursor.SourceCursorEscapes` | `Cursor.Step` |
| app.js:35-38 | The "all proxies timed out" guard compares `Broken[host].length` with the number of proxies. For a host whose entry `onError` created, `Broken[host]` is a plain object, so it has no `length`. | One proxy "a", a timeout for host "h" at `now`, a request for "h" before `now + RepairTime`. The guard is false, and `nextProxy` calls itself on "a" without end. | Throw the "all proxies timed out" error when every proxy is inside its repair window for the host. | high, not executed | `Relay.SourceGuardMissesTimeout` | `Relay.Relay.NextProxy` |
