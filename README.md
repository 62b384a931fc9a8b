# NVDA stock plugin: the quote cache, in Dafny

This project models the core of the `nvdastock` chat-bot plugin. That core is
the class `NvidiaStockPlugin` in `main.py` and the time-expiring lookaside
cache behind `_fetch_with_cache`. Each ticker symbol maps to the last
successfully fetched response body and the time that fetch started. A fetch
serves a cached body while it is less than five minutes old. Otherwise it asks
the quote provider. It stores the answer only when the whole request
succeeded and the body has no rate-limit advisory (`"Note"`). Every failure
is re-raised and leaves the cache as it was. The plugin has a small
lifecycle: construct, then `initialize` (which opens the HTTP session), then
any number of fetches, then `terminate` (which closes the session and clears
the cache).

Files:

- `results.dfy`: module `Results`, the `Result` type for a value or a raised exception.
- `json.dfy`: module `Json`, the decoded response body, plus Python's `key in data` and `data[key]` on it, including the `TypeError`s they raise on the wrong kind of value.
- `stock_cache.dfy`: module `StockCache`, the plugin state as a value and one specification function per method (`Initialize`, `Fetch`, `Terminate`). It also holds the advisory check, the invariant `Consistent`, and lemmas about one call and about two successive calls.
- `plugin.dfy`: module `Plugin`, the class `NvidiaStockPlugin`. Its fields `session` and `cache` are updated in place. Each method is proved against its specification function and keeps `Valid()`.
- `lifecycle.dfy`: module `Lifecycle`, every sequence of calls after construction. It has inductive lemmas about the states such a sequence reaches.

Modelling choices:

- **The clock** is a parameter `now`, in integer microseconds, which is the resolution of Python's `datetime`. `CacheExpiry` is 300 000 000 µs. The model assumes nothing about monotonicity. As in the source, an entry with a negative age counts as fresh.
- **The network** is the input `resp`. `Failed(msg)` stands for any exception raised while requesting or decoding: a timeout, a connection error, a status rejected by `raise_for_status`, or a body that is not JSON. `Received(body)` is the decoded body.
- **The `requested` result** says whether the network was asked. A cache hit never reads `resp`.
- **The session** has three states: `NoSession`, `Open` and `Closed`. `terminate` closes the session but does not reset the field to `None`, so afterwards the session is `Closed`. A fetch on a `Closed` session raises before anything is sent; this is aiohttp's behaviour. A fetch before `initialize` raises because `None` has no `.get` (main.py:42). That exception is re-raised like any other (main.py:57-59).
- **Non-dict bodies.** The advisory check follows Python exactly:
  - On a list, `"Note" in data` is element equality. On a string, it is a substring search.
  - On a number, boolean or null it raises `TypeError`.
  - On a list or string that contains `"Note"`, `data["Note"]` raises `TypeError`.
  - A list or string without `"Note"` is cached and returned.

  Only a dict carrying the `"Note"` key raises with the advisory itself (main.py:50-51).
- **Terminate on a closed session.** `terminate` tests only `if self._session:` (main.py:86-87). A session object is always truthy, so `close()` is awaited again on a session that an earlier `terminate` already closed. `ClosesSession` models this.

## Model

| member | source | states |
|---|---|---|
| `StockCache.Constructed` | main.py:11-15 | a new plugin has no session and an empty cache |
| `Plugin.NvidiaStockPlugin.constructor` | main.py:11-15 | the constructed object's fields are the `Constructed` state and satisfy the invariant |
| `Json.Contains` | main.py:50 | `"Note" in data` raises exactly on null, booleans and numbers; on a dict it is key membership |
| `Json.GetItem` | main.py:51 | `data["Note"]` succeeds exactly on a dict that has the key and yields that field; any other dict gives a KeyError |
| `StockCache.CheckBody` | main.py:49-51 | a body is accepted exactly when it is `Cacheable`, and then unchanged; a dict with `"Note"` raises with exactly `data["Note"]`; every other rejection, including a list or string containing `"Note"`, is a TypeError |
| `StockCache.Request` | main.py:41-47 | no session raises "not initialized", a closed session raises before sending, and an open session yields the response body or re-raises the network error |
| `StockCache.Fetch` | main.py:23-59 | a request is sent iff the entry is not fresh and the session is open; a fresh entry is returned with the state unchanged; a failure leaves the state unchanged; on a miss with an open session, a received cacheable body is returned and stored as `(body, now)` and a network failure raises with its message, and a rejected body raises what the advisory check raises (the advisory or a TypeError) with the state unchanged; on a miss without an open session the fetch raises "not initialized" or "session closed"; a fetched success is always a received, cacheable body stored as `(body, now)`; other tickers' entries and the session never change |
| `Plugin.NvidiaStockPlugin.FetchWithCache` | main.py:23-59 | the returned value, the request flag and the new fields are those of `Fetch` on the old fields, and `Valid()` is kept |
| `StockCache.Initialize` | main.py:17-21 | the session becomes open and the cache is untouched |
| `Plugin.NvidiaStockPlugin.Initialize` | main.py:17-21 | the new fields are `Initialize` of the old ones, and `Valid()` is kept |
| `StockCache.Terminate` | main.py:84-89 | the cache is empty afterwards whatever it held; a session that existed becomes closed, and an absent one stays absent |
| `Plugin.NvidiaStockPlugin.Terminate` | main.py:84-89 | `close()` is awaited iff a session object exists; the new fields are `Terminate` of the old ones |
| `StockCache.FreshEntryIgnoresNetwork` | main.py:28-32 | a fresh entry's payload is returned without a request, the state is unchanged, and the outcome is the same whatever the network would answer |
| `StockCache.ExpiryIsStrict` | main.py:30 | an entry aged exactly five minutes or more is not fresh; the fetch then sends a request iff the session is open |
| `StockCache.AdvisoryIsNeverCached` | main.py:49-59 | on a miss with an open session, a body with `"Note"` raises with exactly its value and leaves the state, including an expired entry, unchanged |
| `StockCache.FetchBeforeInitializeFails` | main.py:41-42 | a fetch on a new plugin raises "not initialized", sends nothing and changes nothing |
| `StockCache.FetchAfterTerminateFails` | main.py:84-88 | after `terminate` of a plugin that had a session, a fetch raises "session closed", sends nothing and changes nothing |
| `StockCache.OperationsKeepConsistent` | main.py:17-88 | initialize, fetch and terminate each keep `Consistent`: no cache without an open session, and only cacheable bodies are cached |
| `StockCache.RepeatWithinWindowIsHit` | main.py:28-55 | when the first of two fetches succeeds and the second comes less than five minutes later, at most one of them sends a request; after a fetched success, the second is a pure hit with the same payload |
| `StockCache.RefetchAfterExpiry` | main.py:28-55 | five minutes or more after a fetched success, the next fetch sends a request, returns the new body and stores it stamped with its own start time |
| `StockCache.TerminateForgetsEverything` | main.py:84-88 | after terminate and a new initialize, every fetch is a miss that goes to the network |
| `Lifecycle.RunIsConsistent` | main.py:11-88 | every state reachable from construction by any sequence of calls is `Consistent` |
| `Lifecycle.CachedEntriesWereReceived` | main.py:47-54 | every cache entry is the body received by an earlier fetch of that ticker that sent a request from the state before it, stamped with the time that fetch started |
| `Lifecycle.SessionFollowsLifecycle` | main.py:13-88 | the session is absent iff `initialize` was never called, and open iff some `initialize` was not followed by a `terminate` |
| `Lifecycle.RequestsOnlyWhileLive` | main.py:41-46 | a fetch sends a request only after an `initialize` that no `terminate` has followed |

## Left out

- The `nvda_stock` command handler (main.py:61-82) is not part of this model. It is formatting and host glue: `float` parsing, `:.2f` formatting, the wall-clock `strftime` line, and replies through the host framework.
- The HTTP details are not modelled: the endpoint URL, the query parameters, the placeholder API key, the 10-second timeout, and the construction of the aiohttp session (main.py:19-20, 35-47). They appear only through the abstract `Response` input.
- Logging (main.py:21, 31, 58, 81, 89), the `@register` and `@filter.command` decorators, and the unused `asyncio` and `lru_cache` imports are left out.
- Async scheduling is left out. Calls are modelled one after another. So the race between two in-flight fetches of one ticker, where the later completion overwrites the earlier, is not captured, and neither is cancellation mid-request.
- A second `initialize` on an open session replaces the handle. The previous session is then abandoned without being closed. The model keeps only the session's state, so it does not record that leaked session.
- Object identity is left out. On a hit the source returns the very dict it stored (main.py:29, 32), and after a fetch the stored and returned `data` are one object (main.py:54-55), so a caller that mutates the returned dict changes the cached entry. `Json` is an immutable value here, so the model returns an equal value and does not capture that aliasing.
- The text of exception messages is left out. Errors are kept as kinds, each with its payload: the network message, or the advisory value itself.
