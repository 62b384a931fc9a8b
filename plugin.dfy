/**
 * The plugin object itself: its fields are updated in place by
 * `initialize`, `_fetch_with_cache` and `terminate`. Each method is proved
 * against the function of the same name in module StockCache.
 */
module Plugin {
  import opened Results
  import opened Json
  import opened StockCache

  class NvidiaStockPlugin {
    var session: Session
    var cache: map<string, Entry>

    /** The object's fields as a value of the specification's state type. */
    function Snapshot(): State
      reads this
    {
      State(session, cache)
    }

    ghost predicate Valid()
      reads this
    {
      Consistent(Snapshot())
    }

    constructor ()
      ensures Valid()
      ensures Snapshot() == Constructed()
    {
      session := NoSession;
      cache := map[];
    }

    method Initialize()
      requires Valid()
      modifies this
      ensures Valid()
      ensures Snapshot() == StockCache.Initialize(old(Snapshot()))
    {
      session := Open;
    }

    /**
     * Returns what `_fetch_with_cache(ticker)` returns or raises when called
     * at time `now`, and whether it sent a request; `resp` is read only when
     * a request is sent.
     */
    method FetchWithCache(ticker: string, now: int, resp: Response)
      returns (r: Result<Json, FetchError>, requested: bool)
      requires Valid()
      modifies this`cache
      ensures Valid()
      ensures FetchOutcome(r, Snapshot(), requested) == Fetch(old(Snapshot()), ticker, now, resp)
    {
      if ticker in cache {
        var entry := cache[ticker];
        if now - entry.fetchedAt < CacheExpiry {
          return Ok(entry.payload), false;
        }
      }
      var data: Json;
      match session {
        case NoSession =>
          return Err(NotInitialized), false;
        case Closed =>
          return Err(SessionClosed), false;
        case Open =>
          requested := true;
          match resp {
            case Failed(msg) =>
              return Err(RequestFailed(msg)), true;
            case Received(body) =>
              data := body;
          }
      }
      var checked := CheckBody(data);
      if checked.Err? {
        return checked, true;
      }
      cache := cache[ticker := Entry(data, now)];
      r := Ok(data);
    }

    /** Returns whether the session's `close()` was awaited. */
    method Terminate() returns (closed: bool)
      requires Valid()
      modifies this
      ensures Valid()
      ensures closed == ClosesSession(old(Snapshot()))
      ensures Snapshot() == StockCache.Terminate(old(Snapshot()))
    {
      closed := session != NoSession;
      if closed {
        session := Closed;
      }
      cache := map[];
    }
  }
}
