/**
 * The time-expiring lookaside cache of the NVDA stock plugin, as pure
 * functions on the plugin's state. Each function here is the specification
 * of one method of the class in module Plugin.
 *
 * Time is an integer number of microseconds (the resolution of Python's
 * datetime), taken as a parameter instead of reading the wall clock. No
 * monotonicity is assumed: like the source, an entry whose age is negative
 * (the clock went backwards) counts as fresh.
 */
module StockCache {
  import opened Results
  import opened Json

  /** Five minutes, the fixed lifetime of a cache entry, in microseconds. */
  const CacheExpiry: int := 5 * 60 * 1_000_000

  /** The key of the provider's rate-limit advisory in a response body. */
  const NoteKey: string := "Note"

  /**
   * The plugin's HTTP session handle: absent until `initialize`, open after
   * it, and closed (but still present) after `terminate`.
   */
  datatype Session = NoSession | Open | Closed

  /** A cached response body and the time at which its fetch started. */
  datatype Entry = Entry(payload: Json, fetchedAt: int)

  /** The fields of the plugin object that its methods read and write. */
  datatype State = State(session: Session, cache: map<string, Entry>)

  /**
   * What the network call produced, supplied as an input: either an
   * exception raised by the session (timeout, connection error, a status
   * rejected by `raise_for_status`, a body that does not decode as JSON),
   * or the decoded body.
   */
  datatype Response = Failed(msg: string) | Received(body: Json)

  /** The exceptions that `_fetch_with_cache` re-raises to its caller. */
  datatype FetchError =
    | NotInitialized            // `self._session` is None, so `.get` raises
    | SessionClosed             // the session was closed by `terminate`
    | RequestFailed(msg: string)
    | Advisory(note: Json)      // `Exception(data["Note"])`
    | BodyError(cause: PyError) // `in` or `[]` raised on an unexpected body

  /** The result of one fetch: what it returns or raises, the new state, and whether the network was asked. */
  datatype FetchOutcome = FetchOutcome(result: Result<Json, FetchError>, state: State, requested: bool)

  /** The state of a freshly constructed plugin. */
  function Constructed(): (st: State)
    ensures st.session == NoSession && st.cache == map[]
  {
    State(NoSession, map[])
  }

  /** `ticker` has an entry younger than the expiry: a strict comparison of its age. */
  predicate IsFresh(cache: map<string, Entry>, ticker: string, now: int)
  {
    ticker in cache && now - cache[ticker].fetchedAt < CacheExpiry
  }

  /**
   * The bodies the plugin stores: a dict without the advisory key, a list
   * without the string "Note" among its elements, or a string that does not
   * contain "Note". Every other body makes the fetch raise.
   */
  predicate Cacheable(data: Json)
  {
    match data
    case Obj(fields) => NoteKey !in fields
    case Arr(items) => Str(NoteKey) !in items
    case Str(s) => !IsSubstring(NoteKey, s)
    case _ => false
  }

  /**
   * The advisory check applied to a decoded body: raise with `data["Note"]`
   * when the body contains the advisory marker, otherwise accept the body.
   */
  function CheckBody(data: Json): (r: Result<Json, FetchError>)
    ensures r.Ok? <==> Cacheable(data)
    ensures r.Ok? ==> r.value == data
    ensures data.Obj? && NoteKey in data.fields ==> r == Err(Advisory(data.fields[NoteKey]))
    ensures r.Err? && !(data.Obj? && NoteKey in data.fields) ==> r.error == BodyError(TypeError)
  {
    match Contains(data, NoteKey)
    case Err(e) => Err(BodyError(e))
    case Ok(hasNote) =>
      if !hasNote then Ok(data)
      else match GetItem(data, NoteKey)
        case Err(e) => Err(BodyError(e))
        case Ok(note) => Err(Advisory(note))
  }

  /**
   * The network step inside the `try` block: the session must exist and be
   * open before a request is sent, and the response is then decoded.
   */
  function Request(session: Session, resp: Response): (r: Result<Json, FetchError>)
    ensures session == NoSession ==> r == Err(NotInitialized)
    ensures session == Closed ==> r == Err(SessionClosed)
    ensures session == Open && resp.Received? ==> r == Ok(resp.body)
    ensures session == Open && resp.Failed? ==> r == Err(RequestFailed(resp.msg))
  {
    match session
    case NoSession => Err(NotInitialized)
    case Closed => Err(SessionClosed)
    case Open =>
      match resp
      case Failed(msg) => Err(RequestFailed(msg))
      case Received(body) => Ok(body)
  }

  /**
   * `_fetch_with_cache(ticker)` at time `now`, where `resp` is what the
   * network would answer if asked. A fresh entry is returned without asking;
   * otherwise the body of a successful, advisory-free response is stored
   * under `ticker` with the time the call started, and every failure leaves
   * the state as it was.
   */
  function Fetch(st: State, ticker: string, now: int, resp: Response): (o: FetchOutcome)
    ensures o.state.session == st.session
    ensures o.requested <==> !IsFresh(st.cache, ticker, now) && st.session == Open
    ensures IsFresh(st.cache, ticker, now) ==>
              o.result == Ok(st.cache[ticker].payload) && o.state == st
    ensures o.result.Err? ==> o.state == st
    ensures o.result.Ok? && o.requested ==>
              && resp == Received(o.result.value)
              && Cacheable(o.result.value)
              && o.state.cache == st.cache[ticker := Entry(o.result.value, now)]
    ensures !IsFresh(st.cache, ticker, now) && st.session == Open && resp.Received? && Cacheable(resp.body) ==>
              o.result == Ok(resp.body) && o.state.cache == st.cache[ticker := Entry(resp.body, now)]
    ensures !IsFresh(st.cache, ticker, now) && st.session == Open && resp.Failed? ==>
              o.result == Err(RequestFailed(resp.msg))
    ensures !IsFresh(st.cache, ticker, now) && st.session == Open && resp.Received? && !Cacheable(resp.body) ==>
              o.result == CheckBody(resp.body) && o.state == st
    ensures !IsFresh(st.cache, ticker, now) && st.session != Open ==>
              o.result == Err(if st.session == NoSession then NotInitialized else SessionClosed)
    ensures forall k :: k != ticker ==>
              (k in o.state.cache <==> k in st.cache) &&
              (k in st.cache ==> o.state.cache[k] == st.cache[k])
  {
    if IsFresh(st.cache, ticker, now) then
      FetchOutcome(Ok(st.cache[ticker].payload), st, false)
    else
      var requested := st.session == Open;
      match Request(st.session, resp)
      case Err(e) => FetchOutcome(Err(e), st, requested)
      case Ok(data) =>
        match CheckBody(data)
        case Err(e) => FetchOutcome(Err(e), st, requested)
        case Ok(_) =>
          FetchOutcome(Ok(data), st.(cache := st.cache[ticker := Entry(data, now)]), requested)
  }

  /** `initialize()`: a new open session; the cache is not touched. */
  function Initialize(st: State): (st': State)
    ensures st'.session == Open && st'.cache == st.cache
  {
    st.(session := Open)
  }

  /** Whether `terminate()` awaits `close()`: whenever a session object exists, open or not. */
  predicate ClosesSession(st: State)
  {
    st.session != NoSession
  }

  /**
   * `terminate()`: a session that exists is closed (it stays set, now closed)
   * and the whole cache is dropped, fresh entries included.
   */
  function Terminate(st: State): (st': State)
    ensures st'.cache == map[]
    ensures st'.session == (if ClosesSession(st) then Closed else NoSession)
  {
    State(if st.session == NoSession then NoSession else Closed, map[])
  }

  /**
   * The invariant every reachable state keeps: without an open session the
   * cache is empty, and every cached payload is a body that passed the
   * advisory check.
   */
  ghost predicate Consistent(st: State)
  {
    && (st.session != Open ==> st.cache == map[])
    && forall k :: k in st.cache ==> Cacheable(st.cache[k].payload)
  }

  // Properties of a single call

  /** A fresh entry is served as stored, whatever the network would have answered. */
  lemma FreshEntryIgnoresNetwork(st: State, ticker: string, now: int, resp1: Response, resp2: Response)
    requires IsFresh(st.cache, ticker, now)
    ensures Fetch(st, ticker, now, resp1) == Fetch(st, ticker, now, resp2)
                                          == FetchOutcome(Ok(st.cache[ticker].payload), st, false)
  {
  }

  /** An entry exactly five minutes old, or older, is a miss: an open session sends a request. */
  lemma ExpiryIsStrict(st: State, ticker: string, now: int, resp: Response)
    requires ticker in st.cache && now - st.cache[ticker].fetchedAt >= CacheExpiry
    ensures !IsFresh(st.cache, ticker, now)
    ensures Fetch(st, ticker, now, resp).requested <==> st.session == Open
  {
  }

  /**
   * On a miss with an open session, a body carrying the advisory key makes
   * the fetch raise with exactly the advisory's value, and nothing is stored;
   * an expired entry for the ticker stays in place.
   */
  lemma AdvisoryIsNeverCached(st: State, ticker: string, now: int, fields: map<string, Json>)
    requires !IsFresh(st.cache, ticker, now) && st.session == Open
    requires NoteKey in fields
    ensures Fetch(st, ticker, now, Received(Obj(fields))) ==
            FetchOutcome(Err(Advisory(fields[NoteKey])), st, true)
  {
  }

  /** A fetch on a freshly constructed plugin raises without touching the network or the cache. */
  lemma FetchBeforeInitializeFails(ticker: string, now: int, resp: Response)
    ensures Fetch(Constructed(), ticker, now, resp) == FetchOutcome(Err(NotInitialized), Constructed(), false)
  {
  }

  /** After `terminate`, a fetch raises because the session is closed, and nothing changes. */
  lemma FetchAfterTerminateFails(st: State, ticker: string, now: int, resp: Response)
    requires st.session != NoSession
    ensures Fetch(Terminate(st), ticker, now, resp) == FetchOutcome(Err(SessionClosed), Terminate(st), false)
  {
  }

  /** Each operation keeps the invariant. */
  lemma OperationsKeepConsistent(st: State, ticker: string, now: int, resp: Response)
    requires Consistent(st)
    ensures Consistent(Initialize(st))
    ensures Consistent(Fetch(st, ticker, now, resp).state)
    ensures Consistent(Terminate(st))
  {
  }

  // Properties of two successive calls

  /**
   * Two fetches of one ticker with no failure in between send at most one
   * request: after a fetch that went to the network and succeeded, a second
   * fetch less than five minutes later returns the same payload from the
   * cache and changes nothing.
   */
  lemma RepeatWithinWindowIsHit(st: State, ticker: string, t1: int, t2: int, resp1: Response, resp2: Response)
    requires Fetch(st, ticker, t1, resp1).result.Ok?
    requires t2 - t1 < CacheExpiry
    ensures var first := Fetch(st, ticker, t1, resp1);
            var second := Fetch(first.state, ticker, t2, resp2);
            && !(first.requested && second.requested)
            && (first.requested ==> second == FetchOutcome(first.result, first.state, false))
  {
  }

  /**
   * Once five minutes have passed since the stored fetch started, the next
   * fetch asks the network again and returns the new body, which replaces
   * the old entry.
   */
  lemma RefetchAfterExpiry(st: State, ticker: string, t1: int, t2: int, resp1: Response, body: Json)
    requires st.session == Open
    requires Fetch(st, ticker, t1, resp1).requested && Fetch(st, ticker, t1, resp1).result.Ok?
    requires t2 - t1 >= CacheExpiry && Cacheable(body)
    ensures var first := Fetch(st, ticker, t1, resp1);
            var second := Fetch(first.state, ticker, t2, Received(body));
            && second.requested
            && second.result == Ok(body)
            && second.state.cache[ticker] == Entry(body, t2)
  {
  }

  /** After `terminate` and a new `initialize`, every ticker is a miss that goes to the network. */
  lemma TerminateForgetsEverything(st: State, ticker: string, now: int, resp: Response)
    ensures Fetch(Initialize(Terminate(st)), ticker, now, resp).requested
  {
  }
}
