/**
 * The plugin's lifecycle: construct, then any sequence of `initialize`,
 * fetches and `terminate`, run one after another. The lemmas here hold for
 * every such sequence, by induction on its length.
 */
module Lifecycle {
  import opened StockCache

  /** One call into the plugin. A fetch carries its clock reading and what the network would answer. */
  datatype Call = Init | FetchQuote(ticker: string, now: int, resp: Response) | Shutdown

  function Step(st: State, c: Call): State
  {
    match c
    case Init => Initialize(st)
    case FetchQuote(ticker, now, resp) => Fetch(st, ticker, now, resp).state
    case Shutdown => Terminate(st)
  }

  /** The state after constructing the plugin and making `calls` in order. */
  function Run(calls: seq<Call>): State
    decreases |calls|
  {
    if calls == [] then Constructed()
    else Step(Run(calls[..|calls| - 1]), calls[|calls| - 1])
  }

  /**
   * Some call in `calls` was a fetch of `ticker` that started at
   * `e.fetchedAt`, sent a request from the state the earlier calls left,
   * and received `e.payload`.
   */
  ghost predicate WasReceived(calls: seq<Call>, ticker: string, e: Entry)
  {
    exists i :: 0 <= i < |calls| && calls[i] == FetchQuote(ticker, e.fetchedAt, Received(e.payload))
                && Fetch(Run(calls[..i]), ticker, e.fetchedAt, Received(e.payload)).requested
  }

  /** Some `initialize` in `calls` has not been followed by a `terminate`. */
  ghost predicate Live(calls: seq<Call>)
  {
    exists j :: 0 <= j < |calls| && calls[j] == Init && NoShutdownAfter(calls, j)
  }

  ghost predicate NoShutdownAfter(calls: seq<Call>, j: nat)
  {
    forall l :: j < l < |calls| ==> !calls[l].Shutdown?
  }

  /** Every state reachable from construction keeps the invariant. */
  lemma {:induction false} RunIsConsistent(calls: seq<Call>)
    ensures Consistent(Run(calls))
    decreases |calls|
  {
    if calls != [] {
      var st := Run(calls[..|calls| - 1]);
      RunIsConsistent(calls[..|calls| - 1]);
      match calls[|calls| - 1]
      case Init => OperationsKeepConsistent(st, "", 0, Failed(""));
      case FetchQuote(ticker, now, resp) => OperationsKeepConsistent(st, ticker, now, resp);
      case Shutdown => OperationsKeepConsistent(st, "", 0, Failed(""));
    }
  }

  /**
   * The cache holds only what the network delivered: every entry is the
   * body received by an earlier fetch of that very ticker that sent a
   * request, stamped with the time that fetch started.
   */
  lemma {:induction false} CachedEntriesWereReceived(calls: seq<Call>)
    ensures forall k :: k in Run(calls).cache ==> WasReceived(calls, k, Run(calls).cache[k])
    decreases |calls|
  {
    if calls != [] {
      var prefix, c := calls[..|calls| - 1], calls[|calls| - 1];
      CachedEntriesWereReceived(prefix);
      var before, after := Run(prefix), Run(calls);
      forall k | k in after.cache
        ensures WasReceived(calls, k, after.cache[k])
      {
        if k in before.cache && after.cache[k] == before.cache[k] {
          var e := before.cache[k];
          var i :| 0 <= i < |prefix| && prefix[i] == FetchQuote(k, e.fetchedAt, Received(e.payload))
                   && Fetch(Run(prefix[..i]), k, e.fetchedAt, Received(e.payload)).requested;
          assert calls[i] == prefix[i] && calls[..i] == prefix[..i];
        } else {
          assert c.FetchQuote? && c.ticker == k;
          var o := Fetch(before, k, c.now, c.resp);
          assert calls[..|calls| - 1] == prefix;
          assert calls[|calls| - 1] == FetchQuote(k, after.cache[k].fetchedAt, Received(after.cache[k].payload));
        }
      }
    }
  }

  /**
   * The session is absent until the first `initialize`, and open exactly
   * when some `initialize` has not been followed by a `terminate`.
   */
  lemma {:induction false} SessionFollowsLifecycle(calls: seq<Call>)
    ensures Run(calls).session == NoSession <==> Init !in calls
    ensures Run(calls).session == Open <==> Live(calls)
    decreases |calls|
  {
    if calls != [] {
      var prefix, c := calls[..|calls| - 1], calls[|calls| - 1];
      SessionFollowsLifecycle(prefix);
      assert calls == prefix + [c];
      match c
      case Init =>
        assert NoShutdownAfter(calls, |calls| - 1);
      case Shutdown =>
        forall j | 0 <= j < |calls| && calls[j] == Init
          ensures !NoShutdownAfter(calls, j)
        {
          assert j < |calls| - 1;
        }
      case FetchQuote(ticker, now, resp) =>
        assert Run(calls).session == Fetch(Run(prefix), ticker, now, resp).state.session == Run(prefix).session;
        assert Init in calls <==> Init in prefix;
        if Live(prefix) {
          var j :| 0 <= j < |prefix| && prefix[j] == Init && NoShutdownAfter(prefix, j);
          assert calls[j] == Init && NoShutdownAfter(calls, j);
        }
        if Live(calls) {
          var j :| 0 <= j < |calls| && calls[j] == Init && NoShutdownAfter(calls, j);
          assert prefix[j] == Init && NoShutdownAfter(prefix, j);
        }
    }
  }

  /**
   * No request reaches the network before the first `initialize` or after a
   * `terminate` that no `initialize` has followed.
   */
  lemma RequestsOnlyWhileLive(calls: seq<Call>, ticker: string, now: int, resp: Response)
    ensures Fetch(Run(calls), ticker, now, resp).requested ==> Live(calls)
  {
    SessionFollowsLifecycle(calls);
  }
}
