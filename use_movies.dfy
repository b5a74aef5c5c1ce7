/**
 * The `useMovies(query)` hook: three pieces of state (`movies`, `isLoading`,
 * `error`) driven by one fetch per run of its effect, each run owning an
 * abort controller that the next run's cleanup aborts.
 *
 * The network is an input: a request's fate is a `FetchOutcome` chosen by the
 * environment, and the events that can happen to the hook (the query changes,
 * a pending request settles) are applied one at a time.
 */
module UseMovies {
  import opened Wrappers

  /** One summary record of a search result. */
  datatype SearchResultItem = SearchResultItem(imdbID: string, title: string, year: string, poster: string)

  /** The parsed JSON body of a search reply: the three fields the hook reads. */
  datatype Reply = Reply(response: Option<string>, error: Option<string>, search: Option<seq<SearchResultItem>>)

  /**
   * The value of `movies`: the reply's `Search` list, or, when the reply has
   * no `Search`, the whole reply object.
   */
  datatype Movies = Items(items: seq<SearchResultItem>) | WholeReply(reply: Reply)

  /** A thrown JavaScript error: its `name` and `message`. */
  datatype JsError = JsError(name: string, message: string)

  /** What `data.json()` yields: a parsed reply, or a parse failure. */
  datatype Body = Parsed(reply: Reply) | Unparsable(failure: JsError)

  /**
   * What the network does with a request that nobody aborted: `fetch`
   * rejects (a network failure), or it answers with an `ok` flag and a body.
   */
  datatype FetchOutcome = Rejected(failure: JsError) | Responded(ok: bool, body: Body)

  /** How the `try` block of `fetchMovies` ends. */
  datatype Settlement = Loaded(movies: Movies) | Thrown(failure: JsError)

  const FetchFailedMessage := "Can't fetch data"
  const ErrorName := "Error"
  const AbortErrorName := "AbortError"

  /** What a pending `fetch` or `json()` rejects with once its signal is aborted. */
  const AbortError := JsError(AbortErrorName, "signal is aborted without reason")

  /**
   * The `try` block of `fetchMovies`: an aborted request rejects with an
   * AbortError; a non-OK response throws the fixed message before its body is
   * read; a reply whose `Response` is "False" throws the provider's `Error`
   * text (`new Error(undefined)` has the empty message); anything else loads
   * `Search`, or the whole reply when there is no `Search`.
   */
  function TryFetch(aborted: bool, outcome: FetchOutcome): (r: Settlement)
    ensures aborted ==> r == Thrown(AbortError)
    ensures r.Loaded? ==> !aborted && outcome.Responded? && outcome.ok && outcome.body.Parsed?
                          && outcome.body.reply.response != Some("False")
    ensures !aborted && outcome.Responded? && !outcome.ok ==> r == Thrown(JsError(ErrorName, FetchFailedMessage))
  {
    if aborted then Thrown(AbortError)
    else match outcome
      case Rejected(e) => Thrown(e)
      case Responded(ok, body) =>
        if !ok then Thrown(JsError(ErrorName, FetchFailedMessage))
        else match body
          case Unparsable(e) => Thrown(e)
          case Parsed(reply) =>
            if reply.response == Some("False") then Thrown(JsError(ErrorName, reply.error.GetOr("")))
            else Loaded(if reply.search.Some? then Items(reply.search.value) else WholeReply(reply))
  }

  /** A non-OK status wins over whatever the body would have said. */
  lemma NotOkIgnoresBody(b1: Body, b2: Body)
    ensures TryFetch(false, Responded(false, b1)) == TryFetch(false, Responded(false, b2))
    ensures TryFetch(false, Responded(false, b1)).Thrown?
  {
  }

  /** One run of the effect: the query it fetches and whether its controller has been aborted. */
  datatype Request = Request(query: string, aborted: bool)

  /**
   * The hook's state, plus the runs of its effect so far (`requests`, in
   * order) and which of their fetches have settled.
   */
  datatype SearchState = SearchState(
    movies: Movies, isLoading: bool, error: string,
    requests: seq<Request>, settled: set<nat>)

  /** `useState([])`, `useState(true)`, `useState("")`, before any effect ran. */
  function Initial(): SearchState
  {
    SearchState(Items([]), true, "", [], {})
  }

  /** Request `req` has been started and has not settled yet. */
  predicate Pending(s: SearchState, req: nat)
  {
    req < |s.requests| && req !in s.settled
  }

  /** The latest run's fetch is pending and nobody aborted it. */
  predicate Live(s: SearchState)
  {
    |s.requests| > 0 && Pending(s, |s.requests| - 1) && !s.requests[|s.requests| - 1].aborted
  }

  /**
   * What every reachable state satisfies: every run but the latest has been
   * aborted, only started requests have settled, and while the latest
   * request is live no error is shown.
   */
  ghost predicate Consistent(s: SearchState)
  {
    (forall i :: 0 <= i < |s.requests| - 1 ==> s.requests[i].aborted)
    && (forall r :: r in s.settled ==> r < |s.requests|)
    && (Live(s) ==> s.error == "")
  }

  /** The effect's cleanup: `controller.abort()` on the latest run's controller. */
  function AbortLatest(s: SearchState): (r: SearchState)
    ensures r.movies == s.movies && r.isLoading == s.isLoading && r.error == s.error && r.settled == s.settled
    ensures |r.requests| == |s.requests|
    ensures forall i :: 0 <= i < |s.requests| - 1 ==> r.requests[i] == s.requests[i]
    ensures s.requests != [] ==> r.requests[|s.requests| - 1] == s.requests[|s.requests| - 1].(aborted := true)
  {
    if s.requests == [] then s
    else s.(requests := s.requests[..|s.requests| - 1] + [s.requests[|s.requests| - 1].(aborted := true)])
  }

  /** A run of the effect: a fresh controller, then `setIsLoading(true)` and `setError("")`. */
  function StartFetch(s: SearchState, query: string): (r: SearchState)
    ensures r.isLoading && r.error == "" && r.movies == s.movies && r.settled == s.settled
    ensures |r.requests| == |s.requests| + 1 && r.requests[..|s.requests|] == s.requests
    ensures r.requests[|s.requests|] == Request(query, false)
  {
    s.(isLoading := true, error := "", requests := s.requests + [Request(query, false)])
  }

  /**
   * A request settles: the `catch` block records the message of any error
   * except an AbortError, and the `finally` block clears `isLoading`.
   */
  function SettleFetch(s: SearchState, req: nat, outcome: FetchOutcome): (r: SearchState)
    requires Pending(s, req)
    ensures !r.isLoading && r.requests == s.requests && r.settled == s.settled + {req}
    ensures s.requests[req].aborted ==> r.movies == s.movies && r.error == s.error
    ensures r.movies != s.movies ==> TryFetch(s.requests[req].aborted, outcome) == Loaded(r.movies)
  {
    var next :=
      match TryFetch(s.requests[req].aborted, outcome)
      case Loaded(m) => s.(movies := m)
      case Thrown(e) => if e.name != AbortErrorName then s.(error := e.message) else s;
    next.(isLoading := false, settled := s.settled + {req})
  }

  /** Something that happens to the hook. */
  datatype Event = QueryChanged(query: string) | Settled(req: nat, outcome: FetchOutcome)

  /**
   * One event. A query change re-runs the effect: React first runs the
   * previous run's cleanup, then the new run. A settlement of a request that
   * is not pending cannot happen (a promise settles once), and is ignored.
   */
  function Step(s: SearchState, e: Event): (r: SearchState)
    ensures e.QueryChanged? ==> |r.requests| == |s.requests| + 1 && r.isLoading && r.error == ""
    ensures e.Settled? ==> r.requests == s.requests && s.settled <= r.settled
  {
    match e
    case QueryChanged(q) => StartFetch(AbortLatest(s), q)
    case Settled(req, o) => if Pending(s, req) then SettleFetch(s, req, o) else s
  }

  /** A sequence of events, in order. */
  function Replay(s: SearchState, events: seq<Event>): (r: SearchState)
    ensures (forall i :: 0 <= i < |events| ==> events[i].Settled?) ==> r.requests == s.requests
    decreases |events|
  {
    if events == [] then s else Replay(Step(s, events[0]), events[1..])
  }

  lemma {:induction false} ReplayAppend(s: SearchState, a: seq<Event>, b: seq<Event>)
    ensures Replay(s, a + b) == Replay(Replay(s, a), b)
    decreases |a|
  {
    if a == [] {
      assert a + b == b;
    } else {
      assert (a + b)[0] == a[0];
      assert (a + b)[1..] == a[1..] + b;
      ReplayAppend(Step(s, a[0]), a[1..], b);
    }
  }

  lemma InitialConsistent()
    ensures Consistent(Initial())
    ensures Initial().movies == Items([]) && Initial().isLoading && Initial().error == ""
  {
  }

  /**
   * A query change (the empty query included) aborts every earlier run,
   * starts a live request for the new query, shows loading with no error,
   * and keeps the movies already shown.
   */
  lemma QueryChangeAbortsPrevious(s: SearchState, query: string)
    requires Consistent(s)
    ensures var t := Step(s, QueryChanged(query));
      && Consistent(t)
      && |t.requests| == |s.requests| + 1
      && t.requests[|s.requests|] == Request(query, false)
      && (forall i :: 0 <= i < |s.requests| ==> t.requests[i] == s.requests[i].(aborted := true))
      && Live(t)
      && t.isLoading && t.error == "" && t.movies == s.movies
  {
  }

  /** Every settlement ends with `isLoading` false, and the effect runs are untouched. */
  lemma SettleStopsLoading(s: SearchState, req: nat, outcome: FetchOutcome)
    requires Pending(s, req)
    ensures !SettleFetch(s, req, outcome).isLoading
    ensures SettleFetch(s, req, outcome).requests == s.requests
    ensures !Pending(SettleFetch(s, req, outcome), req)
  {
  }

  /**
   * The `finally` block runs for aborted requests too: an earlier request
   * settling after the query changed clears `isLoading` although the latest
   * request is still live, so the first Box shows the list, not the loading
   * indicator, until the latest request settles.
   */
  lemma AbortedSettleClearsLoading(s: SearchState, req: nat, outcome: FetchOutcome)
    requires Consistent(s) && Live(s)
    requires Pending(s, req) && req != |s.requests| - 1
    ensures Live(SettleFetch(s, req, outcome))
    ensures !SettleFetch(s, req, outcome).isLoading
  {
  }

  /** An aborted request changes neither the movies nor the error. */
  lemma AbortedSettleInert(s: SearchState, req: nat, outcome: FetchOutcome)
    requires Pending(s, req) && s.requests[req].aborted
    ensures SettleFetch(s, req, outcome).movies == s.movies
    ensures SettleFetch(s, req, outcome).error == s.error
  {
  }

  /** A non-OK response shows the fixed message and keeps the movies. */
  lemma NotOkSettle(s: SearchState, req: nat, body: Body)
    requires Pending(s, req) && !s.requests[req].aborted
    ensures SettleFetch(s, req, Responded(false, body)).error == FetchFailedMessage
    ensures SettleFetch(s, req, Responded(false, body)).movies == s.movies
  {
  }

  /** A reply with `Response` "False" shows the provider's `Error` text and keeps the movies. */
  lemma ProviderFalseSettle(s: SearchState, req: nat, reply: Reply)
    requires Pending(s, req) && !s.requests[req].aborted
    requires reply.response == Some("False")
    ensures SettleFetch(s, req, Responded(true, Parsed(reply))).error == reply.error.GetOr("")
    ensures SettleFetch(s, req, Responded(true, Parsed(reply))).movies == s.movies
  {
  }

  /**
   * Any other reply loads `Search` (or the whole reply without one), and the
   * error stays empty: an unaborted request is the latest one, whose start
   * cleared the error.
   */
  lemma SuccessSettle(s: SearchState, req: nat, reply: Reply)
    requires Consistent(s)
    requires Pending(s, req) && !s.requests[req].aborted
    requires reply.response != Some("False")
    ensures var t := SettleFetch(s, req, Responded(true, Parsed(reply)));
      && t.movies == (if reply.search.Some? then Items(reply.search.value) else WholeReply(reply))
      && t.error == ""
  {
  }

  lemma StepConsistent(s: SearchState, e: Event)
    requires Consistent(s)
    ensures Consistent(Step(s, e))
  {
  }

  /** Every state the hook can reach from its initial state is consistent. */
  lemma {:induction false} ReplayConsistent(s: SearchState, events: seq<Event>)
    requires Consistent(s)
    ensures Consistent(Replay(s, events))
    decreases |events|
  {
    if events != [] {
      StepConsistent(s, events[0]);
      ReplayConsistent(Step(s, events[0]), events[1..]);
    }
  }

  /**
   * With no query change, settlements of earlier (aborted) requests, and
   * repeats of a latest request that has already settled, never change the
   * movies or the error.
   */
  lemma {:induction false} StaleSettlementsInert(s: SearchState, events: seq<Event>)
    requires Consistent(s) && |s.requests| > 0
    requires forall i :: 0 <= i < |events| ==>
      events[i].Settled? && (events[i].req == |s.requests| - 1 ==> |s.requests| - 1 in s.settled)
    ensures var t := Replay(s, events);
      && t.movies == s.movies && t.error == s.error && t.requests == s.requests
      && Consistent(t)
      && (|s.requests| - 1 in t.settled <==> |s.requests| - 1 in s.settled)
    decreases |events|
  {
    if events != [] {
      var s1 := Step(s, events[0]);
      StepConsistent(s, events[0]);
      if Pending(s, events[0].req) {
        assert s.requests[events[0].req].aborted;
      }
      StaleSettlementsInert(s1, events[1..]);
    }
  }

  /** The movies and error that the latest request's outcome leaves behind. */
  function Shown(before: Movies, outcome: FetchOutcome): (Movies, string)
  {
    match TryFetch(false, outcome)
    case Loaded(m) => (m, "")
    case Thrown(e) => (before, if e.name != AbortErrorName then e.message else "")
  }

  /**
   * The latest query wins: after the query changes to `query`, whatever the
   * earlier requests do before or after, the movies and error shown are
   * determined by the new request's outcome alone (from the movies shown
   * when the query changed).
   */
  lemma LatestQueryWins(s: SearchState, query: string, before: seq<Event>, outcome: FetchOutcome, after: seq<Event>)
    requires Consistent(s)
    requires forall i :: 0 <= i < |before| ==> before[i].Settled? && before[i].req != |s.requests|
    requires forall i :: 0 <= i < |after| ==> after[i].Settled?
    ensures var t := Replay(s, [QueryChanged(query)] + before + [Settled(|s.requests|, outcome)] + after);
      && |t.requests| == |s.requests| + 1
      && t.requests[|s.requests|] == Request(query, false)
      && (t.movies, t.error) == Shown(s.movies, outcome)
  {
    var k := |s.requests|;
    var first := [QueryChanged(query)];
    var settle := [Settled(k, outcome)];
    var s1 := Step(s, QueryChanged(query));
    QueryChangeAbortsPrevious(s, query);
    assert Replay(s, first) == s1 by {
      assert first[1..] == [];
    }
    StaleSettlementsInert(s1, before);
    var s2 := Replay(s1, before);
    assert Pending(s2, k) && !s2.requests[k].aborted;
    var s3 := Step(s2, Settled(k, outcome));
    assert Replay(s2, settle) == s3 by {
      assert settle[1..] == [];
    }
    assert s3.requests == s2.requests && k in s3.settled;
    assert (s3.movies, s3.error) == Shown(s.movies, outcome);
    StepConsistent(s2, Settled(k, outcome));
    StaleSettlementsInert(s3, after);
    ReplayAppend(s, first, before);
    ReplayAppend(s, first + before, settle);
    ReplayAppend(s, first + before + settle, after);
  }

  /**
   * The hook's state as an object whose methods are the events: the fields
   * are React's three state variables, plus the runs of the effect (each
   * with its abort controller) and, for the proofs, which have settled.
   */
  class MovieSearch {
    var movies: Movies
    var isLoading: bool
    var error: string
    var requests: seq<Request>
    ghost var settled: set<nat>

    ghost function State(): SearchState
      reads this
    {
      SearchState(movies, isLoading, error, requests, settled)
    }

    ghost predicate Valid()
      reads this
    {
      Consistent(State())
    }

    /** The hook's first render: no movies, loading, no error, no run yet. */
    constructor ()
      ensures Valid() && State() == Initial()
      ensures movies == Items([]) && isLoading && error == "" && requests == []
    {
      movies, isLoading, error := Items([]), true, "";
      requests := [];
      settled := {};
    }

    /** The cleanup of the latest run (on a query change or unmount). */
    method Cleanup()
      requires Valid()
      modifies this
      ensures Valid() && State() == AbortLatest(old(State()))
      ensures movies == old(movies) && isLoading == old(isLoading) && error == old(error)
      ensures forall i :: 0 <= i < |requests| ==> requests[i].aborted
    {
      if requests != [] {
        var last := |requests| - 1;
        requests := requests[..last] + [requests[last].(aborted := true)];
      }
    }

    /** A run of the effect: `fetchMovies` up to its first `await`. */
    method FetchMovies(query: string) returns (req: nat)
      requires Valid()
      requires forall i :: 0 <= i < |requests| ==> requests[i].aborted
      modifies this
      ensures Valid() && State() == StartFetch(old(State()), query)
      ensures req == |old(requests)| && requests[req] == Request(query, false)
      ensures isLoading && error == "" && movies == old(movies)
    {
      req := |requests|;
      requests := requests + [Request(query, false)];
      isLoading := true;
      error := "";
    }

    /** The query changed: the previous run is cleaned up, then the effect runs again. */
    method ChangeQuery(query: string) returns (req: nat)
      requires Valid()
      modifies this
      ensures Valid() && State() == Step(old(State()), QueryChanged(query))
      ensures req == |old(requests)| && requests[req] == Request(query, false)
      ensures forall i :: 0 <= i < req ==> requests[i].aborted
      ensures isLoading && error == "" && movies == old(movies)
    {
      Cleanup();
      req := FetchMovies(query);
    }

    /** The pending request `req` settles: the rest of `fetchMovies`' try, catch and finally. */
    method Settle(req: nat, outcome: FetchOutcome)
      requires Valid() && Pending(State(), req)
      modifies this
      ensures Valid() && State() == SettleFetch(old(State()), req, outcome)
      ensures !isLoading && requests == old(requests)
      ensures old(requests[req].aborted) ==> movies == old(movies) && error == old(error)
    {
      ghost var before := State();
      var result := TryFetch(requests[req].aborted, outcome);
      match result {
        case Loaded(m) =>
          movies := m;
          isLoading := false;
        case Thrown(e) =>
          if e.name != AbortErrorName {
            error := e.message;
          }
      }
      isLoading := false;
      settled := settled + {req};
      StepConsistent(before, Settled(req, outcome));
    }
  }
}
