# moviePedia in Dafny

A verified model of the logic at the centre of the moviePedia browser app,
which searches the OMDb movie catalog and keeps a personal "watched" list.
The model covers two things.

- **The search hook `useMovies(query)`** (`use_movies.dfy`, module `UseMovies`).
  It holds three React state variables, `movies`, `isLoading` and `error`.
  Each time `query` changes, the effect runs again: it starts one fetch with its
  own abort controller, and the previous run's cleanup aborts the older fetch.
  - The network is an input. A request's fate is a `FetchOutcome`: `fetch`
    rejects, or it answers with an `ok` flag and a JSON body.
  - `TryFetch` is the `try` block: abort, then non-OK status, then
    `Response: "False"`, then success.
  - `SettleFetch` adds the `catch` and `finally` blocks.
  - The hook's events are applied one at a time: `Step` applies one event and
    `Replay` applies a sequence.
  - The class `MovieSearch` holds the same state as fields. Its methods are
    the events, and each method is proved against the matching step function.
- **The App component** (`watched.dfy`, module `Watched`; `app.dfy`, module `MovieApp`).
  - The watched list is a `seq` of records keyed by `imdbID`. It supports
    delete-by-id (a `filter`), and append of a record derived from a fetched
    movie detail. That derivation parses the runtime with
    `Number(Runtime.split(" ").at(0))`.
  - A guard hides the add button for ids that are already watched.
  - The selection is a nullable id, with toggle and close.
  - Each of the two Boxes renders one child, chosen from the state.
  - `WatchedSummary` shows averages, computed by `average`.
  - The class `App` owns `query`, `watched`, `selectedId` and the search hook.
    The class `Box` owns its open/closed flag.
- **JavaScript numbers** (`js_number.dfy`, module `JsNumber`).
  - `Number(text)` covers the numerals the catalog sends. NaN is its own
    constructor.
  - `average` is the source's `reduce`, which divides each element by the
    length and sums from 0. Numbers are exact reals.

### Notes on the code's behaviour

- The search effect fetches for every query, including the empty one
  (src/useMovies.js:8-16 and 45). It has no empty-query shortcut.
- When a search fails, the error shows and `movies` keeps its previous value
  (src/useMovies.js:30-34). The movies are not cleared.
- The details panel opens when `selectedId` is *truthy*, not merely non-null
  (src/App.js:46). So a selected id `""` still shows the watched list
  (`Watched.Truthy`).
- An aborted request still runs its `finally` block, which clears `isLoading`
  (src/useMovies.js:35-36; `UseMovies.AbortedSettleClearsLoading`).
- Adding a movie whose detail has no `Runtime` throws at src/App.js:78,
  before the panel closes at line 81. This happens with the initial `movie`
  `""` (line 68) or an error reply (line 104). The add then changes nothing
  (`MovieApp.App.Add`).

## Model

| member | source | states |
|---|---|---|
| `JsNumber.ToNumber` | src/App.js:77-78 | `Number(text)`: the empty text is 0, a numeral is non-negative, and text with any character other than a digit or "." is NaN (values are `JsNumber.ToNumberOfDigits` and `JsNumber.ToNumberOfDecimal`; two points give NaN by `JsNumber.ToNumberTwoPoints`) |
| `JsNumber.Numeral` | src/App.js:77 | the number written around the decimal point is never negative |
| `JsNumber.ToNumberOfDecimal` | src/App.js:77 | a numeral "w.f" is w plus f scaled down by ten to the number of fraction digits |
| `JsNumber.RatingOfDecimal` | src/App.js:77 | the rating "8.8" is stored as 8.8 |
| `JsNumber.ToNumberTwoPoints` | src/App.js:77 | text with two decimal points is NaN |
| `JsNumber.ParseRuntime` | src/App.js:78 | the runtime is the `Number` of the text before the first space, so text without a space converts whole; a number result is non-negative (the round trip is `JsNumber.RuntimeRoundTrip`) |
| `JsNumber.Reduce` | src/App.js:7-8 | folding nothing returns the start value, and a NaN start or element makes the result NaN (the fold is the scaled total, `JsNumber.AverageIsMean`) |
| `JsNumber.Average` | src/App.js:7-8 | the average of an empty list is 0 (its relation to the total is `JsNumber.AverageIsMean`) |
| `JsNumber.FirstField` | src/App.js:78 | the result is the prefix of the runtime text before its first space, or the whole text when it has no space |
| `JsNumber.IndexOf` | src/App.js:78 | the index returned is that of the first occurrence of the separator, or the length when the separator is absent |
| `JsNumber.ToNumberOfDigits` | src/App.js:77-78 | `Number` of a non-empty digit string is its decimal value |
| `JsNumber.RuntimeRoundTrip` | src/App.js:78 | a runtime written "<n> <unit>" is stored as the number n |
| `JsNumber.RuntimeOfMinutes` | src/App.js:78 | "148 min" is stored as 148 |
| `JsNumber.RuntimeUnknown` | src/App.js:78 | "N/A" is stored as NaN |
| `JsNumber.AverageIsMean` | src/App.js:7-8 | the average of an empty list is 0; otherwise it is the total divided by the length |
| `JsNumber.AverageNaN` | src/App.js:7-8 | the average is NaN exactly when some element is NaN |
| `JsNumber.AverageBounds` | src/App.js:7-8 | if every element lies in [lo, hi], so does the average |
| `Watched.Ids` | src/App.js:134 | the id list has one entry per record, in order: the record's `imdbID` |
| `Watched.Without` | src/App.js:19 | the delete never lengthens the list, and every record kept was in the list and has a different id (membership both ways is `Watched.WithoutMembers`) |
| `Watched.WithoutMembers` | src/App.js:18-20 | after deleting id x, a record remains exactly when it was in the list and its id is not x |
| `Watched.WithoutDistributes` | src/App.js:19 | deleting from a concatenation deletes from each part, so survivors keep their original order |
| `Watched.WithoutAbsent` | src/App.js:19 | deleting an id that no record has leaves the list unchanged |
| `Watched.WithoutIdempotent` | src/App.js:19 | after a delete the id is gone, and deleting it again changes nothing |
| `Watched.WithoutKeepsUnique` | src/App.js:19 | a delete keeps ids unique |
| `Watched.ToRecord` | src/App.js:72-80 | a record is built exactly when the detail has a runtime; it keeps the movie's id, title, year and poster, holds `Number` of the rating and the parsed runtime, and carries the user's star rating |
| `Watched.RecordOfDetail` | src/App.js:72-80 | the appended record keeps the movie's id, title, year and poster, holds `Number` of its rating, keeps the user's rating, and stores a runtime "<n> min" as n |
| `Watched.ShowsAddControl` | src/App.js:134 | when the add control shows, no watched record has the selected id (both directions are `Watched.AddControlHiddenIffWatched`) |
| `Watched.AddControlHiddenIffWatched` | src/App.js:134-149 | the add button is hidden exactly when some watched record has the selected id |
| `Watched.AddKeepsUnique` | src/App.js:72-83 | adding through the guard, for the selected movie with a runtime, keeps ids unique |
| `Watched.Toggle` | src/App.js:21-23 | selecting the selected id clears the selection; selecting any other id makes it the selection |
| `Watched.ToggleTwice` | src/App.js:22 | selecting the same id twice leaves it selected only if it was selected before |
| `Watched.LeftBox` | src/App.js:36-43 | exactly one child is rendered, and an error wins (the full case split is `Watched.LeftBoxExactlyOne`) |
| `Watched.LeftBoxExactlyOne` | src/App.js:36-43 | the first Box renders exactly one child: the error if there is one, else loading if loading, else the list |
| `Watched.RightBox` | src/App.js:46-61 | the second Box shows details, for the selected id, exactly when the selected id is truthy (`Watched.Truthy`: present and not "") |
| `Watched.Summarize` | src/App.js:250-253 | the count is the list's length, and an empty list has averages of 0 |
| `Watched.EmptySummary` | src/App.js:250-253 | an empty watched list shows 0 movies and averages of 0 |
| `Watched.UserRatingAverageBounded` | src/App.js:252 | user ratings in 0..max give an average user rating in 0..max |
| `MovieApp.App.constructor` | src/App.js:12-16 | the first render has query "inception", the stored list and no selection, and the search effect has started for "inception" |
| `MovieApp.App.DeleteMovie` | src/App.js:18-20 | the new list is the old one filtered by id; other records stay; an absent id changes nothing; unique ids stay unique |
| `MovieApp.App.SelectId` | src/App.js:21-23 | the selection toggles between none and the clicked id |
| `MovieApp.App.Close` | src/App.js:24-26 | the selection is cleared |
| `MovieApp.App.Add` | src/App.js:71-85 | for a movie with a runtime, exactly one derived record is appended after the unchanged prefix and the selection is cleared; without one the handler throws and nothing changes; unique ids stay unique when the movie is the selected one |
| `MovieApp.App.SetQuery` | src/App.js:206-208 | a new query re-runs the search effect and the first Box then shows loading; the same query changes nothing |
| `MovieApp.Box.constructor` | src/App.js:217 | a Box starts open |
| `MovieApp.Box.ToggleOpen` | src/App.js:220 | the toggle button flips the open flag |
| `MovieApp.Box.Rendered` | src/App.js:223 | the children show while the Box is open, and nothing shows while it is closed |
| `UseMovies.TryFetch` | src/useMovies.js:12-28 | an aborted request throws an AbortError; a non-OK response throws "Can't fetch data"; data is loaded only from an unaborted, OK, parsed reply whose `Response` is not "False" |
| `UseMovies.StartFetch` | src/useMovies.js:10-14 | a new live request for the query is appended, loading is set, the error is cleared, and movies and earlier requests are kept |
| `UseMovies.SettleFetch` | src/useMovies.js:30-37 | loading ends and the request is marked settled; an aborted request keeps `movies` and `error`; `movies` changes only to what the `try` block loaded |
| `UseMovies.AbortLatest` | src/useMovies.js:41-43 | the latest request becomes aborted, earlier requests and the three state fields are unchanged |
| `UseMovies.Step` | src/useMovies.js:8-45 | a query change adds one request and shows loading with no error; a settlement leaves the requests as they are and only adds to the settled set |
| `UseMovies.Replay` | src/useMovies.js:8-45 | a run of settlements alone starts no request (its invariant is `UseMovies.ReplayConsistent`) |
| `UseMovies.NotOkIgnoresBody` | src/useMovies.js:20-22 | a non-OK status throws before the body is read, whatever the body is |
| `UseMovies.InitialConsistent` | src/useMovies.js:4-6 | the initial state `UseMovies.Initial` (the three `useState` values, no request yet) has no movies, is loading, has an empty error, and satisfies the hook's invariant |
| `UseMovies.QueryChangeAbortsPrevious` | src/useMovies.js:8-14 | a query change, including to "", aborts every earlier request, starts a live request for the new query, sets loading, clears the error, keeps the movies and keeps the invariant |
| `UseMovies.SettleStopsLoading` | src/useMovies.js:35-36 | every settlement, whether success, error or abort, ends with `isLoading` false |
| `UseMovies.AbortedSettleClearsLoading` | src/useMovies.js:35-36 | an aborted earlier request that settles after a query change clears `isLoading` while the latest request is still live |
| `UseMovies.AbortedSettleInert` | src/useMovies.js:31-34 | an aborted request changes neither `movies` nor `error` |
| `UseMovies.NotOkSettle` | src/useMovies.js:20-22 | a non-OK response ends with error "Can't fetch data" and `movies` unchanged |
| `UseMovies.ProviderFalseSettle` | src/useMovies.js:25-27 | a `Response: "False"` reply ends with the provider's `Error` text as the error, and `movies` unchanged |
| `UseMovies.SuccessSettle` | src/useMovies.js:28 | any other reply sets `movies` to `Search`, or to the whole reply without one, and the error stays empty |
| `UseMovies.StepConsistent` | src/useMovies.js:8-45 | every event preserves the invariant: all runs but the latest are aborted, and no error shows while the latest request is live |
| `UseMovies.ReplayConsistent` | src/useMovies.js:8-45 | every sequence of events preserves that invariant |
| `UseMovies.ReplayAppend` | src/useMovies.js:8-45 | replaying two event sequences one after the other is replaying their concatenation |
| `UseMovies.StaleSettlementsInert` | src/useMovies.js:31-34 | settlements of aborted requests, and repeats of a settled latest request, never change `movies` or `error` |
| `UseMovies.LatestQueryWins` | src/useMovies.js:41-45 | after a query change, the movies and error shown depend only on the new request's outcome, whatever the older requests do before or after it |
| `UseMovies.MovieSearch.constructor` | src/useMovies.js:4-6 | the hook starts with no movies, loading and an empty error |
| `UseMovies.MovieSearch.Cleanup` | src/useMovies.js:41-43 | the latest run's controller is aborted and the three state fields are unchanged |
| `UseMovies.MovieSearch.FetchMovies` | src/useMovies.js:10-14 | a new request for the query is recorded, loading is set, the error is cleared and the movies are kept |
| `UseMovies.MovieSearch.ChangeQuery` | src/useMovies.js:41-45 | the previous run is aborted, then a new run starts for the query |
| `UseMovies.MovieSearch.Settle` | src/useMovies.js:17-37 | the state becomes the settlement step of the old state; loading ends; an aborted request leaves `movies` and `error` as they were |

## Left out

- Network I/O (`fetch` for search and for details, `res.json()`) and the
  internals of `AbortController` are inputs, not modelled. `FetchOutcome` is what
  the network did with an unaborted request. An aborted request always rejects
  with an AbortError.
- Asynchronous interleaving is modelled as a sequence of events, each one
  atomic. A request settles in one event, even though the source has two
  `await`s.
- The persisted list store (src/useLocalStorage.js) is foreign I/O: it wraps
  `localStorage` and `JSON`. It is not part of this model. `App` takes the
  stored list as a constructor argument. The `null` that `JSON.parse(null)`
  yields on first run is not modelled.
- The details fetch in `MovieDetails` (src/App.js:96-110) and its loading flag
  are not modelled. They are I/O with no error handling. `Add` takes the
  fetched detail as an argument.
- `JsNumber.ToNumber`: it accepts only plain digits with at most one decimal
  point, and the empty string. JavaScript's `Number` also trims whitespace and
  accepts signs, exponents, `Infinity` and hex, octal or binary prefixes. The
  model gives NaN for those.
- Floating-point rounding in `average` and in ratings: the model uses exact
  reals.
- A reply body that is not an object (`null`, say) makes the source throw a
  TypeError while reading `Response`. A `Search` that is not an array also
  goes wrong. Neither is modelled.
- `console.log(err)` in the `catch` block (src/useMovies.js:32) is console
  output. It has no effect on state and is not modelled.
- Of a detail reply without the fields the record reads, only a missing
  `Runtime` is modelled (it throws). A missing `imdbID`, `Title`, `Year` or
  `Poster` would be stored as `undefined`, and a missing `imdbRating` as NaN
  (`Number(undefined)`). The model's detail always has these fields as strings.
- Rendering is not modelled, beyond which child each Box shows. Left out are
  JSX, `NumResult`, and the list items, including how a non-list `movies`
  value would render. Also left out: the `document.title` effect
  (src/App.js:87-95), keyboard and focus handling in `Search`, `StarRating`
  and the API key constants.
