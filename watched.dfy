/**
 * The watched list and the view decisions of the App component: the records a
 * user keeps, deleting by id, deriving a record from a fetched movie detail,
 * the guard that hides the "add" control, the nullable selection, which child
 * each Box renders, and the summary averages.
 */
module Watched {
  import opened Wrappers
  import opened JsNumber

  /**
   * The detail record fetched for one movie id (the fields the app reads).
   * `runtime` is `None` when the object has no `Runtime`: the initial `""`
   * before the details arrive, or an error reply stored as the movie.
   */
  datatype MovieDetail = MovieDetail(
    imdbID: string, title: string, year: string, poster: string,
    imdbRating: string, runtime: Option<string>)

  /** One entry of the user's watched list. */
  datatype WatchedRecord = WatchedRecord(
    imdbID: string, title: string, year: string, poster: string,
    imdbRating: Number, runtime: Number, userRating: int)

  /** `watched.map((item) => item.imdbID)`. */
  function Ids(watched: seq<WatchedRecord>): (ids: seq<string>)
    ensures |ids| == |watched|
    ensures forall i :: 0 <= i < |watched| ==> ids[i] == watched[i].imdbID
  {
    if watched == [] then [] else [watched[0].imdbID] + Ids(watched[1..])
  }

  /** At most one record per id. */
  predicate IdsUnique(watched: seq<WatchedRecord>)
  {
    forall i, j :: 0 <= i < j < |watched| ==> watched[i].imdbID != watched[j].imdbID
  }

  /** `watched.filter((item) => item.imdbID !== id)`. */
  function Without(watched: seq<WatchedRecord>, id: string): (kept: seq<WatchedRecord>)
    ensures |kept| <= |watched|
    ensures forall k :: 0 <= k < |kept| ==> kept[k].imdbID != id && kept[k] in watched
  {
    if watched == [] then []
    else if watched[0].imdbID != id then [watched[0]] + Without(watched[1..], id)
    else Without(watched[1..], id)
  }

  /** A record survives the delete exactly when it is in the list and has another id. */
  lemma {:induction false} WithoutMembers(watched: seq<WatchedRecord>, id: string)
    ensures forall r :: r in Without(watched, id) <==> r in watched && r.imdbID != id
  {
    if watched != [] {
      WithoutMembers(watched[1..], id);
      assert watched == [watched[0]] + watched[1..];
    }
  }

  /**
   * The delete keeps order: deleting from a concatenation is deleting from
   * each part, so the survivors stay in their original relative order.
   */
  lemma {:induction false} WithoutDistributes(a: seq<WatchedRecord>, b: seq<WatchedRecord>, id: string)
    ensures Without(a + b, id) == Without(a, id) + Without(b, id)
  {
    if a == [] {
      assert a + b == b;
    } else {
      var ab := a + b;
      assert ab[0] == a[0] && ab[1..] == a[1..] + b;
      WithoutDistributes(a[1..], b, id);
      var rest := Without(a[1..], id) + Without(b, id);
      assert Without(ab, id) == if a[0].imdbID != id then [a[0]] + rest else rest;
      assert ([a[0]] + Without(a[1..], id)) + Without(b, id) == [a[0]] + rest;
    }
  }

  /** Deleting an id that is not in the list leaves the list as it was. */
  lemma {:induction false} WithoutAbsent(watched: seq<WatchedRecord>, id: string)
    requires id !in Ids(watched)
    ensures Without(watched, id) == watched
  {
    if watched != [] {
      assert Ids(watched)[0] == watched[0].imdbID;
      assert Ids(watched[1..]) == Ids(watched)[1..];
      WithoutAbsent(watched[1..], id);
    }
  }

  /** After a delete the id is gone, so deleting it again changes nothing. */
  lemma WithoutIdempotent(watched: seq<WatchedRecord>, id: string)
    ensures id !in Ids(Without(watched, id))
    ensures Without(Without(watched, id), id) == Without(watched, id)
  {
  }

  /** A delete keeps ids unique. */
  lemma {:induction false} WithoutKeepsUnique(watched: seq<WatchedRecord>, id: string)
    requires IdsUnique(watched)
    ensures IdsUnique(Without(watched, id))
  {
    if watched != [] {
      var rest := watched[1..];
      WithoutKeepsUnique(rest, id);
      WithoutMembers(rest, id);
      var w := Without(rest, id);
      if watched[0].imdbID != id {
        forall k | 0 <= k < |w| ensures w[k].imdbID != watched[0].imdbID {
          assert w[k] in rest;
          var j :| 0 <= j < |rest| && rest[j] == w[k];
          assert watched[j + 1] == w[k];
        }
      }
    }
  }

  /**
   * The object `handleAdd` builds for the fetched `movie` and the user's star
   * rating, or `None` when `movie.Runtime.split(" ")` throws because the movie
   * has no `Runtime`.
   */
  function ToRecord(movie: MovieDetail, starRating: int): (r: Option<WatchedRecord>)
    ensures r.Some? <==> movie.runtime.Some?
    ensures r.Some? ==> r.value.imdbID == movie.imdbID && r.value.userRating == starRating
    ensures r.Some? ==> r.value.title == movie.title && r.value.year == movie.year && r.value.poster == movie.poster
    ensures r.Some? ==> r.value.imdbRating == ToNumber(movie.imdbRating)
    ensures r.Some? ==> r.value.runtime == ParseRuntime(movie.runtime.value)
  {
    match movie.runtime
    case None => None
    case Some(runtime) =>
      Some(WatchedRecord(movie.imdbID, movie.title, movie.year, movie.poster,
                         ToNumber(movie.imdbRating), ParseRuntime(runtime), starRating))
  }

  /**
   * The record keeps the movie's id, title, year and poster, converts its
   * rating with `Number`, keeps the user's rating, and stores a runtime the
   * provider writes as "<n> min" as n.
   */
  lemma RecordOfDetail(movie: MovieDetail, starRating: int, n: nat)
    requires movie.runtime == Some(NatToString(n) + " min")
    ensures ToRecord(movie, starRating).Some?
    ensures ToRecord(movie, starRating).value.imdbID == movie.imdbID
    ensures ToRecord(movie, starRating).value.title == movie.title
    ensures ToRecord(movie, starRating).value.year == movie.year
    ensures ToRecord(movie, starRating).value.poster == movie.poster
    ensures ToRecord(movie, starRating).value.imdbRating == ToNumber(movie.imdbRating)
    ensures ToRecord(movie, starRating).value.userRating == starRating
    ensures ToRecord(movie, starRating).value.runtime == Num(n as real)
  {
    var digits := NatToString(n);
    assert digits + " min" == digits + " " + "min";
    RuntimeRoundTrip(n, "min");
    assert ParseRuntime(movie.runtime.value) == Num(n as real);
    assert ToRecord(movie, starRating) ==
      Some(WatchedRecord(movie.imdbID, movie.title, movie.year, movie.poster,
                         ToNumber(movie.imdbRating), ParseRuntime(movie.runtime.value), starRating));
  }

  /**
   * `!watched.map((item) => item.imdbID).includes(selectedId)`: whether the
   * details panel offers the rating widget and the "add" button.
   */
  predicate ShowsAddControl(watched: seq<WatchedRecord>, selectedId: string)
    ensures ShowsAddControl(watched, selectedId) ==>
            forall i :: 0 <= i < |watched| ==> watched[i].imdbID != selectedId
  {
    selectedId !in Ids(watched)
  }

  /** The add control is hidden exactly when some watched record has the selected id. */
  lemma AddControlHiddenIffWatched(watched: seq<WatchedRecord>, selectedId: string)
    ensures !ShowsAddControl(watched, selectedId) <==>
            exists i :: 0 <= i < |watched| && watched[i].imdbID == selectedId
  {
  }

  /**
   * Adding while the control is shown, for the movie that was selected, keeps
   * ids unique: the only way in is guarded.
   */
  lemma AddKeepsUnique(watched: seq<WatchedRecord>, selectedId: string, movie: MovieDetail, starRating: int)
    requires IdsUnique(watched)
    requires ShowsAddControl(watched, selectedId)
    requires movie.imdbID == selectedId && movie.runtime.Some?
    ensures IdsUnique(watched + [ToRecord(movie, starRating).value])
  {
  }

  /** `handleSelectedId`: clicking the selected movie deselects it, any other selects it. */
  function Toggle(selected: Option<string>, id: string): (r: Option<string>)
    ensures r == None <==> selected == Some(id)
    ensures r != None ==> r == Some(id)
  {
    if selected == Some(id) then None else Some(id)
  }

  /** Clicking the same movie twice leaves it selected only if it was selected before. */
  lemma ToggleTwice(selected: Option<string>, id: string)
    ensures Toggle(Toggle(selected, id), id) == (if selected == Some(id) then Some(id) else None)
  {
  }

  /** `selectedId ? … : …`: JavaScript truthiness of the nullable id ("" is falsy). */
  predicate Truthy(selectedId: Option<string>)
  {
    selectedId.Some? && selectedId.value != ""
  }

  /** What the first Box renders. */
  datatype LeftChild = ErrorShow(message: string) | Loading | MovieList

  /**
   * The three guarded children of the first Box, each appearing when its own
   * condition holds (`error && …`, `!error && isLoading && …`, `!error && !isLoading && …`).
   */
  function LeftBox(error: string, isLoading: bool): (shown: seq<LeftChild>)
    ensures |shown| == 1
    ensures error != "" ==> shown == [ErrorShow(error)]
  {
    (if error != "" then [ErrorShow(error)] else [])
    + (if error == "" && isLoading then [Loading] else [])
    + (if error == "" && !isLoading then [MovieList] else [])
  }

  /**
   * Exactly one child is rendered; an error wins over loading, and the list
   * shows only when there is neither.
   */
  lemma LeftBoxExactlyOne(error: string, isLoading: bool)
    ensures |LeftBox(error, isLoading)| == 1
    ensures LeftBox(error, isLoading)[0] == ErrorShow(error) <==> error != ""
    ensures LeftBox(error, isLoading)[0] == Loading <==> error == "" && isLoading
    ensures LeftBox(error, isLoading)[0] == MovieList <==> error == "" && !isLoading
  {
  }

  /** What the second Box renders. */
  datatype RightChild = Details(selectedId: string) | WatchedView

  function RightBox(selectedId: Option<string>): (r: RightChild)
    ensures r.Details? <==> Truthy(selectedId)
    ensures r.Details? ==> r == Details(selectedId.value)
  {
    if Truthy(selectedId) then Details(selectedId.value) else WatchedView
  }

  /** The numbers `WatchedSummary` shows. */
  datatype Summary = Summary(count: nat, avgImdbRating: Number, avgUserRating: Number, avgRuntime: Number)

  function ImdbRatings(watched: seq<WatchedRecord>): (r: seq<Number>)
    ensures |r| == |watched| && forall i :: 0 <= i < |watched| ==> r[i] == watched[i].imdbRating
  {
    if watched == [] then [] else [watched[0].imdbRating] + ImdbRatings(watched[1..])
  }

  function UserRatings(watched: seq<WatchedRecord>): (r: seq<Number>)
    ensures |r| == |watched| && forall i :: 0 <= i < |watched| ==> r[i] == Num(watched[i].userRating as real)
  {
    if watched == [] then [] else [Num(watched[0].userRating as real)] + UserRatings(watched[1..])
  }

  function Runtimes(watched: seq<WatchedRecord>): (r: seq<Number>)
    ensures |r| == |watched| && forall i :: 0 <= i < |watched| ==> r[i] == watched[i].runtime
  {
    if watched == [] then [] else [watched[0].runtime] + Runtimes(watched[1..])
  }

  function Summarize(watched: seq<WatchedRecord>): (summary: Summary)
    ensures summary.count == |watched|
    ensures watched == [] ==> summary.avgImdbRating == summary.avgUserRating == summary.avgRuntime == Num(0.0)
  {
    Summary(|watched|, Average(ImdbRatings(watched)), Average(UserRatings(watched)),
            Average(Runtimes(watched)))
  }

  /** An empty watched list shows 0 movies and averages of 0, not NaN. */
  lemma EmptySummary()
    ensures Summarize([]) == Summary(0, Num(0.0), Num(0.0), Num(0.0))
  {
  }

  /** User ratings lie in 0..maxRating, so their average does too. */
  lemma UserRatingAverageBounded(watched: seq<WatchedRecord>, maxRating: nat)
    requires watched != []
    requires forall i :: 0 <= i < |watched| ==> 0 <= watched[i].userRating <= maxRating
    ensures Summarize(watched).avgUserRating.Num?
    ensures 0.0 <= Summarize(watched).avgUserRating.value <= maxRating as real
  {
    AverageBounds(UserRatings(watched), 0.0, maxRating as real);
  }
}
