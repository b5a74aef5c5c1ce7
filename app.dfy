/**
 * The App component's state and handlers: the query, the watched list, the
 * nullable selected id and the search hook the query drives; and the Box
 * component's open/closed flag. Each React state setter is a field update.
 */
module MovieApp {
  import opened Wrappers
  import opened Watched
  import opened UseMovies

  class App {
    var query: string
    var watched: seq<WatchedRecord>
    var selectedId: Option<string>
    const search: MovieSearch

    ghost predicate Valid()
      reads this, search
    {
      search.Valid()
    }

    /**
     * The first render: the query "inception", the list read from storage,
     * nothing selected; the search effect runs once for the initial query.
     */
    constructor (stored: seq<WatchedRecord>)
      ensures Valid() && fresh(search)
      ensures query == "inception" && watched == stored && selectedId == None
      ensures search.State() == StartFetch(Initial(), "inception")
    {
      query := "inception";
      watched := stored;
      selectedId := None;
      var hook := new MovieSearch();
      var req := hook.FetchMovies("inception");
      search := hook;
    }

    /** `handleDeleteMovie`: every record with this id goes, the others stay in order. */
    method DeleteMovie(id: string)
      modifies this`watched
      ensures watched == Without(old(watched), id)
      ensures forall r :: r in watched <==> r in old(watched) && r.imdbID != id
      ensures id !in Ids(old(watched)) ==> watched == old(watched)
      ensures IdsUnique(old(watched)) ==> IdsUnique(watched)
    {
      var before := watched;
      watched := Without(watched, id);
      WithoutMembers(before, id);
      if id !in Ids(before) {
        WithoutAbsent(before, id);
      }
      if IdsUnique(before) {
        WithoutKeepsUnique(before, id);
      }
    }

    /** `handleSelectedId`: the selected movie is deselected, any other becomes the selection. */
    method SelectId(id: string)
      modifies this`selectedId
      ensures selectedId == (if old(selectedId) == Some(id) then None else Some(id))
    {
      selectedId := Toggle(selectedId, id);
    }

    /** `handleClose`: no movie is selected. */
    method Close()
      modifies this`selectedId
      ensures selectedId == None
    {
      selectedId := None;
    }

    /**
     * `handleAdd`, reachable only from the button that the details panel
     * shows for a selected id that is not yet watched: the derived record is
     * appended after the existing ones and the panel closes. A movie without a
     * runtime makes building the record throw before the panel closes, so
     * nothing changes.
     */
    method Add(movie: MovieDetail, starRating: int)
      requires RightBox(selectedId).Details? && ShowsAddControl(watched, selectedId.value)
      modifies this`watched, this`selectedId
      ensures movie.runtime.None? ==> watched == old(watched) && selectedId == old(selectedId)
      ensures movie.runtime.Some? ==> watched == old(watched) + [ToRecord(movie, starRating).value]
      ensures movie.runtime.Some? ==> |watched| == |old(watched)| + 1 && watched[..|old(watched)|] == old(watched)
      ensures movie.runtime.Some? ==> selectedId == None
      ensures IdsUnique(old(watched)) && movie.imdbID == old(selectedId).value ==> IdsUnique(watched)
    {
      match ToRecord(movie, starRating)
      case None =>
      case Some(record) =>
        var before := watched;
        var shown := selectedId.value;
        Close();
        watched := watched + [record];
        if IdsUnique(before) && movie.imdbID == shown {
          AddKeepsUnique(before, shown, movie, starRating);
        }
    }

    /**
     * `setQuery`: a new query re-runs the search effect (aborting the previous
     * request), after which the first Box shows the loading indicator; the
     * same query changes nothing.
     */
    method SetQuery(q: string)
      requires Valid()
      modifies this`query, search
      ensures Valid() && query == q
      ensures q == old(query) ==> search.State() == old(search.State())
      ensures q != old(query) ==> search.State() == Step(old(search.State()), QueryChanged(q))
      ensures q != old(query) ==> LeftBox(search.error, search.isLoading) == [Loading]
    {
      if q != query {
        query := q;
        var req := search.ChangeQuery(q);
      }
    }
  }

  /** A collapsible panel. */
  class Box {
    var isOpen: bool

    constructor ()
      ensures isOpen
    {
      isOpen := true;
    }

    /** The toggle button: `setIsOpen((open) => !open)`. */
    method ToggleOpen()
      modifies this
      ensures isOpen == !old(isOpen)
    {
      isOpen := !isOpen;
    }

    /** `{isOpen && children}`: the children show only while the box is open. */
    function Rendered<T>(children: seq<T>): (shown: seq<T>)
      reads this
      ensures isOpen ==> shown == children
      ensures !isOpen ==> shown == []
    {
      if isOpen then children else []
    }
  }
}
