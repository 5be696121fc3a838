/** The six `/api/movies` handlers over the one collection the server owns. */
module Server {
  import opened Movies
  import opened Collection

  /** What a handler sends back: a success with its data, or a client-input or
      not-found error with its message. */
  datatype Response<T> =
    | Ok(value: T)
    | Created(value: T)
    | BadRequest(message: string)
    | NotFound(message: string)
  {
    /** The HTTP status code each outcome is sent with. */
    function Status(): (code: int)
      ensures code == 200 <==> Ok?
      ensures code == 201 <==> Created?
      ensures code == 400 <==> BadRequest?
      ensures code == 404 <==> NotFound?
    {
      match this
      case Ok(_) => 200
      case Created(_) => 201
      case BadRequest(_) => 400
      case NotFound(_) => 404
    }
  }

  const GenreRequired := "Genre query parameter is required"
  const NoGenreMatch := "No movies found for the specified genre"
  const MovieNotFound := "Movie not found"
  const FieldsRequired := "All fields (title, genre, year, director) are required"
  const MovieDeleted := "Movie deleted successfully"

  /** The module-level `movies` array and the handlers that read and change it. */
  class MovieStore {
    var movies: seq<Movie>

    /** Every stored entry passes the presence check: the seed does, and POST and PUT
        store only bodies that passed it. The handlers do not depend on it, so no
        method requires it; the constructor establishes it and every method that
        changes `movies` is proved to preserve it. */
    ghost predicate Valid()
      reads this
    {
      AllWellFormed(movies)
    }

    /** The collection at process start. */
    constructor ()
      ensures movies == Seed()
      ensures Valid()
    {
      movies := Seed();
    }

    /** GET /api/movies: the whole collection, in order. */
    function ListAll(): (r: Response<seq<Movie>>)
      reads this
      ensures r.Ok? && r.value == movies
    {
      Ok(movies)
    }

    /** GET /api/movies/filter?genre=X: a missing or empty query is a client-input
        error; otherwise the entries whose genre equals the query ignoring case, in
        collection order, or not-found when there are none. */
    function FilterByGenre(genre: Option<string>): (r: Response<seq<Movie>>)
      reads this
      ensures r.BadRequest? <==> !TruthyText(genre)
      ensures r.BadRequest? ==> r.message == GenreRequired
      ensures r.NotFound? <==>
                TruthyText(genre) && forall i :: 0 <= i < |movies| ==> !SameGenre(movies[i].genre, genre.value)
      ensures r.NotFound? ==> r.message == NoGenreMatch
      ensures r.Ok? ==> TruthyText(genre) && r.value == Matching(movies, genre.value) && r.value != []
      ensures !r.Created?
    {
      if !TruthyText(genre) then BadRequest(GenreRequired)
      else
        var found := Matching(movies, genre.value);
        MatchingEmptyIff(movies, genre.value);
        if found == [] then NotFound(NoGenreMatch) else Ok(found)
    }

    /** GET /api/movies/:id: the entry `movies.at(id)` finds, counting a negative id
        from the end, or not-found. */
    function Get(id: int): (r: Response<Movie>)
      reads this
      ensures r.Ok? <==> -|movies| <= id < |movies|
      ensures r.Ok? ==> r.value == movies[if id >= 0 then id else |movies| + id]
      ensures !r.Ok? ==> r == NotFound(MovieNotFound)
    {
      match At(movies, id)
      case Some(m) => Ok(m)
      case None => NotFound(MovieNotFound)
    }

    /** POST /api/movies: a body with a falsy field is a client-input error and
        changes nothing; otherwise exactly its four fields are appended and returned. */
    method Create(body: MovieBody) returns (r: Response<Movie>)
      modifies this
      ensures r.Created? <==> Complete(body)
      ensures !Complete(body) ==> r == BadRequest(FieldsRequired) && movies == old(movies)
      ensures Complete(body) ==> r == Created(ToMovie(body)) && movies == Appended(old(movies), ToMovie(body))
      ensures old(Valid()) ==> Valid()
    {
      if !Complete(body) {
        return BadRequest(FieldsRequired);
      }
      var m := ToMovie(body);
      movies := Appended(movies, m);
      r := Created(m);
    }

    /** PUT /api/movies/:id: the bounds are checked before the body, so an id out of
        range is not-found whatever the body; then a falsy field is a client-input
        error; otherwise the entry at `id` is replaced whole. Errors change nothing. */
    method Update(id: int, body: MovieBody) returns (r: Response<Movie>)
      modifies this
      ensures !(0 <= id < |old(movies)|) ==> r == NotFound(MovieNotFound) && movies == old(movies)
      ensures 0 <= id < |old(movies)| && !Complete(body) ==>
                r == BadRequest(FieldsRequired) && movies == old(movies)
      ensures 0 <= id < |old(movies)| && Complete(body) ==>
                r == Ok(ToMovie(body)) && movies == Replaced(old(movies), id, ToMovie(body))
      ensures old(Valid()) ==> Valid()
    {
      if id < 0 || id >= |movies| {
        return NotFound(MovieNotFound);
      }
      if !Complete(body) {
        return BadRequest(FieldsRequired);
      }
      var m := ToMovie(body);
      movies := Replaced(movies, id, m);
      r := Ok(m);
    }

    /** DELETE /api/movies/:id: an id out of range is not-found and changes nothing;
        otherwise the entry at `id` is spliced out and later entries move down. */
    method Delete(id: int) returns (r: Response<string>)
      modifies this
      ensures !(0 <= id < |old(movies)|) ==> r == NotFound(MovieNotFound) && movies == old(movies)
      ensures 0 <= id < |old(movies)| ==> r == Ok(MovieDeleted) && movies == Removed(old(movies), id)
      ensures old(Valid()) ==> Valid()
    {
      if id < 0 || id >= |movies| {
        return NotFound(MovieNotFound);
      }
      movies := Removed(movies, id);
      r := Ok(MovieDeleted);
    }
  }

  /** A walk through the seeded collection: filter by "Action", look up id 2,
      delete id 0 and look up the entry that moved there, post an incomplete body,
      and put to an id past the end. */
  method SeedScenario()
  {
    var store := new MovieStore();
    var action := store.FilterByGenre(Some("Action"));
    assert action.Ok? && action.value == [Seed()[4], Seed()[5]] by {
      SeedActionMovies();
    }
    var godfather := store.Get(2);
    assert godfather == Ok(Movie("The Godfather", "Drama", 1972, "Francis Ford Coppola"));
    var gone := store.Delete(0);
    assert gone.Status() == 200;
    var first := store.Get(0);
    assert first == Ok(Movie("Inception", "Sci-Fi", 2010, "Christopher Nolan"));
    var partial := store.Create(MovieBody(Some("X"), None, None, None));
    assert partial == BadRequest(FieldsRequired) && |store.movies| == 6;
    var far := store.Update(99, BodyOf(Seed()[0]));
    assert far.Status() == 404;
  }

  /** No other genre of the seed equals "Action", ignoring case. */
  lemma OtherSeedGenresAreNotAction()
    ensures !SameGenre("Sci-Fi", "Action") && !SameGenre("Drama", "Action")
    ensures !SameGenre("Crime", "Action") && !SameGenre("Comedy", "Action")
  {
    assert Lower("Sci-Fi")[0] != Lower("Action")[0];
    assert Lower("Comedy")[0] != Lower("Action")[0];
    assert |Lower("Drama")| != |Lower("Action")|;
  }

  /** Filtering the seed by "Action" yields the two action movies, in order. */
  lemma SeedActionMovies()
    ensures Matching(Seed(), "Action") == [Seed()[4], Seed()[5]]
  {
    var s := Seed();
    OtherSeedGenresAreNotAction();
    assert s == s[..4] + s[4..6] + s[6..];
    MatchingSingleRun(s[..4], s[4..6], s[6..], "Action");
  }
}
