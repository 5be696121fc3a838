/** The records the movie service stores, the request bodies it accepts, the
    presence check it applies to them, and the seven entries it starts with. */
module Movies {

  datatype Option<T> = None | Some(value: T)

  /** One entry of the collection: the object literal `{ title, genre, year, director }`.
      It has no identifier of its own; its id is its position in the collection. */
  datatype Movie = Movie(title: string, genre: string, year: int, director: string)

  /** The four keys a POST or PUT body may carry. `None` is a key that is absent
      (destructuring it yields `undefined`). */
  datatype MovieBody = MovieBody(title: Option<string>, genre: Option<string>,
                                 year: Option<int>, director: Option<string>)

  /** JavaScript truthiness of a text value: present and not the empty string. */
  predicate TruthyText(v: Option<string>)
  {
    v.Some? && v.value != ""
  }

  /** JavaScript truthiness of a numeric value: present and not zero. */
  predicate TruthyNumber(v: Option<int>)
  {
    v.Some? && v.value != 0
  }

  /** The presence check `!title || !genre || !year || !director` of the POST and PUT
      handlers, negated: the body is accepted exactly when every field is truthy. */
  predicate Complete(b: MovieBody)
  {
    TruthyText(b.title) && TruthyText(b.genre) && TruthyNumber(b.year) && TruthyText(b.director)
  }

  /** The presence check seen from a stored movie rather than a body: every field
      would be truthy. BodyOf proves the two views agree. */
  predicate WellFormed(m: Movie)
  {
    m.title != "" && m.genre != "" && m.year != 0 && m.director != ""
  }

  /** The record a handler builds from an accepted body: exactly the four fields,
      nothing added and nothing dropped (the round trip through BodyOf). */
  function ToMovie(b: MovieBody): (m: Movie)
    requires Complete(b)
    ensures WellFormed(m)
    ensures BodyOf(m) == b
  {
    Movie(b.title.value, b.genre.value, b.year.value, b.director.value)
  }

  /** The body that carries every field of `m`; it is accepted exactly when `m` is well formed. */
  function BodyOf(m: Movie): (b: MovieBody)
    ensures Complete(b) <==> WellFormed(m)
  {
    MovieBody(Some(m.title), Some(m.genre), Some(m.year), Some(m.director))
  }

  /** Sending a well-formed movie as a body gives back that movie unchanged. */
  lemma ToMovieOfBody(m: Movie)
    requires WellFormed(m)
    ensures ToMovie(BodyOf(m)) == m
  {
  }

  /** The bodies the presence check accepts are exactly the bodies of well-formed movies. */
  lemma AcceptedBodies(b: MovieBody)
    ensures Complete(b) <==> exists m :: WellFormed(m) && BodyOf(m) == b
  {
    if Complete(b) {
      assert WellFormed(ToMovie(b)) && BodyOf(ToMovie(b)) == b;
    }
  }

  /** Any one falsy field rejects a body, whatever the other fields hold: a missing
      or empty text field, and a missing year or the year 0. */
  lemma FalsyFieldRejects(b: MovieBody)
    ensures !Complete(b.(title := None)) && !Complete(b.(title := Some("")))
    ensures !Complete(b.(genre := None)) && !Complete(b.(genre := Some("")))
    ensures !Complete(b.(year := None)) && !Complete(b.(year := Some(0)))
    ensures !Complete(b.(director := None)) && !Complete(b.(director := Some("")))
  {
  }

  predicate IsUpper(c: char)
  {
    'A' <= c <= 'Z'
  }

  /** `toLowerCase` on one character, restricted to ASCII letters. */
  function LowerChar(c: char): (r: char)
    ensures !IsUpper(r)
    ensures !IsUpper(c) ==> r == c
    ensures IsUpper(c) ==> r as int - c as int == 'a' as int - 'A' as int
  {
    if IsUpper(c) then (c as int - 'A' as int + 'a' as int) as char else c
  }

  /** `toLowerCase` on a string: every character lowered in place, none upper case after. */
  function Lower(s: string): (r: string)
    ensures |r| == |s|
    ensures forall k :: 0 <= k < |s| ==> r[k] == LowerChar(s[k])
    ensures forall k :: 0 <= k < |r| ==> !IsUpper(r[k])
  {
    seq(|s|, k requires 0 <= k < |s| => LowerChar(s[k]))
  }

  /** Lowering twice is lowering once. */
  lemma LowerIdempotent(s: string)
    ensures Lower(Lower(s)) == Lower(s)
  {
  }

  /** The filter's comparison `a.toLowerCase() === b.toLowerCase()`. */
  predicate SameGenre(a: string, b: string)
  {
    Lower(a) == Lower(b)
  }

  /** Case-insensitive equality is an equivalence: reflexive, symmetric, transitive,
      and it relates a string to its lower-cased form. */
  lemma SameGenreIsEquivalence(a: string, b: string, c: string)
    ensures SameGenre(a, a)
    ensures SameGenre(a, b) ==> SameGenre(b, a)
    ensures SameGenre(a, b) && SameGenre(b, c) ==> SameGenre(a, c)
    ensures SameGenre(a, Lower(a))
  {
  }

  /** A query may be given in any case: its lower-cased form matches the same genres. */
  lemma SameGenreIgnoresQueryCase(a: string, b: string)
    ensures SameGenre(a, Lower(b)) <==> SameGenre(a, b)
  {
  }

  /** The collection the server starts with. */
  function Seed(): (s: seq<Movie>)
    ensures |s| == 7
    ensures forall k :: 0 <= k < |s| ==> WellFormed(s[k])
  {
    [ Movie("The Matrix", "Sci-Fi", 1999, "The Wachowskis"),
      Movie("Inception", "Sci-Fi", 2010, "Christopher Nolan"),
      Movie("The Godfather", "Drama", 1972, "Francis Ford Coppola"),
      Movie("Pulp Fiction", "Crime", 1994, "Quentin Tarantino"),
      Movie("The Dark Knight", "Action", 2008, "Christopher Nolan"),
      Movie("Spider-Man: Into the Spider-Verse", "Action", 2018, "Peter Ramsey"),
      Movie("The Super Mario Bros. Movie", "Comedy", 2023, "Aaron Horvath") ]
  }
}
