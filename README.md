# Movie collection service, modelled in Dafny

The service keeps one ordered, in-memory list of movies (title, genre, year,
director) in `server.js`. Six `/api/movies` endpoints read or change it. A movie
has no stored identifier: its id is its position in the list at the time of the
request, so a delete shifts the id of every later movie down by one.

The model has three modules:

- `Movies` (`movies.dfy`): the `Movie` record and the request body `MovieBody`,
  whose fields are optional values. It also holds the JavaScript truthiness test
  the handlers apply to those fields (a string is truthy when non-empty, a year
  when non-zero), ASCII lower-casing, and the seven seed entries.
- `Collection` (`collection.dfy`): the list logic as functions on `seq<Movie>`.
  `At` is `Array.prototype.at`, `Matching` is the genre filter, and `Appended`,
  `Replaced` and `Removed` are `push`, index assignment and `splice(i, 1)`. The
  lemmas prove the filter correct against a position-based reference
  (`MatchPositions`) and relate lookups to each update.
- `Server` (`server.dfy`): the class `MovieStore`, which owns the `movies` field.
  The three GET handlers are functions that read it; POST, PUT and DELETE are
  methods that reassign it. Every handler returns a `Response` (`Ok`, `Created`,
  `BadRequest` or `NotFound`) with the status code and the message `server.js`
  sends. `SeedScenario` walks through the seeded list: it filters by
  "Action", looks up id 2, deletes id 0 and looks up the entry that moved to 0,
  posts an incomplete body, and puts to an id past the end.

Behaviour a reader may not expect, which the model keeps as the code has it:

- GET by id uses `movies.at(id)`, so a negative id counts from the end of the
  list (`-1` is the last movie). It is not a not-found error. PUT and DELETE
  check `id < 0 || id >= movies.length` and so reject negative ids.
- PUT checks the id's bounds before it checks the body. An id out of range is
  not-found even when the body is incomplete.

## Model

| member | source | states |
|---|---|---|
| `Movies.ToMovie` | server.js:122 | the record built from an accepted body passes the presence check and carries exactly the body's four fields (`BodyOf(ToMovie(b)) == b`) |
| `Movies.BodyOf` | server.js:118-119 | a body carrying a movie's fields passes the presence check exactly when the movie is well formed |
| `Movies.ToMovieOfBody` | server.js:118-122 | sending a well-formed movie as a body gives back that same movie |
| `Movies.TruthyText` | server.js:83 | a text value counts as present exactly when it is given and is not the empty string (JavaScript truthiness) |
| `Movies.TruthyNumber` | server.js:119 | a year counts as present exactly when it is given and is not 0 (JavaScript truthiness) |
| `Movies.Complete` | server.js:119 | the presence check of POST and PUT: a body is accepted exactly when title, genre, year and director are all truthy |
| `Movies.AcceptedBodies` | server.js:119 | the bodies the presence check accepts are exactly the bodies that carry the four fields of some well-formed movie |
| `Movies.FalsyFieldRejects` | server.js:119 | any single missing or falsy field, including the year 0, rejects a body whatever the other fields hold |
| `Movies.LowerChar` | server.js:88 | lower-casing one character leaves no upper-case letter, keeps every other character, and maps each upper-case letter to its lower-case form |
| `Movies.Lower` | server.js:88 | lower-casing keeps the length, lowers each character in place, and leaves no upper-case letter |
| `Movies.LowerIdempotent` | server.js:88 | lower-casing twice gives the same result as lower-casing once |
| `Movies.SameGenre` | server.js:88 | the filter's comparison `movie.genre.toLowerCase() === genre.toLowerCase()` |
| `Movies.SameGenreIsEquivalence` | server.js:88 | the case-insensitive comparison is reflexive, symmetric and transitive, and relates a string to its lower-cased form |
| `Movies.SameGenreIgnoresQueryCase` | server.js:88 | a genre matches a query exactly when it matches the lower-cased query |
| `Movies.Seed` | server.js:47-55 | the initial collection has seven entries and each one passes the presence check |
| `Collection.At` | server.js:103 | `at(i)` finds an entry exactly when `-len <= i < len`: the entry at `i` for `i >= 0`, the entry at `len + i` for `i < 0` |
| `Collection.Matching` | server.js:88 | the filter is never longer than the collection, and every entry it returns matches the query ignoring case |
| `Collection.MatchPositions` | server.js:88 | the reference for the filter: the positions of the matching entries, strictly increasing, each in range and matching, with every matching position included |
| `Collection.MatchingSelectsPositions` | server.js:88 | the filter's k-th result is the entry at the k-th matching position, so the filter returns exactly the matching entries in their original order |
| `Collection.MatchingEmptyIff` | server.js:88-91 | the filter is empty exactly when no entry matches, which is when the handler answers not-found |
| `Collection.MatchingKeepsAll` | server.js:88 | a collection in which every entry matches comes back from the filter whole |
| `Collection.MatchingSingleRun` | server.js:88 | when the matching entries form one contiguous block, the filter returns exactly that block |
| `Collection.MatchingAppend` | server.js:88 | filtering two concatenated lists equals concatenating their filters; an entry appended by POST shows up at the end of a later filter exactly when it matches |
| `Collection.Appended` | server.js:123 | `push` makes the list one longer, puts the new movie last and keeps every earlier position |
| `Collection.Replaced` | server.js:146 | index assignment keeps the length, puts the new movie at `i` and keeps every other position |
| `Collection.Removed` | server.js:176 | `splice(i, 1)` makes the list one shorter, keeps positions before `i`, and moves the entry at `j + 1` to `j` for every `j >= i` |
| `Collection.RemovedDropsOne` | server.js:176 | the splice removes exactly one occurrence of the entry at `i` and nothing else (as multisets) |
| `Collection.ReplacedForgetsOld` | server.js:145-146 | after PUT a lookup at `i` finds exactly the new movie; the old entry plays no part (no field merge) |
| `Collection.AppendedAtEnd` | server.js:122-124 | after POST the new movie is found at the old length and at index -1 |
| `Collection.RemovedShiftsLookups` | server.js:176 | after DELETE at `i`, a lookup at `j >= i` finds what was at `j + 1` before |
| `Collection.UpdatesKeepWellFormed` | server.js:119-123 | push, replace and splice keep every entry well formed when the movie they add is well formed |
| `Server.Response.Status` | server.js:83-124 | each outcome has its own status code: 200 OK, 201 created, 400 client-input error, 404 not found |
| `Server.MovieStore.constructor` | server.js:47-55 | the store starts with the seven seed entries, all well formed |
| `Server.MovieStore.ListAll` | server.js:70-76 | GET all returns the whole collection, in order, with status 200 |
| `Server.MovieStore.FilterByGenre` | server.js:81-96 | a missing or empty genre is a 400 error; otherwise it is a 404 exactly when no entry's genre matches ignoring case, and 200 with the filter result otherwise |
| `Server.MovieStore.Get` | server.js:101-111 | 200 with the entry at `id`, or at `len + id` for a negative `id`, exactly when `-len <= id < len`; otherwise 404 "Movie not found" |
| `Server.MovieStore.Create` | server.js:116-128 | 201 exactly when all four fields are truthy, and then exactly the new movie is appended; otherwise 400 and the collection is unchanged; every entry stays well formed |
| `Server.MovieStore.Update` | server.js:133-151 | the bounds check comes first: out of range gives 404 whatever the body; then an incomplete body gives 400; otherwise the entry at `id` is replaced whole; errors leave the collection unchanged |
| `Server.MovieStore.Delete` | server.js:171-177 | out of range gives 404 and no change; otherwise 200 "Movie deleted successfully" and the entry at `id` is spliced out |
| `Server.SeedActionMovies` | server.js:47-55 | filtering the seed collection by "Action" returns The Dark Knight and then Spider-Man: Into the Spider-Verse |

## Left out

- Express wiring is not modelled: `express.json`, `express.static`, the `/` route's `sendFile`, `app.listen` and the console log (server.js:38-44, 61-63, 184-186). They are framework I/O with no list logic.
- JSON serialisation and the `catch` branches that answer 500 are not modelled. The model has no 500 outcome. Those branches answer faults inside the runtime. They also answer throws a client can cause. A repeated `genre` query parameter arrives as an array, so `genre.toLowerCase()` at server.js:88 throws. A genre stored by POST that is not a string makes every later filter throw the same way (server.js:93-94).
- Express passes the route `:id` as a string and the code never converts it. The model takes the id as an integer. The spellings whose behaviour this does not capture are these. A non-numeric id acts as index 0 in `at` and `splice` (server.js:103, 176), and it passes the PUT and DELETE bounds checks, because every comparison with `NaN` is false (server.js:136, 173). So on a non-empty list GET returns the first movie, PUT writes a property that is not an index (server.js:146), and DELETE removes the first movie. On an empty list DELETE with a non-numeric id removes nothing and still answers 200 "Movie deleted successfully", where the model's `Delete` answers 404. A fractional id is truncated toward zero by `at` and `splice`: "2.5" finds and removes entry 2, as the model's `Get(2)` and `Delete(2)` do, and "-1.5" finds the last movie on GET but fails the PUT and DELETE bounds checks, because it is below 0. So only fractions strictly between -1 and 1 reach index 0. At PUT a fractional id in range writes a property that is not an index, like "02" in the next line.
- Server.MovieStore.Update: the model does not capture an integer id written in a non-standard form, such as "02", "+2" or "-0". Such an id passes the bounds check at server.js:136, because the comparisons convert it to a number. But `movies[id] = …` at server.js:146 then creates a property that is not an index. For "02", entry 2 stays unchanged and the handler still answers 200, whereas the model's `Update(2, body)` replaces entry 2. GET and DELETE agree with the model for these spellings, because `at` and `splice` convert the id to an integer.
- Server.MovieStore.Delete: the model does not capture a non-numeric id on an empty list. Such an id passes the bounds check at server.js:173, `splice` at server.js:176 removes nothing, and the handler answers 200; the model takes integer ids only, and for those an empty list always gives 404.
- `Movies.Lower` lower-cases ASCII letters only; Unicode case mapping of `toLowerCase` is not modelled.
- The query value `genre` is modelled as an optional string. A repeated parameter, which Express turns into an array and on which `toLowerCase` throws, is not modelled.
- Body fields are modelled with the types of the seed entries: text for title, genre and director, an integer for year. The code stores whatever JSON values arrive. A non-string genre stored by POST would later make the filter throw. Fractional or `NaN` years are not modelled either.
- The commented-out block at server.js:158-168 is dead code.
- Concurrency is not modelled: each handler runs to completion before the next.
