/** The list logic of the movie handlers, on the collection as a value: positional
    lookup, the genre filter, and the three updates POST, PUT and DELETE make. */
module Collection {
  import opened Movies

  /** `Array.prototype.at` with an integer index: a non-negative index counts from the
      front, a negative one from the end, and anything outside yields nothing. */
  function At(ms: seq<Movie>, i: int): (r: Option<Movie>)
    ensures r.Some? <==> -|ms| <= i < |ms|
    ensures 0 <= i < |ms| ==> r == Some(ms[i])
    ensures -|ms| <= i < 0 ==> r == Some(ms[|ms| + i])
  {
    var k := if i >= 0 then i else |ms| + i;
    if 0 <= k < |ms| then Some(ms[k]) else None
  }

  /** `movies.filter(movie => movie.genre.toLowerCase() === genre.toLowerCase())`. */
  function Matching(ms: seq<Movie>, g: string): (r: seq<Movie>)
    ensures |r| <= |ms|
    ensures forall k :: 0 <= k < |r| ==> SameGenre(r[k].genre, g)
  {
    if ms == [] then []
    else
      var rest := Matching(ms[..|ms| - 1], g);
      if SameGenre(ms[|ms| - 1].genre, g) then rest + [ms[|ms| - 1]] else rest
  }

  /** The positions of the entries that match, in increasing order: the reference
      against which the filter is proved. */
  ghost function MatchPositions(ms: seq<Movie>, g: string): (ps: seq<int>)
    ensures forall k :: 0 <= k < |ps| ==> 0 <= ps[k] < |ms| && SameGenre(ms[ps[k]].genre, g)
    ensures forall k, l :: 0 <= k < l < |ps| ==> ps[k] < ps[l]
    ensures forall i :: 0 <= i < |ms| && SameGenre(ms[i].genre, g) ==> i in ps
  {
    if ms == [] then []
    else
      var rest := MatchPositions(ms[..|ms| - 1], g);
      if SameGenre(ms[|ms| - 1].genre, g) then rest + [|ms| - 1] else rest
  }

  /** The filter returns exactly the matching entries, in their original order: its
      k-th result is the entry at the k-th matching position. */
  lemma {:induction false} MatchingSelectsPositions(ms: seq<Movie>, g: string)
    ensures |Matching(ms, g)| == |MatchPositions(ms, g)|
    ensures forall k :: 0 <= k < |Matching(ms, g)| ==>
              Matching(ms, g)[k] == ms[MatchPositions(ms, g)[k]]
  {
    if ms != [] {
      var init := ms[..|ms| - 1];
      MatchingSelectsPositions(init, g);
      assert forall i :: 0 <= i < |init| ==> init[i] == ms[i];
    }
  }

  /** The filter finds nothing exactly when no entry's genre matches the query. */
  lemma MatchingEmptyIff(ms: seq<Movie>, g: string)
    ensures Matching(ms, g) == [] <==> forall i :: 0 <= i < |ms| ==> !SameGenre(ms[i].genre, g)
  {
  }

  /** A collection whose every entry matches is kept whole by the filter. */
  lemma {:induction false} MatchingKeepsAll(ms: seq<Movie>, g: string)
    requires forall i :: 0 <= i < |ms| ==> SameGenre(ms[i].genre, g)
    ensures Matching(ms, g) == ms
  {
    if ms != [] {
      var init := ms[..|ms| - 1];
      MatchingKeepsAll(init, g);
      assert init + [ms[|ms| - 1]] == ms;
    }
  }

  /** When the matching entries form one run, the filter returns exactly that run. */
  lemma MatchingSingleRun(before: seq<Movie>, run: seq<Movie>, after: seq<Movie>, g: string)
    requires forall i :: 0 <= i < |before| ==> !SameGenre(before[i].genre, g)
    requires forall i :: 0 <= i < |run| ==> SameGenre(run[i].genre, g)
    requires forall i :: 0 <= i < |after| ==> !SameGenre(after[i].genre, g)
    ensures Matching(before + run + after, g) == run
  {
    MatchingEmptyIff(before, g);
    MatchingKeepsAll(run, g);
    MatchingEmptyIff(after, g);
    MatchingAppend(before, run, g);
    MatchingAppend(before + run, after, g);
  }

  /** Filtering a collection split in two is filtering each part: an appended entry
      shows up at the end of a filter exactly when it matches. */
  lemma {:induction false} MatchingAppend(a: seq<Movie>, b: seq<Movie>, g: string)
    ensures Matching(a + b, g) == Matching(a, g) + Matching(b, g)
    decreases |b|
  {
    if b != [] {
      var b' := b[..|b| - 1];
      assert (a + b)[..|a + b| - 1] == a + b';
      assert (a + b)[|a + b| - 1] == b[|b| - 1];
      MatchingAppend(a, b', g);
    } else {
      assert a + b == a;
    }
  }

  /** `movies.push(m)`: one entry more, `m` last, every earlier position kept. */
  function Appended(ms: seq<Movie>, m: Movie): (r: seq<Movie>)
    ensures |r| == |ms| + 1
    ensures r[|ms|] == m
    ensures forall j :: 0 <= j < |ms| ==> r[j] == ms[j]
  {
    ms + [m]
  }

  /** `movies[i] = m`: same length, position `i` holds `m`, every other position kept. */
  function Replaced(ms: seq<Movie>, i: int, m: Movie): (r: seq<Movie>)
    requires 0 <= i < |ms|
    ensures |r| == |ms|
    ensures r[i] == m
    ensures forall j :: 0 <= j < |ms| && j != i ==> r[j] == ms[j]
  {
    ms[i := m]
  }

  /** `movies.splice(i, 1)`: one entry fewer, positions before `i` kept, every later
      entry shifted down by one. */
  function Removed(ms: seq<Movie>, i: int): (r: seq<Movie>)
    requires 0 <= i < |ms|
    ensures |r| == |ms| - 1
    ensures forall j :: 0 <= j < i ==> r[j] == ms[j]
    ensures forall j :: i <= j < |r| ==> r[j] == ms[j + 1]
  {
    ms[..i] + ms[i + 1..]
  }

  /** The splice removes exactly one entry, the one at `i`, and no other. */
  lemma RemovedDropsOne(ms: seq<Movie>, i: int)
    requires 0 <= i < |ms|
    ensures multiset(Removed(ms, i)) + multiset{ms[i]} == multiset(ms)
  {
    assert ms == ms[..i] + [ms[i]] + ms[i + 1..];
  }

  /** A PUT does not merge: a lookup at `i` afterwards finds exactly the new entry,
      and what was at `i` before plays no part in the result. */
  lemma ReplacedForgetsOld(ms: seq<Movie>, i: int, m: Movie, previous: Movie)
    requires 0 <= i < |ms|
    ensures At(Replaced(ms, i, m), i) == Some(m)
    ensures Replaced(ms, i, m) == Replaced(Replaced(ms, i, previous), i, m)
  {
  }

  /** After a POST the new entry is found both at the old length and at index -1. */
  lemma AppendedAtEnd(ms: seq<Movie>, m: Movie)
    ensures At(Appended(ms, m), |ms|) == Some(m)
    ensures At(Appended(ms, m), -1) == Some(m)
  {
  }

  /** After a DELETE at `i`, a lookup at `j >= i` finds what was at `j + 1`. */
  lemma RemovedShiftsLookups(ms: seq<Movie>, i: int, j: int)
    requires 0 <= i < |ms|
    requires i <= j < |ms| - 1
    ensures At(Removed(ms, i), j) == At(ms, j + 1)
  {
  }

  /** Every entry passes the presence check. */
  predicate AllWellFormed(ms: seq<Movie>)
  {
    forall k :: 0 <= k < |ms| ==> WellFormed(ms[k])
  }

  /** The three updates keep every entry well formed when what they add is. */
  lemma UpdatesKeepWellFormed(ms: seq<Movie>, i: int, m: Movie)
    requires AllWellFormed(ms) && WellFormed(m)
    ensures AllWellFormed(Appended(ms, m))
    ensures 0 <= i < |ms| ==> AllWellFormed(Replaced(ms, i, m)) && AllWellFormed(Removed(ms, i))
  {
  }
}
