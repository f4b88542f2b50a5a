/**
 * The `ShowUiModel` interface of the movie list: the record fields of a
 * movie or TV show as an immutable value, and the derived display strings
 * `releaseDateString` and `genreString`, each recomputed from the fields.
 */
module ShowUiModel {
  import opened Wrappers
  import opened KotlinJoin

  /** `GenreUiModel`: a genre tag. Only its name is ever displayed. */
  datatype Genre = Genre(id: int, name: string)

  /** `java.util.Date`: an instant, as milliseconds since the epoch (a 64-bit
      `long` in the JVM; unbounded here). */
  datatype Date = Date(millis: int)

  /** The `val` properties of `ShowUiModel`, read as one snapshot. The
      derived strings below only read these fields and change none of them. */
  datatype Show = Show(
    id: int,
    title: string,
    overview: string,
    genres: seq<Genre>,
    posterPath: Option<string>,
    average: real,
    releaseDate: Option<Date>)

  /** The arguments `genreString` passes to `joinToString`. */
  const GenreSeparator: string := ", "
  const GenreLimit: int := 3
  const GenreTruncated: string := ""

  /** The transform `{ it.name }` applied to every genre, in list order. */
  function GenreNames(genres: seq<Genre>): (names: seq<string>)
    ensures |names| == |genres|
    ensures forall i :: 0 <= i < |genres| ==> names[i] == genres[i].name
  {
    if genres == [] then [] else [genres[0].name] + GenreNames(genres[1..])
  }

  /** `genreString`: up to three names joined by ", " as they are; beyond
      three, the first three so joined and then the separator `joinTo`
      writes before it finds the fourth name over the limit, followed by the
      empty truncation marker. `GenreStringShape` writes the cases out. */
  function GenreString(s: Show): (r: string)
    ensures |s.genres| <= 3 ==> r == Join(GenreNames(s.genres), ", ")
    ensures |s.genres| > 3 ==> r == Join(GenreNames(s.genres)[..3], ", ") + ", "
  {
    JoinToString(GenreNames(s.genres), GenreSeparator, GenreLimit, GenreTruncated)
  }

  /** `releaseDateString`: empty when there is no release date, otherwise the
      date rendered by `formatDate` (the `Date.formatDate` extension, which
      fixes the locale) with the show date pattern `datePattern`
      (`Constant.Date.DATE_FORMAT_SHOW`). */
  function ReleaseDateString(s: Show, formatDate: (Date, string) -> string, datePattern: string): (r: string)
    ensures s.releaseDate == None ==> r == ""
    ensures s.releaseDate.Some? ==> r == formatDate(s.releaseDate.value, datePattern)
  {
    Elvis(SafeCall(s.releaseDate, d => formatDate(d, datePattern)), "")
  }

  /** The release date string is empty exactly when there is no date or the
      formatter renders the date as empty, and it depends on no field of the
      show other than `releaseDate`. */
  lemma ReleaseDateStringOnlyFromDate(s1: Show, s2: Show, formatDate: (Date, string) -> string, datePattern: string)
    requires s1.releaseDate == s2.releaseDate
    ensures ReleaseDateString(s1, formatDate, datePattern) == ReleaseDateString(s2, formatDate, datePattern)
    ensures (ReleaseDateString(s1, formatDate, datePattern) == "")
              <==> (s1.releaseDate == None || formatDate(s1.releaseDate.value, datePattern) == "")
  {
  }

  /** `genreString` case by case. Up to three genres give their names in
      list order joined by ", ", with nothing before the first or after the
      last; more than three give the first three names so joined followed by
      one more ", " (the separator `joinTo` writes before it checks the
      limit) and the empty truncation marker. */
  lemma GenreStringShape(s: Show)
    ensures |s.genres| == 0 ==> GenreString(s) == ""
    ensures |s.genres| == 1 ==> GenreString(s) == s.genres[0].name
    ensures |s.genres| == 2 ==> GenreString(s) == s.genres[0].name + ", " + s.genres[1].name
    ensures |s.genres| == 3 ==>
              GenreString(s) == s.genres[0].name + ", " + s.genres[1].name + ", " + s.genres[2].name
    ensures |s.genres| > 3 ==>
              GenreString(s) == s.genres[0].name + ", " + s.genres[1].name + ", " + s.genres[2].name + ", "
  {
    var names := GenreNames(s.genres);
    var first := if |names| <= 3 then names else names[..3];
    if |first| >= 1 {
      JoinUpToThree(first, GenreSeparator);
    }
  }

  /** With more than three genres the string always ends in the separator. */
  lemma GenreStringTrailingSeparator(s: Show)
    requires |s.genres| > 3
    ensures |GenreString(s)| >= 2 && GenreString(s)[|GenreString(s)| - 2..] == ", "
  {
    GenreStringShape(s);
    var head := s.genres[0].name + ", " + s.genres[1].name + ", " + s.genres[2].name;
    assert GenreString(s) == head + ", ";
  }

  /** Four genres: the fourth is dropped, but the separator written before
      it stays. */
  lemma GenreStringFourGenres(id: int, a: int, b: int, c: int, d: int)
    ensures GenreString(Show(id, "Title", "", [Genre(a, "Action"), Genre(b, "Drama"), Genre(c, "Comedy"), Genre(d, "Horror")],
                             None, 0.0, None))
            == "Action, Drama, Comedy, "
  {
    GenreStringShape(Show(id, "Title", "", [Genre(a, "Action"), Genre(b, "Drama"), Genre(c, "Comedy"), Genre(d, "Horror")],
                          None, 0.0, None));
  }

  function Min(a: int, b: int): (m: int)
  {
    if a <= b then a else b
  }

  /** `genreString` depends only on the names of the first three genres and
      on whether there are more than three: genre ids, later genres and
      every other field of the show play no part. */
  lemma GenreStringDependsOnFirstThree(s1: Show, s2: Show)
    requires |s1.genres| > 3 <==> |s2.genres| > 3
    requires GenreNames(s1.genres)[..Min(|s1.genres|, 3)] == GenreNames(s2.genres)[..Min(|s2.genres|, 3)]
    ensures GenreString(s1) == GenreString(s2)
  {
    var n1, n2 := GenreNames(s1.genres), GenreNames(s2.genres);
    if |s1.genres| <= 3 {
      assert n1[..|n1|] == n1;
      assert n2[..|n2|] == n2;
    }
  }

  /** For n = min(number of genres, 3) >= 1 the string holds the first n
      names, n - 1 separators between them and, when genres were cut, one
      more separator; with no genres it is empty. */
  lemma GenreStringLength(s: Show)
    ensures |s.genres| == 0 ==> |GenreString(s)| == 0
    ensures |s.genres| >= 1 ==>
              var n := Min(|s.genres|, 3);
              |GenreString(s)| == SumLengths(GenreNames(s.genres)[..n]) + 2 * (n - 1)
                                  + (if |s.genres| > 3 then 2 else 0)
  {
    var names := GenreNames(s.genres);
    if |names| >= 1 {
      var n := Min(|names|, 3);
      JoinLength(names[..n], GenreSeparator);
      if |names| <= 3 {
        assert names[..n] == names;
      }
    }
  }
}
