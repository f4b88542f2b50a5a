/**
 * Kotlin's `Iterable.joinToString(separator, limit, truncated, transform)`
 * with the default empty prefix and postfix, as the standard library's
 * `joinTo` computes it. The transform is applied by the caller, so the
 * elements here are already the strings to append.
 *
 * `joinTo` walks the elements once, counting them. For every element after
 * the first it appends the separator FIRST and only then checks whether the
 * element is still within `limit`; if it is not, it stops, and because the
 * count then exceeds the limit it appends `truncated`. A negative `limit`
 * means "no limit".
 */
module KotlinJoin {

  // ---------------------------------------------------------------------------
  // Reference definitions: an unlimited join, built from "separator, element"
  // pieces.
  // ---------------------------------------------------------------------------

  /** Every element preceded by the separator. */
  function SepEach(xs: seq<string>, sep: string): (r: string)
  {
    if xs == [] then "" else sep + xs[0] + SepEach(xs[1..], sep)
  }

  /** The elements in order with the separator between neighbours, and
      neither before the first nor after the last. */
  function Join(xs: seq<string>, sep: string): (r: string)
  {
    if xs == [] then "" else xs[0] + SepEach(xs[1..], sep)
  }

  /** Total length of the elements. */
  function SumLengths(xs: seq<string>): (n: nat)
  {
    if xs == [] then 0 else |xs[0]| + SumLengths(xs[1..])
  }

  // ---------------------------------------------------------------------------
  // `joinTo` and `joinToString`.
  // ---------------------------------------------------------------------------

  /** The loop of `joinTo`: `rest` are the elements not yet visited and
      `count` is how many elements have been visited so far.

      Once at least one element has been appended (and it was within the
      limit), the loop appends "separator, element" for each further element
      within the limit, and when it meets the first element beyond the limit
      it appends one more separator followed by `truncated`. */
  function JoinLoop(rest: seq<string>, sep: string, limit: int, truncated: string, count: nat): (r: string)
    ensures 1 <= count && (limit < 0 || count <= limit) ==>
              (limit < 0 || count + |rest| <= limit ==> r == SepEach(rest, sep))
              && (0 <= limit < count + |rest| ==> r == SepEach(rest[..limit - count], sep) + sep + truncated)
    decreases |rest|
  {
    if rest == [] then
      // the loop ran out of elements; the post-loop check
      if limit >= 0 && count > limit then truncated else ""
    else
      var n := count + 1;
      var lead := if n > 1 then sep else "";
      if limit < 0 || n <= limit then
        assert 1 <= limit - count <= |rest| ==> rest[..limit - count][1..] == rest[1..][..limit - n];
        lead + rest[0] + JoinLoop(rest[1..], sep, limit, truncated, n)
      else
        // break; the post-loop check `limit >= 0 && count > limit` holds
        lead + truncated
  }

  /** `xs.joinToString(separator = sep, limit = limit, truncated = truncated)`.
      When the elements fit within the limit (or there is no limit) the
      result is the plain join and `truncated` is NOT appended; otherwise it
      is the join of the first `limit` elements, then a separator (when at
      least one element was written), then `truncated`. */
  function JoinToString(xs: seq<string>, sep: string, limit: int, truncated: string): (r: string)
    ensures limit < 0 || |xs| <= limit ==> r == Join(xs, sep)
    ensures 0 <= limit < |xs| ==>
              r == Join(xs[..limit], sep) + (if limit > 0 then sep else "") + truncated
  {
    assert 1 <= limit < |xs| ==> xs[..limit][1..] == xs[1..][..limit - 1];
    assert limit == 0 ==> xs[..limit] == [];
    JoinLoop(xs, sep, limit, truncated, 0)
  }

  /** The join of one, two or three elements, written out. */
  lemma JoinUpToThree(xs: seq<string>, sep: string)
    requires 1 <= |xs| <= 3
    ensures |xs| == 1 ==> Join(xs, sep) == xs[0]
    ensures |xs| == 2 ==> Join(xs, sep) == xs[0] + sep + xs[1]
    ensures |xs| == 3 ==> Join(xs, sep) == xs[0] + sep + xs[1] + sep + xs[2]
  {
    var t := xs[1..];
    if |t| >= 1 {
      assert SepEach(t, sep) == sep + t[0] + SepEach(t[1..], sep);
      if |t| == 2 {
        assert SepEach(t[1..], sep) == sep + t[1] + SepEach(t[1..][1..], sep);
      }
    }
  }

  /** Each "separator, element" piece adds the element's length plus the
      separator's. */
  lemma {:induction false} SepEachLength(xs: seq<string>, sep: string)
    ensures |SepEach(xs, sep)| == SumLengths(xs) + |sep| * |xs|
  {
    if xs != [] {
      SepEachLength(xs[1..], sep);
    }
  }

  /** A join of n >= 1 elements holds the elements and n - 1 separators. */
  lemma JoinLength(xs: seq<string>, sep: string)
    requires xs != []
    ensures |Join(xs, sep)| == SumLengths(xs) + |sep| * (|xs| - 1)
  {
    SepEachLength(xs[1..], sep);
  }
}
