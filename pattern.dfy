/**
 * The subset of regular expressions that NSPredicate's MATCHES is used with
 * in both Extensions files: a concatenation of bracket expressions, each
 * repeated between a minimum and a maximum number of times (`+` has no
 * maximum, `{2,64}` has one). MATCHES succeeds when the pattern covers the
 * whole string. Only the meaning of such patterns is modelled, not the ICU
 * matching engine.
 */
module Pattern {
  import opened Wrappers

  /** A bracket expression: a list of inclusive character ranges. A single
      character c is the range c-c. */
  datatype CharClass = CharClass(ranges: seq<(char, char)>)

  /** A bracket expression with a repetition count. */
  datatype Piece = Piece(cls: CharClass, min: nat, max: Option<nat>)

  type Regex = seq<Piece>

  function Literal(c: char): CharClass {
    CharClass([(c, c)])
  }

  predicate InClass(c: char, cls: CharClass) {
    exists i :: 0 <= i < |cls.ranges| && cls.ranges[i].0 <= c <= cls.ranges[i].1
  }

  /** Every character of `s` is in `cls`. */
  predicate AllIn(s: string, cls: CharClass) {
    forall i :: 0 <= i < |s| ==> InClass(s[i], cls)
  }

  /** The longest run a piece may take from a string of length n. */
  function MaxRun(p: Piece, n: nat): nat {
    match p.max
    case None => n
    case Some(m) => if m < n then m else n
  }

  /** `s` as a whole matches `r`: the first piece takes a run of k characters
      of its class, with k within its repetition bounds, and the rest of the
      pattern matches the rest of the string. */
  predicate Matches(r: Regex, s: string)
    decreases |r|
  {
    if r == [] then s == []
    else exists k :: r[0].min <= k <= MaxRun(r[0], |s|) && AllIn(s[..k], r[0].cls) && Matches(r[1..], s[k..])
  }

  /** A match of a non-empty pattern gives its first piece a run length. */
  lemma MatchesUncons(r: Regex, s: string) returns (k: nat)
    requires r != [] && Matches(r, s)
    ensures r[0].min <= k <= |s| && (r[0].max.None? || k <= r[0].max.value)
    ensures AllIn(s[..k], r[0].cls) && Matches(r[1..], s[k..])
  {
    k :| r[0].min <= k <= MaxRun(r[0], |s|) && AllIn(s[..k], r[0].cls) && Matches(r[1..], s[k..]);
  }

  /** Folding a match of a non-empty pattern, for one chosen run length. */
  lemma MatchesCons(r: Regex, s: string, k: nat)
    requires r != [] && r[0].min <= k <= |s|
    requires r[0].max.None? || k <= r[0].max.value
    requires AllIn(s[..k], r[0].cls) && Matches(r[1..], s[k..])
    ensures Matches(r, s)
  {
    assert k <= MaxRun(r[0], |s|);
  }
}
