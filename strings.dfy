/** The generic string comparator behind the title matcher and the element
    string matchers: exact equality, substring, prefix and suffix. Strings are
    taken as sequences of bytes, as Go's `strings` package treats them. */
module Strings {

  /** Which comparison a matcher applies. */
  datatype MatchKind = Equals | Contains | StartsWith | EndsWith

  /** The words a matcher adds to its stage name ("Title Starts With"). */
  function KindName(kind: MatchKind): string
  {
    match kind
    case Equals => "Equals"
    case Contains => "Contains"
    case StartsWith => "Starts With"
    case EndsWith => "Ends With"
  }

  /** `t` occurs in `s` at offset `i`. */
  ghost predicate OccursAt(s: string, t: string, i: int)
  {
    0 <= i && i + |t| <= |s| && s[i..i + |t|] == t
  }

  /** The first offset at or after `i` where `t` occurs in `s`, or -1. */
  function IndexFrom(s: string, t: string, i: nat): (r: int)
    decreases |s| - i
    ensures r == -1 || (i <= r && OccursAt(s, t, r))
    ensures forall j :: i <= j && (r == -1 || j < r) ==> !OccursAt(s, t, j)
  {
    if i + |t| > |s| then -1
    else if s[i..i + |t|] == t then i
    else IndexFrom(s, t, i + 1)
  }

  /** The search behind `strings.Contains`: the first occurrence of `t` in `s`, or -1. */
  function Index(s: string, t: string): (r: int)
    ensures r == -1 || OccursAt(s, t, r)
    ensures r == -1 <==> forall j :: !OccursAt(s, t, j)
    ensures forall j :: 0 <= j < r ==> !OccursAt(s, t, j)
  {
    IndexFrom(s, t, 0)
  }

  /** Whether `actual` passes the comparison against the matcher's `target`. */
  function Matches(kind: MatchKind, actual: string, target: string): (r: bool)
    ensures r ==> |target| <= |actual|
    ensures kind == Contains ==> (r <==> exists i :: OccursAt(actual, target, i))
  {
    match kind
    case Equals => actual == target
    case Contains => Index(actual, target) >= 0
    case StartsWith => |target| <= |actual| && actual[..|target|] == target
    case EndsWith => |target| <= |actual| && actual[|actual| - |target|..] == target
  }

  /** Equals, StartsWith and EndsWith succeed exactly when their textbook
      relation holds (Contains states its own in `Matches`). */
  lemma MatchesMeaning(kind: MatchKind, actual: string, target: string)
    ensures kind == Equals ==> (Matches(kind, actual, target) <==> actual == target)
    ensures kind == StartsWith ==> (Matches(kind, actual, target) <==> OccursAt(actual, target, 0))
    ensures kind == EndsWith ==>
      (Matches(kind, actual, target) <==> OccursAt(actual, target, |actual| - |target|))
  {
  }

  /** Equals(x) on a subject whose value is exactly x always succeeds, and so do the other three. */
  lemma MatchesItself(kind: MatchKind, x: string)
    ensures Matches(kind, x, x)
  {
    if kind == Contains {
      assert OccursAt(x, x, 0);
    }
  }

  /** A prefix test does not look past the prefix: editing a later byte changes nothing. */
  lemma StartsWithIgnoresTail(actual: string, target: string, i: int, c: char)
    requires |target| <= i < |actual|
    ensures Matches(StartsWith, actual[i := c], target) == Matches(StartsWith, actual, target)
  {
    assert actual[i := c][..|target|] == actual[..|target|];
  }

  /** A suffix test does not look before the suffix: editing an earlier byte changes nothing. */
  lemma EndsWithIgnoresHead(actual: string, target: string, i: int, c: char)
    requires 0 <= i < |actual| - |target|
    ensures Matches(EndsWith, actual[i := c], target) == Matches(EndsWith, actual, target)
  {
    assert actual[i := c][|actual| - |target|..] == actual[|actual| - |target|..];
  }

  /** An occurrence survives any edit outside the bytes it covers. */
  lemma ContainsIgnoresOutside(actual: string, target: string, p: int, i: int, c: char)
    requires OccursAt(actual, target, p)
    requires 0 <= i < |actual| && (i < p || p + |target| <= i)
    ensures Matches(Contains, actual[i := c], target)
  {
    var edited := actual[i := c];
    assert edited[p..p + |target|] == actual[p..p + |target|];
    assert OccursAt(edited, target, p);
    MatchesMeaning(Contains, edited, target);
  }
}
