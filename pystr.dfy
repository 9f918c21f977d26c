/** The parts of Python's `str` (and of its slicing) that the core relies on:
    whitespace, strip, find, rfind, split, join, startswith and prefix slices.
    Python strings are sequences of code points, as Dafny's `string` is. */
module PyStr {

  /** The characters for which Python's `str.isspace()` holds; `str.strip()`
      without an argument removes exactly these. */
  predicate IsSpace(c: char) {
    || c == ' '
    || ('\t' <= c <= '\r')
    || ('\U{1C}' <= c <= '\U{1F}')
    || c == '\U{85}' || c == '\U{A0}' || c == '\U{1680}'
    || ('\U{2000}' <= c <= '\U{200A}')
    || c == '\U{2028}' || c == '\U{2029}' || c == '\U{202F}' || c == '\U{205F}' || c == '\U{3000}'
  }

  /** No whitespace at either end: what `strip()` leaves behind. */
  predicate Trimmed(s: string) {
    s == [] || (!IsSpace(s[0]) && !IsSpace(s[|s| - 1]))
  }

  /** The end of the run of whitespace that starts at `i`. */
  function SpaceRunEnd(s: string, i: nat): (r: nat)
    requires i <= |s|
    ensures i <= r <= |s|
    ensures forall k :: i <= k < r ==> IsSpace(s[k])
    ensures r < |s| ==> !IsSpace(s[r])
    decreases |s| - i
  {
    if i == |s| || !IsSpace(s[i]) then i else SpaceRunEnd(s, i + 1)
  }

  /** The start of the run of whitespace that ends at `j`, not going below `lo`. */
  function SpaceRunStart(s: string, lo: nat, j: nat): (r: nat)
    requires lo <= j <= |s|
    ensures lo <= r <= j
    ensures forall k :: r <= k < j ==> IsSpace(s[k])
    ensures lo < r ==> !IsSpace(s[r - 1])
    decreases j
  {
    if j == lo || !IsSpace(s[j - 1]) then j else SpaceRunStart(s, lo, j - 1)
  }

  /** `s.strip()`: the text between the leading and the trailing whitespace.
      Its properties are stated by the lemmas below. */
  function Strip(s: string): string {
    var a := SpaceRunEnd(s, 0);
    s[a..SpaceRunStart(s, a, |s|)]
  }

  /** What `strip()` removes: `Strip(s)` is the slice s[a..b], and every
      character outside it is whitespace. With `StripIsTrimmed` this
      determines the result completely. */
  lemma StripBounds(s: string) returns (a: nat, b: nat)
    ensures a <= b <= |s| && Strip(s) == s[a..b]
    ensures forall i :: 0 <= i < a || b <= i < |s| ==> IsSpace(s[i])
  {
    a := SpaceRunEnd(s, 0);
    b := SpaceRunStart(s, a, |s|);
  }

  /** Stripping leaves no whitespace at either end. */
  lemma StripIsTrimmed(s: string)
    ensures Trimmed(Strip(s))
  {
    var a := SpaceRunEnd(s, 0);
    var b := SpaceRunStart(s, a, |s|);
    if a < b {
      assert Strip(s)[0] == s[a];
    }
  }

  /** Stripping keeps exactly the characters between the first and the
      last non-whitespace one: nothing new appears, nothing but whitespace
      is lost. */
  lemma StripKeepsContent(s: string)
    ensures |Strip(s)| <= |s|
    ensures forall c :: c in Strip(s) ==> c in s
    ensures forall i :: 0 <= i < |s| && !IsSpace(s[i]) ==> s[i] in Strip(s)
  {
    var a, b := StripBounds(s);
    var r := Strip(s);
    forall c | c in r ensures c in s {
      var k :| 0 <= k < |r| && r[k] == c;
      assert s[a + k] == c;
    }
    forall i | 0 <= i < |s| && !IsSpace(s[i]) ensures s[i] in r {
      assert r[i - a] == s[i];
    }
  }

  /** Stripping a string without whitespace at its ends changes nothing. */
  lemma StripTrimmed(s: string)
    requires Trimmed(s)
    ensures Strip(s) == s
  {
  }

  /** `sub` occurs in `s` starting at position `i`. */
  predicate OccursAt(s: string, sub: string, i: int) {
    0 <= i && i + |sub| <= |s| && s[i..i + |sub|] == sub
  }

  /** `s.find(sub, start)`: the least position at or after `start` where
      `sub` occurs, or -1 when there is none. */
  function FindFrom(s: string, sub: string, start: nat): (r: int)
    requires start <= |s|
    ensures r == -1 || (start <= r && OccursAt(s, sub, r))
    ensures forall i :: start <= i && (r == -1 || i < r) ==> !OccursAt(s, sub, i)
    decreases |s| - start
  {
    if OccursAt(s, sub, start) then start
    else if start == |s| then -1
    else FindFrom(s, sub, start + 1)
  }

  /** `s.find(sub)`. */
  function Find(s: string, sub: string): int {
    FindFrom(s, sub, 0)
  }

  /** `sub in s`. */
  predicate Contains(s: string, sub: string) {
    Find(s, sub) != -1
  }

  /** The greatest position below `bound` where `sub` occurs, or -1. */
  function LastBefore(s: string, sub: string, bound: nat): (r: int)
    ensures r == -1 || (r < bound && OccursAt(s, sub, r))
    ensures forall i :: r < i < bound ==> !OccursAt(s, sub, i)
    decreases bound
  {
    if bound == 0 then -1
    else if OccursAt(s, sub, bound - 1) then bound - 1
    else LastBefore(s, sub, bound - 1)
  }

  /** `s.rfind(sub)`: the greatest position where `sub` occurs, or -1. */
  function RFind(s: string, sub: string): (r: int)
    ensures r == -1 || OccursAt(s, sub, r)
    ensures forall i :: r < i ==> !OccursAt(s, sub, i)
  {
    LastBefore(s, sub, |s| + 1)
  }

  /** `sep.join(pieces)`. */
  function Join(pieces: seq<string>, sep: string): string {
    if pieces == [] then ""
    else if |pieces| == 1 then pieces[0]
    else pieces[0] + sep + Join(pieces[1..], sep)
  }

  /** `s.split(sep)` for a non-empty separator: cut at every occurrence,
      scanning from the left. Joining the pieces with `sep` gives `s` back,
      and no piece contains `sep`. */
  function Split(s: string, sep: string): (r: seq<string>)
    requires sep != []
    ensures |r| >= 1
    ensures Join(r, sep) == s
    ensures forall k :: 0 <= k < |r| ==> !Contains(r[k], sep)
    decreases |s|
  {
    var i := Find(s, sep);
    if i == -1 then [s]
    else
      var head, rest := s[..i], Split(s[i + |sep|..], sep);
      forall j ensures !OccursAt(head, sep, j) {
        if OccursAt(head, sep, j) {
          assert head[j..j + |sep|] == s[j..j + |sep|];
          assert OccursAt(s, sep, j);
        }
      }
      assert s == head + sep + s[i + |sep|..];
      [head] + rest
  }

  /** The first cut of `Split`: no occurrence gives the string back whole;
      otherwise the first piece ends at the first occurrence and the rest
      is the split of what follows it. */
  lemma SplitFirst(s: string, sep: string)
    requires sep != []
    ensures Find(s, sep) == -1 ==> Split(s, sep) == [s]
    ensures Find(s, sep) != -1 ==> && |Split(s, sep)| >= 2
                                   && Split(s, sep)[0] == s[..Find(s, sep)]
                                   && Split(s, sep)[1..] == Split(s[Find(s, sep) + |sep|..], sep)
  {
  }

  /** `s.startswith(prefix)`. */
  predicate StartsWith(s: string, prefix: string) {
    |prefix| <= |s| && s[..|prefix|] == prefix
  }

  /** `s[:n]`, with Python's reading of a negative `n` (count from the end). */
  function PyPrefix<T>(s: seq<T>, n: int): (r: seq<T>)
    ensures r <= s
    ensures 0 <= n ==> |r| == if n < |s| then n else |s|
  {
    if 0 <= n then s[..if n < |s| then n else |s|]
    else s[..if -n < |s| then |s| + n else 0]
  }

  /** `s[a:b]` for non-negative bounds: empty when `a >= b`. */
  function PySlice<T>(s: seq<T>, a: nat, b: nat): (r: seq<T>)
    ensures a < b <= |s| ==> r == s[a..b]
    ensures b <= a ==> r == []
  {
    if b <= a || |s| <= a then [] else s[a..if b < |s| then b else |s|]
  }

  /** Decimal digits of a natural number, as Python's `str(n)` writes them. */
  function NatToString(n: nat): string
    decreases n
  {
    var d := ['0', '1', '2', '3', '4', '5', '6', '7', '8', '9'][n % 10];
    if n < 10 then [d] else NatToString(n / 10) + [d]
  }
}
