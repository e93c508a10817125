/**
 * The fragment of Python's `str` behaviour that the NIST table converter
 * relies on: `isspace`, `strip`, `startswith`, `find`, the `in` operator,
 * `split(sep)`, `split()` with no argument, and slicing.
 */
module PyText {
  import opened Wrappers

  /** Python's `str.isspace` for one character (the full Unicode set Python uses). */
  predicate IsSpace(c: char) {
    ('\t' <= c <= '\r') || ('\U{1C}' <= c <= ' ') || c == '\U{85}' || c == '\U{A0}'
    || c == '\U{1680}' || ('\U{2000}' <= c <= '\U{200A}') || c == '\U{2028}'
    || c == '\U{2029}' || c == '\U{202F}' || c == '\U{205F}' || c == '\U{3000}'
  }

  predicate AllSpace(s: string) {
    forall i :: 0 <= i < |s| ==> IsSpace(s[i])
  }

  predicate NoSpace(s: string) {
    forall i :: 0 <= i < |s| ==> !IsSpace(s[i])
  }

  /** The number of whitespace characters at the start of `s`. */
  function LeadingSpaces(s: string): (n: nat)
    ensures n <= |s|
  {
    if s != [] && IsSpace(s[0]) then LeadingSpaces(s[1..]) + 1 else 0
  }

  /** The number of whitespace characters at the end of `s`. */
  function TrailingSpaces(s: string): (n: nat)
    ensures n <= |s|
  {
    if s != [] && IsSpace(s[|s| - 1]) then TrailingSpaces(s[..|s| - 1]) + 1 else 0
  }

  /** `s.lstrip()`. */
  function StripStart(s: string): string {
    s[LeadingSpaces(s)..]
  }

  /** `s.rstrip()`. */
  function StripEnd(s: string): string {
    s[..|s| - TrailingSpaces(s)]
  }

  /** `s.strip()`. */
  function Strip(s: string): string {
    StripEnd(StripStart(s))
  }

  /** `LeadingSpaces` counts a maximal run of whitespace. */
  lemma {:induction false} LeadingSpacesMaximal(s: string)
    ensures forall i :: 0 <= i < LeadingSpaces(s) ==> IsSpace(s[i])
    ensures LeadingSpaces(s) == |s| || !IsSpace(s[LeadingSpaces(s)])
    decreases |s|
  {
    if s != [] && IsSpace(s[0]) {
      var t := s[1..];
      LeadingSpacesMaximal(t);
      var m := LeadingSpaces(t);
      forall i | 1 <= i < m + 1
        ensures IsSpace(s[i])
      {
        assert s[i] == t[i - 1];
      }
      if m < |t| {
        assert s[m + 1] == t[m];
      }
    }
  }

  /** `TrailingSpaces` counts a maximal run of whitespace. */
  lemma {:induction false} TrailingSpacesMaximal(s: string)
    ensures forall i :: |s| - TrailingSpaces(s) <= i < |s| ==> IsSpace(s[i])
    ensures TrailingSpaces(s) == |s| || !IsSpace(s[|s| - TrailingSpaces(s) - 1])
    decreases |s|
  {
    if s != [] && IsSpace(s[|s| - 1]) {
      var t := s[..|s| - 1];
      TrailingSpacesMaximal(t);
      var m := TrailingSpaces(t);
      forall i | |s| - (m + 1) <= i < |s| - 1
        ensures IsSpace(s[i])
      {
        assert s[i] == t[i];
      }
      if m < |t| {
        assert s[|t| - m - 1] == t[|t| - m - 1];
      }
    }
  }

  /**
   * `s.strip()` removes whitespace runs from both ends and nothing else: the
   * result is an infix of `s`, everything around it is whitespace, and it
   * neither starts nor ends with whitespace.
   */
  lemma StripRemovesOuterSpace(s: string)
    ensures var r := Strip(s);
      (r == [] || (!IsSpace(r[0]) && !IsSpace(r[|r| - 1])))
      && exists k :: InfixBetweenSpace(s, r, k)
  {
    var k := LeadingSpaces(s);
    var t := s[k..];
    LeadingSpacesMaximal(s);
    TrailingSpacesMaximal(t);
    var r := Strip(s);
    assert r == t[..|t| - TrailingSpaces(t)];
    assert s[k..k + |r|] == r;
    if r != [] {
      assert r[0] == t[0] == s[k];
      assert r[|r| - 1] == t[|r| - 1];
    }
    forall i | k + |r| <= i < |s|
      ensures IsSpace(s[i])
    {
      assert s[i] == t[i - k];
    }
    assert InfixBetweenSpace(s, r, k);
  }

  /** `r` sits in `s` at index `k`, with only whitespace before and after it. */
  predicate InfixBetweenSpace(s: string, r: string, k: int) {
    0 <= k <= |s| - |r| && s[k..k + |r|] == r
    && (forall i :: 0 <= i < k ==> IsSpace(s[i]))
    && (forall i :: k + |r| <= i < |s| ==> IsSpace(s[i]))
  }

  predicate StartsWith(s: string, p: string) {
    p <= s
  }

  /** `p` occurs in `s` at index `i`. */
  predicate OccursAt(s: string, p: string, i: int) {
    0 <= i && i + |p| <= |s| && s[i..i + |p|] == p
  }

  /** `s.find(p)`: the first index at which `p` occurs, `None` standing for Python's -1. */
  function Find(s: string, p: string): (r: Option<nat>)
    ensures r.Some? ==> OccursAt(s, p, r.value)
    ensures r.Some? ==> forall j :: 0 <= j < r.value ==> !OccursAt(s, p, j)
    ensures r.None? ==> forall j :: !OccursAt(s, p, j)
    decreases |s|
  {
    if |s| < |p| then None
    else if p <= s then Some(0)
    else
      assert !OccursAt(s, p, 0) by { assert s[..|p|] == s[0..|p|]; }
      OccursAtShift(s, p);
      match Find(s[1..], p)
      case Some(i) => Some(i + 1)
      case None => None
  }

  /** An occurrence in `s` after index 0 is an occurrence in `s[1..]` one place earlier. */
  lemma OccursAtShift(s: string, p: string)
    requires s != []
    ensures forall j :: 1 <= j ==> (OccursAt(s, p, j) <==> OccursAt(s[1..], p, j - 1))
  {
    forall j | 1 <= j
      ensures OccursAt(s, p, j) <==> OccursAt(s[1..], p, j - 1)
    {
      if j + |p| <= |s| {
        assert s[1..][j - 1..j - 1 + |p|] == s[j..j + |p|];
      }
    }
  }

  /** Python's `p in s`. */
  predicate Contains(s: string, p: string) {
    Find(s, p).Some?
  }

  /** `sep.join(parts)`. */
  function Join(parts: seq<string>, sep: string): string {
    if |parts| == 0 then []
    else if |parts| == 1 then parts[0]
    else parts[0] + sep + Join(parts[1..], sep)
  }

  /**
   * `s.split(sep)` for a non-empty separator: the pieces between the
   * occurrences of `sep`, found left to right without overlap. There are
   * at least two pieces exactly when `sep` occurs in `s`.
   */
  function Split(s: string, sep: string): (r: seq<string>)
    requires sep != []
    ensures |r| >= 1
    decreases |s|
  {
    match Find(s, sep)
    case None => [s]
    case Some(i) => [s[..i]] + Split(s[i + |sep|..], sep)
  }

  /** `sep` occurs in `s` exactly when `s.split(sep)` has a second piece. */
  lemma SplitHasSecondPiece(s: string, sep: string)
    requires sep != []
    ensures |Split(s, sep)| >= 2 <==> Contains(s, sep)
  {
  }

  /** Joining the pieces of `s.split(sep)` with `sep` gives back `s`. */
  lemma {:induction false} SplitJoin(s: string, sep: string)
    requires sep != []
    ensures Join(Split(s, sep), sep) == s
    decreases |s|
  {
    match Find(s, sep)
    case None =>
    case Some(i) =>
      var head := s[..i];
      var tail := s[i + |sep|..];
      var rest := Split(tail, sep);
      assert Split(s, sep) == [head] + rest;
      SplitJoin(tail, sep);
      JoinCons(head, rest, sep);
      ThreeParts(s, i, |sep|);
  }

  lemma ThreeParts(s: string, i: nat, n: nat)
    requires i + n <= |s|
    ensures s == s[..i] + s[i..i + n] + s[i + n..]
  {
  }

  /** No piece of `s.split(sep)` contains `sep`. */
  lemma {:induction false} SplitPiecesAreFree(s: string, sep: string)
    requires sep != []
    ensures forall k :: 0 <= k < |Split(s, sep)| ==> !Contains(Split(s, sep)[k], sep)
    decreases |s|
  {
    match Find(s, sep)
    case None =>
    case Some(i) =>
      var tail := s[i + |sep|..];
      SplitPiecesAreFree(tail, sep);
      NothingBeforeFirst(s, sep, i);
      var r := Split(s, sep);
      var rest := Split(tail, sep);
      assert r == [s[..i]] + rest;
      forall k | 0 <= k < |r|
        ensures !Contains(r[k], sep)
      {
        if k > 0 {
          assert r[k] == rest[k - 1];
        }
      }
  }

  /** The text before the first occurrence of `p` does not contain `p`. */
  lemma NothingBeforeFirst(s: string, p: string, i: nat)
    requires p != [] && Find(s, p) == Some(i)
    ensures !Contains(s[..i], p)
  {
    if Find(s[..i], p).Some? {
      var j := Find(s[..i], p).value;
      assert OccursAt(s[..i], p, j);
      assert s[..i][j..j + |p|] == s[j..j + |p|];
      assert OccursAt(s, p, j);
    }
  }

  lemma JoinCons(head: string, rest: seq<string>, sep: string)
    requires rest != []
    ensures Join([head] + rest, sep) == head + sep + Join(rest, sep)
  {
    assert ([head] + rest)[1..] == rest;
  }


  /** The length of the longest prefix of `s` that holds no whitespace. */
  function WordLength(s: string): (n: nat)
    ensures n <= |s|
  {
    if s != [] && !IsSpace(s[0]) then WordLength(s[1..]) + 1 else 0
  }

  /** `WordLength` measures a maximal run of non-whitespace. */
  lemma {:induction false} WordLengthMaximal(s: string)
    ensures forall i :: 0 <= i < WordLength(s) ==> !IsSpace(s[i])
    ensures WordLength(s) == |s| || IsSpace(s[WordLength(s)])
    decreases |s|
  {
    if s != [] && !IsSpace(s[0]) {
      var t := s[1..];
      WordLengthMaximal(t);
      var m := WordLength(t);
      forall i | 1 <= i < m + 1
        ensures !IsSpace(s[i])
      {
        assert s[i] == t[i - 1];
      }
      if m < |t| {
        assert s[m + 1] == t[m];
      }
    }
  }

  /** `s.split()` with no argument: the maximal runs of non-whitespace characters. */
  function Tokens(s: string): seq<string>
    decreases |s|
  {
    var t := StripStart(s);
    if t == [] then []
    else
      LeadingSpacesMaximal(s);
      assert t[0] == s[LeadingSpaces(s)];
      var n := WordLength(t);
      [t[..n]] + Tokens(t[n..])
  }

  /** Every token of `s.split()` is non-empty and holds no whitespace. */
  lemma {:induction false} TokensAreWords(s: string)
    ensures forall k :: 0 <= k < |Tokens(s)| ==> Tokens(s)[k] != [] && NoSpace(Tokens(s)[k])
    decreases |s|
  {
    var t := StripStart(s);
    if t != [] {
      LeadingSpacesMaximal(s);
      assert t[0] == s[LeadingSpaces(s)];
      var n := WordLength(t);
      WordLengthMaximal(t);
      TokensAreWords(t[n..]);
      var r := Tokens(s);
      var rest := Tokens(t[n..]);
      assert r == [t[..n]] + rest;
      forall k | 0 <= k < |r|
        ensures r[k] != [] && NoSpace(r[k])
      {
        if k > 0 {
          assert r[k] == rest[k - 1];
        }
      }
    }
  }

  /** `s.split()` is empty exactly when `s` is blank. */
  lemma TokensEmptyIffBlank(s: string)
    ensures Tokens(s) == [] <==> AllSpace(s)
  {
    var t := StripStart(s);
    LeadingSpacesMaximal(s);
    if t != [] {
      assert t[0] == s[LeadingSpaces(s)];
    }
  }

  /** The slice `s[lo:hi]` for non-negative bounds: clamped to `s`, empty when `hi <= lo`. */
  function Slice(s: string, lo: nat, hi: nat): (r: string)
    ensures lo <= hi <= |s| ==> r == s[lo..hi]
    ensures hi <= lo ==> r == []
    ensures |r| <= |s|
  {
    var h := if hi <= |s| then hi else |s|;
    var l := if lo <= h then lo else h;
    s[l..h]
  }

  /** A whitespace-free word followed by whitespace (or nothing) is measured whole. */
  lemma {:induction false} WordLengthOfPrefix(w: string, rest: string)
    requires NoSpace(w)
    requires rest == [] || IsSpace(rest[0])
    ensures WordLength(w + rest) == |w|
    decreases |w|
  {
    if w != [] {
      assert (w + rest)[0] == w[0];
      assert (w + rest)[1..] == w[1..] + rest;
      WordLengthOfPrefix(w[1..], rest);
    }
  }

  /** A leading blank does not change `split()`. */
  lemma TokensSkipsSpace(x: string)
    ensures Tokens(" " + x) == Tokens(x)
  {
    var s := " " + x;
    assert s[1..] == x;
    assert LeadingSpaces(s) == LeadingSpaces(x) + 1;
    assert StripStart(s) == StripStart(x);
  }

  /** A non-empty word followed by whitespace (or nothing) is the first token. */
  lemma TokensOfWordThen(w: string, rest: string)
    requires w != [] && NoSpace(w)
    requires rest == [] || IsSpace(rest[0])
    ensures Tokens(w + rest) == [w] + Tokens(rest)
  {
    var s := w + rest;
    assert s[0] == w[0];
    assert LeadingSpaces(s) == 0;
    assert StripStart(s) == s;
    WordLengthOfPrefix(w, rest);
    assert s[..|w|] == w;
    assert s[|w|..] == rest;
  }

  /** `split()` recovers the words that `" ".join` glued together. */
  lemma {:induction false} TokensOfJoin(ws: seq<string>)
    requires forall k :: 0 <= k < |ws| ==> ws[k] != [] && NoSpace(ws[k])
    ensures Tokens(Join(ws, " ")) == ws
  {
    if |ws| == 1 {
      TokensOfWordThen(ws[0], []);
      assert ws[0] + [] == ws[0];
    } else if |ws| > 1 {
      var tail := Join(ws[1..], " ");
      assert Join(ws, " ") == ws[0] + (" " + tail);
      TokensOfWordThen(ws[0], " " + tail);
      TokensSkipsSpace(tail);
      TokensOfJoin(ws[1..]);
      assert ws == [ws[0]] + ws[1..];
    }
  }

  /** Stripping is the identity on a string with no whitespace at either end. */
  lemma {:induction false} StripIdempotent(s: string)
    ensures Strip(Strip(s)) == Strip(s)
  {
    var r := Strip(s);
    StripRemovesOuterSpace(s);
    if r != [] {
      assert LeadingSpaces(r) == 0;
      assert StripStart(r) == r;
      assert TrailingSpaces(r) == 0;
    }
  }
}
