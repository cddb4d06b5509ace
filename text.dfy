/**
 * The two string operations the gateway applies to generated text:
 * `"".join(parts)` and Python's argument-less `str.strip()`.
 */
module Text {

  /** `"".join(parts)`: the parts concatenated in order. */
  function Join(parts: seq<string>): string
  {
    if parts == [] then "" else Join(parts[..|parts| - 1]) + parts[|parts| - 1]
  }

  /** The join is empty exactly when every part is. */
  lemma {:induction false} JoinEmpty(parts: seq<string>)
    ensures Join(parts) == [] <==> forall i :: 0 <= i < |parts| ==> parts[i] == []
    decreases |parts|
  {
    if parts != [] {
      var init := parts[..|parts| - 1];
      JoinEmpty(init);
      assert forall i :: 0 <= i < |init| ==> init[i] == parts[i];
    }
  }

  lemma {:induction false} JoinConcat(a: seq<string>, b: seq<string>)
    ensures Join(a + b) == Join(a) + Join(b)
    decreases |b|
  {
    if b == [] {
      assert a + b == a;
    } else {
      var b' := b[..|b| - 1];
      assert (a + b)[..|a + b| - 1] == a + b';
      JoinConcat(a, b');
    }
  }

  /**
   * The characters Python's `str.isspace` accepts, which are the ones
   * `str.strip()` removes: U+0009..U+000D, U+001C..U+0020, U+0085, U+00A0,
   * U+1680, U+2000..U+200A, U+2028, U+2029, U+202F, U+205F and U+3000.
   */
  const WhitespaceRanges: seq<(int, int)> := [
    (0x09, 0x0D), (0x1C, 0x20), (0x85, 0x85), (0xA0, 0xA0), (0x1680, 0x1680),
    (0x2000, 0x200A), (0x2028, 0x2029), (0x202F, 0x202F), (0x205F, 0x205F), (0x3000, 0x3000)]

  /** `n` lies in one of the inclusive `(low, high)` ranges. */
  predicate InRanges(n: int, ranges: seq<(int, int)>)
  {
    ranges != [] && (ranges[0].0 <= n <= ranges[0].1 || InRanges(n, ranges[1..]))
  }

  predicate IsSpace(c: char)
  {
    InRanges(c as int, WhitespaceRanges)
  }

  predicate AllSpace(s: string)
  {
    forall k :: 0 <= k < |s| ==> IsSpace(s[k])
  }

  /** Neither the first nor the last character is whitespace. */
  predicate Trimmed(s: string)
  {
    s == [] || (!IsSpace(s[0]) && !IsSpace(s[|s| - 1]))
  }

  /** The length of the longest all-whitespace prefix of `s`. */
  function LeadingSpaces(s: string): (n: nat)
    ensures n <= |s|
    ensures AllSpace(s[..n])
    ensures n < |s| ==> !IsSpace(s[n])
    decreases |s|
  {
    if s != [] && IsSpace(s[0]) then
      var n' := LeadingSpaces(s[1..]);
      assert s[..n' + 1] == [s[0]] + s[1..][..n'];
      AllSpaceConcat([s[0]], s[1..][..n']);
      1 + n'
    else 0
  }

  /** The length of the longest all-whitespace suffix of `s`. */
  function TrailingSpaces(s: string): (n: nat)
    ensures n <= |s|
    ensures AllSpace(s[|s| - n..])
    ensures n < |s| ==> !IsSpace(s[|s| - n - 1])
    decreases |s|
  {
    if s != [] && IsSpace(s[|s| - 1]) then
      var n' := TrailingSpaces(s[..|s| - 1]);
      TrailingSpacesStep(s, n');
      1 + n'
    else 0
  }

  /** One more trailing whitespace character extends the all-whitespace suffix by one. */
  lemma TrailingSpacesStep(s: string, n': nat)
    requires s != [] && IsSpace(s[|s| - 1])
    requires var init := s[..|s| - 1];
      && n' <= |init| && AllSpace(init[|init| - n'..])
      && (n' < |init| ==> !IsSpace(init[|init| - n' - 1]))
    ensures AllSpace(s[|s| - (n' + 1)..])
    ensures n' + 1 < |s| ==> !IsSpace(s[|s| - (n' + 1) - 1])
  {
    var init := s[..|s| - 1];
    assert s[|s| - (n' + 1)..] == init[|init| - n'..] + [s[|s| - 1]];
    AllSpaceConcat(init[|init| - n'..], [s[|s| - 1]]);
    assert n' < |init| ==> s[|s| - (n' + 1) - 1] == init[|init| - n' - 1];
  }

  lemma AllSpaceConcat(a: string, b: string)
    requires AllSpace(a) && AllSpace(b)
    ensures AllSpace(a + b)
  {
    var s := a + b;
    forall k | 0 <= k < |s| ensures IsSpace(s[k]) {
      if k < |a| { assert s[k] == a[k]; } else { assert s[k] == b[k - |a|]; }
    }
  }

  /** Python's `s.strip()`. */
  function Strip(s: string): (r: string)
    ensures Trimmed(r)
    ensures var i := LeadingSpaces(s);
            i + |r| <= |s| && r == s[i..i + |r|] && AllSpace(s[..i]) && AllSpace(s[i + |r|..])
    ensures r == [] <==> AllSpace(s)
  {
    var i := LeadingSpaces(s);
    var t := s[i..];
    var j := TrailingSpaces(t);
    StripInfix(s, i, j);
    assert j < |t| ==> t[|t| - j - 1] == s[|s| - j - 1];
    StripTrimmed(s, i, j);
    StripEmpty(s, i, j);
    t[..|t| - j]
  }

  /** Cutting the whitespace prefix and then the whitespace suffix of the rest leaves an infix with whitespace around it. */
  lemma StripInfix(s: string, i: nat, j: nat)
    requires i == LeadingSpaces(s) && j == TrailingSpaces(s[i..])
    ensures var t := s[i..]; var r := t[..|t| - j];
      i + |r| <= |s| && r == s[i..i + |r|] && AllSpace(s[..i]) && AllSpace(s[i + |r|..])
  {
    var t := s[i..];
    var r := t[..|t| - j];
    assert t[|t| - j..] == s[i + |r|..];
  }

  /**
   * Cutting `i` characters from the front and `j` from the back, where the
   * first character kept and the last one kept are not whitespace, leaves a
   * text that neither starts nor ends with whitespace.
   */
  lemma StripTrimmed(s: string, i: nat, j: nat)
    requires i <= |s| && j <= |s| - i
    requires i < |s| ==> !IsSpace(s[i])
    requires j < |s| - i ==> !IsSpace(s[|s| - j - 1])
    ensures var t := s[i..]; Trimmed(t[..|t| - j])
  {
    var t := s[i..];
    var r := t[..|t| - j];
    if r != [] {
      assert r[0] == s[i];
      assert r[|r| - 1] == s[|s| - j - 1];
    }
  }

  /** That infix is empty exactly when `s` is all whitespace. */
  lemma StripEmpty(s: string, i: nat, j: nat)
    requires i == LeadingSpaces(s) && j == TrailingSpaces(s[i..])
    ensures var t := s[i..]; t[..|t| - j] == [] <==> AllSpace(s)
  {
    var t := s[i..];
    if |t| == j {
      assert t[|t| - j..] == t;
      AllSpaceConcat(s[..i], t);
      assert s[..i] + t == s;
    } else {
      assert i < |s| && !IsSpace(s[i]);
    }
  }

  lemma {:induction false} LeadingSpacesOfPadded(a: string, rest: string)
    requires AllSpace(a)
    requires rest == [] || !IsSpace(rest[0])
    ensures LeadingSpaces(a + rest) == |a|
    decreases |a|
  {
    if a != [] {
      assert (a + rest)[1..] == a[1..] + rest;
      LeadingSpacesOfPadded(a[1..], rest);
    } else {
      assert a + rest == rest;
    }
  }

  lemma {:induction false} TrailingSpacesOfPadded(rest: string, b: string)
    requires AllSpace(b)
    requires rest == [] || !IsSpace(rest[|rest| - 1])
    ensures TrailingSpaces(rest + b) == |b|
    decreases |b|
  {
    if b != [] {
      var b' := b[..|b| - 1];
      assert (rest + b)[..|rest + b| - 1] == rest + b';
      TrailingSpacesOfPadded(rest, b');
    } else {
      assert rest + b == rest;
    }
  }

  /**
   * `Strip` removes exactly the whitespace padding: a trimmed text between
   * two all-whitespace strings comes back unchanged.
   */
  lemma StripPadded(a: string, m: string, b: string)
    requires AllSpace(a) && AllSpace(b) && Trimmed(m)
    ensures Strip(a + m + b) == m
  {
    var s := a + m + b;
    if m == [] {
      assert s == a + b;
      AllSpaceConcat(a, b);
    } else {
      assert s == a + (m + b);
      LeadingSpacesOfPadded(a, m + b);
      var t := s[|a|..];
      assert t == m + b;
      TrailingSpacesOfPadded(m, b);
    }
  }

  lemma StripIdempotent(s: string)
    ensures Strip(Strip(s)) == Strip(s)
  {
    var r := Strip(s);
    assert [] + r + [] == r;
    StripPadded([], r, []);
  }
}
