/** Text primitives used by the table cleaner, the column detectors and the
    query router: substring tests, lower-casing, whitespace trimming and
    removal of single characters. */
module Strings {

  /** `w in s` for Python strings: `w` occurs as a contiguous block of `s`. */
  predicate Contains(s: string, w: string)
    decreases |s|
  {
    w <= s || (|s| > 0 && Contains(s[1..], w))
  }

  /** Characters for which Python's `str.isspace()` holds; `str.strip()`
      with no argument removes exactly these. */
  predicate IsSpace(c: char)
  {
    || ('\U{09}' <= c <= '\U{0D}')
    || ('\U{1C}' <= c <= '\U{20}')
    || c == '\U{85}' || c == '\U{A0}' || c == '\U{1680}'
    || ('\U{2000}' <= c <= '\U{200A}')
    || c == '\U{2028}' || c == '\U{2029}' || c == '\U{202F}'
    || c == '\U{205F}' || c == '\U{3000}'
  }

  /** Lower-casing of one character, restricted to the ASCII letters. */
  function LowerChar(c: char): (d: char)
    ensures 'A' <= c <= 'Z' ==> 'a' <= d <= 'z'
    ensures !('A' <= c <= 'Z') ==> d == c
  {
    if 'A' <= c <= 'Z' then (c as int + 32) as char else c
  }

  /** `s.lower()`, character by character. */
  function Lower(s: string): (r: string)
    ensures |r| == |s|
    ensures forall i :: 0 <= i < |s| ==> r[i] == LowerChar(s[i])
  {
    seq(|s|, i requires 0 <= i < |s| => LowerChar(s[i]))
  }

  /** Lower-casing twice is lower-casing once. */
  lemma LowerIdempotent(s: string)
    ensures Lower(Lower(s)) == Lower(s)
  {
  }

  /** Drops the leading whitespace of `s`. */
  function StripLeft(s: string): (r: string)
    ensures |r| <= |s| && r == s[|s| - |r|..]
    ensures r == [] || !IsSpace(r[0])
    ensures forall i :: 0 <= i < |s| - |r| ==> IsSpace(s[i])
  {
    if |s| > 0 && IsSpace(s[0]) then StripLeft(s[1..]) else s
  }

  /** Drops the trailing whitespace of `s`. */
  function StripRight(s: string): (r: string)
    ensures |r| <= |s| && r == s[..|r|]
    ensures r == [] || !IsSpace(r[|r| - 1])
    ensures forall i :: |r| <= i < |s| ==> IsSpace(s[i])
  {
    if |s| > 0 && IsSpace(s[|s| - 1]) then StripRight(s[..|s| - 1]) else s
  }

  /** `s.strip()`: a contiguous block of `s` that neither starts nor ends
      with whitespace, with only whitespace before and after it. */
  function Strip(s: string): (r: string)
    ensures Trimmed(r)
    ensures exists i :: StripsTo(s, r, i)
  {
    var l := StripLeft(s);
    StripRightTrims(l);
    PrefixOfSuffix(s, l, StripRight(l));
    assert StripsTo(s, StripRight(l), |s| - |l|);
    StripRight(l)
  }

  /** `r` sits at index `i` of `s`, and all of `s` around it is whitespace. */
  predicate StripsTo(s: string, r: string, i: int)
  {
    && BlockAt(s, r, i)
    && (forall k :: 0 <= k < i ==> IsSpace(s[k]))
    && (forall k :: i + |r| <= k < |s| ==> IsSpace(s[k]))
  }

  /** Right-stripping a text that starts with no whitespace trims it. */
  lemma StripRightTrims(l: string)
    requires l == [] || !IsSpace(l[0])
    ensures Trimmed(StripRight(l))
  {
    var r := StripRight(l);
    assert r == [] || r[0] == l[0];
  }

  /** A prefix of a suffix of `s` is a block of `s`; what the two cuts drop
      is what they dropped from their own inputs. */
  lemma PrefixOfSuffix(s: string, l: string, r: string)
    requires |l| <= |s| && l == s[|s| - |l|..]
    requires |r| <= |l| && r == l[..|r|]
    ensures BlockAt(s, r, |s| - |l|)
    ensures forall k :: |s| - |l| + |r| <= k < |s| ==> s[k] == l[k - (|s| - |l|)]
  {
    var i := |s| - |l|;
    forall k | 0 <= k < |r|
      ensures s[i..i + |r|][k] == r[k]
    {
      assert r[k] == l[k] == s[i + k];
    }
  }

  /** `strip()` is determined by what it promises: a trimmed block with only
      whitespace around it is the result of stripping. */
  lemma StripUnique(s: string, r: string, i: int)
    requires Trimmed(r) && StripsTo(s, r, i)
    ensures Strip(s) == r
  {
    if r == [] {
      var j :| StripsTo(s, Strip(s), j);
    } else {
      var t := s[i..];
      assert t[0] == r[0];
      StripLeftSpaces(s, t);
      StripRightSpaces(t, r);
    }
  }

  lemma {:induction false} StripRightSpaces(t: string, r: string)
    requires r == [] || !IsSpace(r[|r| - 1])
    requires |r| <= |t| && t[..|r|] == r
    requires forall k :: |r| <= k < |t| ==> IsSpace(t[k])
    ensures StripRight(t) == r
    decreases |t|
  {
    if |t| > |r| {
      assert t[..|t| - 1][..|r|] == r;
      StripRightSpaces(t[..|t| - 1], r);
    } else {
      assert t == t[..|r|];
    }
  }

  /** `r` occurs in `s` starting at index `i`. */
  predicate BlockAt(s: string, r: string, i: int)
  {
    0 <= i <= |s| - |r| && s[i..i + |r|] == r
  }

  /** No leading and no trailing whitespace. */
  predicate Trimmed(s: string)
  {
    s == [] || (!IsSpace(s[0]) && !IsSpace(s[|s| - 1]))
  }

  /** Stripping leaves a string that is already trimmed unchanged. */
  lemma StripTrimmed(s: string)
    requires Trimmed(s)
    ensures Strip(s) == s
  {
    assert StripLeft(s) == s;
    assert StripRight(s) == s;
  }

  /** Stripping is idempotent. */
  lemma StripIdempotent(s: string)
    ensures Strip(Strip(s)) == Strip(s)
  {
    StripTrimmed(Strip(s));
  }

  /** Stripping a trimmed text preceded by whitespace gives the text. */
  lemma StripLeadingSpaces(s: string, t: string)
    requires Trimmed(t) && |t| <= |s| && s[|s| - |t|..] == t
    requires forall i :: 0 <= i < |s| - |t| ==> IsSpace(s[i])
    ensures Strip(s) == t
  {
    StripLeftSpaces(s, t);
    assert StripRight(t) == t;
  }

  lemma {:induction false} StripLeftSpaces(s: string, t: string)
    requires t == [] || !IsSpace(t[0])
    requires |t| <= |s| && s[|s| - |t|..] == t
    requires forall i :: 0 <= i < |s| - |t| ==> IsSpace(s[i])
    ensures StripLeft(s) == t
    decreases |s|
  {
    if |s| > |t| {
      assert s[1..][|s| - 1 - |t|..] == t;
      StripLeftSpaces(s[1..], t);
    } else {
      assert s == t;
    }
  }

  /** `s.replace(c, "")` for a one-character pattern: every occurrence of `c`
      goes, every other character stays, as often as it occurred and in order
      (`WithoutAppend`, `WithoutOne`). */
  function Without(s: string, c: char): (r: string)
    ensures c !in r
    ensures multiset(r) == multiset(s)[c := 0]
    ensures forall x :: x != c ==> (x in r <==> x in s)
    ensures c !in s ==> r == s
    ensures |r| <= |s|
  {
    if s == [] then []
    else
      assert s == [s[0]] + s[1..];
      if s[0] == c then Without(s[1..], c)
      else [s[0]] + Without(s[1..], c)
  }

  /** Removing a character from one character keeps it unless it is `c`. */
  lemma WithoutOne(x: char, c: char)
    ensures Without([x], c) == if x == c then [] else [x]
  {
    assert [x][1..] == [];
  }

  /** Removing a character works piece by piece, so the kept characters keep
      their order. */
  lemma {:induction false} WithoutAppend(a: string, b: string, c: char)
    ensures Without(a + b, c) == Without(a, c) + Without(b, c)
    decreases |a|
  {
    if a == [] {
      assert a + b == b;
    } else {
      assert (a + b)[0] == a[0];
      assert (a + b)[1..] == a[1..] + b;
      WithoutAppend(a[1..], b, c);
    }
  }

  const Comma: char := ','
  const Rupee: char := '\U{20B9}'
  const Percent: char := '%'

  /** The three replacements of the table cleaner, applied in order. */
  function StripNoise(s: string): (r: string)
    ensures NoNoise(r)
    ensures multiset(r) == multiset(s)[Comma := 0][Rupee := 0][Percent := 0]
    ensures forall x :: x != Comma && x != Rupee && x != Percent ==> (x in r <==> x in s)
  {
    Without(Without(Without(s, Comma), Rupee), Percent)
  }

  /** The replacements work piece by piece, so the kept characters keep
      their order. */
  lemma StripNoiseAppend(a: string, b: string)
    ensures StripNoise(a + b) == StripNoise(a) + StripNoise(b)
  {
    WithoutAppend(a, b, Comma);
    WithoutAppend(Without(a, Comma), Without(b, Comma), Rupee);
    WithoutAppend(Without(Without(a, Comma), Rupee), Without(Without(b, Comma), Rupee), Percent);
  }

  /** One character is dropped when it is a noise character and kept otherwise. */
  lemma StripNoiseOne(x: char)
    ensures StripNoise([x]) == if x == Comma || x == Rupee || x == Percent then [] else [x]
  {
    WithoutOne(x, Comma);
    WithoutOne(x, Rupee);
    WithoutOne(x, Percent);
    assert Without([], Rupee) == [] && Without([], Percent) == [];
  }

  /** An amount as the board shows it loses its currency sign and its
      thousands separator: "₹1,000" becomes "1000". */
  lemma StripNoiseAmount()
    ensures StripNoise("\U{20B9}1,000") == "1000"
  {
    var zeros := "000";
    AmountPieces();
    StripNoiseDigits(zeros);
    StripNoiseJoin(Rupee, '1', Comma, zeros);
  }

  lemma AmountPieces()
    ensures "\U{20B9}1,000" == [Rupee] + (['1'] + ([Comma] + "000"))
    ensures ['1'] + "000" == "1000"
  {
  }

  /** Stripping `x`, `y`, `z` then `rest` where only `y` is kept. */
  lemma StripNoiseJoin(x: char, y: char, z: char, rest: string)
    requires x == Rupee && z == Comma && y != Comma && y != Rupee && y != Percent
    requires StripNoise(rest) == rest
    ensures StripNoise([x] + ([y] + ([z] + rest))) == [y] + rest
  {
    StripNoiseOne(x);
    StripNoiseOne(y);
    StripNoiseOne(z);
    StripNoiseAppend([z], rest);
    StripNoiseAppend([y], [z] + rest);
    StripNoiseAppend([x], [y] + ([z] + rest));
  }

  /** A text of digits has nothing to strip. */
  lemma StripNoiseDigits(s: string)
    requires forall i :: 0 <= i < |s| ==> '0' <= s[i] <= '9'
    ensures StripNoise(s) == s
  {
    StripNoiseFixes(s);
  }

  /** None of the stripped characters occurs. */
  predicate NoNoise(s: string)
  {
    Comma !in s && Rupee !in s && Percent !in s
  }

  /** A string free of the noise characters is left unchanged. */
  lemma StripNoiseFixes(s: string)
    requires NoNoise(s)
    ensures StripNoise(s) == s
  {
  }

  /** Stripping the noise characters is idempotent. */
  lemma StripNoiseIdempotent(s: string)
    ensures StripNoise(StripNoise(s)) == StripNoise(s)
  {
    StripNoiseFixes(StripNoise(s));
  }
}
