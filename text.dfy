/** Character and string helpers shared by the model: the whitespace class used by
    Python's `str.strip()` and by the regular-expression class `\s`, stripping,
    ASCII lower-casing, substring search and joining. */
module Text {

  /** Python's `str.isspace()` set: the characters `str.strip()` removes and `\s` matches. */
  predicate IsSpace(c: char) {
    || c == ' ' || ('\t' <= c <= '\r') || ('\U{1C}' <= c <= '\U{1F}')
    || c == '\U{85}' || c == '\U{A0}' || c == '\U{1680}'
    || ('\U{2000}' <= c <= '\U{200A}') || c == '\U{2028}' || c == '\U{2029}'
    || c == '\U{202F}' || c == '\U{205F}' || c == '\U{3000}'
  }

  predicate AllSpace(s: string) {
    forall k :: 0 <= k < |s| ==> IsSpace(s[k])
  }

  /** No whitespace at either end. */
  predicate Trimmed(s: string) {
    s == [] || (!IsSpace(s[0]) && !IsSpace(s[|s| - 1]))
  }

  /** `s` with its leading whitespace removed. */
  function StripLeading(s: string): (r: string)
    ensures |r| <= |s| && r == s[|s| - |r|..]
    ensures AllSpace(s[..|s| - |r|])
    ensures r == [] || !IsSpace(r[0])
  {
    if s != [] && IsSpace(s[0]) then
      var r := StripLeading(s[1..]);
      assert s[1..][|s[1..]| - |r|..] == s[|s| - |r|..];
      var cut := s[..|s| - |r|];
      forall k | 0 <= k < |cut|
        ensures IsSpace(cut[k])
      {
        if k > 0 {
          assert cut[k] == s[1..][..|s[1..]| - |r|][k - 1];
        }
      }
      r
    else s
  }

  /** `s` with its trailing whitespace removed. */
  function StripTrailing(s: string): (r: string)
    ensures |r| <= |s| && r == s[..|r|]
    ensures AllSpace(s[|r|..])
    ensures r == [] || !IsSpace(r[|r| - 1])
  {
    if s != [] && IsSpace(s[|s| - 1]) then
      var r := StripTrailing(s[..|s| - 1]);
      assert s[..|s| - 1][..|r|] == s[..|r|];
      var cut := s[|r|..];
      forall k | 0 <= k < |cut|
        ensures IsSpace(cut[k])
      {
        if |r| + k < |s| - 1 {
          assert cut[k] == s[..|s| - 1][|r|..][k];
        }
      }
      r
    else s
  }

  /** Python's `s.strip()`: the middle of `s` between its leading and trailing whitespace. */
  function Strip(s: string): (r: string)
    ensures |r| <= |s|
    ensures Trimmed(r)
    ensures r == [] <==> AllSpace(s)
  {
    var a := StripLeading(s);
    var r := StripTrailing(a);
    StripParts(s, a, r);
    r
  }

  /** The strip is a slice of `s` with only whitespace outside it. */
  lemma StripIsSlice(s: string)
    ensures exists i :: 0 <= i <= |s| - |Strip(s)| && IsStripOf(s, Strip(s), i)
  {
    var a := StripLeading(s);
    var i := |s| - |a|;
    StripParts(s, a, StripTrailing(a));
    assert 0 <= i <= |s| - |Strip(s)| && IsStripOf(s, Strip(s), i);
  }

  /** Leading whitespace cut off `s` leaves `a`, trailing whitespace cut off `a` leaves
      `r`: then `r` is a strip of `s`, empty exactly when `s` is all whitespace. */
  lemma StripParts(s: string, a: string, r: string)
    requires |a| <= |s| && a == s[|s| - |a|..] && AllSpace(s[..|s| - |a|])
    requires |r| <= |a| && r == a[..|r|] && AllSpace(a[|r|..])
    requires a == [] || !IsSpace(a[0])
    ensures IsStripOf(s, r, |s| - |a|)
    ensures r == [] <==> AllSpace(s)
  {
    var i := |s| - |a|;
    assert s[i + |r|..] == a[|r|..];
    assert r == s[i..i + |r|];
    if r == [] {
      assert a[|r|..] == a;
      assert a == [];
      assert s[..i] == s;
    }
    if a != [] {
      assert s[i] == a[0];
      assert !AllSpace(s);
    }
  }

  /** `r` is `s[i..i+|r|]` and everything of `s` outside that slice is whitespace. */
  predicate IsStripOf(s: string, r: string, i: nat) {
    && i + |r| <= |s|
    && r == s[i..i + |r|]
    && AllSpace(s[..i])
    && AllSpace(s[i + |r|..])
  }

  /** A stripped string is its own strip. */
  lemma {:induction false} StripIdempotent(s: string)
    ensures Strip(Strip(s)) == Strip(s)
  {
    var r := Strip(s);
    if r != [] {
      assert StripLeading(r) == r;
      assert StripTrailing(r) == r;
    }
  }

  predicate IsUpperAscii(c: char) { 'A' <= c <= 'Z' }

  function LowerChar(c: char): (d: char)
    ensures !IsUpperAscii(d)
    ensures IsUpperAscii(c) ==> d as int == c as int + 32
    ensures !IsUpperAscii(c) ==> d == c
  {
    if IsUpperAscii(c) then (c as int + 32) as char else c
  }

  /** Lower-casing, for the ASCII letters (Python's `str.lower()` restricted to ASCII). */
  function Lower(s: string): (r: string)
    ensures |r| == |s|
    ensures forall k :: 0 <= k < |s| ==> r[k] == LowerChar(s[k])
  {
    if s == [] then [] else [LowerChar(s[0])] + Lower(s[1..])
  }

  predicate OccursAt(needle: string, hay: string, i: nat) {
    i + |needle| <= |hay| && hay[i..i + |needle|] == needle
  }

  /** Python's `needle in hay` on strings. */
  predicate Contains(hay: string, needle: string) {
    exists i :: 0 <= i <= |hay| - |needle| && OccursAt(needle, hay, i)
  }

  /** Python's `sep.join(parts)`. */
  function Join(sep: string, parts: seq<string>): string
  {
    if parts == [] then ""
    else if |parts| == 1 then parts[0]
    else Join(sep, parts[..|parts| - 1]) + sep + parts[|parts| - 1]
  }

  /** The summed length of `parts`. */
  function TotalLength(parts: seq<string>): nat
  {
    if parts == [] then 0 else TotalLength(parts[..|parts| - 1]) + |parts[|parts| - 1]|
  }

  /** Read from the front: the first part, the separator, then the join of the rest. */
  lemma {:induction false} JoinFront(sep: string, parts: seq<string>)
    requires |parts| >= 2
    ensures Join(sep, parts) == parts[0] + sep + Join(sep, parts[1..])
    decreases |parts|
  {
    var n := |parts|;
    if n > 2 {
      JoinFront(sep, parts[..n - 1]);
      assert parts[..n - 1][1..] == parts[1..][..n - 2];
      assert parts[..n - 1][0] == parts[0];
      assert parts[1..][n - 2] == parts[n - 1];
    } else {
      assert parts[1..] == [parts[1]];
    }
  }

  /** The joined text holds the characters of every part and one separator between
      each two neighbours. */
  lemma {:induction false} JoinLength(sep: string, parts: seq<string>)
    requires parts != []
    ensures |Join(sep, parts)| == TotalLength(parts) + (|parts| - 1) * |sep|
    decreases |parts|
  {
    var n := |parts|;
    if n > 1 {
      JoinLength(sep, parts[..n - 1]);
      assert (n - 1) * |sep| == (n - 2) * |sep| + |sep|;
    } else {
      assert parts[..0] == [];
    }
  }

  /** `needle in hay` holds exactly when `hay` splits around an occurrence of `needle`. */
  lemma ContainsSplit(hay: string, needle: string)
    ensures Contains(hay, needle) <==> exists a, b :: hay == a + needle + b
  {
    if Contains(hay, needle) {
      var i :| 0 <= i <= |hay| - |needle| && OccursAt(needle, hay, i);
      assert hay == hay[..i] + needle + hay[i + |needle|..];
    }
    if exists a, b :: hay == a + needle + b {
      var a, b :| hay == a + needle + b;
      assert hay[|a|..|a| + |needle|] == needle;
      assert OccursAt(needle, hay, |a|);
    }
  }
}
