/** The best-effort extraction of the translation field from a reply that is not
    valid JSON: a leftmost search for the pattern
    `"chinese_translation"\s*:\s*"([^"]+)"`, returning its group 1.
    `\s` is Python's whitespace class (Text.IsSpace). */
module TranslationRegex {
  import opened Text
  import opened Wrappers

  /** The literal that opens the pattern, quotes included. */
  const Key: string := "\"chinese_translation\""

  predicate QuoteFree(g: string) {
    forall k :: 0 <= k < |g| ==> g[k] != '"'
  }

  /** First index at or after `i` whose character is not whitespace (or `|s|`). */
  function SkipSpaces(s: string, i: nat): (j: nat)
    requires i <= |s|
    ensures i <= j <= |s|
    ensures AllSpace(s[i..j])
    ensures j == |s| || !IsSpace(s[j])
    decreases |s| - i
  {
    if i < |s| && IsSpace(s[i]) then
      var j := SkipSpaces(s, i + 1);
      assert s[i..j] == [s[i]] + s[i + 1..j];
      j
    else i
  }

  /** First index at or after `i` holding a double quote (or `|s|`). */
  function NextQuote(s: string, i: nat): (j: nat)
    requires i <= |s|
    ensures i <= j <= |s|
    ensures QuoteFree(s[i..j])
    ensures j == |s| || s[j] == '"'
    decreases |s| - i
  {
    if i < |s| && s[i] != '"' then
      var j := NextQuote(s, i + 1);
      assert s[i..j] == [s[i]] + s[i + 1..j];
      j
    else i
  }

  /** Group 1 of an anchored match at index `i` of the pattern opened by `key`. */
  function MatchKeyAt(key: string, s: string, i: nat): Option<string>
    requires i <= |s|
  {
    if !OccursAt(key, s, i) then None
    else
      var a := SkipSpaces(s, i + |key|);
      if a == |s| || s[a] != ':' then None
      else
        var b := SkipSpaces(s, a + 1);
        if b == |s| || s[b] != '"' then None
        else
          var e := NextQuote(s, b + 1);
          if e == |s| || e == b + 1 then None
          else Some(s[b + 1..e])
  }

  /** Group 1 of an anchored match of the pattern at index `i`, if the pattern matches there. */
  function MatchAt(s: string, i: nat): Option<string>
    requires i <= |s|
  {
    MatchKeyAt(Key, s, i)
  }

  /** The text a match consists of, given its whitespace runs `w1`, `w2` and its group `g`. */
  function PatternText(key: string, w1: string, w2: string, g: string): string {
    key + (w1 + ([':'] + (w2 + (['"'] + (g + ['"'])))))
  }

  /** What a match of the pattern opened by `key` at `i` is, stated independently of the scanner. */
  predicate PatternKeyWith(key: string, s: string, i: nat, w1: string, w2: string, g: string) {
    && AllSpace(w1) && AllSpace(w2)
    && g != [] && QuoteFree(g)
    && OccursAt(PatternText(key, w1, w2, g), s, i)
  }

  predicate PatternWith(s: string, i: nat, w1: string, w2: string, g: string) {
    PatternKeyWith(Key, s, i, w1, w2, g)
  }

  lemma SkipSpacesLandsOn(s: string, i: nat, j: nat)
    requires i <= j < |s|
    requires AllSpace(s[i..j]) && !IsSpace(s[j])
    ensures SkipSpaces(s, i) == j
    decreases j - i
  {
    if i < j {
      assert IsSpace(s[i..j][0]);
      assert s[i + 1..j] == s[i..j][1..];
      SkipSpacesLandsOn(s, i + 1, j);
    }
  }

  lemma NextQuoteLandsOn(s: string, i: nat, j: nat)
    requires i <= j < |s|
    requires QuoteFree(s[i..j]) && s[j] == '"'
    ensures NextQuote(s, i) == j
    decreases j - i
  {
    if i < j {
      assert s[i..j][0] != '"';
      assert s[i + 1..j] == s[i..j][1..];
      NextQuoteLandsOn(s, i + 1, j);
    }
  }

  /** `a + b` occurs at `i` exactly when `a` occurs at `i` and `b` right after it. */
  lemma OccursSplit(a: string, b: string, s: string, i: nat)
    ensures OccursAt(a + b, s, i) <==> OccursAt(a, s, i) && OccursAt(b, s, i + |a|)
  {
    if i + |a| + |b| <= |s| {
      assert s[i..i + |a| + |b|] == s[i..i + |a|] + s[i + |a|..i + |a| + |b|];
      if OccursAt(a + b, s, i) {
        assert s[i..i + |a|] == (a + b)[..|a|] == a;
        assert s[i + |a|..i + |a| + |b|] == (a + b)[|a|..] == b;
      }
    }
  }

  lemma OccursSelf(s: string, x: nat, y: nat)
    requires x <= y <= |s|
    ensures OccursAt(s[x..y], s, x)
  {
  }

  /** `w` at `i` followed by `t` makes an occurrence of `w + t`. */
  lemma OccursJoin(w: string, t: string, s: string, i: nat)
    requires OccursAt(w, s, i) && OccursAt(t, s, i + |w|)
    ensures OccursAt(w + t, s, i)
  {
    OccursSplit(w, t, s, i);
  }

  /** The character `c` at `i` followed by `t` makes an occurrence of `[c] + t`. */
  lemma OccursCons(c: char, t: string, s: string, i: nat)
    requires i < |s| && s[i] == c && OccursAt(t, s, i + 1)
    ensures OccursAt([c] + t, s, i)
  {
    assert s[i..i + 1] == [c];
    OccursJoin([c], t, s, i);
  }

  /** The pieces found at positions `i < a < b < e` make up one occurrence of the pattern text. */
  lemma AssemblePattern(key: string, s: string, i: nat, a: nat, b: nat, e: nat)
    requires OccursAt(key, s, i) && i + |key| <= a < b < e < |s|
    requires s[a] == ':' && s[b] == '"' && s[e] == '"'
    ensures OccursAt(PatternText(key, s[i + |key|..a], s[a + 1..b], s[b + 1..e]), s, i)
  {
    var w1 := s[i + |key|..a];
    var t4 := [':'] + (s[a + 1..b] + (['"'] + (s[b + 1..e] + ['"'])));
    AssembleValue(s, a, b, e);
    OccursSelf(s, i + |key|, a);
    OccursJoin(w1, t4, s, i + |key|);
    OccursJoin(key, w1 + t4, s, i);
  }

  /** The part `:w2"g"` of the pattern text, put together from the positions of its
      colon and quotes. */
  lemma AssembleValue(s: string, a: nat, b: nat, e: nat)
    requires a < b < e < |s| && s[a] == ':' && s[b] == '"' && s[e] == '"'
    ensures OccursAt([':'] + (s[a + 1..b] + (['"'] + (s[b + 1..e] + ['"']))), s, a)
  {
    var w2 := s[a + 1..b];
    var t2 := ['"'] + (s[b + 1..e] + ['"']);
    AssembleGroup(s, b, e);
    OccursSelf(s, a + 1, b);
    OccursJoin(w2, t2, s, a + 1);
    OccursCons(':', w2 + t2, s, a);
  }

  /** The closing part `"g"` of the pattern text, put together from its quotes at `b` and `e`. */
  lemma AssembleGroup(s: string, b: nat, e: nat)
    requires b < e < |s| && s[b] == '"' && s[e] == '"'
    ensures OccursAt(['"'] + (s[b + 1..e] + ['"']), s, b)
  {
    var g := s[b + 1..e];
    assert s[e..e + 1] == ['"'];
    OccursSelf(s, b + 1, e);
    OccursJoin(g, ['"'], s, b + 1);
    OccursCons('"', g + ['"'], s, b);
  }

  /** Every anchored match is an instance of the pattern. */
  lemma {:induction false} MatchKeyAtSound(key: string, s: string, i: nat)
    requires i <= |s| && MatchKeyAt(key, s, i).Some?
    ensures exists w1, w2 :: PatternKeyWith(key, s, i, w1, w2, MatchKeyAt(key, s, i).value)
  {
    var a := SkipSpaces(s, i + |key|);
    var b := SkipSpaces(s, a + 1);
    var e := NextQuote(s, b + 1);
    var w1, w2, g := s[i + |key|..a], s[a + 1..b], s[b + 1..e];
    assert OccursAt(key, s, i);
    assert a < |s| && s[a] == ':';
    assert b < |s| && s[b] == '"';
    assert e < |s| && s[e] == '"' && e > b + 1;
    assert MatchKeyAt(key, s, i) == Some(g);
    AssemblePattern(key, s, i, a, b, e);
    assert PatternKeyWith(key, s, i, w1, w2, g);
  }

  /** An occurrence of `w + t` is `w` followed by an occurrence of `t`. */
  lemma OccursPrefix(w: string, t: string, s: string, i: nat)
    requires OccursAt(w + t, s, i)
    ensures i + |w| <= |s| && s[i..i + |w|] == w && OccursAt(t, s, i + |w|)
  {
    OccursSplit(w, t, s, i);
  }

  /** An occurrence of `[c] + t` is the character `c` followed by an occurrence of `t`. */
  lemma OccursHead(c: char, t: string, s: string, i: nat)
    requires OccursAt([c] + t, s, i)
    ensures i < |s| && s[i] == c && OccursAt(t, s, i + 1)
  {
    OccursPrefix([c], t, s, i);
    assert s[i..i + 1][0] == s[i];
  }

  /** The closing part `"g"` of the pattern text, taken apart. */
  lemma DisassembleGroup(g: string, s: string, b: nat)
    requires OccursAt(['"'] + (g + ['"']), s, b)
    ensures b + 1 + |g| < |s| && s[b] == '"' && s[b + 1..b + 1 + |g|] == g && s[b + 1 + |g|] == '"'
  {
    OccursHead('"', g + ['"'], s, b);
    OccursPrefix(g, ['"'], s, b + 1);
    OccursHead('"', [], s, b + 1 + |g|);
  }

  /** The part `:w2"g"` of the pattern text, taken apart. */
  lemma DisassembleValue(w2: string, g: string, s: string, a: nat)
    requires OccursAt([':'] + (w2 + (['"'] + (g + ['"']))), s, a)
    ensures a + 1 + |w2| <= |s| && s[a] == ':' && s[a + 1..a + 1 + |w2|] == w2
    ensures OccursAt(['"'] + (g + ['"']), s, a + 1 + |w2|)
  {
    OccursHead(':', w2 + (['"'] + (g + ['"'])), s, a);
    OccursPrefix(w2, ['"'] + (g + ['"']), s, a + 1);
  }

  /** An occurrence of the pattern text, taken apart into its pieces' positions. */
  lemma DisassemblePattern(key: string, s: string, i: nat, w1: string, w2: string, g: string)
    requires OccursAt(PatternText(key, w1, w2, g), s, i)
    ensures OccursAt(key, s, i)
    ensures var a := i + |key| + |w1|; var b := a + 1 + |w2|; var e := b + 1 + |g|;
      && e < |s| && s[i + |key|..a] == w1 && s[a] == ':'
      && s[a + 1..b] == w2 && s[b] == '"' && s[b + 1..e] == g && s[e] == '"'
  {
    OccursPrefix(key, w1 + ([':'] + (w2 + (['"'] + (g + ['"'])))), s, i);
    DisassembleRest(w1, w2, g, s, i + |key|);
  }

  /** The text after the key, `w1:w2"g"`, taken apart. */
  lemma DisassembleRest(w1: string, w2: string, g: string, s: string, j: nat)
    requires OccursAt(w1 + ([':'] + (w2 + (['"'] + (g + ['"'])))), s, j)
    ensures var a := j + |w1|; var b := a + 1 + |w2|; var e := b + 1 + |g|;
      && e < |s| && s[j..a] == w1 && s[a] == ':'
      && s[a + 1..b] == w2 && s[b] == '"' && s[b + 1..e] == g && s[e] == '"'
  {
    OccursPrefix(w1, [':'] + (w2 + (['"'] + (g + ['"']))), s, j);
    DisassembleValue(w2, g, s, j + |w1|);
    DisassembleGroup(g, s, j + |w1| + 1 + |w2|);
  }

  /** Every instance of the pattern at `i` is found by the anchored match, with the same group. */
  lemma {:induction false} MatchKeyAtComplete(key: string, s: string, i: nat, w1: string, w2: string, g: string)
    requires PatternKeyWith(key, s, i, w1, w2, g)
    ensures MatchKeyAt(key, s, i) == Some(g)
  {
    var a := i + |key| + |w1|;
    var b := a + 1 + |w2|;
    var e := b + 1 + |g|;
    DisassemblePattern(key, s, i, w1, w2, g);
    SkipSpacesLandsOn(s, i + |key|, a);
    SkipSpacesLandsOn(s, a + 1, b);
    NextQuoteLandsOn(s, b + 1, e);
    MatchKeyAtFound(key, s, i, a, b, e);
  }

  /** The anchored match that lands on `:` at `a`, the opening quote at `b` and the
      closing quote at `e` yields the text between the quotes. */
  lemma MatchKeyAtFound(key: string, s: string, i: nat, a: nat, b: nat, e: nat)
    requires OccursAt(key, s, i)
    requires SkipSpaces(s, i + |key|) == a && a < |s| && s[a] == ':'
    requires SkipSpaces(s, a + 1) == b && b < |s| && s[b] == '"'
    requires NextQuote(s, b + 1) == e && e < |s| && e != b + 1
    ensures MatchKeyAt(key, s, i) == Some(s[b + 1..e])
  {
  }

  /** Leftmost match at or after `from`: the index where `re.search` finds it. */
  function SearchFrom(s: string, from: nat): (r: Option<nat>)
    requires from <= |s|
    ensures r.Some? ==> from <= r.value <= |s| && MatchAt(s, r.value).Some?
    ensures forall j :: from <= j <= |s| && (r.None? || j < r.value) ==> MatchAt(s, j).None?
    decreases |s| - from
  {
    if MatchAt(s, from).Some? then Some(from)
    else if from == |s| then None
    else SearchFrom(s, from + 1)
  }

  /** `re.search(pattern, raw)` followed by `match.group(1)`. */
  function Search(raw: string): Option<string> {
    match SearchFrom(raw, 0)
    case Some(i) => MatchAt(raw, i)
    case None => None
  }

  /** The search finds nothing exactly when the anchored scanner matches at no index,
      and what it finds is the scanner's group at some index. */
  lemma SearchAnchored(raw: string)
    ensures Search(raw).None? <==> forall j :: 0 <= j <= |raw| ==> MatchAt(raw, j).None?
    ensures Search(raw).Some? ==> exists i :: 0 <= i <= |raw| && MatchAt(raw, i) == Search(raw)
  {
  }

  /** A found group is non-empty and contains no quote. */
  lemma {:induction false} SearchGroupShape(raw: string)
    requires Search(raw).Some?
    ensures Search(raw).value != [] && QuoteFree(Search(raw).value)
  {
    var i := SearchFrom(raw, 0).value;
    MatchKeyAtSound(Key, raw, i);
  }

  /** `Search` finds the leftmost instance of the pattern. */
  lemma {:induction false} SearchLeftmost(raw: string, i: nat, w1: string, w2: string, g: string)
    requires PatternWith(raw, i, w1, w2, g)
    requires forall j, v1, v2, h :: 0 <= j < i ==> !PatternWith(raw, j, v1, v2, h)
    ensures Search(raw) == Some(g)
  {
    MatchKeyAtComplete(Key, raw, i, w1, w2, g);
    assert MatchAt(raw, i) == Some(g);
    match SearchFrom(raw, 0)
    case None =>
      assert false;
    case Some(j) =>
      if j < i {
        MatchKeyAtSound(Key, raw, j);
        var v1, v2 :| PatternKeyWith(Key, raw, j, v1, v2, MatchAt(raw, j).value);
        assert PatternWith(raw, j, v1, v2, MatchAt(raw, j).value);
        assert false;
      } else if j > i {
        assert false;
      }
  }

  /** `Search` finds nothing exactly when the pattern occurs nowhere. */
  lemma {:induction false} SearchNone(raw: string)
    requires forall j, v1, v2, h :: !PatternWith(raw, j, v1, v2, h)
    ensures Search(raw) == None
  {
    match SearchFrom(raw, 0)
    case None =>
    case Some(j) =>
      MatchKeyAtSound(Key, raw, j);
      var v1, v2 :| PatternKeyWith(Key, raw, j, v1, v2, MatchAt(raw, j).value);
      assert PatternWith(raw, j, v1, v2, MatchAt(raw, j).value);
      assert false;
  }

  /** Conversely, an instance of the pattern anywhere means `Search` finds something. */
  lemma {:induction false} SearchFindsSome(raw: string, i: nat, w1: string, w2: string, g: string)
    requires PatternWith(raw, i, w1, w2, g)
    ensures Search(raw).Some?
  {
    MatchKeyAtComplete(Key, raw, i, w1, w2, g);
    assert MatchAt(raw, i) == Some(g);
    if SearchFrom(raw, 0).None? {
      assert false;
    }
  }
}
