/** String primitives the Python code leans on: the Hebrew-block test,
    `str.split()` with no separator, `sep.join(parts)` and `needle in hay`. */
module Text {

  /** A character of the Unicode Hebrew block, U+0590 to U+05FF inclusive. */
  predicate IsHebrew(c: char) {
    '\U{0590}' <= c <= '\U{05FF}'
  }

  /** Whether any character of `t` lies in the Hebrew block, scanning left to right. */
  function ContainsHebrew(t: string): (r: bool)
    ensures r <==> exists i :: 0 <= i < |t| && IsHebrew(t[i])
  {
    if t == [] then false
    else if IsHebrew(t[0]) then true
    else
      var rest := ContainsHebrew(t[1..]);
      assert forall i :: 1 <= i < |t| ==> t[i] == t[1..][i - 1];
      rest
  }

  /** Hebrew text is found in a concatenation exactly when it is found in one of the parts. */
  lemma ContainsHebrewAppend(a: string, b: string)
    ensures ContainsHebrew(a + b) <==> ContainsHebrew(a) || ContainsHebrew(b)
  {
    if ContainsHebrew(a) {
      var i :| 0 <= i < |a| && IsHebrew(a[i]);
      assert (a + b)[i] == a[i];
    }
    if ContainsHebrew(b) {
      var i :| 0 <= i < |b| && IsHebrew(b[i]);
      assert (a + b)[|a| + i] == b[i];
    }
    if ContainsHebrew(a + b) {
      var i :| 0 <= i < |a + b| && IsHebrew((a + b)[i]);
      if i < |a| {
        assert a[i] == (a + b)[i];
      } else {
        assert b[i - |a|] == (a + b)[i];
      }
    }
  }

  /** Python's `str.isspace()` for one character: the ASCII controls
      tab to carriage return and 0x1C to 0x1F, space, NEL, no-break space
      and the Unicode space separators. */
  predicate IsSpace(c: char) {
    || ('\t' <= c <= '\r')
    || ('\U{1C}' <= c <= '\U{1F}')
    || c == ' '
    || c == '\U{85}'
    || c == '\U{A0}'
    || c == '\U{1680}'
    || ('\U{2000}' <= c <= '\U{200A}')
    || c == '\U{2028}'
    || c == '\U{2029}'
    || c == '\U{202F}'
    || c == '\U{205F}'
    || c == '\U{3000}'
  }

  /** True when no character of `w` is whitespace. */
  predicate NoSpace(w: string) {
    forall j :: 0 <= j < |w| ==> !IsSpace(w[j])
  }

  /** Index of the first whitespace character at or after `i`, or `|s|` if there is none. */
  function TokenEnd(s: string, i: nat): (k: nat)
    requires i <= |s|
    ensures i <= k <= |s|
    ensures forall j :: i <= j < k ==> !IsSpace(s[j])
    ensures k < |s| ==> IsSpace(s[k])
    decreases |s| - i
  {
    if i == |s| || IsSpace(s[i]) then i else TokenEnd(s, i + 1)
  }

  /** `s.split()`: the maximal runs of non-whitespace characters of `s`, in order. */
  function Split(s: string): seq<string>
    decreases |s|
  {
    if s == [] then []
    else if IsSpace(s[0]) then Split(s[1..])
    else
      var k := TokenEnd(s, 0);
      [s[..k]] + Split(s[k..])
  }

  /** `len(s.split())`, the word count the source uses as a token estimate. */
  function WordCount(s: string): nat {
    |Split(s)|
  }

  /** Independent count of the words of `s`: the positions holding a
      non-whitespace character whose predecessor is whitespace or absent.
      `afterSpace` tells whether the character before `s` (if any) was
      whitespace. */
  function WordStarts(s: string, afterSpace: bool): nat {
    if s == [] then 0
    else (if afterSpace && !IsSpace(s[0]) then 1 else 0) + WordStarts(s[1..], IsSpace(s[0]))
  }

  /** The characters of `s` that are not whitespace, in order. */
  function NonSpace(s: string): string {
    if s == [] then []
    else (if IsSpace(s[0]) then [] else [s[0]]) + NonSpace(s[1..])
  }

  /** Concatenation of a list of strings. */
  function Flatten(ws: seq<string>): string {
    if ws == [] then [] else ws[0] + Flatten(ws[1..])
  }

  lemma {:induction false} NonSpaceAppend(a: string, b: string)
    ensures NonSpace(a + b) == NonSpace(a) + NonSpace(b)
    decreases |a|
  {
    if a == [] {
      assert a + b == b;
    } else {
      assert (a + b)[1..] == a[1..] + b;
      NonSpaceAppend(a[1..], b);
    }
  }

  lemma {:induction false} NonSpaceOfWord(w: string)
    requires NoSpace(w)
    ensures NonSpace(w) == w
    decreases |w|
  {
    if w != [] {
      NonSpaceOfWord(w[1..]);
    }
  }

  /** Inside a word, the characters before its end start no new word. */
  lemma {:induction false} WordStartsInsideWord(s: string, i: nat, k: nat)
    requires 1 <= i <= k <= |s|
    requires forall j :: i - 1 <= j < k ==> !IsSpace(s[j])
    ensures WordStarts(s[i..], false) == WordStarts(s[k..], false)
    decreases k - i
  {
    if i < k {
      assert s[i..][1..] == s[i + 1..];
      WordStartsInsideWord(s, i + 1, k);
    }
  }

  /** Each word `s.split()` returns is non-empty and free of whitespace,
      and together the words hold exactly the non-whitespace characters of
      `s`, in order: splitting loses nothing but whitespace. */
  lemma {:induction false} SplitWords(s: string)
    ensures forall w :: w in Split(s) ==> |w| > 0 && NoSpace(w)
    ensures Flatten(Split(s)) == NonSpace(s)
    decreases |s|
  {
    if s == [] {
    } else if IsSpace(s[0]) {
      SplitWords(s[1..]);
    } else {
      var k := TokenEnd(s, 0);
      SplitWords(s[k..]);
      assert s == s[..k] + s[k..];
      NonSpaceAppend(s[..k], s[k..]);
      NonSpaceOfWord(s[..k]);
      assert Split(s)[1..] == Split(s[k..]);
    }
  }

  /** The number of words `s.split()` returns is the number of word starts
      of `s`: the source's token estimate counts whitespace-separated runs. */
  lemma {:induction false} SplitCountsWordStarts(s: string)
    ensures WordCount(s) == WordStarts(s, true)
    decreases |s|
  {
    if s == [] {
    } else if IsSpace(s[0]) {
      SplitCountsWordStarts(s[1..]);
    } else {
      var k := TokenEnd(s, 0);
      SplitCountsWordStarts(s[k..]);
      WordStartsInsideWord(s, 1, k);
      if k < |s| {
        assert s[k..][1..] == s[k + 1..];
      }
    }
  }

  /** `sep.join(parts)`. */
  function Join(parts: seq<string>, sep: string): string {
    if |parts| == 0 then ""
    else if |parts| == 1 then parts[0]
    else parts[0] + sep + Join(parts[1..], sep)
  }

  /** Joining two lists joins their joins, with one separator between
      them when both are non-empty. */
  lemma {:induction false} JoinAppend(a: seq<string>, b: seq<string>, sep: string)
    ensures Join(a + b, sep) ==
      if a == [] then Join(b, sep)
      else if b == [] then Join(a, sep)
      else Join(a, sep) + sep + Join(b, sep)
    decreases |a|
  {
    if a == [] {
      assert a + b == b;
    } else if b == [] {
      assert a + b == a;
    } else if |a| == 1 {
      assert (a + b)[1..] == b;
    } else {
      assert (a + b)[1..] == a[1..] + b;
      JoinAppend(a[1..], b, sep);
    }
  }

  /** `needle` occurs in `hay` starting at index `i`. */
  predicate OccursAt(hay: string, needle: string, i: int) {
    0 <= i && i + |needle| <= |hay| && hay[i..i + |needle|] == needle
  }

  /** `needle in hay` for Python strings: trying each start position from the left. */
  function Contains(hay: string, needle: string): (r: bool)
    ensures r <==> exists i :: OccursAt(hay, needle, i)
    decreases |hay|
  {
    if needle <= hay then
      assert OccursAt(hay, needle, 0);
      true
    else if hay == [] then false
    else
      var rest := Contains(hay[1..], needle);
      OccursLater(hay, needle);
      rest
  }

  /** Occurring at `i` in the tail is occurring at `i + 1` in the whole. */
  lemma OccursShift(hay: string, needle: string, i: int)
    requires hay != [] && 0 <= i
    ensures OccursAt(hay[1..], needle, i) <==> OccursAt(hay, needle, i + 1)
  {
    if 0 <= i && i + |needle| <= |hay[1..]| {
      assert hay[1..][i..i + |needle|] == hay[i + 1..i + 1 + |needle|];
    }
  }

  /** When `needle` does not start `hay`, it occurs in `hay` exactly when it occurs in the tail. */
  lemma OccursLater(hay: string, needle: string)
    requires hay != [] && !(needle <= hay)
    ensures (exists i :: OccursAt(hay, needle, i)) <==> (exists i :: OccursAt(hay[1..], needle, i))
  {
    assert !OccursAt(hay, needle, 0);
    if i :| OccursAt(hay, needle, i) {
      OccursShift(hay, needle, i - 1);
    }
    if i :| OccursAt(hay[1..], needle, i) && 0 <= i {
      OccursShift(hay, needle, i);
    }
  }
}
