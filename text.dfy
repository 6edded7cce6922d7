/** The three Python string built-ins the bot relies on, as functions on
    `seq<char>`: `str.lower()`, the substring test `k in s`, and `str.strip()`. */
module Text {

  /** One character of `str.lower()`: ASCII A-Z and the Cyrillic capitals
      U+0400-U+042F, the letters of the bot's two languages. */
  function LowerChar(c: char): (l: char)
  {
    if 'A' <= c <= 'Z' then (c as int + 32) as char
    else if '\U{0410}' <= c <= '\U{042F}' then (c as int + 32) as char
    else if '\U{0400}' <= c <= '\U{040F}' then (c as int + 80) as char
    else c
  }

  predicate IsUpper(c: char)
  {
    'A' <= c <= 'Z' || '\U{0400}' <= c <= '\U{042F}'
  }

  /** `s.lower()` */
  function Lower(s: string): (r: string)
    ensures |r| == |s|
    ensures forall i :: 0 <= i < |s| ==> r[i] == LowerChar(s[i])
  {
    seq(|s|, i requires 0 <= i < |s| => LowerChar(s[i]))
  }

  /** Lower-casing leaves no A-Z and no U+0400-U+042F capital behind. */
  lemma LowerHasNoUpper(s: string)
    ensures forall i :: 0 <= i < |s| ==> !IsUpper(Lower(s)[i])
  {
  }

  /** Lower-casing twice is lower-casing once. */
  lemma LowerIdempotent(s: string)
    ensures Lower(Lower(s)) == Lower(s)
  {
    assert forall i :: 0 <= i < |s| ==> LowerChar(LowerChar(s[i])) == LowerChar(s[i]);
  }

  /** Lower-casing distributes over concatenation. */
  lemma LowerAppend(a: string, b: string)
    ensures Lower(a + b) == Lower(a) + Lower(b)
  {
  }

  /** Python's `k in s` for strings: `k` occurs in `s` at some offset; the
      empty string occurs in every string. */
  predicate Contains(s: string, k: string): (b: bool)
    ensures b ==> |k| <= |s|
  {
    exists i :: 0 <= i <= |s| - |k| && OccursAt(s, k, i)
  }

  /** An occurrence of `k` in `s` at offset `i`. */
  predicate OccursAt(s: string, k: string, i: int)
  {
    0 <= i && i + |k| <= |s| && s[i..i + |k|] == k
  }

  /** A string contains itself wherever it is embedded. */
  lemma ContainsInfix(a: string, k: string, b: string)
    ensures Contains(a + k + b, k)
  {
    var s := a + k + b;
    assert s[|a|..|a| + |k|] == k;
    assert OccursAt(s, k, |a|);
  }

  /** A string that lacks one of the characters of `k` does not contain `k`. */
  lemma MissingCharExcludes(s: string, k: string, c: char)
    requires c in k && c !in s
    ensures !Contains(s, k)
  {
  }

  /** Containment is transitive: whatever contains `k` contains every
      substring of `k`. */
  lemma ContainsTransitive(s: string, k: string, j: string)
    requires Contains(s, k) && Contains(k, j)
    ensures Contains(s, j)
  {
    var a: int :| OccursAt(s, k, a);
    var b: int :| OccursAt(k, j, b);
    assert OccursAt(s, k, a) && OccursAt(k, j, b);
    forall t | 0 <= t < |j| ensures s[a + b + t] == j[t] {
      assert j[t] == k[b + t] == s[a + b + t];
    }
    assert s[a + b..a + b + |j|] == j;
    assert OccursAt(s, j, a + b);
  }

  /** Python's `str.isspace()` for one character (the 29 code points of
      Python's Unicode whitespace table). */
  predicate IsSpace(c: char)
  {
    || '\t' <= c <= '\r'
    || '\U{1C}' <= c <= ' '
    || c == '\U{85}' || c == '\U{A0}' || c == '\U{1680}'
    || '\U{2000}' <= c <= '\U{200A}'
    || c == '\U{2028}' || c == '\U{2029}' || c == '\U{202F}' || c == '\U{205F}'
    || c == '\U{3000}'
  }

  /** The leading-whitespace half of `str.strip()`: a suffix of `s`, all it
      drops is whitespace, and it starts with a non-space (or is empty). */
  function TrimStart(s: string): (r: string)
    ensures |r| <= |s| && r == s[|s| - |r|..]
    ensures forall k :: 0 <= k < |s| - |r| ==> IsSpace(s[k])
    ensures r == [] || !IsSpace(r[0])
  {
    if s != [] && IsSpace(s[0]) then TrimStart(s[1..]) else s
  }

  /** The trailing-whitespace half of `str.strip()`: a prefix of `s`, all it
      drops is whitespace, and it ends with a non-space (or is empty). */
  function TrimEnd(s: string): (r: string)
    ensures |r| <= |s| && r == s[..|r|]
    ensures forall k :: |r| <= k < |s| ==> IsSpace(s[k])
    ensures r == [] || !IsSpace(r[|r| - 1])
  {
    if s != [] && IsSpace(s[|s| - 1]) then TrimEnd(s[..|s| - 1]) else s
  }

  /** `s.strip()` with no argument. */
  function Strip(s: string): (r: string)
    ensures |r| <= |s|
    ensures r == [] || (!IsSpace(r[0]) && !IsSpace(r[|r| - 1]))
    ensures s == [] || (!IsSpace(s[0]) && !IsSpace(s[|s| - 1])) ==> r == s
    ensures (forall k :: 0 <= k < |s| ==> IsSpace(s[k])) ==> r == []
  {
    TrimEnd(TrimStart(s))
  }

  /** `Strip` keeps a contiguous slice `s[i..i + |r|]` of `s`, drops only
      whitespace on both sides of it, and neither starts nor ends with
      whitespace. The offset `i` is returned. */
  lemma StripSlice(s: string) returns (i: nat)
    ensures i + |Strip(s)| <= |s| && Strip(s) == s[i..i + |Strip(s)|]
    ensures forall k :: 0 <= k < i ==> IsSpace(s[k])
    ensures forall k :: i + |Strip(s)| <= k < |s| ==> IsSpace(s[k])
    ensures Strip(s) == [] || (!IsSpace(Strip(s)[0]) && !IsSpace(Strip(s)[|Strip(s)| - 1]))
  {
    var t := TrimStart(s);
    i := |s| - |t|;
    PrefixOfSuffix(s, i, t, TrimEnd(t));
  }

  /** A prefix `r` of the suffix `s[i..]` is the slice `s[i..i + |r|]`, and
      what `r` leaves of that suffix is what follows the slice in `s`. */
  lemma PrefixOfSuffix(s: string, i: nat, t: string, r: string)
    requires i <= |s| && t == s[i..] && |r| <= |t| && r == t[..|r|]
    requires forall k :: |r| <= k < |t| ==> IsSpace(t[k])
    ensures i + |r| <= |s| && r == s[i..i + |r|]
    ensures forall k :: i + |r| <= k < |s| ==> IsSpace(s[k])
  {
    forall k | i + |r| <= k < |s| ensures IsSpace(s[k]) {
      assert s[k] == t[k - i];
    }
  }

  /** Stripping twice is stripping once. */
  lemma StripIdempotent(s: string)
    ensures Strip(Strip(s)) == Strip(s)
  {
    var r := Strip(s);
    if r != [] {
      assert !IsSpace(r[0]) && !IsSpace(r[|r| - 1]);
    }
  }
}
