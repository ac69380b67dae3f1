/**
 * The few ECMAScript string operations the bot relies on:
 * `trim`, `startsWith`, `endsWith` and `replace` with a string pattern.
 * Strings are sequences of characters; every literal the bot matches
 * lies in the Basic Multilingual Plane, so code units and characters agree.
 */
module JsString {
  import opened Wrappers

  /** The WhiteSpace and LineTerminator code points of ECMAScript:
      exactly the characters `String.prototype.trim` strips. */
  predicate IsWhitespace(c: char) {
    || c == '\U{0009}' || c == '\U{000A}' || c == '\U{000B}' || c == '\U{000C}'
    || c == '\U{000D}' || c == '\U{0020}' || c == '\U{00A0}' || c == '\U{1680}'
    || ('\U{2000}' <= c <= '\U{200A}')
    || c == '\U{2028}' || c == '\U{2029}' || c == '\U{202F}' || c == '\U{205F}'
    || c == '\U{3000}' || c == '\U{FEFF}'
  }

  predicate AllWhitespace(s: string) {
    forall k :: 0 <= k < |s| ==> IsWhitespace(s[k])
  }

  /** Neither end of `s` is whitespace. */
  predicate IsTrimmed(s: string) {
    s == [] || (!IsWhitespace(s[0]) && !IsWhitespace(s[|s| - 1]))
  }

  /** `r` is what remains of `s` once the whitespace run in front of index `i`
      and the whitespace run after `r` are removed, and `r` has no whitespace
      left at either end. */
  predicate TrimOf(s: string, r: string, i: int) {
    && 0 <= i && i + |r| <= |s|
    && s[i..i + |r|] == r
    && WhitespaceBetween(s, 0, i)
    && WhitespaceBetween(s, i + |r|, |s|)
    && IsTrimmed(r)
  }

  /** Every character of `s` from index `lo` up to (excluding) `hi` is whitespace. */
  predicate WhitespaceBetween(s: string, lo: int, hi: int)
    requires 0 <= lo <= hi <= |s|
  {
    forall k :: lo <= k < hi ==> IsWhitespace(s[k])
  }

  /** `String.prototype.trimStart`. */
  function TrimStart(s: string): (r: string)
    ensures |r| <= |s| && r == s[|s| - |r|..]
    ensures WhitespaceBetween(s, 0, |s| - |r|)
    ensures r == [] || !IsWhitespace(r[0])
  {
    if s != [] && IsWhitespace(s[0]) then
      TrimStart(s[1..])
    else
      s
  }

  /** `String.prototype.trimEnd`. */
  function TrimEnd(s: string): (r: string)
    ensures |r| <= |s| && r == s[..|r|]
    ensures WhitespaceBetween(s, |r|, |s|)
    ensures r == [] || !IsWhitespace(r[|r| - 1])
  {
    if s != [] && IsWhitespace(s[|s| - 1]) then
      TrimEnd(s[..|s| - 1])
    else
      s
  }

  /** `String.prototype.trim`: strips whitespace from both ends. */
  function Trim(s: string): (r: string)
    ensures IsTrimmed(r)
    ensures exists i :: TrimOf(s, r, i)
  {
    TrimStartThenEnd(s, TrimStart(s), TrimEnd(TrimStart(s)));
    TrimEnd(TrimStart(s))
  }

  /** Cutting a whitespace run off the front of `s` and then one off the back
      of what remains yields a trimming of `s`. */
  lemma TrimStartThenEnd(s: string, t: string, r: string)
    requires |t| <= |s| && t == s[|s| - |t|..]
    requires WhitespaceBetween(s, 0, |s| - |t|)
    requires t == [] || !IsWhitespace(t[0])
    requires |r| <= |t| && r == t[..|r|]
    requires WhitespaceBetween(t, |r|, |t|)
    requires r == [] || !IsWhitespace(r[|r| - 1])
    ensures TrimOf(s, r, |s| - |t|)
  {
    var i := |s| - |t|;
    PrefixOfSuffix(s, t, r);
    assert WhitespaceBetween(s, i + |r|, |s|) by {
      forall k | i + |r| <= k < |s|
        ensures IsWhitespace(s[k])
      {
        assert s[k] == t[k - i];
      }
    }
    assert IsTrimmed(r) by {
      if r != [] {
        assert r[0] == t[0];
      }
    }
  }

  /** A prefix `r` of a suffix `t` of `s` is the slice of `s` where `t` starts. */
  lemma PrefixOfSuffix(s: string, t: string, r: string)
    requires |t| <= |s| && t == s[|s| - |t|..]
    requires |r| <= |t| && r == t[..|r|]
    ensures s[|s| - |t|..|s| - |t| + |r|] == r
  {
  }

  /** At most one string is a trimming of `s`. */
  lemma TrimOfUnique(s: string, r1: string, i1: int, r2: string, i2: int)
    requires TrimOf(s, r1, i1) && TrimOf(s, r2, i2)
    ensures r1 == r2
  {
    assert r1 != [] ==> s[i1] == r1[0] && s[i1 + |r1| - 1] == r1[|r1| - 1];
    assert r2 != [] ==> s[i2] == r2[0] && s[i2 + |r2| - 1] == r2[|r2| - 1];
    assert r1 != [] <==> r2 != [];
    assert r1 != [] ==> i1 == i2 && i1 + |r1| == i2 + |r2|;
  }

  /** `Trim` is exactly the unique trimming: both directions. */
  lemma TrimCharacterization(s: string, r: string)
    ensures r == Trim(s) <==> exists i :: TrimOf(s, r, i)
  {
    var t := Trim(s);
    var it :| TrimOf(s, t, it);
    if i :| TrimOf(s, r, i) {
      TrimOfUnique(s, r, i, t, it);
    }
  }

  /** Whitespace around an already trimmed string is all `trim` removes. */
  lemma TrimSurrounded(lead: string, t: string, trail: string)
    requires AllWhitespace(lead) && AllWhitespace(trail) && IsTrimmed(t)
    ensures Trim(lead + t + trail) == t
  {
    var s := lead + t + trail;
    assert s[..|lead|] == lead;
    assert s[|lead|..|lead| + |t|] == t;
    assert s[|lead| + |t|..] == trail;
    assert TrimOf(s, t, |lead|);
    TrimCharacterization(s, t);
  }

  /** A trimmed string is its own trimming. */
  lemma TrimFixesTrimmed(t: string)
    requires IsTrimmed(t)
    ensures Trim(t) == t
  {
    TrimSurrounded([], t, []);
    assert [] + t + [] == t;
  }

  /** Trimming twice is trimming once. */
  lemma TrimIdempotent(s: string)
    ensures Trim(Trim(s)) == Trim(s)
  {
    TrimFixesTrimmed(Trim(s));
  }

  /** `String.prototype.startsWith` at position 0. */
  predicate StartsWith(s: string, prefix: string) {
    |prefix| <= |s| && s[..|prefix|] == prefix
  }

  /** `String.prototype.endsWith` at the end of the string. */
  predicate EndsWith(s: string, suffix: string) {
    |suffix| <= |s| && s[|s| - |suffix|..] == suffix
  }

  /** `pat` occurs in `s` starting at index `k`. */
  predicate OccursAt(s: string, pat: string, k: int) {
    0 <= k && k + |pat| <= |s| && s[k..k + |pat|] == pat
  }

  /** The search loop of `String.prototype.indexOf`, from index `from` on. */
  function IndexFrom(s: string, pat: string, from: nat): (r: Option<nat>)
    requires from <= |s|
    ensures r.Some? ==> from <= r.value && OccursAt(s, pat, r.value)
    ensures r.Some? ==> forall k :: from <= k < r.value ==> !OccursAt(s, pat, k)
    ensures r.None? ==> forall k :: from <= k ==> !OccursAt(s, pat, k)
    decreases |s| - from
  {
    if from + |pat| > |s| then None
    else if s[from..from + |pat|] == pat then Some(from)
    else IndexFrom(s, pat, from + 1)
  }

  /** `String.prototype.indexOf`: the first occurrence of `pat` in `s`. */
  function IndexOf(s: string, pat: string): (r: Option<nat>)
    ensures r.Some? ==> OccursAt(s, pat, r.value)
    ensures r.Some? ==> forall k :: 0 <= k < r.value ==> !OccursAt(s, pat, k)
    ensures r.None? <==> forall k :: !OccursAt(s, pat, k)
  {
    IndexFrom(s, pat, 0)
  }

  /** `String.prototype.replace` with a string pattern: only the first
      occurrence is replaced, and an absent pattern leaves `s` as it is. */
  function ReplaceFirst(s: string, pat: string, rep: string): (r: string)
    ensures (forall k :: 0 <= k <= |s| ==> !OccursAt(s, pat, k)) ==> r == s
    ensures forall i :: 0 <= i <= |s| && OccursAt(s, pat, i) && (forall k :: 0 <= k < i ==> !OccursAt(s, pat, k)) ==>
      r == s[..i] + rep + s[i + |pat|..]
  {
    match IndexOf(s, pat)
    case None => s
    case Some(i) => s[..i] + rep + s[i + |pat|..]
  }

  /** When `s` starts with `pat`, its first occurrence is the leading one, so
      `replace` swaps exactly the prefix. */
  lemma ReplaceLeadingOccurrence(s: string, pat: string, rep: string)
    requires StartsWith(s, pat)
    ensures ReplaceFirst(s, pat, rep) == rep + s[|pat|..]
  {
    assert OccursAt(s, pat, 0);
    assert s[..0] + rep + s[0 + |pat|..] == rep + s[|pat|..];
  }

  /** JavaScript truthiness of a possibly absent string. */
  predicate Truthy(o: Option<string>) {
    o.Some? && o.value != []
  }
}
