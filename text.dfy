/**
 * String helpers with the meaning the JavaScript runtime gives them:
 * `toLowerCase` (restricted to ASCII letters), `includes`, `startsWith`,
 * `trim`, truthiness of a string, and `filter(Boolean).join(sep)`.
 */
module Text {
  import opened Wrappers

  /** ASCII lower-casing of one character; every other character is left alone. */
  function LowerChar(c: char): char {
    if 'A' <= c <= 'Z' then (c as int + 32) as char else c
  }

  /** `s.toLowerCase()` for ASCII text. */
  function Lower(s: string): (r: string)
    ensures |r| == |s|
    ensures forall i :: 0 <= i < |s| ==> r[i] == LowerChar(s[i])
  {
    seq(|s|, i requires 0 <= i < |s| => LowerChar(s[i]))
  }

  /** Lowering twice is lowering once. */
  lemma LowerIdempotent(s: string)
    ensures Lower(Lower(s)) == Lower(s)
  {
  }

  /** Lowering distributes over concatenation. */
  lemma LowerAppend(a: string, b: string)
    ensures Lower(a + b) == Lower(a) + Lower(b)
  {
    assert forall i :: 0 <= i < |a + b| ==> Lower(a + b)[i] == (Lower(a) + Lower(b))[i];
  }

  /** `s.startsWith(p)`. */
  predicate StartsWith(s: string, p: string) {
    |p| <= |s| && s[..|p|] == p
  }

  /** `s.includes(t)`: a search that tries every start position from left to right. */
  predicate Includes(s: string, t: string)
    decreases |s|
  {
    StartsWith(s, t) || (|s| > 0 && Includes(s[1..], t))
  }

  /** `t` occurs in `s` starting at position `i`. */
  predicate OccursAt(s: string, t: string, i: int) {
    0 <= i <= |s| - |t| && s[i..i + |t|] == t
  }

  /** `includes` holds exactly when `t` occurs in `s` at some position. */
  lemma {:induction false} IncludesIff(s: string, t: string)
    ensures Includes(s, t) <==> exists i :: OccursAt(s, t, i)
  {
    if StartsWith(s, t) {
      assert OccursAt(s, t, 0);
    } else if |s| > 0 {
      IncludesIff(s[1..], t);
      if Includes(s[1..], t) {
        var j :| OccursAt(s[1..], t, j);
        assert s[j + 1..j + 1 + |t|] == t;
        assert OccursAt(s, t, j + 1);
      }
      if exists i :: OccursAt(s, t, i) {
        var i :| OccursAt(s, t, i);
        assert i != 0;
        assert s[1..][i - 1..i - 1 + |t|] == t;
        assert OccursAt(s[1..], t, i - 1);
      }
    }
  }

  /** The empty string is included in every string (an empty search term matches everything). */
  lemma IncludesEmpty(s: string)
    ensures Includes(s, "")
  {
  }

  /** A string is always included in itself and in any string it starts. */
  lemma IncludesPrefix(s: string, t: string)
    requires StartsWith(s, t)
    ensures Includes(s, t)
  {
  }

  /** The whitespace that `String.prototype.trim` removes, for the characters it is likely to meet. */
  predicate IsSpace(c: char) {
    c == ' ' || c == '\t' || c == '\n' || c == '\r' || c == '\U{000B}' || c == '\U{000C}'
    || c == '\U{00A0}' || c == '\U{FEFF}'
  }

  predicate AllSpace(s: string) {
    forall i :: 0 <= i < |s| ==> IsSpace(s[i])
  }

  /** Every character of `s` at an index in [lo, hi) is whitespace. */
  predicate SpaceBetween(s: string, lo: int, hi: int)
    requires 0 <= lo && hi <= |s|
  {
    forall i :: lo <= i < hi ==> IsSpace(s[i])
  }

  /** Drops leading whitespace: the result is a suffix of `s` that is empty or starts with a non-space. */
  function TrimStart(s: string): (r: string)
    ensures |r| <= |s| && r == s[|s| - |r|..]
    ensures SpaceBetween(s, 0, |s| - |r|)
    ensures r == [] || !IsSpace(r[0])
    ensures r == [] <==> AllSpace(s)
  {
    if s != [] && IsSpace(s[0]) then TrimStart(s[1..]) else s
  }

  /** Drops trailing whitespace: the result is a prefix of `s` that is empty or ends with a non-space. */
  function TrimEnd(s: string): (r: string)
    ensures |r| <= |s| && r == s[..|r|]
    ensures SpaceBetween(s, |r|, |s|)
    ensures r == [] || !IsSpace(r[|r| - 1])
    ensures r == [] <==> AllSpace(s)
  {
    if s != [] && IsSpace(s[|s| - 1]) then TrimEnd(s[..|s| - 1]) else s
  }

  /**
   * `r` is `s` with its outer whitespace removed: the slice `s[a..a + |r|]` for some `a`, with
   * only whitespace on either side of it, which itself neither starts nor ends with whitespace.
   */
  ghost predicate TrimmedFrom(r: string, s: string) {
    && (r != [] ==> !IsSpace(r[0]) && !IsSpace(r[|r| - 1]))
    && exists a :: TrimmedAt(r, s, a)
  }

  /** `r` sits in `s` at offset `a` with only whitespace before and after it. */
  ghost predicate TrimmedAt(r: string, s: string, a: int) {
    0 <= a <= |s| - |r| && r == s[a..a + |r|] && SpaceBetween(s, 0, a) && SpaceBetween(s, a + |r|, |s|)
  }

  /** At most one string is `s` with its outer whitespace removed. */
  lemma TrimmedUnique(r1: string, r2: string, s: string)
    requires TrimmedFrom(r1, s) && TrimmedFrom(r2, s)
    ensures r1 == r2
  {
    var a1 :| TrimmedAt(r1, s, a1);
    var a2 :| TrimmedAt(r2, s, a2);
    if r1 != [] {
      assert s[a1] == r1[0] && s[a1 + |r1| - 1] == r1[|r1| - 1];
    }
    if r2 != [] {
      assert s[a2] == r2[0] && s[a2 + |r2| - 1] == r2[|r2| - 1];
    }
  }

  /** `s.trim()`: `s` without its outer whitespace, hence empty exactly when `s` is all whitespace. */
  function Trim(s: string): (r: string)
    ensures TrimmedFrom(r, s)
    ensures r == [] <==> AllSpace(s)
    ensures r != [] ==> !IsSpace(r[0]) && !IsSpace(r[|r| - 1])
  {
    var t := TrimStart(s);
    var r := TrimEnd(t);
    TrimBothEnds(s, t, r);
    r
  }

  /** A prefix `r` of a suffix `t` of `s`, with whitespace only in front of `t` and after `r`, is trimmed from `s`. */
  lemma TrimBothEnds(s: string, t: string, r: string)
    requires |t| <= |s| && t == s[|s| - |t|..] && SpaceBetween(s, 0, |s| - |t|)
    requires |r| <= |t| && r == t[..|r|] && SpaceBetween(t, |r|, |t|)
    ensures TrimmedAt(r, s, |s| - |t|)
  {
    var k := |s| - |t|;
    assert r == s[k..k + |r|];
    forall i | k + |r| <= i < |s|
      ensures IsSpace(s[i])
    {
      assert s[i] == t[i - k];
    }
  }

  /** Trimming a string with no whitespace at either end leaves it as it is. */
  lemma TrimUnchanged(s: string)
    requires s == [] || (!IsSpace(s[0]) && !IsSpace(s[|s| - 1]))
    ensures Trim(s) == s
  {
  }

  /** JavaScript truthiness of a string: only the empty string is falsy. */
  predicate Truthy(s: string) {
    s != ""
  }

  /** JavaScript truthiness of a possibly missing string. */
  predicate TruthyOpt(o: Option<string>) {
    o.Some? && o.value != ""
  }

  /** `o || fallback` for a possibly missing string. */
  function OrElse(o: Option<string>, fallback: string): (r: string)
    ensures TruthyOpt(o) ==> r == o.value
    ensures !TruthyOpt(o) ==> r == fallback
  {
    if TruthyOpt(o) then o.value else fallback
  }

  /** How a template literal renders a string that may be `null`. */
  function ShowNullable(o: Option<string>): string {
    match o
    case Some(s) => s
    case None => "null"
  }

  /** `parts.join(sep)`. */
  function Join(parts: seq<string>, sep: string): string
    decreases |parts|
  {
    if |parts| == 0 then ""
    else if |parts| == 1 then parts[0]
    else parts[0] + sep + Join(parts[1..], sep)
  }

  /** `parts.filter(Boolean)`: the non-empty strings, in order. */
  function NonEmpty(parts: seq<Option<string>>): (r: seq<string>)
    ensures |r| <= |parts|
    ensures forall i :: 0 <= i < |r| ==> r[i] != ""
    ensures r == [] <==> forall i :: 0 <= i < |parts| ==> !TruthyOpt(parts[i])
  {
    if parts == [] then []
    else (if TruthyOpt(parts[0]) then [parts[0].value] else []) + NonEmpty(parts[1..])
  }

  /** A single part is kept, with its value, exactly when it is truthy. */
  lemma NonEmptyOne(p: Option<string>)
    ensures NonEmpty([p]) == if TruthyOpt(p) then [p.value] else []
  {
    assert [p][1..] == [];
  }

  /** Filtering distributes over concatenation, so the kept values come in the order of their parts. */
  lemma {:induction false} NonEmptyAppend(a: seq<Option<string>>, b: seq<Option<string>>)
    ensures NonEmpty(a + b) == NonEmpty(a) + NonEmpty(b)
  {
    if a == [] {
      assert a + b == b;
    } else {
      assert (a + b)[0] == a[0] && (a + b)[1..] == a[1..] + b;
      NonEmptyAppend(a[1..], b);
    }
  }

  /** `parts.filter(Boolean).join(sep)`. */
  function JoinPresent(parts: seq<Option<string>>, sep: string): string {
    Join(NonEmpty(parts), sep)
  }

  /** A join of non-empty strings is empty exactly when there is nothing to join. */
  lemma {:induction false} JoinEmptyIff(parts: seq<string>, sep: string)
    requires forall i :: 0 <= i < |parts| ==> parts[i] != ""
    ensures Join(parts, sep) == "" <==> parts == []
  {
    if |parts| > 1 {
      assert |parts[0] + sep + Join(parts[1..], sep)| >= |parts[0]|;
    }
  }

  /** `filter(Boolean).join(sep)` is empty exactly when every part is missing or empty. */
  lemma JoinPresentEmptyIff(parts: seq<Option<string>>, sep: string)
    ensures JoinPresent(parts, sep) == "" <==> forall i :: 0 <= i < |parts| ==> !TruthyOpt(parts[i])
  {
    JoinEmptyIff(NonEmpty(parts), sep);
  }

  /** Joining one part gives that part; joining two puts exactly one separator between them. */
  lemma JoinSmall(a: string, b: string, sep: string)
    ensures Join([a], sep) == a
    ensures Join([a, b], sep) == a + sep + b
  {
    assert [a, b][1..] == [b];
  }

  /** `[a, b].filter(Boolean).join(sep)`: both with one separator, one alone, or nothing. */
  lemma JoinPresentTwo(a: Option<string>, b: Option<string>, sep: string)
    ensures TruthyOpt(a) && TruthyOpt(b) ==> JoinPresent([a, b], sep) == a.value + sep + b.value
    ensures TruthyOpt(a) && !TruthyOpt(b) ==> JoinPresent([a, b], sep) == a.value
    ensures !TruthyOpt(a) && TruthyOpt(b) ==> JoinPresent([a, b], sep) == b.value
    ensures !TruthyOpt(a) && !TruthyOpt(b) ==> JoinPresent([a, b], sep) == ""
  {
    assert [a, b][1..] == [b];
    assert [b][1..] == [];
    var nb := if TruthyOpt(b) then [b.value] else [];
    assert NonEmpty([b]) == nb + NonEmpty([]);
    assert NonEmpty([a, b]) == (if TruthyOpt(a) then [a.value] else []) + nb;
    if TruthyOpt(a) && TruthyOpt(b) {
      JoinSmall(a.value, b.value, sep);
    }
  }
}
