/**
 * The parts of Python's `str` that the bot relies on: `isspace`/`strip`,
 * `in`, `startswith`, `find`/`rfind`, `replace`, `lower`, `join`, slicing
 * into fixed-size pieces, and `str(int)`.  Strings are sequences of Unicode
 * scalar values, as Python's are sequences of code points.
 */
module Text {
  import opened Wrappers

  /** Python's `str.isspace` for a single character. */
  predicate IsSpace(c: char) {
    || ('\U{9}' <= c <= '\U{D}')
    || ('\U{1C}' <= c <= ' ')
    || c == '\U{85}' || c == '\U{A0}' || c == '\U{1680}'
    || ('\U{2000}' <= c <= '\U{200A}')
    || c == '\U{2028}' || c == '\U{2029}' || c == '\U{202F}' || c == '\U{205F}' || c == '\U{3000}'
  }

  /** True when `s.strip()` is empty, i.e. `not s.strip()` in Python. */
  predicate IsBlank(s: string) {
    forall i :: 0 <= i < |s| ==> IsSpace(s[i])
  }

  /** Text put before a non-blank text leaves it non-blank and can be cut off again. */
  lemma PrefixedText(a: string, b: string)
    requires !IsBlank(b)
    ensures !IsBlank(a + b) && a <= a + b && (a + b)[|a|..] == b
  {
    var k :| 0 <= k < |b| && !IsSpace(b[k]);
    assert (a + b)[|a| + k] == b[k];
  }

  /** `s.lstrip()`: the suffix of `s` left after dropping leading whitespace. */
  function LStrip(s: string): (r: string)
    ensures |r| <= |s| && r == s[|s| - |r|..]
    ensures r == [] || !IsSpace(r[0])
    ensures forall i :: 0 <= i < |s| - |r| ==> IsSpace(s[i])
    decreases |s|
  {
    if s != [] && IsSpace(s[0]) then LStrip(s[1..]) else s
  }

  /** `s.rstrip()`: the prefix of `s` left after dropping trailing whitespace. */
  function RStrip(s: string): (r: string)
    ensures |r| <= |s| && r == s[..|r|]
    ensures r == [] || !IsSpace(r[|r| - 1])
    ensures forall i :: |r| <= i < |s| ==> IsSpace(s[i])
    decreases |s|
  {
    if s != [] && IsSpace(s[|s| - 1]) then RStrip(s[..|s| - 1]) else s
  }

  /** Number of leading whitespace characters of `s`. */
  function LeadingSpaces(s: string): (n: nat)
    ensures n <= |s|
  {
    |s| - |LStrip(s)|
  }

  /** `s.strip()`: the slice of `s` that neither starts nor ends with whitespace, all of whose surroundings are whitespace. */
  function Strip(s: string): (r: string)
    ensures LeadingSpaces(s) + |r| <= |s|
    ensures r == s[LeadingSpaces(s)..LeadingSpaces(s) + |r|]
    ensures forall i :: 0 <= i < LeadingSpaces(s) ==> IsSpace(s[i])
    ensures forall i :: LeadingSpaces(s) + |r| <= i < |s| ==> IsSpace(s[i])
    ensures r == [] || (!IsSpace(r[0]) && !IsSpace(r[|r| - 1]))
  {
    var l := LStrip(s);
    var r := RStrip(l);
    assert r == s[|s| - |l|..][..|r|];
    r
  }

  /** `not s.strip()` holds exactly when every character of `s` is whitespace. */
  lemma StripEmptyIffBlank(s: string)
    ensures Strip(s) == [] <==> IsBlank(s)
  {
  }

  /** Stripping a string that is already stripped changes nothing. */
  lemma {:induction false} StripIdempotent(s: string)
    ensures Strip(Strip(s)) == Strip(s)
  {
    var r := Strip(s);
    if r != [] {
      assert LStrip(r) == r;
      assert RStrip(r) == r;
    }
  }

  /** `t` occurs in `s` at index `i`. */
  predicate OccursAt(s: string, t: string, i: int) {
    0 <= i && i + |t| <= |s| && s[i..i + |t|] == t
  }

  /** Python's `t in s`. */
  predicate Contains(s: string, t: string) {
    exists i | 0 <= i <= |s| - |t| :: OccursAt(s, t, i)
  }

  /** Whatever surrounds `t`, the result contains `t`. */
  lemma ContainsMiddle(a: string, t: string, b: string)
    ensures Contains(a + t + b, t)
  {
    var s := a + t + b;
    assert OccursAt(s, t, |a|);
  }

  /** `s.startswith(p)`. */
  predicate StartsWith(s: string, p: string) {
    |p| <= |s| && s[..|p|] == p
  }

  /** `s.rfind(t, start)`: the highest index at or after `start` where `t` occurs, or `None` for Python's -1. */
  function RFind(s: string, t: string, start: nat): (r: Option<nat>)
    ensures r.Some? ==> start <= r.value && OccursAt(s, t, r.value)
    ensures r.Some? ==> forall j :: r.value < j ==> !OccursAt(s, t, j)
    ensures r.None? ==> forall j :: start <= j ==> !OccursAt(s, t, j)
  {
    RFindDown(s, t, start, |s| - |t|)
  }

  function RFindDown(s: string, t: string, start: nat, hi: int): (r: Option<nat>)
    requires hi <= |s| - |t|
    requires forall j :: hi < j ==> !OccursAt(s, t, j)
    ensures r.Some? ==> start <= r.value && OccursAt(s, t, r.value)
    ensures r.Some? ==> forall j :: r.value < j ==> !OccursAt(s, t, j)
    ensures r.None? ==> forall j :: start <= j ==> !OccursAt(s, t, j)
    decreases hi + 1 - start
  {
    if hi < start then None
    else if s[hi..hi + |t|] == t then Some(hi)
    else RFindDown(s, t, start, hi - 1)
  }

  /** Python's `s.replace(p, r)` for a non-empty pattern: leftmost, non-overlapping occurrences are replaced. */
  function ReplaceAll(s: string, p: string, r: string): string
    requires p != []
    decreases |s|
  {
    if |s| < |p| then s
    else if s[..|p|] == p then r + ReplaceAll(s[|p|..], p, r)
    else [s[0]] + ReplaceAll(s[1..], p, r)
  }

  /** Removing a pattern never lengthens the string, and shortens it when the pattern occurs. */
  lemma {:induction false} RemoveShrinks(s: string, p: string)
    requires p != []
    ensures |ReplaceAll(s, p, "")| <= |s|
    ensures Contains(s, p) ==> |ReplaceAll(s, p, "")| < |s|
    decreases |s|
  {
    if |s| < |p| {
    } else if s[..|p|] == p {
      RemoveShrinks(s[|p|..], p);
    } else {
      RemoveShrinks(s[1..], p);
      if Contains(s, p) {
        var i :| 0 <= i <= |s| - |p| && OccursAt(s, p, i);
        assert i != 0;
        assert OccursAt(s[1..], p, i - 1);
      }
    }
  }

  /** Where the pattern does not occur, replacing it is the identity. */
  lemma {:induction false} ReplaceAbsent(s: string, p: string, r: string)
    requires p != [] && !Contains(s, p)
    ensures ReplaceAll(s, p, r) == s
    decreases |s|
  {
    if |s| >= |p| {
      assert !OccursAt(s, p, 0);
      forall i | 0 <= i <= |s[1..]| - |p| ensures !OccursAt(s[1..], p, i) {
        assert !OccursAt(s, p, i + 1);
        assert s[1..][i..i + |p|] == s[i + 1..i + 1 + |p|];
      }
      ReplaceAbsent(s[1..], p, r);
    }
  }

  /** The pattern followed by text in which it does not occur: the pattern is replaced and the text kept. */
  lemma ReplaceLeading(p: string, t: string, r: string)
    requires p != [] && !Contains(t, p)
    ensures ReplaceAll(p + t, p, r) == r + t
  {
    assert (p + t)[..|p|] == p;
    assert (p + t)[|p|..] == t;
    ReplaceAbsent(t, p, r);
  }

  /** Replacing one character by another maps the string character by character. */
  lemma {:induction false} ReplaceCharwise(s: string, c: char, d: char)
    ensures |ReplaceAll(s, [c], [d])| == |s|
    ensures forall i :: 0 <= i < |s| ==> ReplaceAll(s, [c], [d])[i] == (if s[i] == c then d else s[i])
    decreases |s|
  {
    if s != [] {
      ReplaceCharwise(s[1..], c, d);
      var rest := ReplaceAll(s[1..], [c], [d]);
      assert s[..1] == [s[0]];
      assert ReplaceAll(s, [c], [d]) == [if s[0] == c then d else s[0]] + rest;
    }
  }

  /** ASCII part of Python's `str.lower`. */
  function LowerChar(c: char): (r: char)
    ensures !('A' <= r <= 'Z')
    ensures ('a' <= r <= 'z') <==> ('A' <= c <= 'Z' || 'a' <= c <= 'z')
  {
    if 'A' <= c <= 'Z' then (c as int + 32) as char else c
  }

  /** `s.lower()` restricted to ASCII letters; other characters are kept. */
  function Lower(s: string): (r: string)
    ensures |r| == |s|
    ensures forall i :: 0 <= i < |s| ==> r[i] == LowerChar(s[i])
  {
    seq(|s|, i requires 0 <= i < |s| => LowerChar(s[i]))
  }

  /** `sep.join(parts)`. */
  function Join(parts: seq<string>, sep: string): (r: string)
    ensures parts == [] ==> r == []
    ensures |parts| == 1 ==> r == parts[0]
    decreases |parts|
  {
    if parts == [] then []
    else if |parts| == 1 then parts[0]
    else parts[0] + sep + Join(parts[1..], sep)
  }

  /** A non-empty join starts with its first part. */
  lemma JoinStartsWithFirst(parts: seq<string>, sep: string)
    requires parts != []
    ensures StartsWith(Join(parts, sep), parts[0])
  {
    if |parts| > 1 {
      assert Join(parts, sep) == parts[0] + (sep + Join(parts[1..], sep));
    }
  }

  /** Every part appears in the joined text. */
  lemma {:induction false} JoinContainsPart(parts: seq<string>, sep: string, i: nat)
    requires i < |parts|
    ensures Contains(Join(parts, sep), parts[i])
    decreases |parts|
  {
    if |parts| == 1 {
      assert OccursAt(parts[0], parts[0], 0);
    } else if i == 0 {
      ContainsMiddle([], parts[0], sep + Join(parts[1..], sep));
      assert [] + parts[0] + (sep + Join(parts[1..], sep)) == Join(parts, sep);
    } else {
      JoinContainsPart(parts[1..], sep, i - 1);
      var rest := Join(parts[1..], sep);
      var k :| 0 <= k <= |rest| - |parts[i]| && OccursAt(rest, parts[i], k);
      var whole := Join(parts, sep);
      assert whole == (parts[0] + sep) + rest;
      assert OccursAt(whole, parts[i], |parts[0] + sep| + k) by {
        assert whole[|parts[0] + sep| + k..|parts[0] + sep| + k + |parts[i]|] == rest[k..k + |parts[i]|];
      }
    }
  }

  /** A text contains itself, and what starts it. */
  lemma StartContained(s: string, p: string)
    requires StartsWith(s, p)
    ensures Contains(s, p)
  {
    assert OccursAt(s, p, 0);
  }

  /** Concatenation of all strings in `parts`. */
  function Concat(parts: seq<string>): string
    decreases |parts|
  {
    if parts == [] then [] else parts[0] + Concat(parts[1..])
  }

  /** A text that occurs inside a part of `s` occurs in `s`. */
  lemma ContainsWithin(s: string, part: string, t: string)
    requires Contains(s, part) && Contains(part, t)
    ensures Contains(s, t)
  {
    var i :| 0 <= i <= |s| - |part| && OccursAt(s, part, i);
    var j :| 0 <= j <= |part| - |t| && OccursAt(part, t, j);
    forall k | 0 <= k < |t| ensures s[i + j + k] == t[k] {
      assert s[i..i + |part|][j + k] == part[j + k];
      assert part[j..j + |t|][k] == t[k];
    }
    assert OccursAt(s, t, i + j);
  }

  /** Text before or after does not hide an occurrence. */
  lemma ContainsExtended(a: string, s: string, b: string, t: string)
    requires Contains(s, t)
    ensures Contains(a + s + b, t)
  {
    ContainsMiddle(a, s, b);
    ContainsWithin(a + s + b, s, t);
  }

  /** Every part occurs in the concatenation. */
  lemma {:induction false} ConcatContainsPart(parts: seq<string>, i: nat)
    requires i < |parts|
    ensures Contains(Concat(parts), parts[i])
    decreases |parts|
  {
    if i == 0 {
      ContainsMiddle([], parts[0], Concat(parts[1..]));
      assert [] + parts[0] + Concat(parts[1..]) == Concat(parts);
    } else {
      ConcatContainsPart(parts[1..], i - 1);
      ContainsExtended(parts[0], Concat(parts[1..]), [], parts[i]);
      assert parts[0] + Concat(parts[1..]) + [] == Concat(parts);
    }
  }

  /** A concatenation starts with its first part. */
  lemma ConcatStartsWithFirst(parts: seq<string>)
    requires parts != []
    ensures StartsWith(Concat(parts), parts[0])
  {
    assert Concat(parts)[..|parts[0]|] == parts[0];
  }

  /** A concatenation starts with its first part and contains every part. */
  lemma ConcatShowsParts(parts: seq<string>)
    requires parts != []
    ensures StartsWith(Concat(parts), parts[0])
    ensures forall x :: x in parts ==> Contains(Concat(parts), x)
  {
    ConcatStartsWithFirst(parts);
    forall x | x in parts ensures Contains(Concat(parts), x) {
      var i :| 0 <= i < |parts| && parts[i] == x;
      ConcatContainsPart(parts, i);
    }
  }

  /** Python's `[s[i:i+n] for i in range(0, len(s), n)]`. */
  function Chunks(s: string, n: nat): (r: seq<string>)
    requires n > 0
    decreases |s|
  {
    if s == [] then []
    else if |s| <= n then [s]
    else [s[..n]] + Chunks(s[n..], n)
  }

  /** The pieces put back together give the original text, each piece is non-empty and at most `n` long, and there are ceil(|s| / n) of them. */
  lemma ChunksSpec(s: string, n: nat)
    requires n > 0
    ensures Concat(Chunks(s, n)) == s
    ensures forall i :: 0 <= i < |Chunks(s, n)| ==> 0 < |Chunks(s, n)[i]| <= n
    ensures s == [] <==> Chunks(s, n) == []
    ensures s != [] ==> (|Chunks(s, n)| - 1) * n < |s| <= |Chunks(s, n)| * n
  {
    ChunksConcat(s, n);
    ChunksSizes(s, n);
    ChunksCount(s, n);
  }

  /** Putting the pieces back together gives the text. */
  lemma {:induction false} ChunksConcat(s: string, n: nat)
    requires n > 0
    ensures Concat(Chunks(s, n)) == s
    decreases |s|
  {
    if s != [] && |s| > n {
      ChunksConcat(s[n..], n);
      assert Chunks(s, n) == [s[..n]] + Chunks(s[n..], n);
      assert s[..n] + s[n..] == s;
    }
  }

  /** Every piece is non-empty and at most `n` long; only the empty text has no pieces. */
  lemma {:induction false} ChunksSizes(s: string, n: nat)
    requires n > 0
    ensures forall i :: 0 <= i < |Chunks(s, n)| ==> 0 < |Chunks(s, n)[i]| <= n
    ensures s == [] <==> Chunks(s, n) == []
    decreases |s|
  {
    if s != [] && |s| > n {
      ChunksSizes(s[n..], n);
      assert Chunks(s, n) == [s[..n]] + Chunks(s[n..], n);
    }
  }

  /** A non-empty text of length `m` is cut into `c` pieces with (c - 1) * n < m <= c * n. */
  lemma {:induction false} ChunksCount(s: string, n: nat)
    requires n > 0
    ensures s != [] ==> (|Chunks(s, n)| - 1) * n < |s| <= |Chunks(s, n)| * n
    decreases |s|
  {
    if s != [] && |s| > n {
      ChunksCount(s[n..], n);
      var c := |Chunks(s[n..], n)|;
      assert |Chunks(s, n)| == c + 1;
      assert (c - 1) * n < |s| - n <= c * n;
      assert (c + 1) * n == c * n + n;
      assert c * n == (c - 1) * n + n;
    }
  }

  /** The decimal digit for `d`. */
  function Digit(d: nat): char
    requires d < 10
  {
    "0123456789"[d]
  }

  /** `str(n)` for a natural number. */
  function NatToString(n: nat): (r: string)
    ensures r != []
    ensures forall i :: 0 <= i < |r| ==> '0' <= r[i] <= '9'
  {
    if n < 10 then [Digit(n)] else NatToString(n / 10) + [Digit(n % 10)]
  }

  /** `str(i)` for an integer. */
  function IntToString(i: int): (r: string)
    ensures r != [] && !IsBlank(r)
  {
    var r := if i < 0 then "-" + NatToString(-i) else NatToString(i);
    assert !IsSpace(r[|r| - 1]);
    r
  }
}
