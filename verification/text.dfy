/**
 * The Python `str` operations the agent's heuristics are built from:
 * substring tests, lower-casing, stripping, joining, line splitting and
 * decimal formatting.  Lower-casing and whitespace follow CPython on the
 * characters listed; see README for what is not covered.
 */
module Text {

  /** Python's `str.isspace()` for one character. */
  predicate IsSpace(c: char) {
    c == ' ' || c == '\t' || c == '\n' || c == '\r' || c == '\U{B}' || c == '\U{C}'
    || ('\U{1C}' <= c <= '\U{1F}') || c == '\U{85}' || c == '\U{A0}' || c == '\U{1680}'
    || ('\U{2000}' <= c <= '\U{200A}') || c == '\U{2028}' || c == '\U{2029}'
    || c == '\U{202F}' || c == '\U{205F}' || c == '\U{3000}'
  }

  /** The characters at which `str.splitlines()` ends a line. */
  predicate IsLineBreak(c: char) {
    c == '\n' || c == '\r' || c == '\U{B}' || c == '\U{C}' || ('\U{1C}' <= c <= '\U{1E}')
    || c == '\U{85}' || c == '\U{2028}' || c == '\U{2029}'
  }

  function LowerChar(c: char): char {
    if 'A' <= c <= 'Z' then (c as int + 32) as char else c
  }

  /** `s.lower()` restricted to ASCII letters. */
  function Lower(s: string): (r: string)
    ensures |r| == |s|
    ensures forall i :: 0 <= i < |s| ==> r[i] == LowerChar(s[i])
  {
    seq(|s|, i requires 0 <= i < |s| => LowerChar(s[i]))
  }

  function UpperChar(c: char): char {
    if 'a' <= c <= 'z' then (c as int - 32) as char else c
  }

  /** `s.upper()` for ASCII letters. */
  function Upper(s: string): (r: string)
    ensures |r| == |s|
    ensures forall i :: 0 <= i < |s| ==> r[i] == UpperChar(s[i])
  {
    seq(|s|, i requires 0 <= i < |s| => UpperChar(s[i]))
  }

  lemma LowerConcat(a: string, b: string)
    ensures Lower(a + b) == Lower(a) + Lower(b)
  {
  }

  /** `s.startswith(p)` */
  predicate StartsWith(s: string, p: string) {
    |p| <= |s| && s[..|p|] == p
  }

  /** `s.endswith(p)` */
  predicate EndsWith(s: string, p: string) {
    |p| <= |s| && s[|s| - |p|..] == p
  }

  /** `t in s` for strings. */
  predicate Contains(s: string, t: string)
    decreases |s|
  {
    StartsWith(s, t) || (|s| > 0 && Contains(s[1..], t))
  }

  /** `t` occurs in `s` starting at index `i`. */
  predicate OccursAt(s: string, t: string, i: int) {
    0 <= i && i + |t| <= |s| && s[i..i + |t|] == t
  }

  lemma {:induction false} ContainsIffOccurs(s: string, t: string)
    ensures Contains(s, t) <==> exists i :: OccursAt(s, t, i)
    decreases |s|
  {
    if StartsWith(s, t) {
      assert OccursAt(s, t, 0);
    } else if |s| == 0 {
    } else {
      ContainsIffOccurs(s[1..], t);
      if Contains(s[1..], t) {
        var i :| OccursAt(s[1..], t, i);
        assert s[i + 1..i + 1 + |t|] == s[1..][i..i + |t|];
        assert OccursAt(s, t, i + 1);
      }
      if i :| OccursAt(s, t, i) {
        if i != 0 {
          assert s[1..][i - 1..i - 1 + |t|] == s[i..i + |t|];
          assert OccursAt(s[1..], t, i - 1);
        }
      }
    }
  }

  lemma ContainsOccurrence(s: string, t: string, i: int)
    requires OccursAt(s, t, i)
    ensures Contains(s, t)
  {
    ContainsIffOccurs(s, t);
  }

  lemma ContainsConcat(a: string, b: string, t: string)
    ensures Contains(a, t) ==> Contains(a + b, t)
    ensures Contains(b, t) ==> Contains(a + b, t)
  {
    ContainsIffOccurs(a, t);
    ContainsIffOccurs(b, t);
    ContainsIffOccurs(a + b, t);
    if Contains(a, t) {
      var i :| OccursAt(a, t, i);
      assert (a + b)[i..i + |t|] == a[i..i + |t|];
      assert OccursAt(a + b, t, i);
    }
    if Contains(b, t) {
      var i :| OccursAt(b, t, i);
      assert (a + b)[|a| + i..|a| + i + |t|] == b[i..i + |t|];
      assert OccursAt(a + b, t, |a| + i);
    }
  }

  lemma PrefixContains(s: string, p: string)
    requires StartsWith(s, p)
    ensures Contains(s, p)
  {
  }

  /**
   * A needle that does not contain the separator `c` occurs in `a + [c] + b`
   * exactly when it occurs in `a` or in `b`: no occurrence can straddle `c`.
   */
  lemma {:induction false} ContainsAroundSeparator(a: string, c: char, b: string, t: string)
    requires c !in t
    ensures Contains(a + [c] + b, t) <==> Contains(a, t) || Contains(b, t)
  {
    var s := a + [c] + b;
    ContainsIffOccurs(s, t);
    ContainsIffOccurs(a, t);
    ContainsIffOccurs(b, t);
    if Contains(s, t) {
      var i :| OccursAt(s, t, i);
      if i + |t| <= |a| {
        assert s[i..i + |t|] == a[i..i + |t|];
        assert OccursAt(a, t, i);
      } else if i >= |a| + 1 {
        var j := i - |a| - 1;
        assert s[|a| + 1..] == b;
        assert s[i..i + |t|] == s[|a| + 1..][j..j + |t|];
        assert OccursAt(b, t, j);
      } else {
        OccurrenceCovers(s, t, i, |a|);
        assert false;
      }
    }
    ContainsConcat(a + [c], b, t);
    ContainsConcat(a, [c], t);
  }

  /** An occurrence of `t` at `i` covers every index `k` of `[i, i + |t|)`. */
  lemma OccurrenceCovers(s: string, t: string, i: int, k: int)
    ensures OccursAt(s, t, i) && i <= k < i + |t| ==> t[k - i] == s[k]
  {
    if OccursAt(s, t, i) && i <= k < i + |t| {
      assert s[i..i + |t|][k - i] == s[k];
    }
  }

  /** Lower-casing keeps every occurrence (`t in s` implies `t.lower() in s.lower()`). */
  lemma ContainsLower(s: string, t: string)
    requires Contains(s, t)
    ensures Contains(Lower(s), Lower(t))
  {
    ContainsIffOccurs(s, t);
    var i :| OccursAt(s, t, i);
    assert Lower(s)[i..i + |t|] == Lower(t);
    ContainsOccurrence(Lower(s), Lower(t), i);
  }

  /** `s.lstrip()` */
  function LStrip(s: string): string
    decreases |s|
  {
    if s != [] && IsSpace(s[0]) then LStrip(s[1..]) else s
  }

  /** `s.rstrip()` */
  function RStrip(s: string): string
    decreases |s|
  {
    if s != [] && IsSpace(s[|s| - 1]) then RStrip(s[..|s| - 1]) else s
  }

  /** `s.strip()` */
  function Strip(s: string): string {
    RStrip(LStrip(s))
  }

  /** `sep.join(parts)` */
  function Join(sep: string, parts: seq<string>): string
    decreases |parts|
  {
    if |parts| == 0 then ""
    else if |parts| == 1 then parts[0]
    else parts[0] + sep + Join(sep, parts[1..])
  }

  /** Concatenation of all parts (a string built with `+=` in a loop). */
  function Concat(parts: seq<string>): string
    decreases |parts|
  {
    if parts == [] then "" else Concat(parts[..|parts| - 1]) + parts[|parts| - 1]
  }

  lemma ConcatSnoc(parts: seq<string>, x: string)
    ensures Concat(parts + [x]) == Concat(parts) + x
  {
    assert (parts + [x])[..|parts|] == parts;
  }

  function DigitChar(d: nat): char
    requires d < 10
  {
    "0123456789"[d]
  }

  /** `str(n)` for a natural number. */
  function NatToString(n: nat): (r: string)
    ensures 1 <= |r|
    ensures forall i :: 0 <= i < |r| ==> '0' <= r[i] <= '9'
    decreases n
  {
    if n < 10 then [DigitChar(n)] else NatToString(n / 10) + [DigitChar(n % 10)]
  }

  /** `str(i)` for an integer. */
  function IntToString(i: int): string {
    if i < 0 then "-" + NatToString(-i) else NatToString(i)
  }

  /** `f"{s:>w}"`: right-aligned in a field of width `w`. */
  function PadLeft(s: string, w: nat): (r: string)
    ensures |r| == if |s| < w then w else |s|
    ensures EndsWith(r, s)
  {
    if |s| < w then seq(w - |s|, _ => ' ') + s else s
  }

  /** Index of the first line break in `s`, or `|s|`. */
  function FirstLineBreak(s: string): (k: nat)
    ensures k <= |s|
    ensures k < |s| ==> IsLineBreak(s[k])
    ensures forall j :: 0 <= j < k ==> !IsLineBreak(s[j])
    decreases |s|
  {
    if s == [] then 0 else if IsLineBreak(s[0]) then 0 else 1 + FirstLineBreak(s[1..])
  }

  /** `s.splitlines()`: "\r\n" ends one line; a final line without a break is kept if non-empty. */
  function SplitLines(s: string): (lines: seq<string>)
    ensures forall k, j :: 0 <= k < |lines| && 0 <= j < |lines[k]| ==> !IsLineBreak(lines[k][j])
    decreases |s|
  {
    if s == [] then []
    else
      var k := FirstLineBreak(s);
      if k == |s| then [s]
      else
        var rest := if s[k] == '\r' && k + 1 < |s| && s[k + 1] == '\n' then s[k + 2..] else s[k + 1..];
        [s[..k]] + SplitLines(rest)
  }

  /** Index of the first `c` in `s`, or `|s|`. */
  function IndexOf(s: string, c: char): (k: nat)
    ensures k <= |s|
    ensures k < |s| ==> s[k] == c
    ensures forall j :: 0 <= j < k ==> s[j] != c
    decreases |s|
  {
    if s == [] then 0 else if s[0] == c then 0 else 1 + IndexOf(s[1..], c)
  }

  /** `s.split(c)`: always at least one part. */
  function Split(s: string, c: char): (parts: seq<string>)
    ensures 1 <= |parts|
    decreases |s|
  {
    var k := IndexOf(s, c);
    if k == |s| then [s] else [s[..k]] + Split(s[k + 1..], c)
  }

  /** The lines of a text-mode file as `readlines()` gives them: each keeps its "\n". */
  function ReadLines(s: string): (lines: seq<string>)
    ensures Concat(lines) == s
    decreases |s|
  {
    if s == [] then []
    else
      var k := IndexOf(s, '\n');
      if k == |s| then [s]
      else
        var rest := ReadLines(s[k + 1..]);
        ConcatPrepend(s[..k + 1], rest);
        [s[..k + 1]] + rest
  }

  lemma {:induction false} ConcatPrepend(x: string, rest: seq<string>)
    ensures Concat([x] + rest) == x + Concat(rest)
    decreases |rest|
  {
    if rest == [] {
      assert [x] + rest == [x];
      assert Concat([x]) == Concat([]) + x;
    } else {
      var last := rest[|rest| - 1];
      var init := rest[..|rest| - 1];
      assert [x] + rest == ([x] + init) + [last];
      ConcatSnoc([x] + init, last);
      ConcatPrepend(x, init);
      assert rest == init + [last];
      ConcatSnoc(init, last);
    }
  }

  /** `s[:n]` with Python's handling of negative and oversized bounds. */
  function PyPrefix<T>(s: seq<T>, n: int): (r: seq<T>)
    ensures |r| <= |s| && r == s[..|r|]
    ensures 0 <= n ==> |r| == if n < |s| then n else |s|
  {
    if n >= 0 then (if n < |s| then s[..n] else s)
    else if |s| + n > 0 then s[..|s| + n] else []
  }

  /** Number of elements satisfying `p` (the length of a filtering comprehension). */
  function Count<T>(s: seq<T>, p: T -> bool): (n: nat)
    ensures n <= |s|
    decreases |s|
  {
    if s == [] then 0 else Count(s[..|s| - 1], p) + (if p(s[|s| - 1]) then 1 else 0)
  }

  /** The elements satisfying `p`, in order (`[x for x in s if p(x)]`). */
  function Filter<T>(s: seq<T>, p: T -> bool): (r: seq<T>)
    ensures |r| == Count(s, p)
    ensures forall x :: x in r ==> x in s && p(x)
    decreases |s|
  {
    if s == [] then [] else Filter(s[..|s| - 1], p) + (if p(s[|s| - 1]) then [s[|s| - 1]] else [])
  }

  /** True when some element of `words` is a substring of `s` (`any(w in s for w in words)`). */
  predicate ContainsAny(s: string, words: seq<string>) {
    exists k :: 0 <= k < |words| && Contains(s, words[k])
  }

  /** A needle is never longer than a string that contains it. */
  lemma ContainsShorter(s: string, t: string)
    requires Contains(s, t)
    ensures |t| <= |s|
  {
    ContainsIffOccurs(s, t);
  }

  /** A non-empty needle's first character occurs in every string containing it. */
  lemma ContainsFirstChar(s: string, t: string)
    requires Contains(s, t) && t != []
    ensures t[0] in s
  {
    ContainsIffOccurs(s, t);
    var i :| OccursAt(s, t, i);
    assert s[i..i + |t|][0] == s[i];
  }

  /** Lower-casing twice is lower-casing once. */
  lemma LowerIdempotent(s: string)
    ensures Lower(Lower(s)) == Lower(s)
  {
  }

  /** A needle whose first character is absent from `s` does not occur in it. */
  lemma MissingFirstChar(s: string, t: string)
    requires t != [] && t[0] !in s
    ensures !Contains(s, t)
  {
    if Contains(s, t) { ContainsFirstChar(s, t); }
  }

  /**
   * A needle free of `c` and longer than `a` and `b` occurs in
   * `a + [c] + m + [c] + b` only if it occurs in `m`.
   */
  lemma ShieldedNeedle(a: string, c: char, m: string, b: string, t: string)
    requires c !in t && |a| < |t| && |b| < |t| && !Contains(m, t)
    ensures !Contains(a + [c] + (m + [c] + b), t)
  {
    ContainsAroundSeparator(a, c, m + [c] + b, t);
    ContainsAroundSeparator(m, c, b, t);
    if Contains(a, t) { ContainsShorter(a, t); }
    if Contains(b, t) { ContainsShorter(b, t); }
  }

  /** `[f(x) for x in s]` for a string-valued `f`. */
  function MapStr<T>(s: seq<T>, f: T -> string): (r: seq<string>)
    ensures |r| == |s|
    ensures forall k :: 0 <= k < |s| ==> r[k] == f(s[k])
  {
    seq(|s|, k requires 0 <= k < |s| => f(s[k]))
  }

  /** Appending one more item's text to a string built with `+=`. */
  lemma ConcatMapSnoc<T>(s: seq<T>, f: T -> string, k: nat)
    requires k < |s|
    ensures Concat(MapStr(s[..k + 1], f)) == Concat(MapStr(s[..k], f)) + f(s[k])
  {
    assert MapStr(s[..k + 1], f) == MapStr(s[..k], f) + [f(s[k])];
    ConcatSnoc(MapStr(s[..k], f), f(s[k]));
  }

  lemma FilterSnoc<T>(s: seq<T>, x: T, p: T -> bool)
    ensures Filter(s + [x], p) == Filter(s, p) + (if p(x) then [x] else [])
    ensures Count(s + [x], p) == Count(s, p) + (if p(x) then 1 else 0)
  {
    assert (s + [x])[..|s|] == s;
  }

  /** `r` is `s` with some elements left out, the rest in their order (matched from the end). */
  predicate SubsequenceOf<T(==)>(r: seq<T>, s: seq<T>)
    decreases |s|
  {
    r == [] || (s != [] &&
      if r[|r| - 1] == s[|s| - 1] then SubsequenceOf(r[..|r| - 1], s[..|s| - 1])
      else SubsequenceOf(r, s[..|s| - 1]))
  }

  /** Filtering keeps the surviving elements in their order. */
  lemma {:induction false} FilterIsSubsequence<T>(s: seq<T>, p: T -> bool)
    ensures SubsequenceOf(Filter(s, p), s)
    decreases |s|
  {
    if s != [] {
      var init := s[..|s| - 1];
      var x := s[|s| - 1];
      var f := Filter(init, p);
      FilterIsSubsequence(init, p);
      assert s[..|s| - 1] == init;
      if p(x) {
        assert (f + [x])[..|f|] == f;
      } else {
        assert Filter(s, p) == f;
      }
    }
  }

  lemma MapStrSnoc<T>(s: seq<T>, x: T, f: T -> string)
    ensures MapStr(s + [x], f) == MapStr(s, f) + [f(x)]
  {
  }

  /** Every element satisfying `p` survives the filter. */
  lemma {:induction false} FilterKeeps<T>(s: seq<T>, p: T -> bool, x: T)
    requires x in s && p(x)
    ensures x in Filter(s, p)
    decreases |s|
  {
    var init := s[..|s| - 1];
    assert s == init + [s[|s| - 1]];
    if x != s[|s| - 1] {
      FilterKeeps(init, p, x);
    }
  }

  lemma {:induction false} LStripTrims(s: string)
    ensures LStrip(s) == [] || !IsSpace(LStrip(s)[0])
    decreases |s|
  {
    if s != [] && IsSpace(s[0]) { LStripTrims(s[1..]); }
  }

  lemma {:induction false} RStripTrims(s: string)
    ensures RStrip(s) == [] || !IsSpace(RStrip(s)[|RStrip(s)| - 1])
    decreases |s|
  {
    if s != [] && IsSpace(s[|s| - 1]) { RStripTrims(s[..|s| - 1]); }
  }

  /** `s.rstrip()` is a prefix of `s`. */
  lemma {:induction false} RStripIsPrefix(s: string)
    ensures |RStrip(s)| <= |s| && RStrip(s) == s[..|RStrip(s)|]
    decreases |s|
  {
    if s != [] && IsSpace(s[|s| - 1]) {
      RStripIsPrefix(s[..|s| - 1]);
    }
  }

  /** `s.strip()` neither starts nor ends with whitespace. */
  lemma StripTrims(s: string)
    ensures var t := Strip(s); t == [] || (!IsSpace(t[0]) && !IsSpace(t[|t| - 1]))
  {
    var l := LStrip(s);
    var t := RStrip(l);
    LStripTrims(s);
    RStripTrims(l);
    RStripIsPrefix(l);
    if t != [] {
      assert t[0] == l[0];
    }
  }

  lemma {:induction false} RStripKeepsHead(s: string)
    requires s != [] && !IsSpace(s[0])
    ensures RStrip(s) != [] && RStrip(s)[0] == s[0]
    decreases |s|
  {
    if IsSpace(s[|s| - 1]) {
      RStripKeepsHead(s[..|s| - 1]);
    }
  }

  /** A string starting with a non-space character keeps that first character when stripped. */
  lemma StripKeepsHead(s: string)
    requires s != [] && !IsSpace(s[0])
    ensures Strip(s) != [] && Strip(s)[0] == s[0]
  {
    RStripKeepsHead(s);
  }

  /** `[f(x) for x in s if keep(x)]` */
  function Select<T, U>(s: seq<T>, keep: T -> bool, f: T -> U): seq<U>
    decreases |s|
  {
    if s == [] then [] else Select(s[..|s| - 1], keep, f) + (if keep(s[|s| - 1]) then [f(s[|s| - 1])] else [])
  }

  /** One more element is one more (possible) result, at the end. */
  lemma SelectSnoc<T, U>(s: seq<T>, x: T, keep: T -> bool, f: T -> U)
    ensures Select(s + [x], keep, f) == Select(s, keep, f) + (if keep(x) then [f(x)] else [])
  {
    assert (s + [x])[..|s|] == s;
  }

  /** The results are exactly the images of the kept elements. */
  lemma {:induction false} SelectIff<T, U>(s: seq<T>, keep: T -> bool, f: T -> U, u: U)
    ensures u in Select(s, keep, f) <==> exists x :: x in s && keep(x) && f(x) == u
    decreases |s|
  {
    if s != [] {
      var init := s[..|s| - 1];
      var last := s[|s| - 1];
      assert s == init + [last];
      SelectIff(init, keep, f, u);
      if x :| x in s && keep(x) && f(x) == u {
        if x != last {
          assert x in init;
        }
      }
    }
  }

  /** The loop `for x in s: if keep(x): out.append(f(x))`. */
  method Collect<T, U>(s: seq<T>, keep: T -> bool, f: T -> U) returns (out: seq<U>)
    ensures out == Select(s, keep, f)
  {
    out := [];
    for i := 0 to |s|
      invariant out == Select(s[..i], keep, f)
    {
      assert s[..i + 1] == s[..i] + [s[i]];
      SelectSnoc(s[..i], s[i], keep, f);
      if keep(s[i]) {
        out := out + [f(s[i])];
      }
    }
    assert s[..|s|] == s;
  }

  /** One result per kept element. */
  lemma {:induction false} SelectLength<T, U>(s: seq<T>, keep: T -> bool, f: T -> U)
    ensures |Select(s, keep, f)| == Count(s, keep)
    decreases |s|
  {
    if s != [] {
      SelectLength(s[..|s| - 1], keep, f);
    }
  }

  /** `enumerate(lines, 1)` */
  function Numbered(lines: seq<string>): (r: seq<(nat, string)>)
    ensures |r| == |lines|
    ensures forall k :: 0 <= k < |lines| ==> r[k] == (k + 1, lines[k])
  {
    seq(|lines|, k requires 0 <= k < |lines| => (k + 1, lines[k]))
  }

  /** The loop `for x in s: out += f(x)` over a string-valued `f`. */
  method ConcatEach<T>(s: seq<T>, f: T -> string) returns (out: string)
    ensures out == Concat(MapStr(s, f))
  {
    out := "";
    for i := 0 to |s|
      invariant out == Concat(MapStr(s[..i], f))
    {
      ConcatMapSnoc(s, f, i);
      out := out + f(s[i]);
    }
    assert s[..|s|] == s;
  }

  /** No element occurs twice. */
  predicate NoRepeats<T(==)>(s: seq<T>) {
    forall i, j :: 0 <= i < j < |s| ==> s[i] != s[j]
  }

  /** Without repeats every element occurs at most once. */
  lemma {:induction false} NoRepeatsCount<T>(s: seq<T>, x: T)
    requires NoRepeats(s)
    ensures multiset(s)[x] <= 1
    decreases |s|
  {
    if s != [] {
      var init := s[..|s| - 1];
      assert s == init + [s[|s| - 1]];
      assert NoRepeats(init) by {
        forall i, j | 0 <= i < j < |init| ensures init[i] != init[j] {
          assert init[i] == s[i] && init[j] == s[j];
        }
      }
      NoRepeatsCount(init, x);
      if s[|s| - 1] == x {
        forall k | 0 <= k < |init| ensures init[k] != x {
          assert init[k] == s[k];
        }
        assert x !in init;
      }
    }
  }

  /** An element at two positions occurs at least twice. */
  lemma RepeatCounted<T>(s: seq<T>, i: int, j: int)
    requires 0 <= i < j < |s| && s[i] == s[j]
    ensures multiset(s)[s[i]] >= 2
  {
    assert s == s[..j] + [s[j]] + s[j + 1..];
    assert s[..j][i] == s[i];
    assert s[i] in multiset(s[..j]);
  }

  /** Reordering keeps a list free of repeats. */
  lemma NoRepeatsPermutation<T>(a: seq<T>, b: seq<T>)
    requires NoRepeats(a) && multiset(a) == multiset(b)
    ensures NoRepeats(b)
  {
    forall i, j | 0 <= i < j < |b| ensures b[i] != b[j] {
      if b[i] == b[j] {
        RepeatCounted(b, i, j);
        NoRepeatsCount(a, b[i]);
      }
    }
  }

  /** Removing the element at `j` removes one occurrence of it. */
  lemma MultisetRemoveAt<T>(s: seq<T>, j: int)
    requires 0 <= j < |s|
    ensures multiset(s[..j] + s[j + 1..]) == multiset(s) - multiset{s[j]}
  {
    assert s == s[..j] + [s[j]] + s[j + 1..];
    assert multiset(s) == multiset(s[..j]) + multiset{s[j]} + multiset(s[j + 1..]);
  }

  /** Nothing is counted exactly when no element satisfies `p`. */
  lemma {:induction false} CountZeroIff<T>(s: seq<T>, p: T -> bool)
    ensures Count(s, p) == 0 <==> forall x :: x in s ==> !p(x)
    decreases |s|
  {
    if s != [] {
      var init := s[..|s| - 1];
      assert s == init + [s[|s| - 1]];
      CountZeroIff(init, p);
    }
  }

  /** Joining two non-empty lists puts one separator between their joins. */
  lemma {:induction false} JoinAppend(sep: string, a: seq<string>, b: seq<string>)
    requires a != [] && b != []
    ensures Join(sep, a + b) == Join(sep, a) + sep + Join(sep, b)
    decreases |a|
  {
    assert (a + b)[0] == a[0];
    if |a| == 1 {
      assert (a + b)[1..] == b;
    } else {
      assert (a + b)[1..] == a[1..] + b;
      JoinAppend(sep, a[1..], b);
    }
  }
}
