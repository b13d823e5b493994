/** The string routines the Python code relies on, written out with the
    semantics of CPython's `str`: substring test (`in`), `replace`,
    `split(sep)`, `strip`/`rstrip`, ASCII `lower`, code-point
    lexicographic order (the order `sorted` uses) and slicing. */
module Text {

  predicate IsPrefix(p: string, s: string)
  {
    |p| <= |s| && s[..|p|] == p
  }

  /** Python's `sub in s`. The empty string is in every string. */
  predicate Contains(s: string, sub: string)
    decreases |s|
  {
    IsPrefix(sub, s) || (|s| > 0 && Contains(s[1..], sub))
  }

  lemma {:induction false} ContainsAt(s: string, sub: string, i: nat)
    requires i + |sub| <= |s| && s[i..i + |sub|] == sub
    ensures Contains(s, sub)
    decreases i
  {
    if i > 0 {
      assert s[1..][i - 1..i - 1 + |sub|] == s[i..i + |sub|];
      ContainsAt(s[1..], sub, i - 1);
    }
  }

  /** A text is contained in anything built around it. */
  lemma ContainsInfix(a: string, sub: string, b: string)
    ensures Contains(a + sub + b, sub)
  {
    assert (a + sub + b)[|a|..|a| + |sub|] == sub;
    ContainsAt(a + sub + b, sub, |a|);
  }

  lemma {:induction false} ContainsWitness(s: string, sub: string) returns (i: nat)
    requires Contains(s, sub)
    ensures i + |sub| <= |s| && s[i..i + |sub|] == sub
    decreases |s|
  {
    if IsPrefix(sub, s) {
      i := 0;
    } else {
      var j := ContainsWitness(s[1..], sub);
      assert s[1..][j..j + |sub|] == s[j + 1..j + 1 + |sub|];
      i := j + 1;
    }
  }

  /** Python's `s.replace(pat, repl)`: every non-overlapping occurrence of
      `pat`, scanning left to right, becomes `repl`. With an empty `pat`,
      `repl` is inserted before every character and at the end. */
  function ReplaceAll(s: string, pat: string, repl: string): string
    decreases |s|
  {
    if pat == [] then InsertEverywhere(s, repl)
    else if IsPrefix(pat, s) then repl + ReplaceAll(s[|pat|..], pat, repl)
    else if s == [] then []
    else [s[0]] + ReplaceAll(s[1..], pat, repl)
  }

  function InsertEverywhere(s: string, repl: string): string
  {
    if s == [] then repl else repl + [s[0]] + InsertEverywhere(s[1..], repl)
  }

  /** Python's `s.count(sub)`: non-overlapping occurrences, and
      `len(s) + 1` for the empty string. */
  function Count(s: string, sub: string): nat
    decreases |s|
  {
    if sub == [] then |s| + 1
    else if IsPrefix(sub, s) then 1 + Count(s[|sub|..], sub)
    else if s == [] then 0
    else Count(s[1..], sub)
  }

  /** Python's `s.split(sep)` for a non-empty separator: the pieces
      between non-overlapping occurrences of `sep`, scanning left to right.
      There is always at least one piece. */
  function Split(s: string, sep: string): (parts: seq<string>)
    requires sep != []
    ensures |parts| >= 1
    decreases |s|
  {
    if IsPrefix(sep, s) then [[]] + Split(s[|sep|..], sep)
    else if s == [] then [[]]
    else
      var rest := Split(s[1..], sep);
      [[s[0]] + rest[0]] + rest[1..]
  }

  /** Python's `sep.join(parts)`. */
  function Join(parts: seq<string>, sep: string): string
  {
    if parts == [] then []
    else if |parts| == 1 then parts[0]
    else parts[0] + sep + Join(parts[1..], sep)
  }

  lemma JoinEmptyHead(rest: seq<string>, sep: string)
    requires |rest| >= 1
    ensures Join([[]] + rest, sep) == sep + Join(rest, sep)
  {
    assert ([[]] + rest)[1..] == rest;
  }

  lemma {:induction false} JoinConsHead(c: char, rest: seq<string>, sep: string)
    requires |rest| >= 1
    ensures Join([[c] + rest[0]] + rest[1..], sep) == [c] + Join(rest, sep)
  {
    var parts := [[c] + rest[0]] + rest[1..];
    assert parts[1..] == rest[1..];
    if |rest| == 1 {
    } else {
      assert Join(parts, sep) == ([c] + rest[0]) + sep + Join(rest[1..], sep);
    }
  }

  /** Splitting on a separator and joining with the same separator gives
      back the original string. */
  lemma {:induction false} JoinSplit(s: string, sep: string)
    requires sep != []
    ensures Join(Split(s, sep), sep) == s
    decreases |s|
  {
    if IsPrefix(sep, s) {
      var t := s[|sep|..];
      JoinSplit(t, sep);
      JoinEmptyHead(Split(t, sep), sep);
      assert s == sep + t;
    } else if s == [] {
    } else {
      var rest := Split(s[1..], sep);
      JoinSplit(s[1..], sep);
      JoinConsHead(s[0], rest, sep);
      assert s == [s[0]] + s[1..];
    }
  }

  /** The identity CPython documents for `replace`: replacing a non-empty
      `pat` by `repl` is splitting on `pat` and joining with `repl`. */
  lemma {:induction false} ReplaceIsSplitJoin(s: string, pat: string, repl: string)
    requires pat != []
    ensures ReplaceAll(s, pat, repl) == Join(Split(s, pat), repl)
    decreases |s|
  {
    if IsPrefix(pat, s) {
      ReplaceIsSplitJoin(s[|pat|..], pat, repl);
      JoinEmptyHead(Split(s[|pat|..], pat), repl);
    } else if s == [] {
    } else {
      var rest := Split(s[1..], pat);
      ReplaceIsSplitJoin(s[1..], pat, repl);
      JoinConsHead(s[0], rest, repl);
    }
  }

  /** Replacing a string by itself changes nothing, including the empty
      string. */
  lemma {:induction false} ReplaceSelf(s: string, pat: string)
    ensures ReplaceAll(s, pat, pat) == s
    decreases |s|
  {
    if pat == [] {
      InsertEmpty(s);
    } else if IsPrefix(pat, s) {
      ReplaceSelf(s[|pat|..], pat);
      assert s == pat + s[|pat|..];
    } else if s != [] {
      ReplaceSelf(s[1..], pat);
      assert s == [s[0]] + s[1..];
    }
  }

  lemma {:induction false} InsertEmpty(s: string)
    ensures InsertEverywhere(s, []) == s
  {
    if s != [] {
      InsertEmpty(s[1..]);
      assert s == [s[0]] + s[1..];
    }
  }

  /** When `pat` does not occur, `replace` returns the string unchanged. */
  lemma {:induction false} ReplaceAbsent(s: string, pat: string, repl: string)
    requires !Contains(s, pat)
    ensures ReplaceAll(s, pat, repl) == s
    decreases |s|
  {
    assert pat != [] by {
      assert IsPrefix([], s);
    }
    if s != [] {
      ReplaceAbsent(s[1..], pat, repl);
      assert s == [s[0]] + s[1..];
    }
  }

  /** The length of a replacement: each of the `Count` occurrences trades
      `|pat|` characters for `|repl|`. */
  lemma {:induction false} ReplaceLength(s: string, pat: string, repl: string)
    ensures |ReplaceAll(s, pat, repl)| == |s| + Count(s, pat) * (|repl| - |pat|)
    decreases |s|
  {
    if pat == [] {
      InsertLength(s, repl);
    } else if IsPrefix(pat, s) {
      var c, d := Count(s[|pat|..], pat), |repl| - |pat|;
      ReplaceLength(s[|pat|..], pat, repl);
      Distribute(c, d);
    } else if s != [] {
      ReplaceLength(s[1..], pat, repl);
    }
  }

  lemma Distribute(c: int, d: int)
    ensures (1 + c) * d == d + c * d
  {
  }

  lemma {:induction false} InsertLength(s: string, repl: string)
    ensures |InsertEverywhere(s, repl)| == |s| + (|s| + 1) * |repl|
  {
    if s != [] {
      var n, k := |s| - 1, |repl|;
      InsertLength(s[1..], repl);
      Distribute(n + 1, k);
    }
  }

  /** No piece of a split on a one-character separator contains that
      character. */
  lemma {:induction false} SplitPiecesFree(s: string, c: char)
    ensures forall p :: p in Split(s, [c]) ==> c !in p
    decreases |s|
  {
    if IsPrefix([c], s) {
      SplitPiecesFree(s[1..], c);
      assert Split(s, [c]) == [[]] + Split(s[1..], [c]);
    } else if s != [] {
      SplitPiecesFree(s[1..], c);
      assert s[0] != c by {
        assert s[..1] == [s[0]];
      }
    }
  }

  /** A text without the separator is a single piece. */
  lemma {:induction false} SplitWithout(s: string, c: char)
    requires c !in s
    ensures Split(s, [c]) == [s]
    decreases |s|
  {
    if s != [] {
      assert s[..1] == [s[0]] && s[0] in s;
      assert forall x :: x in s[1..] ==> x in s;
      SplitWithout(s[1..], c);
      assert [s[0]] + s[1..] == s;
    }
  }

  /** Splitting on a one-character separator cuts at every occurrence:
      the pieces of `a + [c] + b` are those of `a` followed by those of `b`. */
  lemma {:induction false} SplitAtSeparator(a: string, c: char, b: string)
    ensures Split(a + [c] + b, [c]) == Split(a, [c]) + Split(b, [c])
    decreases |a|
  {
    var s := a + [c] + b;
    if a == [] {
      assert s == [c] + b;
      assert IsPrefix([c], s) && s[1..] == b;
    } else if a[0] == c {
      assert IsPrefix([c], s) && s[1..] == a[1..] + [c] + b;
      assert IsPrefix([c], a);
      SplitAtSeparator(a[1..], c, b);
    } else {
      assert s[1..] == a[1..] + [c] + b;
      SplitAtSeparator(a[1..], c, b);
      SplitCarries(a, c, b);
    }
  }

  /** The step of `SplitAtSeparator` for a first character other than the
      separator: it joins the first piece on both sides. */
  lemma SplitCarries(a: string, c: char, b: string)
    requires a != [] && a[0] != c
    requires Split(a[1..] + [c] + b, [c]) == Split(a[1..], [c]) + Split(b, [c])
    ensures Split(a + [c] + b, [c]) == Split(a, [c]) + Split(b, [c])
  {
    var s := a + [c] + b;
    assert s[1..] == a[1..] + [c] + b && s[0] == a[0];
    PrefixOne(c, s);
    PrefixOne(c, a);
    SplitOther(s, [c]);
    SplitOther(a, [c]);
    HeadJoins([a[0]], Split(a[1..], [c]), Split(b, [c]));
  }

  /** Splitting a string that does not start with the separator: its first
      character joins the first piece of the rest. */
  lemma SplitOther(x: string, sep: string)
    requires sep != [] && x != [] && !IsPrefix(sep, x)
    ensures Split(x, sep) == [[x[0]] + Split(x[1..], sep)[0]] + Split(x[1..], sep)[1..]
  {
  }

  lemma HeadJoins(h: string, rest: seq<string>, tail: seq<string>)
    requires |rest| >= 1
    ensures [h + (rest + tail)[0]] + (rest + tail)[1..] == ([h + rest[0]] + rest[1..]) + tail
  {
    assert (rest + tail)[1..] == rest[1..] + tail;
  }

  /** A one-character prefix is a first character. */
  lemma PrefixOne(c: char, x: string)
    ensures IsPrefix([c], x) <==> |x| >= 1 && x[0] == c
  {
    if |x| >= 1 && x[0] != c {
      assert x[..1][0] != c;
    }
  }

  /** The characters Python's `str.isspace` accepts. */
  predicate IsSpace(c: char)
  {
    || c == ' ' || c == '\t' || c == '\n' || c == '\r' || c == '\U{B}' || c == '\U{C}'
    || ('\U{1C}' <= c <= '\U{1F}') || c == '\U{85}' || c == '\U{A0}' || c == '\U{1680}'
    || ('\U{2000}' <= c <= '\U{200A}') || c == '\U{2028}' || c == '\U{2029}' || c == '\U{202F}'
    || c == '\U{205F}' || c == '\U{3000}'
  }

  predicate AllSpace(s: string) { forall i :: 0 <= i < |s| ==> IsSpace(s[i]) }

  /** A space-only prefix grows by a leading space. */
  lemma SpaceBefore(s: string, n: nat)
    requires 1 <= n <= |s| && IsSpace(s[0]) && AllSpace(s[1..][..n - 1])
    ensures AllSpace(s[..n])
  {
    forall i | 0 <= i < n
      ensures IsSpace(s[..n][i])
    {
      if i > 0 {
        assert s[..n][i] == s[1..][..n - 1][i - 1];
      }
    }
  }

  /** A space-only suffix grows by a trailing space. */
  lemma SpaceAfter(s: string, m: nat)
    requires m < |s| && IsSpace(s[|s| - 1]) && AllSpace(s[..|s| - 1][m..])
    ensures AllSpace(s[m..])
  {
    forall i | 0 <= i < |s| - m
      ensures IsSpace(s[m..][i])
    {
      if i < |s| - 1 - m {
        assert s[m..][i] == s[..|s| - 1][m..][i];
      }
    }
  }

  /** Python's `s.lstrip()`: the suffix of `s` left after dropping leading
      whitespace. */
  function LStrip(s: string): (r: string)
    ensures |r| <= |s| && r == s[|s| - |r|..]
    ensures r == [] || !IsSpace(r[0])
  {
    if s != [] && IsSpace(s[0]) then
      var r := LStrip(s[1..]);
      assert s[1..][|s| - 1 - |r|..] == s[|s| - |r|..];
      r
    else s
  }

  /** What `lstrip` drops is whitespace only. */
  lemma {:induction false} LStripDropsSpace(s: string)
    ensures AllSpace(s[..|s| - |LStrip(s)|])
    decreases |s|
  {
    if s != [] && IsSpace(s[0]) {
      LStripDropsSpace(s[1..]);
      SpaceBefore(s, |s| - |LStrip(s)|);
    }
  }

  /** Python's `s.rstrip()`: the prefix of `s` left after dropping trailing
      whitespace. */
  function RStrip(s: string): (r: string)
    ensures |r| <= |s| && r == s[..|r|]
    ensures r == [] || !IsSpace(r[|r| - 1])
  {
    if s != [] && IsSpace(s[|s| - 1]) then
      var r := RStrip(s[..|s| - 1]);
      assert s[..|s| - 1][..|r|] == s[..|r|];
      r
    else s
  }

  /** What `rstrip` drops is whitespace only. */
  lemma {:induction false} RStripDropsSpace(s: string)
    ensures AllSpace(s[|RStrip(s)|..])
    decreases |s|
  {
    if s != [] && IsSpace(s[|s| - 1]) {
      RStripDropsSpace(s[..|s| - 1]);
      SpaceAfter(s, |RStrip(s)|);
    }
  }

  /** Python's `s.strip()`: both ends of the result are non-space. */
  function Strip(s: string): (r: string)
    ensures |r| <= |s|
    ensures r == [] || (!IsSpace(r[0]) && !IsSpace(r[|r| - 1]))
  {
    var l := LStrip(s);
    var r := RStrip(l);
    assert r == [] || r[0] == l[0];
    r
  }

  /** `strip` keeps a slice of its argument and drops only whitespace
      around it. */
  lemma StripSlice(s: string) returns (i: nat, j: nat)
    ensures i <= j <= |s| && Strip(s) == s[i..j]
    ensures AllSpace(s[..i]) && AllSpace(s[j..])
  {
    var l := LStrip(s);
    var r := RStrip(l);
    i, j := |s| - |l|, |s| - |l| + |r|;
    LStripDropsSpace(s);
    RStripDropsSpace(l);
    assert r == s[i..j];
    assert s[j..] == l[|r|..];
  }

  /** Stripping keeps every occurrence of a text that neither starts nor
      ends with whitespace. */
  lemma StripKeeps(s: string, sub: string)
    requires Contains(s, sub) && sub != []
    requires !IsSpace(sub[0]) && !IsSpace(sub[|sub| - 1])
    ensures Contains(Strip(s), sub)
  {
    var k := ContainsWitness(s, sub);
    var i, j := StripAround(s, sub, k);
    ContainsInSlice(Strip(s), s, i, j, sub, k);
  }

  /** Where the stripped text lies in `s`: around every occurrence of a
      text that neither starts nor ends with whitespace. */
  lemma StripAround(s: string, sub: string, k: nat) returns (i: nat, j: nat)
    requires sub != [] && k + |sub| <= |s| && s[k..k + |sub|] == sub
    requires !IsSpace(sub[0]) && !IsSpace(sub[|sub| - 1])
    ensures i <= k && k + |sub| <= j <= |s| && Strip(s) == s[i..j]
  {
    i, j := StripSlice(s);
    OccurrenceInside(s, sub, i, j, k);
  }

  /** A slice of `s` contains every occurrence that lies inside it. */
  lemma ContainsInSlice(t: string, s: string, i: nat, j: nat, sub: string, k: nat)
    requires i <= k && k + |sub| <= j <= |s| && t == s[i..j] && s[k..k + |sub|] == sub
    ensures Contains(t, sub)
  {
    OccurrenceWithin(t, s, i, j, sub, k);
    ContainsAt(t, sub, k - i);
  }

  /** An occurrence inside `s[i..j]` is found in that slice `i` places
      earlier. */
  lemma OccurrenceWithin(t: string, s: string, i: nat, j: nat, sub: string, k: nat)
    requires i <= k && k + |sub| <= j <= |s| && t == s[i..j] && s[k..k + |sub|] == sub
    ensures k - i + |sub| <= |t| && t[k - i..k - i + |sub|] == sub
  {
    SliceOfSlice(s, i, j, k - i, k - i + |sub|);
  }

  lemma SliceOfSlice(s: string, i: nat, j: nat, a: nat, b: nat)
    requires i <= j <= |s| && a <= b <= j - i
    ensures s[i..j][a..b] == s[i + a..i + b]
  {
    assert forall n :: 0 <= n < b - a ==> s[i..j][a..b][n] == s[i + a + n];
  }

  /** Stripping a text padded with whitespace on both sides gives the
      text back when it neither starts nor ends with whitespace. */
  lemma StripPadded(pre: string, core: string, post: string)
    requires AllSpace(pre) && AllSpace(post) && core != []
    requires !IsSpace(core[0]) && !IsSpace(core[|core| - 1])
    ensures Strip(pre + core + post) == core
  {
    assert pre + core + post == pre + (core + post);
    LStripPadded(pre, core + post);
    RStripPadded(core, post);
  }

  lemma {:induction false} LStripPadded(pre: string, t: string)
    requires AllSpace(pre) && (t == [] || !IsSpace(t[0]))
    ensures LStrip(pre + t) == t
    decreases |pre|
  {
    if pre != [] {
      assert (pre + t)[0] == pre[0] && (pre + t)[1..] == pre[1..] + t;
      LStripPadded(pre[1..], t);
    } else {
      assert pre + t == t;
    }
  }

  lemma {:induction false} RStripPadded(t: string, post: string)
    requires AllSpace(post) && (t == [] || !IsSpace(t[|t| - 1]))
    ensures RStrip(t + post) == t
    decreases |post|
  {
    if post != [] {
      var n := |post| - 1;
      assert (t + post)[|t + post| - 1] == post[n];
      assert (t + post)[..|t + post| - 1] == t + post[..n];
      RStripPadded(t, post[..n]);
    } else {
      assert t + post == t;
    }
  }

  /** An occurrence that starts and ends with non-space characters lies
      between a space-only prefix and a space-only suffix. */
  lemma OccurrenceInside(s: string, sub: string, i: int, j: int, k: nat)
    requires 0 <= i <= j <= |s| && AllSpace(s[..i]) && AllSpace(s[j..])
    requires sub != [] && k + |sub| <= |s| && s[k..k + |sub|] == sub
    requires !IsSpace(sub[0]) && !IsSpace(sub[|sub| - 1])
    ensures i <= k && k + |sub| <= j
  {
    assert s[k] == sub[0] && s[k + |sub| - 1] == sub[|sub| - 1];
  }

  /** ASCII upper case to lower case; every other character unchanged. */
  function LowerChar(c: char): char
  {
    if 'A' <= c <= 'Z' then (c as int + 32) as char else c
  }

  /** Python's `s.lower()`, restricted to ASCII letters. */
  function Lower(s: string): (r: string)
    ensures |r| == |s|
    ensures forall i :: 0 <= i < |s| ==> r[i] == LowerChar(s[i])
  {
    seq(|s|, i requires 0 <= i < |s| => LowerChar(s[i]))
  }

  /** Lower-casing twice is lower-casing once. */
  lemma LowerIdempotent(s: string)
    ensures Lower(Lower(s)) == Lower(s)
  {
    assert forall i :: 0 <= i < |s| ==> LowerChar(LowerChar(s[i])) == LowerChar(s[i]);
  }

  /** What a file opened in text mode reads as: universal newlines turn
      every "\r\n" and every lone "\r" into "\n". */
  function Universal(s: string): (r: string)
    ensures |r| <= |s|
    ensures '\r' !in r
    decreases |s|
  {
    if s == [] then []
    else if s[0] == '\r' then "\n" + Universal(if |s| >= 2 && s[1] == '\n' then s[2..] else s[1..])
    else [s[0]] + Universal(s[1..])
  }

  /** Text without a carriage return reads as it is. */
  lemma {:induction false} UniversalKeeps(s: string)
    requires '\r' !in s
    ensures Universal(s) == s
    decreases |s|
  {
    if s != [] {
      assert s[0] in s;
      assert forall c :: c in s[1..] ==> c in s;
      UniversalKeeps(s[1..]);
    }
  }

  /** Reading text that was read already changes nothing more. */
  lemma UniversalIdempotent(s: string)
    ensures Universal(Universal(s)) == Universal(s)
  {
    UniversalKeeps(Universal(s));
  }

  /** A Windows line end reads as a single "\n". */
  lemma CrLfReadsAsLf()
    ensures Universal("x\r\ny") == "x\ny"
  {
    assert "x\r\ny"[1..] == "\r\ny";
    assert "\r\ny"[2..] == "y";
    assert "y"[1..] == [];
  }

  /** Every character of a contained text occurs in the containing one. */
  lemma ContainedChar(s: string, sub: string, c: char)
    requires Contains(s, sub) && c in sub
    ensures c in s
  {
    var i := ContainsWitness(s, sub);
    var j :| 0 <= j < |sub| && sub[j] == c;
    assert s[i + j] == s[i..i + |sub|][j];
  }

  /** Replacing never brings in a character that neither the text nor the
      replacement holds. */
  lemma {:induction false} ReplaceAvoids(s: string, pat: string, repl: string, c: char)
    requires c !in s && c !in repl
    ensures c !in ReplaceAll(s, pat, repl)
    decreases |s|
  {
    if pat == [] {
      InsertAvoids(s, repl, c);
    } else if IsPrefix(pat, s) {
      assert forall x :: x in s[|pat|..] ==> x in s;
      ReplaceAvoids(s[|pat|..], pat, repl, c);
    } else if s != [] {
      assert forall x :: x in s[1..] ==> x in s;
      ReplaceAvoids(s[1..], pat, repl, c);
    }
  }

  lemma {:induction false} InsertAvoids(s: string, repl: string, c: char)
    requires c !in s && c !in repl
    ensures c !in InsertEverywhere(s, repl)
  {
    if s != [] {
      assert forall x :: x in s[1..] ==> x in s;
      InsertAvoids(s[1..], repl, c);
    }
  }

  /** Python's `s[:n]` for `n >= 0`. */
  function Take(s: string, n: nat): (r: string)
    ensures |r| <= n && |r| <= |s|
    ensures IsPrefix(r, s)
    ensures |s| <= n ==> r == s
  {
    if |s| <= n then s else s[..n]
  }

  /** Python's `a <= b` on strings: code-point lexicographic order. */
  predicate LexLe(a: string, b: string)
    decreases |a|
  {
    if a == [] then true
    else if b == [] then false
    else if a[0] != b[0] then a[0] < b[0]
    else LexLe(a[1..], b[1..])
  }

  lemma {:induction false} LexReflexive(a: string)
    ensures LexLe(a, a)
    decreases |a|
  {
    if a != [] {
      LexReflexive(a[1..]);
    }
  }

  lemma {:induction false} LexTotal(a: string, b: string)
    ensures LexLe(a, b) || LexLe(b, a)
    decreases |a|
  {
    if a != [] && b != [] && a[0] == b[0] {
      LexTotal(a[1..], b[1..]);
    }
  }

  lemma {:induction false} LexTransitive(a: string, b: string, c: string)
    requires LexLe(a, b) && LexLe(b, c)
    ensures LexLe(a, c)
    decreases |a|
  {
    if a != [] && b != [] && c != [] && a[0] == b[0] && b[0] == c[0] {
      LexTransitive(a[1..], b[1..], c[1..]);
    }
  }

  lemma {:induction false} LexAntisymmetric(a: string, b: string)
    requires LexLe(a, b) && LexLe(b, a)
    ensures a == b
    decreases |a|
  {
    if a != [] && b != [] {
      LexAntisymmetric(a[1..], b[1..]);
      assert a == [a[0]] + a[1..] && b == [b[0]] + b[1..];
    }
  }

  /** Decimal rendering of a natural number, as `str(n)` prints it. */
  function NatToString(n: nat): string
  {
    if n < 10 then [DigitChar(n)] else NatToString(n / 10) + [DigitChar(n % 10)]
  }

  function DigitChar(d: nat): char
    requires d < 10
  {
    ['0', '1', '2', '3', '4', '5', '6', '7', '8', '9'][d]
  }
}
