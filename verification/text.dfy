/** The few Python `str` operations the pipeline relies on, written over
    `seq<char>`: `split`, `join`, `strip`/`lstrip`/`rstrip`, `in`,
    `replace`, `endswith`, `lower` and `upper`. The whitespace class is
    Python's full one; case mapping is ASCII-only. */
module Text {

  /** The characters Python's argument-less `strip()` removes: those for
      which `str.isspace()` holds, namely the ASCII controls 9 to 13 and
      28 to 31, the space, and the Unicode spaces and separators. */
  const Whitespace: set<char> := {
    '\t', '\n', '\U{000B}', '\U{000C}', '\r', '\U{001C}', '\U{001D}', '\U{001E}', '\U{001F}', ' ',
    '\U{0085}', '\U{00A0}', '\U{1680}', '\U{2000}', '\U{2001}', '\U{2002}', '\U{2003}', '\U{2004}',
    '\U{2005}', '\U{2006}', '\U{2007}', '\U{2008}', '\U{2009}', '\U{200A}', '\U{2028}', '\U{2029}',
    '\U{202F}', '\U{205F}', '\U{3000}'}

  predicate StartsWith(s: string, p: string) {
    |p| <= |s| && s[..|p|] == p
  }

  predicate EndsWith(s: string, p: string) {
    |p| <= |s| && s[|s| - |p|..] == p
  }

  /** `t` occurs in `s` starting at index `i`. */
  predicate OccursAt(s: string, t: string, i: int) {
    0 <= i <= |s| - |t| && s[i..i + |t|] == t
  }

  /** `t in s` for strings: `t` starts here or somewhere further on. */
  function Contains(s: string, t: string): bool
    decreases |s|
  {
    if StartsWith(s, t) then true
    else if |s| == 0 then false
    else Contains(s[1..], t)
  }

  /** `t in s` holds exactly when `t` occurs in `s` at some index. */
  lemma {:induction false} ContainsOccurs(s: string, t: string)
    ensures Contains(s, t) <==> exists i :: OccursAt(s, t, i)
    decreases |s|
  {
    if StartsWith(s, t) {
      assert OccursAt(s, t, 0);
    } else if |s| == 0 {
      assert forall i :: !OccursAt(s, t, i);
    } else {
      forall i | 0 < i && OccursAt(s, t, i) ensures OccursAt(s[1..], t, i - 1) {
        assert s[1..][i - 1..i - 1 + |t|] == s[i..i + |t|];
      }
      assert !OccursAt(s, t, 0);
      ContainsOccurs(s[1..], t);
      if Contains(s[1..], t) {
        var i :| OccursAt(s[1..], t, i);
        assert OccursAt(s, t, i + 1);
      }
    }
  }

  lemma StartsWithTrans(s: string, p: string, q: string)
    requires StartsWith(s, p) && StartsWith(p, q)
    ensures StartsWith(s, q)
  {
    assert s[..|q|] == s[..|p|][..|q|];
  }

  lemma StartsWithAppend(a: string, b: string, c: string)
    requires StartsWith(b, c)
    ensures StartsWith(a + b, a + c)
  {
    assert (a + b)[..|a + c|] == a + b[..|c|];
  }

  lemma ContainsTail(s: string, t: string)
    requires |s| > 0
    ensures Contains(s[1..], t) ==> Contains(s, t)
  {
  }

  /** `sep.join(parts)`. */
  function Join(parts: seq<string>, sep: string): string {
    if |parts| == 0 then ""
    else if |parts| == 1 then parts[0]
    else parts[0] + sep + Join(parts[1..], sep)
  }

  /** `s.split(sep)` for a one-character separator: never empty, no piece
      contains the separator, and joining the pieces back gives `s`. */
  function Split(s: string, sep: char): (parts: seq<string>)
    ensures |parts| >= 1
    ensures forall k :: 0 <= k < |parts| ==> sep !in parts[k]
    decreases |s|
  {
    if |s| == 0 then [""]
    else
      var rest := Split(s[1..], sep);
      if s[0] == sep then [""] + rest
      else [[s[0]] + rest[0]] + rest[1..]
  }

  lemma {:induction false} JoinSplit(s: string, sep: char)
    ensures Join(Split(s, sep), [sep]) == s
    decreases |s|
  {
    if |s| > 0 {
      var rest := Split(s[1..], sep);
      JoinSplit(s[1..], sep);
      if s[0] != sep {
        if |rest| > 1 {
          assert Join(rest, [sep]) == rest[0] + [sep] + Join(rest[1..], [sep]);
          assert Split(s, sep)[1..] == rest[1..];
        }
        assert [s[0]] + Join(rest, [sep]) == s;
      }
    }
  }

  /** A character in neither the pieces nor the separator is not in their
      join. */
  lemma {:induction false} JoinAvoids(parts: seq<string>, sep: string, c: char)
    requires c !in sep
    requires forall k :: 0 <= k < |parts| ==> c !in parts[k]
    ensures c !in Join(parts, sep)
    decreases |parts|
  {
    if |parts| > 1 {
      JoinAvoids(parts[1..], sep, c);
    }
  }

  lemma JoinStartsWithFirst(parts: seq<string>, sep: string)
    requires |parts| >= 1
    ensures StartsWith(Join(parts, sep), parts[0])
  {
    if |parts| > 1 {
      assert Join(parts, sep) == parts[0] + (sep + Join(parts[1..], sep));
    }
  }

  lemma {:induction false} SplitNoSep(w: string, sep: char)
    requires sep !in w
    ensures Split(w, sep) == [w]
    decreases |w|
  {
    if |w| > 0 {
      SplitNoSep(w[1..], sep);
      assert [w[0]] + w[1..] == w;
    }
  }

  lemma {:induction false} SplitAfterPiece(w: string, rest: string, sep: char)
    requires sep !in w
    ensures Split(w + [sep] + rest, sep) == [w] + Split(rest, sep)
    decreases |w|
  {
    var s := w + [sep] + rest;
    if |w| == 0 {
      assert s[1..] == rest;
    } else {
      assert s[1..] == w[1..] + [sep] + rest;
      SplitAfterPiece(w[1..], rest, sep);
      assert [w[0]] + w[1..] == w;
    }
  }

  /** Splitting a join on a separator none of the pieces contains gives
      the pieces back. */
  lemma {:induction false} SplitJoin(parts: seq<string>, sep: char)
    requires |parts| >= 1
    requires forall k :: 0 <= k < |parts| ==> sep !in parts[k]
    ensures Split(Join(parts, [sep]), sep) == parts
    decreases |parts|
  {
    if |parts| == 1 {
      SplitNoSep(parts[0], sep);
    } else {
      SplitJoin(parts[1..], sep);
      SplitAfterPiece(parts[0], Join(parts[1..], [sep]), sep);
      assert [parts[0]] + parts[1..] == parts;
    }
  }

  /** `s.lstrip(chars)`: the longest suffix of `s` that does not start with
      one of `cs`. */
  function TrimStart(s: string, cs: set<char>): (r: string)
    ensures |r| <= |s| && r == s[|s| - |r|..]
    ensures r == [] || r[0] !in cs
    ensures forall k :: 0 <= k < |s| - |r| ==> s[k] in cs
    decreases |s|
  {
    if |s| > 0 && s[0] in cs then TrimStart(s[1..], cs) else s
  }

  /** `s.rstrip(chars)`: the longest prefix of `s` that does not end with
      one of `cs`. */
  function TrimEnd(s: string, cs: set<char>): (r: string)
    ensures |r| <= |s| && r == s[..|r|]
    ensures r == [] || r[|r| - 1] !in cs
    ensures forall k :: |r| <= k < |s| ==> s[k] in cs
    decreases |s|
  {
    if |s| > 0 && s[|s| - 1] in cs then TrimEnd(s[..|s| - 1], cs) else s
  }

  /** `s.strip()`. */
  function Strip(s: string): string {
    TrimEnd(TrimStart(s, Whitespace), Whitespace)
  }

  lemma StripShape(s: string)
    ensures var r := Strip(s);
      (r == [] || (r[0] !in Whitespace && r[|r| - 1] !in Whitespace)) &&
      exists i :: OccursAt(s, r, i)
  {
    TrimShape(s, Whitespace);
  }

  /** Trimming both ends leaves a piece of `s` with no end in `cs`. */
  lemma TrimShape(s: string, cs: set<char>)
    ensures TrimEnd(TrimStart(s, cs), cs) == [] || TrimEnd(TrimStart(s, cs), cs)[0] !in cs
    ensures TrimEnd(TrimStart(s, cs), cs) == [] || TrimEnd(TrimStart(s, cs), cs)[|TrimEnd(TrimStart(s, cs), cs)| - 1] !in cs
    ensures OccursAt(s, TrimEnd(TrimStart(s, cs), cs), |s| - |TrimStart(s, cs)|)
  {
    var l := TrimStart(s, cs);
    TrimEndHead(l, cs);
    TrimPiece(s, l, TrimEnd(l, cs));
  }

  lemma TrimEndHead(l: string, cs: set<char>)
    requires l == [] || l[0] !in cs
    ensures TrimEnd(l, cs) == [] || TrimEnd(l, cs)[0] !in cs
  {
    var r := TrimEnd(l, cs);
    if r != [] {
      assert r[0] == l[0];
    }
  }

  lemma TrimPiece(s: string, l: string, r: string)
    requires |l| <= |s| && l == s[|s| - |l|..]
    requires |r| <= |l| && r == l[..|r|]
    ensures OccursAt(s, r, |s| - |l|)
  {
    var i := |s| - |l|;
    assert s[i..i + |r|] == l[..|r|];
  }

  /** A string with no surrounding whitespace is its own `strip()`. */
  lemma StripKeeps(s: string)
    requires s == [] || (s[0] !in Whitespace && s[|s| - 1] !in Whitespace)
    ensures Strip(s) == s
  {
  }

  /** Stripping twice is stripping once. */
  lemma StripIdem(s: string)
    ensures Strip(Strip(s)) == Strip(s)
  {
    StripShape(s);
    StripKeeps(Strip(s));
  }

  /** `s.replace(pat, repl)`: non-overlapping occurrences, left to right. */
  function ReplaceAll(s: string, pat: string, repl: string): string
    requires |pat| > 0
    decreases |s|
  {
    if StartsWith(s, pat) then repl + ReplaceAll(s[|pat|..], pat, repl)
    else if |s| == 0 then ""
    else [s[0]] + ReplaceAll(s[1..], pat, repl)
  }

  lemma {:induction false} ReplaceAbsent(s: string, pat: string, repl: string)
    requires |pat| > 0 && !Contains(s, pat)
    ensures ReplaceAll(s, pat, repl) == s
    decreases |s|
  {
    if |s| > 0 {
      assert !OccursAt(s, pat, 0);
      ContainsTail(s, pat);
      ReplaceAbsent(s[1..], pat, repl);
    }
  }

  lemma {:induction false} ReplacePresent(s: string, pat: string, repl: string)
    requires |pat| > 0 && Contains(s, pat)
    ensures Contains(ReplaceAll(s, pat, repl), repl)
    decreases |s|
  {
    var r := ReplaceAll(s, pat, repl);
    ContainsOccurs(r, repl);
    if StartsWith(s, pat) {
      assert OccursAt(r, repl, 0);
    } else {
      ContainsOccurs(s, pat);
      var i :| OccursAt(s, pat, i);
      assert i != 0;
      assert OccursAt(s[1..], pat, i - 1);
      ContainsOccurs(s[1..], pat);
      ReplacePresent(s[1..], pat, repl);
      var t := ReplaceAll(s[1..], pat, repl);
      ContainsOccurs(t, repl);
      var j :| OccursAt(t, repl, j);
      assert r == [s[0]] + t;
      assert OccursAt(r, repl, j + 1);
    }
  }

  /** `a` and `b` start with the same character, which occurs nowhere else
      in either, and differ in their second character; so an occurrence
      of one never overlaps an occurrence of the other. Bracketed tags
      such as `[info]` and `[download]` are separate in this sense. */
  predicate Separate(a: string, b: string) {
    && |a| >= 2 && |b| >= 2
    && a[0] == b[0] && a[1] != b[1]
    && (forall k :: 1 <= k < |a| ==> a[k] != a[0])
    && (forall k :: 1 <= k < |b| ==> b[k] != a[0])
  }

  /** Whatever follows some text still contains what it contained. */
  lemma {:induction false} ContainsAfter(p: string, s: string, t: string)
    requires Contains(s, t)
    ensures Contains(p + s, t)
    decreases |p|
  {
    if p != [] {
      assert (p + s)[1..] == p[1..] + s;
      ContainsAfter(p[1..], s, t);
    } else {
      assert p + s == s;
    }
  }

  /** With a replacement that starts like `pat`, text that does not start
      with `q` (free of that first character) does not start with `q`
      after the replacement either. */
  lemma {:induction false} ReplaceMissesPrefix(s: string, pat: string, repl: string, q: string)
    requires |pat| > 0 && |repl| > 0 && repl[0] == pat[0]
    requires forall k :: 0 <= k < |q| ==> q[k] != pat[0]
    requires !StartsWith(s, q)
    ensures !StartsWith(ReplaceAll(s, pat, repl), q)
    decreases |s|
  {
    var r := ReplaceAll(s, pat, repl);
    if StartsWith(s, pat) {
      if |q| <= |r| {
        assert r[..|q|][0] == repl[0];
      }
    } else if |s| > 0 {
      var t := ReplaceAll(s[1..], pat, repl);
      assert r == [s[0]] + t;
      if |q| > 0 && s[0] == q[0] {
        assert !StartsWith(s[1..], q[1..]) by {
          if |q| <= |s| {
            assert s[..|q|] == [s[0]] + s[1..][..|q| - 1];
            assert q == [q[0]] + q[1..];
          }
        }
        assert forall k :: 0 <= k < |q[1..]| ==> q[1..][k] == q[k + 1];
        ReplaceMissesPrefix(s[1..], pat, repl, q[1..]);
        if |q| <= |r| {
          assert r[..|q|][1..] == t[..|q| - 1];
        }
      } else if |q| > 0 && |q| <= |r| {
        assert r[..|q|][0] == s[0];
      }
    }
  }

  /** Text that starts with `q` but not with `pat` still starts with `q`
      after the replacement, when `pat`'s first character does not occur
      in `q` after its head. */
  lemma {:induction false} ReplaceKeepsPrefix(s: string, pat: string, repl: string, q: string)
    requires |pat| > 0
    requires StartsWith(s, q) && !StartsWith(s, pat)
    requires forall k :: 1 <= k < |q| ==> q[k] != pat[0]
    ensures StartsWith(ReplaceAll(s, pat, repl), q)
    decreases |s|
  {
    if |q| > 0 {
      var t := ReplaceAll(s[1..], pat, repl);
      assert ReplaceAll(s, pat, repl) == [s[0]] + t;
      if |q| > 1 {
        assert s[1..][0] == q[1];
        ReplaceKeepsPrefix(s[1..], pat, repl, q[1..]);
        assert q == [q[0]] + q[1..];
      }
    }
  }

  /** Replacing every `pat` by a separate `repl` leaves no `pat`. */
  lemma {:induction false} ReplaceRemoves(s: string, pat: string, repl: string)
    requires Separate(pat, repl)
    ensures !Contains(ReplaceAll(s, pat, repl), pat)
    decreases |s|
  {
    var r := ReplaceAll(s, pat, repl);
    ContainsOccurs(r, pat);
    if StartsWith(s, pat) {
      var t := ReplaceAll(s[|pat|..], pat, repl);
      ReplaceRemoves(s[|pat|..], pat, repl);
      ContainsOccurs(t, pat);
      NoneAfterReplacement(pat, repl, t);
    } else if |s| > 0 {
      var t := ReplaceAll(s[1..], pat, repl);
      ReplaceRemoves(s[1..], pat, repl);
      ContainsOccurs(t, pat);
      NoneAfterKept(s, pat, repl);
    }
  }

  /** A separate replacement followed by text without `pat` holds no `pat`. */
  lemma NoneAfterReplacement(pat: string, repl: string, t: string)
    requires Separate(pat, repl)
    requires forall i :: !OccursAt(t, pat, i)
    ensures forall i :: !OccursAt(repl + t, pat, i)
  {
    var r := repl + t;
    forall i | 0 <= i <= |r| - |pat| ensures !OccursAt(r, pat, i) {
      if i >= |repl| {
        assert r[i..i + |pat|] == t[i - |repl|..i - |repl| + |pat|];
        assert !OccursAt(t, pat, i - |repl|);
      } else if i == 0 {
        assert r[i..i + |pat|][1] == repl[1];
      } else {
        assert r[i..i + |pat|][0] == repl[i];
      }
    }
  }

  /** A kept first character followed by the replaced rest holds no
      `pat`, when the rest holds none. */
  lemma NoneAfterKept(s: string, pat: string, repl: string)
    requires Separate(pat, repl)
    requires |s| > 0 && !StartsWith(s, pat)
    requires forall i :: !OccursAt(ReplaceAll(s[1..], pat, repl), pat, i)
    ensures forall i :: !OccursAt([s[0]] + ReplaceAll(s[1..], pat, repl), pat, i)
  {
    var t := ReplaceAll(s[1..], pat, repl);
    var r := [s[0]] + t;
    forall i | 0 <= i <= |r| - |pat| ensures !OccursAt(r, pat, i) {
      if i > 0 {
        assert r[i..i + |pat|] == t[i - 1..i - 1 + |pat|];
        assert !OccursAt(t, pat, i - 1);
      } else if s[0] != pat[0] {
        assert r[i..i + |pat|][0] == s[0];
      } else {
        assert !StartsWith(s[1..], pat[1..]) by {
          if |pat| <= |s| {
            assert s[..|pat|] == [s[0]] + s[1..][..|pat| - 1];
            assert pat == [pat[0]] + pat[1..];
          }
        }
        ReplaceMissesPrefix(s[1..], pat, repl, pat[1..]);
        assert r[i..i + |pat|][1..] == t[..|pat| - 1];
      }
    }
  }

  /** No occurrence of `other` starts inside a leading `pat` separate
      from it. */
  lemma NoOverlap(s: string, pat: string, other: string)
    requires Separate(pat, other) && StartsWith(s, pat)
    ensures forall i :: 0 <= i < |pat| ==> !OccursAt(s, other, i)
  {
    forall i | 0 <= i < |pat| && i <= |s| - |other| ensures !OccursAt(s, other, i) {
      if i == 0 {
        assert s[i..i + |other|][1] == pat[1];
      } else {
        assert s[i..i + |other|][0] == pat[i];
      }
    }
  }

  /** Replacing `pat` keeps every tag separate from it. */
  lemma {:induction false} ReplaceKeeps(s: string, pat: string, repl: string, other: string)
    requires Separate(pat, other) && Contains(s, other)
    ensures Contains(ReplaceAll(s, pat, repl), other)
    decreases |s|
  {
    ContainsOccurs(s, other);
    var i :| OccursAt(s, other, i);
    if StartsWith(s, pat) {
      NoOverlap(s, pat, other);
      var rest := s[|pat|..];
      assert OccursAt(rest, other, i - |pat|);
      ContainsOccurs(rest, other);
      ReplaceKeeps(rest, pat, repl, other);
      ContainsAfter(repl, ReplaceAll(rest, pat, repl), other);
    } else {
      var t := ReplaceAll(s[1..], pat, repl);
      assert ReplaceAll(s, pat, repl) == [s[0]] + t;
      if i == 0 {
        ReplaceKeepsPrefix(s, pat, repl, other);
      } else {
        assert OccursAt(s[1..], other, i - 1);
        ContainsOccurs(s[1..], other);
        ReplaceKeeps(s[1..], pat, repl, other);
        ContainsAfter([s[0]], t, other);
      }
    }
  }

  /** No character `a` is immediately followed by `b` in `s`. */
  predicate NoPair(s: string, a: char, b: char) {
    forall i :: 0 <= i < |s| - 1 ==> !(s[i] == a && s[i + 1] == b)
  }

  lemma NoPairCons(h: char, t: string, a: char, b: char)
    requires NoPair(t, a, b) && (t == [] || !(h == a && t[0] == b))
    ensures NoPair([h] + t, a, b)
  {
    var s := [h] + t;
    forall i | 0 <= i < |s| - 1 ensures !(s[i] == a && s[i + 1] == b) {
      if i > 0 { assert s[i] == t[i - 1] && s[i + 1] == t[i]; }
    }
  }

  /** The first character of a replacement is the first character of the
      input, unless the input starts with the pattern. */
  lemma ReplaceHead(s: string, pat: string, c: char)
    requires |pat| > 0 && |s| > 0
    ensures var r := ReplaceAll(s, pat, [c]);
      |r| > 0 && r[0] == (if StartsWith(s, pat) then c else s[0])
  {
  }

  /** Replacing the two-character pattern `[a, b]` by one character `c`
      that is neither `a` nor `b` leaves no `a` followed by `b`. */
  lemma {:induction false} ReplaceRemovesPair(s: string, a: char, b: char, c: char)
    requires a != b && c != a && c != b
    ensures NoPair(ReplaceAll(s, [a, b], [c]), a, b)
    decreases |s|
  {
    var r := ReplaceAll(s, [a, b], [c]);
    if StartsWith(s, [a, b]) {
      ReplaceRemovesPair(s[2..], a, b, c);
      NoPairCons(c, ReplaceAll(s[2..], [a, b], [c]), a, b);
    } else if |s| > 0 {
      var t := ReplaceAll(s[1..], [a, b], [c]);
      ReplaceRemovesPair(s[1..], a, b, c);
      if |s[1..]| > 0 { ReplaceHead(s[1..], [a, b], c); }
      if |s| >= 2 && s[0] == a {
        assert s[1] != b by { assert s[..2] == [s[0], s[1]]; }
      }
      NoPairCons(s[0], t, a, b);
    }
  }

  /** Replacing `[a, b]` by a character `c` other than `a` and `x` keeps a
      string free of `a` followed by `x`, when `b` is not `x`. */
  lemma {:induction false} ReplaceKeepsNoPair(s: string, a: char, b: char, c: char, x: char)
    requires NoPair(s, a, x) && c != a && c != x && b != x
    ensures NoPair(ReplaceAll(s, [a, b], [c]), a, x)
    decreases |s|
  {
    if StartsWith(s, [a, b]) {
      assert NoPair(s[2..], a, x) by {
        forall i | 0 <= i < |s[2..]| - 1 ensures !(s[2..][i] == a && s[2..][i + 1] == x) {
          assert s[2..][i] == s[i + 2] && s[2..][i + 1] == s[i + 3];
        }
      }
      ReplaceKeepsNoPair(s[2..], a, b, c, x);
      NoPairCons(c, ReplaceAll(s[2..], [a, b], [c]), a, x);
    } else if |s| > 0 {
      assert NoPair(s[1..], a, x) by {
        forall i | 0 <= i < |s[1..]| - 1 ensures !(s[1..][i] == a && s[1..][i + 1] == x) {
          assert s[1..][i] == s[i + 1] && s[1..][i + 1] == s[i + 2];
        }
      }
      ReplaceKeepsNoPair(s[1..], a, b, c, x);
      var t := ReplaceAll(s[1..], [a, b], [c]);
      if |s[1..]| > 0 { ReplaceHead(s[1..], [a, b], c); }
      NoPairCons(s[0], t, a, x);
    }
  }

  /** `str(n)` for a natural number. */
  function Digits(n: nat): (r: string)
    ensures |r| >= 1
    decreases n
  {
    var d := ['0', '1', '2', '3', '4', '5', '6', '7', '8', '9'][n % 10];
    if n < 10 then [d] else Digits(n / 10) + [d]
  }

  /** `str(n)` for an integer. */
  function IntText(n: int): string {
    if n < 0 then "-" + Digits(-n) else Digits(n)
  }

  function LowerChar(c: char): char {
    if 'A' <= c <= 'Z' then (c as int + 32) as char else c
  }

  function UpperChar(c: char): char {
    if 'a' <= c <= 'z' then (c as int - 32) as char else c
  }

  /** `s.lower()` (ASCII letters only). */
  function Lower(s: string): (r: string)
    ensures |r| == |s|
    ensures forall k :: 0 <= k < |s| ==> r[k] == LowerChar(s[k])
  {
    seq(|s|, k requires 0 <= k < |s| => LowerChar(s[k]))
  }

  /** `s.upper()` (ASCII letters only). */
  function Upper(s: string): (r: string)
    ensures |r| == |s|
    ensures forall k :: 0 <= k < |s| ==> r[k] == UpperChar(s[k])
  {
    seq(|s|, k requires 0 <= k < |s| => UpperChar(s[k]))
  }
}
