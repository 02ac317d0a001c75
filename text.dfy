/** The fragment of Python's `str` semantics the validators and the retry
    strategy rely on: `strip`, `lower`, `upper`, `in`, `count`, `split`,
    `join`, `rfind` and the decimal rendering of integers in f-strings. */
module Text {

  // ---------------------------------------------------------------------------
  // Whitespace and strip()
  // ---------------------------------------------------------------------------

  /** Python's `str.isspace()` for one character: exactly the characters that
      `str.strip()` with no argument removes. */
  predicate IsSpace(c: char) {
    ('\t' <= c <= '\r') || ('\U{1c}' <= c <= ' ') || c == '\U{85}' || c == '\U{a0}'
    || c == '\U{1680}' || ('\U{2000}' <= c <= '\U{200a}') || c == '\U{2028}'
    || c == '\U{2029}' || c == '\U{202f}' || c == '\U{205f}' || c == '\U{3000}'
  }

  /** True when every character of `s` is whitespace. */
  predicate AllSpace(s: string) {
    forall k :: 0 <= k < |s| ==> IsSpace(s[k])
  }

  /** `s.lstrip()`: drops the leading whitespace. */
  function TrimLeft(s: string): (r: string)
    ensures |r| <= |s|
    ensures r == [] || !IsSpace(r[0])
    decreases |s|
  {
    if s != [] && IsSpace(s[0]) then TrimLeft(s[1..]) else s
  }

  /** `s.rstrip()`: drops the trailing whitespace. */
  function TrimRight(s: string): (r: string)
    ensures |r| <= |s|
    ensures r == [] || !IsSpace(r[|r| - 1])
    decreases |s|
  {
    if s != [] && IsSpace(s[|s| - 1]) then TrimRight(s[..|s| - 1]) else s
  }

  /** What `lstrip()` keeps is a suffix of `s`, after whitespace only. */
  lemma {:induction false} TrimLeftSuffix(s: string)
    ensures TrimLeft(s) == s[|s| - |TrimLeft(s)|..]
    ensures AllSpace(s[..|s| - |TrimLeft(s)|])
    decreases |s|
  {
    if s != [] && IsSpace(s[0]) {
      TrimLeftSuffix(s[1..]);
      assert s[1..][|s| - 1 - |TrimLeft(s)|..] == s[|s| - |TrimLeft(s)|..];
      assert s[..|s| - |TrimLeft(s)|] == [s[0]] + s[1..][..|s| - 1 - |TrimLeft(s)|];
    }
  }

  /** What `rstrip()` keeps is a prefix of `s`, before whitespace only. */
  lemma {:induction false} TrimRightPrefix(s: string)
    ensures TrimRight(s) == s[..|TrimRight(s)|]
    ensures AllSpace(s[|TrimRight(s)|..])
    decreases |s|
  {
    if s != [] && IsSpace(s[|s| - 1]) {
      TrimRightPrefix(s[..|s| - 1]);
      assert s[|TrimRight(s)|..] == s[..|s| - 1][|TrimRight(s)|..] + [s[|s| - 1]];
    }
  }

  /** `s.strip()`: neither end of the result is whitespace. */
  function Strip(s: string): (r: string)
    ensures |r| <= |s|
    ensures r == [] || (!IsSpace(r[0]) && !IsSpace(r[|r| - 1]))
  {
    TrimRightPrefix(TrimLeft(s));
    TrimRight(TrimLeft(s))
  }

  /** `strip()` removes leading and trailing whitespace and nothing else:
      `s` is whitespace, then `Strip(s)`, then whitespace. */
  lemma StripMeaning(s: string)
    ensures var k := |s| - |TrimLeft(s)|;
      && k + |Strip(s)| <= |s|
      && s == s[..k] + Strip(s) + s[k + |Strip(s)|..]
      && AllSpace(s[..k]) && AllSpace(s[k + |Strip(s)|..])
  {
    var l := TrimLeft(s);
    var k := |s| - |l|;
    var r := Strip(s);
    TrimLeftSuffix(s);
    TrimRightPrefix(l);
    SpliceMiddle(s, k, r);
  }

  /** A middle piece `m` found at offset `k` of `s` cuts `s` into three. */
  lemma SpliceMiddle(s: string, k: nat, m: string)
    requires k + |m| <= |s| && s[k..][..|m|] == m
    ensures s == s[..k] + m + s[k + |m|..]
  {
    assert s[k..k + |m|] == m;
  }

  /** A string that begins and ends with non-whitespace is its own `strip()`. */
  lemma StripFixed(s: string)
    requires s == [] || (!IsSpace(s[0]) && !IsSpace(s[|s| - 1]))
    ensures Strip(s) == s
  {
  }

  /** `strip()` is idempotent. */
  lemma StripIdempotent(s: string)
    ensures Strip(Strip(s)) == Strip(s)
  {
    StripFixed(Strip(s));
  }

  /** Leading whitespace never changes what `lstrip()` keeps. */
  lemma {:induction false} TrimLeftSpacePrefix(w: string, s: string)
    requires AllSpace(w)
    ensures TrimLeft(w + s) == TrimLeft(s)
    decreases |w|
  {
    if w != [] {
      assert (w + s)[1..] == w[1..] + s;
      TrimLeftSpacePrefix(w[1..], s);
    } else {
      assert w + s == s;
    }
  }

  /** Leading whitespace never changes what `strip()` keeps. */
  lemma StripSpacePrefix(w: string, s: string)
    requires AllSpace(w)
    ensures Strip(w + s) == Strip(s)
  {
    TrimLeftSpacePrefix(w, s);
  }

  /** Stripping never introduces a character. */
  lemma StripKeepsAbsent(s: string, c: char)
    requires c !in s
    ensures c !in Strip(s)
  {
    var l := TrimLeft(s);
    TrimLeftSuffix(s);
    TrimRightPrefix(l);
    var r := Strip(s);
    assert forall k :: 0 <= k < |r| ==> r[k] == s[|s| - |l| + k];
  }

  /** All the elements of `parts`, each stripped (`[p.strip() for p in parts]`). */
  function StripAll(parts: seq<string>): (r: seq<string>)
    ensures |r| == |parts|
    ensures forall k :: 0 <= k < |r| ==> r[k] == Strip(parts[k])
  {
    seq(|parts|, k requires 0 <= k < |parts| => Strip(parts[k]))
  }

  // ---------------------------------------------------------------------------
  // Case mapping (ASCII letters only)
  // ---------------------------------------------------------------------------

  /** `c.lower()` for the ASCII letters; every other character is unchanged. */
  function LowerChar(c: char): (r: char)
    ensures !('A' <= r <= 'Z')
    ensures !('A' <= c <= 'Z') ==> r == c
  {
    if 'A' <= c <= 'Z' then (c as int + 32) as char else c
  }

  /** `c.upper()` for the ASCII letters; every other character is unchanged. */
  function UpperChar(c: char): (r: char)
    ensures !('a' <= r <= 'z')
    ensures !('a' <= c <= 'z') ==> r == c
  {
    if 'a' <= c <= 'z' then (c as int - 32) as char else c
  }

  /** `s.lower()`, character by character. */
  function Lower(s: string): (r: string)
    ensures |r| == |s|
    ensures forall k :: 0 <= k < |s| ==> r[k] == LowerChar(s[k])
  {
    seq(|s|, k requires 0 <= k < |s| => LowerChar(s[k]))
  }

  /** `s.upper()`, character by character. */
  function Upper(s: string): (r: string)
    ensures |r| == |s|
    ensures forall k :: 0 <= k < |s| ==> r[k] == UpperChar(s[k])
  {
    seq(|s|, k requires 0 <= k < |s| => UpperChar(s[k]))
  }

  lemma LowerConcat(a: string, b: string)
    ensures Lower(a + b) == Lower(a) + Lower(b)
  {
    assert forall k :: 0 <= k < |a + b| ==> Lower(a + b)[k] == (Lower(a) + Lower(b))[k];
  }

  lemma UpperIdempotent(s: string)
    ensures Upper(Upper(s)) == Upper(s)
  {
    assert forall k :: 0 <= k < |s| ==> Upper(Upper(s))[k] == Upper(s)[k];
  }

  // ---------------------------------------------------------------------------
  // Substrings: `w in s`
  // ---------------------------------------------------------------------------

  /** `s.startswith(prefix)`. */
  predicate StartsWith(s: string, prefix: string) {
    |prefix| <= |s| && s[..|prefix|] == prefix
  }

  /** `w in s` (equivalently `s.count(w) > 0`): some position of `s` starts a copy of `w`. */
  predicate Contains(s: string, w: string)
    decreases |s|
  {
    StartsWith(s, w) || (s != [] && Contains(s[1..], w))
  }

  /** A copy of `w` at position `i` of `s` is found by `Contains`. */
  lemma {:induction false} ContainsAt(s: string, w: string, i: nat)
    requires i + |w| <= |s| && s[i..i + |w|] == w
    ensures Contains(s, w)
    decreases i
  {
    if i > 0 {
      assert s[1..][i - 1..i - 1 + |w|] == s[i..i + |w|];
      ContainsAt(s[1..], w, i - 1);
    } else {
      assert s[..|w|] == s[0..|w|];
    }
  }

  /** `Contains` holds only when some position of `s` starts a copy of `w`. */
  lemma {:induction false} ContainsWitness(s: string, w: string) returns (i: nat)
    requires Contains(s, w)
    ensures i + |w| <= |s| && s[i..i + |w|] == w
    decreases |s|
  {
    if StartsWith(s, w) {
      i := 0;
      assert s[0..|w|] == s[..|w|];
    } else {
      var j := ContainsWitness(s[1..], w);
      i := j + 1;
      assert s[1..][j..j + |w|] == s[i..i + |w|];
    }
  }

  /** A copy of `w` in `a` is still there once anything is appended. */
  lemma ContainsInPrefix(a: string, b: string, w: string)
    requires Contains(a, w)
    ensures Contains(a + b, w)
  {
    var i := ContainsWitness(a, w);
    assert (a + b)[i..i + |w|] == a[i..i + |w|];
    ContainsAt(a + b, w, i);
  }

  /** A copy of `w` in `b` is still there once anything is prepended. */
  lemma ContainsInSuffix(a: string, b: string, w: string)
    requires Contains(b, w)
    ensures Contains(a + b, w)
  {
    var i := ContainsWitness(b, w);
    assert (a + b)[|a| + i..|a| + i + |w|] == b[i..i + |w|];
    ContainsAt(a + b, w, |a| + i);
  }

  /** A copy of `w` in `a + u + b` lies in `a`, lies in `b`, or overlaps `u`,
      in which case `w` shares a character with `u`. */
  lemma ContainsAcross(a: string, u: string, b: string, w: string)
    requires |u| >= 1 && |w| >= 1
    requires Contains(a + u + b, w)
    ensures Contains(a, w) || Contains(b, w) || exists k :: 0 <= k < |w| && w[k] in u
  {
    var i := ContainsWitness(a + u + b, w);
    if i + |w| <= |a| {
      CopyInLeft(a, u, b, w, i);
    } else if i >= |a| + |u| {
      CopyInRight(a, u, b, w, i);
    } else {
      var k := CopyMeetsMiddle(a, u, b, w, i);
    }
  }

  /** A copy that ends within `a` is a copy in `a`. */
  lemma CopyInLeft(a: string, u: string, b: string, w: string, i: nat)
    requires i + |w| <= |a| && (a + u + b)[i..i + |w|] == w
    ensures Contains(a, w)
  {
    assert a[i..i + |w|] == (a + u + b)[i..i + |w|];
    ContainsAt(a, w, i);
  }

  /** A copy that starts after `a + u` is a copy in `b`. */
  lemma CopyInRight(a: string, u: string, b: string, w: string, i: nat)
    requires |a| + |u| <= i && i + |w| <= |a + u + b| && (a + u + b)[i..i + |w|] == w
    ensures Contains(b, w)
  {
    var s, d := a + u + b, |a| + |u|;
    assert s[d..] == b;
    SliceOfDrop(s, d, i - d, |w|);
    ContainsAt(b, w, i - d);
  }

  /** A copy that overlaps `u` shares one of its characters. */
  lemma CopyMeetsMiddle(a: string, u: string, b: string, w: string, i: nat) returns (k: nat)
    requires |u| >= 1 && |w| >= 1 && i < |a| + |u| && |a| < i + |w| && i + |w| <= |a + u + b|
    requires (a + u + b)[i..i + |w|] == w
    ensures k < |w| && w[k] in u
  {
    var s := a + u + b;
    var j := if i < |a| then |a| else i;
    assert s[j] == u[j - |a|];
    k := j - i;
    assert w[k] == s[j];
  }

  /** Texts with the same beginning and end agree in the middle. */
  lemma MiddleCancel(p: string, h: string, x: string, y: string, t: string)
    requires p + (h + x + t) == p + (h + y + t)
    ensures x == y
  {
    var n := |p| + |h|;
    assert |x| == |y|;
    assert x == (p + (h + x + t))[n..n + |x|];
    assert y == (p + (h + y + t))[n..n + |y|];
  }

  /** A copy of `w` after lower-casing a part of `s` is a copy after lower-casing
      all of `s`, for the two kinds of parts `strip()` and `split()` produce. */
  lemma LowerContainsInPrefix(s: string, n: nat, w: string)
    requires n <= |s| && Contains(Lower(s[..n]), w)
    ensures Contains(Lower(s), w)
  {
    assert s == s[..n] + s[n..];
    LowerConcat(s[..n], s[n..]);
    ContainsInPrefix(Lower(s[..n]), Lower(s[n..]), w);
  }

  lemma LowerContainsInSuffix(s: string, n: nat, w: string)
    requires n <= |s| && Contains(Lower(s[n..]), w)
    ensures Contains(Lower(s), w)
  {
    assert s == s[..n] + s[n..];
    LowerConcat(s[..n], s[n..]);
    ContainsInSuffix(Lower(s[..n]), Lower(s[n..]), w);
  }

  /** Stripping never creates a (case-insensitive) occurrence of a word. */
  lemma StripContains(s: string, w: string)
    requires Contains(Lower(Strip(s)), w)
    ensures Contains(Lower(s), w)
  {
    var l := TrimLeft(s);
    TrimLeftSuffix(s);
    TrimRightPrefix(l);
    var a, r := |s| - |l|, Strip(s);
    SliceOfDrop(s, a, 0, |r|);
    assert r == s[a..a + |r|];
    LowerContainsInSlice(s, a, a + |r|, w);
  }

  // ---------------------------------------------------------------------------
  // count(), find() and rfind() for one character
  // ---------------------------------------------------------------------------

  /** `s.count(c)` for a one-character `c`. */
  function CountChar(s: string, c: char): nat
    decreases |s|
  {
    if s == [] then 0 else (if s[0] == c then 1 else 0) + CountChar(s[1..], c)
  }

  lemma {:induction false} CountCharConcat(a: string, b: string, c: char)
    ensures CountChar(a + b, c) == CountChar(a, c) + CountChar(b, c)
    decreases |a|
  {
    if a == [] {
      assert a + b == b;
    } else {
      assert (a + b)[1..] == a[1..] + b;
      CountCharConcat(a[1..], b, c);
    }
  }

  lemma {:induction false} CountCharAbsent(s: string, c: char)
    ensures CountChar(s, c) == 0 <==> c !in s
    decreases |s|
  {
    if s != [] {
      CountCharAbsent(s[1..], c);
      assert s == [s[0]] + s[1..];
    }
  }

  /** `s.rfind(c)`: the last position holding `c`, or -1 when there is none. */
  function RFind(s: string, c: char): (i: int)
    ensures -1 <= i < |s|
    ensures i == -1 ==> c !in s
    ensures 0 <= i ==> s[i] == c && c !in s[i + 1..]
    decreases |s|
  {
    if s == [] then -1
    else if s[|s| - 1] == c then |s| - 1
    else
      var init := s[..|s| - 1];
      var i := RFind(init, c);
      assert s == init + [s[|s| - 1]];
      assert 0 <= i ==> s[i + 1..] == init[i + 1..] + [s[|s| - 1]];
      i
  }

  /** The position `rfind` reports is determined by where the last `c` is. */
  lemma RFindAt(x: string, y: string, c: char)
    requires c !in y
    ensures RFind(x + [c] + y, c) == |x|
  {
    var s := x + [c] + y;
    var i := RFind(s, c);
    assert s[|x|] == c;
  }

  // ---------------------------------------------------------------------------
  // split() and join()
  // ---------------------------------------------------------------------------

  /** `s.split(sep)` for a one-character separator: the pieces between the
      occurrences of `sep`, one more piece than there are separators. */
  function Split(s: string, sep: char): (parts: seq<string>)
    ensures |parts| == CountChar(s, sep) + 1
    ensures forall k :: 0 <= k < |parts| ==> sep !in parts[k]
    decreases |s|
  {
    if s == [] then [""]
    else
      var rest := Split(s[1..], sep);
      if s[0] == sep then [""] + rest
      else
        assert sep !in [s[0]] + rest[0];
        [[s[0]] + rest[0]] + rest[1..]
  }

  /** Every piece `split()` returns is a slice of `s`, found at `off`; the
      first piece starts `s`. */
  lemma {:induction false} SplitSlice(s: string, sep: char, k: nat) returns (off: nat)
    requires k < |Split(s, sep)|
    ensures off + |Split(s, sep)[k]| <= |s| && s[off..off + |Split(s, sep)[k]|] == Split(s, sep)[k]
    ensures k == 0 ==> off == 0
    decreases |s|
  {
    if s == [] {
      off := 0;
      assert Split(s, sep) == [""];
    } else {
      var parts, rest := Split(s, sep), Split(s[1..], sep);
      if s[0] == sep {
        if k == 0 {
          off := 0;
          assert parts[0] == "";
        } else {
          var j := SplitSlice(s[1..], sep, k - 1);
          off := j + 1;
          var piece := rest[k - 1];
          assert parts[k] == piece;
          SliceOfDrop(s, 1, j, |piece|);
        }
      } else if k == 0 {
        off := 0;
        var j := SplitSlice(s[1..], sep, 0);
        var piece := rest[0];
        assert parts[0] == [s[0]] + piece;
        assert s[1..][0..|piece|] == piece;
        assert s[0..|piece| + 1] == [s[0]] + s[1..][0..|piece|];
      } else {
        var j := SplitSlice(s[1..], sep, k);
        off := j + 1;
        var piece := rest[k];
        assert parts[k] == piece;
        SliceOfDrop(s, 1, j, |piece|);
      }
    }
  }

  lemma SliceOfDrop(s: string, d: nat, j: nat, n: nat)
    requires d + j + n <= |s|
    ensures s[d..][j..j + n] == s[d + j..d + j + n]
  {
  }

  /** A copy of `w` after lower-casing a slice of `s` is one after
      lower-casing all of `s`. */
  lemma LowerContainsInSlice(s: string, a: nat, b: nat, w: string)
    requires a <= b <= |s| && Contains(Lower(s[a..b]), w)
    ensures Contains(Lower(s), w)
  {
    assert s[a..b] == s[..b][a..];
    LowerContainsInSuffix(s[..b], a, w);
    LowerContainsInPrefix(s, b, w);
  }

  /** Every piece `split()` returns is a piece of `s`, so an occurrence of a
      word (after lower-casing) in a piece is one in `s`. */
  lemma SplitContains(s: string, sep: char, k: nat, w: string)
    requires k < |Split(s, sep)| && Contains(Lower(Split(s, sep)[k]), w)
    ensures Contains(Lower(s), w)
  {
    var off := SplitSlice(s, sep, k);
    LowerContainsInSlice(s, off, off + |Split(s, sep)[k]|, w);
  }

  /** A string without the separator is a single piece. */
  lemma {:induction false} SplitAbsent(s: string, sep: char)
    requires sep !in s
    ensures Split(s, sep) == [s]
    decreases |s|
  {
    if s != [] {
      assert sep !in s[1..];
      SplitAbsent(s[1..], sep);
      assert [s[0]] + s[1..] == s;
    }
  }

  /** Splitting at a first separator: the piece before it, then the split of the rest. */
  lemma {:induction false} SplitCons(x: string, y: string, sep: char)
    requires sep !in x
    ensures Split(x + [sep] + y, sep) == [x] + Split(y, sep)
    decreases |x|
  {
    var s := x + [sep] + y;
    if x == [] {
      assert s[1..] == y;
    } else {
      assert s[1..] == x[1..] + [sep] + y;
      SplitCons(x[1..], y, sep);
      assert [x[0]] + x[1..] == x;
    }
  }

  /** `sep.join(parts)`. */
  function Join(parts: seq<string>, sep: string): string
    decreases |parts|
  {
    if parts == [] then ""
    else if |parts| == 1 then parts[0]
    else parts[0] + sep + Join(parts[1..], sep)
  }

  /** Joining pieces free of `c` with a separator holding `c` once yields one
      `c` per separator. */
  lemma {:induction false} JoinCount(parts: seq<string>, sep: string, c: char)
    requires |parts| >= 1 && CountChar(sep, c) == 1
    requires forall k :: 0 <= k < |parts| ==> c !in parts[k]
    ensures CountChar(Join(parts, sep), c) == |parts| - 1
    decreases |parts|
  {
    CountCharAbsent(parts[0], c);
    if |parts| > 1 {
      JoinCount(parts[1..], sep, c);
      CountCharConcat(parts[0] + sep, Join(parts[1..], sep), c);
      CountCharConcat(parts[0], sep, c);
    }
  }

  /** The last character of a join is the last character of the last piece. */
  lemma {:induction false} JoinLast(parts: seq<string>, sep: string)
    requires |parts| >= 1 && parts[|parts| - 1] != []
    ensures |Join(parts, sep)| >= |parts[|parts| - 1]|
    ensures Join(parts, sep)[|Join(parts, sep)| - 1] == parts[|parts| - 1][|parts[|parts| - 1]| - 1]
    decreases |parts|
  {
    if |parts| > 1 {
      JoinLast(parts[1..], sep);
    }
  }

  /** A copy of a word that shares no character with the separator, found in
      the lower-cased join, is found in one lower-cased piece. */
  lemma {:induction false} JoinContains(parts: seq<string>, sep: string, w: string) returns (k: nat)
    requires |parts| >= 1 && |sep| >= 1 && |w| >= 1
    requires forall j :: 0 <= j < |w| ==> w[j] !in Lower(sep)
    requires Contains(Lower(Join(parts, sep)), w)
    ensures k < |parts| && Contains(Lower(parts[k]), w)
    decreases |parts|
  {
    if |parts| == 1 {
      k := 0;
    } else {
      var rest := Join(parts[1..], sep);
      LowerConcat(parts[0] + sep, rest);
      LowerConcat(parts[0], sep);
      ContainsAcross(Lower(parts[0]), Lower(sep), Lower(rest), w);
      if Contains(Lower(parts[0]), w) {
        k := 0;
      } else {
        var j := JoinContains(parts[1..], sep, w);
        k := j + 1;
      }
    }
  }

  // ---------------------------------------------------------------------------
  // Integers in f-strings
  // ---------------------------------------------------------------------------

  function DigitChar(d: nat): (c: char)
    requires d < 10
    ensures '0' <= c <= '9'
  {
    ('0' as int + d) as char
  }

  /** The decimal digits of `n`, most significant first. */
  function NatToString(n: nat): (r: string)
    ensures |r| >= 1
    ensures forall k :: 0 <= k < |r| ==> '0' <= r[k] <= '9'
  {
    if n < 10 then [DigitChar(n)] else NatToString(n / 10) + [DigitChar(n % 10)]
  }

  /** `str(i)` for an integer: an optional minus sign and the decimal digits. */
  function IntToString(i: int): (r: string)
    ensures |r| >= 1
    ensures i >= 0 ==> forall k :: 0 <= k < |r| ==> '0' <= r[k] <= '9'
  {
    if i < 0 then "-" + NatToString(-i) else NatToString(i)
  }

  // ---------------------------------------------------------------------------
  // Splitting what was joined
  // ---------------------------------------------------------------------------

  lemma NoCommaInSpace(pre: string)
    requires AllSpace(pre)
    ensures ',' !in pre
  {
    forall k | 0 <= k < |pre| ensures pre[k] != ',' {
      assert IsSpace(pre[k]);
    }
  }

  /** A join with ", " after `x`, as a separator and what follows it. */
  lemma JoinCommaStep(pre: string, parts: seq<string>)
    requires |parts| >= 2
    ensures pre + Join(parts, ", ") == (pre + parts[0]) + [','] + (" " + Join(parts[1..], ", "))
  {
    var rest := Join(parts[1..], ", ");
    assert Join(parts, ", ") == parts[0] + ", " + rest;
    assert ", " == [','] + " ";
    Regroup(pre, parts[0], [','], " ", rest);
  }

  /** Moving the brackets of a five-piece concatenation. */
  lemma Regroup(a: string, b: string, c: string, d: string, e: string)
    ensures a + (b + (c + d) + e) == (a + b) + c + (d + e)
  {
  }

  /** The pieces `split(',')` finds in `pre + ", ".join(parts)`: the first
      behind `pre`, every later one behind the blank that follows a comma. */
  function Spaced(pre: string, parts: seq<string>): (r: seq<string>)
    ensures |r| == |parts|
  {
    seq(|parts|, k requires 0 <= k < |parts| => (if k == 0 then pre else " ") + parts[k])
  }

  lemma {:induction false} SplitJoin(pre: string, parts: seq<string>)
    requires ',' !in pre && |parts| >= 1
    requires forall k :: 0 <= k < |parts| ==> ',' !in parts[k]
    ensures Split(pre + Join(parts, ", "), ',') == Spaced(pre, parts)
    decreases |parts|
  {
    var x := pre + parts[0];
    assert ',' !in x;
    if |parts| == 1 {
      assert pre + Join(parts, ", ") == x;
      SplitAbsent(x, ',');
    } else {
      var y := " " + Join(parts[1..], ", ");
      JoinCommaStep(pre, parts);
      SplitCons(x, y, ',');
      SplitJoin(" ", parts[1..]);
      assert [x] + Spaced(" ", parts[1..]) == Spaced(pre, parts);
    }
  }

  /** Trimming each piece of `Spaced` undoes the padding. */
  lemma StripSpaced(pre: string, parts: seq<string>)
    requires AllSpace(pre)
    requires forall k :: 0 <= k < |parts| ==> Strip(parts[k]) == parts[k]
    ensures StripAll(Spaced(pre, parts)) == parts
  {
    assert AllSpace(" ");
    forall k | 0 <= k < |parts| ensures StripAll(Spaced(pre, parts))[k] == parts[k] {
      StripSpacePrefix(if k == 0 then pre else " ", parts[k]);
    }
  }

  /** Splitting a join of trimmed, comma-free pieces (behind whitespace) on
      commas and trimming each piece gives back the pieces. */
  lemma SplitJoinStripped(pre: string, parts: seq<string>)
    requires AllSpace(pre) && |parts| >= 1
    requires forall k :: 0 <= k < |parts| ==> ',' !in parts[k] && Strip(parts[k]) == parts[k]
    ensures StripAll(Split(pre + Join(parts, ", "), ',')) == parts
  {
    NoCommaInSpace(pre);
    SplitJoin(pre, parts);
    StripSpaced(pre, parts);
  }
}
