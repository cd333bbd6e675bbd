/** The string operations the source relies on, with Python's (and, for
    `toString`, JavaScript's) meaning: `isspace`, `strip`, `lower`, `in`,
    `find`, `rfind`, `split`, `replace`, `title` and slicing. Case mapping
    covers ASCII letters only. */
module PyStr {
  import opened Wrappers

  // ---------------------------------------------------------------------
  // Whitespace, strip and blank strings
  // ---------------------------------------------------------------------

  /** `c.isspace()`: the characters Python treats as whitespace. */
  predicate IsSpace(c: char) {
    var n := c as int;
    n == 0x20 || (0x09 <= n <= 0x0d) || (0x1c <= n <= 0x1f) || n == 0x85 || n == 0xa0
    || n == 0x1680 || (0x2000 <= n <= 0x200a) || n == 0x2028 || n == 0x2029
    || n == 0x202f || n == 0x205f || n == 0x3000
  }

  /** Every character of `s` is whitespace (the empty string included). */
  predicate IsBlank(s: string) {
    forall i :: 0 <= i < |s| ==> IsSpace(s[i])
  }

  /** `s.lstrip()`: the suffix left after dropping leading whitespace. */
  function LStrip(s: string): (r: string)
    ensures |r| <= |s|
    ensures r == [] || !IsSpace(r[0])
  {
    if s != [] && IsSpace(s[0]) then LStrip(s[1..]) else s
  }

  /** `s.rstrip()`: the prefix left after dropping trailing whitespace. */
  function RStrip(s: string): (r: string)
    ensures |r| <= |s| && r == s[..|r|]
    ensures r == [] || !IsSpace(r[|r| - 1])
  {
    if s != [] && IsSpace(s[|s| - 1]) then RStrip(s[..|s| - 1]) else s
  }

  /** `lstrip` drops whitespace only, from the front: with `d` characters
      dropped, those are whitespace and character `k` of the result is
      character `d + k` of `s`. */
  lemma {:induction false} LStripDropsBlank(s: string)
    ensures var d := |s| - |LStrip(s)|;
            (forall k :: 0 <= k < d ==> IsSpace(s[k]))
            && forall k :: 0 <= k < |LStrip(s)| ==> LStrip(s)[k] == s[d + k]
    decreases |s|
  {
    if s != [] && IsSpace(s[0]) {
      var u := s[1..];
      LStripDropsBlank(u);
      var t := LStrip(u);
      var d := |s| - |t|;
      forall k | 0 <= k < |t| ensures t[k] == s[d + k] {
        assert t[k] == u[d - 1 + k];
      }
      forall k | 0 < k < d ensures IsSpace(s[k]) {
        assert s[k] == u[k - 1];
      }
    }
  }

  /** What `rstrip` drops is whitespace. */
  lemma {:induction false} RStripDropsBlank(s: string)
    ensures IsBlank(s[|RStrip(s)|..])
    decreases |s|
  {
    if s != [] && IsSpace(s[|s| - 1]) {
      RStripDropsBlank(s[..|s| - 1]);
      var k := |RStrip(s)|;
      assert s[k..] == s[..|s| - 1][k..] + [s[|s| - 1]];
    }
  }

  /** `s.strip()` */
  function Strip(s: string): string {
    RStrip(LStrip(s))
  }

  /** `not s.strip()` holds exactly for the blank strings. */
  lemma StripEmptyIffBlank(s: string)
    ensures Strip(s) == [] <==> IsBlank(s)
  {
    var l := LStrip(s);
    var d := |s| - |l|;
    LStripDropsBlank(s);
    RStripDropsBlank(l);
    assert l != [] ==> l[0] == s[d] && l[0..][0] == l[0];
  }

  // ---------------------------------------------------------------------
  // ASCII case mapping
  // ---------------------------------------------------------------------

  /** A letter that has an upper and a lower case form. */
  predicate IsCased(c: char) {
    'A' <= c <= 'Z' || 'a' <= c <= 'z'
  }

  function LowerChar(c: char): char {
    if 'A' <= c <= 'Z' then (c as int + 32) as char else c
  }

  function UpperChar(c: char): char {
    if 'a' <= c <= 'z' then (c as int - 32) as char else c
  }

  /** `s.lower()` (and JavaScript's `toLowerCase`) */
  function Lower(s: string): string {
    seq(|s|, i requires 0 <= i < |s| => LowerChar(s[i]))
  }

  /** `s.replace(a, b)` for one-character `a` and `b`. */
  function ReplaceChar(s: string, a: char, b: char): string {
    seq(|s|, i requires 0 <= i < |s| => if s[i] == a then b else s[i])
  }

  /** `str.title()` continued from a position whose previous character was
      cased (`prevCased`) or not: a cased letter becomes upper case when the
      character before it is not cased, lower case otherwise. */
  function TitleFrom(s: string, prevCased: bool): string {
    if s == [] then []
    else
      var c := s[0];
      var c' := if !IsCased(c) then c else if prevCased then LowerChar(c) else UpperChar(c);
      [c'] + TitleFrom(s[1..], IsCased(c))
  }

  /** `s.title()` */
  function Title(s: string): string {
    TitleFrom(s, false)
  }

  /** Character by character meaning of `TitleFrom`. */
  lemma {:induction false} TitleFromAt(s: string, prevCased: bool, i: int)
    requires 0 <= i < |s|
    ensures |TitleFrom(s, prevCased)| == |s|
    ensures var before := if i == 0 then prevCased else IsCased(s[i - 1]);
            TitleFrom(s, prevCased)[i] ==
              if !IsCased(s[i]) then s[i]
              else if before then LowerChar(s[i]) else UpperChar(s[i])
  {
    if i == 0 {
      TitleFromLength(s[1..], IsCased(s[0]));
    } else {
      TitleFromAt(s[1..], IsCased(s[0]), i - 1);
    }
  }

  lemma {:induction false} TitleFromLength(s: string, prevCased: bool)
    ensures |TitleFrom(s, prevCased)| == |s|
  {
    if s != [] {
      TitleFromLength(s[1..], IsCased(s[0]));
    }
  }

  /** `s.title()` keeps the length; a letter is upper-cased exactly when it is
      the first character or follows a character that is not a letter, and
      lower-cased otherwise; every other character is kept. */
  lemma TitleAt(s: string, i: int)
    requires 0 <= i < |s|
    ensures |Title(s)| == |s|
    ensures Title(s)[i] ==
              if !IsCased(s[i]) then s[i]
              else if i > 0 && IsCased(s[i - 1]) then LowerChar(s[i]) else UpperChar(s[i])
  {
    TitleFromAt(s, false, i);
  }

  // ---------------------------------------------------------------------
  // Substrings: `in`, find, rfind, split
  // ---------------------------------------------------------------------

  predicate StartsWith(s: string, p: string) {
    |p| <= |s| && s[..|p|] == p
  }

  /** `p` occurs in `s` starting at index `i`. */
  predicate OccursAt(s: string, p: string, i: int) {
    0 <= i && i + |p| <= |s| && s[i..i + |p|] == p
  }

  /** Python's `needle in hay` on strings. */
  predicate Contains(hay: string, needle: string)
    decreases |hay|
  {
    StartsWith(hay, needle) || (hay != [] && Contains(hay[1..], needle))
  }

  /** An occurrence in `s[1..]` is an occurrence in `s` one place later. */
  lemma OccursShift(s: string, p: string, i: int)
    requires s != [] && 0 <= i
    ensures OccursAt(s[1..], p, i) <==> OccursAt(s, p, i + 1)
  {
    if 0 <= i && i + 1 + |p| <= |s| {
      assert s[1..][i..i + |p|] == s[i + 1..i + 1 + |p|];
    }
  }

  /** `needle in hay` holds exactly when the needle occurs at some index. */
  lemma {:induction false} ContainsIff(hay: string, needle: string)
    ensures Contains(hay, needle) <==> exists i :: OccursAt(hay, needle, i)
    decreases |hay|
  {
    if hay == [] {
      if exists i :: OccursAt(hay, needle, i) {
        var i :| OccursAt(hay, needle, i);
        assert i == 0 && StartsWith(hay, needle);
      }
      if StartsWith(hay, needle) {
        assert OccursAt(hay, needle, 0);
      }
    } else {
      ContainsIff(hay[1..], needle);
      if Contains(hay, needle) {
        if StartsWith(hay, needle) {
          assert OccursAt(hay, needle, 0);
        } else {
          var i :| OccursAt(hay[1..], needle, i);
          OccursShift(hay, needle, i);
        }
      }
      if exists i :: OccursAt(hay, needle, i) {
        var i :| OccursAt(hay, needle, i);
        if i == 0 {
          assert StartsWith(hay, needle);
        } else {
          OccursShift(hay, needle, i - 1);
        }
      }
    }
  }

  /** `s.find(p)`: the first index at which `p` occurs, or -1
      (`FindFirstOccurrence`). */
  function Find(s: string, p: string): (r: int)
    ensures -1 <= r <= |s|
    decreases |s|
  {
    if StartsWith(s, p) then 0
    else if s == [] then -1
    else
      var k := Find(s[1..], p);
      if k < 0 then -1 else k + 1
  }

  /** `Find` returns an index at which `p` occurs and none occurs before
      it; -1 means `p` occurs nowhere. */
  lemma {:induction false} FindFirstOccurrence(s: string, p: string)
    ensures var r := Find(s, p);
            (r >= 0 ==> OccursAt(s, p, r))
            && forall j :: 0 <= j && (r < 0 || j < r) ==> !OccursAt(s, p, j)
    decreases |s|
  {
    if StartsWith(s, p) {
      assert OccursAt(s, p, 0);
    } else if s != [] {
      FindFirstOccurrence(s[1..], p);
      forall j | 1 <= j ensures OccursAt(s, p, j) <==> OccursAt(s[1..], p, j - 1) {
        OccursShift(s, p, j - 1);
      }
      assert !OccursAt(s, p, 0);
    }
  }

  /** `s.rfind(p)`: the last index at which `p` occurs, or -1
      (`RFindLastOccurrence`). */
  function RFind(s: string, p: string): (r: int)
    ensures -1 <= r <= |s|
    decreases |s|
  {
    if |p| <= |s| && s[|s| - |p|..] == p then |s| - |p|
    else if s == [] then -1
    else RFind(s[..|s| - 1], p)
  }

  /** `RFind` returns an index at which `p` occurs and none occurs after
      it; -1 means `p` occurs nowhere. */
  lemma {:induction false} RFindLastOccurrence(s: string, p: string)
    ensures var r := RFind(s, p);
            (r >= 0 ==> OccursAt(s, p, r))
            && forall j :: r < j ==> !OccursAt(s, p, j)
    decreases |s|
  {
    if |p| <= |s| && s[|s| - |p|..] == p {
      assert OccursAt(s, p, |s| - |p|);
    } else if s != [] {
      var t := s[..|s| - 1];
      RFindLastOccurrence(t, p);
      var r := RFind(t, p);
      if r >= 0 {
        assert t[r..r + |p|] == s[r..r + |p|];
      }
      forall j | r < j ensures !OccursAt(s, p, j) {
        if OccursAt(s, p, j) && j + |p| < |s| {
          assert t[j..j + |p|] == s[j..j + |p|];
          assert OccursAt(t, p, j);
        }
      }
    }
  }

  /** `s.split(sep)[0]`: the text before the first `sep`, or all of `s`
      (`BeforeFirstSep`). */
  function Before(s: string, sep: string): (r: string)
    requires sep != []
    ensures |r| <= |s| && r == s[..|r|]
  {
    var k := Find(s, sep);
    if k < 0 then s else s[..k]
  }

  /** What `Before` keeps ends at the first `sep`, or is all of `s`, and
      holds no `sep`. */
  lemma BeforeFirstSep(s: string, sep: string)
    requires sep != []
    ensures var r := Before(s, sep);
            (|r| == |s| || OccursAt(s, sep, |r|))
            && forall j :: 0 <= j < |r| ==> !OccursAt(s, sep, j)
  {
    FindFirstOccurrence(s, sep);
  }

  /** Splitting at a one-character separator leaves no such character in
      the first part. */
  lemma BeforeHasNoSep(s: string, c: char)
    ensures forall i :: 0 <= i < |Before(s, [c])| ==> Before(s, [c])[i] != c
  {
    var r := Before(s, [c]);
    BeforeFirstSep(s, [c]);
    forall i | 0 <= i < |r|
      ensures r[i] != c
    {
      assert !OccursAt(s, [c], i);
      assert s[i..i + 1] == [s[i]];
    }
  }

  /** The text after the first `sep` (`s.split(sep, 1)[1]`); requires that
      `sep` occurs. */
  function After(s: string, sep: string): (r: string)
    requires Find(s, sep) >= 0
    ensures |r| + |sep| <= |s| && r == s[|s| - |r|..]
  {
    FindFirstOccurrence(s, sep);
    s[Find(s, sep) + |sep|..]
  }

  /** What comes before the text after `sep` ends with that first `sep`. */
  lemma AfterFollowsFirst(s: string, sep: string)
    requires Find(s, sep) >= 0
    ensures Find(s, sep) == |s| - |After(s, sep)| - |sep|
    ensures OccursAt(s, sep, |s| - |After(s, sep)| - |sep|)
  {
    FindFirstOccurrence(s, sep);
  }

  /** A prefix ends where its first separator is, so splitting inside the
      text of `s.split(sep)` is splitting `s` itself. */
  lemma FindIsFirst(s: string, p: string, k: int)
    requires OccursAt(s, p, k)
    requires forall j :: 0 <= j < k ==> !OccursAt(s, p, j)
    ensures Find(s, p) == k
  {
    FindFirstOccurrence(s, p);
  }

  /** An occurrence in a prefix is an occurrence in the whole string. */
  lemma OccursInPrefix(s: string, p: string, n: int, j: int)
    requires 0 <= n <= |s|
    ensures OccursAt(s[..n], p, j) <==> OccursAt(s, p, j) && j + |p| <= n
  {
    if OccursAt(s[..n], p, j) || (OccursAt(s, p, j) && j + |p| <= n) {
      assert s[..n][j..j + |p|] == s[j..j + |p|];
    }
  }

  /** `s.split(a)[0].split(b)[0] == s.split(b)[0]` when `b` is the first
      character of `a`: cutting at the first `b` already cuts before `a`. */
  lemma {:induction false} BeforeBefore(s: string, a: string, b: string)
    requires a != [] && b == a[..1]
    ensures Before(Before(s, a), b) == Before(s, b)
  {
    var k := Find(s, a);
    var f := Find(s, b);
    FindFirstOccurrence(s, a);
    FindFirstOccurrence(s, b);
    if k >= 0 {
      assert s[k..k + 1] == a[..1];
      assert OccursAt(s, b, k);
      var t := s[..k];
      assert f >= 0 && f <= k;
      if f < k {
        forall j | 0 <= j < f ensures !OccursAt(t, b, j) {
          OccursInPrefix(s, b, k, j);
        }
        OccursInPrefix(s, b, k, f);
        FindIsFirst(t, b, f);
      } else {
        forall j | 0 <= j ensures !OccursAt(t, b, j) {
          OccursInPrefix(s, b, k, j);
        }
        FindFirstOccurrence(t, b);
      }
    }
  }

  // ---------------------------------------------------------------------
  // split() without arguments
  // ---------------------------------------------------------------------

  /** The leading run of non-whitespace characters of `s`. */
  function Word(s: string): (r: string)
    ensures |r| <= |s| && r == s[..|r|]
    ensures forall i :: 0 <= i < |r| ==> !IsSpace(r[i])
    ensures |r| == |s| || IsSpace(s[|r|])
  {
    if s == [] || IsSpace(s[0]) then [] else [s[0]] + Word(s[1..])
  }

  /** `s.split()[0]`, or None where Python raises IndexError (no token). */
  function FirstToken(s: string): (r: Option<string>)
  {
    var t := LStrip(s);
    if t == [] then None else Some(Word(t))
  }

  /** `s.split()[0]` exists exactly when `s` is not blank. */
  lemma FirstTokenNoneIffBlank(s: string)
    ensures FirstToken(s).None? <==> IsBlank(s)
  {
    LStripDropsBlank(s);
  }

  /** `s.split()[0]` is the first maximal run of non-whitespace characters:
      only whitespace comes before it, and whitespace or the end of `s`
      comes after it. */
  lemma FirstTokenShape(s: string)
    requires FirstToken(s).Some?
    ensures var w := FirstToken(s).value;
            var i := |s| - |LStrip(s)|;
            w != [] && IsBlank(s[..i]) && OccursAt(s, w, i)
            && (forall k :: 0 <= k < |w| ==> !IsSpace(w[k]))
            && (i + |w| == |s| || IsSpace(s[i + |w|]))
  {
    var t := LStrip(s);
    LStripDropsBlank(s);
    var w := Word(t);
    var i := |s| - |t|;
    assert s[i..i + |w|] == w;
    assert i + |w| < |s| ==> s[i + |w|] == t[|w|];
  }

  // ---------------------------------------------------------------------
  // Slicing and decimal text
  // ---------------------------------------------------------------------

  /** Python's `s[:n]`, including a negative `n` (count from the end). */
  function SliceTo<T>(s: seq<T>, n: int): (r: seq<T>)
    ensures |r| <= |s| && r == s[..|r|]
    ensures n >= 0 ==> |r| == if n < |s| then n else |s|
    ensures n < 0 ==> |r| == if -n < |s| then |s| + n else 0
  {
    if n >= 0 then (if n < |s| then s[..n] else s)
    else if -n < |s| then s[..|s| + n] else []
  }

  function DigitChar(d: nat): char
    requires d < 10
  {
    ('0' as int + d) as char
  }

  /** The decimal text of `n` (the `toString()` of an issued id). */
  function NatText(n: nat): (r: string)
    ensures |r| >= 1 && (|r| == 1 <==> n < 10)
  {
    if n < 10 then [DigitChar(n)] else NatText(n / 10) + [DigitChar(n % 10)]
  }

  /** Distinct numbers have distinct texts. */
  lemma {:induction false} NatTextInjective(a: nat, b: nat)
    requires NatText(a) == NatText(b)
    ensures a == b
  {
    if a >= 10 && b >= 10 {
      var ta, tb := NatText(a), NatText(b);
      assert ta[..|ta| - 1] == NatText(a / 10);
      assert tb[..|tb| - 1] == NatText(b / 10);
      assert DigitChar(a % 10) == ta[|ta| - 1] == tb[|tb| - 1] == DigitChar(b % 10);
      NatTextInjective(a / 10, b / 10);
    }
  }
}
