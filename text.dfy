/** The Python string operations the client relies on: `in`, `startswith`,
    `split`, `strip`, and the ordering `<=` that `list.sort` uses on strings. */
module Text {
  import opened Values

  predicate IsDigit(c: char) {
    '0' <= c <= '9'
  }

  /** A non-empty run of ASCII digits: what the group `(\d+)` captures. */
  predicate IsDigits(s: string) {
    |s| > 0 && forall i :: 0 <= i < |s| ==> IsDigit(s[i])
  }

  predicate OccursAt(s: string, p: string, i: nat) {
    i + |p| <= |s| && s[i..i + |p|] == p
  }

  /** `p in s` */
  predicate Contains(s: string, p: string) {
    exists i: nat :: i <= |s| && OccursAt(s, p, i)
  }

  /** `s.startswith(p)` */
  predicate StartsWith(s: string, p: string) {
    |p| <= |s| && s[..|p|] == p
  }

  /** The leftmost occurrence of `p` in `s` at or after `from` (`s.find(p, from)`). */
  function FindFrom(s: string, p: string, from: nat): (r: Option<nat>)
    ensures r.Some? ==> from <= r.value && OccursAt(s, p, r.value)
    ensures forall j: nat :: from <= j && (r.None? || j < r.value) ==> !OccursAt(s, p, j)
    decreases |s| - from
  {
    if from + |p| > |s| then None
    else if s[from..from + |p|] == p then Some(from)
    else FindFrom(s, p, from + 1)
  }

  lemma FindContains(s: string, p: string)
    ensures Contains(s, p) <==> FindFrom(s, p, 0).Some?
  {
    if FindFrom(s, p, 0).Some? {
      assert OccursAt(s, p, FindFrom(s, p, 0).value);
    }
  }

  /** `s.split(sep)` for a non-empty separator (Python raises on an empty one):
      the pieces between the non-overlapping occurrences found left to right. */
  function Split(s: string, sep: string): (parts: seq<string>)
    requires sep != []
    ensures |parts| >= 1
    decreases |s|
  {
    match FindFrom(s, sep, 0)
    case None => [s]
    case Some(i) => [s[..i]] + Split(s[i + |sep|..], sep)
  }

  /** `len(s.split(sep)) > 1` is the same test as `sep in s`. */
  lemma SplitHasSecond(s: string, sep: string)
    requires sep != []
    ensures |Split(s, sep)| > 1 <==> Contains(s, sep)
  {
    FindContains(s, sep);
  }

  /** The text after the first occurrence of `sep` (reference definition). */
  function After(s: string, sep: string): (r: string)
    requires Contains(s, sep)
    ensures |r| <= |s| && r == s[|s| - |r|..]
  {
    FindContains(s, sep);
    var i := FindFrom(s, sep, 0).value;
    s[i + |sep|..]
  }

  /** The longest prefix of `s` without the character `c` (reference definition). */
  function UpTo(s: string, c: char): (r: string)
    ensures |r| <= |s| && r == s[..|r|]
    ensures forall k :: 0 <= k < |r| ==> r[k] != c
    ensures |r| < |s| ==> s[|r|] == c
  {
    if s == [] || s[0] == c then [] else [s[0]] + UpTo(s[1..], c)
  }

  lemma {:induction false} UpToAt(s: string, c: char, i: nat)
    requires i <= |s| && (i < |s| ==> s[i] == c)
    requires forall k :: 0 <= k < i ==> s[k] != c
    ensures UpTo(s, c) == s[..i]
  {
    if i > 0 {
      UpToAt(s[1..], c, i - 1);
    }
  }

  /** `x.split(c)[0]` is the text of `x` before its first `c`. */
  lemma SplitCharHead(x: string, c: char)
    ensures Split(x, [c])[0] == UpTo(x, c)
  {
    match FindFrom(x, [c], 0)
    case None =>
      forall k | 0 <= k < |x| ensures x[k] != c {
        assert !OccursAt(x, [c], k);
      }
      UpToAt(x, c, |x|);
    case Some(i) =>
      assert x[i..i + 1] == [c];
      forall k | 0 <= k < i ensures x[k] != c {
        assert !OccursAt(x, [c], k);
      }
      UpToAt(x, c, i);
  }

  /** The second piece of `s.split(sep)` is the first piece of what follows
      the first `sep`. */
  lemma SecondPiece(s: string, sep: string)
    requires sep != [] && Contains(s, sep)
    ensures |Split(s, sep)| > 1 && Split(s, sep)[1] == Split(After(s, sep), sep)[0]
  {
    FindContains(s, sep);
  }

  /** Cutting `t` at its first `sep` does not move its first comma when `sep`
      itself starts with one. */
  lemma HeadPieceUpToComma(t: string, sep: string)
    requires sep != [] && sep[0] == ','
    ensures UpTo(Split(t, sep)[0], ',') == UpTo(t, ',')
  {
    match FindFrom(t, sep, 0)
    case None =>
    case Some(j) =>
      assert Split(t, sep)[0] == t[..j];
      assert t[j] == sep[0] by { assert t[j..j + |sep|] == sep; }
      var u := UpTo(t, ',');
      assert |u| <= j;
      UpToAt(t[..j], ',', |u|);
  }

  /** `s.split(sep)[1].split(",")[0]` for a separator that starts with a comma
      is the text after the first `sep` up to the next comma. */
  lemma SecondPieceUpToComma(s: string, sep: string)
    requires sep != [] && sep[0] == ','
    requires Contains(s, sep)
    ensures |Split(s, sep)| > 1
    ensures Split(Split(s, sep)[1], ",")[0] == UpTo(After(s, sep), ',')
  {
    SecondPiece(s, sep);
    var piece := Split(s, sep)[1];
    assert "," == [','];
    SplitCharHead(piece, ',');
    HeadPieceUpToComma(After(s, sep), sep);
  }

  /** Python's `str.isspace()` characters, which `strip()` removes. */
  predicate IsSpace(c: char) {
    || c == ' '
    || '\t' <= c <= '\r'
    || '\U{1C}' <= c <= '\U{1F}'
    || c == '\U{85}' || c == '\U{A0}' || c == '\U{1680}'
    || '\U{2000}' <= c <= '\U{200A}'
    || c == '\U{2028}' || c == '\U{2029}' || c == '\U{202F}'
    || c == '\U{205F}' || c == '\U{3000}'
  }

  function TrimStart(s: string): (r: string)
    ensures |r| <= |s| && r == s[|s| - |r|..]
    ensures r == [] || !IsSpace(r[0])
    ensures forall k :: 0 <= k < |s| - |r| ==> IsSpace(s[k])
  {
    if s != [] && IsSpace(s[0]) then TrimStart(s[1..]) else s
  }

  function TrimEnd(s: string): (r: string)
    ensures |r| <= |s| && r == s[..|r|]
    ensures r == [] || !IsSpace(r[|r| - 1])
    ensures forall k :: |r| <= k < |s| ==> IsSpace(s[k])
  {
    if s != [] && IsSpace(s[|s| - 1]) then TrimEnd(s[..|s| - 1]) else s
  }

  /** `s.strip()`: a slice of `s` with no white space at either end, and
      nothing but white space cut off. */
  function Strip(s: string): (r: string)
    ensures exists i, j :: (0 <= i <= j <= |s| && r == s[i..j]
      && (forall k :: 0 <= k < i ==> IsSpace(s[k]))
      && (forall k :: j <= k < |s| ==> IsSpace(s[k])))
    ensures r == [] || (!IsSpace(r[0]) && !IsSpace(r[|r| - 1]))
  {
    var t := TrimStart(s);
    var r := TrimEnd(t);
    var i := |s| - |t|;
    assert r == s[i..i + |r|];
    forall k | i + |r| <= k < |s| ensures IsSpace(s[k]) {
      assert s[k] == t[k - i];
    }
    r
  }

  lemma ContainsInSlice(s: string, i: nat, j: nat, p: string)
    requires i <= j <= |s|
    requires Contains(s[i..j], p)
    ensures Contains(s, p)
  {
    var k: nat :| k <= |s[i..j]| && OccursAt(s[i..j], p, k);
    forall m | 0 <= m < |p| ensures s[i + k + m] == p[m] {
      assert s[i..j][k..k + |p|][m] == p[m];
    }
    assert s[i + k..i + k + |p|] == p;
    assert OccursAt(s, p, i + k);
  }

  /** Stripping never creates an occurrence that was not already there. */
  lemma StripContains(s: string, p: string)
    requires Contains(Strip(s), p)
    ensures Contains(s, p)
  {
    var i, j :| 0 <= i <= j <= |s| && Strip(s) == s[i..j];
    ContainsInSlice(s, i, j, p);
  }

  /** Python's `a <= b` on strings: code points compared lexicographically. */
  predicate LexLe(a: string, b: string)
    decreases |a|
  {
    a == [] || (b != [] && (a[0] < b[0] || (a[0] == b[0] && LexLe(a[1..], b[1..]))))
  }

  lemma {:induction false} LexLeReflexive(a: string)
    ensures LexLe(a, a)
  {
    if a != [] {
      LexLeReflexive(a[1..]);
    }
  }

  lemma {:induction false} LexLeTotal(a: string, b: string)
    ensures LexLe(a, b) || LexLe(b, a)
    decreases |a|
  {
    if a != [] && b != [] && a[0] == b[0] {
      LexLeTotal(a[1..], b[1..]);
    }
  }

  lemma {:induction false} LexLeTransitive(a: string, b: string, c: string)
    requires LexLe(a, b) && LexLe(b, c)
    ensures LexLe(a, c)
    decreases |a|
  {
    if a != [] && a[0] == b[0] && b[0] == c[0] {
      LexLeTransitive(a[1..], b[1..], c[1..]);
    }
  }

  lemma {:induction false} LexLeAntisymmetric(a: string, b: string)
    requires LexLe(a, b) && LexLe(b, a)
    ensures a == b
    decreases |a|
  {
    if a != [] {
      LexLeAntisymmetric(a[1..], b[1..]);
      assert a == [a[0]] + a[1..];
      assert b == [b[0]] + b[1..];
    }
  }

  /** Decimal rendering of an integer, as f-string formatting writes it. */
  function NatToString(n: nat): (r: string)
    ensures IsDigits(r)
    decreases n
  {
    var d := [(('0' as int) + n % 10) as char];
    if n < 10 then d else NatToString(n / 10) + d
  }

  function IntToString(n: int): (r: string)
    ensures n >= 0 ==> IsDigits(r)
    ensures n < 0 ==> r != [] && r[0] == '-' && IsDigits(r[1..])
  {
    if n >= 0 then NatToString(n) else "-" + NatToString(-n)
  }
}
