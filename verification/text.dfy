/** String operations of the JavaScript runtime that the bot relies on:
    `indexOf`, `split`, `join`, `trim`, `substr`, `toLowerCase`, and the
    `toId` normaliser, written out over `seq<char>`. */
module Text {
  import opened Options

  /** `pat` occurs in `s` starting at position `i`. */
  predicate OccursAt(s: string, pat: string, i: nat) {
    i + |pat| <= |s| && s[i..i + |pat|] == pat
  }

  lemma OccursShift(s: string, pat: string, j: nat)
    requires |s| > 0
    ensures OccursAt(s, pat, j + 1) == OccursAt(s[1..], pat, j)
  {
    if j + 1 + |pat| <= |s| {
      assert s[1..][j..j + |pat|] == s[j + 1..j + 1 + |pat|];
    }
  }

  /** `s.indexOf(pat)`: the first position where `pat` occurs, if any
      (IndexOfSpec states this). */
  function IndexOf(s: string, pat: string): (r: Option<nat>)
    ensures r.Some? ==> r.value + |pat| <= |s|
    decreases |s|
  {
    if |s| < |pat| then None
    else if s[..|pat|] == pat then Some(0)
    else match IndexOf(s[1..], pat)
      case None => None
      case Some(i) => Some(i + 1)
  }

  lemma {:induction false} IndexOfSpec(s: string, pat: string)
    ensures var r := IndexOf(s, pat);
      && (r.Some? ==> OccursAt(s, pat, r.value))
      && (r.Some? ==> forall j: nat :: j < r.value ==> !OccursAt(s, pat, j))
      && (r.None? ==> forall j: nat :: !OccursAt(s, pat, j))
    decreases |s|
  {
    if |s| < |pat| {
    } else if s[..|pat|] == pat {
    } else {
      IndexOfSpec(s[1..], pat);
      assert !OccursAt(s, pat, 0);
      match IndexOf(s[1..], pat)
      case None =>
        forall j: nat ensures !OccursAt(s, pat, j) {
          if j > 0 { OccursShift(s, pat, j - 1); }
        }
      case Some(i) =>
        OccursShift(s, pat, i);
        forall j: nat | j < i + 1 ensures !OccursAt(s, pat, j) {
          if j > 0 { OccursShift(s, pat, j - 1); }
        }
    }
  }

  /** `s.indexOf(pat) !== -1` */
  predicate Contains(s: string, pat: string) {
    IndexOf(s, pat).Some?
  }

  /** `s.split(sep)` for a non-empty separator: the pieces between the
      non-overlapping occurrences of `sep`, scanned from the left. */
  function SplitOn(s: string, sep: string): (r: seq<string>)
    requires |sep| > 0
    ensures |r| >= 1
    decreases |s|
  {
    match IndexOf(s, sep)
    case None => [s]
    case Some(i) => [s[..i]] + SplitOn(s[i + |sep|..], sep)
  }

  /** `parts.join(sep)` */
  function Join(parts: seq<string>, sep: string): string {
    if |parts| == 0 then ""
    else if |parts| == 1 then parts[0]
    else parts[0] + sep + Join(parts[1..], sep)
  }

  /** Splitting and re-joining with the same separator gives back the text. */
  lemma {:induction false} JoinSplit(s: string, sep: string)
    requires |sep| > 0
    ensures Join(SplitOn(s, sep), sep) == s
    decreases |s|
  {
    IndexOfSpec(s, sep);
    match IndexOf(s, sep)
    case None =>
    case Some(i) =>
      var rest := SplitOn(s[i + |sep|..], sep);
      JoinSplit(s[i + |sep|..], sep);
      assert SplitOn(s, sep) == [s[..i]] + rest;
      assert ([s[..i]] + rest)[1..] == rest;
      assert s == s[..i] + sep + s[i + |sep|..];
  }

  /** A one-character separator that does not occur in `a` is first found right after `a`. */
  lemma IndexOfCons(a: string, b: string, sep: string)
    requires |sep| == 1 && sep[0] !in a
    ensures IndexOf(a + sep + b, sep) == Some(|a|)
  {
    var s := a + sep + b;
    assert OccursAt(s, sep, |a|) by { assert s[|a|..|a| + 1] == sep; }
    forall j: nat | j < |a| ensures !OccursAt(s, sep, j) {
      assert s[j..j + 1][0] == a[j];
      assert a[j] != sep[0];
    }
    IndexOfSpec(s, sep);
  }

  /** A one-character separator that does not occur in `a` cuts exactly after `a`. */
  lemma SplitOnCons(a: string, b: string, sep: string)
    requires |sep| == 1 && sep[0] !in a
    ensures SplitOn(a + sep + b, sep) == [a] + SplitOn(b, sep)
  {
    var s := a + sep + b;
    IndexOfCons(a, b, sep);
    assert s[..|a|] == a;
    assert s[|a| + 1..] == b;
  }

  /** Searching for a one-character pattern is searching for that character. */
  lemma ContainsChar(s: string, c: char)
    ensures Contains(s, [c]) <==> c in s
  {
    IndexOfSpec(s, [c]);
    if c in s {
      var k :| 0 <= k < |s| && s[k] == c;
      assert s[k..k + 1] == [c];
      assert OccursAt(s, [c], k);
    }
    if Contains(s, [c]) {
      var k := IndexOf(s, [c]).value;
      assert s[k..k + 1][0] == s[k];
    }
  }

  /** Joining pieces that are free of a one-character separator and
      splitting again gives back the pieces. */
  lemma {:induction false} SplitJoin(parts: seq<string>, sep: string)
    requires |parts| >= 1 && |sep| == 1
    requires forall i :: 0 <= i < |parts| ==> sep[0] !in parts[i]
    ensures SplitOn(Join(parts, sep), sep) == parts
    decreases |parts|
  {
    if |parts| == 1 {
      forall k: nat ensures !OccursAt(parts[0], sep, k) {
        if k < |parts[0]| {
          assert parts[0][k..k + 1][0] == parts[0][k];
          assert parts[0][k] != sep[0];
        }
      }
      IndexOfSpec(parts[0], sep);
      assert IndexOf(parts[0], sep).None?;
    } else {
      SplitJoin(parts[1..], sep);
      SplitOnCons(parts[0], Join(parts[1..], sep), sep);
      assert parts == [parts[0]] + parts[1..];
    }
  }

  /** `xs.indexOf(x)` on an array of strings. */
  function IndexIn(xs: seq<string>, x: string): (r: Option<nat>)
    ensures r.Some? ==> r.value < |xs| && xs[r.value] == x
    ensures r.Some? ==> forall j :: 0 <= j < r.value ==> xs[j] != x
    ensures r.None? <==> x !in xs
  {
    if xs == [] then None
    else if xs[0] == x then Some(0)
    else match IndexIn(xs[1..], x)
      case None => None
      case Some(i) => Some(i + 1)
  }

  /** `s.startsWith(p)` */
  predicate StartsWith(s: string, p: string) {
    |p| <= |s| && s[..|p|] == p
  }

  /** `s.endsWith(p)` */
  predicate EndsWith(s: string, p: string) {
    |p| <= |s| && s[|s| - |p|..] == p
  }

  /** `s.substr(start)` */
  function From(s: string, start: nat): string {
    if start <= |s| then s[start..] else ""
  }

  /** `s.substr(start, len)` for non-negative arguments. */
  function Substr(s: string, start: nat, len: nat): (r: string)
    ensures |r| <= len
  {
    var b := if start <= |s| then start else |s|;
    var e := if start + len <= |s| then start + len else |s|;
    s[b..e]
  }

  /** `s.charAt(0) === c` */
  predicate FirstIs(s: string, c: char) {
    |s| > 0 && s[0] == c
  }

  /** The characters that `String.prototype.trim` removes: white space and
      line terminators. */
  predicate IsSpace(c: char) {
    c == '\t' || c == '\n' || c == '\U{B}' || c == '\U{C}' || c == '\r' || c == ' '
    || c == '\U{A0}' || c == '\U{1680}' || ('\U{2000}' <= c <= '\U{200A}')
    || c == '\U{2028}' || c == '\U{2029}' || c == '\U{202F}' || c == '\U{205F}'
    || c == '\U{3000}' || c == '\U{FEFF}'
  }

  /** `s` without its leading white space. */
  function TrimStart(s: string): (r: string)
    ensures r == [] || !IsSpace(r[0])
    ensures |r| <= |s| && r == s[|s| - |r|..]
    ensures forall i :: 0 <= i < |s| - |r| ==> IsSpace(s[i])
    decreases |s|
  {
    if s != [] && IsSpace(s[0]) then TrimStart(s[1..]) else s
  }

  /** `s` without its trailing white space. */
  function TrimEnd(s: string): (r: string)
    ensures r == [] || !IsSpace(r[|r| - 1])
    ensures |r| <= |s| && r == s[..|r|]
    ensures forall i :: |r| <= i < |s| ==> IsSpace(s[i])
    decreases |s|
  {
    if s != [] && IsSpace(s[|s| - 1]) then TrimEnd(s[..|s| - 1]) else s
  }

  /** `s.trim()`: the part of `s` between its leading and its trailing
      white space. Only white space is dropped, so a text with any other
      character keeps it. */
  function Trim(s: string): (r: string)
    ensures r == [] || (!IsSpace(r[0]) && !IsSpace(r[|r| - 1]))
  {
    TrimEnd(TrimStart(s))
  }

  /** Trimming drops white space and nothing else: the result is the slice
      of `s` between a leading and a trailing run of white space. */
  lemma TrimDropsOnlySpace(s: string)
    ensures var k := |s| - |TrimStart(s)|; var r := Trim(s);
      && k + |r| <= |s| && r == s[k..k + |r|]
      && (forall i :: 0 <= i < k ==> IsSpace(s[i]))
      && (forall i :: k + |r| <= i < |s| ==> IsSpace(s[i]))
  {
    var t := TrimStart(s);
    var r := TrimEnd(t);
    TrimSlices(s, t, r, (c: char) => IsSpace(c));
  }

  /** A prefix of a suffix is a slice; what the prefix and the suffix
      leave out of `s` meets `p`. */
  lemma TrimSlices(s: string, t: string, r: string, p: char -> bool)
    requires |t| <= |s| && t == s[|s| - |t|..] && |r| <= |t| && r == t[..|r|]
    requires forall i :: 0 <= i < |s| - |t| ==> p(s[i])
    requires forall i :: |r| <= i < |t| ==> p(t[i])
    ensures var k := |s| - |t|;
      && s[k..k + |r|] == r
      && (forall i :: 0 <= i < k ==> p(s[i]))
      && (forall i :: k + |r| <= i < |s| ==> p(s[i]))
  {
    var k := |s| - |t|;
    forall i | k + |r| <= i < |s|
      ensures p(s[i])
    {
      assert s[i] == t[i - k];
    }
  }

  /** Text that neither starts nor ends with white space is its own trim. */
  lemma TrimKeeps(s: string)
    requires s == [] || (!IsSpace(s[0]) && !IsSpace(s[|s| - 1]))
    ensures Trim(s) == s
  {
  }

  predicate IsUpper(c: char) { 'A' <= c <= 'Z' }

  /** ASCII case folding, as `toLowerCase` does on ASCII letters. */
  function LowerChar(c: char): (r: char)
    ensures IsUpper(c) ==> r != c && 'a' <= r <= 'z'
    ensures !IsUpper(c) ==> r == c
  {
    if IsUpper(c) then (c as int + 32) as char else c
  }

  function Lower(s: string): (r: string)
    ensures |r| == |s|
    ensures forall i :: 0 <= i < |s| ==> r[i] == LowerChar(s[i])
  {
    if s == [] then [] else [LowerChar(s[0])] + Lower(s[1..])
  }

  predicate IsIdChar(c: char) { 'a' <= c <= 'z' || '0' <= c <= '9' }

  /** `toId`: lower-case the text and keep only the letters a-z and digits. */
  function ToId(s: string): (r: string)
    ensures |r| <= |s|
    ensures forall i :: 0 <= i < |r| ==> IsIdChar(r[i])
  {
    if s == [] then []
    else
      var c := LowerChar(s[0]);
      (if IsIdChar(c) then [c] else []) + ToId(s[1..])
  }

  /** An id is its own `toId`. */
  lemma {:induction false} ToIdOfId(s: string)
    requires forall i :: 0 <= i < |s| ==> IsIdChar(s[i])
    ensures ToId(s) == s
  {
    if s != [] {
      ToIdOfId(s[1..]);
    }
  }

  function DigitsOf(n: nat): (r: string)
    ensures |r| >= 1
    ensures forall i :: 0 <= i < |r| ==> '0' <= r[i] <= '9'
  {
    var d := ['0' + (n % 10) as char];
    if n < 10 then d else DigitsOf(n / 10) + d
  }

  /** The decimal text of an integer, as JavaScript prints a whole number. */
  function IntToString(n: int): string {
    if n < 0 then "-" + DigitsOf(-n) else DigitsOf(n)
  }
}
