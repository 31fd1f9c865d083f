/** The moderation rules of `processChatData`: message normalisation, the
    four rule predicates, the severity and reason they add up to, and the
    punishment ladder with its clamps. */
module Rules {
  import opened Options
  import opened Text

  const ActionCooldown: int := 3000
  const FloodMessageNum: nat := 5
  const FloodPerMsgMin: int := 500
  const FloodMessageTime: int := 6000
  const MinCapsLength: nat := 18

  const BannedReason := ", Automated response: your message contained a banned phrase"
  const FloodReason := ", Automated response: flooding"
  const CapsReason := ", Automated response: caps"
  const StretchReason := ", Automated response: stretching"
  const ZeroTolReason := ", Automated response: zero tolerance user"

  // ---------------------------------------------------------------------
  // Normalisation: trim, then every run of spaces, NULs and the zero-width
  // characters U+200B..U+200F becomes one space.
  // ---------------------------------------------------------------------

  predicate IsFiller(c: char) {
    c == ' ' || c == '\0' || '\U{200B}' <= c <= '\U{200F}'
  }

  /** The text left once the leading run of filler characters is dropped. */
  function DropFillers(s: string): (r: string)
    ensures |r| <= |s| && r == s[|s| - |r|..]
    ensures r == [] || !IsFiller(r[0])
  {
    if s != [] && IsFiller(s[0]) then DropFillers(s[1..]) else s
  }

  /** What `DropFillers` drops is fillers only. */
  lemma {:induction false} DropsOnlyFillers(s: string)
    ensures forall i :: 0 <= i < |s| - |DropFillers(s)| ==> IsFiller(s[i])
    decreases |s|
  {
    if s != [] && IsFiller(s[0]) {
      DropsOnlyFillers(s[1..]);
      forall i | 1 <= i < |s| - |DropFillers(s)|
        ensures IsFiller(s[i])
      {
        assert s[i] == s[1..][i - 1];
      }
    }
  }

  /** Every run of filler characters becomes one space. */
  function Collapse(s: string): (r: string)
    ensures |r| <= |s|
    ensures s == [] <==> r == []
    ensures s != [] && !IsFiller(s[0]) ==> r[0] == s[0]
    ensures s != [] && IsFiller(s[0]) ==> r[0] == ' '
    decreases |s|
  {
    if s == [] then []
    else if IsFiller(s[0]) then " " + Collapse(DropFillers(s[1..]))
    else [s[0]] + Collapse(s[1..])
  }

  /** No run of fillers survives collapsing, and every filler left is a
      space. */
  lemma {:induction false} CollapseRuns(s: string)
    ensures forall i :: 0 <= i < |Collapse(s)| && IsFiller(Collapse(s)[i]) ==> Collapse(s)[i] == ' '
    ensures forall i :: 0 <= i < |Collapse(s)| - 1 && IsFiller(Collapse(s)[i]) ==> !IsFiller(Collapse(s)[i + 1])
    decreases |s|
  {
    if s == [] {
    } else if IsFiller(s[0]) {
      var t := DropFillers(s[1..]);
      CollapseRuns(t);
      assert Collapse(s) == " " + Collapse(t);
    } else {
      CollapseRuns(s[1..]);
      assert Collapse(s) == [s[0]] + Collapse(s[1..]);
    }
  }

  /** Dropping the fillers in front of a text that ends in a non-filler
      leaves the rest of the text in place. */
  lemma {:induction false} DropFillersAppend(a: string, b: string)
    requires a != [] && !IsFiller(a[|a| - 1])
    ensures DropFillers(a + b) == DropFillers(a) + b
    decreases |a|
  {
    if IsFiller(a[0]) {
      assert (a + b)[1..] == a[1..] + b;
      DropFillersAppend(a[1..], b);
    }
  }

  /** A run of fillers in front of a text that starts with a non-filler is
      dropped whole. */
  lemma {:induction false} DropFillerRun(f: string, b: string)
    requires forall i :: 0 <= i < |f| ==> IsFiller(f[i])
    requires b == [] || !IsFiller(b[0])
    ensures DropFillers(f + b) == b
    decreases |f|
  {
    if f == [] {
      assert f + b == b;
    } else {
      assert (f + b)[1..] == f[1..] + b;
      DropFillerRun(f[1..], b);
    }
  }

  /** Text without fillers is left as it is. */
  lemma {:induction false} CollapseSolidText(a: string)
    requires forall i :: 0 <= i < |a| ==> !IsFiller(a[i])
    ensures Collapse(a) == a
    decreases |a|
  {
    if a != [] {
      CollapseSolidText(a[1..]);
    }
  }

  lemma Regroup(w: string, x: string, y: string, z: string)
    ensures w + (x + y + z) == w + x + y + z
  {
  }

  lemma Assoc(x: string, y: string, z: string)
    ensures x + (y + z) == x + y + z
  {
  }

  lemma Tail(a: string, y: string)
    requires a != []
    ensures (a + y)[0] == a[0] && (a + y)[1..] == a[1..] + y
  {
  }

  lemma Tail3(a: string, f: string, b: string)
    requires a != []
    ensures (a + f + b)[0] == a[0] && (a + f + b)[1..] == a[1..] + f + b
  {
    Assoc(a, f, b);
    Tail(a, f + b);
    Assoc(a[1..], f, b);
  }

  lemma DropFillersAppend3(a: string, f: string, b: string)
    requires a != [] && !IsFiller(a[|a| - 1])
    ensures DropFillers(a + f + b) == DropFillers(a) + f + b
  {
    DropFillersAppend(a, f + b);
    Assoc(a, f, b);
    Assoc(DropFillers(a), f, b);
  }

  lemma DropEmpty(e: string, y: string, z: string)
    requires e == []
    ensures e + y + z == y + z
  {
  }

  /** `Collapse` of a text that starts with a run of fillers. */
  lemma CollapseFrontRun(f: string, b: string)
    requires b == [] || !IsFiller(b[0])
    requires forall i :: 0 <= i < |f| ==> IsFiller(f[i])
    ensures Collapse(f + b) == (if f == [] then "" else " ") + Collapse(b)
  {
    if f != [] {
      assert (f + b)[1..] == f[1..] + b;
      DropFillerRun(f[1..], b);
    } else {
      assert f + b == b;
    }
  }

  /** `Collapse` of `a + f + b` when `a` starts with a filler and ends in
      a non-filler: the leading run of `a` becomes a space. */
  lemma CollapseFillerHead(a: string, f: string, b: string)
    requires a != [] && IsFiller(a[0]) && !IsFiller(a[|a| - 1])
    ensures Collapse(a + f + b) == " " + Collapse(DropFillers(a[1..]) + f + b)
  {
    var a1 := a[1..];
    assert a1 != [] && a1[|a1| - 1] == a[|a| - 1];
    Tail3(a, f, b);
    DropFillersAppend3(a1, f, b);
  }

  /** `Collapse` of `a + f + b` when `a` starts with a non-filler. */
  lemma CollapseSolidHead(a: string, f: string, b: string)
    requires a != [] && !IsFiller(a[0])
    ensures Collapse(a + f + b) == [a[0]] + Collapse(a[1..] + f + b)
  {
    Tail3(a, f, b);
  }

  /** One step of `CollapseJoin` past a leading filler run of `a`. */
  lemma CollapseJoinFillerStep(a: string, f: string, b: string, sep: string)
    requires a != [] && IsFiller(a[0]) && !IsFiller(a[|a| - 1])
    requires var d := DropFillers(a[1..]);
      Collapse(d + f + b) == Collapse(d) + sep + Collapse(b)
    ensures Collapse(a + f + b) == Collapse(a) + sep + Collapse(b)
  {
    var d := DropFillers(a[1..]);
    CollapseFillerHead(a, f, b);
    assert Collapse(a) == " " + Collapse(d);
    Regroup(" ", Collapse(d), sep, Collapse(b));
  }

  /** One step of `CollapseJoin` past a leading non-filler of `a`. */
  lemma CollapseJoinSolidStep(a: string, f: string, b: string, sep: string)
    requires a != [] && !IsFiller(a[0])
    requires Collapse(a[1..] + f + b) == Collapse(a[1..]) + sep + Collapse(b)
    ensures Collapse(a + f + b) == Collapse(a) + sep + Collapse(b)
  {
    CollapseSolidHead(a, f, b);
    assert Collapse(a) == [a[0]] + Collapse(a[1..]);
    Regroup([a[0]], Collapse(a[1..]), sep, Collapse(b));
  }

  /** `CollapseJoin` with nothing in front of the run. */
  lemma CollapseJoinEmpty(f: string, b: string)
    requires b == [] || !IsFiller(b[0])
    requires forall i :: 0 <= i < |f| ==> IsFiller(f[i])
    ensures Collapse([] + f + b) == Collapse([]) + (if f == [] then "" else " ") + Collapse(b)
  {
    assert [] + f + b == f + b;
    CollapseFrontRun(f, b);
    DropEmpty(Collapse([]), if f == [] then "" else " ", Collapse(b));
  }

  /** Dropping the leading run of a text that ends in a non-filler keeps
      that last character. */
  lemma DropFillersKeepsLast(a: string)
    requires a != [] && !IsFiller(a[|a| - 1])
    ensures var d := DropFillers(a[1..]);
      |d| < |a| && (a[1..] == [] || (d != [] && !IsFiller(d[|d| - 1])))
  {
    var a1 := a[1..];
    if a1 != [] {
      DropsOnlyFillers(a1);
      assert a1[|a1| - 1] == a[|a| - 1];
    }
  }

  /** Each maximal run of fillers becomes exactly one space: with `f` the
      whole run between `a` and `b`, the text collapses piece by piece. */
  lemma {:induction false} CollapseJoin(a: string, f: string, b: string)
    requires a == [] || !IsFiller(a[|a| - 1])
    requires b == [] || !IsFiller(b[0])
    requires forall i :: 0 <= i < |f| ==> IsFiller(f[i])
    ensures Collapse(a + f + b) == Collapse(a) + (if f == [] then "" else " ") + Collapse(b)
    decreases |a|
  {
    var sep := if f == [] then "" else " ";
    if a == [] {
      CollapseJoinEmpty(f, b);
    } else if IsFiller(a[0]) {
      DropFillersKeepsLast(a);
      CollapseJoin(DropFillers(a[1..]), f, b);
      CollapseJoinFillerStep(a, f, b, sep);
    } else {
      CollapseJoin(a[1..], f, b);
      CollapseJoinSolidStep(a, f, b, sep);
    }
  }

  /** The text with every filler character removed. */
  function Solid(s: string): (r: string)
    ensures |r| <= |s|
    ensures forall i :: 0 <= i < |r| ==> !IsFiller(r[i])
  {
    if s == [] then [] else (if IsFiller(s[0]) then [] else [s[0]]) + Solid(s[1..])
  }

  lemma {:induction false} SolidDropFillers(s: string)
    ensures Solid(DropFillers(s)) == Solid(s)
  {
    if s != [] && IsFiller(s[0]) {
      SolidDropFillers(s[1..]);
    }
  }

  /** Collapsing changes only the filler characters: the rest of the text
      comes through unchanged and in order. */
  lemma {:induction false} CollapseKeepsSolid(s: string)
    ensures Solid(Collapse(s)) == Solid(s)
    decreases |s|
  {
    if s == [] {
    } else if IsFiller(s[0]) {
      var t := DropFillers(s[1..]);
      CollapseKeepsSolid(t);
      SolidDropFillers(s[1..]);
      assert (" " + Collapse(t))[1..] == Collapse(t);
    } else {
      CollapseKeepsSolid(s[1..]);
      assert ([s[0]] + Collapse(s[1..]))[1..] == Collapse(s[1..]);
    }
  }

  /** The message text every rule looks at. */
  function Normalise(msg: string): (r: string)
    ensures Solid(r) == Solid(Trim(msg))
    ensures forall i :: 0 <= i < |r| && IsFiller(r[i]) ==> r[i] == ' '
    ensures forall i :: 0 <= i < |r| - 1 && IsFiller(r[i]) ==> !IsFiller(r[i + 1])
  {
    CollapseKeepsSolid(Trim(msg));
    CollapseRuns(Trim(msg));
    Collapse(Trim(msg))
  }

  /** Two words of a trimmed message keep exactly one space between them,
      however many fillers separated them. */
  lemma NormaliseJoin(a: string, f: string, b: string)
    requires a != [] && !IsSpace(a[0]) && !IsFiller(a[|a| - 1])
    requires b != [] && !IsFiller(b[0]) && !IsSpace(b[|b| - 1])
    requires f != [] && forall i :: 0 <= i < |f| ==> IsFiller(f[i])
    ensures Normalise(a + f + b) == Collapse(a) + " " + Collapse(b)
  {
    var m := a + f + b;
    assert m[0] == a[0] && m[|m| - 1] == b[|b| - 1];
    TrimKeeps(m);
    CollapseJoin(a, f, b);
  }

  // ---------------------------------------------------------------------
  // The four rules.
  // ---------------------------------------------------------------------

  /** `text` contains one of `phrases`. */
  predicate HasPhrase(text: string, phrases: seq<string>) {
    exists p :: p in phrases && Contains(text, p)
  }

  /** The banned-phrase search: the phrases are tried in order and the
      search stops at the first one found in `text`. */
  method FindBannedPhrase(text: string, phrases: seq<string>) returns (found: bool)
    ensures found <==> HasPhrase(text, phrases)
  {
    found := false;
    var i := 0;
    while i < |phrases|
      invariant 0 <= i <= |phrases|
      invariant forall k :: 0 <= k < i ==> !Contains(text, phrases[k])
    {
      if IndexOf(text, phrases[i]).Some? {
        found := true;
        assert phrases[i] in phrases && Contains(text, phrases[i]);
        return;
      }
      i := i + 1;
    }
    assert forall p :: p in phrases ==> !Contains(text, p);
  }

  /** Flooding: the fifth-latest message (the new one included) lies
      between 2.5 and 6 seconds back. */
  predicate IsFlooding(times: seq<int>, now: int)
    ensures IsFlooding(times, now) ==> |times| >= FloodMessageNum && times[|times| - FloodMessageNum] < now
  {
    |times| >= FloodMessageNum
    && now - times[|times| - FloodMessageNum] < FloodMessageTime
    && now - times[|times| - FloodMessageNum] > FloodPerMsgMin * FloodMessageNum
  }

  /** Five messages within 2.5 seconds are taken for lag, not flooding. */
  lemma BurstIsNotFlooding(times: seq<int>, now: int)
    requires |times| >= FloodMessageNum
    requires forall k :: |times| - FloodMessageNum <= k < |times| ==> now - times[k] <= 2500
    ensures !IsFlooding(times, now)
  {
    var k := |times| - FloodMessageNum;
    assert now - times[k] <= 2500;
  }

  /** Only the fifth-latest time matters: earlier history never changes the
      verdict. */
  lemma FloodingLooksBackFive(older: seq<int>, recent: seq<int>, now: int)
    requires |recent| == FloodMessageNum
    ensures IsFlooding(older + recent, now) <==>
      (2500 < now - recent[0] < 6000)
  {
    assert (older + recent)[|older + recent| - FloodMessageNum] == recent[0];
  }

  /** The number of ASCII capitals in `s`. */
  function CountUpper(s: string): (r: nat)
    ensures r <= |s|
  {
    if s == [] then 0 else (if IsUpper(s[0]) then 1 else 0) + CountUpper(s[1..])
  }

  /** Caps: more than 18 id characters, and at least four fifths of them
      (rounded down) matched by capitals. */
  predicate IsCaps(msg: string)
    ensures IsCaps(msg) ==> |msg| > MinCapsLength && CountUpper(msg) > 0
  {
    var u := CountUpper(msg);
    var n := |ToId(msg)|;
    u > 0 && n > MinCapsLength && u >= (4 * n) / 5
  }

  /** A message of capitals only counts every capital towards the id. */
  lemma {:induction false} AllCapsCounts(msg: string)
    requires forall i :: 0 <= i < |msg| ==> IsUpper(msg[i])
    ensures CountUpper(msg) == |msg| && |ToId(msg)| == |msg|
  {
    if msg != [] {
      AllCapsCounts(msg[1..]);
    }
  }

  /** Nineteen or more capitals in a row are caps; eighteen never are. */
  lemma ShoutingIsCaps(msg: string)
    requires forall i :: 0 <= i < |msg| ==> IsUpper(msg[i])
    ensures IsCaps(msg) <==> |msg| > MinCapsLength
  {
    AllCapsCounts(msg);
  }

  predicate IsLineTerminator(c: char) {
    c == '\n' || c == '\r' || c == '\U{2028}' || c == '\U{2029}'
  }

  /** Equal up to ASCII case, as a case-insensitive back-reference compares. */
  predicate SameFold(a: char, b: char) {
    LowerChar(a) == LowerChar(b)
  }

  /** `(.)\1{7,}` matches at `i`: a character that is not a line terminator,
      then seven more copies of it. */
  predicate CharRunAt(s: string, i: nat) {
    i + 8 <= |s| && !IsLineTerminator(s[i]) && forall j :: i < j < i + 8 ==> SameFold(s[j], s[i])
  }

  /** `(..+)\1{4,}` matches at `i` with a group of length `len`: the group
      holds no line terminator and is followed by four more copies. */
  predicate GroupRunAt(s: string, i: nat, len: nat) {
    2 <= len && i + 5 * len <= |s|
    && (forall j :: i <= j < i + len ==> !IsLineTerminator(s[j]))
    && forall j :: i + len <= j < i + 5 * len ==> Echoes(s, i, len, j)
  }

  /** Position `j` repeats the character at the same offset of the group of
      length `len` at `i`. */
  predicate Echoes(s: string, i: nat, len: nat, j: nat)
    requires 0 < len && i <= j < |s|
  {
    SameFold(s[j], s[i + (j - i) % len])
  }

  predicate IsStretching(s: string)
    ensures IsStretching(s) ==> |s| >= 8
  {
    (exists i :: 0 <= i < |s| && CharRunAt(s, i))
    || (exists i, len :: 0 <= i < |s| && 0 <= len <= |s| && GroupRunAt(s, i, len))
  }

  lemma CharRunShift(pre: string, s: string, post: string, i: nat)
    requires CharRunAt(s, i)
    ensures CharRunAt(pre + s + post, |pre| + i)
  {
    var t := pre + s + post;
    assert forall j :: |pre| <= j < |pre| + |s| ==> t[j] == s[j - |pre|];
  }

  lemma GroupRunShift(pre: string, s: string, post: string, i: nat, len: nat)
    requires GroupRunAt(s, i, len)
    ensures GroupRunAt(pre + s + post, |pre| + i, len)
  {
    var t := pre + s + post;
    var n := |pre|;
    var start := n + i;
    forall j | start <= j < start + len
      ensures !IsLineTerminator(t[j])
    {
      assert t[j] == s[j - n];
    }
    forall j | start + len <= j < start + 5 * len
      ensures Echoes(t, start, len, j)
    {
      var k := j - n;
      assert Echoes(s, i, len, k);
      var o := (k - i) % len;
      assert j - start == k - i;
      assert t[j] == s[k];
      assert t[start + o] == s[i + o];
    }
  }

  /** The stretching test searches the whole message: text around a
      stretched run does not hide it. */
  lemma StretchingAnywhere(pre: string, s: string, post: string)
    requires IsStretching(s)
    ensures IsStretching(pre + s + post)
  {
    var t := pre + s + post;
    if exists i :: 0 <= i < |s| && CharRunAt(s, i) {
      var i :| 0 <= i < |s| && CharRunAt(s, i);
      CharRunShift(pre, s, post, i);
      assert 0 <= |pre| + i < |t| && CharRunAt(t, |pre| + i);
    } else {
      var i, len :| 0 <= i < |s| && 0 <= len <= |s| && GroupRunAt(s, i, len);
      GroupRunShift(pre, s, post, i, len);
      assert 0 <= |pre| + i < |t| && 0 <= len <= |t| && GroupRunAt(t, |pre| + i, len);
    }
  }

  /** Eight copies of a character that is not a line terminator stretch. */
  lemma EightCopiesStretch(c: char, s: string)
    requires !IsLineTerminator(c) && |s| == 8
    requires forall k :: 0 <= k < 8 ==> s[k] == c
    ensures IsStretching(s)
  {
    assert CharRunAt(s, 0);
  }

  // ---------------------------------------------------------------------
  // Severity and reason.
  // ---------------------------------------------------------------------

  /** A rule that fired: its points and its reason text. */
  datatype Hit = Hit(points: nat, reason: string)

  function Max(a: nat, b: nat): nat {
    if a >= b then a else b
  }

  /** The largest number of points among the hits; 0 with no hit. */
  function Severity(hs: seq<Hit>): nat {
    if hs == [] then 0 else Max(hs[0].points, Severity(hs[1..]))
  }

  /** The severity is the maximum of the hits' points. */
  lemma {:induction false} SeverityIsMax(hs: seq<Hit>)
    ensures forall k :: 0 <= k < |hs| ==> hs[k].points <= Severity(hs)
    ensures hs != [] ==> exists k :: 0 <= k < |hs| && hs[k].points == Severity(hs)
    ensures hs == [] ==> Severity(hs) == 0
  {
    if hs != [] {
      var rest := hs[1..];
      SeverityIsMax(rest);
      assert forall k :: 1 <= k < |hs| ==> hs[k] == rest[k - 1];
      if hs[0].points < Severity(rest) {
        var k :| 0 <= k < |rest| && rest[k].points == Severity(rest);
        assert hs[k + 1].points == Severity(hs);
      }
    }
  }

  /** The reason of the first hit worth the severity; "" with no hit. */
  function Reason(hs: seq<Hit>): string {
    if hs == [] then ""
    else if hs[0].points >= Severity(hs[1..]) then hs[0].reason
    else Reason(hs[1..])
  }

  /** The reason comes from a hit worth the maximum, and no earlier hit is
      worth that much. */
  lemma {:induction false} ReasonIsFirstMax(hs: seq<Hit>)
    requires hs != []
    ensures exists j :: 0 <= j < |hs| && hs[j].points == Severity(hs) && Reason(hs) == hs[j].reason
                        && forall k :: 0 <= k < j ==> hs[k].points < Severity(hs)
  {
    var rest := hs[1..];
    if hs[0].points >= Severity(rest) {
      assert hs[0].points == Severity(hs);
    } else {
      ReasonIsFirstMax(rest);
      var j :| 0 <= j < |rest| && rest[j].points == Severity(rest) && Reason(rest) == rest[j].reason
                 && forall k :: 0 <= k < j ==> rest[k].points < Severity(rest);
      assert hs[j + 1] == rest[j];
      assert forall k :: 1 <= k < j + 1 ==> hs[k] == rest[k - 1];
    }
  }

  /** The moderation settings of the bot (`settings.modding`,
      `settings.banword`, `settings.bannedphrases`). A room present in
      `modding` has an override: the set holds the keys present in it. */
  datatype Settings = Settings(
    modding: map<string, set<string>>,
    banword: map<string, bool>,
    bannedPhrases: map<string, seq<string>>)

  /** A rule with override key `key` applies in `room`. */
  predicate RuleOn(st: Settings, room: string, key: string) {
    room !in st.modding || key !in st.modding[room]
  }

  /** The banned-phrase rule applies: no override, or no `banword` flag. */
  predicate BannedOn(st: Settings, room: string) {
    room !in st.modding || room !in st.banword || !st.banword[room]
  }

  /** The room's own phrases, then the global ones. */
  function Phrases(st: Settings, room: string): (r: seq<string>)
    ensures forall p :: p in r <==>
      (room in st.bannedPhrases && p in st.bannedPhrases[room])
      || ("global" in st.bannedPhrases && p in st.bannedPhrases["global"])
  {
    (if room in st.bannedPhrases then st.bannedPhrases[room] else [])
    + (if "global" in st.bannedPhrases then st.bannedPhrases["global"] else [])
  }

  /** `rest`, preceded by `h` when its rule fired. */
  function Fire(fired: bool, h: Hit, rest: seq<Hit>): seq<Hit> {
    if fired then [h] + rest else rest
  }

  /** The hits of the rules that fired, in the order the rules are checked:
      banned phrase, flooding, caps, stretching. */
  function HitsOf(banned: bool, flood: bool, caps: bool, stretch: bool): (r: seq<Hit>)
    ensures |r| <= 4
    ensures forall k :: 0 <= k < |r| ==> 1 <= r[k].points <= 2
  {
    Fire(banned, Hit(2, BannedReason),
      Fire(flood, Hit(2, FloodReason),
        Fire(caps, Hit(1, CapsReason),
          Fire(stretch, Hit(1, StretchReason), []))))
  }

  /** The rules that fire on normalised `msg` in `room`; `times` already
      ends with `now`. */
  function Hits(st: Settings, room: string, msg: string, times: seq<int>, now: int): (r: seq<Hit>)
    ensures |r| <= 4
    ensures forall k :: 0 <= k < |r| ==> 1 <= r[k].points <= 2
  {
    HitsOf(BannedOn(st, room) && HasPhrase(Lower(msg), Phrases(st, room)),
           RuleOn(st, room, "flooding") && IsFlooding(times, now),
           RuleOn(st, room, "caps") && IsCaps(msg),
           RuleOn(st, room, "stretching") && IsStretching(msg))
  }

  /** A hit in front takes the reason unless a later hit is worth more. */
  lemma FireStep(fired: bool, h: Hit, rest: seq<Hit>)
    ensures Severity(Fire(fired, h, rest)) == if fired then Max(h.points, Severity(rest)) else Severity(rest)
    ensures Reason(Fire(fired, h, rest)) ==
      if fired && h.points >= Severity(rest) then h.reason else Reason(rest)
  {
    if fired {
      assert ([h] + rest)[0] == h;
      assert ([h] + rest)[1..] == rest;
    }
  }

  /** The rules' outcome in closed form: two points when a banned phrase
      or flooding is found, else one for caps or stretching; the reason is
      that of the first rule, in checking order, worth that much. */
  lemma RuleOutcome(b1: bool, b2: bool, b3: bool, b4: bool)
    ensures Severity(HitsOf(b1, b2, b3, b4)) == (if b1 || b2 then 2 else if b3 || b4 then 1 else 0)
    ensures Reason(HitsOf(b1, b2, b3, b4)) ==
      if b1 then BannedReason else if b2 then FloodReason
      else if b3 then CapsReason else if b4 then StretchReason else ""
  {
    var h4 := Fire(b4, Hit(1, StretchReason), []);
    var h3 := Fire(b3, Hit(1, CapsReason), h4);
    var h2 := Fire(b2, Hit(2, FloodReason), h3);
    FireStep(b4, Hit(1, StretchReason), []);
    FireStep(b3, Hit(1, CapsReason), h4);
    FireStep(b2, Hit(2, FloodReason), h3);
    FireStep(b1, Hit(2, BannedReason), h2);
  }

  /** The rule pass of `processChatData`: points and reason start at 0 and
      "", and each rule that fires overwrites them when it is worth more. */
  method Assess(st: Settings, room: string, msg: string, times: seq<int>, now: int)
    returns (pointVal: nat, muteMessage: string)
    ensures pointVal == Severity(Hits(st, room, msg, times, now))
    ensures muteMessage == Reason(Hits(st, room, msg, times, now))
  {
    pointVal := 0;
    muteMessage := "";
    var useDefault := room !in st.modding;
    var banned := false;
    if (useDefault || room !in st.banword || !st.banword[room]) && pointVal < 2 {
      banned := FindBannedPhrase(Lower(msg), Phrases(st, room));
      if banned {
        pointVal := 2;
        muteMessage := BannedReason;
      }
    }
    var flood := (useDefault || "flooding" !in st.modding[room]) && IsFlooding(times, now);
    if flood {
      if pointVal < 2 {
        pointVal := 2;
        muteMessage := FloodReason;
      }
    }
    var caps := (useDefault || "caps" !in st.modding[room]) && IsCaps(msg);
    if caps {
      if pointVal < 1 {
        pointVal := 1;
        muteMessage := CapsReason;
      }
    }
    var stretch := (useDefault || "stretching" !in st.modding[room]) && IsStretching(msg);
    if stretch {
      if pointVal < 1 {
        pointVal := 1;
        muteMessage := StretchReason;
      }
    }
    RuleOutcome(banned, flood, caps, stretch);
    assert Hits(st, room, msg, times, now) == HitsOf(banned, flood, caps, stretch);
  }

  /** With an override, a rule whose key is present never fires, whatever
      value the key holds. */
  lemma OverrideKeyDisables(st: Settings, room: string, msg: string, times: seq<int>, now: int)
    requires room in st.modding && "flooding" in st.modding[room]
    requires "caps" in st.modding[room] && "stretching" in st.modding[room]
    ensures Severity(Hits(st, room, msg, times, now)) == (if BannedOn(st, room) && HasPhrase(Lower(msg), Phrases(st, room)) then 2 else 0)
  {
  }

  // ---------------------------------------------------------------------
  // The punishment ladder.
  // ---------------------------------------------------------------------

  /** `Config.punishvals[p] || 'mute'` */
  function Rung(ladder: map<int, string>, p: int): (r: string)
    ensures r != ""
    ensures p in ladder && ladder[p] != "" ==> r == ladder[p]
    ensures !(p in ladder && ladder[p] != "") ==> r == "mute"
  {
    if p in ladder && ladder[p] != "" then ladder[p] else "mute"
  }

  /** The new points of a record with `points` hit by a rule worth `sev`:
      one more than before when the record already holds as much, the
      rule's worth otherwise. */
  function Escalate(points: nat, sev: nat): (r: nat)
    ensures sev < 4 ==> r > points && r >= sev
    ensures r == points + 1 || r == sev
  {
    if points >= sev && sev < 4 then points + 1 else sev
  }

  /** What an action does: the command sent, the reason appended to it,
      and the record's new points and the user's new zero-tolerance level. */
  datatype Decision = Decision(command: string, reason: string, points: nat, zeroTol: nat)

  /** The action of `processChatData` once a rule worth `sev` fired past
      the cooldown: ladder lookup, then the private-room, rank and
      zero-tolerance adjustments. */
  function Decide(points: nat, sev: nat, zeroTol: nat, reason: string,
                  isPrivate: bool, botIsMod: bool, ladder: map<int, string>): (r: Decision)
    ensures r.points == Escalate(points, sev)
    ensures isPrivate ==> r.command != "warn"
    ensures zeroTol <= 4 && !(r.points >= 4 && !botIsMod) && isPrivate && Rung(ladder, r.points) == "warn"
            ==> r.command == "mute"
    ensures r.command == "roomban" ==> botIsMod || Rung(ladder, r.points) == "roomban"
    ensures !botIsMod && (r.points >= 4 || zeroTol > 4) ==> r.command == "hourmute"
    ensures zeroTol > 4 ==> r.command == (if botIsMod then "roomban" else "hourmute") && r.reason == ZeroTolReason
    ensures zeroTol <= 4 ==> r.reason == reason
    ensures zeroTol <= 4 && !(r.points >= 4 && !botIsMod) && !(isPrivate && Rung(ladder, r.points) == "warn")
            ==> r.command == Rung(ladder, r.points)
    ensures r.zeroTol == (if r.points > 1 then zeroTol + 1 else zeroTol)
  {
    var p := Escalate(points, sev);
    var cmd := Rung(ladder, p);
    var cmd := if isPrivate && cmd == "warn" then "mute" else cmd;
    var cmd := if p >= 4 && !botIsMod then "hourmute" else cmd;
    var (cmd, why) := if zeroTol > 4 then (if botIsMod then "roomban" else "hourmute", ZeroTolReason) else (cmd, reason);
    Decision(cmd, why, p, if p > 1 then zeroTol + 1 else zeroTol)
  }

  /** The action step of `processChatData`, statement by statement. */
  method Punish(points: nat, pointVal: nat, zeroTol: nat, muteMessage: string,
                isPrivate: bool, botIsMod: bool, ladder: map<int, string>) returns (d: Decision)
    ensures d == Decide(points, pointVal, zeroTol, muteMessage, isPrivate, botIsMod, ladder)
  {
    var cmd := "mute";
    var newPoints := points;
    var newZeroTol := zeroTol;
    var reason := muteMessage;
    if newPoints >= pointVal && pointVal < 4 {
      newPoints := newPoints + 1;
      cmd := Rung(ladder, newPoints);
    } else {
      cmd := Rung(ladder, pointVal);
      newPoints := pointVal;
    }
    if isPrivate && cmd == "warn" {
      cmd := "mute";
    }
    if newPoints >= 4 && !botIsMod {
      cmd := "hourmute";
    }
    if newZeroTol > 4 {
      reason := ZeroTolReason;
      cmd := if botIsMod then "roomban" else "hourmute";
    }
    if newPoints > 1 {
      newZeroTol := newZeroTol + 1;
    }
    d := Decision(cmd, reason, newPoints, newZeroTol);
  }

  /** The ladder is not capped: a record at 4 points hit again goes to 5. */
  lemma PointsPassFour(zeroTol: nat, reason: string, isPrivate: bool, botIsMod: bool, ladder: map<int, string>)
    ensures Decide(4, 1, zeroTol, reason, isPrivate, botIsMod, ladder).points == 5
  {
  }

  /** Repeated actions climb the ladder one rung at a time once the record
      holds the rule's worth. */
  lemma {:induction false} RepeatedActionsClimb(points: nat, sev: nat, n: nat)
    requires 1 <= sev <= 2 && points >= sev
    ensures Repeat(points, sev, n) == points + n
  {
    if n > 0 {
      RepeatedActionsClimb(points, sev, n - 1);
    }
  }

  /** The points after `n` actions for rules worth `sev`. */
  function Repeat(points: nat, sev: nat, n: nat): (r: nat)
    ensures sev < 4 && n > 0 ==> r > points
  {
    if n == 0 then points else Escalate(Repeat(points, sev, n - 1), sev)
  }
}
