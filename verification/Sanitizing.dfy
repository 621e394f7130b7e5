// Diagnostics made safe to show: userinfo redacted, terminal escapes and
// controls removed, length bounded. Text is bytes; the library's reading of
// bytes as runes is that of UTF-8 (section 4 of RFC 3629).
module Sanitizing {
  import opened Common
  import opened Streams

  // ---- Runes, each written as its bytes

  type Rune = seq<byte>

  const REPLACEMENT: Rune := [0xEF, 0xBF, 0xBD]
  const ELLIPSIS: Rune := [0xE2, 0x80, 0xA6]
  const ESC: byte := 0x1B

  predicate Continues(c: byte) {
    0x80 <= c <= 0xBF
  }

  /** The second byte of a longer rune; the ends of the range are narrower. */
  predicate Second(first: byte, c: byte) {
    Continues(c) && (first == 0xE0 ==> c >= 0xA0) && (first == 0xED ==> c <= 0x9F) &&
    (first == 0xF0 ==> c >= 0x90) && (first == 0xF4 ==> c <= 0x8F)
  }

  /** How long the rune at the head is; zero when there is none. */
  function RuneLength(s: seq<byte>): (n: nat)
    requires s != []
    ensures n <= |s|
  {
    if s[0] < 0x80 then 1
    else if 0xC2 <= s[0] <= 0xDF && |s| >= 2 && Continues(s[1]) then 2
    else if 0xE0 <= s[0] <= 0xEF && |s| >= 3 && Second(s[0], s[1]) && Continues(s[2]) then 3
    else if 0xF0 <= s[0] <= 0xF4 && |s| >= 4 && Second(s[0], s[1]) && Continues(s[2]) && Continues(s[3]) then 4
    else 0
  }

  predicate ValidRune(r: Rune) {
    r != [] && RuneLength(r) == |r|
  }

  predicate ValidText(s: seq<byte>) {
    s == [] || (RuneLength(s) > 0 && ValidText(s[RuneLength(s)..]))
  }

  /** A byte that starts no rune reads as the replacement rune. */
  function RunesOf(s: seq<byte>): (runes: seq<Rune>)
    ensures |runes| <= |s| && forall i :: 0 <= i < |runes| ==> ValidRune(runes[i])
  {
    if s == [] then []
    else if RuneLength(s) == 0 then [REPLACEMENT] + RunesOf(s[1..])
    else [s[..RuneLength(s)]] + RunesOf(s[RuneLength(s)..])
  }

  function Text(runes: seq<Rune>): seq<byte> {
    if runes == [] then [] else runes[0] + Text(runes[1..])
  }

  lemma RuneAtHead(r: Rune, rest: seq<byte>)
    requires ValidRune(r)
    ensures RuneLength(r + rest) == |r| && (r + rest)[..|r|] == r && (r + rest)[|r|..] == rest
  {
  }

  /** Text written from runes reads back as them. */
  lemma {:induction false} RunesBack(runes: seq<Rune>)
    requires forall i :: 0 <= i < |runes| ==> ValidRune(runes[i])
    ensures RunesOf(Text(runes)) == runes && ValidText(Text(runes))
  {
    if runes != [] {
      RuneAtHead(runes[0], Text(runes[1..]));
      RunesBack(runes[1..]);
    }
  }

  /** Rewriting text rune by rune changes it exactly when it is not valid. */
  lemma {:induction false} RewriteKeepsValid(s: seq<byte>)
    ensures |Text(RunesOf(s))| >= |s| && (Text(RunesOf(s)) == s <==> ValidText(s))
  {
    if s != [] {
      var n := RuneLength(s);
      if n == 0 {
        RewriteKeepsValid(s[1..]);
        assert Text(RunesOf(s)) == REPLACEMENT + Text(RunesOf(s[1..]));
      } else {
        RewriteKeepsValid(s[n..]);
        assert Text(RunesOf(s)) == s[..n] + Text(RunesOf(s[n..]));
        assert s == s[..n] + s[n..];
        assert (s[..n] + Text(RunesOf(s[n..])))[n..] == Text(RunesOf(s[n..]));
      }
    }
  }

  lemma Regroup(a: seq<byte>, b: seq<byte>, c: seq<byte>)
    ensures a + (b + c) == a + b + c
  {
  }

  lemma Cut(a: seq<byte>, b: seq<byte>)
    ensures (a + b)[..|a|] == a && (a + b)[|a|..] == b
  {
  }

  lemma {:induction false} TextOfMore(a: seq<Rune>, b: seq<Rune>)
    ensures Text(a + b) == Text(a) + Text(b)
  {
    if a == [] {
      assert a + b == b;
    } else {
      TextOfMore(a[1..], b);
      assert (a + b)[1..] == a[1..] + b;
      Regroup(a[0], Text(a[1..]), Text(b));
    }
  }

  // ---- Controls

  predicate Control(c: byte) {
    c < 0x20 || c == 0x7F
  }

  predicate Clean(s: seq<byte>) {
    forall i :: 0 <= i < |s| ==> !Control(s[i])
  }

  /** What one rune is shown as; nothing for most controls. */
  function Shown(r: Rune): Option<Rune>
    requires r != []
  {
    if r == [10] || r == [13] || r == [9] then Some([0x20])
    else if Control(r[0]) then None
    else Some(r)
  }

  function ShownAll(runes: seq<Rune>): (shown: seq<Rune>)
    requires forall i :: 0 <= i < |runes| ==> ValidRune(runes[i])
    ensures |shown| <= |runes| && forall i :: 0 <= i < |shown| ==> ValidRune(shown[i]) && !Control(shown[i][0])
  {
    if runes == [] then [] else
      assert ValidRune(runes[0]);
      var first := Shown(runes[0]);
      (if first.Some? then [first.value] else []) + ShownAll(runes[1..])
  }

  /** A rune that does not start with a control has none. */
  lemma {:induction false} TextIsClean(runes: seq<Rune>)
    requires forall i :: 0 <= i < |runes| ==> ValidRune(runes[i]) && !Control(runes[i][0])
    ensures Clean(Text(runes))
  {
    if runes != [] {
      assert Clean(runes[0]);
      TextIsClean(runes[1..]);
    }
  }

  lemma {:induction false} CleanIsShown(s: seq<byte>)
    requires Clean(s)
    ensures ShownAll(RunesOf(s)) == RunesOf(s)
  {
    if s != [] {
      var n := RuneLength(s);
      CleanIsShown(if n == 0 then s[1..] else s[n..]);
      assert Shown(RunesOf(s)[0]) == Some(RunesOf(s)[0]);
    }
  }

  // ---- Escape sequences

  predicate Final(c: byte) {
    0x40 <= c <= 0x7E
  }

  /** Parameters, through the first final byte. */
  function CsiLength(s: seq<byte>): (n: nat)
    ensures n <= |s|
  {
    if s == [] then 0 else if Final(s[0]) then 1 else 1 + CsiLength(s[1..])
  }

  /** A title, through BEL or ESC backslash. */
  function OscLength(s: seq<byte>): (n: nat)
    ensures n <= |s|
  {
    if s == [] then 0
    else if s[0] == 7 then 1
    else if s[0] == ESC && |s| > 1 && s[1] == 0x5C then 2
    else 1 + OscLength(s[1..])
  }

  /** The escape sequence at the head. */
  function EscapeLength(s: seq<byte>): (n: nat)
    requires s != []
    ensures 0 < n <= |s|
  {
    if |s| == 1 then 1
    else if s[1] == 0x5B then 2 + CsiLength(s[2..])
    else if s[1] == 0x5D then 2 + OscLength(s[2..])
    else if s[1] in {0x28, 0x29, 0x23} && |s| > 2 then 3
    else 2
  }

  function Stripped(s: seq<byte>): seq<byte> {
    if s == [] then []
    else if s[0] != ESC then [s[0]] + Stripped(s[1..])
    else Stripped(s[EscapeLength(s)..])
  }

  lemma {:induction false} NothingToStrip(s: seq<byte>)
    requires ESC !in s
    ensures Stripped(s) == s
  {
    if s != [] {
      NothingToStrip(s[1..]);
    }
  }

  lemma {:induction false} PlainStays(before: seq<byte>, s: seq<byte>)
    requires ESC !in before
    ensures Stripped(before + s) == before + Stripped(s)
  {
    if before == [] {
      assert before + s == s;
    } else {
      assert (before + s)[1..] == before[1..] + s;
      PlainStays(before[1..], s);
      Regroup([before[0]], before[1..], Stripped(s));
      assert [before[0]] + before[1..] == before;
    }
  }

  lemma {:induction false} CsiThrough(params: seq<byte>, final: byte, behind: seq<byte>)
    requires Final(final) && forall i :: 0 <= i < |params| ==> !Final(params[i])
    ensures CsiLength(params + ([final] + behind)) == |params| + 1
  {
    if params != [] {
      assert (params + ([final] + behind))[1..] == params[1..] + ([final] + behind);
      CsiThrough(params[1..], final, behind);
    }
  }

  lemma {:induction false} OscThrough(title: seq<byte>, end: seq<byte>, behind: seq<byte>)
    requires ESC !in title && 7 !in title && (end == [7] || end == [ESC, 0x5C])
    ensures OscLength(title + (end + behind)) == |title| + |end|
  {
    if title != [] {
      assert (title + (end + behind))[1..] == title[1..] + (end + behind);
      OscThrough(title[1..], end, behind);
    }
  }

  lemma StripsHead(s: seq<byte>, n: nat, behind: seq<byte>)
    requires s != [] && s[0] == ESC && EscapeLength(s) == n && s[n..] == behind
    ensures Stripped(s) == Stripped(behind)
  {
  }

  lemma CsiAtHead(params: seq<byte>, final: byte, behind: seq<byte>)
    requires Final(final) && forall i :: 0 <= i < |params| ==> !Final(params[i])
    ensures var s := [ESC, 0x5B] + (params + ([final] + behind));
      EscapeLength(s) == |params| + 3 && s[|params| + 3..] == behind
  {
    CsiThrough(params, final, behind);
    Cut([ESC, 0x5B], params + ([final] + behind));
  }

  lemma OscAtHead(title: seq<byte>, end: seq<byte>, behind: seq<byte>)
    requires ESC !in title && 7 !in title && (end == [7] || end == [ESC, 0x5C])
    ensures var s := [ESC, 0x5D] + (title + (end + behind));
      EscapeLength(s) == 2 + |title| + |end| && s[2 + |title| + |end|..] == behind
  {
    OscThrough(title, end, behind);
    Cut([ESC, 0x5D], title + (end + behind));
  }

  /** A complete control sequence vanishes whole, with nothing around it. */
  lemma CsiVanishes(before: seq<byte>, params: seq<byte>, final: byte, behind: seq<byte>)
    requires ESC !in before && Final(final) && forall i :: 0 <= i < |params| ==> !Final(params[i])
    ensures Stripped(before + ([ESC, 0x5B] + (params + ([final] + behind)))) == before + Stripped(behind)
  {
    var s := [ESC, 0x5B] + (params + ([final] + behind));
    CsiAtHead(params, final, behind);
    StripsHead(s, |params| + 3, behind);
    PlainStays(before, s);
  }

  /** So does a title, ended either way. */
  lemma OscVanishes(before: seq<byte>, title: seq<byte>, end: seq<byte>, behind: seq<byte>)
    requires ESC !in before && ESC !in title && 7 !in title && (end == [7] || end == [ESC, 0x5C])
    ensures Stripped(before + ([ESC, 0x5D] + (title + (end + behind)))) == before + Stripped(behind)
  {
    var s := [ESC, 0x5D] + (title + (end + behind));
    OscAtHead(title, end, behind);
    StripsHead(s, 2 + |title| + |end|, behind);
    PlainStays(before, s);
  }

  method EndOfCSI(s: seq<byte>, start: nat) returns (end: nat)
    requires start <= |s|
    ensures end == start + CsiLength(s[start..])
  {
    end := start;
    while end < |s|
      invariant start <= end <= |s|
      invariant start + CsiLength(s[start..]) == end + CsiLength(s[end..])
    {
      var c := s[end];
      assert s[end..][1..] == s[end + 1..];
      end := end + 1;
      if Final(c) {
        return;
      }
    }
  }

  method EndOfOSC(s: seq<byte>, start: nat) returns (end: nat)
    requires start <= |s|
    ensures end == start + OscLength(s[start..])
  {
    end := start;
    while end < |s|
      invariant start <= end <= |s|
      invariant start + OscLength(s[start..]) == end + OscLength(s[end..])
    {
      if s[end] == 7 {
        return end + 1;
      }
      if s[end] == ESC && end + 1 < |s| && s[end + 1] == 0x5C {
        return end + 2;
      }
      assert s[end..][1..] == s[end + 1..];
      end := end + 1;
    }
  }

  method EndOfEscape(s: seq<byte>, start: nat) returns (end: nat)
    requires start < |s|
    ensures end == start + EscapeLength(s[start..])
  {
    end := start + 1;
    if end >= |s| {
      return;
    }
    if s[end] == 0x5B {
      end := EndOfCSI(s, end + 1);
      assert s[start..][2..] == s[start + 2..];
    } else if s[end] == 0x5D {
      end := EndOfOSC(s, end + 1);
      assert s[start..][2..] == s[start + 2..];
    } else if s[end] in {0x28, 0x29, 0x23} {
      end := end + 1;
      if end < |s| {
        end := end + 1;
      }
    } else {
      end := end + 1;
    }
  }

  method StripANSI(s: seq<byte>) returns (out: seq<byte>)
    ensures out == Stripped(s)
  {
    out := [];
    var i := 0;
    assert s[0..] == s;
    while i < |s|
      invariant i <= |s| && out + Stripped(s[i..]) == Stripped(s)
    {
      if s[i] != ESC {
        assert s[i..][1..] == s[i + 1..];
        out := out + [s[i]];
        i := i + 1;
      } else {
        var end := EndOfEscape(s, i);
        assert s[i..][end - i..] == s[end..];
        i := end;
      }
    }
  }

  function ShownText(s: seq<byte>): seq<byte> {
    Text(ShownAll(RunesOf(s)))
  }

  function Cleaned(s: seq<byte>): seq<byte> {
    ShownText(Stripped(s))
  }

  method CleanControls(s: seq<byte>) returns (out: seq<byte>)
    ensures out == Cleaned(s)
  {
    var value := StripANSI(s);
    out := [];
    var i := 0;
    assert value[0..] == value;
    while i < |value|
      invariant i <= |value| && out + ShownText(value[i..]) == ShownText(value)
    {
      var n, shown := NextShown(value[i..]);
      assert value[i..][n..] == value[i + n..];
      Regroup(out, shown, ShownText(value[i + n..]));
      out := out + shown;
      i := i + n;
    }
  }

  // The next rune, and what it is shown as.
  method NextShown(s: seq<byte>) returns (n: nat, shown: seq<byte>)
    requires s != []
    ensures 0 < n <= |s|
    ensures ShownText(s) == shown + ShownText(s[n..])
  {
    n := RuneLength(s);
    var r := if n == 0 then REPLACEMENT else s[..n];
    n := if n == 0 then 1 else n;
    assert RunesOf(s) == [r] + RunesOf(s[n..]);
    ghost var first := if Shown(r).Some? then [Shown(r).value] else [];
    assert ShownAll(RunesOf(s)) == first + ShownAll(RunesOf(s[n..]));
    TextOfMore(first, ShownAll(RunesOf(s[n..])));
    if r == [10] || r == [13] || r == [9] {
      shown := [0x20];
    } else if Control(r[0]) {
      shown := [];
    } else {
      shown := r;
    }
  }

  // ---- Userinfo

  const SCHEME: seq<byte> := [COLON, SLASH, SLASH]
  const AT: byte := 0x40
  const MARK: seq<byte> := [0x5B, 0x72, 0x65, 0x64, 0x61, 0x63, 0x74, 0x65, 0x64, 0x5D]
  const COLON: byte := 0x3A
  const SLASH: byte := 0x2F

  predicate Boundary(c: byte) {
    c <= 0x20 || c == 0x7F || c in {0x22, 0x27, 0x3C, 0x3E, 0x60}
  }

  predicate SchemeAt(s: seq<byte>, i: nat) {
    i + 2 < |s| && s[i] == COLON && s[i + 1] == s[i + 2] == SLASH
  }

  /** Where the scheme mark first occurs from the position on, or -1. */
  function SchemeFrom(s: seq<byte>, start: nat): (at: int)
    requires start <= |s|
    ensures at == -1 || (start <= at && SchemeAt(s, at))
    decreases |s| - start
  {
    if start == |s| then -1
    else if SchemeAt(s, start) then start
    else SchemeFrom(s, start + 1)
  }

  function FirstScheme(s: seq<byte>): int {
    SchemeFrom(s, 0)
  }

  lemma {:induction false} FirstSchemeLeast(s: seq<byte>, start: nat, i: nat)
    requires start <= i && SchemeAt(s, i)
    ensures 0 <= SchemeFrom(s, start) <= i
    decreases i - start
  {
    if start < i {
      FirstSchemeLeast(s, start + 1, i);
    }
  }

  /** Where the byte last occurs before the position, or -1. */
  function LastBefore(s: seq<byte>, c: byte, end: nat): (at: int)
    requires end <= |s|
    ensures -1 <= at < end && (at >= 0 ==> s[at] == c)
  {
    if end == 0 then -1
    else if s[end - 1] == c then end - 1
    else LastBefore(s, c, end - 1)
  }

  function LastIndex(s: seq<byte>, c: byte): int {
    LastBefore(s, c, |s|)
  }

  lemma {:induction false} LastIndexGreatest(s: seq<byte>, c: byte, end: nat, i: nat)
    requires i < end <= |s| && s[i] == c
    ensures i <= LastBefore(s, c, end)
  {
    if s[end - 1] != c {
      LastIndexGreatest(s, c, end - 1, i);
    }
  }

  lemma NoneBehindLast(s: seq<byte>, c: byte)
    ensures c !in s[LastIndex(s, c) + 1..]
  {
    if c in s[LastIndex(s, c) + 1..] {
      var i :| LastIndex(s, c) < i < |s| && s[i] == c;
      LastIndexGreatest(s, c, |s|, i);
    }
  }

  /** Userinfo, an at sign, and the host. */
  function Bare(userinfo: seq<byte>, host: seq<byte>): seq<byte> {
    userinfo + ([AT] + host)
  }

  /** What follows a scheme mark: all before the last at sign is userinfo. */
  function RedactRest(rest: seq<byte>, mark: seq<byte>): seq<byte> {
    var at := LastIndex(rest, AT);
    if at >= 0 then Bare(mark, rest[at + 1..]) else rest
  }

  /** Without a scheme mark there must be a colon in it. */
  function RedactBare(token: seq<byte>, mark: seq<byte>): seq<byte> {
    var at := LastIndex(token, AT);
    if at > 0 && COLON in token[..at] then Bare(mark, token[at + 1..]) else token
  }

  /** Userinfo gives way to the mark. */
  function RedactToken(token: seq<byte>, mark: seq<byte>): seq<byte> {
    var scheme := FirstScheme(token);
    if scheme >= 0 then token[..scheme + 3] + RedactRest(token[scheme + 3..], mark) else RedactBare(token, mark)
  }

  /** How long the token at the head is. */
  function TokenLength(s: seq<byte>): (n: nat)
    ensures n <= |s| && (n < |s| ==> Boundary(s[n])) && forall i :: 0 <= i < n ==> !Boundary(s[i])
  {
    if s == [] || Boundary(s[0]) then 0 else 1 + TokenLength(s[1..])
  }

  /** Every token changed by itself. */
  function TokenWise(s: seq<byte>, change: seq<byte> -> seq<byte>): seq<byte> {
    if s == [] then []
    else if TokenLength(s) == 0 then [s[0]] + TokenWise(s[1..], change)
    else change(s[..TokenLength(s)]) + TokenWise(s[TokenLength(s)..], change)
  }

  function Redactor(mark: seq<byte>): seq<byte> -> seq<byte> {
    token => RedactToken(token, mark)
  }

  function Redacted(s: seq<byte>, mark: seq<byte>): seq<byte> {
    TokenWise(s, Redactor(mark))
  }

  /** The text may hold userinfo: a scheme mark, or a colon before an at sign. */
  predicate MayHoldUserinfo(s: seq<byte>) {
    FirstScheme(s) >= 0 || (LastIndex(s, AT) >= 0 && COLON in s[..LastIndex(s, AT)])
  }

  lemma PartShows(s: seq<byte>, i: nat, j: nat)
    requires i <= j <= |s| && MayHoldUserinfo(s[i..j])
    ensures MayHoldUserinfo(s)
  {
    var part := s[i..j];
    var scheme := FirstScheme(part);
    if scheme >= 0 {
      FirstSchemeLeast(s, 0, i + scheme);
    } else {
      var at := LastIndex(part, AT);
      var k :| 0 <= k < at && part[..at][k] == COLON;
      assert s[i + at] == AT && s[i + k] == COLON;
      LastIndexGreatest(s, AT, |s|, i + at);
      assert s[..LastIndex(s, AT)][i + k] == COLON;
    }
  }

  lemma PartsHoldNone(s: seq<byte>, i: nat, j: nat)
    requires i <= j <= |s| && !MayHoldUserinfo(s)
    ensures !MayHoldUserinfo(s[i..j])
  {
    if MayHoldUserinfo(s[i..j]) {
      PartShows(s, i, j);
    }
  }

  /** The gate before the walk only skips walks that change nothing. */
  lemma {:induction false} NothingToRedact(s: seq<byte>, mark: seq<byte>)
    requires !MayHoldUserinfo(s)
    ensures Redacted(s, mark) == s
  {
    if s != [] {
      var n := TokenLength(s);
      var m := if n == 0 then 1 else n;
      PartsHoldNone(s, 0, m);
      PartsHoldNone(s, m, |s|);
      assert s[m..|s|] == s[m..] && s[0..m] == s[..m] && s == s[..m] + s[m..];
      NothingToRedact(s[m..], mark);
    }
  }

  method RedactUserinfo(value: seq<byte>, mark: seq<byte>) returns (out: seq<byte>)
    ensures out == Redacted(value, mark)
  {
    if !MayHoldUserinfo(value) {
      NothingToRedact(value, mark);
      return value;
    }
    out := ChangeTokens(value, Redactor(mark));
  }

  method ChangeTokens(value: seq<byte>, change: seq<byte> -> seq<byte>) returns (out: seq<byte>)
    ensures out == TokenWise(value, change)
  {
    out := [];
    var i := 0;
    assert value[0..] == value;
    while i < |value|
      invariant i <= |value| && out + TokenWise(value[i..], change) == TokenWise(value, change)
    {
      var piece, n := NextPiece(value[i..], change);
      assert value[i..][n..] == value[i + n..];
      Regroup(out, piece, TokenWise(value[i + n..], change));
      out := out + piece;
      i := i + n;
    }
  }

  // The next token, changed, or the boundary at the head.
  method NextPiece(s: seq<byte>, change: seq<byte> -> seq<byte>) returns (piece: seq<byte>, n: nat)
    requires s != []
    ensures 0 < n <= |s| && TokenWise(s, change) == piece + TokenWise(s[n..], change)
  {
    if Boundary(s[0]) {
      return [s[0]], 1;
    }
    n := EndOfToken(s, 0);
    assert s[0..] == s;
    piece := change(s[..n]);
  }

  method EndOfToken(value: seq<byte>, start: nat) returns (end: nat)
    requires start <= |value|
    ensures end == start + TokenLength(value[start..])
  {
    end := start;
    while end < |value| && !Boundary(value[end])
      invariant start <= end <= |value|
      invariant start + TokenLength(value[start..]) == end + TokenLength(value[end..])
    {
      assert value[end..][1..] == value[end + 1..];
      end := end + 1;
    }
  }

  // ---- What redaction promises

  predicate Token(s: seq<byte>) {
    forall i :: 0 <= i < |s| ==> !Boundary(s[i])
  }

  lemma TokenLengthIs(token: seq<byte>, behind: seq<byte>)
    requires Token(token) && (behind != [] ==> Boundary(behind[0]))
    ensures TokenLength(token + behind) == |token|
  {
    var s := token + behind;
    assert forall i :: 0 <= i < |token| ==> s[i] == token[i];
    assert behind != [] ==> s[|token|] == behind[0];
  }

  lemma SameFirstToken(before: seq<byte>, behind: seq<byte>)
    requires before != [] && Boundary(before[|before| - 1])
    ensures TokenLength(before + behind) == TokenLength(before) < |before|
  {
    var n := TokenLength(before);
    assert before + behind == before[..n] + (before[n..] + behind);
    TokenLengthIs(before[..n], before[n..] + behind);
  }

  lemma SplitFirst(before: seq<byte>, behind: seq<byte>, m: nat)
    requires m <= |before|
    ensures (before + behind)[..m] == before[..m] && (before + behind)[m..] == before[m..] + behind
  {
  }

  lemma JoinPieces(a: seq<byte>, b: seq<byte>, c: seq<byte>, ab: seq<byte>, bc: seq<byte>)
    requires ab == a + b && bc == b + c
    ensures a + bc == ab + c
  {
    Regroup(a, b, c);
  }

  /** Text is changed piece by piece, cut behind a boundary. */
  lemma {:induction false} ChangedInPieces(before: seq<byte>, behind: seq<byte>, change: seq<byte> -> seq<byte>)
    requires before != [] ==> Boundary(before[|before| - 1])
    ensures TokenWise(before + behind, change) == TokenWise(before, change) + TokenWise(behind, change)
    decreases |before|
  {
    if before == [] {
      assert before + behind == behind;
    } else {
      var n := TokenLength(before);
      SameFirstToken(before, behind);
      if n == 0 {
        SplitFirst(before, behind, 1);
        ChangedInPieces(before[1..], behind, change);
        JoinPieces([before[0]], TokenWise(before[1..], change), TokenWise(behind, change),
                   TokenWise(before, change), TokenWise(before[1..] + behind, change));
      } else {
        SplitFirst(before, behind, n);
        ChangedInPieces(before[n..], behind, change);
        JoinPieces(change(before[..n]), TokenWise(before[n..], change), TokenWise(behind, change),
                   TokenWise(before, change), TokenWise(before[n..] + behind, change));
      }
    }
  }

  /** ... or before one. */
  lemma {:induction false} ChangedBefore(before: seq<byte>, behind: seq<byte>, change: seq<byte> -> seq<byte>)
    requires behind != [] ==> Boundary(behind[0])
    ensures TokenWise(before + behind, change) == TokenWise(before, change) + TokenWise(behind, change)
    decreases |before|
  {
    if before == [] {
      assert before + behind == behind;
    } else {
      var n := TokenLength(before);
      SameTokenBefore(before, behind);
      var m := if n == 0 then 1 else n;
      SplitFirst(before, behind, m);
      ChangedBefore(before[m..], behind, change);
      if n == 0 {
        JoinPieces([before[0]], TokenWise(before[1..], change), TokenWise(behind, change),
                   TokenWise(before, change), TokenWise(before[1..] + behind, change));
      } else {
        JoinPieces(change(before[..n]), TokenWise(before[n..], change), TokenWise(behind, change),
                   TokenWise(before, change), TokenWise(before[n..] + behind, change));
      }
    }
  }

  lemma SameTokenBefore(before: seq<byte>, behind: seq<byte>)
    requires before != [] && (behind != [] ==> Boundary(behind[0]))
    ensures TokenLength(before + behind) == TokenLength(before)
  {
    var n := TokenLength(before);
    assert before + behind == before[..n] + (before[n..] + behind);
    TokenLengthIs(before[..n], before[n..] + behind);
  }

  /** A change that splits what should be one token shows: more is left of it. */
  lemma BrokenShows(front: seq<byte>, first: seq<byte>, tail: seq<byte>, behind: seq<byte>, token: seq<byte>,
                    change: seq<byte> -> seq<byte>)
    requires Token(first) && Token(token) && tail != [] && Boundary(tail[0]) && (behind != [] ==> Boundary(behind[0]))
    ensures front + (first + TokenWise(tail + behind, change)) != front + (token + TokenWise(behind, change))
  {
    var rest, shown := TokenWise(tail, change), TokenWise(behind, change);
    ChangedBefore(tail, behind, change);
    assert rest[0] == tail[0];
    if front + (first + (rest + shown)) == front + (token + shown) {
      Cut(front, first + (rest + shown));
      Cut(front, token + shown);
      TokenLengthIs(first, rest + shown);
      TokenLengthIs(token, shown);
      assert false;
    }
  }

  lemma TokenThen(token: seq<byte>, behind: seq<byte>, change: seq<byte> -> seq<byte>)
    requires Token(token) && token != [] && (behind != [] ==> Boundary(behind[0]))
    ensures TokenWise(token + behind, change) == change(token) + TokenWise(behind, change)
  {
    TokenLengthIs(token, behind);
    Cut(token, behind);
  }

  /** A token between boundaries is changed by itself. */
  lemma ChangedInContext(before: seq<byte>, token: seq<byte>, behind: seq<byte>, change: seq<byte> -> seq<byte>)
    requires Token(token) && token != []
    requires (before != [] ==> Boundary(before[|before| - 1])) && (behind != [] ==> Boundary(behind[0]))
    ensures TokenWise(before + (token + behind), change) ==
            TokenWise(before, change) + (change(token) + TokenWise(behind, change))
  {
    ChangedInPieces(before, token + behind, change);
    TokenThen(token, behind, change);
  }

  lemma LastIndexIs(front: seq<byte>, c: byte, back: seq<byte>)
    requires c !in back
    ensures LastIndex(front + ([c] + back), c) == |front|
  {
    var s := front + ([c] + back);
    var at := LastIndex(s, c);
    LastIndexGreatest(s, c, |s|, |front|);
    forall i | |front| < i < |s|
      ensures s[i] == back[i - |front| - 1]
    {
    }
  }

  lemma FirstSchemeIs(scheme: seq<byte>, rest: seq<byte>)
    requires FirstScheme(scheme) < 0
    ensures FirstScheme(scheme + (SCHEME + rest)) == |scheme|
  {
    var s := scheme + (SCHEME + rest);
    var k := FirstScheme(s);
    FirstSchemeLeast(s, 0, |scheme|);
    if k < |scheme| {
      assert s[|scheme|] == COLON;
      FirstSchemeLeast(scheme, 0, k);
    }
  }

  function Url(scheme: seq<byte>, userinfo: seq<byte>, host: seq<byte>): seq<byte> {
    scheme + (SCHEME + Bare(userinfo, host))
  }

  lemma BareParts(userinfo: seq<byte>, host: seq<byte>)
    requires AT !in host
    ensures var token := Bare(userinfo, host);
      LastIndex(token, AT) == |userinfo| < |token| && token[..|userinfo|] == userinfo && token[|userinfo| + 1..] == host
  {
    LastIndexIs(userinfo, AT, host);
    Cut(userinfo, [AT] + host);
    assert Bare(userinfo, host)[|userinfo|..][1..] == host;
  }

  lemma UrlParts(scheme: seq<byte>, rest: seq<byte>)
    requires FirstScheme(scheme) < 0
    ensures var token := scheme + (SCHEME + rest);
      FirstScheme(token) == |scheme| && token[..|scheme| + 3] == scheme + SCHEME && token[|scheme| + 3..] == rest
  {
    FirstSchemeIs(scheme, rest);
    assert scheme + (SCHEME + rest) == scheme + SCHEME + rest;
    Cut(scheme + SCHEME, rest);
  }

  /** A URL keeps its scheme and host; whatever is before the last at sign goes. */
  lemma UrlRedacted(scheme: seq<byte>, userinfo: seq<byte>, host: seq<byte>, mark: seq<byte>)
    requires FirstScheme(scheme) < 0 && AT !in host
    ensures RedactToken(Url(scheme, userinfo, host), mark) == scheme + SCHEME + Bare(mark, host)
  {
    UrlParts(scheme, Bare(userinfo, host));
    BareParts(userinfo, host);
  }

  /** So does the spelling without a scheme, when it has the user:pass shape. */
  lemma BareRedacted(userinfo: seq<byte>, host: seq<byte>, mark: seq<byte>)
    requires COLON in userinfo && AT !in host && FirstScheme(Bare(userinfo, host)) < 0
    ensures RedactToken(Bare(userinfo, host), mark) == Bare(mark, host)
  {
    BareParts(userinfo, host);
  }

  lemma TokenRedactedTwice(token: seq<byte>, mark: seq<byte>)
    requires COLON !in mark
    ensures RedactToken(RedactToken(token, mark), mark) == RedactToken(token, mark)
  {
    if FirstScheme(token) >= 0 {
      UrlTwice(token, mark);
    } else if RedactBare(token, mark) != token {
      NoneBehindLast(token, AT);
      SuffixHasNoScheme(token, LastIndex(token, AT) + 1);
      BareTwice(token[LastIndex(token, AT) + 1..], mark);
    }
  }

  lemma UrlTwice(token: seq<byte>, mark: seq<byte>)
    requires FirstScheme(token) >= 0
    ensures RedactToken(RedactToken(token, mark), mark) == RedactToken(token, mark)
  {
    var k := FirstScheme(token);
    var rest := token[k + 3..];
    NoSchemeBefore(token, k);
    SchemeReadBack(token, k);
    RestTwice(rest, mark);
    Regroup(token[..k], SCHEME, RedactRest(rest, mark));
    UrlParts(token[..k], RedactRest(rest, mark));
  }

  lemma RestTwice(rest: seq<byte>, mark: seq<byte>)
    ensures RedactRest(RedactRest(rest, mark), mark) == RedactRest(rest, mark)
  {
    if LastIndex(rest, AT) >= 0 {
      NoneBehindLast(rest, AT);
      BareParts(mark, rest[LastIndex(rest, AT) + 1..]);
    }
  }

  lemma SchemeReadBack(token: seq<byte>, k: nat)
    requires SchemeAt(token, k)
    ensures token[..k + 3] == token[..k] + SCHEME
  {
  }

  /** Redaction leaves tokens tokens. */
  lemma TokenStays(token: seq<byte>, mark: seq<byte>)
    requires Token(token) && token != [] && Token(mark)
    ensures Token(RedactToken(token, mark)) && RedactToken(token, mark) != []
  {
    var k := FirstScheme(token);
    if k >= 0 {
      RestStays(token[k + 3..], mark);
      TokenConcat(token[..k + 3], RedactRest(token[k + 3..], mark));
    } else {
      BareStays(token, mark);
    }
  }

  lemma RestStays(rest: seq<byte>, mark: seq<byte>)
    requires Token(rest) && Token(mark)
    ensures Token(RedactRest(rest, mark))
  {
    BareIsToken(mark, rest[LastIndex(rest, AT) + 1..]);
  }

  lemma BareStays(token: seq<byte>, mark: seq<byte>)
    requires Token(token) && token != [] && Token(mark)
    ensures Token(RedactBare(token, mark)) && RedactBare(token, mark) != []
  {
    BareIsToken(mark, token[LastIndex(token, AT) + 1..]);
  }

  lemma BareIsToken(userinfo: seq<byte>, host: seq<byte>)
    requires Token(userinfo) && Token(host)
    ensures Token(Bare(userinfo, host))
  {
    assert Token([AT]);
    TokenConcat([AT], host);
    TokenConcat(userinfo, [AT] + host);
  }

  lemma TokenConcat(a: seq<byte>, b: seq<byte>)
    requires Token(a) && Token(b)
    ensures Token(a + b)
  {
  }

  lemma SuffixHasNoScheme(s: seq<byte>, i: nat)
    requires i <= |s| && FirstScheme(s) < 0
    ensures FirstScheme(s[i..]) < 0
  {
    var k := FirstScheme(s[i..]);
    if k >= 0 {
      FirstSchemeLeast(s, 0, i + k);
    }
  }

  lemma NoSchemeBefore(token: seq<byte>, k: nat)
    requires FirstScheme(token) == k
    ensures k <= |token| && FirstScheme(token[..k]) < 0
  {
    var i := FirstScheme(token[..k]);
    if i >= 0 {
      FirstSchemeLeast(token, 0, i);
    }
  }

  lemma BareTwice(host: seq<byte>, mark: seq<byte>)
    requires AT !in host && FirstScheme(host) < 0 && COLON !in mark
    ensures RedactToken(Bare(mark, host), mark) == Bare(mark, host)
  {
    BareParts(mark, host);
    NoSchemeBehind([AT], host);
    NoSchemeBehind(mark, [AT] + host);
  }

  lemma NoSchemeBehind(front: seq<byte>, s: seq<byte>)
    requires COLON !in front && FirstScheme(s) < 0
    ensures FirstScheme(front + s) < 0
  {
    var k := FirstScheme(front + s);
    if k >= 0 {
      assert (front + s)[k] == COLON;
      FirstSchemeLeast(s, 0, k - |front|);
    }
  }

  /** A change that leaves tokens tokens, and changes each only once, changes
      text only once. */
  lemma {:induction false} ChangedTwice(s: seq<byte>, change: seq<byte> -> seq<byte>)
    requires forall t :: Token(t) && t != [] ==> Token(change(t)) && change(t) != [] && change(change(t)) == change(t)
    ensures TokenWise(TokenWise(s, change), change) == TokenWise(s, change)
    ensures s != [] && Boundary(s[0]) ==> TokenWise(s, change) != [] && TokenWise(s, change)[0] == s[0]
  {
    if s != [] {
      var n := TokenLength(s);
      var m := if n == 0 then 1 else n;
      ChangedTwice(s[m..], change);
      if n == 0 {
        ChangedInPieces([s[0]], TokenWise(s[m..], change), change);
        assert TokenWise([s[0]], change) == [s[0]];
      } else {
        assert Token(s[..n]);
        TokenThen(change(s[..n]), TokenWise(s[m..], change), change);
      }
    }
  }

  /** Redacting what is redacted changes nothing more. */
  lemma RedactedTwice(s: seq<byte>, mark: seq<byte>)
    requires Token(mark) && COLON !in mark
    ensures Redacted(Redacted(s, mark), mark) == Redacted(s, mark)
  {
    var change := Redactor(mark);
    forall t | Token(t) && t != []
      ensures Token(change(t)) && change(t) != [] && change(change(t)) == change(t)
    {
      TokenStays(t, mark);
      TokenRedactedTwice(t, mark);
    }
    ChangedTwice(s, change);
  }

  // ---- The whole

  const MAX_LENGTH := 512

  function Bounded(s: seq<byte>): seq<byte> {
    if |RunesOf(s)| <= MAX_LENGTH then s else Text(RunesOf(s)[..MAX_LENGTH]) + ELLIPSIS
  }

  function Pipeline(s: seq<byte>): seq<byte> {
    Bounded(Cleaned(Redacted(s, MARK)))
  }

  /** Some stage might change the text. */
  predicate NeedsWork(s: seq<byte>) {
    |s| > MAX_LENGTH || !Clean(s) || MayHoldUserinfo(s)
  }

  function Sanitized(s: seq<byte>): seq<byte> {
    if NeedsWork(s) then Pipeline(s) else s
  }

  method NeedsSanitizing(s: seq<byte>) returns (needs: bool)
    ensures needs <==> NeedsWork(s)
  {
    if |s| > MAX_LENGTH {
      return true;
    }
    for i := 0 to |s|
      invariant Clean(s[..i])
    {
      if Control(s[i]) {
        return true;
      }
    }
    assert s[..|s|] == s;
    if FirstScheme(s) >= 0 {
      return true;
    }
    var at := LastIndex(s, AT);
    return at >= 0 && COLON in s[..at];
  }

  method Sanitize(s: seq<byte>) returns (out: seq<byte>)
    ensures out == Sanitized(s)
  {
    var needs := NeedsSanitizing(s);
    if !needs {
      return s;
    }
    out := RedactUserinfo(s, MARK);
    out := CleanControls(out);
    out := Bounded(out);
  }

  /** The fast path is the pipeline exactly on valid text: the pipeline would
      replace bytes that are no rune. */
  lemma FastPathExact(s: seq<byte>)
    requires !NeedsWork(s)
    ensures Pipeline(s) == Sanitized(s) <==> ValidText(s)
  {
    NothingToRedact(s, MARK);
    NothingToStrip(s);
    CleanIsShown(s);
    RunesBack(RunesOf(s));
    RewriteKeepsValid(s);
  }

  /** A byte that starts no rune: shown as it is, though the pipeline would not. */
  lemma FastPathDiffers()
    ensures !NeedsWork([0xFF]) && Sanitized([0xFF]) == [0xFF] != Pipeline([0xFF])
  {
    var s: seq<byte> := [0xFF];
    assert FirstScheme(s) < 0 && LastIndex(s, AT) < 0;
    assert RuneLength(s) == 0;
    FastPathExact(s);
  }

  /** For any bytes: no controls, at most the bound and an ellipsis. */
  lemma SanitizedIsSafe(s: seq<byte>)
    ensures Clean(Sanitized(s)) && |RunesOf(Sanitized(s))| <= MAX_LENGTH + 1
    ensures ValidText(s) ==> Sanitized(s) == Pipeline(s) && ValidText(Sanitized(s))
  {
    if NeedsWork(s) {
      BoundedIsSafe(ShownAll(RunesOf(Stripped(Redacted(s, MARK)))));
    } else {
      FastPathExact(s);
    }
  }

  lemma BoundedIsSafe(shown: seq<Rune>)
    requires forall i :: 0 <= i < |shown| ==> ValidRune(shown[i]) && !Control(shown[i][0])
    ensures var out := Bounded(Text(shown));
      Clean(out) && ValidText(out) && |RunesOf(out)| <= MAX_LENGTH + 1
  {
    RunesBack(shown);
    if |shown| <= MAX_LENGTH {
      TextIsClean(shown);
    } else {
      assert ValidRune(ELLIPSIS) && !Control(ELLIPSIS[0]);
      WithOneMore(shown[..MAX_LENGTH], ELLIPSIS);
    }
  }

  lemma WithOneMore(runes: seq<Rune>, r: Rune)
    requires forall i :: 0 <= i < |runes| ==> ValidRune(runes[i]) && !Control(runes[i][0])
    requires ValidRune(r) && !Control(r[0])
    ensures var out := Text(runes) + r; Clean(out) && ValidText(out) && |RunesOf(out)| == |runes| + 1
  {
    TextOfMore(runes, [r]);
    assert Text([r]) == r + [] == r;
    RunesBack(runes + [r]);
    TextIsClean(runes + [r]);
  }

  /** What is shown does not depend on the userinfo of a URL in the text. */
  lemma UrlUserinfoHidden(before: seq<byte>, scheme: seq<byte>, one: seq<byte>, other: seq<byte>, host: seq<byte>,
                          behind: seq<byte>)
    requires (before != [] ==> Boundary(before[|before| - 1])) && (behind != [] ==> Boundary(behind[0]))
    requires Token(scheme) && Token(one) && Token(other) && Token(host)
    requires FirstScheme(scheme) < 0 && AT !in host
    ensures Sanitized(before + (Url(scheme, one, host) + behind)) ==
            Sanitized(before + (Url(scheme, other, host) + behind))
  {
    UrlInText(before, scheme, one, host, behind);
    UrlInText(before, scheme, other, host, behind);
  }

  lemma UrlInText(before: seq<byte>, scheme: seq<byte>, userinfo: seq<byte>, host: seq<byte>, behind: seq<byte>)
    requires (before != [] ==> Boundary(before[|before| - 1])) && (behind != [] ==> Boundary(behind[0]))
    requires Token(scheme) && Token(userinfo) && Token(host) && FirstScheme(scheme) < 0 && AT !in host
    ensures var s := before + (Url(scheme, userinfo, host) + behind);
      NeedsWork(s) &&
      Redacted(s, MARK) == Redacted(before, MARK) + (scheme + SCHEME + Bare(MARK, host) + Redacted(behind, MARK))
  {
    UrlIsToken(scheme, userinfo, host);
    UrlRedacted(scheme, userinfo, host, MARK);
    ChangedInContext(before, Url(scheme, userinfo, host), behind, Redactor(MARK));
    UrlParts(scheme, Bare(userinfo, host));
    ContainsScheme(before, Url(scheme, userinfo, host), behind, |scheme|);
  }

  /** The userinfo goes, and nothing else of the URL, exactly when it is part of
      one token: a blank, quote, angle bracket or control in it splits the token. */
  lemma UrlRedactedExactly(before: seq<byte>, scheme: seq<byte>, userinfo: seq<byte>, host: seq<byte>,
                           behind: seq<byte>)
    requires (before != [] ==> Boundary(before[|before| - 1])) && (behind != [] ==> Boundary(behind[0]))
    requires Token(scheme) && Token(host) && FirstScheme(scheme) < 0 && AT !in host
    ensures Token(userinfo) <==>
      Redacted(before + (Url(scheme, userinfo, host) + behind), MARK) ==
      Redacted(before, MARK) + (scheme + SCHEME + Bare(MARK, host) + Redacted(behind, MARK))
  {
    if Token(userinfo) {
      UrlInText(before, scheme, userinfo, host, behind);
    } else {
      var n := TokenLength(userinfo);
      assert Token(SCHEME) && Token(userinfo[..n]) && Token(MARK);
      TokenConcat(SCHEME, userinfo[..n]);
      TokenConcat(scheme, SCHEME + userinfo[..n]);
      TokenConcat(scheme, SCHEME);
      BareIsToken(MARK, host);
      TokenConcat(scheme + SCHEME, Bare(MARK, host));
      UrlSplit(scheme, userinfo, host, behind, n);
      BrokenToken(before, scheme + (SCHEME + userinfo[..n]), userinfo[n..] + ([AT] + host), behind,
                  scheme + SCHEME + Bare(MARK, host));
    }
  }

  lemma UrlSplit(scheme: seq<byte>, userinfo: seq<byte>, host: seq<byte>, behind: seq<byte>, n: nat)
    requires n <= |userinfo|
    ensures Url(scheme, userinfo, host) + behind ==
            scheme + (SCHEME + userinfo[..n]) + (userinfo[n..] + ([AT] + host) + behind)
  {
    assert userinfo == userinfo[..n] + userinfo[n..];
  }

  lemma BrokenToken(before: seq<byte>, first: seq<byte>, tail: seq<byte>, behind: seq<byte>, token: seq<byte>)
    requires (before != [] ==> Boundary(before[|before| - 1])) && (behind != [] ==> Boundary(behind[0]))
    requires Token(first) && first != [] && Token(token) && tail != [] && Boundary(tail[0])
    ensures Redacted(before + (first + (tail + behind)), MARK) !=
            Redacted(before, MARK) + (token + Redacted(behind, MARK))
  {
    assert Token(MARK);
    TokenStays(first, MARK);
    ChangedInContext(before, first, tail + behind, Redactor(MARK));
    BrokenShows(Redacted(before, MARK), RedactToken(first, MARK), tail, behind, token, Redactor(MARK));
  }

  lemma UrlIsToken(scheme: seq<byte>, userinfo: seq<byte>, host: seq<byte>)
    requires Token(scheme) && Token(userinfo) && Token(host)
    ensures Token(Url(scheme, userinfo, host)) && Token(Bare(userinfo, host))
  {
    assert Token(SCHEME);
    BareIsToken(userinfo, host);
    TokenConcat(SCHEME, Bare(userinfo, host));
    TokenConcat(scheme, SCHEME + Bare(userinfo, host));
  }

  lemma ContainsScheme(before: seq<byte>, token: seq<byte>, behind: seq<byte>, i: nat)
    requires SchemeAt(token, i)
    ensures MayHoldUserinfo(before + (token + behind))
  {
    FirstSchemeLeast(before + (token + behind), 0, |before| + i);
  }

  /** Nor on the userinfo of a bare user:pass@host. */
  lemma BareUserinfoHidden(before: seq<byte>, one: seq<byte>, other: seq<byte>, host: seq<byte>, behind: seq<byte>)
    requires (before != [] ==> Boundary(before[|before| - 1])) && (behind != [] ==> Boundary(behind[0]))
    requires Token(one) && Token(other) && Token(host) && COLON in one && COLON in other && AT !in host
    requires FirstScheme(Bare(one, host)) < 0 && FirstScheme(Bare(other, host)) < 0
    ensures Sanitized(before + (Bare(one, host) + behind)) == Sanitized(before + (Bare(other, host) + behind))
  {
    BareInText(before, one, host, behind);
    BareInText(before, other, host, behind);
  }

  lemma BareInText(before: seq<byte>, userinfo: seq<byte>, host: seq<byte>, behind: seq<byte>)
    requires (before != [] ==> Boundary(before[|before| - 1])) && (behind != [] ==> Boundary(behind[0]))
    requires Token(userinfo) && Token(host) && COLON in userinfo && AT !in host
    requires FirstScheme(Bare(userinfo, host)) < 0
    ensures var s := before + (Bare(userinfo, host) + behind);
      NeedsWork(s) && Redacted(s, MARK) == Redacted(before, MARK) + (Bare(MARK, host) + Redacted(behind, MARK))
  {
    UrlIsToken([], userinfo, host);
    BareRedacted(userinfo, host, MARK);
    ChangedInContext(before, Bare(userinfo, host), behind, Redactor(MARK));
    BareShape(before, userinfo, host, behind);
  }

  /** Here too exactly when the userinfo is part of one token. */
  lemma BareRedactedExactly(before: seq<byte>, userinfo: seq<byte>, host: seq<byte>, behind: seq<byte>)
    requires (before != [] ==> Boundary(before[|before| - 1])) && (behind != [] ==> Boundary(behind[0]))
    requires Token(host) && COLON in userinfo && AT !in host && FirstScheme(Bare(userinfo, host)) < 0
    ensures Token(userinfo) <==>
      Redacted(before + (Bare(userinfo, host) + behind), MARK) ==
      Redacted(before, MARK) + (Bare(MARK, host) + Redacted(behind, MARK))
  {
    if Token(userinfo) {
      BareInText(before, userinfo, host, behind);
    } else {
      var n := TokenLength(userinfo);
      assert Token(MARK) && Token(userinfo[..n]);
      BareIsToken(MARK, host);
      BareSplit(userinfo, host, behind, n);
      if n > 0 {
        BrokenToken(before, userinfo[..n], userinfo[n..] + ([AT] + host), behind, Bare(MARK, host));
      } else {
        BrokenAtOnce(before, userinfo + ([AT] + host), behind, Bare(MARK, host));
      }
    }
  }

  lemma BareSplit(userinfo: seq<byte>, host: seq<byte>, behind: seq<byte>, n: nat)
    requires n <= |userinfo|
    ensures Bare(userinfo, host) + behind == userinfo[..n] + (userinfo[n..] + ([AT] + host) + behind)
  {
    assert userinfo == userinfo[..n] + userinfo[n..];
  }

  lemma BrokenAtOnce(before: seq<byte>, tail: seq<byte>, behind: seq<byte>, token: seq<byte>)
    requires (before != [] ==> Boundary(before[|before| - 1])) && (behind != [] ==> Boundary(behind[0]))
    requires Token(token) && tail != [] && Boundary(tail[0])
    ensures Redacted(before + (tail + behind), MARK) != Redacted(before, MARK) + (token + Redacted(behind, MARK))
  {
    ChangedInPieces(before, tail + behind, Redactor(MARK));
    assert [] + Redacted(tail + behind, MARK) == Redacted(tail + behind, MARK);
    BrokenShows(Redacted(before, MARK), [], tail, behind, token, Redactor(MARK));
  }

  lemma BareShape(before: seq<byte>, userinfo: seq<byte>, host: seq<byte>, behind: seq<byte>)
    requires COLON in userinfo
    ensures MayHoldUserinfo(before + (Bare(userinfo, host) + behind))
  {
    var s := before + (Bare(userinfo, host) + behind);
    var k :| 0 <= k < |userinfo| && userinfo[k] == COLON;
    assert s[|before| + |userinfo|] == AT && s[|before| + k] == COLON;
    LastIndexGreatest(s, AT, |s|, |before| + |userinfo|);
    assert s[..LastIndex(s, AT)][|before| + k] == COLON;
  }
}
