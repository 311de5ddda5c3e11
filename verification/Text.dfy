/** Byte strings: joining, and trimming as strings.TrimSpace does it. */
module Text {
  import opened Sequences
  import opened Utf8

  function Concat(parts: seq<seq<byte>>): seq<byte> {
    if parts == [] then [] else parts[0] + Concat(parts[1..])
  }

  lemma ConcatNil()
    ensures Concat([]) == []
  {
  }

  lemma ConcatCons(c: seq<byte>, parts: seq<seq<byte>>)
    ensures Concat([c] + parts) == c + Concat(parts)
  {
    assert ([c] + parts)[1..] == parts;
  }

  lemma {:induction false} ConcatSnoc(parts: seq<seq<byte>>, c: seq<byte>)
    ensures Concat(parts + [c]) == Concat(parts) + c
  {
    if parts == [] {
      assert [] + [c] == [c] && c + [] == c && [c][1..] == [];
    } else {
      ConcatSnoc(parts[1..], c);
      assert (parts + [c])[1..] == parts[1..] + [c];
      Associate(parts[0], Concat(parts[1..]), c);
    }
  }

  /** `t` is the end of `b`. */
  predicate EndOf(t: seq<byte>, b: seq<byte>) {
    |t| <= |b| && t == b[|b| - |t|..]
  }

  lemma EndOfAll(b: seq<byte>)
    ensures EndOf(b, b)
  {
  }

  lemma EndOfRest(b: seq<byte>, n: nat, t: seq<byte>)
    requires n <= |b| && EndOf(t, b[n..])
    ensures EndOf(t, b)
  {
    DropTwice(b, n, |b| - n - |t|);
  }

  lemma EndOfEnd(t: seq<byte>, b: seq<byte>, n: nat)
    requires EndOf(t, b) && n <= |t|
    ensures EndOf(t[|t| - n..], b)
  {
    DropTwice(b, |b| - |t|, |t| - n);
  }

  lemma EndGrows(t: seq<byte>, b: seq<byte>, p: seq<byte>)
    requires EndOf(t, b)
    ensures EndOf(t + p, b + p)
  {
    DropOfSum(b, p, |b| - |t|);
  }

  /** The UTF-8 encodings of the characters unicode.IsSpace accepts. */
  predicate Space(w: seq<byte>) {
    || (|w| == 1 && (9 <= w[0] <= 13 || w[0] == 0x20))
    || (|w| == 2 && w[0] == 0xC2 && w[1] in {0x85, 0xA0})
    || (|w| == 3 && w[0] == 0xE1 && w[1] == 0x9A && w[2] == 0x80)
    || (|w| == 3 && w[0] == 0xE2 && w[1] == 0x80 && (0x80 <= w[2] <= 0x8A || w[2] in {0xA8, 0xA9, 0xAF}))
    || (|w| == 3 && w[0] == 0xE2 && w[1] == 0x81 && w[2] == 0x9F)
    || (|w| == 3 && w[0] == 0xE3 && w[1] == 0x80 && w[2] == 0x80)
  }

  predicate StartsWithSpace(b: seq<byte>, n: nat) {
    n <= |b| && Space(b[..n])
  }

  predicate EndsWithSpace(b: seq<byte>, n: nat) {
    n <= |b| && Space(b[|b| - n..])
  }

  /** The length of the space `b` starts with, or 0. */
  function SpaceAtStart(b: seq<byte>): (n: nat)
    ensures n <= |b|
    ensures n > 0 ==> StartsWithSpace(b, n)
  {
    if StartsWithSpace(b, 1) then 1
    else if StartsWithSpace(b, 2) then 2
    else if StartsWithSpace(b, 3) then 3
    else 0
  }

  /** The length of the space `b` ends with, or 0. */
  function SpaceAtEnd(b: seq<byte>): (n: nat)
    ensures n <= |b|
    ensures n > 0 ==> EndsWithSpace(b, n)
  {
    if EndsWithSpace(b, 1) then 1
    else if EndsWithSpace(b, 2) then 2
    else if EndsWithSpace(b, 3) then 3
    else 0
  }

  lemma NoSpaceAtStart(b: seq<byte>, k: nat)
    requires SpaceAtStart(b) == 0 && k <= |b|
    ensures !Space(b[..k])
  {
    hide Space, SpaceAtStart;
    if k > 3 || k == 0 {
      LongIsNoSpace(b[..k]);
    } else {
      NoShortSpaceAtStart(b, k);
    }
  }

  lemma NoShortSpaceAtStart(b: seq<byte>, n: nat)
    requires SpaceAtStart(b) == 0 && 0 < n <= 3
    ensures !StartsWithSpace(b, n)
  {
    hide StartsWithSpace;
  }

  lemma NoSpaceAtEnd(b: seq<byte>, t: seq<byte>)
    requires SpaceAtEnd(b) == 0 && EndOf(t, b)
    ensures !Space(t)
  {
    hide Space, SpaceAtEnd;
    if |t| > 3 || t == [] {
      LongIsNoSpace(t);
    } else {
      NoShortSpaceAtEnd(b, |t|);
    }
  }

  lemma NoShortSpaceAtEnd(b: seq<byte>, n: nat)
    requires SpaceAtEnd(b) == 0 && 0 < n <= 3
    ensures !EndsWithSpace(b, n)
  {
    hide EndsWithSpace;
  }

  lemma LongIsNoSpace(w: seq<byte>)
    requires |w| > 3 || w == []
    ensures !Space(w)
  {
  }

  function TrimLeft(b: seq<byte>): seq<byte>
    decreases |b|
  {
    var n := SpaceAtStart(b);
    if n == 0 then b else TrimLeft(b[n..])
  }

  lemma {:induction false} TrimLeftEnds(b: seq<byte>)
    ensures EndOf(TrimLeft(b), b)
    ensures SpaceAtStart(TrimLeft(b)) == 0
    decreases |b|
  {
    hide Space, SpaceAtStart, EndOf;
    var n := SpaceAtStart(b);
    if n == 0 {
      EndOfAll(b);
    } else {
      TrimLeftEnds(b[n..]);
      EndOfRest(b, n, TrimLeft(b[n..]));
    }
  }

  function TrimRight(b: seq<byte>): seq<byte>
    decreases |b|
  {
    var n := SpaceAtEnd(b);
    if n == 0 then b else TrimRight(b[..|b| - n])
  }

  lemma {:induction false} TrimRightBegins(b: seq<byte>)
    ensures TrimRight(b) <= b
    ensures SpaceAtEnd(TrimRight(b)) == 0
    decreases |b|
  {
    hide Space, SpaceAtEnd;
    var n := SpaceAtEnd(b);
    if n > 0 {
      TrimRightBegins(b[..|b| - n]);
    }
  }

  /** strings.TrimSpace. */
  function Trim(b: seq<byte>): seq<byte> {
    TrimRight(TrimLeft(b))
  }

  /** Spaces, one after the other. */
  predicate Spaces(ws: seq<seq<byte>>) {
    forall i :: 0 <= i < |ws| ==> Space(ws[i])
  }

  lemma Regroup(b: seq<byte>, n: nat, s: seq<byte>, t: seq<byte>)
    requires n <= |b| && b[n..] == s + t
    ensures b == (b[..n] + s) + t
  {
    assert b == b[..n] + b[n..];
  }

  lemma RegroupEnd(b: seq<byte>, m: nat, s: seq<byte>, t: seq<byte>)
    requires m <= |b| && b[..m] == s + t
    ensures b == s + (t + b[m..])
  {
    assert b == b[..m] + b[m..];
  }

  lemma {:induction false} TrimLeftTakesSpaces(b: seq<byte>) returns (ws: seq<seq<byte>>)
    ensures Spaces(ws) && b == Concat(ws) + TrimLeft(b)
    decreases |b|
  {
    hide Space, Concat, SpaceAtStart;
    ConcatNil();
    var n := SpaceAtStart(b);
    ws := [];
    if n > 0 {
      var rest := TrimLeftTakesSpaces(b[n..]);
      ws := [b[..n]] + rest;
      ConcatCons(b[..n], rest);
      Regroup(b, n, Concat(rest), TrimLeft(b[n..]));
    }
  }

  lemma {:induction false} TrimRightTakesSpaces(b: seq<byte>) returns (ws: seq<seq<byte>>)
    ensures Spaces(ws) && b == TrimRight(b) + Concat(ws)
    decreases |b|
  {
    hide Space, Concat, SpaceAtEnd;
    ConcatNil();
    var n := SpaceAtEnd(b);
    ws := [];
    if n > 0 {
      var m := |b| - n;
      var rest := TrimRightTakesSpaces(b[..m]);
      ws := rest + [b[m..]];
      ConcatSnoc(rest, b[m..]);
      RegroupEnd(b, m, TrimRight(b[..m]), Concat(rest));
    }
  }

  /** Trimming takes spaces, only spaces, and all spaces off both ends. */
  lemma TrimExact(b: seq<byte>) returns (before: seq<seq<byte>>, after: seq<seq<byte>>)
    ensures Spaces(before) && Spaces(after)
    ensures b == Concat(before) + Trim(b) + Concat(after)
    ensures Trimmed(Trim(b))
  {
    hide TrimLeft, TrimRight, SpaceAtStart, SpaceAtEnd, Space, Concat, EndOf, Trimmed;
    before := TrimLeftTakesSpaces(b);
    after := TrimRightTakesSpaces(TrimLeft(b));
    TrimLeftEnds(b);
    TrimRightBegins(TrimLeft(b));
    NoSpaceLeft(TrimLeft(b), Trim(b));
    Associate(Concat(before), Trim(b), Concat(after));
  }

  /** `t` starts and ends with something else than a space. */
  ghost predicate Trimmed(t: seq<byte>) {
    forall k :: 0 <= k <= |t| ==> !Space(t[..k]) && !Space(t[k..])
  }

  lemma NoSpaceLeft(b: seq<byte>, t: seq<byte>)
    requires SpaceAtStart(b) == 0 && SpaceAtEnd(t) == 0 && t <= b
    ensures Trimmed(t)
  {
    hide Space, SpaceAtStart, SpaceAtEnd;
    forall k | 0 <= k <= |t|
      ensures !Space(t[..k]) && !Space(t[k..])
    {
      assert t[..k] == b[..k];
      NoSpaceAtStart(b, k);
      NoSpaceAtEnd(t, t[k..]);
    }
  }

  lemma SpaceFound(w: seq<byte>, rest: seq<byte>)
    requires Space(w)
    ensures SpaceAtStart(w + rest) == |w|
  {
    hide Space;
    SpaceLength(w);
    forall k | 0 < k <= |w|
      ensures StartsWithSpace(w + rest, k) <==> k == |w|
    {
      assert (w + rest)[..k] == w[..k];
      if k == |w| {
        assert w[..k] == w;
      }
    }
  }

  /** No space begins another. */
  lemma SpaceLength(w: seq<byte>)
    requires Space(w)
    ensures 0 < |w| <= 3 && forall k :: 0 <= k < |w| ==> !Space(w[..k])
  {
  }

  /** Of nothing but spaces nothing is left. */
  lemma {:induction false} SpacesTrimAway(ws: seq<seq<byte>>)
    requires Spaces(ws)
    ensures TrimLeft(Concat(ws)) == [] && Trim(Concat(ws)) == []
  {
    if ws != [] {
      SpaceFound(ws[0], Concat(ws[1..]));
      SpacesTrimAway(ws[1..]);
      assert Concat(ws)[|ws[0]|..] == Concat(ws[1..]);
    }
  }

  lemma SpaceStarts(w: seq<byte>)
    requires Space(w)
    ensures w != [] && RuneStart(w[0])
  {
  }

  /** Trimming stops before a first byte: it never takes part of a character. */
  lemma {:induction false} TrimRightStops(b: seq<byte>)
    ensures |TrimRight(b)| <= |b|
    ensures |TrimRight(b)| < |b| ==> RuneStart(b[|TrimRight(b)|])
    decreases |b|
  {
    hide Space, SpaceAtEnd, RuneStart;
    var n := SpaceAtEnd(b);
    if n > 0 {
      SpaceStarts(b[|b| - n..]);
      TrimRightStops(b[..|b| - n]);
    }
  }

  /** The code points with the Unicode property White_Space. */
  predicate WhiteSpace(c: nat) {
    || 9 <= c <= 13 || c == 0x20 || c == 0x85 || c == 0xA0 || c == 0x1680
    || 0x2000 <= c <= 0x200A || c == 0x2028 || c == 0x2029 || c == 0x202F || c == 0x205F || c == 0x3000
  }

  /** The spaces are the characters whose code point is white space. */
  lemma SpaceIsUnicode(w: seq<byte>)
    ensures Space(w) <==> Char(w) && WhiteSpace(CodePoint(w))
  {
    match |w|
    case 1 =>
    case 2 => SpaceOfTwo(w);
    case 3 => SpaceOfThree(w);
    case _ =>
      if Char(w) {
        CodePointRange(w);
      }
  }

  lemma SpaceOfTwo(w: seq<byte>)
    requires |w| == 2
    ensures Space(w) <==> Char(w) && WhiteSpace(CodePoint(w))
  {
  }

  lemma SpaceOfThree(w: seq<byte>)
    requires |w| == 3
    ensures Space(w) <==> Char(w) && WhiteSpace(CodePoint(w))
  {
  }

  lemma SpaceIsCharacter(w: seq<byte>)
    requires Space(w)
    ensures Char(w)
  {
  }

  lemma {:induction false} TrimLeftFormed(b: seq<byte>)
    requires WellFormed(b)
    ensures WellFormed(TrimLeft(b))
    decreases |b|
  {
    hide Space, SpaceAtStart, CharLen, Char;
    var n := SpaceAtStart(b);
    if n > 0 {
      SpaceIsCharacter(b[..n]);
      CharLenIsGrammar(b, n);
      TrimLeftFormed(b[n..]);
    }
  }

  /** Trimming takes whole characters: well-formed text stays so. */
  lemma TrimFormed(b: seq<byte>)
    requires WellFormed(b)
    ensures WellFormed(Trim(b))
  {
    hide TrimLeft, TrimRight, WellFormed, SpaceAtEnd, SpaceAtStart, Space;
    var left := TrimLeft(b);
    var t := TrimRight(left);
    TrimLeftFormed(b);
    TrimRightBegins(left);
    TrimRightStops(left);
    assert left == t + left[|t|..];
    WellFormedSplits(t, left[|t|..]);
  }

  /** The last `n` bytes, or all of them. */
  function Last(b: seq<byte>, n: nat): (t: seq<byte>)
    ensures EndOf(t, b) && |t| == if |b| <= n then |b| else n
  {
    if |b| <= n then b else b[|b| - n..]
  }

  /** No space holds a comma. */
  lemma {:induction false} SpacesHoldNo(ws: seq<seq<byte>>, c: byte)
    requires Spaces(ws) && c == 0x2C
    ensures c !in Concat(ws)
  {
    if ws != [] {
      assert Space(ws[0]);
      SpacesHoldNo(ws[1..], c);
    }
  }

  lemma LastOfLonger(b: seq<byte>, n: nat)
    requires |b| > n
    ensures Last(b, n) == b[|b| - n..]
  {
  }
}
