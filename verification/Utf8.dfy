/**
 UTF-8 as the log streamer sees it: the decoder of Go's unicode/utf8 and
 encoding/json, which turn every byte that starts no character into one U+FFFD,
 against the grammar of section 4 of RFC 3629.
 */
module Utf8 {
  import opened Sequences

  type byte = x: int | 0 <= x < 0x100

  const UTF_MAX := 4
  const REPLACEMENT: nat := 0xFFFD

  predicate Tail(b: byte) {
    0x80 <= b <= 0xBF
  }

  predicate RuneStart(b: byte) {
    !Tail(b)
  }

  /** UTF8-char of RFC 3629, one line per line of its grammar. */
  predicate Char(w: seq<byte>) {
    || (|w| == 1 && w[0] <= 0x7F)
    || (|w| == 2 && 0xC2 <= w[0] <= 0xDF && Tail(w[1]))
    || (|w| == 3 && w[0] == 0xE0 && 0xA0 <= w[1] <= 0xBF && Tail(w[2]))
    || (|w| == 3 && 0xE1 <= w[0] <= 0xEC && Tail(w[1]) && Tail(w[2]))
    || (|w| == 3 && w[0] == 0xED && 0x80 <= w[1] <= 0x9F && Tail(w[2]))
    || (|w| == 3 && 0xEE <= w[0] <= 0xEF && Tail(w[1]) && Tail(w[2]))
    || (|w| == 4 && w[0] == 0xF0 && 0x90 <= w[1] <= 0xBF && Tail(w[2]) && Tail(w[3]))
    || (|w| == 4 && 0xF1 <= w[0] <= 0xF3 && Tail(w[1]) && Tail(w[2]) && Tail(w[3]))
    || (|w| == 4 && w[0] == 0xF4 && 0x80 <= w[1] <= 0x8F && Tail(w[2]) && Tail(w[3]))
  }

  /** The length a first byte announces; 1 for ASCII and for bytes that start nothing. */
  function SizeOf(first: byte): nat {
    if 0xC2 <= first <= 0xDF then 2
    else if 0xE0 <= first <= 0xEF then 3
    else if 0xF0 <= first <= 0xF4 then 4
    else 1
  }

  /** Whether `second` may follow `first`. */
  predicate Accepts(first: byte, second: byte) {
    var low := if first == 0xE0 then 0xA0 else if first == 0xF0 then 0x90 else 0x80;
    var high := if first == 0xED then 0x9F else if first == 0xF4 then 0x8F else 0xBF;
    low <= second <= high
  }

  /** utf8.FullRune: false when more bytes could still complete a character. */
  predicate FullRune(p: seq<byte>) {
    if p == [] then
      false
    else if |p| >= SizeOf(p[0]) then
      true
    else if |p| > 1 && !Accepts(p[0], p[1]) then
      true
    else
      |p| > 2 && !Tail(p[2])
  }

  /** utf8.DecodeRune: the length of the character `b` starts with, 0 when it starts with none. */
  function CharLen(b: seq<byte>): (n: nat)
    ensures n <= |b| && n <= UTF_MAX
  {
    if b == [] then
      0
    else
      var n := SizeOf(b[0]);
      if n == 1 then
        if b[0] <= 0x7F then 1 else 0
      else if |b| < n || !Accepts(b[0], b[1]) || (n >= 3 && !Tail(b[2])) || (n == 4 && !Tail(b[3])) then
        0
      else
        n
  }

  function CodePoint(w: seq<byte>): (c: nat)
    requires Char(w)
    ensures c <= 0x10FFFF
  {
    var first: int := w[0];
    match |w|
    case 1 => first
    case 2 => (first - 0xC0) * 0x40 + Bits(w[1])
    case 3 => (first - 0xE0) * 0x1000 + Bits(w[1]) * 0x40 + Bits(w[2])
    case _ => (first - 0xF0) * 0x40000 + Bits(w[1]) * 0x1000 + Bits(w[2]) * 0x40 + Bits(w[3])
  }

  /** The six payload bits of a continuation byte. */
  function Bits(b: byte): nat
    requires Tail(b)
  {
    b as int - 0x80
  }

  /** The bytes one decoding step takes. */
  function StepLen(b: seq<byte>): (n: nat)
    requires b != []
    ensures 0 < n <= |b|
  {
    if CharLen(b) == 0 then 1 else CharLen(b)
  }

  function FirstRune(b: seq<byte>): nat {
    var n := CharLen(b);
    if n == 0 then
      REPLACEMENT
    else
      CharLenIsGrammar(b, n);
      CodePoint(b[..n])
  }

  /** The text a reader gets: code points, one U+FFFD for each byte that is part of no character. */
  function Lossy(b: seq<byte>): seq<nat> {
    if b == [] then [] else [FirstRune(b)] + Lossy(b[StepLen(b)..])
  }

  /** UTF8-octets of RFC 3629: a string of characters and nothing else. */
  predicate WellFormed(b: seq<byte>) {
    b == [] || (CharLen(b) > 0 && WellFormed(b[CharLen(b)..]))
  }

  // ---- The decoder against the grammar ----

  /** The decoder takes n bytes exactly when the grammar has a character of n bytes there. */
  lemma CharLenIsGrammar(b: seq<byte>, n: nat)
    requires 0 < n <= |b|
    ensures CharLen(b) == n <==> Char(b[..n])
  {
    var w := b[..n];
    assert w[0] == b[0];
    assert n > 1 ==> w[1] == b[1];
    assert n > 2 ==> w[2] == b[2];
    assert n > 3 ==> w[3] == b[3];
  }

  /** The bytes that would complete `p` to a character. */
  function Completion(p: seq<byte>): (e: seq<byte>)
    requires p != [] && !FullRune(p)
    ensures e != [] && Char(p + e)
  {
    var second: byte := if p[0] == 0xE0 then 0xA0 else if p[0] == 0xF0 then 0x90 else 0x80;
    match SizeOf(p[0]) - |p|
    case 1 => if |p| == 1 then [second] else [0x80]
    case 2 => if |p| == 1 then [second, 0x80] else [0x80, 0x80]
    case _ => [second, 0x80, 0x80]
  }

  /** FullRune is false exactly on the proper prefixes of characters. */
  lemma FullRuneIsGrammar(p: seq<byte>)
    ensures !FullRune(p) <==> p == [] || exists w: seq<byte> :: Char(w) && p < w
  {
    if p != [] && !FullRune(p) {
      var w := p + Completion(p);
      assert Char(w) && p < w;
    }
    forall w: seq<byte> | Char(w) && p < w && p != []
      ensures !FullRune(p)
    {
      assert p == w[..|p|];
    }
  }

  /** What decoding means, from the grammar: a character is its code point, any other byte one U+FFFD. */
  lemma LossyByGrammar(b: seq<byte>)
    requires b != []
    ensures forall n :: 0 < n <= |b| && Char(b[..n]) ==> Lossy(b) == [CodePoint(b[..n])] + Lossy(b[n..])
    ensures (forall n :: 0 < n <= |b| ==> !Char(b[..n])) ==> Lossy(b) == [0xFFFD] + Lossy(b[1..])
  {
    hide CharLen, CodePoint, Char;
    forall n | 0 < n <= |b|
      ensures CharLen(b) == n <==> Char(b[..n])
    {
      CharLenIsGrammar(b, n);
    }
  }

  /** Well-formed text is a character and then well-formed text, or nothing. */
  lemma WellFormedByGrammar(b: seq<byte>)
    ensures WellFormed(b) <==> b == [] || exists n :: 0 < n <= |b| && Char(b[..n]) && WellFormed(b[n..])
  {
    hide CharLen, Char;
    forall n | 0 < n <= |b|
      ensures CharLen(b) == n <==> Char(b[..n])
    {
      CharLenIsGrammar(b, n);
    }
  }

  /** A complete or hopeless start decodes alike whatever follows it. */
  lemma CharLenStable(a: seq<byte>, r: seq<byte>)
    requires FullRune(a) || CharLen(a) > 0
    ensures CharLen(a + r) == CharLen(a)
  {
    assert forall i :: 0 <= i < |a| ==> (a + r)[i] == a[i];
  }

  /** A character never runs across a byte that is not a continuation byte. */
  lemma CharLenStopsAtStart(a: seq<byte>, r: seq<byte>)
    requires a != [] && r != [] && RuneStart(r[0])
    ensures CharLen(a + r) == CharLen(a)
  {
    var b := a + r;
    assert forall i :: 0 <= i < |a| ==> b[i] == a[i];
    assert b[|a|] == r[0];
  }

  // ---- Cutting a stream in two ----

  /** No further byte can change how any part of `a` decodes. */
  ghost predicate Settled(a: seq<byte>) {
    forall i :: 0 <= i < |a| ==> FullRune(a[i..])
  }

  ghost predicate CleanCut(a: seq<byte>, r: seq<byte>) {
    Settled(a) || r == [] || RuneStart(r[0])
  }

  lemma CleanCutAtHead(a: seq<byte>, r: seq<byte>)
    requires a != [] && CleanCut(a, r)
    ensures CharLen(a + r) == CharLen(a)
    ensures FirstRune(a + r) == FirstRune(a)
    ensures CleanCut(a[StepLen(a)..], r)
    ensures (a + r)[StepLen(a)..] == a[StepLen(a)..] + r
  {
    hide CharLen, FullRune, CodePoint;
    var n := StepLen(a);
    TakeOfSum(a, r, CharLen(a));
    DropOfSum(a, r, n);
    if Settled(a) {
      assert a[0..] == a;
      CharLenStable(a, r);
      assert forall i :: 0 <= i < |a| - n ==> a[n..][i..] == a[n + i..];
    } else if r == [] {
      assert a + r == a;
    } else {
      CharLenStopsAtStart(a, r);
    }
  }

  /** Decoding splits at a clean cut. */
  lemma {:induction false} LossySplits(a: seq<byte>, r: seq<byte>)
    requires CleanCut(a, r)
    ensures Lossy(a + r) == Lossy(a) + Lossy(r)
  {
    hide CharLen, FirstRune, CleanCut;
    if a == [] {
      assert a + r == r;
    } else {
      CleanCutAtHead(a, r);
      LossySplits(a[StepLen(a)..], r);
      Associate([FirstRune(a)], Lossy(a[StepLen(a)..]), Lossy(r));
    }
  }

  /** A clean cut of well-formed text leaves well-formed text on both sides. */
  lemma {:induction false} WellFormedSplits(a: seq<byte>, r: seq<byte>)
    requires CleanCut(a, r) && WellFormed(a + r)
    ensures WellFormed(a) && WellFormed(r)
  {
    if a == [] {
      assert a + r == r;
    } else {
      CleanCutAtHead(a, r);
      WellFormedSplits(a[CharLen(a)..], r);
    }
  }

  /** `n` is where the decoding of `b` breaks into two, however `b` continues. */
  ghost predicate Boundary(b: seq<byte>, n: nat)
    requires n <= |b|
  {
    forall e: seq<byte> :: Lossy(b[..n]) + Lossy(b[n..] + e) == Lossy(b + e)
  }

  // ---- The decoder loses nothing on well-formed text ----

  /** utf8.AppendRune. */
  function Encode(c: nat): seq<byte> {
    if c < 0x80 then
      [c]
    else if c < 0x800 then
      [0xC0 + c / 0x40, 0x80 + c % 0x40]
    else if c < 0x10000 then
      [0xE0 + c / 0x40 / 0x40, 0x80 + c / 0x40 % 0x40, 0x80 + c % 0x40]
    else if c <= 0x10FFFF then
      [0xF0 + c / 0x40 / 0x40 / 0x40, 0x80 + c / 0x40 / 0x40 % 0x40, 0x80 + c / 0x40 % 0x40, 0x80 + c % 0x40]
    else
      [0xEF, 0xBF, 0xBD]
  }

  lemma LastBits(c: nat, q: nat, b: byte)
    requires Tail(b) && c == q * 0x40 + Bits(b)
    ensures c / 0x40 == q && 0x80 + c % 0x40 == b
  {
  }

  lemma EncodeInvertsDecode(w: seq<byte>)
    requires Char(w)
    ensures Encode(CodePoint(w)) == w
  {
    match |w|
    case 1 =>
    case 2 => EncodeInvertsTwo(w);
    case 3 => EncodeInvertsThree(w);
    case _ => EncodeInvertsFour(w);
  }

  lemma EncodeInvertsTwo(w: seq<byte>)
    requires Char(w) && |w| == 2
    ensures Encode(CodePoint(w)) == w
  {
    var first: int := w[0];
    LastBits(CodePoint(w), first - 0xC0, w[1]);
  }

  lemma EncodeInvertsThree(w: seq<byte>)
    requires Char(w) && |w| == 3
    ensures Encode(CodePoint(w)) == w
  {
    var first: int := w[0];
    var q := (first - 0xE0) * 0x40 + Bits(w[1]);
    LastBits(CodePoint(w), q, w[2]);
    LastBits(q, first - 0xE0, w[1]);
  }

  lemma EncodeInvertsFour(w: seq<byte>)
    requires Char(w) && |w| == 4
    ensures Encode(CodePoint(w)) == w
  {
    var first: int := w[0];
    var p := (first - 0xF0) * 0x40 + Bits(w[1]);
    var q := p * 0x40 + Bits(w[2]);
    LastBits(CodePoint(w), q, w[3]);
    LastBits(q, p, w[2]);
    LastBits(p, first - 0xF0, w[1]);
  }

  /** Each length has its own code points, and surrogates have none: the table of section 3 of RFC 3629. */
  lemma CodePointRange(w: seq<byte>)
    requires Char(w)
    ensures var c := CodePoint(w);
            match |w|
            case 1 => c <= 0x7F
            case 2 => 0x80 <= c <= 0x7FF
            case 3 => 0x800 <= c <= 0xD7FF || 0xE000 <= c <= 0xFFFF
            case _ => 0x10000 <= c <= 0x10FFFF
  {
  }

  lemma SameRuneSameBytes(a: seq<byte>, b: seq<byte>)
    requires CharLen(a) > 0 && CharLen(b) > 0 && FirstRune(a) == FirstRune(b)
    ensures a[..CharLen(a)] == b[..CharLen(b)]
  {
    CharLenIsGrammar(a, CharLen(a));
    CharLenIsGrammar(b, CharLen(b));
    EncodeInvertsDecode(a[..CharLen(a)]);
    EncodeInvertsDecode(b[..CharLen(b)]);
  }

  /** Decoding loses nothing on well-formed text: the text read determines the bytes sent. */
  lemma {:induction false} LossyInjective(a: seq<byte>, b: seq<byte>)
    requires WellFormed(a) && WellFormed(b) && Lossy(a) == Lossy(b)
    ensures a == b
  {
    hide Encode, CodePoint, CharLen, FirstRune;
    if a != [] && b != [] {
      var n, m := CharLen(a), CharLen(b);
      LossyHead(a);
      LossyHead(b);
      SameRuneSameBytes(a, b);
      LossyInjective(a[n..], b[m..]);
      assert a == a[..n] + a[n..] && b == b[..m] + b[m..];
    }
  }

  lemma LossyHead(b: seq<byte>)
    requires b != []
    ensures Lossy(b) != [] && Lossy(b)[0] == FirstRune(b) && Lossy(b)[1..] == Lossy(b[StepLen(b)..])
  {
  }
}
