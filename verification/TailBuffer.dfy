/** What a failed hook's error shows of its output: tailBuffer and outputTail of hooks.go. */
module TailBuffer {
  import opened Text
  import opened Utf8

  /** The 4096 of runHook. */
  const TAIL_MAX := 4096

  /** The bound of outputTail. */
  const MESSAGE_MAX := 512

  const ELLIPSIS: seq<byte> := [0x2E, 0x2E, 0x2E]
  const COLON: seq<byte> := [0x3A, 0x20]

  /** What the buffer holds of all that was written, when compaction has copied so many bytes. */
  ghost predicate Holds(max: nat, buf: seq<byte>, written: seq<byte>, copied: nat) {
    && |buf| <= 2 * max
    && EndOf(buf, written)
    && (|buf| < |written| ==> |buf| >= max)
    && copied + |buf| <= |written|
  }

  lemma HoldsMore(max: nat, buf: seq<byte>, written: seq<byte>, copied: nat, p: seq<byte>)
    requires Holds(max, buf, written, copied)
    ensures var all := buf + p;
            if |all| > 2 * max then
              Holds(max, all[|all| - max..], written + p, copied + max)
            else
              Holds(max, all, written + p, copied)
  {
    hide EndOf;
    EndGrows(buf, written, p);
    if |buf + p| > 2 * max {
      EndOfEnd(buf + p, written + p, max);
    }
    EndOfLength(buf, written);
  }

  lemma EndOfLength(t: seq<byte>, b: seq<byte>)
    requires EndOf(t, b)
    ensures |t| <= |b|
  {
  }

  class Tail {
    const max: nat
    var buf: seq<byte>

    /** Everything written, and how many bytes compaction has copied. */
    ghost var written: seq<byte>
    ghost var copied: nat

    ghost predicate Valid()
      reads this
    {
      Holds(max, buf, written, copied)
    }

    constructor (max: nat)
      ensures Valid() && this.max == max && written == []
    {
      this.max := max;
      buf, written, copied := [], [], 0;
    }

    /** The buffer stays within twice its size, and copying costs at most a byte a byte written. */
    method Write(p: seq<byte>)
      requires Valid()
      modifies this
      ensures Valid() && written == old(written) + p
      ensures copied == old(copied) + if old(|buf|) + |p| > 2 * max then max else 0
    {
      hide Holds;
      HoldsMore(max, buf, written, copied, p);
      buf, written := buf + p, written + p;
      if |buf| > 2 * max {
        buf, copied := buf[|buf| - max..], copied + max;
      }
    }

    method Bytes() returns (r: seq<byte>)
      requires Valid()
      ensures r == Last(written, max)
    {
      r := if |buf| > max then buf[|buf| - max..] else buf;
    }
  }

  /** outputTail. */
  method OutputTail(out: seq<byte>) returns (r: seq<byte>)
    ensures r == TailMessage(out)
  {
    hide Trim, Last;
    var s := Trim(out);
    if s == [] {
      return [];
    }
    if |s| > MESSAGE_MAX {
      LastOfLonger(s, MESSAGE_MAX);
      s := ELLIPSIS + s[|s| - MESSAGE_MAX..];
    }
    return COLON + s;
  }

  function TailMessage(out: seq<byte>): seq<byte> {
    var s := Trim(out);
    if s == [] then []
    else if |s| > MESSAGE_MAX then COLON + (ELLIPSIS + Last(s, MESSAGE_MAX))
    else COLON + s
  }

  /** What the message is made of, byte by byte. */
  lemma TailMessageExact(out: seq<byte>)
    ensures Trim(out) == [] ==> TailMessage(out) == []
    ensures 0 < |Trim(out)| <= 512 ==> TailMessage(out) == [0x3A, 0x20] + Trim(out)
    ensures |Trim(out)| > 512 ==>
              TailMessage(out) == [0x3A, 0x20, 0x2E, 0x2E, 0x2E] + Trim(out)[|Trim(out)| - 512..]
  {
    hide Trim;
    assert COLON + (ELLIPSIS + Last(Trim(out), MESSAGE_MAX)) == COLON + ELLIPSIS + Last(Trim(out), MESSAGE_MAX);
  }

  /** A blank output adds nothing; any other adds its end, and the message never grows past 517 bytes. */
  lemma TailMessageBounded(out: seq<byte>)
    ensures |TailMessage(out)| <= 517
    ensures TailMessage(out) == [] <==> Trim(out) == []
    ensures var shown := Last(Trim(out), MESSAGE_MAX); Trim(out) != [] ==> Last(TailMessage(out), |shown|) == shown
  {
    hide Trim;
  }

  // ---- Both cuts count bytes ----

  /** What the message shows of an output: its last 4096 bytes, trimmed, and of these the last 512. */
  function Shown(out: seq<byte>): seq<byte> {
    Last(Trim(Last(out, TAIL_MAX)), MESSAGE_MAX)
  }

  /** The end of well-formed text is well-formed exactly when it begins with a first byte. */
  lemma CutSuffix(b: seq<byte>, n: nat)
    requires WellFormed(b) && n <= |b|
    ensures WellFormed(b[n..]) <==> n == |b| || RuneStart(b[n])
  {
    if n < |b| && RuneStart(b[n]) {
      assert b[..n] + b[n..] == b;
      WellFormedSplits(b[..n], b[n..]);
    }
  }

  lemma AsciiFirst(c: byte, r: seq<byte>)
    requires c <= 0x7F
    ensures WellFormed([c] + r) <==> WellFormed(r)
  {
    assert ([c] + r)[1..] == r;
  }

  lemma MessageFormed(s: seq<byte>)
    ensures WellFormed(COLON + s) <==> WellFormed(s)
    ensures WellFormed(COLON + (ELLIPSIS + s)) <==> WellFormed(s)
  {
    hide WellFormed;
    PrefixFormed(COLON, s);
    PrefixFormed(ELLIPSIS, s);
    PrefixFormed(COLON, ELLIPSIS + s);
  }

  lemma {:induction false} PrefixFormed(ascii: seq<byte>, s: seq<byte>)
    requires forall i :: 0 <= i < |ascii| ==> ascii[i] <= 0x7F
    ensures WellFormed(ascii + s) <==> WellFormed(s)
  {
    hide WellFormed;
    if ascii == [] {
      assert ascii + s == s;
    } else {
      assert ascii + s == [ascii[0]] + (ascii[1..] + s);
      AsciiFirst(ascii[0], ascii[1..] + s);
      PrefixFormed(ascii[1..], s);
    }
  }

  /** Trimming the end of a text leaves a piece of it, which stops before a first byte. */
  lemma TrimmedPiece(b: seq<byte>, n: nat) returns (i: nat, j: nat)
    requires n <= |b|
    ensures i <= j <= |b| && Trim(b[n..]) == b[i..j]
    ensures j < |b| ==> RuneStart(b[j])
  {
    hide TrimLeft, TrimRight, RuneStart, EndOf, SpaceAtStart, SpaceAtEnd;
    TrimmedEnd(b, n);
    i, j := PieceOfEnd(b, TrimLeft(b[n..]));
  }

  lemma TrimmedEnd(b: seq<byte>, n: nat)
    requires n <= |b|
    ensures EndOf(TrimLeft(b[n..]), b)
  {
    hide TrimLeft, SpaceAtStart, EndOf;
    TrimLeftEnds(b[n..]);
    EndOfRest(b, n, TrimLeft(b[n..]));
  }

  lemma PieceOfEnd(b: seq<byte>, end: seq<byte>) returns (i: nat, j: nat)
    requires EndOf(end, b)
    ensures i <= j <= |b| && TrimRight(end) == b[i..j]
    ensures j < |b| ==> RuneStart(b[j])
  {
    hide TrimRight, RuneStart, SpaceAtEnd;
    TrimRightBegins(end);
    TrimRightStops(end);
    i := |b| - |end|;
    j := i + |TrimRight(end)|;
  }

  lemma PieceFormed(b: seq<byte>, i: nat, j: nat)
    requires WellFormed(b) && i <= j <= |b| && (j < |b| ==> RuneStart(b[j]))
    ensures WellFormed(b[i..j]) <==> i == j || RuneStart(b[i])
  {
    hide WellFormed;
    assert b[..j] + b[j..] == b;
    WellFormedSplits(b[..j], b[j..]);
    CutSuffix(b[..j], i);
    assert b[..j][i..] == b[i..j];
  }

  /** Of well-formed output the message is well-formed exactly when what it shows begins with a first byte. */
  lemma SuffixWellFormed(out: seq<byte>)
    requires WellFormed(out)
    ensures WellFormed(TailMessage(Last(out, TAIL_MAX))) <==> Shown(out) == [] || RuneStart(Shown(out)[0])
  {
    hide WellFormed, Trim, TailMessage, RuneStart;
    var n := if |out| <= TAIL_MAX then 0 else |out| - TAIL_MAX;
    assert out[n..] == Last(out, TAIL_MAX);
    var i, j := TrimmedPiece(out, n);
    var shown := Shown(out);
    assert shown == out[j - |shown|..j];
    PieceFormed(out, j - |shown|, j);
    MessageOfShown(out);
  }

  lemma MessageOfShown(out: seq<byte>)
    ensures WellFormed(TailMessage(Last(out, TAIL_MAX))) <==> WellFormed(Shown(out))
  {
    hide WellFormed, Trim;
    MessageFormed(Shown(out));
    NothingFormed();
  }

  /** Well-formed output that no cut shortens always gives a well-formed message. */
  lemma ShortMessageFormed(out: seq<byte>)
    requires WellFormed(out) && |out| <= TAIL_MAX && |Trim(out)| <= MESSAGE_MAX
    ensures WellFormed(TailMessage(Last(out, TAIL_MAX)))
  {
    hide WellFormed, Trim, TailMessage;
    TrimFormed(out);
    MessageOfShown(out);
  }

  lemma NothingFormed()
    ensures WellFormed([])
  {
  }

  /** A well-formed output of 513 bytes whose message begins inside its first character. */
  lemma MessageTorn() returns (out: seq<byte>)
    ensures |out| == 513 && WellFormed(out) && !WellFormed(TailMessage(Last(out, TAIL_MAX)))
  {
    hide WellFormed, TailMessage, Trim;
    var tail := seq(511, i => 0x61);
    out := [0xC3, 0xA9] + tail;
    assert WellFormed(out) by {
      PrefixFormed(tail, []);
      assert tail + [] == tail;
      NothingFormed();
      LetterFirst(tail);
    }
    NothingToTrim(out);
    SuffixWellFormed(out);
  }

  lemma LetterFirst(r: seq<byte>)
    ensures WellFormed([0xC3, 0xA9] + r) <==> WellFormed(r)
  {
    assert ([0xC3, 0xA9] + r)[2..] == r;
  }

  lemma NothingToTrim(b: seq<byte>)
    requires |b| > 3 && b[0] == 0xC3 && b[|b| - 1] == 0x61
    ensures Trim(b) == b
  {
    assert SpaceAtStart(b) == 0 && SpaceAtEnd(b) == 0;
  }

  /**
   The way of a failed hook's output into its error, in runHook: whatever the writes it arrives
   in, the suffix is that of the last 4096 bytes.
   */
  method FailureSuffix(writes: seq<seq<byte>>) returns (r: seq<byte>)
    ensures r == TailMessage(Last(Concat(writes), 4096))
    ensures |r| <= 517
  {
    hide Concat, TailMessage;
    ConcatNil();
    var tail := new Tail(TAIL_MAX);
    for i := 0 to |writes|
      invariant tail.Valid() && tail.max == TAIL_MAX && fresh(tail)
      invariant tail.written == Concat(writes[..i])
    {
      ConcatSnoc(writes[..i], writes[i]);
      assert writes[..i + 1] == writes[..i] + [writes[i]];
      tail.Write(writes[i]);
    }
    assert writes[..|writes|] == writes;
    TailMessageBounded(Last(Concat(writes), TAIL_MAX));
    var kept := tail.Bytes();
    r := OutputTail(kept);
  }
}
