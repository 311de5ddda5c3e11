/** Where the log streamer cuts its buffer: logStreamer.next and runeBoundary. */
module LogCut {
  import opened Text
  import opened Utf8

  const NEWLINE: byte := 10

  /** The last position of `c` in `b`, or -1. */
  function LastIndex(b: seq<byte>, c: byte): (i: int)
    ensures -1 <= i < |b|
    ensures i >= 0 ==> b[i] == c
    ensures forall j :: i < j < |b| ==> b[j] != c
  {
    if b == [] then -1
    else if b[|b| - 1] == c then |b| - 1
    else LastIndex(b[..|b| - 1], c)
  }

  /** bytes.LastIndexByte. */
  method LastIndexByte(b: seq<byte>, c: byte) returns (i: int)
    ensures i == LastIndex(b, c)
  {
    i := |b| - 1;
    while i >= 0
      invariant -1 <= i < |b|
      invariant forall j :: i < j < |b| ==> b[j] != c
    {
      if b[i] == c {
        return;
      }
      i := i - 1;
    }
  }

  /** The window without the incomplete character it may end in. */
  function RuneCut(w: seq<byte>): (n: nat)
    ensures |w| - 3 <= n <= |w|
  {
    if |w| >= 1 && !FullRune(w[|w| - 1..]) then |w| - 1
    else if |w| >= 2 && !FullRune(w[|w| - 2..]) then |w| - 2
    else if |w| >= 3 && !FullRune(w[|w| - 3..]) then |w| - 3
    else |w|
  }

  /** An incomplete character is a first byte and at most two continuation bytes. */
  lemma IncompleteShape(p: seq<byte>)
    requires p != [] && !FullRune(p)
    ensures |p| <= 3 && RuneStart(p[0]) && forall j :: 0 < j < |p| ==> Tail(p[j])
  {
  }

  /** A byte that cannot continue a character completes whatever came before it. */
  lemma FullRuneAround(p: seq<byte>, j: nat)
    requires j < |p| && if j == 0 then SizeOf(p[0]) == 1 else RuneStart(p[j])
    ensures FullRune(p)
  {
  }

  lemma RuneCutAtLastStart(w: seq<byte>, i: nat)
    requires i < |w| <= i + UTF_MAX
    requires RuneStart(w[i]) && forall j :: i < j < |w| ==> Tail(w[j])
    ensures RuneCut(w) == if FullRune(w[i..]) then |w| else i
  {
    forall k | 0 <= k < |w| && k != i
      ensures FullRune(w[k..])
    {
      FullRuneAround(w[k..], if k < i then i - k else 0);
    }
    if !FullRune(w[i..]) {
      IncompleteShape(w[i..]);
    }
  }

  lemma RuneCutWithoutStart(w: seq<byte>)
    requires forall j :: 0 <= j < |w| && |w| - UTF_MAX <= j ==> Tail(w[j])
    ensures RuneCut(w) == |w|
  {
  }

  /** runeBoundary. */
  method RuneBoundary(b: seq<byte>, n: nat) returns (m: nat)
    requires n <= |b|
    ensures m == RuneCut(b[..n])
  {
    ghost var w := b[..n];
    var i := n - 1;
    while i >= 0 && i >= n - UTF_MAX
      invariant -1 <= i < n && n - UTF_MAX - 1 <= i
      invariant forall j :: i < j < n ==> Tail(w[j])
    {
      if RuneStart(b[i]) {
        RuneCutAtLastStart(w, i);
        assert w[i..] == b[i..n];
        if !FullRune(b[i..n]) {
          return i;
        }
        return n;
      }
      i := i - 1;
    }
    RuneCutWithoutStart(w);
    return n;
  }

  lemma RuneCutIsClean(w: seq<byte>, e: seq<byte>)
    ensures CleanCut(w[..RuneCut(w)], w[RuneCut(w)..] + e)
  {
    hide FullRune;
    var n := RuneCut(w);
    if n < |w| {
      IncompleteShape(w[n..]);
      assert (w[n..] + e)[0] == w[n..][0];
    } else {
      assert w[..n] == w;
      forall i | 0 <= i < |w|
        ensures FullRune(w[i..])
      {
        SuffixIsFull(w, i);
      }
    }
  }

  lemma SuffixIsFull(w: seq<byte>, i: nat)
    requires i < |w| && RuneCut(w) == |w|
    ensures FullRune(w[i..])
  {
    hide FullRune;
    if |w[i..]| >= UTF_MAX {
      LongIsFull(w[i..]);
    }
  }

  lemma LongIsFull(p: seq<byte>)
    requires |p| >= UTF_MAX
    ensures FullRune(p)
  {
  }

  lemma CleanCutsAreBoundaries(b: seq<byte>, n: nat)
    requires n <= |b| && forall e: seq<byte> :: CleanCut(b[..n], b[n..] + e)
    ensures Boundary(b, n)
  {
    forall e: seq<byte>
      ensures Lossy(b[..n]) + Lossy(b[n..] + e) == Lossy(b + e)
    {
      LossySplitsAt(b, n, e);
    }
  }

  lemma LossySplitsAt(b: seq<byte>, n: nat, e: seq<byte>)
    requires n <= |b| && CleanCut(b[..n], b[n..] + e)
    ensures Lossy(b + e) == Lossy(b[..n]) + Lossy(b[n..] + e)
  {
    assert b[..n] + (b[n..] + e) == b + e;
    LossySplits(b[..n], b[n..] + e);
  }

  /** runeBoundary backs off to a boundary, and to the last one there is. */
  lemma RuneCutIsGreatestBoundary(w: seq<byte>)
    ensures Boundary(w, RuneCut(w))
    ensures forall m :: RuneCut(w) < m <= |w| ==> !Boundary(w, m)
  {
    var n := RuneCut(w);
    CleanCutsAreBoundaries(w, n) by {
      forall e: seq<byte>
        ensures CleanCut(w[..n], w[n..] + e)
      {
        RuneCutIsClean(w, e);
      }
    }
    forall m | n < m <= |w|
      ensures !Boundary(w, m)
    {
      InsideCharacter(w, n, m);
    }
  }

  /** A cut inside an incomplete character shows once the character is completed. */
  lemma InsideCharacter(w: seq<byte>, i: nat, m: nat)
    requires i < m <= |w| && !FullRune(w[i..])
    ensures !Boundary(w, m)
  {
    var e := Completable(w[i..]);
    Regroup3(w, i, m, e);
    SplitCharacterShows(w[..i], w[i..m], w[m..] + e);
  }

  lemma Regroup3(w: seq<byte>, i: nat, m: nat, e: seq<byte>)
    requires i <= m <= |w|
    ensures w[i..] + e == w[i..m] + (w[m..] + e)
    ensures w[..i] + w[i..m] == w[..m]
    ensures w[..i] + (w[i..m] + (w[m..] + e)) == w + e
  {
  }

  lemma Completable(p: seq<byte>) returns (e: seq<byte>)
    requires p != [] && !FullRune(p)
    ensures e != [] && Char(p + e)
  {
    e := Completion(p);
  }

  lemma SplitCharacterShows(a: seq<byte>, head: seq<byte>, tail: seq<byte>)
    requires head != [] && tail != [] && Char(head + tail)
    ensures Lossy(a + head) + Lossy(tail) != Lossy(a + (head + tail))
  {
    assert (head + tail)[0] == head[0];
    LossyGrows(a, head);
    LossyGrows(a, head + tail);
    LossyOfChar(head + tail);
    LossyNonEmpty(tail);
  }

  lemma LossyGrows(a: seq<byte>, r: seq<byte>)
    requires r != [] && RuneStart(r[0])
    ensures |Lossy(a + r)| == |Lossy(a)| + |Lossy(r)| && |Lossy(r)| > 0
  {
    LossySplits(a, r);
  }

  lemma LossyOfChar(w: seq<byte>)
    requires Char(w)
    ensures |Lossy(w)| == 1
  {
    CharLenIsGrammar(w, |w|);
    assert w[..|w|] == w;
    assert Lossy(w) == [FirstRune(w)] + Lossy([]);
  }

  lemma LossyNonEmpty(b: seq<byte>)
    requires b != []
    ensures |Lossy(b)| > 0
  {
  }

  /**
   How many bytes next takes from the buffer `b`; 0 when it takes none. A chunk has at most
   `chunkMax` bytes and, unless the final flush takes all that is left, ends with the last
   newline of that window, or at the last boundary of a full window without a newline.
   */
  function CutAt(b: seq<byte>, final: bool, chunkMax: nat): (n: nat)
    requires chunkMax >= UTF_MAX
    ensures n <= |b| && n <= chunkMax
    ensures final && b != [] ==> n > 0
  {
    var window := b[..if |b| < chunkMax then |b| else chunkMax];
    var newline := LastIndex(window, NEWLINE);
    if final && |b| <= chunkMax then |b|
    else if newline >= 0 then newline + 1
    else if |b| < chunkMax then 0
    else RuneCut(window)
  }

  /** The choice of n in next; 0 for its return without a chunk. */
  method CutLength(b: seq<byte>, final: bool, chunkMax: nat) returns (n: nat)
    requires chunkMax >= UTF_MAX
    ensures n == CutAt(b, final, chunkMax)
  {
    n := if |b| < chunkMax then |b| else chunkMax;
    if !final || n < |b| {
      var i := LastIndexByte(b[..n], NEWLINE);
      if i >= 0 {
        n := i + 1;
      } else if n < chunkMax {
        return 0;
      } else {
        n := RuneBoundary(b, n);
      }
    }
  }

  /**
   Where a cut is, from the buffer alone: it takes the whole buffer when that is the last chunk of
   the final flush; it ends with the last newline of the window, if there is one; without one a
   short window is left alone, and a full one is cut at its last decoding boundary.
   */
  lemma CutExactly(b: seq<byte>, final: bool, chunkMax: nat)
    requires chunkMax >= UTF_MAX
    ensures var n, window := CutAt(b, final, chunkMax), b[..if |b| < chunkMax then |b| else chunkMax];
            if final && |b| <= chunkMax then
              n == |b|
            else if 10 in window then
              0 < n <= |window| && window[n - 1] == 10 && 10 !in window[n..]
            else if |b| < chunkMax then
              n == 0
            else
              Boundary(window, n) && forall m :: n < m <= |window| ==> !Boundary(window, m)
  {
    hide RuneCut, Boundary;
    RuneCutIsGreatestBoundary(b[..if |b| < chunkMax then |b| else chunkMax]);
  }

  lemma NewlineSettles(a: seq<byte>)
    requires a != [] && a[|a| - 1] == NEWLINE
    ensures Settled(a)
  {
    forall i | 0 <= i < |a|
      ensures FullRune(a[i..])
    {
      FullRuneAround(a[i..], |a| - 1 - i);
    }
  }

  /** Every cut is clean, whatever is written later, but the one that takes the whole buffer in the final flush. */
  lemma CutIsClean(b: seq<byte>, final: bool, chunkMax: nat, e: seq<byte>)
    requires chunkMax >= UTF_MAX
    requires final && |b| <= chunkMax ==> e == []
    ensures var n := CutAt(b, final, chunkMax); CleanCut(b[..n], b[n..] + e)
  {
    var n := CutAt(b, final, chunkMax);
    var window := b[..if |b| < chunkMax then |b| else chunkMax];
    if final && |b| <= chunkMax {
      assert b[n..] + e == [];
    } else if LastIndex(window, NEWLINE) >= 0 {
      NewlineSettles(b[..n]);
    } else if n > 0 {
      RuneCutIsClean(window, b[chunkMax..] + e);
      assert window[..n] == b[..n];
      assert window[n..] + (b[chunkMax..] + e) == b[n..] + e;
    }
  }

  lemma CutSplits(b: seq<byte>, final: bool, chunkMax: nat, e: seq<byte>)
    requires chunkMax >= UTF_MAX
    requires final && |b| <= chunkMax ==> e == []
    ensures var n := CutAt(b, final, chunkMax);
            && Lossy(b + e) == Lossy(b[..n]) + Lossy(b[n..] + e)
            && (WellFormed(b + e) ==> WellFormed(b[..n]) && WellFormed(b[n..] + e))
  {
    hide *;
    var n := CutAt(b, final, chunkMax);
    CutIsClean(b, final, chunkMax, e);
    LossySplitsAt(b, n, e);
    assert b[..n] + (b[n..] + e) == b + e;
    if WellFormed(b + e) {
      WellFormedSplits(b[..n], b[n..] + e);
    }
  }

  /** `a` ends inside a character, and `p` completes it. */
  predicate Completes(a: seq<byte>, p: seq<byte>) {
    RuneCut(a) < |a| && CharLen(a[RuneCut(a)..] + p) > 0
  }

  /** What is cut anywhere reads differently in two parts exactly when the cut is inside a character. */
  lemma TearsExactly(a: seq<byte>, p: seq<byte>)
    ensures Lossy(a) + Lossy(p) != Lossy(a + p) <==> Completes(a, p)
  {
    hide Lossy, CharLen, FullRune;
    var i := RuneCut(a);
    RuneCutIsClean(a, p);
    LossySplitsAt(a, i, p);
    RuneCutIsClean(a, []);
    LossySplitsAt(a, i, []);
    if i < |a| {
      assert a + [] == a && a[i..] + [] == a[i..];
      Cancel(Lossy(a[..i]), Lossy(a[i..]), Lossy(p), Lossy(a[i..] + p));
      TornCharacter(a[i..], p);
    } else {
      assert a[..i] == a && a[i..] + p == p;
    }
  }

  lemma Cancel(a: seq<nat>, b: seq<nat>, c: seq<nat>, d: seq<nat>)
    ensures (a + b) + c == a + d <==> b + c == d
  {
    assert (a + b) + c == a + (b + c);
    assert (a + d)[|a|..] == d && (a + (b + c))[|a|..] == b + c;
  }

  lemma TornCharacter(head: seq<byte>, p: seq<byte>)
    requires head != [] && !FullRune(head)
    ensures Lossy(head) + Lossy(p) != Lossy(head + p) <==> CharLen(head + p) > 0
  {
    hide Lossy, CharLen;
    if CharLen(head + p) > 0 {
      CompletedCharacter(head, p);
    } else {
      HopelessCharacter(head, p);
    }
  }

  /** Continuation bytes by themselves are one U+FFFD each. */
  lemma TailBytesSettled(t: seq<byte>)
    requires forall j :: 0 <= j < |t| ==> Tail(t[j])
    ensures Settled(t)
  {
    forall i | 0 <= i < |t|
      ensures FullRune(t[i..])
    {
      FullRuneAround(t[i..], 0);
    }
  }

  lemma CharacterShape(head: seq<byte>, p: seq<byte>)
    requires head != [] && !FullRune(head) && CharLen(head + p) > 0
    ensures var k := CharLen(head + p) - |head|;
            0 < k <= |p| && forall j :: 0 <= j < k ==> Tail(p[j])
  {
    var n := CharLen(head + p);
    assert forall j :: 0 <= j < |head| ==> (head + p)[j] == head[j];
    assert forall j :: 0 <= j < |p| ==> (head + p)[|head| + j] == p[j];
    assert forall j :: 0 < j < n ==> Tail((head + p)[j]);
  }

  lemma CompletedCharacter(head: seq<byte>, p: seq<byte>)
    requires head != [] && !FullRune(head) && CharLen(head + p) > 0
    ensures Lossy(head) + Lossy(p) != Lossy(head + p)
  {
    hide CharLen, FullRune;
    var k := CharLen(head + p) - |head|;
    CharacterShape(head, p);
    var q, r := p[..k], p[k..];
    assert q + r == p && (head + p)[|head| + k..] == r;
    TailBytesSettled(q);
    LossySplits(q, r);
    LossyNonEmpty(q);
    LossyNonEmpty(head);
    assert Lossy(head + p) == [FirstRune(head + p)] + Lossy(r);
  }

  lemma HopelessCharacter(head: seq<byte>, p: seq<byte>)
    requires head != [] && !FullRune(head) && CharLen(head + p) == 0
    ensures Lossy(head) + Lossy(p) == Lossy(head + p)
  {
    hide FullRune, Lossy, CharLen;
    var rest := head[1..];
    IncompleteShape(head);
    NoCharacterYet(head);
    TailBytesSettled(rest);
    LossySplits(rest, p);
    assert (head + p)[1..] == rest + p;
    OneReplacement(head);
    OneReplacement(head + p);
    assert ([REPLACEMENT] + Lossy(rest)) + Lossy(p) == [REPLACEMENT] + (Lossy(rest) + Lossy(p));
  }

  lemma OneReplacement(b: seq<byte>)
    requires b != [] && CharLen(b) == 0
    ensures Lossy(b) == [REPLACEMENT] + Lossy(b[1..])
  {
    hide CharLen;
  }

  lemma NoCharacterYet(head: seq<byte>)
    requires head != [] && !FullRune(head)
    ensures CharLen(head) == 0
  {
  }

  /** Whole lines, or a piece of one overlong line, cut at the last boundary of the window. */
  predicate LineChunk(chunk: seq<byte>, chunkMax: nat) {
    chunk != [] && (chunk[|chunk| - 1] == NEWLINE || (|chunk| >= chunkMax - 3 && NEWLINE !in chunk))
  }

  /** So is every chunk but the one that takes the whole buffer in the final flush. */
  lemma CutShape(b: seq<byte>, final: bool, chunkMax: nat)
    requires chunkMax >= UTF_MAX && CutAt(b, final, chunkMax) > 0 && !(final && |b| <= chunkMax)
    ensures LineChunk(b[..CutAt(b, final, chunkMax)], chunkMax)
  {
    var window := b[..if |b| < chunkMax then |b| else chunkMax];
    assert forall i :: 0 <= i < |window| ==> window[i] == b[i];
  }

  // ---- One flush, without writes or failures ----

  /** The chunks a flush of the buffer `b` takes. */
  function Chunks(b: seq<byte>, final: bool, chunkMax: nat): (s: seq<seq<byte>>)
    requires chunkMax >= UTF_MAX
    decreases |b|
  {
    var n := CutAt(b, final, chunkMax);
    if n == 0 then [] else [b[..n]] + Chunks(b[n..], final, chunkMax)
  }

  /** What such a flush leaves. */
  function Rest(b: seq<byte>, final: bool, chunkMax: nat): seq<byte>
    requires chunkMax >= UTF_MAX
    decreases |b|
  {
    var n := CutAt(b, final, chunkMax);
    if n == 0 then b else Rest(b[n..], final, chunkMax)
  }

  /** Each chunk of a periodic flush is whole lines, or a cut piece of one overlong line. */
  ghost predicate PeriodicChunk(chunk: seq<byte>, after: seq<byte>, chunkMax: nat) {
    && 0 < |chunk| <= chunkMax
    && (chunk[|chunk| - 1] == NEWLINE
        || (|chunk + after| >= chunkMax && NEWLINE !in (chunk + after)[..chunkMax]))
  }

  ghost predicate PeriodicChunks(s: seq<seq<byte>>, rest: seq<byte>, chunkMax: nat) {
    s == [] || (PeriodicChunk(s[0], Concat(s[1..]) + rest, chunkMax) && PeriodicChunks(s[1..], rest, chunkMax))
  }

  lemma PeriodicCut(b: seq<byte>, chunkMax: nat)
    requires chunkMax >= UTF_MAX
    ensures var n := CutAt(b, false, chunkMax);
            if n == 0 then |b| < chunkMax && NEWLINE !in b else PeriodicChunk(b[..n], b[n..], chunkMax)
  {
    var n := CutAt(b, false, chunkMax);
    assert b[..n] + b[n..] == b;
  }

  /** A periodic flush leaves less than a chunk of one unfinished line. */
  lemma {:induction false} PeriodicFlush(b: seq<byte>, chunkMax: nat)
    requires chunkMax >= UTF_MAX
    ensures var s, rest := Chunks(b, false, chunkMax), Rest(b, false, chunkMax);
            && |rest| < chunkMax && NEWLINE !in rest
            && PeriodicChunks(s, rest, chunkMax)
    decreases |b|
  {
    var n := CutAt(b, false, chunkMax);
    PeriodicCut(b, chunkMax);
    if n > 0 {
      var s, rest := Chunks(b[n..], false, chunkMax), Rest(b[n..], false, chunkMax);
      PeriodicFlush(b[n..], chunkMax);
      FlushConserves(b[n..], false, chunkMax);
      assert Chunks(b, false, chunkMax) == [b[..n]] + s;
      assert ([b[..n]] + s)[1..] == s;
    }
  }

  /** A flush takes the buffer's bytes in order. */
  lemma {:induction false} FlushConserves(b: seq<byte>, final: bool, chunkMax: nat)
    requires chunkMax >= UTF_MAX
    ensures Concat(Chunks(b, final, chunkMax)) + Rest(b, final, chunkMax) == b
    decreases |b|
  {
    var n := CutAt(b, final, chunkMax);
    if n > 0 {
      FlushConserves(b[n..], final, chunkMax);
      var s, rest := Chunks(b[n..], final, chunkMax), Rest(b[n..], final, chunkMax);
      ConcatCons(b[..n], s);
      assert Chunks(b, final, chunkMax) == [b[..n]] + s;
      assert Rest(b, final, chunkMax) == rest;
      Regroup(b, n, Concat(s), rest);
    }
  }

  /** A final flush takes everything. */
  lemma {:induction false} FinalFlush(b: seq<byte>, chunkMax: nat)
    requires chunkMax >= UTF_MAX
    ensures Rest(b, true, chunkMax) == []
    decreases |b|
  {
    if b != [] {
      FinalFlush(b[CutAt(b, true, chunkMax)..], chunkMax);
    }
  }

  /** Two chunks in a row carry chunkMax - 2 bytes at least, or the second is the last. */
  lemma TwoChunks(b: seq<byte>, chunkMax: nat)
    requires chunkMax >= UTF_MAX && b != []
    ensures var n := CutAt(b, true, chunkMax);
            var m := CutAt(b[n..], true, chunkMax);
            n + m == |b| || n + m >= chunkMax - 2
  {
    var n := CutAt(b, true, chunkMax);
    if |b| > chunkMax && LastIndex(b[..chunkMax], NEWLINE) >= 0 {
      forall k | 0 <= k < chunkMax - n
        ensures b[n..][k] != NEWLINE
      {
        assert b[..chunkMax][n + k] == b[n..][k];
      }
    }
  }

  /** A final flush of L bytes takes at most 2 * (L / (chunkMax - 2)) + 2 chunks. */
  lemma {:induction false} FinalFlushBound(b: seq<byte>, chunkMax: nat)
    requires chunkMax >= UTF_MAX
    ensures |Chunks(b, true, chunkMax)| <= 2 * (|b| / (chunkMax - 2)) + 2
    decreases |b|
  {
    hide Chunks, CutAt;
    var n := CutAt(b, true, chunkMax);
    var m := CutAt(b[n..], true, chunkMax);
    var rest := b[n..][m..];
    ChunkCount(b, true, chunkMax);
    ChunkCount(b[n..], true, chunkMax);
    ChunkCount(rest, true, chunkMax);
    if b != [] && n + m < |b| {
      TwoChunks(b, chunkMax);
      FinalFlushBound(rest, chunkMax);
      BoundStep(|Chunks(b, true, chunkMax)|, |Chunks(rest, true, chunkMax)|, |b|, |rest|, chunkMax - 2, 2);
    }
  }

  lemma ChunkCount(b: seq<byte>, final: bool, chunkMax: nat)
    requires chunkMax >= UTF_MAX
    ensures var n := CutAt(b, final, chunkMax);
            |Chunks(b, final, chunkMax)| == if n == 0 then 0 else 1 + |Chunks(b[n..], final, chunkMax)|
  {
  }

  lemma BoundStep(count: nat, countAfter: nat, length: nat, lengthAfter: nat, d: nat, more: nat)
    requires d > 0 && count == 2 + countAfter && lengthAfter + d <= length
    requires countAfter <= 2 * (lengthAfter / d) + more
    ensures count <= 2 * (length / d) + more
  {
    var p, q := lengthAfter / d, length / d;
    if q <= p {
      ProductGrows(q + 1, p + 1, d);
      assert false;
    }
  }

  /** Two chunks in a row of a periodic flush carry chunkMax - 2 bytes at least. */
  lemma PeriodicTwoChunks(b: seq<byte>, chunkMax: nat)
    requires chunkMax >= UTF_MAX
    ensures var n := CutAt(b, false, chunkMax);
            var m := CutAt(b[n..], false, chunkMax);
            n > 0 && m > 0 ==> n + m >= chunkMax - 2
  {
    var n := CutAt(b, false, chunkMax);
    var size := if |b| < chunkMax then |b| else chunkMax;
    if LastIndex(b[..size], NEWLINE) >= 0 {
      forall k | 0 <= k < size - n
        ensures b[n..][k] != NEWLINE
      {
        assert b[..size][n + k] == b[n..][k];
      }
    }
  }

  /** A periodic flush of L bytes takes at most 2 * (L / (chunkMax - 2)) + 1 chunks. */
  lemma {:induction false} PeriodicFlushBound(b: seq<byte>, chunkMax: nat)
    requires chunkMax >= UTF_MAX
    ensures |Chunks(b, false, chunkMax)| <= 2 * (|b| / (chunkMax - 2)) + 1
    decreases |b|
  {
    hide Chunks, CutAt;
    var n := CutAt(b, false, chunkMax);
    var m := CutAt(b[n..], false, chunkMax);
    var rest := b[n..][m..];
    ChunkCount(b, false, chunkMax);
    ChunkCount(b[n..], false, chunkMax);
    if n > 0 && m > 0 {
      PeriodicTwoChunks(b, chunkMax);
      PeriodicFlushBound(rest, chunkMax);
      BoundStep(|Chunks(b, false, chunkMax)|, |Chunks(rest, false, chunkMax)|, |b|, |rest|, chunkMax - 2, 1);
    }
  }

  lemma ProductGrows(x: nat, y: nat, d: nat)
    requires x <= y
    ensures x * d <= y * d
  {
  }
}
