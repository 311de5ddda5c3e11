/** The tags an edge reports: parseTags and edgeTags of tags.go. An empty sequence stands for nil. */
module Tags {
  import opened Sequences
  import opened Text
  import opened Utf8

  type Tag = seq<byte>

  const COMMA: byte := 0x2C

  // ---- parseTags ----

  /** One more byte in front: a comma opens a new part, any other byte joins the first. */
  function Push(c: byte, parts: seq<seq<byte>>): seq<seq<byte>>
    requires parts != []
  {
    if c == COMMA then [[]] + parts else [[c] + parts[0]] + parts[1..]
  }

  /** strings.Split(raw, ","). */
  function Split(raw: seq<byte>): (parts: seq<seq<byte>>)
    ensures parts != []
  {
    if raw == [] then [[]] else Push(raw[0], Split(raw[1..]))
  }

  function Joined(parts: seq<seq<byte>>): seq<byte>
    requires parts != []
  {
    if |parts| == 1 then parts[0] else parts[0] + [COMMA] + Joined(parts[1..])
  }

  /** The parts hold no comma, and put back together they are the input. */
  lemma {:induction false} SplitExact(raw: seq<byte>)
    ensures Joined(Split(raw)) == raw
    ensures forall i :: 0 <= i < |Split(raw)| ==> COMMA !in Split(raw)[i]
  {
    if raw != [] {
      var rest := Split(raw[1..]);
      SplitExact(raw[1..]);
      if raw[0] == COMMA {
        assert ([[]] + rest)[1..] == rest;
        assert raw == [] + [COMMA] + raw[1..];
      } else {
        assert Split(raw)[1..] == rest[1..];
        assert raw == [raw[0]] + raw[1..];
        if |rest| > 1 {
          assert [raw[0]] + rest[0] + [COMMA] + Joined(rest[1..]) == [raw[0]] + (rest[0] + [COMMA] + Joined(rest[1..]));
        }
      }
    }
  }

  lemma PushJoins(c: byte, left: seq<seq<byte>>, right: seq<seq<byte>>)
    requires left != []
    ensures Push(c, left + right) == Push(c, left) + right
  {
    assert (left + right)[1..] == left[1..] + right;
  }

  lemma {:induction false} SplitJoins(a: seq<byte>, b: seq<byte>)
    ensures Split(a + [COMMA] + b) == Split(a) + Split(b)
  {
    hide Push;
    var raw := a + [COMMA] + b;
    if a == [] {
      CommaFirst(b);
      assert raw == [COMMA] + b;
    } else {
      SplitJoins(a[1..], b);
      assert raw[1..] == a[1..] + [COMMA] + b;
      PushJoins(a[0], Split(a[1..]), Split(b));
    }
  }

  lemma CommaFirst(b: seq<byte>)
    ensures Split([COMMA] + b) == [[]] + Split(b)
  {
    assert ([COMMA] + b)[1..] == b;
  }

  /** The trimmed parts that are not empty. */
  function Usable(parts: seq<seq<byte>>): seq<Tag> {
    if parts == [] then
      []
    else
      var last := Trim(parts[|parts| - 1]);
      Usable(parts[..|parts| - 1]) + if last == [] then [] else [last]
  }

  function TagsOf(raw: seq<byte>): seq<Tag> {
    Usable(Split(raw))
  }

  method ParseTags(raw: seq<byte>) returns (tags: seq<Tag>)
    ensures tags == TagsOf(raw)
  {
    hide Trim;
    if raw == [] {
      EmptyHasNoTags();
      return [];
    }
    var parts := Split(raw);
    tags := [];
    for i := 0 to |parts|
      invariant tags == Usable(parts[..i])
    {
      assert parts[..i + 1][..i] == parts[..i];
      var p := Trim(parts[i]);
      if p == [] {
        continue;
      }
      tags := tags + [p];
    }
    assert parts[..|parts|] == parts;
  }

  lemma EmptyHasNoTags()
    ensures TagsOf([]) == []
  {
    assert Split([])[..0] == [];
  }

  lemma UsableSnoc(parts: seq<seq<byte>>, part: seq<byte>)
    ensures Usable(parts + [part]) == Usable(parts) + if Trim(part) == [] then [] else [Trim(part)]
  {
    hide Trim;
    assert (parts + [part])[..|parts|] == parts;
  }

  lemma {:induction false} UsableJoins(a: seq<seq<byte>>, b: seq<seq<byte>>)
    ensures Usable(a + b) == Usable(a) + Usable(b)
  {
    hide Trim, Usable;
    if b == [] {
      assert a + b == a;
      UsableNil();
    } else {
      var init, last := b[..|b| - 1], b[|b| - 1];
      UsableJoins(a, init);
      UsableSnoc(init, last);
      UsableSnoc(a + init, last);
      assert b == init + [last];
      Associate(a, init, [last]);
      Associate(Usable(a), Usable(init), if Trim(last) == [] then [] else [Trim(last)]);
    }
  }

  lemma UsableNil()
    ensures Usable([]) == []
  {
  }

  /** Joining two lists with a comma gives the tags of the one and then those of the other. */
  lemma TagsJoin(a: seq<byte>, b: seq<byte>)
    ensures TagsOf(a + [COMMA] + b) == TagsOf(a) + TagsOf(b)
  {
    SplitJoins(a, b);
    UsableJoins(Split(a), Split(b));
  }

  lemma {:induction false} OnePart(raw: seq<byte>)
    requires COMMA !in raw
    ensures Split(raw) == [raw]
  {
    if raw != [] {
      OnePart(raw[1..]);
      assert [raw[0]] + raw[1..] == raw && [raw[1..]][1..] == [];
    }
  }

  lemma OneTag(raw: seq<byte>)
    requires COMMA !in raw
    ensures TagsOf(raw) == if Trim(raw) == [] then [] else [Trim(raw)]
  {
    hide Trim;
    OnePart(raw);
    assert [raw][..0] == [];
  }

  /**
   A list without a comma is one tag, what is left of it when no space is left at either end, or,
   if there is nothing but spaces, none.
   */
  lemma SingleTag(raw: seq<byte>) returns (before: seq<seq<byte>>, after: seq<seq<byte>>)
    requires COMMA !in raw
    ensures Spaces(before) && Spaces(after)
    ensures if TagsOf(raw) == [] then
              raw == Concat(before) + Concat(after)
            else
              && |TagsOf(raw)| == 1
              && TagsOf(raw)[0] != [] && Trimmed(TagsOf(raw)[0])
              && raw == Concat(before) + TagsOf(raw)[0] + Concat(after)
  {
    hide TagsOf, Trim, Trimmed, Concat, Spaces;
    OneTag(raw);
    before, after := TrimExact(raw);
    assert Concat(before) + [] == Concat(before);
  }

  /** Nothing but spaces is no tag. */
  lemma BlankIsNoTag(ws: seq<seq<byte>>)
    requires Spaces(ws)
    ensures COMMA !in Concat(ws) && TagsOf(Concat(ws)) == []
  {
    hide TagsOf, Trim, Concat, Spaces;
    SpacesHoldNo(ws, COMMA);
    SpacesTrimAway(ws);
    OneTag(Concat(ws));
  }

  // ---- edgeTags ----

  /** `s` without what has been seen before. */
  function FirstOccurrences(s: seq<Tag>): seq<Tag> {
    if s == [] then
      []
    else
      var init, last := s[..|s| - 1], s[|s| - 1];
      FirstOccurrences(init) + if last in init then [] else [last]
  }

  /** The position of the first `x` in `s`. */
  function FirstIndex(s: seq<Tag>, x: Tag): (i: nat)
    requires x in s
    ensures i < |s| && s[i] == x && x !in s[..i]
  {
    if s[0] == x then 0 else 1 + FirstIndex(s[1..], x)
  }

  lemma {:induction false} FirstIndexUnique(s: seq<Tag>, x: Tag, i: nat)
    requires i < |s| && s[i] == x && x !in s[..i]
    ensures FirstIndex(s, x) == i
  {
    if i > 0 {
      assert s[..i] == [s[0]] + s[1..][..i - 1];
      FirstIndexUnique(s[1..], x, i - 1);
    }
  }

  lemma FirstIndexExtends(init: seq<Tag>, last: Tag, x: Tag)
    requires x in init + [last]
    ensures FirstIndex(init + [last], x) == if x in init then FirstIndex(init, x) else |init|
  {
    var k := if x in init then FirstIndex(init, x) else |init|;
    assert (init + [last])[..k] == init[..k];
    FirstIndexUnique(init + [last], x, k);
  }

  /** The tags of `f` are all in `s`, and their first positions there increase. */
  ghost predicate InOrder(s: seq<Tag>, f: seq<Tag>) {
    && (forall i :: 0 <= i < |f| ==> f[i] in s)
    && forall i, j :: 0 <= i < j < |f| ==> FirstIndex(s, f[i]) < FirstIndex(s, f[j])
  }

  /** Each tag once, in the order of its first occurrence. */
  lemma {:induction false} FirstOccurrencesExact(s: seq<Tag>)
    ensures forall x :: x in FirstOccurrences(s) <==> x in s
    ensures InOrder(s, FirstOccurrences(s))
  {
    hide InOrder;
    NothingInOrder(s);
    if s != [] {
      var init, last := s[..|s| - 1], s[|s| - 1];
      FirstOccurrencesExact(init);
      InOrderExtends(init, last, FirstOccurrences(init));
      assert s == init + [last];
      assert FirstOccurrences(s)
          == if last in init then FirstOccurrences(init) else FirstOccurrences(init) + [last];
    }
  }

  lemma NothingInOrder(s: seq<Tag>)
    ensures InOrder(s, [])
  {
  }

  lemma InOrderExtends(init: seq<Tag>, last: Tag, g: seq<Tag>)
    requires InOrder(init, g)
    ensures InOrder(init + [last], if last in init then g else g + [last])
  {
    hide FirstIndex;
    var s, f := init + [last], if last in init then g else g + [last];
    forall i | 0 <= i < |f|
      ensures f[i] in s && FirstIndex(s, f[i]) == if i < |g| then FirstIndex(init, g[i]) else |init|
    {
      assert i < |g| ==> f[i] == g[i] && g[i] in init;
      FirstIndexExtends(init, last, f[i]);
    }
  }

  /** The in-place filter of edgeTags: it overwrites only what it has read. */
  method DropDuplicates(all: array<Tag>) returns (n: nat)
    modifies all
    ensures n <= all.Length && all[..n] == FirstOccurrences(old(all[..]))
  {
    ghost var before := all[..];
    var seen: set<Tag> := {};
    n := 0;
    for r := 0 to all.Length
      invariant n <= r
      invariant all[..n] == FirstOccurrences(before[..r])
      invariant forall k :: r <= k < all.Length ==> all[k] == before[k]
      invariant forall t :: t in seen <==> t in before[..r]
    {
      assert before[..r + 1][..r] == before[..r];
      var t := all[r];
      if t in seen {
        continue;
      }
      seen := seen + {t};
      ghost var kept := all[..n];
      all[n] := t;
      n := n + 1;
      assert all[..n] == kept + [t];
    }
    assert before[..all.Length] == before;
  }

  method EdgeTags(flagTags: seq<byte>, extraTags: seq<byte>) returns (tags: seq<Tag>)
    ensures tags == FirstOccurrences(TagsOf(flagTags) + TagsOf(extraTags))
  {
    hide TagsOf, FirstOccurrences;
    var parsed := ParseTags(flagTags + [COMMA] + extraTags);
    TagsJoin(flagTags, extraTags);
    var all := new Tag[|parsed|](i requires 0 <= i < |parsed| => parsed[i]);
    assert all[..] == parsed;
    var n := DropDuplicates(all);
    tags := all[..n];
  }
}
