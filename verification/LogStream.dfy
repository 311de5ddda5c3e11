/**
 The log streamer: logStreamer of logstream.go. `Core` is what its mutex guards; the class
 has the code's methods; `State` and `Step` are the protocol, one step per critical section,
 with writes free to fall between any two of them.
 */
module LogStream {
  import opened Utf8
  import opened LogCut
  import opened Options
  import opened Sequences

  datatype Limits = Limits(chunkMax: nat, bufferMax: nat)

  /** logChunkMax and logBufferMax. */
  const LIMITS := Limits(0x1_0000, 0x40_0000)

  type GoodLimits = l: Limits | l.chunkMax >= UTF_MAX witness LIMITS

  datatype Core = Core(buf: seq<byte>, truncated: bool)

  /** A log reply: stream bytes, or the line saying that the log has a gap. */
  datatype Chunk = Data(bytes: seq<byte>) | Marker

  function WriteCore(l: GoodLimits, c: Core, p: seq<byte>): Core {
    if |c.buf| + |p| > l.bufferMax then c.(truncated := true) else c.(buf := c.buf + p)
  }

  function NextCore(l: GoodLimits, c: Core, final: bool): (Option<Chunk>, Core) {
    if c.buf == [] then
      if final && c.truncated then (Some(Marker), c.(truncated := false)) else (None, c)
    else
      var n := CutAt(c.buf, final, l.chunkMax);
      if n == 0 then (None, c) else (Some(Data(c.buf[..n])), c.(buf := c.buf[n..]))
  }

  // ---- The protocol ----

  datatype Outcome = Pending | Delivered | Lost

  datatype Sent = Sent(chunk: Chunk, final: bool, outcome: Outcome)

  datatype Offer = Offer(bytes: seq<byte>, kept: bool)

  datatype Phase = Idle | Picking(final: bool) | Replying(final: bool) | Done

  /**
   `offers` and `sent` record every write and every log reply so far, `closing` the buffer when
   the final flush began, `ended` that this flush took the whole buffer as its last chunk. The
   caller of Close promises to write nothing more; the flags say how that promise was broken:
   `late` by any write after the final flush began, `overrun` by bytes accepted after the stream
   was ended, `missed` by a write after the marker was taken or the flush was over.
   */
  datatype State = State(core: Core, phase: Phase, offers: seq<Offer>, sent: seq<Sent>,
                         closing: seq<byte>, ended: bool, late: bool, overrun: bool, missed: bool)

  datatype Step = Write(p: seq<byte>) | Tick | Close | Next | Answer(ok: bool)

  const START := State(Core([], false), Idle, [], [], [], false, false, false, false)

  predicate Ending(p: Phase) {
    p == Picking(true) || p == Replying(true) || p == Done
  }

  /** Nothing is left to say but, at most, how the reply in flight ends. */
  predicate Sealed(s: State) {
    s.phase == Done || (s.sent != [] && s.sent[|s.sent| - 1].chunk == Marker)
  }

  /** The next cut ends the stream: it takes all that is left, whatever it ends in. */
  predicate TakesAll(l: GoodLimits, s: State) {
    s.phase == Picking(true) && 0 < |s.core.buf| <= l.chunkMax
  }

  predicate Enabled(s: State, step: Step) {
    match step
    case Write(_) => true
    case Tick => s.phase == Idle
    case Close => s.phase == Idle
    case Next => s.phase.Picking?
    case Answer(_) => s.phase.Replying? && s.sent != []
  }

  function Apply(l: GoodLimits, s: State, step: Step): State
    requires Enabled(s, step)
  {
    match step
    case Write(p) =>
      var core, kept := WriteCore(l, s.core, p), |s.core.buf| + |p| <= l.bufferMax;
      s.(core := core, offers := s.offers + [Offer(p, kept)], late := s.late || Ending(s.phase),
         overrun := s.overrun || (s.ended && kept && p != []), missed := s.missed || Sealed(s))
    case Tick => s.(phase := Picking(false))
    case Close => s.(phase := Picking(true), closing := s.core.buf)
    case Next =>
      var (chunk, core) := NextCore(l, s.core, s.phase.final);
      if chunk.None? then
        s.(phase := if s.phase.final then Done else Idle)
      else
        s.(core := core, phase := Replying(s.phase.final), ended := s.ended || TakesAll(l, s),
           sent := s.sent + [Sent(chunk.value, s.phase.final, Pending)])
    case Answer(ok) =>
      var last := |s.sent| - 1;
      var sent := s.sent[..last] + [s.sent[last].(outcome := if ok then Delivered else Lost)];
      if ok then
        s.(sent := sent, phase := Picking(s.phase.final))
      else
        s.(sent := sent, core := s.core.(truncated := true), phase := if s.phase.final then Done else Idle)
  }

  /** The state a run reaches; None when some step was not possible. */
  function After(l: GoodLimits, run: seq<Step>): Option<State> {
    if run == [] then
      Some(START)
    else
      var before := After(l, run[..|run| - 1]);
      var step := run[|run| - 1];
      if before.Some? && Enabled(before.value, step) then Some(Apply(l, before.value, step)) else None
  }

  lemma AfterSnoc(l: GoodLimits, run: seq<Step>, s: State, step: Step)
    requires After(l, run) == Some(s) && Enabled(s, step)
    ensures After(l, run + [step]) == Some(Apply(l, s, step))
  {
    assert (run + [step])[..|run|] == run;
  }

  // ---- What the records say ----

  function Accepted(offers: seq<Offer>): seq<byte> {
    if offers == [] then
      []
    else
      var last := offers[|offers| - 1];
      Accepted(offers[..|offers| - 1]) + if last.kept then last.bytes else []
  }

  function Written(offers: seq<Offer>): seq<byte> {
    if offers == [] then [] else Written(offers[..|offers| - 1]) + offers[|offers| - 1].bytes
  }

  predicate Dropped(offers: seq<Offer>) {
    exists i :: 0 <= i < |offers| && !offers[i].kept
  }

  function BytesOf(c: Chunk): seq<byte> {
    if c.Data? then c.bytes else []
  }

  /** The stream bytes sent, delivered or not. */
  function SentBytes(sent: seq<Sent>): seq<byte> {
    if sent == [] then [] else SentBytes(sent[..|sent| - 1]) + BytesOf(sent[|sent| - 1].chunk)
  }

  /** The same chunks, each decoded on its own, as its JSON string is. */
  function SentText(sent: seq<Sent>): seq<nat> {
    if sent == [] then [] else SentText(sent[..|sent| - 1]) + Lossy(BytesOf(sent[|sent| - 1].chunk))
  }

  /** The stream text the control plane has. */
  function ReceivedText(sent: seq<Sent>): seq<nat> {
    if sent == [] then
      []
    else
      var last := sent[|sent| - 1];
      ReceivedText(sent[..|sent| - 1]) + if last.outcome == Delivered then Lossy(BytesOf(last.chunk)) else []
  }

  predicate AllWellFormed(sent: seq<Sent>) {
    forall i :: 0 <= i < |sent| ==> WellFormed(BytesOf(sent[i].chunk))
  }

  predicate AnyLost(sent: seq<Sent>) {
    exists i :: 0 <= i < |sent| && sent[i].outcome == Lost
  }

  /** A marker is delivered, or on its way. */
  predicate Marked(sent: seq<Sent>) {
    exists i :: 0 <= i < |sent| && sent[i].chunk == Marker && sent[i].outcome != Lost
  }

  /** Chunks of stream bytes the final flush has sent. */
  function FinalChunks(sent: seq<Sent>): nat {
    if sent == [] then
      0
    else
      var last := sent[|sent| - 1];
      FinalChunks(sent[..|sent| - 1]) + if last.final && last.chunk.Data? then 1 else 0
  }

  /** How each record grows by one reply. */
  lemma Snoc(sent: seq<Sent>, x: Sent)
    ensures var more := sent + [x];
            && SentBytes(more) == SentBytes(sent) + BytesOf(x.chunk)
            && SentText(more) == SentText(sent) + Lossy(BytesOf(x.chunk))
            && ReceivedText(more) == ReceivedText(sent)
               + (if x.outcome == Delivered then Lossy(BytesOf(x.chunk)) else [])
            && FinalChunks(more) == FinalChunks(sent) + (if x.final && x.chunk.Data? then 1 else 0)
  {
    hide Lossy;
    assert (sent + [x])[..|sent|] == sent;
  }

  lemma AcceptedSnoc(offers: seq<Offer>, o: Offer)
    ensures Accepted(offers + [o]) == Accepted(offers) + (if o.kept then o.bytes else [])
  {
    assert (offers + [o])[..|offers|] == offers;
  }

  /** A reply's outcome changes none of the records of what was sent. */
  lemma OutcomeKeepsRecords(sent: seq<Sent>, outcome: Outcome)
    requires sent != []
    ensures var after := sent[..|sent| - 1] + [sent[|sent| - 1].(outcome := outcome)];
            && SentBytes(after) == SentBytes(sent)
            && SentText(after) == SentText(sent)
            && FinalChunks(after) == FinalChunks(sent)
  {
    hide Lossy;
    var init, last := sent[..|sent| - 1], sent[|sent| - 1];
    Snoc(init, last);
    Snoc(init, last.(outcome := outcome));
    assert init + [last] == sent;
  }

  // ---- The invariant ----

  /** The accepted writes are the bytes sent, in order, and then the buffer. */
  ghost predicate Conserved(l: GoodLimits, s: State) {
    && SentBytes(s.sent) + s.core.buf == Accepted(s.offers)
    && |s.core.buf| <= l.bufferMax
  }

  /** Only the reply in flight is undecided, and every chunk of stream bytes has a chunk's size. */
  ghost predicate Answered(l: GoodLimits, s: State) {
    && (s.phase.Replying? ==> s.sent != [] && s.sent[|s.sent| - 1].final == s.phase.final)
    && (forall i :: 0 <= i < |s.sent| ==>
          (s.sent[i].outcome == Pending <==> s.phase.Replying? && i == |s.sent| - 1))
    && (forall i :: 0 <= i < |s.sent| && s.sent[i].chunk.Data? ==>
          0 < |s.sent[i].chunk.bytes| <= l.chunkMax)
  }

  /** What may still follow the buffer: nothing once the stream was ended. */
  predicate MayFollow(s: State, e: seq<byte>) {
    s.ended ==> e == []
  }

  /** Chunk by chunk or all at once, the stream decodes alike. */
  ghost predicate Decoded(s: State) {
    forall e: seq<byte> :: MayFollow(s, e) ==>
      SentText(s.sent) + Lossy(s.core.buf + e) == Lossy(Accepted(s.offers) + e)
  }

  /** Out of a well-formed stream come well-formed chunks, and the rest can still end well. */
  ghost predicate Formed(s: State) {
    forall e: seq<byte> :: MayFollow(s, e) && WellFormed(Accepted(s.offers) + e) ==>
      AllWellFormed(s.sent) && WellFormed(s.core.buf + e)
  }

  /** A gap is marked or about to be, and nothing else is. */
  ghost predicate GapsMarked(s: State) {
    s.core.truncated || Marked(s.sent) <==> Dropped(s.offers) || AnyLost(s.sent)
  }

  /** The marker comes once, last, in the final flush. */
  ghost predicate MarkerLast(s: State) {
    && (forall i :: 0 <= i < |s.sent| && s.sent[i].chunk == Marker ==>
          i == |s.sent| - 1 && s.sent[i].final && Ending(s.phase) && s.core.buf == []
          && if s.sent[i].outcome == Lost then s.phase == Done else !s.core.truncated)
    && (s.phase == Done ==>
          (s.core.buf == [] && !s.core.truncated)
          || (s.sent != [] && s.sent[|s.sent| - 1].final && s.sent[|s.sent| - 1].outcome == Lost))
  }

  /** The final flush follows the plan it had when it began. */
  ghost predicate OnPlan(l: GoodLimits, s: State) {
    if Ending(s.phase) then
      FinalChunks(s.sent) + |Chunks(s.core.buf, true, l.chunkMax)| == |Chunks(s.closing, true, l.chunkMax)|
      && |s.closing| <= l.bufferMax
    else
      forall i :: 0 <= i < |s.sent| ==> !s.sent[i].final
  }

  /** The final flush takes the whole buffer at its end only, and whoever breaks the promise at all is late. */
  ghost predicate EndTracked(s: State) {
    && (s.ended || Sealed(s) ==> Ending(s.phase))
    && (s.overrun || s.missed ==> s.late)
    && (s.ended && !s.overrun ==> s.core.buf == [])
  }

  /** Every chunk is whole lines or a piece of an overlong one, but the one that ended the stream. */
  ghost predicate Shaped(l: GoodLimits, s: State) {
    forall i :: 0 <= i < |s.sent| && s.sent[i].chunk.Data? && !LineChunk(s.sent[i].chunk.bytes, l.chunkMax) ==>
      s.sent[i].final && s.ended && (!s.overrun ==> forall j :: i < j < |s.sent| ==> s.sent[j].chunk == Marker)
  }

  ghost predicate Inv(l: GoodLimits, s: State) {
    && Conserved(l, s)
    && Answered(l, s)
    && GapsMarked(s)
    && EndTracked(s)
    && Shaped(l, s)
    && (!s.overrun ==> Decoded(s) && Formed(s))
    && (!s.missed ==> MarkerLast(s))
    && (!s.late ==> OnPlan(l, s))
  }

  lemma ConservedStep(l: GoodLimits, s: State, step: Step)
    requires Enabled(s, step) && Conserved(l, s)
    ensures Conserved(l, Apply(l, s, step))
  {
    hide CutAt, Accepted, SentBytes, SentText, ReceivedText, FinalChunks;
    match step
    case Write(p) =>
      AcceptedSnoc(s.offers, Offer(p, |s.core.buf| + |p| <= l.bufferMax));
      Associate(SentBytes(s.sent), s.core.buf, p);
    case Next =>
      var (chunk, core) := NextCore(l, s.core, s.phase.final);
      if chunk.Some? {
        Snoc(s.sent, Sent(chunk.value, s.phase.final, Pending));
        NextConserves(l, s.core, s.phase.final);
        Associate(SentBytes(s.sent), BytesOf(chunk.value), core.buf);
      }
    case Answer(ok) =>
      OutcomeKeepsRecords(s.sent, if ok then Delivered else Lost);
    case _ =>
  }

  lemma NextConserves(l: GoodLimits, c: Core, final: bool)
    ensures var (chunk, core) := NextCore(l, c, final);
            if chunk.None? then core == c else BytesOf(chunk.value) + core.buf == c.buf
  {
    hide CutAt;
  }

  /** What next can give: stream bytes, the marker of a final flush with an empty buffer, or nothing. */
  lemma NextKinds(l: GoodLimits, c: Core, final: bool)
    ensures var (chunk, core) := NextCore(l, c, final);
            match chunk
            case Some(Data(bytes)) =>
              c.buf != [] && 0 < |bytes| <= l.chunkMax && core.truncated == c.truncated
            case Some(Marker) => c.buf == core.buf == [] && final && c.truncated && !core.truncated
            case None => core == c && (final ==> c.buf == [] && !c.truncated)
  {
    hide LastIndex, RuneCut;
  }

  lemma AnsweredStep(l: GoodLimits, s: State, step: Step)
    requires Enabled(s, step) && Answered(l, s)
    ensures Answered(l, Apply(l, s, step))
  {
    match step
    case Next => AnsweredNext(l, s);
    case Answer(ok) => AnsweredAnswer(l, s, ok);
    case _ =>
  }

  lemma AnsweredNext(l: GoodLimits, s: State)
    requires Enabled(s, Next) && Answered(l, s)
    ensures Answered(l, Apply(l, s, Next))
  {
    hide NextCore, TakesAll, Sealed;
    NextKinds(l, s.core, s.phase.final);
  }

  lemma AnsweredAnswer(l: GoodLimits, s: State, ok: bool)
    requires Enabled(s, Answer(ok)) && Answered(l, s)
    ensures Answered(l, Apply(l, s, Answer(ok)))
  {
    hide NextCore, TakesAll, Sealed;
  }

  lemma GapsMarkedStep(l: GoodLimits, s: State, step: Step)
    requires Enabled(s, step) && Answered(l, s) && GapsMarked(s)
    ensures GapsMarked(Apply(l, s, step))
  {
    match step
    case Write(p) => GapsMarkedWrite(l, s, p);
    case Next => GapsMarkedNext(l, s);
    case Answer(ok) => GapsMarkedAnswer(l, s, ok);
    case _ =>
  }

  lemma GapsMarkedWrite(l: GoodLimits, s: State, p: seq<byte>)
    requires GapsMarked(s)
    ensures GapsMarked(Apply(l, s, Write(p)))
  {
    hide Dropped, AnyLost, Marked, Sealed;
    DroppedSnoc(s.offers, Offer(p, |s.core.buf| + |p| <= l.bufferMax));
  }

  lemma GapsMarkedNext(l: GoodLimits, s: State)
    requires Enabled(s, Next) && GapsMarked(s)
    ensures GapsMarked(Apply(l, s, Next))
  {
    hide NextCore, TakesAll, Dropped, AnyLost, Marked;
    NextKinds(l, s.core, s.phase.final);
    var chunk := NextCore(l, s.core, s.phase.final).0;
    if chunk.Some? {
      MarkedSnoc(s.sent, Sent(chunk.value, s.phase.final, Pending));
    }
  }

  lemma GapsMarkedAnswer(l: GoodLimits, s: State, ok: bool)
    requires Enabled(s, Answer(ok)) && Answered(l, s) && GapsMarked(s)
    ensures GapsMarked(Apply(l, s, Answer(ok)))
  {
    hide NextCore, Dropped, AnyLost, Marked;
    var init, last := s.sent[..|s.sent| - 1], s.sent[|s.sent| - 1];
    assert init + [last] == s.sent;
    MarkedSnoc(init, last);
    MarkedSnoc(init, last.(outcome := if ok then Delivered else Lost));
  }

  lemma DroppedSnoc(offers: seq<Offer>, o: Offer)
    ensures Dropped(offers + [o]) <==> Dropped(offers) || !o.kept
  {
    var more := offers + [o];
    if Dropped(offers) {
      var i :| 0 <= i < |offers| && !offers[i].kept;
      assert !more[i].kept;
    }
    if !o.kept {
      assert !more[|offers|].kept;
    }
  }

  lemma MarkedSnoc(sent: seq<Sent>, x: Sent)
    ensures Marked(sent + [x]) <==> Marked(sent) || (x.chunk == Marker && x.outcome != Lost)
    ensures AnyLost(sent + [x]) <==> AnyLost(sent) || x.outcome == Lost
  {
    var more := sent + [x];
    assert more[|sent|] == x;
    assert forall i :: 0 <= i < |sent| ==> more[i] == sent[i];
    if Marked(sent) {
      var i :| 0 <= i < |sent| && sent[i].chunk == Marker && sent[i].outcome != Lost;
      assert more[i].chunk == Marker;
    }
    if AnyLost(sent) {
      var i :| 0 <= i < |sent| && sent[i].outcome == Lost;
      assert more[i].outcome == Lost;
    }
  }

  lemma DecodedStep(l: GoodLimits, s: State, step: Step)
    requires Enabled(s, step) && Decoded(s) && !Apply(l, s, step).overrun
    ensures Decoded(Apply(l, s, step))
  {
    hide CutAt, Lossy, Accepted, SentBytes, SentText, ReceivedText, FinalChunks, Sealed;
    var t := Apply(l, s, step);
    forall e: seq<byte> | MayFollow(t, e)
      ensures SentText(t.sent) + Lossy(t.core.buf + e) == Lossy(Accepted(t.offers) + e)
    {
      match step
      case Write(p) =>
        DecodedWrite(l, s, p, e);
      case Next =>
        var (chunk, core) := NextCore(l, s.core, s.phase.final);
        if chunk.Some? {
          Snoc(s.sent, Sent(chunk.value, s.phase.final, Pending));
          NextSplits(l, s.core, s.phase.final, e);
        }
      case Answer(ok) =>
        OutcomeKeepsRecords(s.sent, if ok then Delivered else Lost);
      case _ =>
    }
  }

  lemma DecodedWrite(l: GoodLimits, s: State, p: seq<byte>, e: seq<byte>)
    requires Decoded(s) && MayFollow(Apply(l, s, Write(p)), e) && !Apply(l, s, Write(p)).overrun
    ensures var t := Apply(l, s, Write(p));
            SentText(t.sent) + Lossy(t.core.buf + e) == Lossy(Accepted(t.offers) + e)
  {
    hide Lossy, Accepted, SentText;
    var o := Offer(p, |s.core.buf| + |p| <= l.bufferMax);
    AcceptedSnoc(s.offers, o);
    var rest := if o.kept then p + e else e;
    assert MayFollow(s, rest);
    assert s.core.buf + rest == (s.core.buf + if o.kept then p else []) + e;
    assert Accepted(s.offers) + rest == (Accepted(s.offers) + if o.kept then p else []) + e;
  }

  /** A chunk taken is a piece of the text and, of well-formed text, a well-formed piece. */
  lemma NextSplits(l: GoodLimits, c: Core, final: bool, e: seq<byte>)
    requires NextCore(l, c, final).0.Some? && (final && 0 < |c.buf| <= l.chunkMax ==> e == [])
    ensures var (chunk, core) := NextCore(l, c, final);
            && Lossy(c.buf + e) == Lossy(BytesOf(chunk.value)) + Lossy(core.buf + e)
            && (WellFormed(c.buf + e) ==>
                  WellFormed(BytesOf(chunk.value)) && WellFormed(core.buf + e))
  {
    hide CutAt;
    if c.buf != [] {
      CutSplits(c.buf, final, l.chunkMax, e);
    }
  }

  lemma FormedStep(l: GoodLimits, s: State, step: Step)
    requires Enabled(s, step) && Formed(s) && !Apply(l, s, step).overrun
    ensures Formed(Apply(l, s, step))
  {
    hide CutAt, WellFormed, Accepted, SentBytes, SentText, ReceivedText, FinalChunks, Sealed;
    var t := Apply(l, s, step);
    forall e: seq<byte> | MayFollow(t, e) && WellFormed(Accepted(t.offers) + e)
      ensures AllWellFormed(t.sent) && WellFormed(t.core.buf + e)
    {
      match step
      case Write(p) =>
        FormedWrite(l, s, p, e);
      case Next =>
        var (chunk, core) := NextCore(l, s.core, s.phase.final);
        if chunk.Some? {
          NextSplits(l, s.core, s.phase.final, e);
        }
      case _ =>
    }
  }

  lemma FormedWrite(l: GoodLimits, s: State, p: seq<byte>, e: seq<byte>)
    requires Formed(s) && MayFollow(Apply(l, s, Write(p)), e) && !Apply(l, s, Write(p)).overrun
    requires WellFormed(Accepted(Apply(l, s, Write(p)).offers) + e)
    ensures AllWellFormed(s.sent) && WellFormed(Apply(l, s, Write(p)).core.buf + e)
  {
    hide WellFormed, Accepted;
    var o := Offer(p, |s.core.buf| + |p| <= l.bufferMax);
    AcceptedSnoc(s.offers, o);
    var rest := if o.kept then p + e else e;
    assert MayFollow(s, rest);
    assert s.core.buf + rest == (s.core.buf + if o.kept then p else []) + e;
    assert Accepted(s.offers) + rest == (Accepted(s.offers) + if o.kept then p else []) + e;
  }

  lemma MarkerLastStep(l: GoodLimits, s: State, step: Step)
    requires Enabled(s, step) && Answered(l, s) && MarkerLast(s) && !Apply(l, s, step).missed
    ensures MarkerLast(Apply(l, s, step))
  {
    match step
    case Next => MarkerLastNext(l, s);
    case Answer(ok) => MarkerLastAnswer(l, s, ok);
    case _ =>
  }

  lemma MarkerLastNext(l: GoodLimits, s: State)
    requires Enabled(s, Next) && Answered(l, s) && MarkerLast(s)
    ensures MarkerLast(Apply(l, s, Next))
  {
    hide NextCore, TakesAll;
    NextKinds(l, s.core, s.phase.final);
  }

  lemma MarkerLastAnswer(l: GoodLimits, s: State, ok: bool)
    requires Enabled(s, Answer(ok)) && Answered(l, s) && MarkerLast(s)
    ensures MarkerLast(Apply(l, s, Answer(ok)))
  {
    hide NextCore, TakesAll;
  }

  lemma OnPlanStep(l: GoodLimits, s: State, step: Step)
    requires Enabled(s, step) && Conserved(l, s) && Answered(l, s) && OnPlan(l, s) && !Apply(l, s, step).late
    ensures OnPlan(l, Apply(l, s, step))
  {
    hide Chunks, Conserved, FinalChunks, Sealed;
    match step
    case Close => OnPlanClose(l, s);
    case Next => OnPlanNext(l, s);
    case Answer(ok) => OnPlanAnswer(l, s, ok);
    case _ =>
  }

  lemma OnPlanClose(l: GoodLimits, s: State)
    requires Enabled(s, Close) && Conserved(l, s) && OnPlan(l, s)
    ensures OnPlan(l, Apply(l, s, Close))
  {
    hide Chunks, Accepted, SentBytes;
    NoFinalChunks(s.sent);
  }

  lemma OnPlanNext(l: GoodLimits, s: State)
    requires Enabled(s, Next) && OnPlan(l, s)
    ensures OnPlan(l, Apply(l, s, Next))
  {
    hide NextCore, Chunks, FinalChunks, TakesAll;
    if s.phase.final {
      OnPlanFinalNext(l, s);
    }
  }

  lemma OnPlanFinalNext(l: GoodLimits, s: State)
    requires s.phase == Picking(true) && OnPlan(l, s)
    ensures OnPlan(l, Apply(l, s, Next))
  {
    hide CutAt, Chunks, SentBytes, SentText, ReceivedText, FinalChunks, TakesAll;
    var (chunk, core) := NextCore(l, s.core, true);
    if chunk.Some? {
      Snoc(s.sent, Sent(chunk.value, true, Pending));
      ChunkCount(s.core.buf, true, l.chunkMax);
    }
  }

  lemma OnPlanAnswer(l: GoodLimits, s: State, ok: bool)
    requires Enabled(s, Answer(ok)) && Answered(l, s) && OnPlan(l, s)
    ensures OnPlan(l, Apply(l, s, Answer(ok)))
  {
    hide NextCore, Chunks, SentBytes, SentText, FinalChunks;
    OutcomeKeepsRecords(s.sent, if ok then Delivered else Lost);
  }

  lemma {:induction false} NoFinalChunks(sent: seq<Sent>)
    requires forall i :: 0 <= i < |sent| ==> !sent[i].final
    ensures FinalChunks(sent) == 0
  {
    if sent != [] {
      NoFinalChunks(sent[..|sent| - 1]);
    }
  }

  lemma EndTrackedStep(l: GoodLimits, s: State, step: Step)
    requires Enabled(s, step) && EndTracked(s)
    ensures EndTracked(Apply(l, s, step))
  {
    hide LastIndex, RuneCut;
  }

  lemma ShapedStep(l: GoodLimits, s: State, step: Step)
    requires Enabled(s, step) && EndTracked(s) && Shaped(l, s)
    ensures Shaped(l, Apply(l, s, step))
  {
    hide LineChunk, EndTracked, Sealed, NextCore;
    match step
    case Next => ShapedNext(l, s);
    case Answer(ok) => ShapedAnswer(l, s, ok);
    case _ =>
  }

  lemma NextShape(l: GoodLimits, s: State)
    requires Enabled(s, Next) && NextCore(l, s.core, s.phase.final).0.Some?
    ensures var chunk := NextCore(l, s.core, s.phase.final).0.value;
            chunk.Data? && !TakesAll(l, s) ==> LineChunk(chunk.bytes, l.chunkMax)
  {
    hide CutAt, LineChunk;
    if s.core.buf != [] && !TakesAll(l, s) {
      CutShape(s.core.buf, s.phase.final, l.chunkMax);
    }
  }

  lemma ShapedNext(l: GoodLimits, s: State)
    requires Enabled(s, Next) && EndTracked(s) && Shaped(l, s)
    ensures Shaped(l, Apply(l, s, Next))
  {
    hide NextCore, LineChunk, TakesAll, Sealed;
    NextKinds(l, s.core, s.phase.final);
    if NextCore(l, s.core, s.phase.final).0.Some? {
      NextShape(l, s);
      TakesAllIsFinal(l, s);
    }
  }

  lemma TakesAllIsFinal(l: GoodLimits, s: State)
    ensures TakesAll(l, s) ==> s.phase == Picking(true)
  {
  }

  lemma ShapedAnswer(l: GoodLimits, s: State, ok: bool)
    requires Enabled(s, Answer(ok)) && Shaped(l, s)
    ensures Shaped(l, Apply(l, s, Answer(ok)))
  {
    hide NextCore, LineChunk, TakesAll, Sealed;
  }

  lemma FlagsStay(l: GoodLimits, s: State, step: Step)
    requires Enabled(s, step)
    ensures var t := Apply(l, s, step);
            (s.ended ==> t.ended) && (s.late ==> t.late) && (s.overrun ==> t.overrun) && (s.missed ==> t.missed)
  {
  }

  lemma InvStep(l: GoodLimits, s: State, step: Step)
    requires Enabled(s, step) && Inv(l, s)
    ensures Inv(l, Apply(l, s, step))
  {
    hide Conserved, Answered, GapsMarked, EndTracked, Shaped, Decoded, Formed, MarkerLast, OnPlan, Apply;
    ConservedStep(l, s, step);
    AnsweredStep(l, s, step);
    GapsMarkedStep(l, s, step);
    EndTrackedStep(l, s, step);
    ShapedStep(l, s, step);
    FlagsStay(l, s, step);
    if !Apply(l, s, step).overrun {
      DecodedStep(l, s, step);
      FormedStep(l, s, step);
    }
    if !Apply(l, s, step).missed {
      MarkerLastStep(l, s, step);
    }
    if !Apply(l, s, step).late {
      OnPlanStep(l, s, step);
    }
  }

  lemma InvStart(l: GoodLimits)
    ensures Inv(l, START)
  {
    hide Lossy, WellFormed, Chunks, LineChunk;
    assert forall e: seq<byte> :: [] + e == e;
  }

  /** Every state of every run keeps the invariant. */
  lemma {:induction false} RunKeepsInv(l: GoodLimits, run: seq<Step>)
    requires After(l, run).Some?
    ensures Inv(l, After(l, run).value)
  {
    hide Inv, Apply;
    if run == [] {
      InvStart(l);
    } else {
      RunKeepsInv(l, run[..|run| - 1]);
      InvStep(l, After(l, run[..|run| - 1]).value, run[|run| - 1]);
    }
  }

  // ---- What every run guarantees ----

  /**
   The accepted writes are the bytes sent, in order, and then the buffer, which never exceeds
   bufferMax; every reply but the one in flight is delivered or lost.
   */
  lemma LogConservation(l: GoodLimits, run: seq<Step>, s: State)
    requires After(l, run) == Some(s)
    ensures SentBytes(s.sent) + s.core.buf == Accepted(s.offers) && |s.core.buf| <= l.bufferMax
    ensures forall i :: 0 <= i < |s.sent| ==>
              (s.sent[i].outcome == Pending <==> s.phase.Replying? && i == |s.sent| - 1)
    ensures forall i :: 0 <= i < |s.sent| && s.sent[i].chunk.Data? ==>
              0 < |s.sent[i].chunk.bytes| <= l.chunkMax
  {
    RunKeepsInv(l, run);
  }

  /**
   The chunks, each decoded on its own, and the buffer read as the accepted stream does, in the
   middle of the final flush too; only bytes accepted after the stream was ended can change that.
   */
  lemma TextExact(l: GoodLimits, run: seq<Step>, s: State)
    requires After(l, run) == Some(s) && !s.overrun
    ensures SentText(s.sent) + Lossy(s.core.buf) == Lossy(Accepted(s.offers))
  {
    RunKeepsInv(l, run);
    assert MayFollow(s, []);
    assert s.core.buf + [] == s.core.buf && Accepted(s.offers) + [] == Accepted(s.offers);
  }

  /** While the stream can still become well-formed, no chunk is malformed and the buffer can be completed. */
  lemma WellFormedChunks(l: GoodLimits, run: seq<Step>, s: State, e: seq<byte>)
    requires After(l, run) == Some(s) && !s.overrun
    requires WellFormed(Accepted(s.offers) + e) && (s.ended ==> e == [])
    ensures AllWellFormed(s.sent) && WellFormed(s.core.buf + e)
  {
    RunKeepsInv(l, run);
    assert MayFollow(s, e);
  }

  /** The first bytes accepted after that tear the text exactly when they complete a character it ended in. */
  lemma OverrunTearsExactly(l: GoodLimits, run: seq<Step>, s: State, p: seq<byte>)
    requires After(l, run) == Some(s) && s.ended && !s.overrun && |s.core.buf| + |p| <= l.bufferMax
    ensures var t := Apply(l, s, Write(p));
            SentText(t.sent) + Lossy(t.core.buf) == Lossy(Accepted(t.offers))
            <==> !Completes(Accepted(s.offers), p)
  {
    hide After, Lossy, Accepted, SentText, Completes, Conserved, Answered, GapsMarked, Shaped, Formed, MarkerLast,
         OnPlan;
    RunKeepsInv(l, run);
    TextExact(l, run, s);
    LossyNil();
    AcceptedSnoc(s.offers, Offer(p, true));
    TearsExactly(Accepted(s.offers), p);
    assert s.core.buf + p == p;
  }

  /** A chunk is whole lines or a piece of an overlong one, unless it ended the stream: then only a marker follows. */
  lemma LineChunks(l: GoodLimits, run: seq<Step>, s: State, i: nat)
    requires After(l, run) == Some(s) && i < |s.sent| && s.sent[i].chunk.Data?
    ensures !s.sent[i].final ==> LineChunk(s.sent[i].chunk.bytes, l.chunkMax)
    ensures !LineChunk(s.sent[i].chunk.bytes, l.chunkMax) && !s.overrun ==>
              s.ended && forall j :: i < j < |s.sent| ==> s.sent[j].chunk == Marker
  {
    hide After, LineChunk, Conserved, Answered, GapsMarked, EndTracked, Decoded, Formed, MarkerLast, OnPlan;
    RunKeepsInv(l, run);
  }

  /** Gaps are never silent and never invented. */
  lemma GapsExact(l: GoodLimits, run: seq<Step>, s: State)
    requires After(l, run) == Some(s)
    ensures s.core.truncated || Marked(s.sent) <==> Dropped(s.offers) || AnyLost(s.sent)
  {
    RunKeepsInv(l, run);
  }

  /** Some reply of the final flush failed, which ends it. */
  predicate FinalFlushFailed(s: State) {
    s.sent != [] && s.sent[|s.sent| - 1].final && s.sent[|s.sent| - 1].outcome == Lost
  }

  predicate EndsWithMarker(sent: seq<Sent>) {
    sent != [] && sent[|sent| - 1].chunk == Marker && sent[|sent| - 1].outcome == Delivered
  }

  /**
   Once closed without a failed final reply, the log ends with the delivered marker exactly
   when it has a gap; no earlier reply is a marker. A gap stays silent exactly when a reply of
   the final flush failed.
   */
  lemma ClosedLog(l: GoodLimits, run: seq<Step>, s: State)
    requires After(l, run) == Some(s) && !s.missed && s.phase == Done
    ensures (Dropped(s.offers) || AnyLost(s.sent)) && !EndsWithMarker(s.sent) <==> FinalFlushFailed(s)
    ensures !FinalFlushFailed(s) ==>
              s.core.buf == [] && (EndsWithMarker(s.sent) <==> Dropped(s.offers) || AnyLost(s.sent))
    ensures forall i :: 0 <= i < |s.sent| - 1 ==> s.sent[i].chunk.Data?
  {
    hide After, Conserved, Shaped, Decoded, Formed, OnPlan, Dropped, AnyLost, Marked;
    RunKeepsInv(l, run);
    MarkedAtEnd(l, s);
    FailureIsLoss(s);
  }

  lemma MarkedAtEnd(l: GoodLimits, s: State)
    requires Answered(l, s) && MarkerLast(s) && s.phase == Done
    ensures Marked(s.sent) <==> EndsWithMarker(s.sent)
  {
    if EndsWithMarker(s.sent) {
      assert s.sent[|s.sent| - 1].chunk == Marker;
    }
  }

  lemma FailureIsLoss(s: State)
    ensures FinalFlushFailed(s) ==> AnyLost(s.sent) && !EndsWithMarker(s.sent)
  {
  }

  /**
   Without a gap, between two replies, the control plane's text and the buffer read as the whole
   output does, decoded exactly as if it had come in one piece, and there is no marker; once
   closed, the control plane has it all.
   */
  lemma CompleteLog(l: GoodLimits, run: seq<Step>, s: State)
    requires After(l, run) == Some(s) && !s.overrun && !s.phase.Replying?
    requires !Dropped(s.offers) && !AnyLost(s.sent)
    ensures ReceivedText(s.sent) + Lossy(s.core.buf) == Lossy(Written(s.offers)) && !Marked(s.sent)
    ensures s.phase == Done && !s.missed ==> s.core.buf == [] && ReceivedText(s.sent) == Lossy(Written(s.offers))
  {
    hide After, Conserved, EndTracked, Shaped, Decoded, Formed, OnPlan, Marked, Lossy;
    RunKeepsInv(l, run);
    AllKept(s.offers);
    AllReceived(s.sent);
    TextExact(l, run, s);
    LossyNil();
  }

  /** Well-formed output comes back from the control plane's text byte for byte. */
  lemma WellFormedLogRecovered(l: GoodLimits, run: seq<Step>, s: State, w: seq<byte>)
    requires After(l, run) == Some(s) && !s.overrun && !s.missed && s.phase == Done
    requires !Dropped(s.offers) && !AnyLost(s.sent)
    requires WellFormed(Written(s.offers)) && WellFormed(w) && Lossy(w) == ReceivedText(s.sent)
    ensures w == Written(s.offers)
  {
    CompleteLog(l, run, s);
    LossyInjective(w, Written(s.offers));
  }

  lemma LossyNil()
    ensures Lossy([]) == []
  {
  }

  lemma {:induction false} AllKept(offers: seq<Offer>)
    requires !Dropped(offers)
    ensures Accepted(offers) == Written(offers)
  {
    if offers != [] {
      AllKept(offers[..|offers| - 1]);
    }
  }

  lemma {:induction false} AllReceived(sent: seq<Sent>)
    requires forall i :: 0 <= i < |sent| ==> sent[i].outcome == Delivered
    ensures ReceivedText(sent) == SentText(sent)
  {
    if sent != [] {
      AllReceived(sent[..|sent| - 1]);
    }
  }

  function FinalReplies(sent: seq<Sent>): nat {
    if sent == [] then
      0
    else
      FinalReplies(sent[..|sent| - 1]) + if sent[|sent| - 1].final then 1 else 0
  }

  lemma {:induction false} OneMarkerAtMost(sent: seq<Sent>)
    requires forall i :: 0 <= i < |sent| - 1 ==> sent[i].chunk.Data?
    ensures FinalReplies(sent) <= FinalChunks(sent) + if sent != [] && sent[|sent| - 1].chunk == Marker then 1 else 0
  {
    if sent != [] {
      OneMarkerAtMost(sent[..|sent| - 1]);
    }
  }

  /** The final flush of an L-byte buffer sends at most 2 * (L / (chunkMax - 2)) + 2 chunks and one marker. */
  lemma FinalFlushReplies(l: GoodLimits, run: seq<Step>, s: State)
    requires After(l, run) == Some(s) && !s.late && Ending(s.phase)
    ensures FinalChunks(s.sent) <= 2 * (|s.closing| / (l.chunkMax - 2)) + 2
    ensures FinalReplies(s.sent) <= FinalChunks(s.sent) + 1
    ensures |s.closing| <= l.bufferMax
  {
    hide Chunks, FinalChunks, FinalReplies, After, Shaped, Decoded, Formed, GapsMarked, Conserved;
    RunKeepsInv(l, run);
    FinalFlushBound(s.closing, l.chunkMax);
    OneMarkerAtMost(s.sent);
  }

  /** With the real limits, 131 log replies at most. */
  lemma FinalFlushIsShort(run: seq<Step>, s: State)
    requires After(LIMITS, run) == Some(s) && !s.late && Ending(s.phase)
    ensures FinalReplies(s.sent) <= 131
  {
    hide After, FinalChunks, FinalReplies;
    FinalFlushReplies(LIMITS, run, s);
  }

  /** The real limits: an empty log keeps a write of 4 MiB at most, and a reply carries 64 KiB at most. */
  lemma RealLimits(b: seq<byte>)
    requires b != []
    ensures Apply(LIMITS, START, Write(b)).core.buf == b <==> |b| <= 4 * 1024 * 1024
    ensures NextCore(LIMITS, Core(b, false), true).0 == Some(Data(b)) <==> |b| <= 64 * 1024
  {
    hide LastIndex, RuneCut, Sealed;
    assert [] + b == b && b[..|b|] == b;
  }

  // ---- The flags tell what happened ----

  datatype Event = StreamEnded | LateWrite | Overrun | MissedWrite

  /** What each flag of the state remembers, as something that happens at one step of a run. */
  predicate Occurs(l: GoodLimits, e: Event, s: State, step: Step) {
    match e
    case StreamEnded => step == Next && s.phase == Picking(true) && 0 < |s.core.buf| <= l.chunkMax
    case LateWrite => step.Write? && (s.phase == Picking(true) || s.phase == Replying(true) || s.phase == Done)
    case Overrun => step.Write? && s.ended && step.p != [] && |s.core.buf| + |step.p| <= l.bufferMax
    case MissedWrite =>
      step.Write? && (s.phase == Done || (s.sent != [] && s.sent[|s.sent| - 1].chunk == Marker))
  }

  predicate OccursAt(l: GoodLimits, e: Event, run: seq<Step>, k: nat) {
    k < |run| && After(l, run[..k]).Some? && Occurs(l, e, After(l, run[..k]).value, run[k])
  }

  ghost predicate Occurred(l: GoodLimits, e: Event, run: seq<Step>) {
    exists k: nat :: OccursAt(l, e, run, k)
  }

  predicate Flag(e: Event, s: State) {
    match e
    case StreamEnded => s.ended
    case LateWrite => s.late
    case Overrun => s.overrun
    case MissedWrite => s.missed
  }

  lemma OccurredSnoc(l: GoodLimits, e: Event, run: seq<Step>, s: State, step: Step)
    requires After(l, run) == Some(s)
    ensures Occurred(l, e, run + [step]) <==> Occurred(l, e, run) || Occurs(l, e, s, step)
  {
    hide After, Occurs;
    var more := run + [step];
    forall k: nat | k < |run|
      ensures OccursAt(l, e, more, k) <==> OccursAt(l, e, run, k)
    {
      assert more[..k] == run[..k];
    }
    assert more[..|run|] == run;
    assert OccursAt(l, e, more, |run|) <==> Occurs(l, e, s, step);
    if Occurred(l, e, run) {
      var k: nat :| OccursAt(l, e, run, k);
      assert OccursAt(l, e, more, k);
    }
  }

  lemma FlagStep(l: GoodLimits, e: Event, s: State, step: Step)
    requires Enabled(s, step)
    ensures Flag(e, Apply(l, s, step)) <==> Flag(e, s) || Occurs(l, e, s, step)
  {
    hide CutAt;
    if step == Next && s.core.buf != [] && s.phase.final {
      FinalCutGives(l, s.core);
    }
  }

  lemma FinalCutGives(l: GoodLimits, c: Core)
    requires c.buf != []
    ensures NextCore(l, c, true).0.Some?
  {
    hide LastIndex, RuneCut;
  }

  /** Each flag is set exactly if what it stands for has happened; the final flush has begun exactly after Close. */
  lemma {:induction false} FlagsExact(l: GoodLimits, run: seq<Step>, s: State)
    requires After(l, run) == Some(s)
    ensures s.ended <==> Occurred(l, StreamEnded, run)
    ensures s.late <==> Occurred(l, LateWrite, run)
    ensures s.overrun <==> Occurred(l, Overrun, run)
    ensures s.missed <==> Occurred(l, MissedWrite, run)
    ensures s.phase == Picking(true) || s.phase == Replying(true) || s.phase == Done <==> Close in run
  {
    forall e: Event
      ensures Flag(e, s) <==> Occurred(l, e, run)
    {
      FlagExact(l, e, run, s);
    }
    assert Flag(StreamEnded, s) == s.ended && Flag(LateWrite, s) == s.late;
    assert Flag(Overrun, s) == s.overrun && Flag(MissedWrite, s) == s.missed;
    EndingExact(l, run, s);
  }

  lemma {:induction false} FlagExact(l: GoodLimits, e: Event, run: seq<Step>, s: State)
    requires After(l, run) == Some(s)
    ensures Flag(e, s) <==> Occurred(l, e, run)
  {
    hide Enabled, Apply, Flag, Occurs;
    if run == [] {
      NoFlags(e);
    } else {
      var init, step := run[..|run| - 1], run[|run| - 1];
      var before := After(l, init).value;
      assert run == init + [step];
      FlagExact(l, e, init, before);
      FlagStep(l, e, before, step);
      OccurredSnoc(l, e, init, before, step);
    }
  }

  lemma NoFlags(e: Event)
    ensures !Flag(e, START)
  {
  }

  lemma {:induction false} EndingExact(l: GoodLimits, run: seq<Step>, s: State)
    requires After(l, run) == Some(s)
    ensures s.phase == Picking(true) || s.phase == Replying(true) || s.phase == Done <==> Close in run
  {
    hide Apply, Enabled;
    if run != [] {
      var init, step := run[..|run| - 1], run[|run| - 1];
      assert run == init + [step];
      EndingExact(l, init, After(l, init).value);
      EndingStep(l, After(l, init).value, step);
    }
  }

  lemma EndingStep(l: GoodLimits, s: State, step: Step)
    requires Enabled(s, step)
    ensures Ending(Apply(l, s, step).phase) <==> Ending(s.phase) || step == Close
  {
    hide NextCore, TakesAll, Sealed;
  }

  // ---- Runs that show what is not guaranteed ----

  /** One byte is written, and the final flush has taken it. */
  function OneByteTaken(p: seq<byte>): State {
    State(Core([], false), Replying(true), [Offer(p, true)], [Sent(Data(p), true, Pending)],
          p, true, false, false, false)
  }

  lemma TakeOneByte(p: seq<byte>) returns (run: seq<Step>)
    requires |p| == 1
    ensures After(LIMITS, run) == Some(OneByteTaken(p))
  {
    hide After;
    var s1 := Apply(LIMITS, START, Write(p));
    var s2 := Apply(LIMITS, s1, Close);
    OneByteWritten(p);
    FirstStep(LIMITS, Write(p));
    AfterSnoc(LIMITS, [Write(p)], s1, Close);
    AfterSnoc(LIMITS, [Write(p)] + [Close], s2, Next);
    run := [Write(p)] + [Close] + [Next];
    OneByteNext(p, s2);
  }

  lemma OneByteWritten(p: seq<byte>)
    requires |p| == 1
    ensures Apply(LIMITS, START, Write(p))
            == State(Core(p, false), Idle, [Offer(p, true)], [], [], false, false, false, false)
  {
    assert [] + p == p;
  }

  lemma OneByteNext(p: seq<byte>, s: State)
    requires |p| == 1
    requires s == State(Core(p, false), Picking(true), [Offer(p, true)], [], p, false, false, false, false)
    ensures Apply(LIMITS, s, Next) == OneByteTaken(p)
  {
    assert p[..1] == p && p[1..] == [];
  }

  /** Bytes accepted after the stream was ended can tear a character: the caller's promise is needed. */
  lemma LateWriteTearsText() returns (run: seq<Step>, s: State)
    ensures After(LIMITS, run) == Some(s) && s.overrun
    ensures SentText(s.sent) + Lossy(s.core.buf) != Lossy(Accepted(s.offers))
  {
    hide After, Accepted, Lossy, SentText;
    var a, b := [0xC3], [0xA9];
    run := TakeOneByte(a);
    AfterSnoc(LIMITS, run, OneByteTaken(a), Write(b));
    run, s := run + [Write(b)], Apply(LIMITS, OneByteTaken(a), Write(b));
    assert [] + b == b;
    TornRecords(a, b);
  }

  /** A reply of the final flush fails, nothing was written late, and the closed log has a gap and no marker. */
  lemma SilentGap() returns (run: seq<Step>, s: State)
    ensures After(LIMITS, run) == Some(s) && s.phase == Done && !s.late
    ensures FinalFlushFailed(s) && AnyLost(s.sent) && !EndsWithMarker(s.sent) && ReceivedText(s.sent) == []
  {
    hide After, Apply, ReceivedText, FinalFlushFailed, AnyLost, EndsWithMarker;
    var p := [65];
    run := TakeOneByte(p);
    AfterSnoc(LIMITS, run, OneByteTaken(p), Answer(false));
    run, s := run + [Answer(false)], Apply(LIMITS, OneByteTaken(p), Answer(false));
    OneByteLost(p);
    FailureIsLoss(s);
  }

  lemma OneByteLost(p: seq<byte>)
    ensures var s := Apply(LIMITS, OneByteTaken(p), Answer(false));
            s.phase == Done && !s.late && FinalFlushFailed(s) && ReceivedText(s.sent) == []
  {
    hide Lossy, NextCore, SentText, Accepted;
    var x := Sent(Data(p), true, Lost);
    Snoc([], x);
    assert Apply(LIMITS, OneByteTaken(p), Answer(false)).sent == [] + [x];
  }

  lemma FirstStep(l: GoodLimits, step: Step)
    requires Enabled(START, step)
    ensures After(l, [step]) == Some(Apply(l, START, step))
  {
    AfterSnoc(l, [], START, step);
    assert [] + [step] == [step];
  }

  lemma TornRecords(a: seq<byte>, b: seq<byte>)
    requires a == [0xC3] && b == [0xA9]
    ensures SentText([Sent(Data(a), true, Pending)]) + Lossy(b)
            != Lossy(Accepted([Offer(a, true)] + [Offer(b, true)]))
  {
    hide Lossy;
    Snoc([], Sent(Data(a), true, Pending));
    AcceptedSnoc([], Offer(a, true));
    AcceptedSnoc([Offer(a, true)], Offer(b, true));
    TornText(a, b);
    assert [] + [Sent(Data(a), true, Pending)] == [Sent(Data(a), true, Pending)];
    assert [] + [Offer(a, true)] == [Offer(a, true)];
    assert [] + Lossy(a) == Lossy(a) && [] + a == a;
  }

  lemma TornText(a: seq<byte>, b: seq<byte>)
    requires a == [0xC3] && b == [0xA9]
    ensures Lossy(a) + Lossy(b) != Lossy(a + b)
  {
    SplitCharacterShows([], a, b);
    assert [] + a == a && [] + (a + b) == a + b;
  }

  // ---- The code ----

  function AsData(chunks: seq<seq<byte>>): (s: seq<Chunk>)
    ensures |s| == |chunks|
  {
    if chunks == [] then [] else [Data(chunks[0])] + AsData(chunks[1..])
  }

  function DataBytes(chunks: seq<Chunk>): seq<byte> {
    if chunks == [] then [] else DataBytes(chunks[..|chunks| - 1]) + BytesOf(chunks[|chunks| - 1])
  }

  /** The replies a flush sends when none fails and nothing is written meanwhile. */
  function Plan(l: GoodLimits, c: Core, final: bool): seq<Chunk> {
    AsData(Chunks(c.buf, final, l.chunkMax)) + if final && c.truncated then [Marker] else []
  }

  lemma PlanStep(l: GoodLimits, c: Core, final: bool)
    ensures var (chunk, core) := NextCore(l, c, final);
            Plan(l, c, final) == if chunk.None? then [] else [chunk.value] + Plan(l, core, final)
  {
    hide CutAt;
    var n := CutAt(c.buf, final, l.chunkMax);
    if n > 0 {
      var rest := Chunks(c.buf[n..], final, l.chunkMax);
      assert ([c.buf[..n]] + rest)[1..] == rest;
    }
  }

  lemma RestStep(l: GoodLimits, c: Core, final: bool)
    ensures var (chunk, core) := NextCore(l, c, final);
            && Rest(core.buf, final, l.chunkMax) == Rest(c.buf, final, l.chunkMax)
            && (chunk.None? ==> Rest(c.buf, final, l.chunkMax) == c.buf)
  {
    hide CutAt;
  }

  /** All that one turn of the loop in flush needs to know about next. */
  lemma NextTurn(l: GoodLimits, c: Core, final: bool)
    ensures var (chunk, core) := NextCore(l, c, final);
            if chunk.None? then
              && core == c && Plan(l, c, final) == []
              && Rest(c.buf, final, l.chunkMax) == c.buf
              && (final ==> c.buf == [] && !c.truncated)
            else
              && Plan(l, c, final) == [chunk.value] + Plan(l, core, final)
              && Rest(core.buf, final, l.chunkMax) == Rest(c.buf, final, l.chunkMax)
              && BytesOf(chunk.value) + core.buf == c.buf
              && core.truncated == (c.truncated && chunk.value != Marker)
              && if chunk.value == Marker then core.buf == c.buf && c.truncated else |core.buf| < |c.buf|
  {
    hide CutAt, Plan, Rest;
    PlanStep(l, c, final);
    RestStep(l, c, final);
    NextConserves(l, c, final);
  }

  lemma DataBytesNil(b: seq<byte>)
    ensures DataBytes([]) + b == b
  {
  }

  lemma DataBytesSnoc(chunks: seq<Chunk>, c: Chunk, rest: seq<byte>)
    ensures DataBytes(chunks + [c]) + rest == DataBytes(chunks) + (BytesOf(c) + rest)
  {
    assert (chunks + [c])[..|chunks|] == chunks;
    Associate(DataBytes(chunks), BytesOf(c), rest);
  }

  class LogStreamer {
    const limits: GoodLimits
    var buf: seq<byte>
    var truncated: bool
    var closed: bool

    /** The steps of the protocol taken so far. */
    ghost var run: seq<Step>

    ghost function View(): Core
      reads this
    {
      Core(buf, truncated)
    }

    /** The object is in a state the protocol reaches, so all that holds of its runs holds here. */
    ghost predicate Valid()
      reads this
    {
      && After(limits, run).Some?
      && After(limits, run).value.core == View()
      && (closed ==> After(limits, run).value.phase == Done)
    }

    ghost function Phase(): Phase
      requires Valid()
      reads this
    {
      After(limits, run).value.phase
    }

    constructor (limits: GoodLimits)
      ensures Valid() && run == [] && View() == START.core && !closed
    {
      this.limits := limits;
      buf, truncated, closed, run := [], false, false, [];
    }

    method Write(p: seq<byte>)
      requires Valid()
      modifies this`buf, this`truncated, this`run
      ensures Valid() && run == old(run) + [Step.Write(p)]
      ensures View() == WriteCore(limits, old(View()), p)
      ensures old(|buf|) + |p| <= limits.bufferMax ==> buf == old(buf) + p && truncated == old(truncated)
      ensures old(|buf|) + |p| > limits.bufferMax ==> buf == old(buf) && truncated
      ensures Phase() == old(Phase())
    {
      AfterSnoc(limits, run, After(limits, run).value, Step.Write(p));
      run := run + [Step.Write(p)];
      if |buf| + |p| > limits.bufferMax {
        truncated := true;
        return;
      }
      buf := buf + p;
    }

    /** next, with CutLength for the choice of the chunk's end. */
    method Next(final: bool) returns (chunk: Option<Chunk>)
      requires Valid() && Phase() == Picking(final)
      modifies this`buf, this`truncated, this`run
      ensures Valid() && run == old(run) + [Step.Next]
      ensures (chunk, View()) == NextCore(limits, old(View()), final)
      ensures Phase() == if chunk.Some? then Replying(final) else if final then Done else Idle
    {
      hide After, CutAt;
      AfterSnoc(limits, run, After(limits, run).value, Step.Next);
      run := run + [Step.Next];
      if |buf| == 0 {
        if final && truncated {
          truncated := false;
          return Some(Marker);
        }
        return None;
      }
      var n := CutLength(buf, final, limits.chunkMax);
      if n == 0 {
        return None;
      }
      chunk := Some(Data(buf[..n]));
      buf := buf[n..];
    }

    /** The ticker fires, or Close has seen the periodic flusher end. */
    ghost method Begin(final: bool)
      requires Valid() && Phase() == Idle && !closed
      modifies this`run
      ensures Valid() && Phase() == Picking(final) && run == old(run) + [if final then Step.Close else Tick]
    {
      var step := if final then Step.Close else Tick;
      AfterSnoc(limits, run, After(limits, run).value, step);
      run := run + [step];
    }

    /** The end of a reply: a failed one leaves a gap. */
    method Settle(ok: bool)
      requires Valid() && Phase().Replying? && !closed
      modifies this`truncated, this`run
      ensures Valid() && run == old(run) + [Answer(ok)]
      ensures truncated == (!ok || old(truncated))
      ensures var final := old(Phase()).final;
              Phase() == if ok then Picking(final) else if final then Done else Idle
    {
      RunKeepsInv(limits, run);
      AfterSnoc(limits, run, After(limits, run).value, Answer(ok));
      run := run + [Answer(ok)];
      if !ok {
        truncated := true;
      }
    }

    /**
     flush, with `reply(k)` the outcome of its k-th reply and nothing written meanwhile: it sends
     its plan up to the first failure, which it remembers as a gap.
     */
    method Flush(final: bool, reply: nat -> bool) returns (sent: seq<Chunk>)
      requires Valid() && Phase() == Idle && !closed
      modifies this`buf, this`truncated, this`run
      ensures Valid() && Phase() == if final then Done else Idle
      ensures forall k :: 0 <= k < |sent| - 1 ==> reply(k)
      ensures var plan, failed := old(Plan(limits, View(), final)), sent != [] && !reply(|sent| - 1);
              && sent <= plan && (!failed ==> sent == plan)
              && DataBytes(sent) + buf == old(buf)
              && truncated == (failed || (old(truncated) && Marker !in sent))
              && (!failed && final ==> buf == [] && !truncated)
              && (!failed && !final ==> |buf| < limits.chunkMax && NEWLINE !in buf)
    {
      hide After, Apply, Plan, NextCore, DataBytes, Rest, Enabled, Chunks, CutAt;
      sent := [];
      Begin(final);
      DataBytesNil(buf);
      while true
        invariant Valid() && Phase() == Picking(final)
        invariant sent + Plan(limits, View(), final) == old(Plan(limits, View(), final))
        invariant DataBytes(sent) + buf == old(buf)
        invariant Rest(buf, final, limits.chunkMax) == old(Rest(buf, final, limits.chunkMax))
        invariant forall k :: 0 <= k < |sent| ==> reply(k)
        invariant truncated == (old(truncated) && Marker !in sent)
        decreases |buf| + if truncated then 1 else 0
      {
        ghost var before := View();
        NextTurn(limits, before, final);
        var chunk := Next(final);
        if chunk.None? {
          if final {
            FinalFlush(old(buf), limits.chunkMax);
          } else {
            PeriodicFlush(old(buf), limits.chunkMax);
          }
          return;
        }
        DataBytesSnoc(sent, chunk.value, buf);
        Associate(sent, [chunk.value], Plan(limits, View(), final));
        sent := sent + [chunk.value];
        Settle(reply(|sent| - 1));
        if !reply(|sent| - 1) {
          return;
        }
      }
    }

    /** Close: the final flush, the first time; after that, nothing. */
    method Close(reply: nat -> bool) returns (sent: seq<Chunk>)
      requires Valid() && (closed || Phase() == Idle)
      modifies this
      ensures Valid() && closed && Phase() == Done
      ensures old(closed) ==> sent == [] && View() == old(View()) && run == old(run)
      ensures forall k :: 0 <= k < |sent| - 1 ==> reply(k)
      ensures !old(closed) ==>
                var plan, failed := old(Plan(limits, View(), true)), sent != [] && !reply(|sent| - 1);
                && sent <= plan && (!failed ==> sent == plan && buf == [] && !truncated)
                && DataBytes(sent) + buf == old(buf)
    {
      hide After, Plan, DataBytes;
      if closed {
        return [];
      }
      sent := Flush(true, reply);
      closed := true;
    }
  }
}
