/**
 One run of work: runWork, spawnPlaklet and keepAlive of run.go. The main goroutine's part is
 the sequence of its acts, as the outcomes of its stages decide them; `State` and `Step` let
 the keepalive goroutine and the log flusher send their replies in between.
 */
module RunWork {
  import opened Options
  import opened Sequences

  datatype ReplyType = Info | Warning | Error | Report | ReplyState | Failure | Success | Log | Unknown(name: string)

  /** Reply and ExecReply; `report` and `state` are raw JSON, passed on untouched. */
  datatype Reply = Reply(typ: ReplyType, message: string, report: string, state: string)

  function Say(typ: ReplyType, message: string): Reply {
    Reply(typ, message, "", "")
  }

  predicate IsTerminal(r: Reply) {
    r.typ == Success || r.typ == Failure
  }

  // ---- spawnPlaklet ----

  /** The position of the first terminal reply, or the length of the stream. */
  function FirstTerminal(stream: seq<Reply>): (i: nat)
    ensures i <= |stream|
    ensures i < |stream| ==> IsTerminal(stream[i])
    ensures forall j :: 0 <= j < i ==> !IsTerminal(stream[j])
  {
    if stream == [] || IsTerminal(stream[0]) then 0 else 1 + FirstTerminal(stream[1..])
  }

  function Held(stream: seq<Reply>): Option<Reply> {
    var i := FirstTerminal(stream);
    if i < |stream| then Some(stream[i]) else None
  }

  /** The stream without its first terminal reply. */
  function Forwarded(stream: seq<Reply>): seq<Reply> {
    var i := FirstTerminal(stream);
    if i < |stream| then stream[..i] + stream[i + 1..] else stream
  }

  /** `rest` is `stream` without its first terminal reply, which is `first`. */
  ghost predicate TakenOut(stream: seq<Reply>, first: Reply, rest: seq<Reply>) {
    && first.typ in {Success, Failure}
    && exists k: nat ::
         && k <= |rest| && stream == rest[..k] + [first] + rest[k..]
         && forall j :: 0 <= j < k ==> rest[j].typ !in {Success, Failure}
  }

  /** No terminal reply at all. */
  ghost predicate Endless(stream: seq<Reply>) {
    forall j :: 0 <= j < |stream| ==> stream[j].typ !in {Success, Failure}
  }

  /** What is held back and what is forwarded, from the stream alone. */
  lemma HeldExact(stream: seq<Reply>)
    ensures Held(stream).Some? ==> TakenOut(stream, Held(stream).value, Forwarded(stream))
    ensures Held(stream).None? ==> Endless(stream) && Forwarded(stream) == stream
  {
    var i, rest := FirstTerminal(stream), Forwarded(stream);
    if i < |stream| {
      assert rest[..i] == stream[..i] && rest[i..] == stream[i + 1..];
      assert stream == rest[..i] + [stream[i]] + rest[i..];
    }
  }

  /** The state of the loop after `i` replies. */
  ghost predicate Pumped(stream: seq<Reply>, i: nat, forwarded: seq<Reply>, terminal: Option<Reply>) {
    var k := FirstTerminal(stream);
    && i <= |stream|
    && if i <= k then forwarded == stream[..i] && terminal == None
       else forwarded == stream[..k] + stream[k + 1..i] && terminal == Some(stream[k])
  }

  lemma PumpedNext(stream: seq<Reply>, i: nat, forwarded: seq<Reply>, terminal: Option<Reply>)
    requires i < |stream| && Pumped(stream, i, forwarded, terminal)
    ensures if IsTerminal(stream[i]) && terminal.None? then Pumped(stream, i + 1, forwarded, Some(stream[i]))
            else Pumped(stream, i + 1, forwarded + [stream[i]], terminal)
  {
    hide FirstTerminal, IsTerminal;
    var k := FirstTerminal(stream);
    if i < k {
      SliceSnoc(stream, 0, i);
      assert stream[0..i] == stream[..i] && stream[0..i + 1] == stream[..i + 1];
    } else if k < i {
      SliceSnoc(stream, k + 1, i);
      Associate(stream[..k], stream[k + 1..i], [stream[i]]);
    } else {
      assert stream[k + 1..i + 1] == [] && stream[..k] + [] == stream[..k];
    }
  }

  lemma PumpedAll(stream: seq<Reply>, forwarded: seq<Reply>, terminal: Option<Reply>)
    requires Pumped(stream, |stream|, forwarded, terminal)
    ensures forwarded == Forwarded(stream) && terminal == Held(stream)
  {
    hide FirstTerminal;
    assert stream[..|stream|] == stream;
    var k := FirstTerminal(stream);
    assert k < |stream| ==> stream[k + 1..|stream|] == stream[k + 1..];
  }

  lemma PumpedNothing(stream: seq<Reply>)
    ensures Pumped(stream, 0, [], None)
  {
    hide FirstTerminal;
  }

  /**
   `setup` is the error of starting plaklet, if any, `stream` the replies decoded until the
   stream ended or could not be decoded, `exit` what is said of a plaklet that left no result.
   */
  method SpawnPlaklet(setup: Option<string>, stream: seq<Reply>, exit: string)
    returns (forwarded: seq<Reply>, terminal: Option<Reply>, err: Option<string>)
    ensures setup.Some? ==> forwarded == [] && terminal == None && err == setup
    ensures setup.None? ==> forwarded == Forwarded(stream) && terminal == Held(stream)
    ensures setup.None? ==> err == if terminal.None? then Some(exit) else None
    ensures setup.None? && terminal.Some? ==> TakenOut(stream, terminal.value, forwarded)
    ensures setup.None? && terminal.None? ==> Endless(stream) && forwarded == stream
  {
    hide FirstTerminal, IsTerminal, TakenOut, Endless, Pumped, Forwarded, Held;
    forwarded, terminal := [], None;
    if setup.Some? {
      return forwarded, terminal, setup;
    }
    var i := 0;
    PumpedNothing(stream);
    while i < |stream|
      invariant 0 <= i <= |stream|
      invariant Pumped(stream, i, forwarded, terminal)
    {
      PumpedNext(stream, i, forwarded, terminal);
      var r := stream[i];
      if IsTerminal(r) && terminal.None? {
        terminal := Some(r);
      } else {
        forwarded := forwarded + [r];
      }
      i := i + 1;
    }
    PumpedAll(stream, forwarded, terminal);
    HeldExact(stream);
    err := if terminal.None? then Some(exit) else None;
  }

  // ---- runWork ----

  datatype Stage = Packages | PreHook | Plaklet | PostHook

  /** What the main goroutine does that others can see. */
  datatype Act =
    | StartKeep(message: string)
    | StopKeep
    | Enter(stage: Stage)
    | Send(reply: Reply)
    | CloseLogs

  /** How a run's stages come out: the error of each, if any, and what plaklet emits. */
  datatype Outcomes = Outcomes(packages: Option<string>, preHook: Option<string>, setup: Option<string>,
                               stream: seq<Reply>, exit: string, postHook: Option<string>)

  predicate ReachesPlaklet(o: Outcomes) {
    o.packages.None? && o.preHook.None?
  }

  predicate HasResult(o: Outcomes) {
    o.setup.None? && Held(o.stream).Some?
  }

  /** The reply that ends the work on the control plane. */
  function FinalReply(o: Outcomes): Reply {
    if o.packages.Some? then
      Say(Failure, o.packages.value)
    else if o.preHook.Some? then
      Say(Failure, "pre-job hook: " + o.preHook.value)
    else if o.setup.Some? then
      Say(Failure, o.setup.value)
    else if Held(o.stream).None? then
      Say(Failure, o.exit)
    else
      var result := Held(o.stream).value;
      if result.typ == Success && o.postHook.Some? then
        Reply(Failure, "post-job hook: " + o.postHook.value, result.report, result.state)
      else
        result
  }

  function Keeping(message: string, stage: Stage): seq<Act> {
    [StartKeep(message), Enter(stage), StopKeep]
  }

  function Sends(replies: seq<Reply>): seq<Act> {
    if replies == [] then [] else Sends(replies[..|replies| - 1]) + [Send(replies[|replies| - 1])]
  }

  /** The post-job hook's own report, sent when the work failed already. */
  function PostReport(o: Outcomes): seq<Reply> {
    if o.postHook.Some? && !(HasResult(o) && Held(o.stream).value.typ == Success) then
      [Say(Error, "post-job hook: " + o.postHook.value)]
    else
      []
  }

  /** What plaklet's replies add to the main goroutine's own. */
  function Passed(o: Outcomes): seq<Reply> {
    if o.setup.Some? then [] else Forwarded(o.stream)
  }

  /** Plaklet with its replies, the post-job hook, and what is left to say before the end. */
  function PlakletActs(o: Outcomes): seq<Act> {
    ([Enter(Plaklet)] + Sends(Passed(o)))
    + (Keeping("running post-hook...", PostHook) + [CloseLogs])
    + (Sends(PostReport(o)) + if HasResult(o) then [] else [CloseLogs])
  }

  /** All the main goroutine does before its final reply. */
  function Stages(o: Outcomes): seq<Act> {
    Keeping("fetching packages...", Packages)
    + if o.packages.Some? then [CloseLogs]
      else Keeping("running pre-hook...", PreHook)
           + if o.preHook.Some? then [CloseLogs] else PlakletActs(o)
  }

  /** The final reply, and then the deferred Close. */
  function MainActs(o: Outcomes): seq<Act> {
    Stages(o) + [Send(FinalReply(o)), CloseLogs]
  }

  /** fail, and the deferred Close of the return after it. */
  function Failing(message: string): seq<Act> {
    [CloseLogs, Send(Say(Failure, message)), CloseLogs]
  }

  lemma SendsOne(r: Reply)
    ensures Sends([r]) == [Send(r)] && Sends([]) == []
  {
    assert [r][..0] == [];
  }

  /** runWork, with its stages' outcomes given. */
  method RunWork(o: Outcomes) returns (acts: seq<Act>)
    ensures acts == MainActs(o)
  {
    hide PlakletActs;
    acts := Keeping("fetching packages...", Packages);
    var err := o.packages;
    if err.Some? {
      acts := acts + Failing(err.value);
      return;
    }
    acts := acts + Keeping("running pre-hook...", PreHook);
    err := o.preHook;
    if err.Some? {
      acts := acts + Failing("pre-job hook: " + err.value);
      return;
    }
    var rest := RunPlaklet(o);
    acts := acts + rest;
  }

  /** The rest of runWork, once the pre-job hook has run. */
  method RunPlaklet(o: Outcomes) returns (acts: seq<Act>)
    requires ReachesPlaklet(o)
    ensures acts == PlakletActs(o) + [Send(FinalReply(o)), CloseLogs]
  {
    hide Forwarded, Held, Sends;
    acts := [Enter(Plaklet)];
    var forwarded, terminal, plakletErr := SpawnPlaklet(o.setup, o.stream, o.exit);
    acts := acts + Sends(forwarded);
    var postErr := None;
    acts := acts + Keeping("running post-hook...", PostHook);
    var err := o.postHook;
    if err.Some? {
      postErr := Some("post-job hook: " + err.value);
    }
    acts := acts + [CloseLogs];
    SendsOne(Say(Error, if postErr.Some? then postErr.value else ""));
    if plakletErr.Some? {
      if postErr.Some? {
        acts := acts + [Send(Say(Error, postErr.value))];
      }
      acts := acts + Failing(plakletErr.value);
      return;
    }
    if terminal.value.typ == Success && postErr.Some? {
      acts := acts + [Send(Reply(Failure, postErr.value, terminal.value.report, terminal.value.state))];
      acts := acts + [CloseLogs];
      return;
    }
    if postErr.Some? {
      acts := acts + [Send(Say(Error, postErr.value))];
    }
    acts := acts + [Send(terminal.value)];
    acts := acts + [CloseLogs];
  }

  // ---- The main goroutine's own replies ----

  function Replies(acts: seq<Act>): seq<Reply> {
    if acts == [] then
      []
    else
      var last := acts[|acts| - 1];
      Replies(acts[..|acts| - 1]) + if last.Send? then [last.reply] else []
  }

  function Terminals(replies: seq<Reply>): nat {
    if replies == [] then
      0
    else
      Terminals(replies[..|replies| - 1]) + if IsTerminal(replies[|replies| - 1]) then 1 else 0
  }

  lemma RepliesSnoc(acts: seq<Act>, a: Act)
    ensures Replies(acts + [a]) == Replies(acts) + if a.Send? then [a.reply] else []
  {
    assert (acts + [a])[..|acts|] == acts;
  }

  lemma {:induction false} RepliesJoin(a: seq<Act>, b: seq<Act>)
    ensures Replies(a + b) == Replies(a) + Replies(b)
  {
    if b == [] {
      assert a + b == a;
    } else {
      var init, last := b[..|b| - 1], b[|b| - 1];
      RepliesJoin(a, init);
      RepliesSnoc(a + init, last);
      assert a + b == a + init + [last];
    }
  }

  lemma {:induction false} RepliesOfSends(replies: seq<Reply>)
    ensures Replies(Sends(replies)) == replies
    ensures forall a :: a in Sends(replies) ==> a.Send?
  {
    if replies != [] {
      var init := replies[..|replies| - 1];
      RepliesOfSends(init);
      RepliesSnoc(Sends(init), Send(replies[|replies| - 1]));
    }
  }

  lemma TerminalsSnoc(replies: seq<Reply>, r: Reply)
    ensures Terminals(replies + [r]) == Terminals(replies) + if IsTerminal(r) then 1 else 0
  {
    assert (replies + [r])[..|replies|] == replies;
  }

  lemma {:induction false} TerminalsJoin(a: seq<Reply>, b: seq<Reply>)
    ensures Terminals(a + b) == Terminals(a) + Terminals(b)
  {
    if b == [] {
      assert a + b == a;
    } else {
      var init, last := b[..|b| - 1], b[|b| - 1];
      TerminalsJoin(a, init);
      TerminalsSnoc(a + init, last);
      assert a + b == a + init + [last];
    }
  }

  /** Holding the first terminal reply back takes exactly that one out of the stream. */
  lemma ForwardedTerminals(stream: seq<Reply>)
    ensures Terminals(Forwarded(stream)) == Terminals(stream) - if Held(stream).Some? then 1 else 0
    ensures Held(stream).Some? <==> Terminals(stream) > 0
  {
    hide Terminals, FirstTerminal, IsTerminal;
    var i := FirstTerminal(stream);
    NoTerminals(stream[..i]);
    if i < |stream| {
      TerminalsAround(stream, i);
    } else {
      assert stream[..i] == stream;
    }
  }

  lemma TerminalsAround(stream: seq<Reply>, i: nat)
    requires i < |stream|
    ensures Terminals(stream) == Terminals(stream[..i] + stream[i + 1..]) + if IsTerminal(stream[i]) then 1 else 0
  {
    hide Terminals, IsTerminal;
    TerminalsJoin(stream[..i], stream[i + 1..]);
    TerminalsSnoc(stream[..i], stream[i]);
    TerminalsJoin(stream[..i] + [stream[i]], stream[i + 1..]);
    assert stream == stream[..i] + [stream[i]] + stream[i + 1..];
  }

  lemma {:induction false} NoTerminals(replies: seq<Reply>)
    requires forall j :: 0 <= j < |replies| ==> !IsTerminal(replies[j])
    ensures Terminals(replies) == 0
  {
    if replies != [] {
      NoTerminals(replies[..|replies| - 1]);
    }
  }

  /** The terminal replies decoded from plaklet; none when it never ran. */
  function Decoded(o: Outcomes): nat {
    if ReachesPlaklet(o) && o.setup.None? then Terminals(o.stream) else 0
  }

  /** The replies of the main goroutine, in order. */
  lemma MainReplies(o: Outcomes)
    ensures Replies(MainActs(o))
            == (if !ReachesPlaklet(o) then []
                else Passed(o) + PostReport(o))
               + [FinalReply(o)]
  {
    hide FinalReply, Passed, PostReport, Stages, Replies;
    StagesReplies(o);
    RepliesJoin(Stages(o), [Send(FinalReply(o)), CloseLogs]);
    RepliesOfTwo(Send(FinalReply(o)), CloseLogs);
  }

  lemma StagesReplies(o: Outcomes)
    ensures Replies(Stages(o)) == if ReachesPlaklet(o) then Passed(o) + PostReport(o) else []
  {
    hide Passed, PostReport, Keeping, PlakletActs, Replies;
    var a, b := Keeping("fetching packages...", Packages), Keeping("running pre-hook...", PreHook);
    RepliesOfKeeping("fetching packages...", Packages);
    RepliesOfKeeping("running pre-hook...", PreHook);
    RepliesSilent(CloseLogs);
    PlakletReplies(o);
    RepliesJoin(a, [CloseLogs]);
    RepliesJoin(b, [CloseLogs]);
    RepliesJoin(b, PlakletActs(o));
    RepliesJoin(a, b + [CloseLogs]);
    RepliesJoin(a, b + PlakletActs(o));
  }

  lemma RepliesOfTwo(a: Act, b: Act)
    ensures Replies([a, b]) == (if a.Send? then [a.reply] else []) + (if b.Send? then [b.reply] else [])
  {
    hide Replies;
    RepliesNil();
    RepliesSnoc([a], b);
    RepliesSnoc([], a);
    assert [a] + [b] == [a, b] && [] + [a] == [a];
  }

  lemma RepliesNil()
    ensures Replies([]) == []
  {
  }

  lemma RepliesOfKeeping(message: string, stage: Stage)
    ensures Replies(Keeping(message, stage)) == []
  {
    hide Replies;
    RepliesOfTwo(StartKeep(message), Enter(stage));
    RepliesSnoc([StartKeep(message), Enter(stage)], StopKeep);
    assert [StartKeep(message), Enter(stage)] + [StopKeep] == Keeping(message, stage);
  }

  lemma PlakletReplies(o: Outcomes)
    ensures Replies(PlakletActs(o)) == Passed(o) + PostReport(o)
  {
    hide Keeping, Sends, Passed, PostReport;
    var keep := Keeping("running post-hook...", PostHook);
    var a, b := [Enter(Plaklet)] + Sends(Passed(o)), keep + [CloseLogs];
    var c := Sends(PostReport(o)) + if HasResult(o) then [] else [CloseLogs];
    assert Replies(a) == Passed(o) by {
      RepliesJoin([Enter(Plaklet)], Sends(Passed(o)));
      RepliesSilent(Enter(Plaklet));
      RepliesOfSends(Passed(o));
    }
    assert Replies(b) == [] by {
      RepliesOfKeeping("running post-hook...", PostHook);
      RepliesSnoc(keep, CloseLogs);
    }
    assert Replies(c) == PostReport(o) by {
      RepliesOfSends(PostReport(o));
      RepliesJoin(Sends(PostReport(o)), if HasResult(o) then [] else [CloseLogs]);
      RepliesSilent(CloseLogs);
    }
    RepliesJoin(a, b);
    RepliesJoin(a + b, c);
  }

  lemma RepliesSilent(a: Act)
    requires !a.Send?
    ensures Replies([a]) == [] && Replies([]) == []
  {
    hide Replies;
    RepliesNil();
    RepliesSnoc([], a);
    assert [] + [a] == [a];
  }

  /** Every run sends max(1, k) terminal replies, k of them having come from plaklet. */
  lemma TerminalReplies(o: Outcomes)
    ensures Terminals(Replies(MainActs(o))) == if Decoded(o) > 1 then Decoded(o) else 1
    ensures IsTerminal(FinalReply(o))
  {
    hide MainActs, Replies, Terminals;
    MainReplies(o);
    ForwardedTerminals(o.stream);
    NoTerminalsNil();
    if ReachesPlaklet(o) {
      PostReportTerminals(o);
      TerminalsJoin(Passed(o), PostReport(o));
      TerminalsSnoc(Passed(o) + PostReport(o), FinalReply(o));
    } else {
      TerminalsSnoc([], FinalReply(o));
    }
  }

  lemma NoTerminalsNil()
    ensures Terminals([]) == 0
  {
  }

  lemma PostReportTerminals(o: Outcomes)
    ensures Terminals(PostReport(o)) == 0
  {
    NoTerminals(PostReport(o));
  }

  /** The work ends as a success exactly when all its stages do. */
  lemma SuccessExactly(o: Outcomes)
    ensures FinalReply(o).typ == Success <==>
              && o.packages.None? && o.preHook.None? && o.setup.None? && o.postHook.None?
              && Held(o.stream).Some? && Held(o.stream).value.typ == Success
  {
  }

  /** The report and state of plaklet's result reach the control plane, even when a post-job hook fails the work. */
  lemma ResultRidesAlong(o: Outcomes)
    requires ReachesPlaklet(o) && HasResult(o)
    ensures var result := Held(o.stream).value;
            && FinalReply(o).report == result.report && FinalReply(o).state == result.state
            && (FinalReply(o) != result <==> result.typ == Success && o.postHook.Some?)
  {
  }

  /** What the final reply says, from the outcomes alone: the first stage that failed, or plaklet's result. */
  lemma FinalReplyExact(o: Outcomes)
    ensures o.packages.Some? ==> FinalReply(o) == Reply(Failure, o.packages.value, "", "")
    ensures o.packages.None? && o.preHook.Some? ==>
              FinalReply(o) == Reply(Failure, "pre-job hook: " + o.preHook.value, "", "")
    ensures o.packages.None? && o.preHook.None? && o.setup.Some? ==>
              FinalReply(o) == Reply(Failure, o.setup.value, "", "")
    ensures o.packages.None? && o.preHook.None? && o.setup.None? && Endless(o.stream) ==>
              FinalReply(o) == Reply(Failure, o.exit, "", "")
    ensures o.packages.None? && o.preHook.None? && o.setup.None? && !Endless(o.stream) ==>
              exists first: Reply, rest: seq<Reply> :: TakenOut(o.stream, first, rest) && FinalReply(o)
                == if first.typ == Success && o.postHook.Some?
                   then Reply(Failure, "post-job hook: " + o.postHook.value, first.report, first.state)
                   else first
  {
    hide Forwarded, TakenOut;
    HeldExact(o.stream);
    TakenOutEnds(o.stream);
    if Held(o.stream).Some? {
      assert TakenOut(o.stream, Held(o.stream).value, Forwarded(o.stream));
    }
  }

  lemma TakenOutEnds(stream: seq<Reply>)
    ensures Held(stream).Some? ==> !Endless(stream)
  {
  }

  /**
   The main goroutine's replies, from the outcomes alone: plaklet's, all but the first terminal one,
   in order; a report of a failed post-job hook, unless it turns a success into a failure; the final one.
   */
  lemma MainRepliesExact(o: Outcomes) returns (forwarded: seq<Reply>, report: seq<Reply>)
    ensures Replies(MainActs(o)) == forwarded + report + [FinalReply(o)]
    ensures o.packages.Some? || o.preHook.Some? || o.setup.Some? ==> forwarded == []
    ensures o.packages.None? && o.preHook.None? && o.setup.None? ==>
              if Endless(o.stream) then forwarded == o.stream
              else exists first :: TakenOut(o.stream, first, forwarded)
    ensures report == if o.packages.None? && o.preHook.None? && o.postHook.Some? && !PlakletSucceeds(o)
                      then [Reply(Error, "post-job hook: " + o.postHook.value, "", "")] else []
  {
    hide Replies, MainActs, Forwarded, TakenOut, FinalReply, Held;
    forwarded := if ReachesPlaklet(o) then Passed(o) else [];
    report := if ReachesPlaklet(o) then PostReport(o) else [];
    MainReplies(o);
    assert [] + [] + [FinalReply(o)] == [FinalReply(o)];
    HeldExact(o.stream);
    TakenOutEnds(o.stream);
    SucceedsExact(o);
  }

  /** Plaklet starts, and the first terminal reply it emits is a success. */
  ghost predicate PlakletSucceeds(o: Outcomes) {
    o.setup.None?
    && exists k :: 0 <= k < |o.stream| && o.stream[k].typ == Success
                   && forall j :: 0 <= j < k ==> o.stream[j].typ !in {Success, Failure}
  }

  lemma SucceedsExact(o: Outcomes)
    ensures PlakletSucceeds(o) <==> HasResult(o) && Held(o.stream).value.typ == Success
  {
    var i := FirstTerminal(o.stream);
    if i < |o.stream| {
      assert o.stream[i].typ in {Success, Failure};
    }
  }

  /** The work gets exactly one terminal reply exactly when plaklet emits one at most. */
  lemma OneTerminalExactly(o: Outcomes)
    ensures Terminals(Replies(MainActs(o))) == 1 <==> Decoded(o) <= 1
  {
    hide MainActs, Replies, Terminals, Decoded;
    TerminalReplies(o);
  }

  /** A plaklet that reports a success and then a failure gets both through, in the other order. */
  lemma SecondTerminalForwarded() returns (o: Outcomes)
    ensures Replies(MainActs(o)) == [Say(Failure, "late"), Say(Success, "done")]
  {
    hide MainActs, Replies, Forwarded, Held;
    var done, late := Say(Success, "done"), Say(Failure, "late");
    o := Outcomes(None, None, None, [done, late], "", None);
    MainReplies(o);
    FirstIsHeld(done, late);
    assert Passed(o) + PostReport(o) + [FinalReply(o)] == [late, done];
  }

  lemma FirstIsHeld(first: Reply, second: Reply)
    requires IsTerminal(first)
    ensures Held([first, second]) == Some(first) && Forwarded([first, second]) == [second]
  {
    assert FirstTerminal([first, second]) == 0;
  }

  /** The hooks run around plaklet: the post-job hook exactly when the pre-job hook let plaklet run. */
  lemma StagesEntered(o: Outcomes)
    ensures Enter(Packages) in MainActs(o)
    ensures Enter(PreHook) in MainActs(o) <==> o.packages.None?
    ensures Enter(Plaklet) in MainActs(o) <==> ReachesPlaklet(o)
    ensures Enter(PostHook) in MainActs(o) <==> ReachesPlaklet(o)
  {
    hide FinalReply, PlakletActs;
    PlakletEntered(o);
  }

  // ---- The order of the stages ----

  /** Where a stage comes in a run of work. */
  function Position(stage: Stage): nat {
    match stage
    case Packages => 0
    case PreHook => 1
    case Plaklet => 2
    case PostHook => 3
  }

  /** The stages are entered in order, and none twice. */
  ghost predicate Ordered(acts: seq<Act>) {
    forall i, j :: 0 <= i < j < |acts| && acts[i].Enter? && acts[j].Enter? ==>
      Position(acts[i].stage) < Position(acts[j].stage)
  }

  /** Each stage but plaklet is entered between the start and the end of a keepalive that names it. */
  ghost predicate Announced(acts: seq<Act>) {
    forall i :: 0 <= i < |acts| && acts[i].Enter? && acts[i].stage != Plaklet ==>
      && 0 < i < |acts| - 1 && acts[i + 1] == StopKeep
      && acts[i - 1] == StartKeep(match acts[i].stage
                                  case Packages => "fetching packages..."
                                  case PreHook => "running pre-hook..."
                                  case _ => "running post-hook...")
  }

  /** The stages entered come from these positions. */
  predicate Within(acts: seq<Act>, low: nat, high: nat) {
    forall i :: 0 <= i < |acts| && acts[i].Enter? ==> low <= Position(acts[i].stage) < high
  }

  lemma StagesJoin(a: seq<Act>, b: seq<Act>, low: nat, mid: nat, high: nat)
    requires low <= mid <= high && Within(a, low, mid) && Within(b, mid, high)
    requires Ordered(a) && Ordered(b) && Announced(a) && Announced(b)
    ensures Within(a + b, low, high) && Ordered(a + b) && Announced(a + b)
  {
    hide Position;
    var c := a + b;
    assert forall i :: 0 <= i < |a| ==> c[i] == a[i];
    assert forall i :: |a| <= i < |c| ==> c[i] == b[i - |a|];
  }

  lemma StagesSilent(acts: seq<Act>, at: nat)
    requires forall a :: a in acts ==> !a.Enter?
    ensures Within(acts, at, at) && Ordered(acts) && Announced(acts)
  {
  }

  lemma StagesKeeping(o: Outcomes)
    ensures var a := Keeping("fetching packages...", Packages); Within(a, 0, 1) && Ordered(a) && Announced(a)
    ensures var a := Keeping("running pre-hook...", PreHook); Within(a, 1, 2) && Ordered(a) && Announced(a)
    ensures var a := Keeping("running post-hook...", PostHook); Within(a, 3, 4) && Ordered(a) && Announced(a)
    ensures var a := [Enter(Plaklet)]; Within(a, 2, 3) && Ordered(a) && Announced(a)
  {
    hide Keeping, Within, Ordered, Announced;
    StageKeeping("fetching packages...", Packages);
    StageKeeping("running pre-hook...", PreHook);
    StageKeeping("running post-hook...", PostHook);
    StagePlaklet();
  }

  lemma StagePlaklet()
    ensures var a := [Enter(Plaklet)]; Within(a, 2, 3) && Ordered(a) && Announced(a)
  {
  }

  lemma StageKeeping(message: string, stage: Stage)
    requires stage != Plaklet
    requires message == match stage
                        case Packages => "fetching packages..."
                        case PreHook => "running pre-hook..."
                        case _ => "running post-hook..."
    ensures var a := Keeping(message, stage);
            Within(a, Position(stage), Position(stage) + 1) && Ordered(a) && Announced(a)
  {
    hide Position;
    var a := Keeping(message, stage);
    assert a[0] == StartKeep(message) && a[1] == Enter(stage) && a[2] == StopKeep;
  }

  lemma SendsEnterNone(replies: seq<Reply>)
    ensures forall a :: a in Sends(replies) ==> !a.Enter?
  {
    RepliesOfSends(replies);
  }

  lemma PlakletOrdered(o: Outcomes)
    ensures var a := PlakletActs(o); Within(a, 2, 4) && Ordered(a) && Announced(a)
  {
    hide Within, Ordered, Announced, Keeping, Sends, Passed, PostReport, HasResult;
    var keep, end := Keeping("running post-hook...", PostHook), if HasResult(o) then [] else [CloseLogs];
    StagesKeeping(o);
    SendsEnterNone(Passed(o));
    SendsEnterNone(PostReport(o));
    StagesSilent(Sends(Passed(o)), 3);
    StagesSilent([CloseLogs], 4);
    StagesSilent(Sends(PostReport(o)) + end, 4);
    StagesJoin([Enter(Plaklet)], Sends(Passed(o)), 2, 3, 3);
    StagesJoin(keep, [CloseLogs], 3, 4, 4);
    StagesJoin([Enter(Plaklet)] + Sends(Passed(o)), keep + [CloseLogs], 2, 3, 4);
    StagesJoin([Enter(Plaklet)] + Sends(Passed(o)) + (keep + [CloseLogs]), Sends(PostReport(o)) + end, 2, 4, 4);
  }

  lemma WithinMore(acts: seq<Act>, low: nat, high: nat, higher: nat)
    requires Within(acts, low, high) && high <= higher
    ensures Within(acts, low, higher)
  {
  }

  /**
   The stages come in the order packages, pre-job hook, plaklet, post-job hook, none of them twice;
   each but plaklet's within its own keepalive.
   */
  lemma StagesInOrder(o: Outcomes)
    ensures Ordered(MainActs(o)) && Announced(MainActs(o))
  {
    hide Within, Ordered, Announced, Keeping, PlakletActs, FinalReply;
    var a, b := Keeping("fetching packages...", Packages), Keeping("running pre-hook...", PreHook);
    StagesKeeping(o);
    PlakletOrdered(o);
    StagesSilent([CloseLogs], 1);
    StagesSilent([CloseLogs], 2);
    WithinMore([CloseLogs], 1, 1, 4);
    WithinMore([CloseLogs], 2, 2, 4);
    StagesSilent([Send(FinalReply(o)), CloseLogs], 4);
    var rest := if o.preHook.Some? then [CloseLogs] else PlakletActs(o);
    StagesJoin(b, rest, 1, 2, 4);
    var after := if o.packages.Some? then [CloseLogs] else b + rest;
    StagesJoin(a, after, 0, 1, 4);
    StagesJoin(Stages(o), [Send(FinalReply(o)), CloseLogs], 0, 4, 4);
  }

  /**
   Plaklet's replies come right after plaklet is entered, all that is forwarded and in order, and
   then the post-job hook with its keepalive and the closing of the log; nothing is said before.
   */
  lemma PlakletInPlace(o: Outcomes) returns (p: nat, q: nat, forwarded: seq<Reply>)
    requires o.packages.None? && o.preHook.None?
    ensures var acts := MainActs(o);
            && p < q && q + 4 <= |acts|
            && acts[p] == Enter(Plaklet)
            && acts[q..q + 4] == [StartKeep("running post-hook..."), Enter(PostHook), StopKeep, CloseLogs]
            && (forall i :: 0 <= i < p ==> !acts[i].Send?)
            && (forall i :: p < i < q ==> acts[i].Send?)
            && Replies(acts[p + 1..q]) == forwarded
    ensures o.setup.Some? ==> forwarded == [] && q == p + 1
    ensures o.setup.None? && Endless(o.stream) ==> forwarded == o.stream
    ensures o.setup.None? && !Endless(o.stream) ==> exists first :: TakenOut(o.stream, first, forwarded)
  {
    hide Sends, Passed, FinalReply, PostReport, Replies, TakenOut, HasResult, Endless, MainActs, Keeping;
    var sends := Sends(Passed(o));
    var before := Keeping("fetching packages...", Packages) + Keeping("running pre-hook...", PreHook);
    var post := [StartKeep("running post-hook..."), Enter(PostHook), StopKeep, CloseLogs];
    var rest := PlakletActsRegrouped(o);
    p := |before|;
    q := p + 1 + |sends|;
    forwarded := Passed(o);
    RepliesOfSends(Passed(o));
    PassedExact(o);
    KeepingSilent();
    MiddleOf(before, Enter(Plaklet), sends, post, rest);
  }

  lemma KeepingSilent()
    ensures var before := Keeping("fetching packages...", Packages) + Keeping("running pre-hook...", PreHook);
            forall i :: 0 <= i < |before| ==> !before[i].Send?
  {
  }

  lemma MiddleOf(a: seq<Act>, x: Act, b: seq<Act>, c: seq<Act>, d: seq<Act>)
    ensures var s, p, q := a + [x] + b + c + d, |a|, |a| + 1 + |b|;
            && |s| >= q + |c|
            && s[p] == x && s[p + 1..q] == b && s[q..q + |c|] == c
            && (forall i :: 0 <= i < p ==> s[i] == a[i])
            && (forall i :: p < i < q ==> s[i] == b[i - p - 1])
  {
    var s, p, q := a + [x] + b + c + d, |a|, |a| + 1 + |b|;
    assert forall i :: 0 <= i < |c| ==> s[q + i] == c[i];
  }

  lemma PassedExact(o: Outcomes)
    ensures o.setup.Some? ==> Passed(o) == [] && Sends(Passed(o)) == []
    ensures o.setup.None? && Endless(o.stream) ==> Passed(o) == o.stream
    ensures o.setup.None? && !Endless(o.stream) ==> exists first :: TakenOut(o.stream, first, Passed(o))
  {
    hide Forwarded, TakenOut, Held, Endless;
    HeldExact(o.stream);
    TakenOutEnds(o.stream);
    if o.setup.None? && !Endless(o.stream) {
      assert TakenOut(o.stream, Held(o.stream).value, Passed(o));
    }
  }

  lemma PlakletActsRegrouped(o: Outcomes) returns (rest: seq<Act>)
    requires ReachesPlaklet(o)
    ensures MainActs(o)
            == Keeping("fetching packages...", Packages) + Keeping("running pre-hook...", PreHook) + [Enter(Plaklet)]
               + Sends(Passed(o))
               + [StartKeep("running post-hook..."), Enter(PostHook), StopKeep, CloseLogs]
               + rest
  {
    hide Sends, Passed, FinalReply, PostReport, HasResult;
    var a, b := Keeping("fetching packages...", Packages), Keeping("running pre-hook...", PreHook);
    var c, d := [Enter(Plaklet)], Sends(Passed(o));
    var e := [StartKeep("running post-hook..."), Enter(PostHook), StopKeep, CloseLogs];
    var f, g := Sends(PostReport(o)) + if HasResult(o) then [] else [CloseLogs], [Send(FinalReply(o)), CloseLogs];
    assert Keeping("running post-hook...", PostHook) + [CloseLogs] == e;
    RegroupSeven(a, b, c, d, e, f, g);
    rest := f + g;
  }

  lemma RegroupSeven(a: seq<Act>, b: seq<Act>, c: seq<Act>, d: seq<Act>, e: seq<Act>, f: seq<Act>, g: seq<Act>)
    ensures a + (b + (c + d + e + f)) + g == a + b + c + d + e + (f + g)
  {
    Associate(a, b, c + d + e + f);
    Associate(a + b, c + d + e, f);
    Associate(a + b, c + d, e);
    Associate(a + b, c, d);
    Associate(a + b + c + d + e, f, g);
  }

  lemma PlakletEntered(o: Outcomes)
    ensures Enter(Plaklet) in PlakletActs(o) && Enter(PostHook) in PlakletActs(o)
    ensures Enter(Packages) !in PlakletActs(o) && Enter(PreHook) !in PlakletActs(o)
  {
    hide Passed, PostReport, Sends, HasResult;
    var end := if HasResult(o) then [] else [CloseLogs];
    forall stage: Stage
      ensures Enter(stage) in PlakletActs(o) <==> stage == Plaklet || stage == PostHook
    {
      SendsEnterNothing(Passed(o), stage);
      SendsEnterNothing(PostReport(o), stage);
      EnteredBetween(Sends(Passed(o)), Sends(PostReport(o)) + end, stage);
    }
  }

  lemma SendsEnterNothing(replies: seq<Reply>, stage: Stage)
    ensures Enter(stage) !in Sends(replies)
  {
    RepliesOfSends(replies);
  }

  lemma EnteredBetween(sends: seq<Act>, end: seq<Act>, stage: Stage)
    requires Enter(stage) !in sends && Enter(stage) !in end
    ensures Enter(stage) in ([Enter(Plaklet)] + sends) + (Keeping("running post-hook...", PostHook) + [CloseLogs]) + end
            <==> stage == Plaklet || stage == PostHook
  {
    var middle := Keeping("running post-hook...", PostHook) + [CloseLogs];
    assert Enter(stage) in middle <==> stage == PostHook by {
      assert middle[1] == Enter(PostHook);
    }
  }

  // ---- The helper goroutines ----

  /** Who sends a reply; `Drainer` is the main goroutine inside Close. */
  datatype Thread = Main | Drainer | Flusher | Keeper

  datatype Outcome = Pending | Delivered | Failed

  /** One call of Client.Reply; `late` when the context was already canceled. */
  datatype Attempt = Attempt(sender: Thread, reply: Reply, late: bool, outcome: Outcome)

  /** The keepalive goroutine: two replies at most, and none after Stop has returned. */
  datatype Keep = Over | First(message: string) | Pausing(message: string) | Talking(attempt: nat, next: Keep)

  datatype Flush = Ticking | Flushing(attempt: nat) | Stopped

  /** Where the main goroutine is in its current act. */
  datatype Busy = Free | Sending(attempt: nat) | Joining | AwaitingFlusher | Draining | DrainSending(attempt: nat)

  /** `trace` holds every reply attempted so far, by whomever, in the order they were started. */
  datatype State = State(pc: nat, busy: Busy, keep: Keep, flush: Flush, closed: bool, canceled: bool,
                         trace: seq<Attempt>)

  datatype Step =
    | Cancel
    | Advance | Sent(ok: bool) | Joined
    | FlusherGone | Drain(text: string) | Drained(ok: bool) | Closed
    | KeepSay | KeepSaid(ok: bool) | KeepQuit
    | FlushSay(text: string) | FlushSaid(ok: bool) | FlushQuit

  const START := State(0, Free, Over, Ticking, false, false, [])

  /** A reply started after cancellation does not get through. */
  predicate MayEnd(s: State, attempt: nat, ok: bool) {
    attempt < |s.trace| && s.trace[attempt].outcome == Pending && (ok ==> !s.trace[attempt].late)
  }

  predicate Enabled(acts: seq<Act>, s: State, step: Step) {
    match step
    case Cancel => true
    case Advance => s.busy == Free && s.pc < |acts|
    case Sent(ok) => s.busy.Sending? && MayEnd(s, s.busy.attempt, ok)
    case Joined => s.busy == Joining && s.keep == Over
    case FlusherGone => s.busy == AwaitingFlusher && s.flush == Stopped
    case Drain(_) => s.busy == Draining
    case Drained(ok) => s.busy.DrainSending? && MayEnd(s, s.busy.attempt, ok)
    case Closed => s.busy == Draining
    case KeepSay => s.keep.First? || s.keep.Pausing?
    case KeepSaid(ok) => s.keep.Talking? && MayEnd(s, s.keep.attempt, ok)
    case KeepQuit => s.keep.Pausing? && s.busy == Joining
    case FlushSay(_) => s.flush == Ticking
    case FlushSaid(ok) => s.flush.Flushing? && MayEnd(s, s.flush.attempt, ok)
    case FlushQuit => s.flush == Ticking && s.busy == AwaitingFlusher
  }

  function Begin(s: State, sender: Thread, reply: Reply): seq<Attempt> {
    s.trace + [Attempt(sender, reply, s.canceled, Pending)]
  }

  function End(s: State, attempt: nat, ok: bool): seq<Attempt>
    requires attempt < |s.trace|
  {
    s.trace[attempt := s.trace[attempt].(outcome := if ok then Delivered else Failed)]
  }

  function Perform(s: State, act: Act): State {
    match act
    case StartKeep(message) => s.(pc := s.pc + 1, keep := First(message))
    case StopKeep => s.(busy := Joining)
    case Enter(_) => s.(pc := s.pc + 1)
    case Send(reply) => s.(busy := Sending(|s.trace|), trace := Begin(s, Main, reply))
    case CloseLogs => if s.closed then s.(pc := s.pc + 1) else s.(busy := AwaitingFlusher)
  }

  function Apply(acts: seq<Act>, s: State, step: Step): State
    requires Enabled(acts, s, step)
  {
    match step
    case Cancel => s.(canceled := true)
    case Advance => Perform(s, acts[s.pc])
    case Sent(ok) => s.(pc := s.pc + 1, busy := Free, trace := End(s, s.busy.attempt, ok))
    case Joined => s.(pc := s.pc + 1, busy := Free)
    case FlusherGone => s.(busy := Draining)
    case Drain(text) => s.(busy := DrainSending(|s.trace|), trace := Begin(s, Drainer, Say(Log, text)))
    case Drained(ok) => s.(busy := Draining, trace := End(s, s.busy.attempt, ok))
    case Closed => s.(pc := s.pc + 1, busy := Free, closed := true)
    case KeepSay =>
      s.(keep := Talking(|s.trace|, if s.keep.First? then Pausing(s.keep.message) else Over),
         trace := Begin(s, Keeper, Say(Info, s.keep.message)))
    case KeepSaid(ok) => s.(keep := s.keep.next, trace := End(s, s.keep.attempt, ok))
    case KeepQuit => s.(keep := Over)
    case FlushSay(text) => s.(flush := Flushing(|s.trace|), trace := Begin(s, Flusher, Say(Log, text)))
    case FlushSaid(ok) => s.(flush := Ticking, trace := End(s, s.flush.attempt, ok))
    case FlushQuit => s.(flush := Stopped)
  }

  /** The state a run reaches; None when some step was not possible. */
  function After(acts: seq<Act>, run: seq<Step>): Option<State> {
    if run == [] then
      Some(START)
    else
      var before := After(acts, run[..|run| - 1]);
      var step := run[|run| - 1];
      if before.Some? && Enabled(acts, before.value, step) then Some(Apply(acts, before.value, step)) else None
  }

  // ---- The invariant ----

  /** Whether a keepalive is running after these acts. */
  predicate Kept(acts: seq<Act>) {
    acts != []
    && var last := acts[|acts| - 1];
       last.StartKeep? || (last != StopKeep && Kept(acts[..|acts| - 1]))
  }

  function OwnReplies(trace: seq<Attempt>): seq<Reply> {
    if trace == [] then
      []
    else
      var last := trace[|trace| - 1];
      OwnReplies(trace[..|trace| - 1]) + if last.sender == Main then [last.reply] else []
  }

  function AllReplies(trace: seq<Attempt>): seq<Reply> {
    if trace == [] then [] else AllReplies(trace[..|trace| - 1]) + [trace[|trace| - 1].reply]
  }

  /** The main goroutine is where its current act has it. */
  ghost predicate Placed(acts: seq<Act>, s: State) {
    && s.pc <= |acts|
    && (s.busy != Free ==> s.pc < |acts|)
    && (s.busy == Joining ==> acts[s.pc] == StopKeep)
    && (s.busy.Sending? ==> acts[s.pc].Send?)
    && (s.busy in {AwaitingFlusher, Draining} || s.busy.DrainSending? ==> acts[s.pc] == CloseLogs && !s.closed)
  }

  /** The keepalive goroutine lives between StartKeep and StopKeep only, the flusher until the first CloseLogs. */
  ghost predicate HelpersPlaced(acts: seq<Act>, s: State) {
    s.pc <= |acts| ==>
      && (s.keep != Over ==> Kept(acts[..s.pc]))
      && (s.closed <==> CloseLogs in acts[..s.pc])
      && (s.closed || s.busy == Draining || s.busy.DrainSending? ==> s.flush == Stopped)
  }

  /** No keepalive is started while another runs. */
  predicate Paired(acts: seq<Act>) {
    forall k :: 0 <= k < |acts| && acts[k].StartKeep? ==> !Kept(acts[..k])
  }

  /** Whether the goroutine that started attempt `i` is still in it. */
  predicate InHand(s: State, i: nat)
    requires i < |s.trace|
  {
    match s.trace[i].sender
    case Main => s.busy == Sending(i)
    case Drainer => s.busy == DrainSending(i)
    case Flusher => s.flush == Flushing(i)
    case Keeper => s.keep.Talking? && s.keep.attempt == i
  }

  /** Each attempt under way is in the hands of the goroutine that started it. */
  ghost predicate PendingInHand(s: State) {
    forall i :: 0 <= i < |s.trace| && s.trace[i].outcome == Pending ==> InHand(s, i)
  }

  predicate UnderWay(s: State, i: nat, sender: Thread) {
    i < |s.trace| && s.trace[i].sender == sender && s.trace[i].outcome == Pending
  }

  ghost predicate HandsOnOwn(s: State) {
    MainHands(s) && HelperHands(s)
  }

  ghost predicate MainHands(s: State) {
    && (s.busy.Sending? ==> UnderWay(s, s.busy.attempt, Main))
    && (s.busy.DrainSending? ==> UnderWay(s, s.busy.attempt, Drainer))
  }

  ghost predicate HelperHands(s: State) {
    && (s.flush.Flushing? ==> UnderWay(s, s.flush.attempt, Flusher))
    && (s.keep.Talking? ==> UnderWay(s, s.keep.attempt, Keeper) && !s.keep.next.Talking?)
  }

  /** Nothing started after cancellation is delivered, and only the main goroutine sends terminal replies. */
  ghost predicate AttemptsSound(s: State) {
    forall i :: 0 <= i < |s.trace| ==>
      && (s.trace[i].late ==> s.trace[i].outcome != Delivered)
      && (s.trace[i].sender != Main ==> !IsTerminal(s.trace[i].reply))
  }

  /** Cancellation is for good: of what is started after it, all is late. */
  ghost predicate LateTail(s: State) {
    && (forall i, j :: 0 <= i < j < |s.trace| && s.trace[i].late ==> s.trace[j].late)
    && (forall i :: 0 <= i < |s.trace| && s.trace[i].late ==> s.canceled)
  }

  /** A keepalive with this message has been started. */
  ghost predicate KeepStarted(acts: seq<Act>, pc: nat, message: string) {
    exists j :: 0 <= j < pc && j < |acts| && acts[j] == StartKeep(message)
  }

  ghost predicate KeepKnown(acts: seq<Act>, s: State) {
    match s.keep
    case Over => true
    case First(message) => KeepStarted(acts, s.pc, message)
    case Pausing(message) => KeepStarted(acts, s.pc, message)
    case Talking(_, next) => next == Over || (next.Pausing? && KeepStarted(acts, s.pc, next.message))
  }

  /** What a helper says: the message of a keepalive that was started, or a piece of the log. */
  ghost predicate HelperSays(acts: seq<Act>, pc: nat, a: Attempt) {
    match a.sender
    case Main => true
    case Keeper => a.reply == Reply(Info, a.reply.message, "", "") && KeepStarted(acts, pc, a.reply.message)
    case _ => a.reply == Reply(Log, a.reply.message, "", "")
  }

  ghost predicate HelpersKnown(acts: seq<Act>, s: State) {
    && KeepKnown(acts, s)
    && forall i :: 0 <= i < |s.trace| ==> HelperSays(acts, s.pc, s.trace[i])
  }

  function KeeperSaid(trace: seq<Attempt>): nat {
    if trace == [] then 0 else KeeperSaid(trace[..|trace| - 1]) + if trace[|trace| - 1].sender == Keeper then 1 else 0
  }

  function Keeps(acts: seq<Act>): nat {
    if acts == [] then 0 else Keeps(acts[..|acts| - 1]) + if acts[|acts| - 1].StartKeep? then 1 else 0
  }

  /** Each keepalive says its message once or twice. */
  ghost predicate KeepCounted(acts: seq<Act>, s: State) {
    s.pc <= |acts| ==>
      var n, said := Keeps(acts[..s.pc]), KeeperSaid(s.trace);
      match s.keep
      case Over => n <= said <= 2 * n
      case First(_) => n <= said + 1 <= 2 * n - 1
      case Pausing(_) => n <= said <= 2 * n - 1
      case Talking(_, next) => n <= said <= if next == Over then 2 * n else 2 * n - 1
  }

  /** The main goroutine's replies in the trace are those of its acts so far. */
  ghost predicate OwnInOrder(acts: seq<Act>, s: State) {
    s.pc <= |acts| ==>
      OwnReplies(s.trace)
      == Replies(acts[..s.pc])
         + if s.busy.Sending? && s.pc < |acts| && acts[s.pc].Send? then [acts[s.pc].reply] else []
  }

  /** From its act `f` on the main goroutine has no helper left, and says nothing else. */
  predicate QuietFrom(acts: seq<Act>, f: nat) {
    && f < |acts| && acts[f].Send?
    && CloseLogs in acts[..f] && !Kept(acts[..f])
    && forall j :: f < j < |acts| ==> acts[j] == CloseLogs
  }

  predicate Begun(s: State, f: nat) {
    s.pc > f || (s.pc == f && s.busy.Sending?)
  }

  ghost predicate LastWord(acts: seq<Act>, f: nat, s: State) {
    QuietFrom(acts, f) && Begun(s, f) ==>
      && s.trace != []
      && s.trace[|s.trace| - 1].sender == Main && s.trace[|s.trace| - 1].reply == acts[f].reply
      && (s.busy.Sending? ==> s.busy.attempt == |s.trace| - 1)
  }

  lemma PlacedStep(acts: seq<Act>, s: State, step: Step)
    requires Enabled(acts, s, step) && Placed(acts, s)
    ensures Placed(acts, Apply(acts, s, step))
  {
  }

  lemma KeptSnoc(acts: seq<Act>, k: nat)
    requires k < |acts|
    ensures Kept(acts[..k + 1]) == (acts[k].StartKeep? || (acts[k] != StopKeep && Kept(acts[..k])))
    ensures CloseLogs in acts[..k + 1] <==> CloseLogs in acts[..k] || acts[k] == CloseLogs
    ensures Replies(acts[..k + 1]) == Replies(acts[..k]) + if acts[k].Send? then [acts[k].reply] else []
  {
    assert acts[..k + 1] == acts[..k] + [acts[k]];
    assert acts[..k + 1][..k] == acts[..k];
    RepliesSnoc(acts[..k], acts[k]);
  }

  lemma HelpersPlacedStep(acts: seq<Act>, s: State, step: Step)
    requires Enabled(acts, s, step) && Placed(acts, s) && HelpersPlaced(acts, s)
    ensures HelpersPlaced(acts, Apply(acts, s, step))
  {
    hide Kept, Begin, End;
    if s.pc < |acts| {
      KeptSnoc(acts, s.pc);
    }
  }

  lemma PendingInHandStep(acts: seq<Act>, s: State, step: Step)
    requires Enabled(acts, s, step) && Paired(acts) && HelpersPlaced(acts, s) && HandsOnOwn(s) && PendingInHand(s)
    ensures PendingInHand(Apply(acts, s, step))
  {
    hide Kept, HandsOnOwn, PendingInHand, InHand, Apply;
    match step
    case Advance => PendingInHandAdvance(acts, s);
    case Sent(_) => PendingInHandMain(acts, s, step);
    case Drain(_) => PendingInHandMain(acts, s, step);
    case Drained(_) => PendingInHandMain(acts, s, step);
    case _ => PendingInHandHelper(acts, s, step);
  }

  lemma PendingInHandAdvance(acts: seq<Act>, s: State)
    requires Enabled(acts, s, Advance) && Paired(acts) && HelpersPlaced(acts, s) && PendingInHand(s)
    ensures PendingInHand(Apply(acts, s, Advance))
  {
    hide Kept;
  }

  lemma PendingInHandMain(acts: seq<Act>, s: State, step: Step)
    requires Enabled(acts, s, step) && PendingInHand(s)
    requires step.Sent? || step.Drain? || step.Drained?
    ensures PendingInHand(Apply(acts, s, step))
  {
  }

  lemma PendingInHandHelper(acts: seq<Act>, s: State, step: Step)
    requires Enabled(acts, s, step) && HandsOnOwn(s) && PendingInHand(s)
    requires step != Advance && !step.Sent? && !step.Drain? && !step.Drained?
    ensures PendingInHand(Apply(acts, s, step))
  {
  }

  lemma HandsOnOwnStep(acts: seq<Act>, s: State, step: Step)
    requires Enabled(acts, s, step) && HandsOnOwn(s)
    ensures HandsOnOwn(Apply(acts, s, step))
  {
    hide MainHands, HelperHands, Apply;
    MainHandsStep(acts, s, step);
    HelperHandsStep(acts, s, step);
  }

  lemma MainHandsStep(acts: seq<Act>, s: State, step: Step)
    requires Enabled(acts, s, step) && HandsOnOwn(s)
    ensures MainHands(Apply(acts, s, step))
  {
  }

  lemma HelperHandsStep(acts: seq<Act>, s: State, step: Step)
    requires Enabled(acts, s, step) && HandsOnOwn(s)
    ensures HelperHands(Apply(acts, s, step))
  {
  }

  lemma AttemptsSoundStep(acts: seq<Act>, s: State, step: Step)
    requires Enabled(acts, s, step) && AttemptsSound(s)
    ensures AttemptsSound(Apply(acts, s, step))
  {
  }

  lemma LateTailStep(acts: seq<Act>, s: State, step: Step)
    requires Enabled(acts, s, step) && LateTail(s)
    ensures LateTail(Apply(acts, s, step))
  {
  }

  lemma OwnRepliesSnoc(trace: seq<Attempt>, a: Attempt)
    ensures OwnReplies(trace + [a]) == OwnReplies(trace) + if a.sender == Main then [a.reply] else []
  {
    assert (trace + [a])[..|trace|] == trace;
  }

  lemma {:induction false} OwnRepliesIgnoreOutcome(trace: seq<Attempt>, i: nat, outcome: Outcome)
    requires i < |trace|
    ensures OwnReplies(trace[i := trace[i].(outcome := outcome)]) == OwnReplies(trace)
  {
    var last := |trace| - 1;
    if i < last {
      OwnRepliesIgnoreOutcome(trace[..last], i, outcome);
      assert trace[i := trace[i].(outcome := outcome)][..last] == trace[..last][i := trace[i].(outcome := outcome)];
    } else {
      assert trace[i := trace[i].(outcome := outcome)][..last] == trace[..last];
    }
  }

  /** The attempt a step starts, if any. */
  function Started(acts: seq<Act>, s: State, step: Step): seq<Attempt>
    requires Enabled(acts, s, step)
  {
    match step
    case Advance => if acts[s.pc].Send? then [Attempt(Main, acts[s.pc].reply, s.canceled, Pending)] else []
    case Drain(text) => [Attempt(Drainer, Say(Log, text), s.canceled, Pending)]
    case KeepSay => [Attempt(Keeper, Say(Info, s.keep.message), s.canceled, Pending)]
    case FlushSay(text) => [Attempt(Flusher, Say(Log, text), s.canceled, Pending)]
    case _ => []
  }

  lemma TraceStep(acts: seq<Act>, s: State, step: Step)
    requires Enabled(acts, s, step)
    ensures OwnReplies(Apply(acts, s, step).trace)
            == OwnReplies(s.trace) + if step == Advance && acts[s.pc].Send? then [acts[s.pc].reply] else []
    ensures Started(acts, s, step) == [] ==>
              |Apply(acts, s, step).trace| == |s.trace|
              && forall i :: 0 <= i < |s.trace| ==>
                   && Apply(acts, s, step).trace[i].sender == s.trace[i].sender
                   && Apply(acts, s, step).trace[i].reply == s.trace[i].reply
    ensures Started(acts, s, step) != [] ==> Apply(acts, s, step).trace == s.trace + Started(acts, s, step)
  {
    hide OwnReplies;
    if Started(acts, s, step) != [] {
      OwnRepliesSnoc(s.trace, Started(acts, s, step)[0]);
    }
    match step
    case Sent(ok) => OwnRepliesIgnoreOutcome(s.trace, s.busy.attempt, if ok then Delivered else Failed);
    case Drained(ok) => OwnRepliesIgnoreOutcome(s.trace, s.busy.attempt, if ok then Delivered else Failed);
    case KeepSaid(ok) => OwnRepliesIgnoreOutcome(s.trace, s.keep.attempt, if ok then Delivered else Failed);
    case FlushSaid(ok) => OwnRepliesIgnoreOutcome(s.trace, s.flush.attempt, if ok then Delivered else Failed);
    case _ =>
  }

  lemma OwnInOrderStep(acts: seq<Act>, s: State, step: Step)
    requires Enabled(acts, s, step) && Placed(acts, s) && OwnInOrder(acts, s)
    ensures OwnInOrder(acts, Apply(acts, s, step))
  {
    hide OwnReplies, Replies, Begin, End;
    TraceStep(acts, s, step);
    if s.pc < |acts| {
      KeptSnoc(acts, s.pc);
    }
  }

  lemma HelpersKnownStep(acts: seq<Act>, s: State, step: Step)
    requires Enabled(acts, s, step) && HelpersKnown(acts, s)
    ensures HelpersKnown(acts, Apply(acts, s, step))
  {
    hide HelperSays, KeepStarted, OwnReplies, Apply;
    var t := Apply(acts, s, step);
    PcGrows(acts, s, step);
    KeepKnownStep(acts, s, step);
    TraceStep(acts, s, step);
    forall i | 0 <= i < |t.trace|
      ensures HelperSays(acts, t.pc, t.trace[i])
    {
      if i < |s.trace| {
        HelperSaysStays(acts, s.pc, s.trace[i], t.pc, t.trace[i]);
      } else {
        HelperSaysNew(acts, s, step);
      }
    }
  }

  lemma PcGrows(acts: seq<Act>, s: State, step: Step)
    requires Enabled(acts, s, step)
    ensures s.pc <= Apply(acts, s, step).pc <= s.pc + 1
  {
  }

  lemma KeepStartedStays(acts: seq<Act>, pc: nat, later: nat, message: string)
    requires pc <= later && KeepStarted(acts, pc, message)
    ensures KeepStarted(acts, later, message)
  {
  }

  lemma KeepKnownStep(acts: seq<Act>, s: State, step: Step)
    requires Enabled(acts, s, step) && KeepKnown(acts, s)
    ensures KeepKnown(acts, Apply(acts, s, step))
  {
    hide KeepStarted;
    var t := Apply(acts, s, step);
    forall message | KeepStarted(acts, s.pc, message)
      ensures KeepStarted(acts, t.pc, message)
    {
      PcGrows(acts, s, step);
      KeepStartedStays(acts, s.pc, t.pc, message);
    }
    if step == Advance && acts[s.pc].StartKeep? {
      KeepStartedNow(acts, s.pc);
    }
  }

  lemma KeepStartedNow(acts: seq<Act>, pc: nat)
    requires pc < |acts| && acts[pc].StartKeep?
    ensures KeepStarted(acts, pc + 1, acts[pc].message)
  {
  }

  lemma HelperSaysStays(acts: seq<Act>, pc: nat, a: Attempt, later: nat, b: Attempt)
    requires HelperSays(acts, pc, a) && pc <= later && b.sender == a.sender && b.reply == a.reply
    ensures HelperSays(acts, later, b)
  {
    hide KeepStarted;
    if a.sender == Keeper {
      KeepStartedStays(acts, pc, later, a.reply.message);
    }
  }

  lemma HelperSaysNew(acts: seq<Act>, s: State, step: Step)
    requires Enabled(acts, s, step) && KeepKnown(acts, s)
    ensures forall a :: a in Started(acts, s, step) ==> HelperSays(acts, Apply(acts, s, step).pc, a)
  {
    hide KeepStarted;
  }

  lemma {:induction false} KeeperSaidIgnoresOutcome(trace: seq<Attempt>, i: nat, outcome: Outcome)
    requires i < |trace|
    ensures KeeperSaid(trace[i := trace[i].(outcome := outcome)]) == KeeperSaid(trace)
  {
    var last := |trace| - 1;
    if i < last {
      KeeperSaidIgnoresOutcome(trace[..last], i, outcome);
      assert trace[i := trace[i].(outcome := outcome)][..last] == trace[..last][i := trace[i].(outcome := outcome)];
    } else {
      assert trace[i := trace[i].(outcome := outcome)][..last] == trace[..last];
    }
  }

  lemma KeeperSaidSnoc(trace: seq<Attempt>, a: Attempt)
    ensures KeeperSaid(trace + [a]) == KeeperSaid(trace) + if a.sender == Keeper then 1 else 0
  {
    assert (trace + [a])[..|trace|] == trace;
  }

  lemma KeeperSaidStep(acts: seq<Act>, s: State, step: Step)
    requires Enabled(acts, s, step)
    ensures KeeperSaid(Apply(acts, s, step).trace) == KeeperSaid(s.trace) + if step == KeepSay then 1 else 0
  {
    hide KeeperSaid;
    if Started(acts, s, step) != [] {
      KeeperSaidSnoc(s.trace, Started(acts, s, step)[0]);
    }
    match step
    case Sent(ok) => KeeperSaidIgnoresOutcome(s.trace, s.busy.attempt, if ok then Delivered else Failed);
    case Drained(ok) => KeeperSaidIgnoresOutcome(s.trace, s.busy.attempt, if ok then Delivered else Failed);
    case KeepSaid(ok) => KeeperSaidIgnoresOutcome(s.trace, s.keep.attempt, if ok then Delivered else Failed);
    case FlushSaid(ok) => KeeperSaidIgnoresOutcome(s.trace, s.flush.attempt, if ok then Delivered else Failed);
    case _ =>
  }

  lemma KeepsSnoc(acts: seq<Act>, k: nat)
    requires k < |acts|
    ensures Keeps(acts[..k + 1]) == Keeps(acts[..k]) + if acts[k].StartKeep? then 1 else 0
  {
    assert acts[..k + 1][..k] == acts[..k];
  }

  /** How a step moves the keepalive and the main goroutine past the start of one. */
  lemma KeepCountedStep(acts: seq<Act>, s: State, step: Step)
    requires Enabled(acts, s, step) && Paired(acts) && Placed(acts, s) && HelpersPlaced(acts, s)
    requires KeepKnown(acts, s) && KeepCounted(acts, s)
    ensures KeepCounted(acts, Apply(acts, s, step))
  {
    hide KeeperSaid, Keeps, Kept, KeepStarted, Begin, End;
    KeeperSaidStep(acts, s, step);
    if s.pc < |acts| {
      KeepsSnoc(acts, s.pc);
    }
  }

  /** No helper comes back once they are gone. */
  lemma {:induction false} QuietAt(acts: seq<Act>, f: nat, k: nat)
    requires QuietFrom(acts, f) && f <= k <= |acts|
    ensures CloseLogs in acts[..k] && !Kept(acts[..k])
    decreases k
  {
    if k > f {
      QuietAt(acts, f, k - 1);
      KeptSnoc(acts, k - 1);
    }
  }

  lemma LastWordStep(acts: seq<Act>, f: nat, s: State, step: Step)
    requires Enabled(acts, s, step) && Placed(acts, s) && HelpersPlaced(acts, s) && LastWord(acts, f, s)
    ensures LastWord(acts, f, Apply(acts, s, step))
  {
    hide OwnReplies, Kept, Begin, End, QuietFrom;
    TraceStep(acts, s, step);
    if QuietFrom(acts, f) && s.pc >= f {
      QuietAt(acts, f, s.pc);
      QuietFacts(acts, f);
    }
  }

  lemma QuietFacts(acts: seq<Act>, f: nat)
    requires QuietFrom(acts, f)
    ensures f < |acts| && acts[f].Send? && forall j :: f < j < |acts| ==> acts[j] == CloseLogs
  {
  }

  ghost predicate Inv(acts: seq<Act>, f: nat, s: State) {
    && Placed(acts, s) && HelpersPlaced(acts, s)
    && PendingInHand(s) && HandsOnOwn(s) && AttemptsSound(s) && LateTail(s)
    && OwnInOrder(acts, s) && LastWord(acts, f, s)
    && HelpersKnown(acts, s) && KeepCounted(acts, s)
  }

  lemma InvStep(acts: seq<Act>, f: nat, s: State, step: Step)
    requires Enabled(acts, s, step) && Paired(acts) && Inv(acts, f, s)
    ensures Inv(acts, f, Apply(acts, s, step))
  {
    hide Placed, HelpersPlaced, PendingInHand, HandsOnOwn, AttemptsSound, LateTail, OwnInOrder, LastWord,
         HelpersKnown, KeepCounted, Apply, Paired;
    PlacedStep(acts, s, step);
    HelpersPlacedStep(acts, s, step);
    PendingInHandStep(acts, s, step);
    HandsOnOwnStep(acts, s, step);
    AttemptsSoundStep(acts, s, step);
    LateTailStep(acts, s, step);
    OwnInOrderStep(acts, s, step);
    LastWordStep(acts, f, s, step);
    HelpersKnownStep(acts, s, step);
    KeepCountedOnce(acts, s, step);
  }

  lemma KeepCountedOnce(acts: seq<Act>, s: State, step: Step)
    requires Enabled(acts, s, step) && Paired(acts) && Placed(acts, s) && HelpersPlaced(acts, s)
    requires HelpersKnown(acts, s) && KeepCounted(acts, s)
    ensures KeepCounted(acts, Apply(acts, s, step))
  {
    hide Placed, HelpersPlaced, KeepCounted, Apply, Paired;
    KeepCountedStep(acts, s, step);
  }

  lemma InvStart(acts: seq<Act>, f: nat)
    ensures Inv(acts, f, START)
  {
  }

  /** Every state of every interleaving keeps the invariant. */
  lemma {:induction false} RunKeepsInv(acts: seq<Act>, f: nat, run: seq<Step>)
    requires Paired(acts) && After(acts, run).Some?
    ensures Inv(acts, f, After(acts, run).value)
  {
    hide Inv, Apply, Paired;
    if run == [] {
      InvStart(acts, f);
    } else {
      RunKeepsInv(acts, f, run[..|run| - 1]);
      InvStep(acts, f, After(acts, run[..|run| - 1]).value, run[|run| - 1]);
    }
  }

  // ---- The acts of runWork keep the helpers in their place ----

  ghost predicate Calm(acts: seq<Act>) {
    !Kept(acts) && Paired(acts)
  }

  lemma {:induction false} KeptJoin(a: seq<Act>, b: seq<Act>)
    requires !Kept(a)
    ensures Kept(a + b) == Kept(b)
  {
    if b == [] {
      assert a + b == a;
    } else {
      KeptJoin(a, b[..|b| - 1]);
      assert (a + b)[..|a + b| - 1] == a + b[..|b| - 1];
    }
  }

  lemma CalmJoin(a: seq<Act>, b: seq<Act>)
    requires Calm(a) && Calm(b)
    ensures Calm(a + b)
  {
    hide Kept;
    KeptJoin(a, b);
    forall k | 0 <= k < |a + b| && (a + b)[k].StartKeep?
      ensures !Kept((a + b)[..k])
    {
      if k < |a| {
        assert (a + b)[..k] == a[..k];
      } else {
        assert (a + b)[..k] == a + b[..k - |a|];
        KeptJoin(a, b[..k - |a|]);
      }
    }
  }

  lemma {:induction false} CalmWithoutKeeps(acts: seq<Act>)
    requires forall a :: a in acts ==> !a.StartKeep? && a != StopKeep
    ensures Calm(acts)
  {
    if acts != [] {
      CalmWithoutKeeps(acts[..|acts| - 1]);
    }
  }

  lemma CalmKeeping(message: string, stage: Stage)
    ensures Calm(Keeping(message, stage))
  {
    var acts := Keeping(message, stage);
    assert acts[..0] == [];
  }

  lemma CalmStages(o: Outcomes)
    ensures Calm(Stages(o))
  {
    hide Calm, Keeping, PlakletActs;
    CalmKeeping("fetching packages...", Packages);
    CalmKeeping("running pre-hook...", PreHook);
    CalmWithoutKeeps([CloseLogs]);
    CalmPlaklet(o);
    var rest := if o.preHook.Some? then [CloseLogs] else PlakletActs(o);
    CalmJoin(Keeping("running pre-hook...", PreHook), rest);
    CalmJoin(Keeping("fetching packages...", Packages),
             if o.packages.Some? then [CloseLogs] else Keeping("running pre-hook...", PreHook) + rest);
  }

  lemma CalmPlaklet(o: Outcomes)
    ensures Calm(PlakletActs(o))
  {
    hide Calm, Keeping, Sends, Passed, PostReport;
    var keep := Keeping("running post-hook...", PostHook);
    var a := [Enter(Plaklet)] + Sends(Passed(o));
    var c := Sends(PostReport(o)) + if HasResult(o) then [] else [CloseLogs];
    RepliesOfSends(Passed(o));
    RepliesOfSends(PostReport(o));
    CalmWithoutKeeps(a);
    CalmWithoutKeeps([CloseLogs]);
    CalmWithoutKeeps(c);
    CalmKeeping("running post-hook...", PostHook);
    CalmJoin(keep, [CloseLogs]);
    CalmJoin(a, keep + [CloseLogs]);
    CalmJoin(a + (keep + [CloseLogs]), c);
  }

  /** When the final reply is sent, the log is closed, no keepalive runs, and only Close is left to call. */
  lemma QuietAtTheEnd(o: Outcomes)
    ensures Paired(MainActs(o)) && QuietFrom(MainActs(o), |Stages(o)|)
    ensures MainActs(o)[|Stages(o)|] == Send(FinalReply(o))
  {
    hide Calm, Stages, FinalReply;
    var end := [Send(FinalReply(o)), CloseLogs];
    CalmStages(o);
    CalmWithoutKeeps(end);
    CalmJoin(Stages(o), end);
    CalmParts(Stages(o));
    CalmParts(MainActs(o));
    StagesCloseLogs(o);
    assert MainActs(o)[..|Stages(o)|] == Stages(o);
  }

  lemma CalmParts(acts: seq<Act>)
    requires Calm(acts)
    ensures !Kept(acts) && Paired(acts)
  {
  }

  lemma StagesCloseLogs(o: Outcomes)
    ensures CloseLogs in Stages(o)
  {
    hide Sends, Passed, PostReport, HasResult, Keeping;
    assert CloseLogs in PlakletActs(o) by {
      assert CloseLogs in Keeping("running post-hook...", PostHook) + [CloseLogs];
    }
  }

  // ---- What every interleaving guarantees ----

  predicate Closing(s: State) {
    s.closed || s.busy in {AwaitingFlusher, Draining} || s.busy.DrainSending?
  }

  /** No stage is entered after the log was closed. */
  ghost predicate EntersFirst(acts: seq<Act>) {
    forall i, j :: 0 <= i < j < |acts| && acts[i] == CloseLogs ==> !acts[j].Enter?
  }

  lemma EntersFirstJoin(a: seq<Act>, b: seq<Act>)
    requires EntersFirst(a) && EntersFirst(b)
    requires CloseLogs !in a || forall x :: x in b ==> !x.Enter?
    ensures EntersFirst(a + b)
  {
    assert forall k :: 0 <= k < |a| ==> (a + b)[k] == a[k];
    assert forall k :: |a| <= k < |a + b| ==> (a + b)[k] == b[k - |a|];
  }

  lemma EntersFirstPlaklet(o: Outcomes)
    ensures EntersFirst(PlakletActs(o))
  {
    hide Sends, Passed, PostReport, HasResult, EntersFirst;
    var a, b := [Enter(Plaklet)] + Sends(Passed(o)), Keeping("running post-hook...", PostHook) + [CloseLogs];
    var c := Sends(PostReport(o)) + if HasResult(o) then [] else [CloseLogs];
    RepliesOfSends(Passed(o));
    RepliesOfSends(PostReport(o));
    EntersFirstWithout(a);
    EntersFirstWithout(c);
    EntersFirstKeeping("running post-hook...", PostHook);
    EntersFirstJoin(a, b);
    EntersFirstJoin(a + b, c);
  }

  lemma EntersFirstWithout(acts: seq<Act>)
    requires CloseLogs !in acts || forall x :: x in acts ==> !x.Enter?
    ensures EntersFirst(acts)
  {
  }

  lemma EntersFirstKeeping(message: string, stage: Stage)
    ensures EntersFirst(Keeping(message, stage) + [CloseLogs]) && EntersFirst(Keeping(message, stage))
    ensures CloseLogs !in Keeping(message, stage)
  {
  }

  lemma EntersFirstMain(o: Outcomes)
    ensures EntersFirst(MainActs(o))
  {
    hide Keeping, PlakletActs, FinalReply, EntersFirst;
    var a, b := Keeping("fetching packages...", Packages), Keeping("running pre-hook...", PreHook);
    var rest := if o.preHook.Some? then [CloseLogs] else PlakletActs(o);
    EntersFirstKeeping("fetching packages...", Packages);
    EntersFirstKeeping("running pre-hook...", PreHook);
    EntersFirstWithout([CloseLogs]);
    EntersFirstWithout([Send(FinalReply(o)), CloseLogs]);
    EntersFirstPlaklet(o);
    EntersFirstJoin(b, rest);
    EntersFirstJoin(a, if o.packages.Some? then [CloseLogs] else b + rest);
    EntersFirstJoin(Stages(o), [Send(FinalReply(o)), CloseLogs]);
  }

  /** Once Close has begun no stage is left to enter: what writes to the log is over. */
  lemma NothingWritesAfterClose(o: Outcomes, run: seq<Step>, s: State, j: nat)
    requires After(MainActs(o), run) == Some(s) && Closing(s) && s.pc <= j < |MainActs(o)|
    ensures !MainActs(o)[j].Enter?
  {
    hide After, MainActs, Stages, QuietFrom, Paired, Kept, PendingInHand, HandsOnOwn, AttemptsSound, LateTail,
         OwnInOrder, LastWord;
    QuietAtTheEnd(o);
    RunKeepsInv(MainActs(o), |Stages(o)|, run);
    EntersFirstMain(o);
    if s.closed {
      var i :| 0 <= i < s.pc && MainActs(o)[..s.pc][i] == CloseLogs;
      assert MainActs(o)[i] == CloseLogs;
    }
  }

  /**
   From the moment the final reply is started it is the last attempt of all: the log flusher has
   stopped, every keepalive goroutine has been joined, and every other attempt has ended.
   */
  lemma FinalReplyIsLast(o: Outcomes, run: seq<Step>, s: State)
    requires After(MainActs(o), run) == Some(s) && Begun(s, |Stages(o)|)
    ensures s.trace != []
    ensures var last := s.trace[|s.trace| - 1];
            last.sender == Main && last.reply == FinalReply(o) && IsTerminal(last.reply)
    ensures s.flush == Stopped && s.keep == Over
    ensures forall i :: 0 <= i < |s.trace| - 1 ==> s.trace[i].outcome != Pending
  {
    hide After, MainActs, Stages, FinalReply, Kept, OwnInOrder, QuietFrom, Paired;
    var acts, f := MainActs(o), |Stages(o)|;
    QuietAtTheEnd(o);
    RunKeepsInv(acts, f, run);
    TerminalReplies(o);
    QuietAt(acts, f, s.pc);
    QuietFacts(acts, f);
  }

  /**
   Once started the final reply says how the work ended, canceled or not: a success exactly when
   every stage succeeded and plaklet's first terminal reply is one; and it carries plaklet's report
   and state whenever there is a result.
   */
  lemma FinalReplyTells(o: Outcomes, run: seq<Step>, s: State)
    requires After(MainActs(o), run) == Some(s) && Begun(s, |Stages(o)|)
    ensures s.trace != []
    ensures var told := s.trace[|s.trace| - 1].reply;
            && (told.typ == Success <==>
                  && o.packages.None? && o.preHook.None? && o.setup.None? && o.postHook.None?
                  && Held(o.stream).Some? && Held(o.stream).value.typ == Success)
            && (ReachesPlaklet(o) && HasResult(o) ==>
                  var result := Held(o.stream).value;
                  && told.report == result.report && told.state == result.state
                  && (told != result <==> result.typ == Success && o.postHook.Some?))
  {
    hide After, MainActs, Stages, FinalReply, Held, HasResult, ReachesPlaklet, Begun;
    FinalReplyIsLast(o, run, s);
    SuccessExactly(o);
    if ReachesPlaklet(o) && HasResult(o) {
      ResultRidesAlong(o);
    }
  }

  /**
   When runWork returns, max(1, k) terminal replies have been attempted, k of them decoded from
   plaklet; the main goroutine sent its replies in order; and all has ended.
   */
  lemma WorkEnds(o: Outcomes, run: seq<Step>, s: State)
    requires After(MainActs(o), run) == Some(s) && s.pc == |MainActs(o)|
    ensures Terminals(AllReplies(s.trace)) == if Decoded(o) > 1 then Decoded(o) else 1
    ensures OwnReplies(s.trace) == Replies(MainActs(o))
    ensures forall i :: 0 <= i < |s.trace| ==>
              s.trace[i].outcome != Pending && (IsTerminal(s.trace[i].reply) ==> s.trace[i].sender == Main)
    ensures s.flush == Stopped && s.keep == Over
  {
    hide After, MainActs, Stages, FinalReply, Kept, QuietFrom, Paired, Decoded, Terminals, Replies, OwnReplies,
         AllReplies;
    var acts, f := MainActs(o), |Stages(o)|;
    QuietAtTheEnd(o);
    RunKeepsInv(acts, f, run);
    QuietFacts(acts, f);
    FinalReplyIsLast(o, run, s);
    assert acts[..s.pc] == acts;
    assert OwnReplies(s.trace) == Replies(acts) + [] == Replies(acts);
    TerminalReplies(o);
    HelpersSendNoTerminals(s.trace);
  }

  lemma {:induction false} HelpersSendNoTerminals(trace: seq<Attempt>)
    requires forall i :: 0 <= i < |trace| && trace[i].sender != Main ==> !IsTerminal(trace[i].reply)
    ensures Terminals(AllReplies(trace)) == Terminals(OwnReplies(trace))
  {
    hide Terminals;
    if trace != [] {
      var init, last := trace[..|trace| - 1], trace[|trace| - 1];
      HelpersSendNoTerminals(init);
      TerminalsSnoc(AllReplies(init), last.reply);
      TerminalsSnoc(OwnReplies(init), last.reply);
      assert OwnReplies(init) + [] == OwnReplies(init);
    }
  }

  // ---- What the helpers say ----

  lemma {:induction false} KeepsJoin(a: seq<Act>, b: seq<Act>)
    ensures Keeps(a + b) == Keeps(a) + Keeps(b)
  {
    if b == [] {
      assert a + b == a;
    } else {
      KeepsJoin(a, b[..|b| - 1]);
      assert (a + b)[..|a + b| - 1] == a + b[..|b| - 1];
    }
  }

  lemma {:induction false} NoKeeps(acts: seq<Act>)
    requires forall a :: a in acts ==> !a.StartKeep?
    ensures Keeps(acts) == 0
  {
    if acts != [] {
      NoKeeps(acts[..|acts| - 1]);
    }
  }

  lemma KeepsOfKeeping(message: string, stage: Stage)
    ensures Keeps(Keeping(message, stage)) == 1
  {
    hide Keeps;
    var a, rest := StartKeep(message), [Enter(stage), StopKeep];
    OneKeep(a);
    NoKeeps(rest);
    KeepsJoin([a], rest);
    assert [a] + rest == Keeping(message, stage);
  }

  lemma OneKeep(a: Act)
    requires a.StartKeep?
    ensures Keeps([a]) == 1
  {
  }

  /** One keepalive for the packages, one for the pre-job hook, one for the post-job hook, as far as the work gets. */
  lemma KeepsExact(o: Outcomes)
    ensures Keeps(MainActs(o))
            == 1 + (if o.packages.None? then 1 else 0) + (if o.packages.None? && o.preHook.None? then 1 else 0)
  {
    hide Keeps, Keeping, PlakletActs, FinalReply;
    var a, b := Keeping("fetching packages...", Packages), Keeping("running pre-hook...", PreHook);
    var rest := if o.preHook.Some? then [CloseLogs] else PlakletActs(o);
    KeepsOfKeeping("fetching packages...", Packages);
    KeepsOfKeeping("running pre-hook...", PreHook);
    NoKeeps([CloseLogs]);
    NoKeeps([Send(FinalReply(o)), CloseLogs]);
    KeepsOfPlaklet(o);
    KeepsJoin(b, rest);
    KeepsJoin(a, if o.packages.Some? then [CloseLogs] else b + rest);
    KeepsJoin(Stages(o), [Send(FinalReply(o)), CloseLogs]);
  }

  lemma KeepsOfPlaklet(o: Outcomes)
    ensures Keeps(PlakletActs(o)) == 1
  {
    hide Keeps, Keeping, Sends, Passed, PostReport, HasResult;
    var keep, end := Keeping("running post-hook...", PostHook), if HasResult(o) then [] else [CloseLogs];
    RepliesOfSends(Passed(o));
    RepliesOfSends(PostReport(o));
    NoKeeps([Enter(Plaklet)] + Sends(Passed(o)));
    NoKeeps([CloseLogs]);
    NoKeeps(Sends(PostReport(o)) + end);
    KeepsOfKeeping("running post-hook...", PostHook);
    KeepsJoin(keep, [CloseLogs]);
    KeepsJoin([Enter(Plaklet)] + Sends(Passed(o)), keep + [CloseLogs]);
    KeepsJoin([Enter(Plaklet)] + Sends(Passed(o)) + (keep + [CloseLogs]), Sends(PostReport(o)) + end);
  }

  /**
   A keepalive says its own message, as information, and each of them once or twice by the end;
   the flusher and Close say pieces of the log and nothing else.
   */
  lemma HelpersSay(o: Outcomes, run: seq<Step>, s: State)
    requires After(MainActs(o), run) == Some(s)
    ensures forall i :: 0 <= i < |s.trace| && s.trace[i].sender == Keeper ==>
              && s.trace[i].reply == Reply(Info, s.trace[i].reply.message, "", "")
              && KeepStarted(MainActs(o), s.pc, s.trace[i].reply.message)
    ensures forall i :: 0 <= i < |s.trace| && s.trace[i].sender in {Flusher, Drainer} ==>
              s.trace[i].reply == Reply(Log, s.trace[i].reply.message, "", "")
    ensures s.pc == |MainActs(o)| ==> Keeps(MainActs(o)) <= KeeperSaid(s.trace) <= 2 * Keeps(MainActs(o))
  {
    hide After, MainActs, Stages, QuietFrom, Paired, PendingInHand, HandsOnOwn, AttemptsSound, LateTail, OwnInOrder,
         LastWord, Keeps, KeeperSaid, KeepStarted, KeepKnown, Placed, HelpersPlaced;
    QuietAtTheEnd(o);
    RunKeepsInv(MainActs(o), |Stages(o)|, run);
    assert forall i :: 0 <= i < |s.trace| ==> HelperSays(MainActs(o), s.pc, s.trace[i]);
    if s.pc == |MainActs(o)| {
      assert MainActs(o)[..s.pc] == MainActs(o);
      KeepGone(o, run, s);
    }
  }

  lemma KeepGone(o: Outcomes, run: seq<Step>, s: State)
    requires After(MainActs(o), run) == Some(s) && s.pc == |MainActs(o)|
    ensures s.keep == Over
  {
    hide After, MainActs, Decoded, Terminals, Replies, AllReplies, OwnReplies;
    WorkEnds(o, run, s);
  }

  // ---- Cancellation ----

  /** The work is canceled exactly if that has happened. */
  lemma {:induction false} CanceledExactly(acts: seq<Act>, run: seq<Step>, s: State)
    requires After(acts, run) == Some(s)
    ensures s.canceled <==> Cancel in run
  {
    hide Enabled, Apply;
    if run != [] {
      var init, step := run[..|run| - 1], run[|run| - 1];
      var before := After(acts, init).value;
      assert run == init + [step];
      CanceledExactly(acts, init, before);
      CanceledBy(acts, before, step);
    }
  }

  lemma CanceledBy(acts: seq<Act>, s: State, step: Step)
    requires Enabled(acts, s, step)
    ensures Apply(acts, s, step).canceled <==> s.canceled || step == Cancel
  {
  }

  lemma CanceledStep(acts: seq<Act>, s: State, step: Step)
    requires Enabled(acts, s, step)
    ensures var t := Apply(acts, s, step);
            && (s.canceled ==> t.canceled)
            && |s.trace| <= |t.trace|
            && (forall i :: 0 <= i < |s.trace| ==>
                  t.trace[i].late == s.trace[i].late && t.trace[i].reply == s.trace[i].reply)
            && (forall i :: |s.trace| <= i < |t.trace| ==> t.trace[i].late == s.canceled)
  {
  }

  /** All that is started after cancellation is late. */
  lemma {:induction false} LateFromThen(acts: seq<Act>, before: seq<Step>, s: State, more: seq<Step>, t: State)
    requires After(acts, before) == Some(s) && s.canceled && After(acts, before + more) == Some(t)
    ensures t.canceled && |s.trace| <= |t.trace|
    ensures forall i :: |s.trace| <= i < |t.trace| ==> t.trace[i].late
    ensures forall i :: 0 <= i < |s.trace| ==> t.trace[i].reply == s.trace[i].reply
  {
    hide Enabled, Apply;
    if more == [] {
      assert before + more == before;
    } else {
      var run, last := before + more, |more| - 1;
      assert run[..|run| - 1] == before + more[..last] && run[|run| - 1] == more[last];
      var u := After(acts, before + more[..last]).value;
      LateFromThen(acts, before, s, more[..last], u);
      CanceledStep(acts, u, more[last]);
    }
  }

  /** What is delivered was started before anything late, so a final reply that is delivered found nothing canceled. */
  lemma DeliveredBeforeLate(o: Outcomes, run: seq<Step>, s: State, i: nat, j: nat)
    requires After(MainActs(o), run) == Some(s) && i <= j < |s.trace| && s.trace[j].outcome == Delivered
    ensures !s.trace[i].late
  {
    hide After, MainActs, Stages, QuietFrom, Paired;
    QuietAtTheEnd(o);
    RunKeepsInv(MainActs(o), |Stages(o)|, run);
  }

  /**
   Nothing started after cancellation is delivered. If the work is canceled before its final reply
   is started, that reply fails, and unless plaklet emitted a second one the control plane gets no
   terminal reply at all.
   */
  lemma CanceledWorkUntold(o: Outcomes, before: seq<Step>, s: State, more: seq<Step>, t: State)
    requires After(MainActs(o), before) == Some(s) && s.canceled
    requires After(MainActs(o), before + more) == Some(t)
    ensures |s.trace| <= |t.trace|
    ensures forall i :: |s.trace| <= i < |t.trace| ==> t.trace[i].outcome != Delivered
    ensures !Begun(s, |Stages(o)|) && Begun(t, |Stages(o)|) ==>
              t.trace != [] && t.trace[|t.trace| - 1].outcome != Delivered
    ensures !Begun(s, |Stages(o)|) && t.pc == |MainActs(o)| ==>
              t.trace != [] && t.trace[|t.trace| - 1].outcome == Failed
    ensures !Begun(s, |Stages(o)|) && Decoded(o) <= 1 ==>
              forall i :: 0 <= i < |t.trace| && t.trace[i].outcome == Delivered ==> !IsTerminal(t.trace[i].reply)
  {
    hide After, MainActs, Stages, QuietFrom, Paired, Decoded, FinalReply, Terminals, AllReplies, OwnReplies, Replies,
         Placed, HelpersPlaced, PendingInHand, HandsOnOwn, OwnInOrder, LateTail;
    var acts, f := MainActs(o), |Stages(o)|;
    QuietAtTheEnd(o);
    RunKeepsInv(acts, f, before + more);
    LateFromThen(acts, before, s, more, t);
    QuietFacts(acts, f);
    BegunLater(acts, f, before, s, more, t);
    if !Begun(s, f) && t.pc == |acts| {
      FinalReplyIsLast(o, before + more, t);
      WorkEnds(o, before + more, t);
    }
    if !Begun(s, f) && Decoded(o) <= 1 {
      NothingTerminalYet(o, before, s);
    }
  }

  /** When plaklet emits one terminal reply at most, none is attempted before the final one. */
  lemma NothingTerminalYet(o: Outcomes, run: seq<Step>, s: State)
    requires After(MainActs(o), run) == Some(s) && !Begun(s, |Stages(o)|) && Decoded(o) <= 1
    ensures forall i :: 0 <= i < |s.trace| ==> !IsTerminal(s.trace[i].reply)
  {
    hide After, MainActs, Stages, QuietFrom, Paired, Decoded, FinalReply, Terminals, AllReplies, OwnReplies, Replies,
         IsTerminal, HelpersPlaced, PendingInHand, HandsOnOwn, LateTail, LastWord;
    var acts, f := MainActs(o), |Stages(o)|;
    QuietAtTheEnd(o);
    RunKeepsInv(acts, f, run);
    QuietFacts(acts, f);
    TerminalReplies(o);
    var k := if s.busy.Sending? then s.pc + 1 else s.pc;
    if s.busy.Sending? {
      KeptSnoc(acts, s.pc);
    }
    assert OwnReplies(s.trace) == Replies(acts[..k]) by {
      assert Replies(acts[..k]) + [] == Replies(acts[..k]);
    }
    SilentBeforeLast(acts, k, f);
    HelpersSendNoTerminals(s.trace);
    NoneTerminal(s.trace);
  }

  lemma PrefixTerminals(acts: seq<Act>, k: nat, m: nat)
    requires k <= m <= |acts|
    ensures Terminals(Replies(acts[..k])) <= Terminals(Replies(acts[..m]))
  {
    hide Terminals, Replies;
    assert acts[..m] == acts[..k] + acts[k..m];
    RepliesJoin(acts[..k], acts[k..m]);
    TerminalsJoin(Replies(acts[..k]), Replies(acts[k..m]));
  }

  lemma SilentBeforeLast(acts: seq<Act>, k: nat, f: nat)
    requires k <= f < |acts| && acts[f].Send? && IsTerminal(acts[f].reply) && Terminals(Replies(acts)) == 1
    ensures Terminals(Replies(acts[..k])) == 0
  {
    hide Terminals, Replies, IsTerminal;
    PrefixTerminals(acts, k, f);
    PrefixTerminals(acts, f + 1, |acts|);
    assert acts[..|acts|] == acts;
    KeptSnoc(acts, f);
    TerminalsSnoc(Replies(acts[..f]), acts[f].reply);
  }

  lemma BegunStep(acts: seq<Act>, f: nat, s: State, step: Step)
    requires Enabled(acts, s, step) && Placed(acts, s) && f < |acts| && acts[f].Send?
    requires !Begun(s, f) && Begun(Apply(acts, s, step), f)
    ensures |s.trace| < |Apply(acts, s, step).trace|
  {
  }

  /** What takes the main goroutine to its final reply starts an attempt. */
  lemma {:induction false} BegunLater(acts: seq<Act>, f: nat, before: seq<Step>, s: State, more: seq<Step>, t: State)
    requires Paired(acts) && f < |acts| && acts[f].Send?
    requires After(acts, before) == Some(s) && After(acts, before + more) == Some(t)
    ensures |s.trace| <= |t.trace|
    ensures !Begun(s, f) && Begun(t, f) ==> |s.trace| < |t.trace|
  {
    hide Enabled, Apply, Begun, Paired, HelpersPlaced, PendingInHand, HandsOnOwn, AttemptsSound, LateTail, OwnInOrder,
         LastWord, Placed;
    if more == [] {
      assert before + more == before;
    } else {
      var run, last := before + more, |more| - 1;
      assert run[..|run| - 1] == before + more[..last] && run[|run| - 1] == more[last];
      var u := After(acts, before + more[..last]).value;
      BegunLater(acts, f, before, s, more[..last], u);
      CanceledStep(acts, u, more[last]);
      if !Begun(u, f) && Begun(t, f) {
        RunKeepsInv(acts, f, before + more[..last]);
        BegunStep(acts, f, u, more[last]);
      }
    }
  }

  lemma {:induction false} NoneTerminal(trace: seq<Attempt>)
    requires Terminals(AllReplies(trace)) == 0
    ensures forall i :: 0 <= i < |trace| ==> !IsTerminal(trace[i].reply)
  {
    if trace != [] {
      var init, last := trace[..|trace| - 1], trace[|trace| - 1];
      TerminalsSnoc(AllReplies(init), last.reply);
      NoneTerminal(init);
    }
  }

  // ---- Getting to the end ----

  /** The step that gets the run on when the main goroutine waits, for a helper or for a reply. */
  function NextStep(s: State): Step {
    match s.busy
    case Free => Advance
    case Sending(_) => Sent(false)
    case Joining =>
      (match s.keep
       case Over => Joined
       case First(_) => KeepSay
       case Pausing(_) => KeepQuit
       case Talking(_, _) => KeepSaid(false))
    case AwaitingFlusher =>
      (match s.flush
       case Ticking => FlushQuit
       case Flushing(_) => FlushSaid(false)
       case Stopped => FlusherGone)
    case Draining => Closed
    case DrainSending(_) => Drained(false)
  }

  /** The steps a keepalive goroutine being joined has left. */
  function KeepRank(keep: Keep): nat {
    match keep
    case Over => 0
    case Pausing(_) => 1
    case Talking(_, next) => if next == Over then 1 else if next.Pausing? then 2 else 4
    case First(_) => 3
  }

  /** How far the current act is from its end. */
  function Rank(s: State): nat {
    match s.busy
    case Free => 20
    case Sending(_) => 0
    case Joining => KeepRank(s.keep)
    case AwaitingFlusher => (match s.flush case Ticking => 4 case Flushing(_) => 5 case Stopped => 3)
    case Draining => 1
    case DrainSending(_) => 2
  }

  /**
   The run never gets stuck before its end: joining the keepalive and stopping the flusher cannot
   deadlock, and the named step ends the current act or brings its end nearer.
   */
  lemma NeverStuck(o: Outcomes, run: seq<Step>, s: State)
    requires After(MainActs(o), run) == Some(s)
    ensures s.pc <= |MainActs(o)|
    ensures s.pc < |MainActs(o)| ==>
              && Enabled(MainActs(o), s, NextStep(s))
              && var t := Apply(MainActs(o), s, NextStep(s));
                 t.pc > s.pc || (t.pc == s.pc && Rank(t) < Rank(s))
  {
    hide After, MainActs, Stages, QuietFrom, Paired, Kept, Apply, Rank;
    QuietAtTheEnd(o);
    RunKeepsInv(MainActs(o), |Stages(o)|, run);
    if s.pc < |MainActs(o)| {
      NextStepGetsOn(MainActs(o), s);
    }
  }

  lemma NextStepGetsOn(acts: seq<Act>, s: State)
    requires Enabled(acts, s, NextStep(s)) && HandsOnOwn(s)
    ensures var t := Apply(acts, s, NextStep(s));
            t.pc > s.pc || (t.pc == s.pc && Rank(t) < Rank(s))
  {
  }

  lemma AfterSnoc(acts: seq<Act>, run: seq<Step>, s: State, step: Step)
    requires After(acts, run) == Some(s) && Enabled(acts, s, step)
    ensures After(acts, run + [step]) == Some(Apply(acts, s, step))
  {
    assert (run + [step])[..|run|] == run;
  }

  /** From every state of every run the work can be brought to its end, even if every reply fails from there. */
  lemma {:induction false} EndReachable(o: Outcomes, run: seq<Step>, s: State) returns (more: seq<Step>, t: State)
    requires After(MainActs(o), run) == Some(s)
    ensures After(MainActs(o), run + more) == Some(t) && t.pc == |MainActs(o)|
    decreases |MainActs(o)| - s.pc, Rank(s)
  {
    hide After, MainActs, Apply, Enabled, Rank;
    NeverStuck(o, run, s);
    if s.pc == |MainActs(o)| {
      more, t := [], s;
      assert run + more == run;
    } else {
      var step := NextStep(s);
      AfterSnoc(MainActs(o), run, s, step);
      more, t := EndReachable(o, run + [step], Apply(MainActs(o), s, step));
      Associate(run, [step], more);
      more := [step] + more;
    }
  }

  // ---- When the control plane can still be told ----

  /** The run has come to its final reply, and delivered it. */
  ghost predicate FinalTold(o: Outcomes, run: seq<Step>) {
    After(MainActs(o), run).Some?
    && var t := After(MainActs(o), run).value;
       && Begun(t, |Stages(o)|) && t.trace != []
       && t.trace[|t.trace| - 1].reply == FinalReply(o) && t.trace[|t.trace| - 1].outcome == Delivered
  }

  /** Some terminal reply has been delivered. */
  ghost predicate TerminalTold(o: Outcomes, run: seq<Step>) {
    After(MainActs(o), run).Some?
    && var t := After(MainActs(o), run).value;
       exists i :: 0 <= i < |t.trace| && IsTerminal(t.trace[i].reply) && t.trace[i].outcome == Delivered
  }

  lemma NextStepStaysBefore(acts: seq<Act>, f: nat, s: State)
    requires Enabled(acts, s, NextStep(s)) && s.pc < f
    ensures var t := Apply(acts, s, NextStep(s));
            t.pc <= f && !Begun(t, f) && t.canceled == s.canceled
  {
  }

  lemma DeliverSend(acts: seq<Act>, run: seq<Step>, s: State) returns (t: State)
    requires After(acts, run) == Some(s) && s.busy == Free && s.pc < |acts| && acts[s.pc].Send? && !s.canceled
    ensures After(acts, run + [Advance, Sent(true)]) == Some(t)
    ensures t.pc == s.pc + 1 && t.trace == s.trace + [Attempt(Main, acts[s.pc].reply, false, Delivered)]
  {
    hide After;
    var sending := Apply(acts, s, Advance);
    t := Apply(acts, sending, Sent(true));
    AfterSnoc(acts, run, s, Advance);
    AfterSnoc(acts, run + [Advance], sending, Sent(true));
    Associate(run, [Advance], [Sent(true)]);
    assert [Advance] + [Sent(true)] == [Advance, Sent(true)];
  }

  /** A work not canceled can be brought to its final reply, and that reply delivered, whatever else fails. */
  lemma {:induction false} CanTellFinal(o: Outcomes, run: seq<Step>, s: State) returns (more: seq<Step>)
    requires After(MainActs(o), run) == Some(s) && !s.canceled && !Begun(s, |Stages(o)|)
    ensures FinalTold(o, run + more)
    decreases |Stages(o)| - s.pc, Rank(s)
  {
    hide After, MainActs, Stages, FinalReply, QuietFrom, Paired, Apply, Enabled, Rank, NextStep, HelpersPlaced,
         PendingInHand, HandsOnOwn, AttemptsSound, LateTail, OwnInOrder, LastWord;
    var acts, f := MainActs(o), |Stages(o)|;
    QuietAtTheEnd(o);
    QuietFacts(acts, f);
    RunKeepsInv(acts, f, run);
    if s.pc == f {
      more := [Advance, Sent(true)];
      var t := DeliverSend(acts, run, s);
    } else {
      var step := NextStep(s);
      NeverStuck(o, run, s);
      NextStepStaysBefore(acts, f, s);
      AfterSnoc(acts, run, s, step);
      more := CanTellFinal(o, run + [step], Apply(acts, s, step));
      Associate(run, [step], more);
      more := [step] + more;
    }
  }

  /**
   Before the final reply is started it can still reach the control plane exactly if the work is not
   canceled; and so can any terminal reply, when plaklet emits one at most.
   */
  lemma ToldExactly(o: Outcomes, run: seq<Step>, s: State)
    requires After(MainActs(o), run) == Some(s) && !Begun(s, |Stages(o)|)
    ensures (exists more :: FinalTold(o, run + more)) <==> !s.canceled
    ensures Decoded(o) <= 1 ==> ((exists more :: TerminalTold(o, run + more)) <==> !s.canceled)
  {
    hide MainActs, Stages, After, Decoded, Begun, FinalReply, IsTerminal;
    if s.canceled {
      forall more: seq<Step>
        ensures !FinalTold(o, run + more)
        ensures Decoded(o) <= 1 ==> !TerminalTold(o, run + more)
      {
        if After(MainActs(o), run + more).Some? {
          CanceledWorkUntold(o, run, s, more, After(MainActs(o), run + more).value);
        }
      }
    } else {
      var more := CanTellFinal(o, run, s);
      TerminalReplies(o);
      assert TerminalTold(o, run + more);
    }
  }

  /** Whatever the outcomes, success included, a work canceled at once can end unknown to the control plane. */
  lemma UntoldWork(o: Outcomes) returns (run: seq<Step>, t: State)
    requires Decoded(o) <= 1
    ensures After(MainActs(o), run) == Some(t) && t.pc == |MainActs(o)|
    ensures forall i :: 0 <= i < |t.trace| && t.trace[i].outcome == Delivered ==> !IsTerminal(t.trace[i].reply)
  {
    hide MainActs, Stages, Decoded, After;
    NothingDone(MainActs(o));
    AfterSnoc(MainActs(o), [], START, Cancel);
    var more;
    more, t := EndReachable(o, [] + [Cancel], START.(canceled := true));
    CanceledWorkUntold(o, [] + [Cancel], START.(canceled := true), more, t);
    run := [] + [Cancel] + more;
  }

  lemma NothingDone(acts: seq<Act>)
    ensures After(acts, []) == Some(START)
  {
  }
}
