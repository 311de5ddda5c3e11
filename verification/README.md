# plakar-edge: a verified model of the edge daemon's concurrent core

The project models the four state machines of the edge daemon and its tag parser, and proves what
they guarantee over every run and every interleaving.

- `Utf8.dfy`, `LogCut.dfy`, `LogStream.dfy`: the **log streamer**. A bounded buffer is fed by writes and
  drained by one flusher, which cuts it into chunks at newlines or, failing that, at UTF-8 boundaries. Each
  chunk is JSON-encoded on its own, so each is decoded on its own: `Lossy` is that decoding, one U+FFFD for
  every byte that is part of no character, and `Char` the grammar of section 4 of RFC 3629. The class
  `LogStreamer` has the code's methods; `State`, `Step` and `After` are the protocol with one step per
  critical section, so that writes fall anywhere between the choice of a chunk and the outcome of its reply.
  The object carries the run that led to it, so all that is proved of runs holds of it. The chunk size is any
  number from 4 on and the buffer limit any number; `LIMITS` are the real ones.
- `PollLoop.dfy`: the **poll loop and its workers**. The class `Captured` holds the variables the goroutines
  share, with one method per critical section; `State`, `Step` and `After` are the protocol, with any number
  of workers and the slot decrement as a step of its own. Every poll keeps the slots it advertised, why its
  context was canceled and its answer; every worker keeps how often its cancel function left the map and was
  called.
- `RunWork.dfy`: **one run of work**. `SpawnPlaklet` and `RunWork` are the code's loop and stages, for any
  outcome of the stages and any reply stream of plaklet; their result is the sequence of acts of the main
  goroutine. `State`, `Step` and `After` run these acts against the keepalive goroutine and the log flusher,
  whose replies come in between; `trace` holds every reply attempted, by whomever. A reply is delivered or
  fails, and one started after cancellation fails.
- `TailBuffer.dfy`: the **bounded tail** of a hook's output, and the message made of it.
- `Tags.dfy`, with `Text.dfy` for trimming: **parsing tags** and dropping duplicates in place.
- `Options.dfy` and `Sequences.dfy` hold what all of them use.

## Hypotheses

The code relies on these and checks none of them at run time. They are fields of the states, so each theorem
names the ones it needs; `LogStream.FlagsExact` and `PollLoop.HypothesesExact` say what each field stands for.

- Nothing is written to the log once the final flush has begun. Three flags tell how much of this a theorem
  needs: `overrun`, no bytes accepted after the cut that takes the whole buffer and so ends the stream, for the
  text and its well-formedness; `missed`, no write after the marker was taken or the flush was over, for the
  gap marking at the end; `late`, no write at all after the flush began, for the bound on its replies. Bytes
  accepted after the stream was ended tear the text exactly when they complete a character it ended in
  (`OverrunTearsExactly`); `LateWriteTearsText` is a run where they do. runWork keeps its side of the promise: once
  Close has begun it enters no stage any more (`NothingWritesAfterClose`), so `late` is false as long as no stage
  writes after it has returned.
- The control plane sends work only to polls that advertised a slot (`honoured`). `UnaskedWorkOverbooks`
  shows the counter at -1 otherwise.
- No work is dispatched with the id of a worker still there (`distinct`). `SharedIdCancelsOther` shows the
  end of one work canceling another otherwise.
- A shutdown cancels the poll in flight in the same step as the daemon's context.

## What the code does not guarantee

- run.go:52-53 says that runWork always sends exactly one terminal reply, so that the control plane's forwarder
  unblocks. It sends max(1, k), where k counts the terminal replies decoded from plaklet, since spawnPlaklet
  forwards all but the first (run.go:311-315): exactly one when k is at most 1 (`OneTerminalExactly`), and
  `SecondTerminalForwarded` is a stream with two.
- Nor does the terminal reply always get through: it is sent on the work's own context, so for a work canceled
  before its final reply is started that reply fails, and with k at most 1 the control plane gets no terminal
  reply at all (`CanceledWorkUntold`). `UntoldWork` has such a run for all outcomes, success included. Cancellation
  is the exact condition: up to then the final reply can still get through (`ToldExactly`).
- logstream.go:104 marks the log after a failed reply so that the gap is not silent. When the reply that failed
  is one of the final flush there is no flush left to send the mark: the log has a gap and no marker at its end
  exactly then (`ClosedLog`); `SilentGap` is such a run.
- A cancel function has left the map exactly once when its worker's slot is released, but it need not have
  been called: the loop may have taken it for a cancel item and be about to call it (main.go:480-487).
  `CanceledExactlyOnce` has the exact condition, `ReleasedBeforeCanceled` a run that ends there.
- The two cuts of a failed hook's output count bytes (hooks.go:103-119), so a well-formed output can give a
  message that is not (`MessageTorn`): `SuffixWellFormed` has the exact condition, and an output that neither cut shortens
  never does (`ShortMessageFormed`).

## Model

| member | source | states |
|---|---|---|
| Utf8.CharLenIsGrammar | logstream.go:146-147 | the decoder takes n bytes exactly when the RFC 3629 grammar has an n-byte character there |
| Utf8.FullRuneIsGrammar | logstream.go:147 | FullRune is false exactly on the empty string and the proper prefixes of characters |
| Utf8.LossyByGrammar | client.go:141 | decoding takes a character for its code point and any other byte for one U+FFFD |
| Utf8.LossySplits | client.go:141 | two strings decoded apart read as the two together, if the first is settled or the second begins with a first byte |
| Utf8.WellFormedSplits | logstream.go:143-154 | such a cut of well-formed text leaves well-formed text on both sides |
| Utf8.LossyInjective | client.go:141 | two well-formed strings that decode alike are equal |
| LogCut.LastIndexByte | logstream.go:129 | the loop finds the last position of the byte, or -1 |
| LogCut.RuneCut | logstream.go:143-154 | the cut is within the last three bytes of the window, so no chunk is empty |
| LogCut.RuneBoundary | logstream.go:144-154 | the loop finds where the window's incomplete last character begins, or the window's end |
| LogCut.RuneCutIsGreatestBoundary | logstream.go:143-154 | its result is a decoding boundary for every continuation of the buffer, and no later position is |
| LogCut.CutAt | logstream.go:126-136 | a chunk is no longer than chunkMax or the buffer, and a final one is never empty |
| LogCut.CutLength | logstream.go:126-136 | the choice of a chunk's end: all, the last newline, nothing, or the last boundary |
| LogCut.CutExactly | logstream.go:126-136 | where the cut is, from the buffer alone: the whole buffer, the last newline of the window, nothing, or the last decoding boundary of a full window |
| LogCut.CutSplits | logstream.go:126-140 | every cut but the one by which the final flush takes the whole buffer is a boundary of the buffer and of all its extensions, for text and for well-formedness |
| LogCut.TearsExactly | logstream.go:143-154 | text cut anywhere reads differently in two parts exactly when the cut is inside a character that the second part completes |
| LogCut.CutShape | logstream.go:126-136 | every other chunk ends with a newline, or has none and at least chunkMax - 3 bytes |
| LogCut.FlushConserves | logstream.go:97-112 | the chunks of a flush and what it leaves are the buffer, in order |
| LogCut.PeriodicCut | logstream.go:94-97 | a periodic chunk has 1 to chunkMax bytes and ends with a newline or comes from a window without one; none is taken only of a short unfinished line |
| LogCut.PeriodicFlush | logstream.go:94-112 | a periodic flush leaves less than chunkMax bytes and no newline, and all its chunks are of that kind |
| LogCut.FinalFlush | logstream.go:86-92 | a final flush leaves nothing |
| LogCut.TwoChunks | logstream.go:126-136 | two chunks in a row carry at least chunkMax - 2 bytes, or the second empties the buffer |
| LogCut.FinalFlushBound | logstream.go:97-141 | a final flush of L bytes takes at most 2 * (L / (chunkMax - 2)) + 2 chunks |
| LogCut.PeriodicTwoChunks | logstream.go:126-136 | two chunks in a row of a periodic flush carry at least chunkMax - 2 bytes |
| LogCut.PeriodicFlushBound | logstream.go:97-141 | so a periodic flush of L bytes takes at most 2 * (L / (chunkMax - 2)) + 1 chunks |
| LogStream.LogStreamer.Write | logstream.go:56-67 | a write that fits is kept whole, any other is dropped whole and marks the log truncated |
| LogStream.LogStreamer.Next | logstream.go:114-141 | takes the next chunk, the marker when a final flush finds only the flag, or nothing |
| LogStream.LogStreamer.Settle | logstream.go:103-110 | a failed reply marks the log truncated and ends the flush |
| LogStream.LogStreamer.Flush | logstream.go:97-112 | terminates; sends its plan up to the first failed reply, loses no byte it has not sent, leaves the flag set exactly for a failure or a gap not marked; without failure it ends empty, or with one short unfinished line |
| LogStream.LogStreamer.Close | logstream.go:86-92 | the final flush the first time, nothing after |
| LogStream.InvStep | logstream.go:56-141 | each critical section keeps conservation, decoding, well-formedness, the shape of chunks, gap marking, marker placement and the final flush's plan |
| LogStream.RunKeepsInv | logstream.go:56-141 | so does every run, with writes anywhere |
| LogStream.LogConservation | logstream.go:56-67 | accepted writes are the bytes sent in order and then the buffer, within its limit; only the reply in flight is undecided; chunks have 1 to chunkMax bytes |
| LogStream.TextExact | logstream.go:114-154 | the chunks, each decoded on its own, and the buffer read as the whole accepted stream, valid UTF-8 or not, with writes anywhere up to the cut that ends the stream |
| LogStream.OverrunTearsExactly | logstream.go:83-128 | the first bytes accepted after that cut change the text exactly when they complete a character the stream ended in |
| LogStream.WellFormedChunks | logstream.go:114-154 | while the stream can still become well-formed every chunk is, and the buffer can be completed; of an ended stream, when it is well-formed itself |
| LogStream.LineChunks | logstream.go:94-97 | in every run a periodic chunk ends with a newline, or is a newline-free piece of at least chunkMax - 3 bytes; a final one too, unless it ended the stream |
| LogStream.GapsExact | logstream.go:61-110 | the flag is set, or a marker delivered or in flight, exactly when a write was dropped or a reply failed |
| LogStream.ClosedLog | logstream.go:83-124 | a closed log has a gap without a marker at its end exactly when a final reply failed; else it ends with the delivered marker exactly when it has a gap; no earlier reply is a marker |
| LogStream.CompleteLog | logstream.go:83-112 | while there is no gap, the control plane's text and the buffer read as all that was written, and there is no marker; once closed, the buffer is empty |
| LogStream.WellFormedLogRecovered | logstream.go:83-112 | closed without a gap, well-formed output can be recovered byte for byte |
| LogStream.FinalFlushReplies | logstream.go:97-141 | in every run the final flush sends at most 2 * (L / (chunkMax - 2)) + 2 chunks and one marker |
| LogStream.FinalFlushIsShort | logstream.go:16-24 | with the real limits, at most 131 replies |
| LogStream.RealLimits | logstream.go:16-24 | an empty log keeps exactly the writes of at most 4 MiB, and one final reply takes a buffer whole exactly up to 64 KiB |
| LogStream.FlagsExact | logstream.go:56-141 | in every run each of the flags ended, late, overrun and missed is set exactly if what it stands for happened, and the final flush has begun exactly after Close |
| LogStream.LateWriteTearsText | logstream.go:83-85 | a run in which a write after the stream was ended tears a character |
| LogStream.SilentGap | logstream.go:102-110 | a run without late writes in which a failed final reply leaves a gap and no marker |
| PollLoop.Captured.constructor | main.go:422-433 | max(MaxParallel, 1) slots, no cancel function, no interrupt |
| PollLoop.Captured.Prepare | main.go:441-444 | the slots are read, all of them, and the interrupt set in one critical section |
| PollLoop.Captured.Clear | main.go:446-448 | the interrupt is cleared, nothing else changes |
| PollLoop.Captured.Take | main.go:480-483 | a cancel function is looked up and leaves the map |
| PollLoop.Captured.Insert | main.go:495-497 | a cancel function enters the map under its work's id |
| PollLoop.Captured.Acquire | main.go:493 | the counter goes down by one |
| PollLoop.Captured.Release | main.go:509-513 | the counter goes up by one, and the poll in flight is to be interrupted when it becomes 1 |
| PollLoop.Captured.Perform | main.go:435-515 | the protocol's steps change what is shared as these critical sections do |
| PollLoop.InvStep | main.go:435-515 | each step of the loop, a worker or a shutdown keeps the invariant |
| PollLoop.RunKeepsInv | main.go:411-516 | so does every run, with any number of workers |
| PollLoop.WakeupNotLost | main.go:430-448 | a poll in flight that advertised no slot, when there is one, is canceled already, interrupted or stopped; after a shutdown so is any poll in flight |
| PollLoop.AdvertisesFreeSlots | main.go:441-449 | what the poll in flight advertised and the slots released since are the slots free now |
| PollLoop.InterruptHitsOnlyOpenPoll | main.go:509-513 | an interrupt reaches only the poll in flight, when the counter becomes 1, and only if it advertised no slot |
| PollLoop.RetryAdvertisesSlot | main.go:450-478 | after an interrupted poll that failed, had no work or brought a cancel item, the next one advertises a slot |
| PollLoop.BacksOffExactly | main.go:450-478 | the loop backs off exactly from a poll that failed without an interrupt or a shutdown, and has waited before the next poll exactly then |
| PollLoop.EndsOnShutdownOnly | main.go:435-475 | the loop ends only after a shutdown |
| PollLoop.HypothesesExact | main.go:406-513 | the two hypotheses hold of a run exactly if no work came to a poll without a slot and none started under the id of one still there |
| PollLoop.EveryItemDispatched | main.go:450-498 | each work item received gets one worker, in order, even from an interrupted poll or during a shutdown |
| PollLoop.EveryCancelItemLookedUp | main.go:450-491 | each cancel item received leads to a lookup of its id, in order, even from an interrupted poll or during a shutdown |
| PollLoop.SlotConservation | main.go:428-514 | counter plus unreleased slots is the larger of MaxParallel and 1, never below what the poll in flight advertised; under the contract it is not negative and no more works than that overlap |
| PollLoop.CanceledAtMostOnce | main.go:479-506 | a cancel function leaves the map at most once and is called at most once, whatever the ids |
| PollLoop.CanceledExactlyOnce | main.go:479-506 | with distinct ids, a released worker's has left exactly once and has been called, unless the loop is just about to call it |
| PollLoop.CancelItemIsNarrow | main.go:479-491 | a cancel item changes only the work it names, takes that entry from the map, leaves every other as it is, and changes no slot |
| PollLoop.CleanShutdown | main.go:422-428 | when the loop returns all workers are done, the map is empty, whatever the ids, and every slot is back |
| PollLoop.DrainEnds | main.go:425-426 | the wait at the end never hangs on the protocol: some step is possible, and each brings the return nearer |
| PollLoop.ShutdownDrains | main.go:435-478 | after a shutdown no step takes the loop further from that wait, and its own next step is possible and brings it nearer |
| PollLoop.ReturnReachable | main.go:422-516 | from every state of every run a shutdown can bring the loop to its return |
| PollLoop.ReleasedBeforeCanceled | main.go:480-487 | a run in which a work's slot is released before its cancel function, already taken, is called |
| PollLoop.SharedIdCancelsOther | main.go:500-506 | a run in which two works of one id make the end of the first cancel the second |
| PollLoop.UnaskedWorkOverbooks | main.go:493 | a run in which work sent to a poll without a slot drives the counter to -1 |
| RunWork.FirstTerminal | run.go:311-314 | the position of the first terminal reply |
| RunWork.SpawnPlaklet | run.go:207-331 | what is forwarded is the decoded stream with exactly its first terminal reply taken out, which is returned; an error exactly when setup failed or there is none |
| RunWork.ForwardedTerminals | run.go:311-315 | exactly one terminal reply is held back, if there is any |
| RunWork.RunPlaklet | run.go:97-151 | plaklet, its replies, the post-job hook, the closed log, and then what ends the work |
| RunWork.RunWork | run.go:54-152 | the stages in order, each within its keepalive, the final reply, and the deferred Close |
| RunWork.MainReplies | run.go:54-152 | the main goroutine's replies: plaklet's, a report of the post-job hook when the work failed already, the final one |
| RunWork.MainRepliesExact | run.go:54-152 | the same from the outcomes alone, with the report's text and when it is sent |
| RunWork.StagesInOrder | run.go:76-112 | packages, pre-job hook, plaklet and post-job hook are entered in this order and never twice, all but plaklet within a keepalive that names them |
| RunWork.PlakletInPlace | run.go:97-112 | nothing is said before plaklet; its replies follow it, all that is forwarded and in order; then come the post-job hook in its keepalive and the closing of the log |
| RunWork.TerminalReplies | run.go:49-53 | max(1, k) of them are terminal, the last of all among them |
| RunWork.OneTerminalExactly | run.go:52-53 | exactly one is terminal exactly when plaklet emits one at most |
| RunWork.SecondTerminalForwarded | run.go:311-315 | a stream whose second terminal reply gets through, before the first |
| RunWork.SuccessExactly | run.go:76-151 | the work ends as a success exactly when every stage succeeds and plaklet's first terminal reply is one |
| RunWork.ResultRidesAlong | run.go:125-146 | plaklet's report and state reach the control plane unchanged; its result is replaced exactly for a success with a failed post-job hook |
| RunWork.FinalReplyExact | run.go:76-152 | the whole final reply from the outcomes alone: the text of the first failed stage, or plaklet's result, turned into a failure by a failed post-job hook |
| RunWork.StagesEntered | run.go:86-112 | the pre-job hook runs exactly after the packages are there, plaklet and the post-job hook exactly after the pre-job hook succeeded |
| RunWork.QuietAtTheEnd | run.go:58-151 | before the final reply the log is closed and every keepalive joined, and after it only Close is called |
| RunWork.NothingWritesAfterClose | run.go:58-61 | in every run, once Close has begun no stage that writes to the log is entered any more |
| RunWork.InvStep | run.go:30-152 | each step of the main goroutine, the keepalive or the flusher keeps the invariant |
| RunWork.RunKeepsInv | run.go:30-152 | so does every interleaving |
| RunWork.FinalReplyIsLast | run.go:49-53 | once started the final reply is the last attempt of any kind: flusher stopped, keepalives joined, every other attempt ended |
| RunWork.FinalReplyTells | run.go:76-151 | in every run, canceled or not, that reply is a success exactly when every stage succeeded, and it carries plaklet's report and state |
| RunWork.WorkEnds | run.go:54-152 | at the end max(1, k) terminal replies have been attempted by anyone, all by the main goroutine, its replies in order, and all attempts have ended |
| RunWork.DeliveredBeforeLate | run.go:70-74 | every reply delivered was started before the first one started after cancellation; a delivered final reply found nothing canceled |
| RunWork.CanceledWorkUntold | run.go:49-74 | nothing started after cancellation is delivered; a work canceled before its final reply is started has that reply fail, and never gets a terminal reply through when plaklet emits one at most |
| RunWork.ToldExactly | run.go:49-152 | before the final reply is started it can still be delivered exactly if the work is not canceled; so can any terminal reply, when plaklet emits one at most |
| RunWork.NothingTerminalYet | run.go:49-53 | when plaklet emits one terminal reply at most, nobody attempts any before the final one |
| RunWork.CanceledExactly | run.go:54-74 | the context is canceled exactly if a cancellation has happened |
| RunWork.HelpersSay | run.go:30-47 | a keepalive's replies are its own message as information, once or twice each by the end; the flusher and Close send log replies only |
| RunWork.KeepsExact | run.go:76-110 | how many keepalives a work has |
| RunWork.UntoldWork | run.go:52-53 | for all outcomes a finished run without a delivered terminal reply |
| RunWork.NeverStuck | run.go:44-47 | joining a keepalive and stopping the flusher cannot deadlock: before the end there is a step that ends the current act or lowers its rank |
| RunWork.EndReachable | run.go:54-152 | so the end can be reached from every state of every interleaving, even if every reply fails |
| TailBuffer.Tail.Write | hooks.go:95-101 | the buffer ends what was written and stays within 2 * max bytes; copying has cost at most a byte for each byte no longer held |
| TailBuffer.Tail.Bytes | hooks.go:103-108 | the last max bytes written, or all |
| TailBuffer.OutputTail | hooks.go:112-122 | the trimmed output, its last 512 bytes when it is longer |
| TailBuffer.TailMessageBounded | hooks.go:110-122 | the suffix has at most 517 bytes, is empty exactly for a blank output and ends as the output does |
| TailBuffer.TailMessageExact | hooks.go:112-122 | the message byte by byte: a colon and a space, three dots when it is cut, and the last 512 bytes of the trimmed output |
| TailBuffer.FailureSuffix | hooks.go:77-84 | whatever writes the output comes in, the suffix is that of its last 4096 bytes |
| TailBuffer.CutSuffix | hooks.go:103-119 | the end of well-formed output is well-formed exactly when it begins with a first byte |
| TailBuffer.SuffixWellFormed | hooks.go:103-122 | of well-formed output the message is well-formed exactly when the part shown is empty or begins with a first byte |
| TailBuffer.ShortMessageFormed | hooks.go:103-122 | well-formed output of at most 4096 bytes that trims to at most 512 always gives a well-formed message |
| TailBuffer.MessageTorn | hooks.go:117-120 | a well-formed output of 513 bytes whose message is not |
| Text.TrimExact | tags.go:19 | TrimSpace takes off spaces, nothing else, until none is left at either end |
| Text.SpacesTrimAway | tags.go:19-22 | of nothing but spaces nothing is left |
| Text.SpaceIsUnicode | tags.go:19 | what is trimmed are the characters with the Unicode property White_Space |
| Tags.SplitExact | tags.go:16 | the parts hold no comma and, joined by commas, are the input |
| Tags.ParseTags | tags.go:12-29 | the trimmed parts that are not empty, in order |
| Tags.TagsJoin | tags.go:33 | parsing distributes over the joining comma |
| Tags.SingleTag | tags.go:16-24 | a list without a comma is one tag: the input without the spaces at its ends, if anything is left |
| Tags.BlankIsNoTag | tags.go:19-22 | nothing but spaces is no tag |
| Tags.FirstOccurrencesExact | tags.go:34-43 | each tag once, in the order of first occurrence |
| Tags.DropDuplicates | tags.go:34-43 | the in-place filter leaves the first occurrences, having read every element before overwriting it |
| Tags.EdgeTags | tags.go:32-44 | the first occurrences among the tags of the flag and then those of the environment |

## Left out

- HTTP, JSON and ids in client.go and protocol.go: a poll or reply has any outcome; ids are numbers; `Lossy` stands for the JSON string encoding of invalid bytes, which is part of Go's library.
- PollLoop.Captured: the loop and its goroutines are steps of the state machine, in any order, and not one Dafny loop; Perform ties the two together.
- The two fatal exits (main.go:463-466, main.go:528): they end the process without waiting for workers, so CleanShutdown is about returns only.
- The one-minute kill of plaklet, the hooks' time limit, the 15 seconds of keepAlive, the ticker and the backoff: timers fire at any moment or never.
- RunWork.RunWork: how long a stage takes and what it writes to the log; a stage has an outcome, and the log flusher and Close send log replies of any content, any number of times. How many and which is the log streamer's part.
- keepAlive and Stop: the phases of a goroutine in the state machine of `RunWork.dfy`, and not a class.
- RunWork.NeverStuck, RunWork.EndReachable: a step towards the end exists and leads there; that the scheduler takes it is not modelled.
- ensurePackages, FetchPackage, resolveHookScript, the state file and the writability probe: file-system work, here the success or error of a stage.
- Enrollment and flags in main.go, server.go, sysinfo.go, sshagent.go, sshagent_windows.go: command-line parsing, a retry of one request until it succeeds, the health and metrics endpoints, facts about the host and the start of an agent process; they call libraries and the operating system and share no state with the four state machines.
- The marker's wording (logstream.go:121): `Marker` stands for that line, told apart from stream bytes.
- Copies to the local stderr and log.Printf: no effect on the modelled state.
- bytes.Buffer and append: the buffers are sequences, so their own growth and reuse of memory is not modelled; only Tail counts the bytes its compaction copies.
