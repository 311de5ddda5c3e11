/**
 The poll loop and its workers: pollLoop of main.go. `Shared` is what the loop and its worker
 goroutines share, with the code's critical sections on it; `State` and `Step` are the protocol,
 one step per critical section, in any order the scheduler likes.
 */
module PollLoop {
  import opened Options
  import opened Sequences

  /** A work id. */
  type Id = nat

  // ---- What is shared ----

  /** A cancel function is named by the worker it stops, a poll's cancel function by the poll. */
  datatype Shared = Shared(slots: int, cancels: map<Id, nat>, interrupt: Option<nat>)

  /** A poll is prepared: its slots are read and its interrupt is set in one critical section. */
  function PreparePoll(sh: Shared, poll: nat): (int, Shared) {
    (sh.slots, sh.(interrupt := Some(poll)))
  }

  function ClearInterrupt(sh: Shared): Shared {
    sh.(interrupt := None)
  }

  /** The cancel function of `id` leaves the map, for a cancel item or for the worker itself. */
  function TakeCancel(sh: Shared, id: Id): (Option<nat>, Shared) {
    (if id in sh.cancels then Some(sh.cancels[id]) else None, sh.(cancels := sh.cancels - {id}))
  }

  function TakeSlot(sh: Shared): Shared {
    sh.(slots := sh.slots - 1)
  }

  function InsertCancel(sh: Shared, id: Id, worker: nat): Shared {
    sh.(cancels := sh.cancels[id := worker])
  }

  /** The slot comes back; when it is the only one, the poll to interrupt is in the result. */
  function ReleaseSlot(sh: Shared): (Option<nat>, Shared) {
    (if sh.slots + 1 == 1 then sh.interrupt else None, sh.(slots := sh.slots + 1))
  }

  /** The variables of pollLoop that its goroutines capture. */
  class Captured {
    var slots: int
    var cancels: map<Id, nat>
    var interruptPoll: Option<nat>

    ghost function View(): Shared
      reads this
    {
      Shared(slots, cancels, interruptPoll)
    }

    constructor (maxParallel: int)
      ensures View() == Start(maxParallel).shared
      ensures slots >= 1 && slots >= maxParallel && (slots == 1 || slots == maxParallel)
      ensures cancels == map[] && interruptPoll == None
    {
      slots, cancels, interruptPoll := if maxParallel > 1 then maxParallel else 1, map[], None;
    }

    method Prepare(poll: nat) returns (advertised: int)
      modifies this`interruptPoll
      ensures (advertised, View()) == PreparePoll(old(View()), poll)
      ensures advertised == slots && interruptPoll == Some(poll)
    {
      advertised := slots;
      interruptPoll := Some(poll);
    }

    method Clear()
      modifies this`interruptPoll
      ensures View() == ClearInterrupt(old(View()))
      ensures interruptPoll == None
    {
      interruptPoll := None;
    }

    method Take(id: Id) returns (cancel: Option<nat>)
      modifies this`cancels
      ensures (cancel, View()) == TakeCancel(old(View()), id)
      ensures cancel == if id in old(cancels) then Some(old(cancels)[id]) else None
      ensures id !in cancels
      ensures forall other :: other != id ==>
                (other in cancels <==> other in old(cancels))
                && (other in cancels ==> cancels[other] == old(cancels)[other])
    {
      cancel := if id in cancels then Some(cancels[id]) else None;
      cancels := cancels - {id};
    }

    method Acquire()
      modifies this`slots
      ensures View() == TakeSlot(old(View()))
      ensures slots + 1 == old(slots)
    {
      slots := slots - 1;
    }

    method Insert(id: Id, worker: nat)
      modifies this`cancels
      ensures View() == InsertCancel(old(View()), id, worker)
      ensures id in cancels && cancels[id] == worker
      ensures forall other :: other != id ==>
                (other in cancels <==> other in old(cancels))
                && (other in cancels ==> cancels[other] == old(cancels)[other])
    {
      cancels := cancels[id := worker];
    }

    method Release() returns (interrupted: Option<nat>)
      modifies this`slots
      ensures (interrupted, View()) == ReleaseSlot(old(View()))
      ensures slots == old(slots) + 1
      ensures interrupted == if old(slots) == 0 then interruptPoll else None
    {
      interrupted := None;
      slots := slots + 1;
      if slots == 1 && interruptPoll.Some? {
        interrupted := interruptPoll;
      }
    }

    /** Each step of the protocol is one of these critical sections, or touches nothing shared. */
    method Perform(s: State, step: Step)
      requires View() == s.shared && Enabled(s, step)
      modifies this
      ensures View() == Apply(s, step).shared
    {
      match step
      case Prepare => var _ := Prepare(|s.polls|);
      case Clear => Clear();
      case TakeNamed => var _ := Take(s.pc.id);
      case Take => Acquire();
      case Insert => Insert(s.workers[|s.workers| - 1].id, |s.workers| - 1);
      case Remove(w) => var _ := Take(s.workers[w].id);
      case Release(w) => var _ := Release();
      case _ =>
    }
  }

  // ---- The protocol ----

  /** Why a poll's context is canceled, if it is. */
  datatype Cause = Live | Interrupted | Stopped

  datatype Answer = Waiting | Failed | NoWork | CancelItem(id: Id) | WorkItem(id: Id)

  /** One poll: the slots it advertised, what became of its context, and its answer. */
  datatype Poll = Poll(slots: int, cause: Cause, answer: Answer)

  /** Where a worker is, from taking its slot to releasing it. */
  datatype Phase = Taken | Mapped | Running | Finished | Removed(cancel: Option<nat>) | Ending | Released

  /** `taken` and `called` count how often the worker's cancel function left the map and was called. */
  datatype Worker = Worker(id: Id, phase: Phase, taken: nat, called: nat)

  /** Where the loop is. */
  datatype Pc =
    | Top | Preparing | InFlight | Answered | Deciding | Backoff
    | Removing(id: Id) | Calling(cancel: Option<nat>)
    | Taking(id: Id) | Inserting | Launching
    | Draining | Returned

  /**
   `polls` and `workers` hold all of them, in order. `honoured` says that so far the control
   plane sent work only to polls that advertised a slot, `distinct` that no work was dispatched
   with the id of a worker still there.
   */
  datatype State = State(shared: Shared, pc: Pc, polls: seq<Poll>, workers: seq<Worker>, shutdown: bool,
                         honoured: bool, distinct: bool)

  datatype Step =
    | Check | Prepare | Reply(answer: Answer) | Clear | Decide | Retry | GiveUp
    | TakeNamed | CallNamed
    | Take | Insert | Launch
    | Finish(w: nat) | Remove(w: nat) | CallOwn(w: nat) | Release(w: nat)
    | Stop | Return

  function Start(maxParallel: int): State {
    State(Shared(Capacity(maxParallel), map[], None), Top, [], [], false, true, true)
  }

  function Capacity(maxParallel: int): int {
    if maxParallel > 1 then maxParallel else 1
  }

  predicate HasPhase(s: State, w: nat, p: Phase) {
    w < |s.workers| && s.workers[w].phase == p
  }

  predicate Enabled(s: State, step: Step) {
    match step
    case Check => s.pc == Top
    case Prepare => s.pc == Preparing
    case Reply(answer) => s.pc == InFlight && s.polls != [] && answer != Waiting
    case Clear => s.pc == Answered
    case Decide => s.pc == Deciding && s.polls != []
    case Retry => s.pc == Backoff
    case GiveUp => s.pc == Backoff && s.shutdown
    case TakeNamed => s.pc.Removing?
    case CallNamed => s.pc.Calling?
    case Take => s.pc.Taking?
    case Insert => s.pc == Inserting && s.workers != []
    case Launch => s.pc == Launching && s.workers != []
    case Finish(w) => HasPhase(s, w, Running)
    case Remove(w) => HasPhase(s, w, Finished)
    case CallOwn(w) => w < |s.workers| && s.workers[w].phase.Removed?
    case Release(w) => HasPhase(s, w, Ending)
    case Stop => true
    case Return => s.pc == Draining && forall w :: 0 <= w < |s.workers| ==> s.workers[w].phase == Released
  }

  /** Canceling a context a second time changes nothing. */
  function CancelPoll(polls: seq<Poll>, poll: Option<nat>, cause: Cause): seq<Poll> {
    if poll.Some? && poll.value < |polls| && polls[poll.value].cause == Live then
      polls[poll.value := polls[poll.value].(cause := cause)]
    else
      polls
  }

  function CountTaken(ws: seq<Worker>, w: Option<nat>): seq<Worker> {
    if w.Some? && w.value < |ws| then ws[w.value := ws[w.value].(taken := ws[w.value].taken + 1)] else ws
  }

  function CountCalled(ws: seq<Worker>, w: Option<nat>): seq<Worker> {
    if w.Some? && w.value < |ws| then ws[w.value := ws[w.value].(called := ws[w.value].called + 1)] else ws
  }

  function Move(ws: seq<Worker>, w: nat, p: Phase): seq<Worker>
    requires w < |ws|
  {
    ws[w := ws[w].(phase := p)]
  }

  predicate FreshId(ws: seq<Worker>, id: Id) {
    forall w :: 0 <= w < |ws| && ws[w].phase != Released ==> ws[w].id != id
  }

  /** What the loop does with the answer to its last poll. */
  function AfterPoll(s: State): Pc
    requires s.polls != []
  {
    var poll := s.polls[|s.polls| - 1];
    match poll.answer
    case CancelItem(id) => Removing(id)
    case WorkItem(id) => Taking(id)
    case NoWork => Top
    case _ => if poll.cause == Interrupted then Top else if s.shutdown then Draining else Backoff
  }

  function SharedAfter(s: State, step: Step): Shared
    requires Enabled(s, step)
  {
    match step
    case Prepare => PreparePoll(s.shared, |s.polls|).1
    case Clear => ClearInterrupt(s.shared)
    case TakeNamed => TakeCancel(s.shared, s.pc.id).1
    case Take => TakeSlot(s.shared)
    case Insert => InsertCancel(s.shared, s.workers[|s.workers| - 1].id, |s.workers| - 1)
    case Remove(w) => TakeCancel(s.shared, s.workers[w].id).1
    case Release(w) => ReleaseSlot(s.shared).1
    case _ => s.shared
  }

  function PcAfter(s: State, step: Step): Pc
    requires Enabled(s, step)
  {
    match step
    case Check => if s.shutdown then Draining else Preparing
    case Prepare => InFlight
    case Reply(_) => Answered
    case Clear => Deciding
    case Decide => AfterPoll(s)
    case Retry => Top
    case GiveUp => Draining
    case TakeNamed => Calling(TakeCancel(s.shared, s.pc.id).0)
    case CallNamed => Top
    case Take => Inserting
    case Insert => Launching
    case Launch => Top
    case Return => Returned
    case _ => s.pc
  }

  function PollsAfter(s: State, step: Step): seq<Poll>
    requires Enabled(s, step)
  {
    match step
    case Prepare => s.polls + [Poll(PreparePoll(s.shared, |s.polls|).0, if s.shutdown then Stopped else Live, Waiting)]
    case Reply(answer) => s.polls[|s.polls| - 1 := s.polls[|s.polls| - 1].(answer := answer)]
    case Release(w) => CancelPoll(s.polls, ReleaseSlot(s.shared).0, Interrupted)
    case Stop => CancelPoll(s.polls, s.shared.interrupt, Stopped)
    case _ => s.polls
  }

  function WorkersAfter(s: State, step: Step): seq<Worker>
    requires Enabled(s, step)
  {
    match step
    case TakeNamed => CountTaken(s.workers, TakeCancel(s.shared, s.pc.id).0)
    case CallNamed => CountCalled(s.workers, s.pc.cancel)
    case Take => s.workers + [Worker(s.pc.id, Taken, 0, 0)]
    case Insert => Move(s.workers, |s.workers| - 1, Mapped)
    case Launch => Move(s.workers, |s.workers| - 1, Running)
    case Finish(w) => Move(s.workers, w, Finished)
    case Remove(w) =>
      var cancel := TakeCancel(s.shared, s.workers[w].id).0;
      Move(CountTaken(s.workers, cancel), w, Removed(cancel))
    case CallOwn(w) => Move(CountCalled(s.workers, s.workers[w].phase.cancel), w, Ending)
    case Release(w) => Move(s.workers, w, Released)
    case _ => s.workers
  }

  function Apply(s: State, step: Step): State
    requires Enabled(s, step)
  {
    State(
      SharedAfter(s, step), PcAfter(s, step), PollsAfter(s, step), WorkersAfter(s, step),
      s.shutdown || step == Stop,
      s.honoured && (step.Reply? && step.answer.WorkItem? ==> s.polls[|s.polls| - 1].slots >= 1),
      s.distinct && (step == Take ==> FreshId(s.workers, s.pc.id)))
  }

  /** The state a run reaches; None when some step was not possible. */
  function After(maxParallel: int, run: seq<Step>): Option<State> {
    if run == [] then
      Some(Start(maxParallel))
    else
      var before := After(maxParallel, run[..|run| - 1]);
      var step := run[|run| - 1];
      if before.Some? && Enabled(before.value, step) then Some(Apply(before.value, step)) else None
  }

  // ---- Slots ----

  /** The workers that took a slot and have not released it. */
  function Held(ws: seq<Worker>): nat {
    if ws == [] then 0 else Held(ws[..|ws| - 1]) + if ws[|ws| - 1].phase == Released then 0 else 1
  }

  lemma {:induction false} HeldUpdate(ws: seq<Worker>, w: nat, x: Worker)
    requires w < |ws|
    ensures Held(ws[w := x]) + (if ws[w].phase == Released then 0 else 1)
            == Held(ws) + if x.phase == Released then 0 else 1
  {
    var last := |ws| - 1;
    if w < last {
      HeldUpdate(ws[..last], w, x);
      assert ws[w := x][..last] == ws[..last][w := x];
    } else {
      assert ws[w := x][..last] == ws[..last];
    }
  }

  lemma HeldAppend(ws: seq<Worker>, x: Worker)
    ensures Held(ws + [x]) == Held(ws) + if x.phase == Released then 0 else 1
  {
    assert (ws + [x])[..|ws|] == ws;
  }

  /** Counting the uses of a cancel function moves no worker. */
  lemma HeldCount(ws: seq<Worker>, w: Option<nat>)
    ensures Held(CountTaken(ws, w)) == Held(ws) && Held(CountCalled(ws, w)) == Held(ws)
  {
    if w.Some? && w.value < |ws| {
      HeldUpdate(ws, w.value, ws[w.value].(taken := ws[w.value].taken + 1));
      HeldUpdate(ws, w.value, ws[w.value].(called := ws[w.value].called + 1));
    }
  }

  lemma HeldMove(ws: seq<Worker>, w: nat, p: Phase)
    requires w < |ws| && ws[w].phase != Released
    ensures Held(Move(ws, w, p)) == Held(ws) - if p == Released then 1 else 0
  {
    HeldUpdate(ws, w, ws[w].(phase := p));
  }

  /** No slot is lost or invented. */
  ghost predicate SlotsConserved(capacity: int, s: State) {
    s.shared.slots + Held(s.workers) == capacity
  }

  lemma HeldStep(s: State, step: Step)
    requires Enabled(s, step) && InOrder(s)
    ensures Held(WorkersAfter(s, step)) == Held(s.workers) + if step == Take then 1 else if step.Release? then -1 else 0
  {
    hide Held, FreshId;
    match step
    case TakeNamed => HeldCount(s.workers, TakeCancel(s.shared, s.pc.id).0);
    case CallNamed => HeldCount(s.workers, s.pc.cancel);
    case Take => HeldAppend(s.workers, Worker(s.pc.id, Taken, 0, 0));
    case Insert => HeldMove(s.workers, |s.workers| - 1, Mapped);
    case Launch => HeldMove(s.workers, |s.workers| - 1, Running);
    case Finish(w) => HeldMove(s.workers, w, Finished);
    case Remove(w) =>
      var cancel := TakeCancel(s.shared, s.workers[w].id).0;
      HeldCount(s.workers, cancel);
      HeldMove(CountTaken(s.workers, cancel), w, Removed(cancel));
    case CallOwn(w) =>
      var cancel := s.workers[w].phase.cancel;
      HeldCount(s.workers, cancel);
      HeldMove(CountCalled(s.workers, cancel), w, Ending);
    case Release(w) => HeldMove(s.workers, w, Released);
    case _ =>
  }

  lemma SlotsConservedStep(capacity: int, s: State, step: Step)
    requires Enabled(s, step) && SlotsConserved(capacity, s) && InOrder(s)
    ensures SlotsConserved(capacity, Apply(s, step))
  {
    hide Held, WorkersAfter, PcAfter, PollsAfter, FreshId;
    HeldStep(s, step);
  }

  /** The loop launches each worker before it looks for the next, and waits for all at the end. */
  ghost predicate InOrder(s: State) {
    && (s.pc == Inserting ==> s.workers != [] && s.workers[|s.workers| - 1].phase == Taken)
    && (s.pc == Launching ==> s.workers != [] && s.workers[|s.workers| - 1].phase == Mapped)
    && (forall w :: 0 <= w < |s.workers| ==>
          && (s.workers[w].phase == Taken ==> w == |s.workers| - 1 && s.pc == Inserting)
          && (s.workers[w].phase == Mapped ==> w == |s.workers| - 1 && s.pc == Launching)
          && (s.pc == Returned ==> s.workers[w].phase == Released))
  }

  lemma InOrderStep(s: State, step: Step)
    requires Enabled(s, step) && InOrder(s)
    ensures InOrder(Apply(s, step))
  {
    hide SharedAfter, PollsAfter, FreshId;
  }

  // ---- Polls and interrupts ----

  predicate Open(pc: Pc) {
    pc == InFlight || pc == Answered
  }

  function LastPoll(s: State): Poll
    requires s.polls != []
  {
    s.polls[|s.polls| - 1]
  }

  /** The interrupt belongs to the poll in flight, whose slots can only have grown since. */
  ghost predicate PollTracked(s: State) {
    && (if Open(s.pc) then s.polls != [] && s.shared.interrupt == Some(|s.polls| - 1) else s.shared.interrupt == None)
    && (s.pc in {InFlight, Answered, Deciding} || s.pc.Taking? ==>
          s.polls != [] && LastPoll(s).slots <= s.shared.slots)
    && (s.polls != [] ==> (LastPoll(s).answer == Waiting <==> s.pc == InFlight))
    && (s.pc.Taking? ==> LastPoll(s).answer == WorkItem(s.pc.id))
    && (s.pc.Removing? ==> s.polls != [] && LastPoll(s).answer == CancelItem(s.pc.id))
  }

  /** A poll that told the control plane of no slot does not stay in flight once there is one. */
  ghost predicate NoLostWakeup(s: State) {
    && (Open(s.pc) && s.polls != [] && LastPoll(s).slots <= 0 && s.shared.slots >= 1 ==> LastPoll(s).cause != Live)
    && (Open(s.pc) && s.polls != [] && s.shutdown ==> LastPoll(s).cause != Live)
  }

  /** Only a shutdown cancels polls for another reason. */
  ghost predicate StopsExplained(s: State) {
    forall k :: 0 <= k < |s.polls| && s.polls[k].cause == Stopped ==> s.shutdown
  }

  /** The function the loop is about to call is the one its last cancel item named. */
  ghost predicate CallTracked(s: State) {
    s.pc.Calling? && s.pc.cancel.Some? ==>
      && s.polls != [] && s.pc.cancel.value < |s.workers|
      && LastPoll(s).answer == CancelItem(s.workers[s.pc.cancel.value].id)
  }

  predicate InterruptedWithoutWork(p: Poll) {
    p.cause == Interrupted && !p.answer.WorkItem?
  }

  /** Only polls that advertised no slot are interrupted, and to good effect. */
  ghost predicate InterruptsUseful(s: State) {
    && (forall k :: 0 <= k < |s.polls| && s.polls[k].cause == Interrupted ==> s.polls[k].slots <= 0)
    && (forall k :: 0 <= k < |s.polls| - 1 && InterruptedWithoutWork(s.polls[k]) ==> s.polls[k + 1].slots >= 1)
  }

  /** The slot an interrupt was sent for is there until a work item takes it. */
  ghost predicate InterruptPending(s: State) {
    s.polls != [] && InterruptedWithoutWork(LastPoll(s)) ==> s.shared.slots >= 1
  }

  /** Under the control plane's contract the counter does not go below zero. */
  ghost predicate Contracted(s: State) {
    s.honoured ==>
      && s.shared.slots >= 0
      && forall k :: 0 <= k < |s.polls| && s.polls[k].answer.WorkItem? ==> s.polls[k].slots >= 1
  }

  /** The loop backs off only from a poll that failed by itself, and ends only on a shutdown. */
  ghost predicate BackoffTracked(s: State) {
    && (s.pc == Backoff ==> s.polls != [] && LastPoll(s).answer == Failed && LastPoll(s).cause != Interrupted)
    && (s.pc in {Draining, Returned} ==> s.shutdown)
  }

  lemma BackoffTrackedStep(s: State, step: Step)
    requires Enabled(s, step) && PollTracked(s) && BackoffTracked(s)
    ensures BackoffTracked(Apply(s, step))
  {
    hide WorkersAfter, FreshId;
  }

  lemma PollTrackedStep(s: State, step: Step)
    requires Enabled(s, step) && PollTracked(s)
    ensures PollTracked(Apply(s, step))
  {
    hide WorkersAfter, FreshId;
  }

  lemma NoLostWakeupStep(s: State, step: Step)
    requires Enabled(s, step) && PollTracked(s) && NoLostWakeup(s)
    ensures NoLostWakeup(Apply(s, step))
  {
    hide WorkersAfter, FreshId;
  }

  lemma InterruptsUsefulStep(s: State, step: Step)
    requires Enabled(s, step) && PollTracked(s) && InterruptPending(s) && InterruptsUseful(s)
    ensures InterruptsUseful(Apply(s, step))
  {
    hide WorkersAfter, PcAfter, FreshId;
  }

  lemma InterruptPendingStep(s: State, step: Step)
    requires Enabled(s, step) && PollTracked(s) && InterruptPending(s)
    ensures InterruptPending(Apply(s, step))
  {
    hide WorkersAfter, FreshId;
  }

  lemma ContractedStep(s: State, step: Step)
    requires Enabled(s, step) && PollTracked(s) && Contracted(s)
    ensures Contracted(Apply(s, step))
  {
    hide WorkersAfter, FreshId;
  }

  // ---- Cancel functions ----

  /** Between the worker's insertion in the map and its own removal. */
  predicate Cancelable(p: Phase) {
    p in {Mapped, Running, Finished}
  }

  predicate OwnerPresent(ws: seq<Worker>, id: Id) {
    exists v :: 0 <= v < |ws| && ws[v].id == id && Cancelable(ws[v].phase)
  }

  /** The map holds cancel functions not used yet, under their work's id, while a work has that id. */
  ghost predicate MapSound(s: State) {
    && (forall id :: id in s.shared.cancels ==> Entry(s, id) && OwnerPresent(s.workers, id))
    && (forall w :: 0 <= w < |s.workers| && s.workers[w].phase == Taken ==> s.workers[w].taken == 0)
  }

  predicate Entry(s: State, id: Id)
    requires id in s.shared.cancels
  {
    var w := s.shared.cancels[id];
    w < |s.workers| && s.workers[w].id == id && s.workers[w].taken == 0 && s.workers[w].phase != Taken
  }

  /** Whoever took a cancel function is the only one to call it, once. */
  ghost predicate CalledOnce(s: State) {
    && (forall w :: 0 <= w < |s.workers| ==> s.workers[w].called <= s.workers[w].taken <= 1)
    && (s.pc.Calling? && s.pc.cancel.Some? ==> AboutToBeCalled(s, s.pc.cancel.value))
    && (forall v :: 0 <= v < |s.workers| && s.workers[v].phase.Removed? && s.workers[v].phase.cancel.Some? ==>
          && AboutToBeCalled(s, s.workers[v].phase.cancel.value)
          && s.pc != Calling(s.workers[v].phase.cancel)
          && forall u :: 0 <= u < |s.workers| && u != v ==> s.workers[u].phase != s.workers[v].phase)
  }

  predicate AboutToBeCalled(s: State, w: nat) {
    w < |s.workers| && s.workers[w].taken == 1 && s.workers[w].called == 0
  }

  lemma MapSoundStep(s: State, step: Step)
    requires Enabled(s, step) && InOrder(s) && MapSound(s)
    ensures MapSound(Apply(s, step))
  {
    hide CancelPoll, FreshId, OwnerPresent, Apply, Entry;
    var t := Apply(s, step);
    forall id | id in t.shared.cancels
      ensures Entry(t, id) && OwnerPresent(t.workers, id)
    {
      if step == Insert && id == s.workers[|s.workers| - 1].id {
        InsertedEntry(s);
      } else {
        EntryStays(s, step, id);
        OwnerStays(s, step, id);
      }
    }
    TakenUnused(s, step);
  }

  lemma InsertedEntry(s: State)
    requires Enabled(s, Insert) && InOrder(s) && MapSound(s)
    ensures var t, id := Apply(s, Insert), s.workers[|s.workers| - 1].id;
            id in t.shared.cancels && Entry(t, id) && OwnerPresent(t.workers, id)
  {
    assert Cancelable(Apply(s, Insert).workers[|s.workers| - 1].phase);
  }

  lemma TakenUnused(s: State, step: Step)
    requires Enabled(s, step) && InOrder(s) && MapSound(s)
    ensures forall w :: 0 <= w < |Apply(s, step).workers| && Apply(s, step).workers[w].phase == Taken ==>
              Apply(s, step).workers[w].taken == 0
  {
    hide PollsAfter, FreshId, OwnerPresent;
  }

  /** The work whose cancel function a step takes from the map. */
  function Looked(s: State, step: Step): Option<Id> {
    match step
    case TakeNamed => if s.pc.Removing? then Some(s.pc.id) else None
    case Remove(w) => if w < |s.workers| then Some(s.workers[w].id) else None
    case _ => None
  }

  function TakenBy(s: State, step: Step): Option<nat> {
    var id := Looked(s, step);
    if id.Some? && id.value in s.shared.cancels then Some(s.shared.cancels[id.value]) else None
  }

  /** What one step can do to one worker. */
  lemma WorkerStep(s: State, step: Step, v: nat)
    requires Enabled(s, step) && InOrder(s) && v < |s.workers|
    ensures v < |Apply(s, step).workers|
    ensures var x, y := s.workers[v], Apply(s, step).workers[v];
            && y.id == x.id
            && y.taken == x.taken + (if TakenBy(s, step) == Some(v) then 1 else 0)
            && (Cancelable(x.phase) && step != Remove(v) ==> Cancelable(y.phase))
            && (x.phase != Taken ==> y.phase != Taken)
  {
    hide SharedAfter, PcAfter, PollsAfter, FreshId;
  }

  /** What one step can do to the map. */
  lemma CancelsStep(s: State, step: Step)
    requires Enabled(s, step)
    ensures var before, after := s.shared.cancels, Apply(s, step).shared.cancels;
            if step == Insert then
              after == before[s.workers[|s.workers| - 1].id := |s.workers| - 1]
            else
              after == if Looked(s, step).Some? then before - {Looked(s, step).value} else before
  {
    hide WorkersAfter, PcAfter, PollsAfter, FreshId;
  }

  lemma EntryStays(s: State, step: Step, id: Id)
    requires Enabled(s, step) && InOrder(s) && MapSound(s)
    requires id in Apply(s, step).shared.cancels && !(step == Insert && id == s.workers[|s.workers| - 1].id)
    ensures id in s.shared.cancels && Entry(Apply(s, step), id)
  {
    hide Apply, OwnerPresent, InOrder;
    CancelsStep(s, step);
    assert Entry(s, id);
    WorkerStep(s, step, s.shared.cancels[id]);
    var looked := Looked(s, step);
    if looked.Some? && looked.value in s.shared.cancels {
      assert Entry(s, looked.value);
    }
  }

  lemma OwnerStays(s: State, step: Step, id: Id)
    requires Enabled(s, step) && InOrder(s) && OwnerPresent(s.workers, id)
    requires id in Apply(s, step).shared.cancels
    ensures OwnerPresent(Apply(s, step).workers, id)
  {
    hide Apply, InOrder;
    CancelsStep(s, step);
    var v :| 0 <= v < |s.workers| && s.workers[v].id == id && Cancelable(s.workers[v].phase);
    WorkerStep(s, step, v);
    var u := Apply(s, step).workers[v];
    assert u.id == id && Cancelable(u.phase);
  }

  lemma CalledOnceStep(s: State, step: Step)
    requires Enabled(s, step) && MapSound(s) && CalledOnce(s)
    ensures CalledOnce(Apply(s, step))
  {
    match step
    case TakeNamed => TakeNamedCalledOnce(s);
    case Remove(w) => RemoveCalledOnce(s, w);
    case CallNamed => CallNamedCalledOnce(s);
    case CallOwn(w) => CallOwnCalledOnce(s, w);
    case _ => OtherCalledOnce(s, step);
  }

  lemma TakeNamedCalledOnce(s: State)
    requires Enabled(s, TakeNamed) && MapSound(s) && CalledOnce(s)
    ensures CalledOnce(Apply(s, TakeNamed))
  {
    hide PollsAfter, FreshId, OwnerPresent;
  }

  lemma RemoveCalledOnce(s: State, w: nat)
    requires Enabled(s, Remove(w)) && MapSound(s) && CalledOnce(s)
    ensures CalledOnce(Apply(s, Remove(w)))
  {
    hide PcAfter, PollsAfter, FreshId, OwnerPresent;
    var t, id := Apply(s, Remove(w)), s.workers[w].id;
    assert t.pc == s.pc by {
      RemoveKeepsPc(s, w);
    }
    assert id in s.shared.cancels ==> Entry(s, id);
    forall v | 0 <= v < |t.workers| && t.workers[v].phase.Removed? && t.workers[v].phase.cancel.Some?
      ensures AboutToBeCalled(t, t.workers[v].phase.cancel.value)
      ensures t.pc != Calling(t.workers[v].phase.cancel)
      ensures forall u :: 0 <= u < |t.workers| && u != v ==> t.workers[u].phase != t.workers[v].phase
    {
      if v != w {
        assert s.workers[v].phase == t.workers[v].phase;
      }
    }
  }

  lemma RemoveKeepsPc(s: State, w: nat)
    requires Enabled(s, Remove(w))
    ensures Apply(s, Remove(w)).pc == s.pc
  {
  }

  lemma CallNamedCalledOnce(s: State)
    requires Enabled(s, CallNamed) && CalledOnce(s)
    ensures CalledOnce(Apply(s, CallNamed))
  {
    hide SharedAfter, PollsAfter, FreshId;
  }

  lemma CallOwnCalledOnce(s: State, w: nat)
    requires Enabled(s, CallOwn(w)) && CalledOnce(s)
    ensures CalledOnce(Apply(s, CallOwn(w)))
  {
    hide SharedAfter, PollsAfter, FreshId;
  }

  lemma OtherCalledOnce(s: State, step: Step)
    requires Enabled(s, step) && CalledOnce(s)
    requires !step.TakeNamed? && !step.Remove? && !step.CallNamed? && !step.CallOwn?
    ensures CalledOnce(Apply(s, step))
  {
    hide SharedAfter, PollsAfter, FreshId;
  }

  // ---- Cancel functions, with distinct ids ----

  ghost predicate LiveIdsDiffer(ws: seq<Worker>) {
    forall u, v :: 0 <= u < v < |ws| && ws[u].phase != Released && ws[v].phase != Released ==> ws[u].id != ws[v].id
  }

  /** While ids are distinct, each worker's cancel function goes its own way. */
  ghost predicate Unmixed(s: State) {
    s.distinct ==>
      && LiveIdsDiffer(s.workers)
      && forall w :: 0 <= w < |s.workers| ==> OwnCancel(s, w)
  }

  predicate OwnCancel(s: State, w: nat)
    requires w < |s.workers|
  {
    var x, cancels := s.workers[w], s.shared.cancels;
    && (x.phase != Released && x.id in cancels ==> cancels[x.id] == w)
    && (Cancelable(x.phase) ==> (x.id in cancels <==> x.taken == 0))
    && (x.phase.Removed? || x.phase == Ending ==> x.id !in cancels)
    && (x.phase.Removed? || x.phase == Ending || x.phase == Released ==> x.taken == 1)
    && (x.phase.Removed? && x.phase.cancel.Some? ==> x.phase.cancel.value == w)
    && (x.taken == 1 ==> x.called == 1 || s.pc == Calling(Some(w)) || x.phase == Removed(Some(w)))
  }

  lemma UnmixedStep(s: State, step: Step)
    requires Enabled(s, step) && InOrder(s) && MapSound(s) && CalledOnce(s) && Unmixed(s)
    ensures Unmixed(Apply(s, step))
  {
    hide InOrder, MapSound, CalledOnce, SharedAfter, PollsAfter, WorkersAfter, PcAfter, OwnCancel;
    if Apply(s, step).distinct {
      LiveIdsStep(s, step);
      forall w | 0 <= w < |Apply(s, step).workers|
        ensures OwnCancel(Apply(s, step), w)
      {
        OwnCancelStep(s, step, w);
      }
    }
  }

  lemma LiveIdsStep(s: State, step: Step)
    requires Enabled(s, step) && InOrder(s) && Unmixed(s) && Apply(s, step).distinct
    ensures LiveIdsDiffer(Apply(s, step).workers)
  {
    hide SharedAfter, PollsAfter, PcAfter, OwnCancel;
  }

  lemma OwnCancelStep(s: State, step: Step, w: nat)
    requires Enabled(s, step) && InOrder(s) && MapSound(s) && CalledOnce(s) && Unmixed(s) && Apply(s, step).distinct
    requires w < |Apply(s, step).workers|
    ensures OwnCancel(Apply(s, step), w)
  {
    match step
    case TakeNamed => TakeNamedOwn(s, w);
    case Remove(v) => RemoveOwn(s, v, w);
    case Take => TakeOwn(s, w);
    case Insert => InsertOwn(s, w);
    case CallNamed => CallNamedOwn(s, w);
    case CallOwn(v) => CallOwnOwn(s, v, w);
    case _ => OtherOwn(s, step, w);
  }

  /** A function found in the map is that of the one live worker with that id. */
  lemma FoundIsOwner(s: State, id: Id)
    requires MapSound(s) && Unmixed(s) && s.distinct && id in s.shared.cancels
    ensures s.shared.cancels[id] < |s.workers| && Cancelable(s.workers[s.shared.cancels[id]].phase)
  {
    var v :| 0 <= v < |s.workers| && s.workers[v].id == id && Cancelable(s.workers[v].phase);
    assert OwnCancel(s, v);
  }

  lemma TakeNamedOwn(s: State, w: nat)
    requires Enabled(s, TakeNamed) && MapSound(s) && CalledOnce(s) && Unmixed(s) && s.distinct && w < |s.workers|
    ensures OwnCancel(Apply(s, TakeNamed), w)
  {
    hide PollsAfter, OwnerPresent;
    assert OwnCancel(s, w);
    if s.pc.id in s.shared.cancels {
      FoundIsOwner(s, s.pc.id);
      assert Entry(s, s.pc.id);
    }
  }

  lemma RemoveOwn(s: State, v: nat, w: nat)
    requires Enabled(s, Remove(v)) && MapSound(s) && CalledOnce(s) && Unmixed(s) && s.distinct && w < |s.workers|
    ensures OwnCancel(Apply(s, Remove(v)), w)
  {
    hide PollsAfter, OwnerPresent, PcAfter, FreshId, InsertCancel, ReleaseSlot;
    assert OwnCancel(s, w) && OwnCancel(s, v);
    assert s.workers[v].id in s.shared.cancels ==> Entry(s, s.workers[v].id);
    RemoveKeepsPc(s, v);
  }

  lemma TakeOwn(s: State, w: nat)
    requires Enabled(s, Take) && MapSound(s) && Unmixed(s) && Apply(s, Take).distinct && w <= |s.workers|
    ensures OwnCancel(Apply(s, Take), w)
  {
    hide PollsAfter;
    if w < |s.workers| {
      assert OwnCancel(s, w);
    } else {
      assert s.pc.id !in s.shared.cancels;
    }
  }

  lemma InsertOwn(s: State, w: nat)
    requires Enabled(s, Insert) && InOrder(s) && MapSound(s) && CalledOnce(s) && Unmixed(s) && s.distinct
    requires w < |s.workers|
    ensures OwnCancel(Apply(s, Insert), w)
  {
    hide PollsAfter, OwnerPresent;
    assert OwnCancel(s, w);
  }

  lemma CallNamedOwn(s: State, w: nat)
    requires Enabled(s, CallNamed) && CalledOnce(s) && Unmixed(s) && s.distinct && w < |s.workers|
    ensures OwnCancel(Apply(s, CallNamed), w)
  {
    hide PollsAfter;
    assert OwnCancel(s, w);
  }

  lemma CallOwnOwn(s: State, v: nat, w: nat)
    requires Enabled(s, CallOwn(v)) && CalledOnce(s) && Unmixed(s) && s.distinct && w < |s.workers|
    ensures OwnCancel(Apply(s, CallOwn(v)), w)
  {
    hide PollsAfter;
    assert OwnCancel(s, w) && OwnCancel(s, v);
  }

  lemma OtherOwn(s: State, step: Step, w: nat)
    requires Enabled(s, step) && InOrder(s) && Unmixed(s) && s.distinct && w < |s.workers|
    requires !step.TakeNamed? && !step.CallNamed? && !step.Remove? && !step.CallOwn? && !step.Take? && !step.Insert?
    ensures OwnCancel(Apply(s, step), w)
  {
    hide PollsAfter, SharedAfter, AfterPoll;
    CancelsStep(s, step);
    assert OwnCancel(s, w);
  }

  lemma StopsExplainedStep(s: State, step: Step)
    requires Enabled(s, step) && StopsExplained(s)
    ensures StopsExplained(Apply(s, step))
  {
    hide WorkersAfter, PcAfter, SharedAfter, FreshId;
  }

  // ---- Every item is handled ----

  /** The id in an answer that is a cancel item, or one that is a work item. */
  function ItemId(answer: Answer, cancel: bool): seq<Id> {
    if (if cancel then answer.CancelItem? else answer.WorkItem?) then [answer.id] else []
  }

  /** The ids of all the cancel items received, or of all the work items. */
  function ItemIds(polls: seq<Poll>, cancel: bool): seq<Id> {
    if polls == [] then
      []
    else
      ItemIds(polls[..|polls| - 1], cancel) + ItemId(polls[|polls| - 1].answer, cancel)
  }

  function Ids(ws: seq<Worker>): seq<Id> {
    seq(|ws|, i requires 0 <= i < |ws| => ws[i].id)
  }

  /** The item the loop has received and not yet looked up, or not yet given a worker. */
  function Pending(s: State, cancel: bool): seq<Id> {
    if (s.pc in {Answered, Deciding} || (if cancel then s.pc.Removing? else s.pc.Taking?)) && s.polls != [] then
      ItemId(LastPoll(s).answer, cancel)
    else
      []
  }

  ghost predicate Dispatched(s: State) {
    ItemIds(s.polls, false) == Ids(s.workers) + Pending(s, false)
  }

  lemma ItemIdsAppend(polls: seq<Poll>, p: Poll, cancel: bool)
    ensures ItemIds(polls + [p], cancel) == ItemIds(polls, cancel) + ItemId(p.answer, cancel)
  {
    assert (polls + [p])[..|polls|] == polls;
  }

  lemma {:induction false} ItemIdsIgnoreCause(polls: seq<Poll>, k: nat, cause: Cause, cancel: bool)
    requires k < |polls|
    ensures ItemIds(polls[k := polls[k].(cause := cause)], cancel) == ItemIds(polls, cancel)
  {
    hide ItemId;
    var last := |polls| - 1;
    if k < last {
      ItemIdsIgnoreCause(polls[..last], k, cause, cancel);
      assert polls[k := polls[k].(cause := cause)][..last] == polls[..last][k := polls[k].(cause := cause)];
    } else {
      assert polls[k := polls[k].(cause := cause)][..last] == polls[..last];
    }
  }

  lemma ItemIdsStep(s: State, step: Step, cancel: bool)
    requires Enabled(s, step) && PollTracked(s)
    ensures ItemIds(PollsAfter(s, step), cancel)
            == ItemIds(s.polls, cancel) + if step.Reply? then ItemId(step.answer, cancel) else []
  {
    hide ItemIds, AfterPoll, FreshId;
    match step
    case Prepare => ItemIdsAppend(s.polls, PollsAfter(s, step)[|s.polls|], cancel);
    case Reply(answer) =>
      var init := s.polls[..|s.polls| - 1];
      assert s.polls == init + [LastPoll(s)];
      assert PollsAfter(s, step) == init + [LastPoll(s).(answer := answer)];
      ItemIdsAppend(init, LastPoll(s), cancel);
      ItemIdsAppend(init, LastPoll(s).(answer := answer), cancel);
    case Release(w) =>
      if s.shared.interrupt.Some? && s.shared.interrupt.value < |s.polls| {
        ItemIdsIgnoreCause(s.polls, s.shared.interrupt.value, Interrupted, cancel);
      }
    case Stop =>
      if s.shared.interrupt.Some? && s.shared.interrupt.value < |s.polls| {
        ItemIdsIgnoreCause(s.polls, s.shared.interrupt.value, Stopped, cancel);
      }
    case _ =>
  }

  /** The item a step takes up: looks up to cancel, or gives a worker. */
  function TakenUp(s: State, step: Step, cancel: bool): seq<Id>
    requires Enabled(s, step)
  {
    if step == (if cancel then TakeNamed else Take) then [s.pc.id] else []
  }

  /** An item on its way stays so until its lookup, or its worker, takes it. */
  lemma PendingStep(s: State, step: Step, cancel: bool)
    requires Enabled(s, step) && PollTracked(s)
    ensures Pending(s, cancel) + (if step.Reply? then ItemId(step.answer, cancel) else [])
            == TakenUp(s, step, cancel) + Pending(Apply(s, step), cancel)
  {
    hide Apply, PollTracked, Pending, ItemId;
    if step == Decide {
      PendingDecided(s, cancel);
    } else if step == TakeNamed || step == Take {
      PendingTaken(s, step, cancel);
    } else {
      PendingElsewhere(s, step, cancel);
    }
  }

  /** Only a new poll or its reply changes the last answer. */
  lemma LastAnswerStep(s: State, step: Step)
    requires Enabled(s, step)
    ensures step != Prepare && s.polls != [] ==>
              && Apply(s, step).polls != []
              && LastPoll(Apply(s, step)).answer == if step.Reply? then step.answer else LastPoll(s).answer
    ensures s.polls == [] && step != Prepare ==> Apply(s, step).polls == []
  {
    hide WorkersAfter, SharedAfter, PcAfter, FreshId;
  }

  lemma PendingDecided(s: State, cancel: bool)
    requires Enabled(s, Decide)
    ensures Pending(s, cancel) == Pending(Apply(s, Decide), cancel)
  {
    hide WorkersAfter, SharedAfter, FreshId;
  }

  lemma PendingTaken(s: State, step: Step, cancel: bool)
    requires Enabled(s, step) && PollTracked(s) && (step == TakeNamed || step == Take)
    ensures Pending(s, cancel) == TakenUp(s, step, cancel) + Pending(Apply(s, step), cancel)
  {
    hide WorkersAfter, SharedAfter, FreshId;
  }

  lemma PendingElsewhere(s: State, step: Step, cancel: bool)
    requires Enabled(s, step) && PollTracked(s) && step != Decide && step != TakeNamed && step != Take
    ensures Pending(s, cancel) + (if step.Reply? then ItemId(step.answer, cancel) else [])
            == Pending(Apply(s, step), cancel)
  {
    hide WorkersAfter, SharedAfter, PollsAfter, FreshId, ItemId, AfterPoll;
    LastAnswerStep(s, step);
  }

  lemma IdsStep(s: State, step: Step)
    requires Enabled(s, step)
    ensures Ids(WorkersAfter(s, step)) == Ids(s.workers) + if step == Take then [s.pc.id] else []
    ensures forall w :: 0 <= w < |s.workers| ==>
              w < |WorkersAfter(s, step)| && WorkersAfter(s, step)[w].id == s.workers[w].id
  {
    hide FreshId, AfterPoll;
  }

  lemma CallTrackedStep(s: State, step: Step)
    requires Enabled(s, step) && PollTracked(s) && MapSound(s) && CallTracked(s)
    ensures CallTracked(Apply(s, step))
  {
    hide SharedAfter, PollsAfter, WorkersAfter, FreshId, OwnerPresent, MapSound, PollTracked;
    if step == TakeNamed {
      TakeNamedTracked(s);
    } else if s.pc.Calling? {
      PollsQuiet(s, step);
      IdsStep(s, step);
    }
  }

  lemma TakeNamedTracked(s: State)
    requires Enabled(s, TakeNamed) && PollTracked(s) && MapSound(s)
    ensures CallTracked(Apply(s, TakeNamed))
  {
    hide SharedAfter, FreshId, OwnerPresent, AfterPoll, PollsAfter, MapSound, WorkersAfter;
    if s.pc.id in s.shared.cancels {
      EntryOf(s, s.pc.id);
      IdsStep(s, TakeNamed);
    }
    NamedKeepsPolls(s);
  }

  lemma EntryOf(s: State, id: Id)
    requires MapSound(s) && id in s.shared.cancels
    ensures Entry(s, id)
  {
    hide Entry, OwnerPresent;
  }

  lemma NamedKeepsPolls(s: State)
    requires Enabled(s, TakeNamed)
    ensures PollsAfter(s, TakeNamed) == s.polls
  {
  }

  /** No poll changes while the loop calls a cancel function. */
  lemma PollsQuiet(s: State, step: Step)
    requires Enabled(s, step) && PollTracked(s) && s.pc.Calling?
    ensures PollsAfter(s, step) == s.polls
  {
  }

  lemma DispatchedStep(s: State, step: Step)
    requires Enabled(s, step) && PollTracked(s) && Dispatched(s)
    ensures Dispatched(Apply(s, step))
  {
    hide ItemIds, ItemId, Ids, Pending, FreshId, WorkersAfter, SharedAfter, PcAfter, PollsAfter;
    ItemIdsStep(s, step, false);
    IdsStep(s, step);
    PendingStep(s, step, false);
    Associate(Ids(s.workers), Pending(s, false), if step.Reply? then ItemId(step.answer, false) else []);
    Associate(Ids(s.workers), TakenUp(s, step, false), Pending(Apply(s, step), false));
  }

  // ---- The invariant ----

  ghost predicate Inv(capacity: int, s: State) {
    && SlotsConserved(capacity, s) && InOrder(s)
    && PollTracked(s) && NoLostWakeup(s) && InterruptsUseful(s) && InterruptPending(s)
    && StopsExplained(s) && BackoffTracked(s) && CallTracked(s) && Contracted(s) && Dispatched(s)
    && MapSound(s) && CalledOnce(s) && Unmixed(s)
  }

  lemma InvStep(capacity: int, s: State, step: Step)
    requires Enabled(s, step) && Inv(capacity, s)
    ensures Inv(capacity, Apply(s, step))
  {
    hide SlotsConserved, InOrder, PollTracked, NoLostWakeup, InterruptsUseful, InterruptPending,
         StopsExplained, BackoffTracked, CallTracked, Contracted, Dispatched, MapSound, CalledOnce, Unmixed, Apply;
    SlotsConservedStep(capacity, s, step);
    InOrderStep(s, step);
    PollTrackedStep(s, step);
    NoLostWakeupStep(s, step);
    InterruptsUsefulStep(s, step);
    InterruptPendingStep(s, step);
    StopsExplainedStep(s, step);
    BackoffTrackedStep(s, step);
    CallTrackedStep(s, step);
    ContractedStep(s, step);
    DispatchedStep(s, step);
    MapSoundStep(s, step);
    CalledOnceStep(s, step);
    UnmixedStep(s, step);
  }

  lemma InvStart(maxParallel: int)
    ensures Inv(Capacity(maxParallel), Start(maxParallel))
  {
  }

  /** Every state of every run keeps the invariant, whatever the number of workers. */
  lemma {:induction false} RunKeepsInv(maxParallel: int, run: seq<Step>)
    requires After(maxParallel, run).Some?
    ensures Inv(Capacity(maxParallel), After(maxParallel, run).value)
  {
    hide Inv, Apply, Capacity;
    if run == [] {
      InvStart(maxParallel);
    } else {
      RunKeepsInv(maxParallel, run[..|run| - 1]);
      InvStep(Capacity(maxParallel), After(maxParallel, run[..|run| - 1]).value, run[|run| - 1]);
    }
  }

  // ---- What every run guarantees ----

  ghost predicate Reaches(maxParallel: int, run: seq<Step>, s: State) {
    After(maxParallel, run) == Some(s)
  }

  /**
   No lost wakeup: a poll in flight that advertised no slot, when there is one, is already
   canceled: by the interrupt, or by a shutdown.
   */
  lemma WakeupNotLost(maxParallel: int, run: seq<Step>, s: State)
    requires Reaches(maxParallel, run, s) && Open(s.pc)
    ensures s.polls != []
    ensures LastPoll(s).slots <= 0 && s.shared.slots >= 1 ==>
              LastPoll(s).cause == Interrupted || (LastPoll(s).cause == Stopped && s.shutdown)
    ensures s.shutdown ==> LastPoll(s).cause != Live
  {
    hide After, SlotsConserved, InOrder, InterruptsUseful, InterruptPending, CallTracked, Contracted, Dispatched,
         MapSound, CalledOnce, Unmixed;
    RunKeepsInv(maxParallel, run);
  }

  /**
   An interrupt reaches only the poll in flight, at the moment a worker brings back the only
   free slot, and only if that poll advertised none.
   */
  lemma InterruptHitsOnlyOpenPoll(maxParallel: int, run: seq<Step>, s: State, step: Step, k: nat)
    requires Reaches(maxParallel, run, s) && Enabled(s, step) && k < |s.polls|
    requires s.polls[k].cause != Interrupted && Apply(s, step).polls[k].cause == Interrupted
    ensures step.Release? && s.polls[k].cause == Live && Apply(s, step).shared.slots == 1
    ensures Open(s.pc) && k == |s.polls| - 1 && s.polls[k].slots <= 0
  {
    hide After, SlotsConserved, InOrder, InterruptsUseful, InterruptPending, CallTracked, Contracted, Dispatched,
         MapSound, CalledOnce, Unmixed, WorkersAfter, PcAfter, FreshId;
    RunKeepsInv(maxParallel, run);
  }

  /** After an interrupted poll, unless it brought work all the same, the next one advertises a slot. */
  lemma RetryAdvertisesSlot(maxParallel: int, run: seq<Step>, s: State, k: nat)
    requires Reaches(maxParallel, run, s) && k + 1 < |s.polls|
    ensures s.polls[k].cause == Interrupted ==> s.polls[k].slots <= 0
    ensures s.polls[k].cause == Interrupted && !s.polls[k].answer.WorkItem? ==> s.polls[k + 1].slots >= 1
  {
    hide After, SlotsConserved, InOrder, PollTracked, NoLostWakeup, InterruptPending, CallTracked, Contracted,
         Dispatched, MapSound, CalledOnce, Unmixed;
    RunKeepsInv(maxParallel, run);
    assert InterruptedWithoutWork(s.polls[k]) ==> s.polls[k + 1].slots >= 1;
  }

  // ---- Backing off ----

  /** Whether the loop has waited out a backoff since its last poll was answered. */
  predicate RetriedSince(run: seq<Step>) {
    run != []
    && var step := run[|run| - 1];
       step == Retry || (!step.Reply? && RetriedSince(run[..|run| - 1]))
  }

  /**
   The loop backs off exactly from a poll that failed, without being interrupted and without a
   shutdown; between the answer and the next poll it has waited exactly then.
   */
  lemma BacksOffExactly(maxParallel: int, run: seq<Step>, s: State)
    requires Reaches(maxParallel, run, s)
    ensures s.pc == Backoff ==> s.polls != [] && LastPoll(s).answer == Failed && LastPoll(s).cause != Interrupted
    ensures s.pc == Deciding ==>
              s.polls != []
              && (Apply(s, Decide).pc == Backoff
                  <==> LastPoll(s).answer == Failed && LastPoll(s).cause != Interrupted && !s.shutdown)
              && (Apply(s, Decide).pc == Draining
                  <==> LastPoll(s).answer == Failed && LastPoll(s).cause != Interrupted && s.shutdown)
    ensures s.pc in {Top, Preparing} && s.polls != [] ==>
              (RetriedSince(run) <==> LastPoll(s).answer == Failed && LastPoll(s).cause != Interrupted)
  {
    hide After, SlotsConserved, InOrder, NoLostWakeup, InterruptsUseful, InterruptPending, StopsExplained, CallTracked,
         Contracted, Dispatched, MapSound, CalledOnce, Unmixed, RetriedSince, WorkersAfter, SharedAfter, FreshId;
    RunKeepsInv(maxParallel, run);
    RetriesExact(maxParallel, run, s);
  }

  /** The loop has an item in hand. */
  predicate Handling(pc: Pc) {
    pc.Removing? || pc.Calling? || pc.Taking? || pc == Inserting || pc == Launching
  }

  /** A wait since the last answer, wherever the loop is. */
  ghost predicate Retried(s: State, retried: bool) {
    && (s.pc in {Top, Preparing} && s.polls != [] ==>
          (retried <==> LastPoll(s).answer == Failed && LastPoll(s).cause != Interrupted))
    && (s.pc !in {Top, Preparing, InFlight, Draining, Returned} ==> !retried)
    && (Handling(s.pc) ==> s.polls != [] && LastPoll(s).answer != Failed)
  }

  lemma {:induction false} RetriesExact(maxParallel: int, run: seq<Step>, s: State)
    requires Reaches(maxParallel, run, s)
    ensures Retried(s, RetriedSince(run))
  {
    hide Inv, Apply, Enabled, Retried;
    if run == [] {
      RetriedStart(maxParallel);
    } else {
      var init, step := run[..|run| - 1], run[|run| - 1];
      var before := After(maxParallel, init).value;
      RetriesExact(maxParallel, init, before);
      RunKeepsInv(maxParallel, init);
      RetriedStep(Capacity(maxParallel), before, step, RetriedSince(init));
    }
  }

  lemma RetriedStart(maxParallel: int)
    ensures Retried(Start(maxParallel), false)
  {
  }

  lemma RetriedStep(capacity: int, s: State, step: Step, retried: bool)
    requires Enabled(s, step) && Inv(capacity, s) && Retried(s, retried)
    ensures Retried(Apply(s, step), step == Retry || (!step.Reply? && retried))
  {
    hide SlotsConserved, InOrder, NoLostWakeup, InterruptsUseful, InterruptPending, StopsExplained, CallTracked,
         Contracted, Dispatched, MapSound, CalledOnce, Unmixed, WorkersAfter, SharedAfter, FreshId;
    LastPollStep(s, step);
  }

  /** Once the interrupt is cleared nothing changes the last poll until the next is prepared. */
  lemma LastPollStep(s: State, step: Step)
    requires Enabled(s, step) && PollTracked(s)
    ensures !Open(s.pc) && step != Prepare ==> Apply(s, step).polls == s.polls
  {
    hide WorkersAfter, SharedAfter, PcAfter, FreshId;
  }

  /** The loop ends its polling only on a shutdown. */
  lemma EndsOnShutdownOnly(maxParallel: int, run: seq<Step>, s: State)
    requires Reaches(maxParallel, run, s)
    ensures s.pc in {Draining, Returned} ==> s.shutdown && Stop in run
  {
    hide After, SlotsConserved, InOrder, PollTracked, NoLostWakeup, InterruptsUseful, InterruptPending, StopsExplained,
         CallTracked, Contracted, Dispatched, MapSound, CalledOnce, Unmixed;
    RunKeepsInv(maxParallel, run);
    ShutdownExact(maxParallel, run, s);
  }

  lemma {:induction false} ShutdownExact(maxParallel: int, run: seq<Step>, s: State)
    requires Reaches(maxParallel, run, s)
    ensures s.shutdown <==> Stop in run
  {
    hide Apply, Enabled;
    if run != [] {
      var init, step := run[..|run| - 1], run[|run| - 1];
      assert run == init + [step];
      var before := After(maxParallel, init).value;
      ShutdownExact(maxParallel, init, before);
      ShutdownStays(before, step);
    }
  }

  // ---- What a poll advertises ----

  /** The slots released since the last poll was prepared. */
  function ReleasedSince(run: seq<Step>): nat {
    if run == [] || run[|run| - 1] == Prepare then
      0
    else
      ReleasedSince(run[..|run| - 1]) + if run[|run| - 1].Release? then 1 else 0
  }

  /** A poll in flight has told the control plane of exactly the slots free when it was prepared. */
  lemma {:induction false} AdvertisesFreeSlots(maxParallel: int, run: seq<Step>, s: State)
    requires Reaches(maxParallel, run, s) && Open(s.pc)
    ensures s.polls != [] && LastPoll(s).slots + ReleasedSince(run) == s.shared.slots
  {
    hide Inv, Apply, Enabled;
    if run != [] {
      var init, step := run[..|run| - 1], run[|run| - 1];
      var before := After(maxParallel, init).value;
      if step != Prepare {
        OpenedBefore(before, step);
        AdvertisesFreeSlots(maxParallel, init, before);
      }
      AdvertisedStep(before, step, ReleasedSince(init));
    }
  }

  lemma OpenedBefore(s: State, step: Step)
    requires Enabled(s, step) && step != Prepare && Open(Apply(s, step).pc)
    ensures Open(s.pc)
  {
    hide WorkersAfter, SharedAfter, PollsAfter, FreshId;
  }

  lemma AdvertisedStep(s: State, step: Step, released: nat)
    requires Enabled(s, step) && Open(Apply(s, step).pc)
    requires step != Prepare ==> s.polls != [] && LastPoll(s).slots + released == s.shared.slots
    ensures var t := Apply(s, step);
            t.polls != []
            && LastPoll(t).slots + (if step == Prepare then 0 else released + if step.Release? then 1 else 0)
               == t.shared.slots
  {
    hide WorkersAfter, FreshId, AfterPoll;
  }

  // ---- The hypotheses, as things that happen in a run ----

  /** A work item arrives for a poll that advertised no slot. */
  predicate Unasked(s: State, step: Step) {
    step.Reply? && step.answer.WorkItem? && s.polls != [] && LastPoll(s).slots <= 0
  }

  /** A work starts under the id of one whose slot is not released yet. */
  predicate Clashes(s: State, step: Step) {
    step == Take && s.pc.Taking?
    && exists w :: 0 <= w < |s.workers| && s.workers[w].phase != Released && s.workers[w].id == s.pc.id
  }

  predicate UnaskedAt(maxParallel: int, run: seq<Step>, k: nat) {
    k < |run| && After(maxParallel, run[..k]).Some? && Unasked(After(maxParallel, run[..k]).value, run[k])
  }

  predicate ClashesAt(maxParallel: int, run: seq<Step>, k: nat) {
    k < |run| && After(maxParallel, run[..k]).Some? && Clashes(After(maxParallel, run[..k]).value, run[k])
  }

  /** Each hypothesis holds of a run exactly if the step that breaks it never happened. */
  lemma {:induction false} HypothesesExact(maxParallel: int, run: seq<Step>, s: State)
    requires Reaches(maxParallel, run, s)
    ensures s.honoured <==> forall k: nat :: !UnaskedAt(maxParallel, run, k)
    ensures s.distinct <==> forall k: nat :: !ClashesAt(maxParallel, run, k)
  {
    hide Apply, Enabled, Unasked, Clashes;
    if run == [] {
    } else {
      var init, step := run[..|run| - 1], run[|run| - 1];
      var before := After(maxParallel, init).value;
      HypothesesExact(maxParallel, init, before);
      HypothesesStep(before, step);
      forall k: nat | k < |init|
        ensures UnaskedAt(maxParallel, run, k) <==> UnaskedAt(maxParallel, init, k)
        ensures ClashesAt(maxParallel, run, k) <==> ClashesAt(maxParallel, init, k)
      {
        assert run[..k] == init[..k];
      }
      assert UnaskedAt(maxParallel, run, |init|) <==> Unasked(before, step);
      assert ClashesAt(maxParallel, run, |init|) <==> Clashes(before, step);
    }
  }

  lemma HypothesesStep(s: State, step: Step)
    requires Enabled(s, step)
    ensures Apply(s, step).honoured <==> s.honoured && !Unasked(s, step)
    ensures Apply(s, step).distinct <==> s.distinct && !Clashes(s, step)
  {
    hide WorkersAfter, SharedAfter, PcAfter, PollsAfter;
  }

  /**
   Every work item received gets its own worker, in order, interrupted poll or not, shutdown
   or not; only the last may still be on its way to one.
   */
  lemma EveryItemDispatched(maxParallel: int, run: seq<Step>, s: State)
    requires Reaches(maxParallel, run, s)
    ensures Ids(s.workers) <= ItemIds(s.polls, false) && |ItemIds(s.polls, false)| <= |s.workers| + 1
    ensures s.pc in {Top, Draining, Returned} ==> ItemIds(s.polls, false) == Ids(s.workers)
  {
    hide After, SlotsConserved, InOrder, PollTracked, NoLostWakeup, InterruptsUseful, InterruptPending, CallTracked,
         Contracted, MapSound, CalledOnce, Unmixed, ItemIds;
    RunKeepsInv(maxParallel, run);
  }

  /** The ids the loop has looked up for cancel items, in the order of these lookups. */
  function LookedUp(maxParallel: int, run: seq<Step>): seq<Id> {
    if run == [] then
      []
    else
      var init, step := run[..|run| - 1], run[|run| - 1];
      var before := After(maxParallel, init);
      LookedUp(maxParallel, init)
      + if step == TakeNamed && before.Some? && before.value.pc.Removing? then [before.value.pc.id] else []
  }

  /**
   Every cancel item received leads to a lookup of its id, in order, interrupted poll or not,
   shutdown or not; only the last may still be on its way to one.
   */
  lemma {:induction false} EveryCancelItemLookedUp(maxParallel: int, run: seq<Step>, s: State)
    requires Reaches(maxParallel, run, s)
    ensures ItemIds(s.polls, true) == LookedUp(maxParallel, run) + Pending(s, true)
    ensures s.pc in {Top, Draining, Returned} ==> ItemIds(s.polls, true) == LookedUp(maxParallel, run)
  {
    hide ItemIds, ItemId, Enabled, Apply, Inv;
    if run != [] {
      var init, step := run[..|run| - 1], run[|run| - 1];
      var before := After(maxParallel, init).value;
      EveryCancelItemLookedUp(maxParallel, init, before);
      RunKeepsInv(maxParallel, init);
      LookedUpStep(Capacity(maxParallel), before, step, LookedUp(maxParallel, init));
    } else {
      NoItems();
    }
  }

  lemma NoItems()
    ensures ItemIds([], true) == []
  {
  }

  lemma LookedUpStep(capacity: int, s: State, step: Step, looked: seq<Id>)
    requires Enabled(s, step) && Inv(capacity, s)
    requires ItemIds(s.polls, true) == looked + Pending(s, true)
    ensures step == TakeNamed ==> s.pc.Removing?
    ensures ItemIds(Apply(s, step).polls, true)
            == (looked + if step == TakeNamed then [s.pc.id] else []) + Pending(Apply(s, step), true)
  {
    hide ItemIds, ItemId, Pending, FreshId, WorkersAfter, SharedAfter, PcAfter, PollsAfter, SlotsConserved, InOrder,
         NoLostWakeup, InterruptsUseful, InterruptPending, StopsExplained, CallTracked, Contracted, Dispatched,
         MapSound, CalledOnce, Unmixed, PollTracked;
    ItemIdsStep(s, step, true);
    PendingStep(s, step, true);
    Associate(looked, Pending(s, true), if step.Reply? then ItemId(step.answer, true) else []);
    Associate(looked, TakenUp(s, step, true), Pending(Apply(s, step), true));
  }

  function Overlapping(ws: seq<Worker>): nat {
    if ws == [] then 0 else Overlapping(ws[..|ws| - 1]) + if ws[|ws| - 1].phase == Running then 1 else 0
  }

  lemma {:induction false} OverlappingHold(ws: seq<Worker>)
    ensures Overlapping(ws) <= Held(ws)
  {
    if ws != [] {
      OverlappingHold(ws[..|ws| - 1]);
    }
  }

  /**
   Slots are conserved over every run, and the counter is never below what the poll in flight
   advertised. While the control plane keeps to its contract the counter is not negative, so no
   more than max(MaxParallel, 1) works run at once.
   */
  lemma SlotConservation(maxParallel: int, run: seq<Step>, s: State)
    requires Reaches(maxParallel, run, s)
    ensures s.shared.slots + Held(s.workers) == Capacity(maxParallel)
    ensures var c := Capacity(maxParallel); c >= 1 && c >= maxParallel && (c == 1 || c == maxParallel)
    ensures Open(s.pc) ==> s.polls != [] && LastPoll(s).slots <= s.shared.slots
    ensures s.honoured ==>
              0 <= s.shared.slots <= Capacity(maxParallel) && Overlapping(s.workers) <= Capacity(maxParallel)
  {
    hide After, NoLostWakeup, InOrder, InterruptsUseful, InterruptPending, CallTracked, Dispatched, MapSound,
         CalledOnce, Unmixed, Held, Overlapping;
    RunKeepsInv(maxParallel, run);
    OverlappingHold(s.workers);
  }

  /** In every run a cancel function leaves the map at most once and is called at most once. */
  lemma CanceledAtMostOnce(maxParallel: int, run: seq<Step>, s: State, w: nat)
    requires Reaches(maxParallel, run, s) && w < |s.workers|
    ensures s.workers[w].called <= s.workers[w].taken <= 1
  {
    hide After, SlotsConserved, InOrder, PollTracked, NoLostWakeup, InterruptsUseful, InterruptPending, CallTracked,
         Contracted, Dispatched, MapSound, Unmixed;
    RunKeepsInv(maxParallel, run);
  }

  /**
   With distinct ids, by the time a worker releases its slot its cancel function has left the
   map exactly once, and has been called unless the loop, having taken it for a cancel item, is
   just about to call it.
   */
  lemma CanceledExactlyOnce(maxParallel: int, run: seq<Step>, s: State, w: nat)
    requires Reaches(maxParallel, run, s) && s.distinct && w < |s.workers| && s.workers[w].phase == Released
    ensures s.workers[w].taken == 1
    ensures s.workers[w].called == if s.pc == Calling(Some(w)) then 0 else 1
  {
    hide After, SlotsConserved, InOrder, PollTracked, NoLostWakeup, InterruptsUseful, InterruptPending, CallTracked,
         Contracted, Dispatched, MapSound;
    RunKeepsInv(maxParallel, run);
    assert OwnCancel(s, w);
  }

  /** The last poll was answered with a cancel item for `id`. */
  predicate Names(s: State, id: Id) {
    s.polls != [] && LastPoll(s).answer == CancelItem(id)
  }

  /** A cancel item takes the entry it names from the map and no other, stops that work only, and changes no slot. */
  lemma CancelItemIsNarrow(maxParallel: int, run: seq<Step>, s: State, step: Step)
    requires Reaches(maxParallel, run, s) && Enabled(s, step) && step in {TakeNamed, CallNamed}
    ensures Apply(s, step).shared.slots == s.shared.slots && Apply(s, step).polls == s.polls
    ensures var before, after := s.workers, Apply(s, step).workers;
            && |after| == |before|
            && forall v :: 0 <= v < |before| && after[v] != before[v] ==> Names(s, before[v].id)
    ensures var before, after := s.shared.cancels, Apply(s, step).shared.cancels;
            && (forall id :: !Names(s, id) ==>
                  (id in after <==> id in before) && (id in before ==> after[id] == before[id]))
            && (forall id :: step == TakeNamed && Names(s, id) ==> id !in after)
  {
    hide After, SlotsConserved, InOrder, NoLostWakeup, InterruptsUseful, InterruptPending,
         Contracted, Dispatched, CalledOnce, Unmixed, PcAfter, OwnerPresent;
    RunKeepsInv(maxParallel, run);
    assert step == TakeNamed && s.pc.id in s.shared.cancels ==> Entry(s, s.pc.id);
  }

  /** When the loop returns, every worker has finished, no cancel function is left and every slot is back. */
  lemma CleanShutdown(maxParallel: int, run: seq<Step>, s: State)
    requires Reaches(maxParallel, run, s) && s.pc == Returned
    ensures forall w :: 0 <= w < |s.workers| ==> s.workers[w].phase == Released
    ensures s.shared.cancels == map[] && s.shared.slots == Capacity(maxParallel)
    ensures s.distinct ==> forall w :: 0 <= w < |s.workers| ==> s.workers[w].taken == s.workers[w].called == 1
  {
    hide After, PollTracked, NoLostWakeup, InterruptsUseful, InterruptPending, CallTracked,
         Contracted, Dispatched, CalledOnce, Held;
    RunKeepsInv(maxParallel, run);
    NoneHeld(s.workers);
    assert forall id :: id in s.shared.cancels ==> OwnerPresent(s.workers, id);
    if s.distinct {
      forall w | 0 <= w < |s.workers|
        ensures s.workers[w].taken == s.workers[w].called == 1
      {
        assert OwnCancel(s, w);
      }
    }
  }

  lemma {:induction false} NoneHeld(ws: seq<Worker>)
    requires forall w :: 0 <= w < |ws| ==> ws[w].phase == Released
    ensures Held(ws) == 0
  {
    if ws != [] {
      NoneHeld(ws[..|ws| - 1]);
    }
  }

  /** The steps a worker has left. */
  function Left(p: Phase): nat {
    match p
    case Taken => 6
    case Mapped => 5
    case Running => 4
    case Finished => 3
    case Removed(_) => 2
    case Ending => 1
    case Released => 0
  }

  function Remaining(ws: seq<Worker>): nat {
    if ws == [] then 0 else Remaining(ws[..|ws| - 1]) + Left(ws[|ws| - 1].phase)
  }

  lemma {:induction false} RemainingUpdate(ws: seq<Worker>, w: nat, x: Worker)
    requires w < |ws|
    ensures Remaining(ws[w := x]) + Left(ws[w].phase) == Remaining(ws) + Left(x.phase)
  {
    var last := |ws| - 1;
    if w < last {
      RemainingUpdate(ws[..last], w, x);
      assert ws[w := x][..last] == ws[..last][w := x];
    } else {
      assert ws[w := x][..last] == ws[..last];
    }
  }

  /** Counting a use and moving on is one update, or two. */
  lemma RemainingMove(ws: seq<Worker>, cancel: Option<nat>, w: nat, p: Phase)
    requires w < |ws|
    ensures Remaining(Move(ws, w, p)) + Left(ws[w].phase) == Remaining(ws) + Left(p)
    ensures Remaining(Move(CountTaken(ws, cancel), w, p)) + Left(ws[w].phase) == Remaining(ws) + Left(p)
    ensures Remaining(Move(CountCalled(ws, cancel), w, p)) + Left(ws[w].phase) == Remaining(ws) + Left(p)
  {
    hide Remaining;
    RemainingUpdate(ws, w, ws[w].(phase := p));
    var taken, called := CountTaken(ws, cancel), CountCalled(ws, cancel);
    RemainingUpdate(taken, w, taken[w].(phase := p));
    RemainingUpdate(called, w, called[w].(phase := p));
    if cancel.Some? && cancel.value < |ws| {
      RemainingUpdate(ws, cancel.value, taken[cancel.value]);
      RemainingUpdate(ws, cancel.value, called[cancel.value]);
    }
  }

  /**
   The wait at the end cannot hang on the protocol: some step is always possible, and every
   step but a repeated shutdown brings the return nearer.
   */
  lemma DrainEnds(maxParallel: int, run: seq<Step>, s: State) returns (step: Step)
    requires Reaches(maxParallel, run, s) && s.pc == Draining
    ensures Enabled(s, step) && step != Stop
    ensures forall any :: Enabled(s, any) && any != Stop ==>
              Apply(s, any).pc == Returned
              || (Apply(s, any).pc == Draining && Remaining(Apply(s, any).workers) < Remaining(s.workers))
  {
    hide After, SlotsConserved, PollTracked, NoLostWakeup, InterruptsUseful, InterruptPending, CallTracked, Contracted,
         Dispatched, MapSound, CalledOnce, Unmixed, Remaining;
    RunKeepsInv(maxParallel, run);
    step := Return;
    if !Enabled(s, Return) {
      var w: nat :| w < |s.workers| && s.workers[w].phase != Released;
      step := match s.workers[w].phase
        case Running => Finish(w)
        case Finished => Remove(w)
        case Removed(_) => CallOwn(w)
        case _ => Release(w);
    }
    forall any | Enabled(s, any) && any != Stop
      ensures Apply(s, any).pc == Returned
              || (Apply(s, any).pc == Draining && Remaining(Apply(s, any).workers) < Remaining(s.workers))
    {
      DrainStep(s, any);
    }
  }

  lemma DrainStep(s: State, step: Step)
    requires s.pc == Draining && Enabled(s, step) && step != Stop
    ensures Apply(s, step).pc == Returned
            || (Apply(s, step).pc == Draining && Remaining(Apply(s, step).workers) < Remaining(s.workers))
  {
    hide Remaining, SharedAfter, PollsAfter, FreshId;
    match step
    case Finish(w) => RemainingMove(s.workers, None, w, Finished);
    case Remove(w) =>
      var cancel := TakeCancel(s.shared, s.workers[w].id).0;
      RemainingMove(s.workers, cancel, w, Removed(cancel));
    case CallOwn(w) => RemainingMove(s.workers, s.workers[w].phase.cancel, w, Ending);
    case Release(w) => RemainingMove(s.workers, None, w, Released);
    case _ =>
  }

  // ---- After a shutdown ----

  /** How far the loop is from its return, once there is a shutdown. */
  function LoopRank(pc: Pc): nat {
    match pc
    case Preparing => 9
    case InFlight => 8
    case Answered => 7
    case Deciding => 6
    case Taking(_) => 5
    case Inserting => 4
    case Removing(_) => 4
    case Launching => 3
    case Calling(_) => 3
    case Backoff => 3
    case Top => 2
    case Draining => 1
    case Returned => 0
  }

  /** The loop's own next step, if its poll fails. */
  function LoopStep(s: State): Step {
    match s.pc
    case Preparing => Prepare
    case InFlight => Reply(Failed)
    case Answered => Clear
    case Deciding => Decide
    case Taking(_) => Take
    case Inserting => Insert
    case Removing(_) => TakeNamed
    case Launching => Launch
    case Calling(_) => CallNamed
    case Backoff => GiveUp
    case Top => Check
    case _ => Return
  }

  /** After a shutdown no step takes the loop further from its wait for the workers, and its own brings it nearer. */
  lemma ShutdownDrains(maxParallel: int, run: seq<Step>, s: State)
    requires Reaches(maxParallel, run, s) && s.shutdown
    ensures forall any :: Enabled(s, any) ==>
              Apply(s, any).pc == s.pc || LoopRank(Apply(s, any).pc) < LoopRank(s.pc)
    ensures s.pc !in {Draining, Returned} ==>
              && Enabled(s, LoopStep(s)) && LoopStep(s) != Stop
              && LoopRank(Apply(s, LoopStep(s)).pc) < LoopRank(s.pc)
  {
    hide After, SlotsConserved, NoLostWakeup, InterruptsUseful, InterruptPending, StopsExplained, CallTracked,
         Contracted, Dispatched, MapSound, CalledOnce, Unmixed, LoopRank, Apply;
    RunKeepsInv(maxParallel, run);
    forall any | Enabled(s, any)
      ensures Apply(s, any).pc == s.pc || LoopRank(Apply(s, any).pc) < LoopRank(s.pc)
    {
      ShutdownStep(s, any);
    }
    if s.pc !in {Draining, Returned} {
      LoopStepMoves(s);
    }
  }

  lemma ShutdownStep(s: State, step: Step)
    requires Enabled(s, step) && s.shutdown
    ensures Apply(s, step).pc == s.pc || LoopRank(Apply(s, step).pc) < LoopRank(s.pc)
  {
    hide SharedAfter, PollsAfter, WorkersAfter, FreshId;
  }

  lemma LoopStepMoves(s: State)
    requires Enabled(s, LoopStep(s)) && s.shutdown && s.pc !in {Draining, Returned}
    ensures LoopRank(Apply(s, LoopStep(s)).pc) < LoopRank(s.pc)
  {
    hide SharedAfter, PollsAfter, WorkersAfter, FreshId;
  }

  lemma ShutdownStays(s: State, step: Step)
    requires Enabled(s, step)
    ensures Apply(s, step).shutdown == (s.shutdown || step == Stop)
    ensures step == Stop ==> Apply(s, step).pc == s.pc
  {
  }

  /** From every state of every run a shutdown can bring the loop to its return. */
  lemma {:induction false} ReturnReachable(maxParallel: int, run: seq<Step>, s: State)
    returns (more: seq<Step>, t: State)
    requires Reaches(maxParallel, run, s)
    ensures Reaches(maxParallel, run + more, t) && t.pc == Returned
    decreases if s.shutdown then 0 else 1, LoopRank(s.pc), Remaining(s.workers)
  {
    hide Reaches, Apply, Enabled, LoopRank, Remaining, LoopStep;
    if s.pc == Returned {
      more, t := [], s;
      assert run + more == run;
    } else {
      var step := NextToReturn(maxParallel, run, s);
      ShutdownStays(s, step);
      AfterSnoc(maxParallel, run, s, step);
      more, t := ReturnReachable(maxParallel, run + [step], Apply(s, step));
      Associate(run, [step], more);
      more := [step] + more;
    }
  }

  lemma NextToReturn(maxParallel: int, run: seq<Step>, s: State) returns (step: Step)
    requires Reaches(maxParallel, run, s) && s.pc != Returned
    ensures Enabled(s, step)
    ensures if !s.shutdown then step == Stop
            else var t := Apply(s, step);
                 LoopRank(t.pc) < LoopRank(s.pc)
                 || (LoopRank(t.pc) == LoopRank(s.pc) && Remaining(t.workers) < Remaining(s.workers))
  {
    hide Reaches, Apply, Remaining, LoopStep;
    if !s.shutdown {
      step := Stop;
    } else if s.pc == Draining {
      step := DrainEnds(maxParallel, run, s);
    } else {
      ShutdownDrains(maxParallel, run, s);
      step := LoopStep(s);
    }
  }

  // ---- Runs that show what the hypotheses are for ----

  lemma AfterSnoc(maxParallel: int, run: seq<Step>, s: State, step: Step)
    requires Reaches(maxParallel, run, s) && Enabled(s, step)
    ensures Reaches(maxParallel, run + [step], Apply(s, step))
  {
    hide Apply;
    assert (run + [step])[..|run|] == run;
  }

  lemma Go(maxParallel: int, run: seq<Step>, s: State, step: Step) returns (longer: seq<Step>, t: State)
    requires Reaches(maxParallel, run, s) && Enabled(s, step)
    ensures Reaches(maxParallel, longer, t) && t == Apply(s, step)
  {
    longer, t := run + [step], Apply(s, step);
    AfterSnoc(maxParallel, run, s, step);
  }

  /** The loop at its top, between two polls. */
  predicate AtTop(s: State) {
    s.pc == Top && !s.shutdown && s.shared.interrupt == None
  }

  function Polled(s: State, answer: Answer): State {
    s.(pc := Deciding, polls := s.polls + [Poll(s.shared.slots, Live, answer)],
       honoured := s.honoured && (answer.WorkItem? ==> s.shared.slots >= 1))
  }

  /** A poll is sent and answered. */
  lemma PollOnce(maxParallel: int, before: seq<Step>, s: State, answer: Answer) returns (run: seq<Step>, t: State)
    requires Reaches(maxParallel, before, s) && AtTop(s) && answer != Waiting
    ensures Reaches(maxParallel, run, t) && t == Polled(s, answer)
  {
    hide Reaches;
    var open := s.(pc := InFlight, shared := s.shared.(interrupt := Some(|s.polls|)),
                   polls := s.polls + [Poll(s.shared.slots, Live, Waiting)]);
    run, t := Go(maxParallel, before, s, Check);
    run, t := Go(maxParallel, run, t, Prepare);
    assert t == open;
    run, t := Go(maxParallel, run, t, Reply(answer));
    assert open.polls[|s.polls| := open.polls[|s.polls|].(answer := answer)] == Polled(s, answer).polls;
    run, t := Go(maxParallel, run, t, Clear);
  }

  function WithWorker(s: State, id: Id): State {
    s.(pc := Top, shared := Shared(s.shared.slots - 1, s.shared.cancels[id := |s.workers|], s.shared.interrupt),
       workers := s.workers + [Worker(id, Running, 0, 0)], distinct := s.distinct && FreshId(s.workers, id))
  }

  /** The work item just received starts running. */
  lemma StartWork(maxParallel: int, before: seq<Step>, s: State, id: Id) returns (run: seq<Step>, t: State)
    requires Reaches(maxParallel, before, s) && s.pc == Deciding && s.polls != [] && LastPoll(s).answer == WorkItem(id)
    ensures Reaches(maxParallel, run, t) && t == WithWorker(s, id)
  {
    hide Reaches, FreshId;
    run, t := Go(maxParallel, before, s, Decide);
    run, t := Go(maxParallel, run, t, Take);
    MoveLast(s.workers, Worker(id, Taken, 0, 0), Mapped);
    run, t := Go(maxParallel, run, t, Insert);
    MoveLast(s.workers, Worker(id, Mapped, 0, 0), Running);
    run, t := Go(maxParallel, run, t, Launch);
  }

  lemma MoveLast(ws: seq<Worker>, x: Worker, p: Phase)
    ensures Move(ws + [x], |ws|, p) == ws + [x.(phase := p)]
  {
  }

  /**
   The exception in CanceledExactlyOnce is real: the loop takes the cancel function of a work,
   and before it calls it the work ends by itself, finds nothing in the map and releases its slot.
   */
  lemma ReleasedBeforeCanceled() returns (run: seq<Step>, s: State)
    ensures Reaches(1, run, s) && s.honoured && s.distinct
    ensures |s.workers| == 1 && s.workers[0].phase == Released && s.workers[0].called == 0
  {
    hide Reaches;
    run, s := AboutToCancel();
    run, s := Go(1, run, s, Finish(0));
    run, s := Go(1, run, s, Remove(0));
    assert s.workers == [Worker(7, Removed(None), 1, 0)];
    run, s := Go(1, run, s, CallOwn(0));
    run, s := Go(1, run, s, Release(0));
  }

  lemma OneRunning() returns (run: seq<Step>, s: State)
    ensures Reaches(1, run, s) && AtTop(s) && s.honoured && s.distinct
    ensures s.shared == Shared(0, map[7 := 0], None) && s.workers == [Worker(7, Running, 0, 0)]
  {
    hide Reaches;
    StartReached(1);
    run, s := PollOnce(1, [], Start(1), WorkItem(7));
    run, s := StartWork(1, run, s, 7);
  }

  lemma AboutToCancel() returns (run: seq<Step>, s: State)
    ensures Reaches(1, run, s) && s.honoured && s.distinct && s.pc == Calling(Some(0)) && s.shared.cancels == map[]
    ensures s.workers == [Worker(7, Running, 1, 0)]
  {
    hide Reaches, FreshId;
    run, s := OneRunning();
    run, s := PollOnce(1, run, s, CancelItem(7));
    run, s := Go(1, run, s, Decide);
    run, s := Go(1, run, s, TakeNamed);
  }

  lemma StartReached(maxParallel: int)
    ensures Reaches(maxParallel, [], Start(maxParallel)) && AtTop(Start(maxParallel))
  {
  }

  /** With two live works of one id, the end of the first cancels the second while it runs. */
  lemma SharedIdCancelsOther() returns (run: seq<Step>, s: State)
    ensures Reaches(2, run, s) && s.honoured && !s.distinct
    ensures |s.workers| == 2 && s.workers[0].phase == Ending && s.workers[0].called == 0
    ensures s.workers[1].phase == Running && s.workers[1].called == 1
  {
    hide Reaches;
    StartReached(2);
    run, s := PollOnce(2, [], Start(2), WorkItem(7));
    run, s := StartWork(2, run, s, 7);
    assert s.workers == [Worker(7, Running, 0, 0)];
    assert s.workers[0].id == 7;
    run, s := PollOnce(2, run, s, WorkItem(7));
    run, s := StartWork(2, run, s, 7);
    assert s.workers == [Worker(7, Running, 0, 0), Worker(7, Running, 0, 0)] && s.shared.cancels == map[7 := 1];
    run, s := OtherCanceled(run, s);
  }

  lemma OtherCanceled(before: seq<Step>, b: State) returns (run: seq<Step>, s: State)
    requires Reaches(2, before, b) && b.shared.cancels == map[7 := 1]
    requires b.workers == [Worker(7, Running, 0, 0), Worker(7, Running, 0, 0)]
    ensures Reaches(2, run, s) && s.honoured == b.honoured && s.distinct == b.distinct
    ensures s.workers == [Worker(7, Ending, 0, 0), Worker(7, Running, 1, 1)]
  {
    hide Reaches;
    run, s := Go(2, before, b, Finish(0));
    run, s := Go(2, run, s, Remove(0));
    run, s := Go(2, run, s, CallOwn(0));
  }

  /** A control plane that sends work to a poll without a slot drives the counter below zero. */
  lemma UnaskedWorkOverbooks() returns (run: seq<Step>, s: State)
    ensures Reaches(1, run, s) && s.distinct && !s.honoured && s.shared.slots == -1
    ensures s.workers == [Worker(7, Running, 0, 0), Worker(8, Running, 0, 0)]
  {
    hide Reaches;
    run, s := OneRunning();
    run, s := PollOnce(1, run, s, WorkItem(8));
    run, s := StartWork(1, run, s, 8);
  }
}