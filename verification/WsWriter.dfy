/** The bounded websocket writer: any number of senders, one writer loop, and shutdown, interleaved
    at the granularity of its lock sections, channel operations and socket calls. */
module WsWriter {
  import opened Common

  const MAX_MESSAGES := 256
  const MAX_BYTES := 0x100_0000

  // ----- the machine -----

  /** Where a call of Send or Stop (or a fail or Stop of the loop) has got to. `failing` tells fail, which
      also closes the socket, from Stop, which does not. */
  datatype Call =
    | Offering(message: Bytes)                  // bytes reserved, about to offer the message to the channel
    | Releasing(message: Bytes, failing: bool)  // turned away, about to give its bytes back
    | Closing(failing: bool)                    // waiting to enter the once
    | Inside(failing: bool)                     // in the once: closed is set, done is not closed yet
    | ClosingSocket                             // still in the once: done is closed, the socket is closing
    | Returned(sent: bool)

  datatype Once = Unused | Entered(call: nat) | Finished

  datatype Loop = Idle | Writing(message: Bytes) | Exited

  /** `accepted` and `written` record the messages the channel took and the loop handed to the
      socket; `closes` counts how often done was closed. */
  datatype State = State(bytes: int, closed: bool, done: bool, once: Once, queue: seq<Bytes>, loop: Loop,
                         calls: seq<Call>, accepted: seq<Bytes>, written: seq<Bytes>, closes: nat)

  const Start := State(0, false, false, Unused, [], Idle, [], [], [], 0)

  datatype Step =
    | Reserve(message: Bytes)
    | Push(call: nat)
    | NoticeDone(call: nat)
    | GiveUp(call: nat)
    | Release(call: nat)
    | Stop
    | Enter(call: nat)
    | CloseDone(call: nat)
    | SocketClosed(call: nat)
    | Pass(call: nat)
    | Take
    | Wrote(ok: bool)
    | LoopDone
    | LoopCancelled

  predicate Enabled(s: State, step: Step) {
    match step
    case Reserve(_) => true
    case Push(k) => k < |s.calls| && s.calls[k].Offering? && |s.queue| < MAX_MESSAGES
    case NoticeDone(k) => k < |s.calls| && s.calls[k].Offering? && s.done
    case GiveUp(k) => k < |s.calls| && s.calls[k].Offering? && |s.queue| >= MAX_MESSAGES && !s.done
    case Release(k) => k < |s.calls| && s.calls[k].Releasing?
    case Stop => true
    case Enter(k) => k < |s.calls| && s.calls[k].Closing? && s.once.Unused?
    case CloseDone(k) => k < |s.calls| && s.calls[k].Inside?
    case SocketClosed(k) => k < |s.calls| && s.calls[k].ClosingSocket?
    case Pass(k) => k < |s.calls| && s.calls[k].Closing? && s.once.Finished?
    case Take => s.loop.Idle? && s.queue != []
    case Wrote(_) => s.loop.Writing?
    case LoopDone => s.loop.Idle? && s.done
    case LoopCancelled => s.loop.Idle?
  }

  /** The counter after `release`, which never lets it go below zero. */
  function Released(bytes: int, n: nat): int {
    if bytes - n < 0 then 0 else bytes - n
  }

  function Next(s: State, step: Step): State
    requires Enabled(s, step)
  {
    match step
    case Reserve(m) =>
      if s.closed then s.(calls := s.calls + [Returned(false)])
      else if s.bytes + |m| > MAX_BYTES then s.(calls := s.calls + [Closing(true)])
      else s.(bytes := s.bytes + |m|, calls := s.calls + [Offering(m)])
    case Push(k) =>
      var m := s.calls[k].message;
      s.(queue := s.queue + [m], accepted := s.accepted + [m], calls := s.calls[k := Returned(true)])
    case NoticeDone(k) => s.(calls := s.calls[k := Releasing(s.calls[k].message, false)])
    case GiveUp(k) => s.(calls := s.calls[k := Releasing(s.calls[k].message, true)])
    case Release(k) =>
      s.(bytes := Released(s.bytes, |s.calls[k].message|),
         calls := s.calls[k := if s.calls[k].failing then Closing(true) else Returned(false)])
    case Stop => s.(calls := s.calls + [Closing(false)])
    case Enter(k) => s.(closed := true, once := Entered(k), calls := s.calls[k := Inside(s.calls[k].failing)])
    case CloseDone(k) =>
      var s' := s.(done := true, closes := s.closes + 1);
      if s.calls[k].failing then s'.(calls := s.calls[k := ClosingSocket])
      else s'.(once := Finished, calls := s.calls[k := Returned(false)])
    case SocketClosed(k) => s.(once := Finished, calls := s.calls[k := Returned(false)])
    case Pass(k) => s.(calls := s.calls[k := Returned(false)])
    case Take =>
      s.(loop := Writing(s.queue[0]), queue := s.queue[1..], written := s.written + [s.queue[0]])
    case Wrote(ok) =>
      var s' := s.(bytes := Released(s.bytes, |s.loop.message|));
      if ok then s'.(loop := Idle) else s'.(loop := Exited, calls := s.calls + [Closing(true)])
    case LoopDone => s.(loop := Exited)
    case LoopCancelled => s.(loop := Exited, calls := s.calls + [Closing(false)])
  }

  /** Every step of a run was enabled where it was taken. */
  predicate Possible(s: State, steps: seq<Step>)
    decreases |steps|
  {
    steps == [] || (Enabled(s, steps[0]) && Possible(Next(s, steps[0]), steps[1..]))
  }

  function Run(s: State, steps: seq<Step>): State
    requires Possible(s, steps)
    decreases |steps|
  {
    if steps == [] then s else Run(Next(s, steps[0]), steps[1..])
  }

  // ----- the invariant -----

  function Weight(c: Call): nat {
    if c.Offering? || c.Releasing? then |c.message| else 0
  }

  /** Bytes reserved by calls that have neither queued nor released them. */
  function Held(calls: seq<Call>): nat {
    if calls == [] then 0 else Held(calls[..|calls| - 1]) + Weight(calls[|calls| - 1])
  }

  /** How many calls reported success. */
  function Successes(calls: seq<Call>): nat {
    if calls == [] then 0
    else Successes(calls[..|calls| - 1]) + if calls[|calls| - 1] == Returned(true) then 1 else 0
  }

  function InFlight(l: Loop): nat {
    if l.Writing? then |l.message| else 0
  }

  /** The byte counter is the exact size of everything reserved, queued or being written. */
  ghost predicate Counted(s: State) {
    && s.bytes == Held(s.calls) + Total(s.queue) + InFlight(s.loop)
    && s.bytes <= MAX_BYTES && |s.queue| <= MAX_MESSAGES
  }

  /** The socket got a prefix of what the channel took, in order, and the rest is queued. */
  ghost predicate Ordered(s: State) {
    && s.accepted == s.written + s.queue
    && Successes(s.calls) == |s.accepted|
    && (s.loop.Writing? ==> s.written != [] && s.loop.message == s.written[|s.written| - 1])
  }

  predicate InOnce(c: Call) {
    c.Inside? || c.ClosingSocket?
  }

  /** One call at most is inside the once; done is closed exactly when that call has closed it or has left. */
  ghost predicate ClosedOnce(s: State) {
    && s.closes == (if s.done then 1 else 0)
    && (s.closed <==> !s.once.Unused?)
    && (s.once.Unused? ==> !s.done)
    && (s.once.Finished? ==> s.done)
    && (s.once.Entered? ==>
          && s.once.call < |s.calls| && InOnce(s.calls[s.once.call])
          && (s.done <==> s.calls[s.once.call].ClosingSocket?))
    && (forall k | 0 <= k < |s.calls| :: InOnce(s.calls[k]) ==> s.once == Entered(k))
  }

  ghost predicate Inv(s: State) {
    Counted(s) && Ordered(s) && ClosedOnce(s)
  }

  lemma {:induction false} CallMoves(calls: seq<Call>, k: nat, c: Call)
    requires k < |calls|
    ensures Held(calls[k := c]) == Held(calls) - Weight(calls[k]) + Weight(c)
    ensures Held(calls) >= Weight(calls[k])
    ensures Successes(calls[k := c]) == Successes(calls)
              - (if calls[k] == Returned(true) then 1 else 0) + (if c == Returned(true) then 1 else 0)
  {
    var n := |calls| - 1;
    if k == n {
      assert calls[k := c][..n] == calls[..n];
    } else {
      CallMoves(calls[..n], k, c);
      assert calls[k := c][..n] == calls[..n][k := c];
    }
  }

  lemma CallArrives(calls: seq<Call>, c: Call)
    ensures Held(calls + [c]) == Held(calls) + Weight(c)
    ensures Successes(calls + [c]) == Successes(calls) + if c == Returned(true) then 1 else 0
  {
    assert (calls + [c])[..|calls|] == calls;
  }

  /** The call a step moves, and where it goes. */
  lemma CallsFollow(s: State, step: Step)
    requires Enabled(s, step)
    ensures var t := Next(s, step);
      && (step.Reserve? ==> Held(t.calls) == Held(s.calls) + Weight(t.calls[|s.calls|]))
      && (step.Push? || step.Release? ==>
            && Held(t.calls) == Held(s.calls) - |s.calls[step.call].message|
            && Held(s.calls) >= |s.calls[step.call].message|)
      && (!step.Reserve? && !step.Push? && !step.Release? ==> Held(t.calls) == Held(s.calls))
      && Successes(t.calls) == Successes(s.calls) + if step.Push? then 1 else 0
  {
    hide Held, Successes;
    var t := Next(s, step);
    if |t.calls| > |s.calls| {
      CallArrives(s.calls, t.calls[|s.calls|]);
      assert t.calls == s.calls + [t.calls[|s.calls|]];
    } else if OfACall(step) || step.SocketClosed? {
      CallMoves(s.calls, step.call, t.calls[step.call]);
    }
  }

  lemma CountKept(s: State, step: Step)
    requires Counted(s) && Enabled(s, step)
    ensures Counted(Next(s, step))
  {
    hide Held, Successes;
    CallsFollow(s, step);
    if step.Push? {
      TotalAppend(s.queue, [s.calls[step.call].message]);
    }
  }

  lemma OrderKept(s: State, step: Step)
    requires Ordered(s) && Enabled(s, step)
    ensures Ordered(Next(s, step))
  {
    hide Held, Successes;
    CallsFollow(s, step);
  }

  lemma NextKeeps(s: State, step: Step)
    requires Inv(s) && Enabled(s, step)
    ensures Inv(Next(s, step))
  {
    hide Counted, Ordered;
    CountKept(s, step);
    OrderKept(s, step);
  }

  // ----- what holds in every run -----

  /** In every interleaving the counter is exact and within its limit, the socket's messages are a
      prefix of the accepted ones, and done is closed at most once. */
  lemma {:induction false} EveryInterleaving(s: State, steps: seq<Step>)
    requires Inv(s) && Possible(s, steps)
    ensures Inv(Run(s, steps))
    ensures var t := Run(s, steps); t.written <= t.accepted && t.bytes <= 0x100_0000 && t.closes <= 1
    decreases |steps|
  {
    hide Held, Successes, Total, Enabled, Next;
    if steps == [] {
    } else {
      NextKeeps(s, steps[0]);
      EveryInterleaving(Next(s, steps[0]), steps[1..]);
    }
  }

  lemma StartIsSound()
    ensures Inv(Start)
  {
    var s := Start;
    assert |s.written + s.queue| == 0;
    assert s.written + s.queue == [];
  }

  /** What every run from the start comes to. */
  lemma ReachableIsSound(steps: seq<Step>)
    requires Possible(Start, steps)
    ensures Inv(Run(Start, steps))
    ensures var t := Run(Start, steps); t.written <= t.accepted && t.bytes <= 0x100_0000 && t.closes <= 1
  {
    hide *;
    StartIsSound();
    EveryInterleaving(Start, steps);
  }

  /** The clamp of release never has anything to do. */
  lemma ClampNeverFires(steps: seq<Step>, last: Step)
    requires Possible(Start, steps) && Enabled(Run(Start, steps), last)
    ensures var s := Run(Start, steps);
      && (last.Release? ==> s.bytes - |s.calls[last.call].message| >= 0)
      && (last.Wrote? ==> s.bytes - |s.loop.message| >= 0)
  {
    hide Held, Successes, Total, Next, Run, Possible;
    ReachableIsSound(steps);
    var s := Run(Start, steps);
    if last.Release? {
      CallMoves(s.calls, last.call, Returned(false));
    }
  }

  /** A sender is turned away for size exactly when the bytes really outstanding leave no room. */
  lemma RefusedForSize(steps: seq<Step>, m: Bytes)
    requires Possible(Start, steps) && !Run(Start, steps).closed
    ensures var s := Run(Start, steps); var outstanding := Held(s.calls) + Total(s.queue) + InFlight(s.loop);
      Next(s, Reserve(m)).calls[|s.calls|] == Closing(true) <==> outstanding + |m| > 0x100_0000
  {
    hide Held, Successes, Total, Run, Possible;
    ReachableIsSound(steps);
  }

  /** And turned away for number exactly when 256 accepted messages have not been taken for the socket. */
  lemma RefusedForNumber(steps: seq<Step>, k: nat)
    requires Possible(Start, steps) && k < |Run(Start, steps).calls| && Run(Start, steps).calls[k].Offering?
    requires !Run(Start, steps).done
    ensures var s := Run(Start, steps); var waiting := |s.accepted| - |s.written|;
      && (Enabled(s, GiveUp(k)) <==> waiting == 256) && (Enabled(s, Push(k)) <==> waiting < 256)
  {
    hide Held, Successes, Total, Run, Possible;
    ReachableIsSound(steps);
  }

  /** Once every call has returned and the loop is gone, the bytes still counted are the accepted
      messages that were never written. */
  lemma NothingLeaks(steps: seq<Step>)
    requires Possible(Start, steps)
    requires var s := Run(Start, steps); s.loop.Exited? && AllReturned(s)
    ensures var s := Run(Start, steps);
      |s.written| <= |s.accepted| && s.bytes == Total(s.accepted[|s.written|..])
  {
    hide Held, Successes, Total, Next, Run, Possible;
    ReachableIsSound(steps);
    var s := Run(Start, steps);
    NothingHeld(s.calls);
    assert s.accepted[|s.written|..] == s.queue;
  }

  predicate AllReturned(s: State) {
    forall k | 0 <= k < |s.calls| :: s.calls[k].Returned?
  }

  lemma {:induction false} NothingHeld(calls: seq<Call>)
    requires forall k | 0 <= k < |calls| :: calls[k].Returned?
    ensures Held(calls) == 0
  {
    if calls != [] {
      NothingHeld(calls[..|calls| - 1]);
    }
  }

  // ----- who waits for what -----

  function Steps(c: Call): nat {
    match c
    case Offering(_) => 6
    case Releasing(_, _) => 5
    case Closing(_) => 4
    case Inside(_) => 2
    case ClosingSocket => 1
    case Returned(_) => 0
  }

  /** An upper bound on the steps all calls still need. */
  function Work(calls: seq<Call>): nat {
    if calls == [] then 0 else Work(calls[..|calls| - 1]) + Steps(calls[|calls| - 1])
  }

  lemma {:induction false} WorkMoves(calls: seq<Call>, k: nat, c: Call)
    requires k < |calls|
    ensures Work(calls[k := c]) == Work(calls) - Steps(calls[k]) + Steps(c)
  {
    var n := |calls| - 1;
    if k == n {
      assert calls[k := c][..n] == calls[..n];
    } else {
      WorkMoves(calls[..n], k, c);
      assert calls[k := c][..n] == calls[..n][k := c];
    }
  }

  /** A step a call takes by itself: no new call, no step of the loop, nothing the socket has to do. */
  predicate OfACall(step: Step) {
    step.Push? || step.NoticeDone? || step.GiveUp? || step.Release? || step.Enter? || step.CloseDone? || step.Pass?
  }

  /** A step that brings call k, or the one it waits for, closer to its return. */
  function Towards(s: State, k: nat): Step
    requires k < |s.calls| && !s.calls[k].Returned? && ClosedOnce(s)
  {
    match s.calls[k]
    case Offering(_) =>
      if |s.queue| < MAX_MESSAGES then Push(k) else if s.done then NoticeDone(k) else GiveUp(k)
    case Releasing(_, _) => Release(k)
    case Inside(_) => CloseDone(k)
    case ClosingSocket => SocketClosed(k)
    case Closing(_) =>
      match s.once {
        case Unused => Enter(k)
        case Entered(other) => if s.calls[other].ClosingSocket? then SocketClosed(other) else CloseDone(other)
        case Finished => Pass(k)
      }
  }

  lemma Progress(s: State, k: nat)
    requires Inv(s) && k < |s.calls| && !s.calls[k].Returned?
    ensures var step := Towards(s, k); var t := if Enabled(s, step) then Next(s, step) else s;
      && (OfACall(step) || step.SocketClosed?)
      && Enabled(s, step) && |t.calls| == |s.calls| && t.loop == s.loop && Work(t.calls) < Work(s.calls)
  {
    hide Work, Held, Successes, Total;
    var step := Towards(s, k);
    WorkMoves(s.calls, step.call, Next(s, step).calls[step.call]);
  }

  function SocketCloses(steps: seq<Step>): nat {
    if steps == [] then 0 else (if steps[0].SocketClosed? then 1 else 0) + SocketCloses(steps[1..])
  }

  /** How many socket closes the once can still see. */
  function Due(once: Once): nat {
    if once.Finished? then 0 else 1
  }

  /** From any sound state the calls in progress can all return without a step of the loop: no sender waits
      for the writing of a message, its own or another's. All of them together wait for the closing of
      the socket at most once. */
  lemma {:induction false} CallsReturnWithoutTheLoop(s: State) returns (steps: seq<Step>)
    requires Inv(s)
    ensures Possible(s, steps) && |steps| <= Work(s.calls)
    ensures forall i | 0 <= i < |steps| :: OfACall(steps[i]) || steps[i].SocketClosed?
    ensures SocketCloses(steps) <= Due(s.once)
    ensures var t := Run(s, steps); t.loop == s.loop && |t.calls| == |s.calls| && AllReturned(t)
    decreases Work(s.calls)
  {
    hide Work, Held, Successes, Total, Ordered, Counted;
    if k :| 0 <= k < |s.calls| && !s.calls[k].Returned? {
      Progress(s, k);
      var step := Towards(s, k);
      NextKeeps(s, step);
      var rest := CallsReturnWithoutTheLoop(Next(s, step));
      steps := [step] + rest;
      assert steps[1..] == rest;
    } else {
      steps := [];
    }
  }

  /** Calls that still have to find room in the channel. */
  function Offers(calls: seq<Call>): nat {
    if calls == [] then 0 else Offers(calls[..|calls| - 1]) + if calls[|calls| - 1].Offering? then 1 else 0
  }

  lemma {:induction false} OffersMove(calls: seq<Call>, k: nat, c: Call)
    requires k < |calls|
    ensures Offers(calls[k := c])
         == Offers(calls) - (if calls[k].Offering? then 1 else 0) + (if c.Offering? then 1 else 0)
    ensures calls[k].Offering? ==> Offers(calls) > 0
  {
    var n := |calls| - 1;
    if k == n {
      assert calls[k := c][..n] == calls[..n];
    } else {
      OffersMove(calls[..n], k, c);
      assert calls[k := c][..n] == calls[..n][k := c];
    }
  }

  /** A Stop waits to enter the once. */
  predicate StopWaits(calls: seq<Call>) {
    exists k | 0 <= k < |calls| :: calls[k] == Closing(false)
  }

  /** A fail waits to enter the once, or is bound to. */
  predicate FailWaits(calls: seq<Call>) {
    exists k | 0 <= k < |calls| :: (calls[k].Closing? || calls[k].Releasing?) && calls[k].failing
  }

  /** No fail is inside the once, and if nobody has entered it yet then a Stop can do so first or no fail
      has to: none is on its way and the channel has room for every message still on offer. */
  predicate NoFailNeeded(s: State) {
    match s.once
    case Finished => true
    case Entered(k) => k < |s.calls| && s.calls[k] == Inside(false)
    case Unused => StopWaits(s.calls) || (!FailWaits(s.calls) && |s.queue| + Offers(s.calls) <= MAX_MESSAGES)
  }

  /** The calls in progress can all return by themselves. */
  ghost predicate ReturnUnaided(s: State) {
    exists steps ::
      && Possible(s, steps)
      && (forall i | 0 <= i < |steps| :: OfACall(steps[i]))
      && AllReturned(Run(s, steps))
  }

  /** While nobody has entered the once, a fail that is on its way stays so. */
  lemma FailStays(s: State, step: Step)
    requires ClosedOnce(s) && s.once.Unused? && OfACall(step) && !step.Enter? && Enabled(s, step)
    ensures FailWaits(s.calls) ==> FailWaits(Next(s, step).calls)
    ensures StopWaits(Next(s, step).calls) ==> StopWaits(s.calls)
  {
    var t := Next(s, step);
    if FailWaits(s.calls) {
      var k :| 0 <= k < |s.calls| && (s.calls[k].Closing? || s.calls[k].Releasing?) && s.calls[k].failing;
      assert (t.calls[k].Closing? || t.calls[k].Releasing?) && t.calls[k].failing;
    }
    if StopWaits(t.calls) {
      var k :| 0 <= k < |t.calls| && t.calls[k] == Closing(false);
      assert s.calls[k] == Closing(false);
    }
  }

  /** A call's own step never makes a fail superfluous. */
  lemma NeedStays(s: State, step: Step)
    requires Inv(s) && OfACall(step) && Enabled(s, step) && NoFailNeeded(Next(s, step))
    ensures NoFailNeeded(s)
  {
    hide Held, Successes, Total, Counted, Ordered, Offers;
    var t := Next(s, step);
    OffersMove(s.calls, step.call, t.calls[step.call]);
    if s.once.Unused? {
      if step.Enter? {
        assert s.calls[step.call] == Closing(false);
      } else {
        FailStays(s, step);
      }
    }
  }

  lemma {:induction false} NeedBlocks(s: State, steps: seq<Step>)
    requires Inv(s) && Possible(s, steps) && AllReturned(Run(s, steps))
    requires forall i | 0 <= i < |steps| :: OfACall(steps[i])
    ensures NoFailNeeded(s)
    decreases |steps|
  {
    hide Held, Successes, Total, Counted, Ordered;
    if steps == [] {
      NothingToDo(s);
    } else {
      NextKeeps(s, steps[0]);
      NeedBlocks(Next(s, steps[0]), steps[1..]);
      NeedStays(s, steps[0]);
    }
  }

  lemma NothingToDo(s: State)
    requires Inv(s) && AllReturned(s)
    ensures NoFailNeeded(s)
  {
    hide Held, Successes, Total, Offers;
    NothingOffered(s.calls);
  }

  lemma {:induction false} NothingOffered(calls: seq<Call>)
    requires forall k | 0 <= k < |calls| :: calls[k].Returned?
    ensures Offers(calls) == 0
  {
    if calls != [] {
      NothingOffered(calls[..|calls| - 1]);
    }
  }

  /** The call to move next when no fail is needed: a Stop that can enter, else any. */
  lemma Unaided(s: State, k: nat) returns (j: nat)
    requires Inv(s) && NoFailNeeded(s) && k < |s.calls| && !s.calls[k].Returned?
    ensures j < |s.calls| && !s.calls[j].Returned?
    ensures var step := Towards(s, j); OfACall(step) && Enabled(s, step) && NoFailNeeded(Next(s, step))
  {
    hide Held, Successes, Total, Ordered, Offers;
    if s.once.Unused? && StopWaits(s.calls) {
      j :| 0 <= j < |s.calls| && s.calls[j] == Closing(false);
    } else if s.once.Entered? {
      j := s.once.call;
    } else {
      j := k;
      OffersMove(s.calls, k, Returned(true));
      OffersMove(s.calls, k, Returned(false));
    }
    if s.once.Unused? && !StopWaits(s.calls) {
      StaysFailFree(s, Towards(s, j));
    }
  }

  lemma StaysFailFree(s: State, step: Step)
    requires Enabled(s, step) && (step.Push? || step.Release?) && !FailWaits(s.calls)
    ensures !FailWaits(Next(s, step).calls)
  {
    var t := Next(s, step);
    forall k | 0 <= k < |t.calls| && (t.calls[k].Closing? || t.calls[k].Releasing?)
      ensures !t.calls[k].failing
    {
      assert k != step.call ==> t.calls[k] == s.calls[k];
    }
  }

  lemma {:induction false} UnaidedRun(s: State) returns (steps: seq<Step>)
    requires Inv(s) && NoFailNeeded(s)
    ensures Possible(s, steps) && (forall i | 0 <= i < |steps| :: OfACall(steps[i])) && AllReturned(Run(s, steps))
    decreases Work(s.calls)
  {
    hide Work, Held, Successes, Total, Inv, NoFailNeeded;
    if k :| 0 <= k < |s.calls| && !s.calls[k].Returned? {
      var j := Unaided(s, k);
      Progress(s, j);
      InvParts(s);
      var step := Towards(s, j);
      NextKeeps(s, step);
      var rest := UnaidedRun(Next(s, step));
      steps := [step] + rest;
      assert steps[1..] == rest;
    } else {
      steps := [];
    }
  }

  lemma InvParts(s: State)
    requires Inv(s)
    ensures ClosedOnce(s)
  {
  }

  /** In every reachable state the calls in progress can all return without the loop and without the
      socket if and only if no fail has entered the once unfinished and none has to enter it. */
  lemma ReturnUnaidedExactly(steps: seq<Step>)
    requires Possible(Start, steps)
    ensures ReturnUnaided(Run(Start, steps)) <==> NoFailNeeded(Run(Start, steps))
  {
    hide Possible, Run, Inv, NoFailNeeded, AllReturned;
    ReachableIsSound(steps);
    UnaidedExactly(Run(Start, steps));
  }

  /** A failed write is enough to need one: nothing but the socket can then end the fail. */
  lemma AFailCanBeNeeded(m: Bytes)
    requires |m| <= MAX_BYTES
    ensures var steps := [Reserve(m), Push(0), Take, Wrote(false)];
      Possible(Start, steps) && !NoFailNeeded(Run(Start, steps))
  {
    var a := Next(Start, Reserve(m));
    var b := Next(a, Push(0));
    var c := Next(b, Take);
    var d := Next(c, Wrote(false));
    assert d.calls[1] == Closing(true);
    RunFour(Start, Reserve(m), Push(0), Take, Wrote(false));
  }

  lemma RunFour(s: State, i: Step, j: Step, k: Step, l: Step)
    requires Enabled(s, i) && Enabled(Next(s, i), j) && Enabled(Next(Next(s, i), j), k)
    requires Enabled(Next(Next(Next(s, i), j), k), l)
    ensures Possible(s, [i, j, k, l]) && Run(s, [i, j, k, l]) == Next(Next(Next(Next(s, i), j), k), l)
  {
    hide Next, Enabled;
    var a, b, c := Next(s, i), Next(Next(s, i), j), Next(Next(Next(s, i), j), k);
    assert [l][1..] == [] && [k, l][1..] == [l] && [j, k, l][1..] == [k, l] && [i, j, k, l][1..] == [j, k, l];
    assert Possible(c, [l]) && Run(c, [l]) == Next(c, l);
    assert Possible(b, [k, l]) && Run(b, [k, l]) == Run(c, [l]);
    assert Possible(a, [j, k, l]) && Run(a, [j, k, l]) == Run(b, [k, l]);
  }

  lemma UnaidedExactly(s: State)
    requires Inv(s)
    ensures ReturnUnaided(s) <==> NoFailNeeded(s)
  {
    hide Possible, Run, Inv, NoFailNeeded, AllReturned;
    if ReturnUnaided(s) {
      var steps :|
        Possible(s, steps) && (forall i | 0 <= i < |steps| :: OfACall(steps[i])) && AllReturned(Run(s, steps));
      NeedBlocks(s, steps);
    }
    if NoFailNeeded(s) {
      var steps := UnaidedRun(s);
    }
  }

  // ----- shutting down -----

  /** Once the writer is closed, a Send that begins is refused at once and changes nothing. */
  lemma ClosedRefuses(s: State, m: Bytes)
    requires s.closed
    ensures Next(s, Reserve(m)) == s.(calls := s.calls + [Returned(false)])
  {
  }

  lemma {:induction false} ExitedStays(s: State, steps: seq<Step>)
    requires s.loop.Exited? && Possible(s, steps)
    ensures Run(s, steps).loop.Exited? && Run(s, steps).written == s.written
    decreases |steps|
  {
    if steps != [] {
      ExitedStays(Next(s, steps[0]), steps[1..]);
    }
  }

  /** After a failed write nothing more is ever handed to the socket. */
  lemma NothingAfterFailure(s: State, steps: seq<Step>)
    requires s.loop.Writing? && Possible(Next(s, Wrote(false)), steps)
    ensures Run(Next(s, Wrote(false)), steps).written == s.written
  {
    hide Run, Possible;
    ExitedStays(Next(s, Wrote(false)), steps);
  }

  /** The writer is closed, or a call is bound to close it. */
  ghost predicate Doomed(s: State) {
    s.closed || StopWaits(s.calls) || FailWaits(s.calls)
  }

  lemma DoomStays(s: State, step: Step)
    requires ClosedOnce(s) && Doomed(s) && Enabled(s, step)
    ensures Doomed(Next(s, step))
  {
    var t := Next(s, step);
    if !t.closed {
      if StopWaits(s.calls) {
        var k :| 0 <= k < |s.calls| && s.calls[k] == Closing(false);
        assert t.calls[k] == Closing(false);
      } else {
        var k :| 0 <= k < |s.calls| && (s.calls[k].Closing? || s.calls[k].Releasing?) && s.calls[k].failing;
        assert (t.calls[k].Closing? || t.calls[k].Releasing?) && t.calls[k].failing;
      }
    }
  }

  lemma {:induction false} DoomComes(s: State, steps: seq<Step>)
    requires Inv(s) && Doomed(s) && Possible(s, steps) && AllReturned(Run(s, steps))
    ensures Run(s, steps).closed && Run(s, steps).done
    decreases |steps|
  {
    hide Held, Successes, Total, Counted, Ordered, Doomed;
    if steps == [] {
      NobodyLeft(s);
    } else {
      NextKeeps(s, steps[0]);
      DoomStays(s, steps[0]);
      DoomComes(Next(s, steps[0]), steps[1..]);
    }
  }

  lemma NobodyLeft(s: State)
    requires ClosedOnce(s) && Doomed(s) && AllReturned(s)
    ensures s.closed && s.done
  {
  }

  /** A Stop, a cancelled context, a failed write, a message over the byte limit and a full queue each lead to
      a closed writer: by the time all calls have returned, done is closed and new Sends are refused. */
  lemma ShutdownHappens(s: State, step: Step, steps: seq<Step>)
    requires Inv(s) && Enabled(s, step) && Possible(Next(s, step), steps) && AllReturned(Run(Next(s, step), steps))
    requires step == Stop || step == LoopCancelled || step == Wrote(false) || step.GiveUp?
      || (step.Reserve? && !s.closed && s.bytes + |step.message| > 0x100_0000)
    ensures Run(Next(s, step), steps).closed && Run(Next(s, step), steps).done
  {
    hide Inv, Run, Possible, AllReturned;
    NextKeeps(s, step);
    var t := Next(s, step);
    var k := if step.GiveUp? then step.call else |s.calls|;
    assert t.calls[k] == Closing(false) || ((t.calls[k].Closing? || t.calls[k].Releasing?) && t.calls[k].failing);
    DoomComes(t, steps);
  }

  // ----- the writer itself -----

  /** The shared fields, and in ghost fields what each goroutine is about to do. Every method is one
      lock section or one channel operation, so calls of these methods in any order are the
      interleavings of the machine. */
  class BoundedWSWriter {
    var bytes: int
    var closed: bool
    var done: bool
    var once: Once
    var ch: seq<Bytes>
    ghost var loop: Loop
    ghost var calls: seq<Call>
    ghost var accepted: seq<Bytes>
    ghost var written: seq<Bytes>
    ghost var closes: nat

    ghost function View(): State
      reads this
    {
      State(bytes, closed, done, once, ch, loop, calls, accepted, written, closes)
    }

    constructor ()
      ensures View() == Start
    {
      bytes, closed, done, once, ch := 0, false, false, Unused, [];
      loop, calls, accepted, written, closes := Idle, [], [], [], 0;
    }

    /** The lock section of Send. `full` asks the caller to go on to fail. */
    method ReserveBytes(message: Bytes) returns (reserved: bool, full: bool)
      modifies this
      ensures View() == Next(old(View()), Reserve(message))
      ensures reserved <==> calls[|old(calls)|] == Offering(message)
      ensures full <==> calls[|old(calls)|] == Closing(true)
    {
      if closed {
        calls := calls + [Returned(false)];
        return false, false;
      }
      if bytes + |message| > MAX_BYTES {
        calls := calls + [Closing(true)];
        return false, true;
      }
      bytes := bytes + |message|;
      calls := calls + [Offering(message)];
      return true, false;
    }

    /** The select of Send. `preferDone` is the choice a select makes between two ready cases. */
    method Offer(ghost call: nat, message: Bytes, preferDone: bool) returns (sent: bool, full: bool)
      requires call < |calls| && calls[call] == Offering(message)
      modifies this
      ensures sent ==> Enabled(old(View()), Push(call)) && View() == Next(old(View()), Push(call))
      ensures full ==> Enabled(old(View()), GiveUp(call)) && View() == Next(old(View()), GiveUp(call))
      ensures !sent && !full ==> Enabled(old(View()), NoticeDone(call)) && View() == Next(old(View()), NoticeDone(call))
    {
      if |ch| < MAX_MESSAGES && !(done && preferDone) {
        ch := ch + [message];
        accepted := accepted + [message];
        calls := calls[call := Returned(true)];
        return true, false;
      }
      if done {
        calls := calls[call := Releasing(message, false)];
        return false, false;
      }
      calls := calls[call := Releasing(message, true)];
      return false, true;
    }

    method ReleaseBytes(ghost call: nat, n: nat)
      requires call < |calls| && calls[call].Releasing? && |calls[call].message| == n
      modifies this
      ensures View() == Next(old(View()), Release(call))
    {
      bytes := bytes - n;
      if bytes < 0 {
        bytes := 0;
      }
      calls := calls[call := if calls[call].failing then Closing(true) else Returned(false)];
    }

    /** The lock section inside the once of fail and Stop. */
    method SetClosed(call: nat)
      requires call < |calls| && calls[call].Closing? && once.Unused?
      modifies this
      ensures View() == Next(old(View()), Enter(call))
    {
      once := Entered(call);
      closed := true;
      calls := calls[call := Inside(calls[call].failing)];
    }

    /** The once goes on: done is closed, which would panic the second time (`closes` counts), and the
        once of a Stop ends. The once of a fail goes on to close the socket. */
    method CloseChannel(ghost call: nat, failing: bool)
      requires call < |calls| && calls[call] == Inside(failing)
      modifies this
      ensures View() == Next(old(View()), CloseDone(call))
    {
      done := true;
      closes := closes + 1;
      if failing {
        calls := calls[call := ClosingSocket];
      } else {
        once := Finished;
        calls := calls[call := Returned(false)];
      }
    }

    /** The socket has closed, and the once of a fail ends. */
    method SocketReturned(ghost call: nat)
      requires call < |calls| && calls[call].ClosingSocket?
      modifies this
      ensures View() == Next(old(View()), SocketClosed(call))
    {
      once := Finished;
      calls := calls[call := Returned(false)];
    }

    /** The loop receives a message and starts to write it. */
    method TakeMessage() returns (message: Bytes)
      requires loop.Idle? && ch != []
      modifies this
      ensures View() == Next(old(View()), Take) && loop == Writing(message)
    {
      message := ch[0];
      ch := ch[1..];
      loop := Writing(message);
      written := written + [message];
    }

    /** The socket write has returned: its bytes are released, and an error ends the loop through fail. */
    method WriteReturned(message: Bytes, ok: bool)
      requires loop == Writing(message)
      modifies this
      ensures View() == Next(old(View()), Wrote(ok))
    {
      bytes := bytes - |message|;
      if bytes < 0 {
        bytes := 0;
      }
      if ok {
        loop := Idle;
      } else {
        loop := Exited;
        calls := calls + [Closing(true)];
      }
    }

    /** The loop leaves because done is closed or its context has ended. */
    method Leave(cancelled: bool)
      requires loop.Idle? && (cancelled || done)
      modifies this
      ensures View() == Next(old(View()), if cancelled then LoopCancelled else LoopDone)
    {
      loop := Exited;
      if cancelled {
        calls := calls + [Closing(false)];
      }
    }
  }
}
