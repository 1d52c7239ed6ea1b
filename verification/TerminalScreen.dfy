/** The terminal screen's event handlers, which wire one tracker and one scheduler to a terminal. */
module TerminalScreen {
  import opened Common
  import opened TerminalStream
  import opened TerminalScheduler
  import opened TerminalViewer

  lemma {:induction false} AfterOneMore(v: View, inputs: seq<Input>, input: Input)
    ensures AfterAll(v, inputs + [input]) == After(AfterAll(v, inputs), input)
    decreases |inputs|
  {
    hide After;
    if inputs == [] {
      assert [input][1..] == [];
      assert inputs + [input] == [input];
      assert AfterAll(After(v, input), []) == After(v, input);
    } else {
      assert (inputs + [input])[1..] == inputs[1..] + [input];
      AfterOneMore(After(v, inputs[0]), inputs[1..], input);
    }
  }

  class Screen {
    const tracker: TerminalStreamTracker
    const scheduler: TerminalOutputScheduler
    ghost var history: Bytes      // data of the last snapshot
    ghost var start: int          // its sequence number
    ghost var frozen: Bytes       // what stays on the screen when its write has stalled
    ghost var lost: nat           // accepted bytes dropped since the last snapshot
    ghost var inputs: seq<Input>  // everything that happened to this screen

    /** The bytes on the screen followed by the bytes queued for it. */
    ghost function Content(): Bytes
      reads this, scheduler
    {
      frozen + scheduler.accepted
    }

    ghost function View(): View
      reads this, tracker, scheduler
    {
      TerminalViewer.View(tracker.View(), history, start, Content(),
                          if scheduler.queuedBytes < 0 then 0 else scheduler.queuedBytes, lost)
    }

    ghost predicate Valid()
      reads this, tracker, scheduler
    {
      scheduler.Valid() && View() == AfterAll(Blank, inputs)
    }

    constructor (maxForegroundBytes: nat, maxBackgroundBytes: nat, chunkBytes: nat)
      requires chunkBytes > 0
      ensures Valid() && fresh(tracker) && fresh(scheduler) && inputs == []
    {
      tracker := new TerminalStreamTracker();
      scheduler := new TerminalOutputScheduler(maxForegroundBytes, maxBackgroundBytes, chunkBytes);
      history, start, frozen, lost, inputs := [], 0, [], 0, [];
      new;
      assert Content() == [];
    }

    /** What is queued was accepted. */
    lemma QueuedIsAccepted()
      requires scheduler.Valid()
      ensures 0 <= scheduler.queuedBytes <= |scheduler.accepted|
      ensures scheduler.disposed ==> scheduler.queuedBytes == 0
    {
      TotalIsLength(scheduler.queue);
    }

    /** Passes accepted data on; an overflow resets the terminal and asks for a snapshot. */
    method Feed(data: Bytes, hidden: bool) returns (overflowed: bool, ghost outcome: Enqueued)
      requires scheduler.Valid()
      modifies this`lost, this`frozen, scheduler
      ensures scheduler.Valid() && (overflowed <==> outcome.Overflowed?)
      ensures View() == Fed(old(View()), data, outcome, View().pending)
    {
      hide TerminalOutputScheduler.Exact, TerminalOutputScheduler.OneWrite, TerminalOutputScheduler.NeverStuck;
      QueuedIsAccepted();
      var ok;
      ok, outcome := scheduler.Enqueue(data, hidden);
      QueuedIsAccepted();
      overflowed := !ok && !scheduler.disposed;
      match outcome {
        case Taken =>
          assert frozen + (old(scheduler.accepted) + data) == (frozen + old(scheduler.accepted)) + data;
        case Discarded =>
          lost := lost + |data|;
        case Overflowed =>
          lost := lost + |old(Content())| + |data|;
          frozen := [];
          assert Content() == [];
      }
    }

    /** An output frame arrives. */
    method OnOutput(mark: Mark, data: Bytes, hidden: bool)
      returns (request: Option<Option<(string, int)>>, ghost outcome: Enqueued, ghost left: nat)
      requires Valid()
      modifies this, tracker, scheduler
      ensures Valid() && inputs == old(inputs) + [Output(mark, data, outcome, left)]
      ensures View() == After(old(View()), Output(mark, data, outcome, left))
      ensures request.Some? <==>
        var decision := OutputAccepted(old(tracker.View()), mark).1;
        decision == Gap || (decision == Apply && outcome.Overflowed?)
      ensures request.Some? ==> request.value == Cursor(tracker.View())
    {
      hide OutputAccepted, AfterAll, TerminalOutputScheduler.Valid;
      outcome, left, request := Taken, 0, None;
      var decision := tracker.AcceptOutput(mark);
      if decision == Gap {
        var cursor := tracker.ResumeCursor();
        request := Some(cursor);
      } else if decision == Apply {
        var overflowed;
        overflowed, outcome := Feed(data, hidden);
        left := View().pending;
        if overflowed {
          var cursor := tracker.ResumeCursor();
          request := Some(cursor);
        }
      }
      AfterOneMore(Blank, inputs, Output(mark, data, outcome, left));
      inputs := inputs + [Output(mark, data, outcome, left)];
    }

    /** A snapshot arrives: the old content goes, the terminal is reset and the history is fed to it. */
    method OnSnapshot(mark: Mark, data: Bytes, hidden: bool)
      returns (overflowed: bool, ghost outcome: Enqueued, ghost left: nat)
      requires Valid()
      modifies this, tracker, scheduler
      ensures Valid() && inputs == old(inputs) + [SnapshotFrame(mark, data, outcome, left)]
      ensures View() == After(old(View()), SnapshotFrame(mark, data, outcome, left))
    {
      hide SnapshotAccepted, AfterAll, Fed, TerminalOutputScheduler.Valid;
      var _ := tracker.AcceptSnapshot(mark);
      scheduler.Recover();
      history, start, frozen, lost := data, tracker.lastSeq, [], 0;
      assert Content() == [];
      overflowed, outcome := Feed(data, hidden);
      left := View().pending;
      AfterOneMore(Blank, inputs, SnapshotFrame(mark, data, outcome, left));
      inputs := inputs + [SnapshotFrame(mark, data, outcome, left)];
    }

    /** The terminal has parsed a chunk, or a deferred pump runs. */
    method OnWriteDone(generation: nat)
      requires Valid() && generation in scheduler.callbacks
      modifies scheduler
      ensures Valid() && View() == old(View())
    {
      scheduler.WriteDone(generation);
    }

    method OnDeferredPump() returns (ghost left: nat)
      requires Valid() && scheduler.pumps > 0
      modifies this`inputs, scheduler
      ensures Valid() && inputs == old(inputs) + [HandedOver(left)]
      ensures View() == After(old(View()), HandedOver(left))
    {
      hide AfterAll;
      QueuedIsAccepted();
      scheduler.DeferredPump();
      QueuedIsAccepted();
      left := View().pending;
      AfterOneMore(Blank, inputs, HandedOver(left));
      inputs := inputs + [HandedOver(left)];
    }

    /** A write never came back: what was queued is gone and the screen is to be mounted anew. */
    method OnStall()
      requires Valid() && scheduler.stallTimer.Some?
      modifies this, scheduler
      ensures Valid() && inputs == old(inputs) + [Stall]
      ensures View() == After(old(View()), Stall)
    {
      hide AfterAll, TerminalOutputScheduler.Exact, TerminalOutputScheduler.OneWrite;
      hide TerminalOutputScheduler.NeverStuck;
      QueuedIsAccepted();
      ghost var content, pending := Content(), View().pending;
      var _ := scheduler.StallFires();
      QueuedIsAccepted();
      frozen := content[..|content| - pending];
      lost := lost + pending;
      assert Content() == frozen;
      AfterOneMore(Blank, inputs, Stall);
      inputs := inputs + [Stall];
    }

    /** In every state these handlers can reach with a producer's frames, unless a snapshot is awaited:
        the chunks handed to the terminal followed by the queued ones are the last snapshot's history
        followed by exactly the outputs after it, if and only if nothing was dropped since. */
    lemma ScreenIsExact(out: Producer)
      requires Valid() && AllGenuine(out, inputs) && !tracker.awaitingSnapshot
      ensures frozen + Flatten(scheduler.written) + Flatten(scheduler.queue)
           == history + Outputs(out, tracker.incarnationId, start, tracker.lastSeq)
        <==> !DroppedSince(Blank, inputs, false)
    {
      hide Flatten, Outputs, AfterAll, After;
      FreshViewIsExact(out, inputs);
      assert frozen + Flatten(scheduler.written) + Flatten(scheduler.queue)
          == frozen + (Flatten(scheduler.written) + Flatten(scheduler.queue));
    }
  }
}
