/** Follows one producer's numbered terminal output and says which frames may be painted. */
module TerminalStream {
  import opened Common

  /** The stream metadata of a frame. `number` is None unless the frame carries a safe integer. */
  datatype Mark = Mark(incarnation: string, number: Option<int>)

  datatype Decision = Apply | Snapshot | Duplicate | Gap

  datatype Tracker = Tracker(incarnation: string, lastSeq: int, awaitingSnapshot: bool)

  const Untouched := Tracker("", 0, false)

  function OutputAccepted(t: Tracker, mark: Mark): (Tracker, Decision) {
    if mark.incarnation == "" || mark.number.None? || mark.number.value <= 0 then (t, Apply)
    else
      var n := mark.number.value;
      if t.incarnation == "" then
        if n != 1 then (t.(incarnation := mark.incarnation, awaitingSnapshot := true), Gap)
        else (t.(incarnation := mark.incarnation, lastSeq := n), Apply)
      else if mark.incarnation != t.incarnation then (Tracker(mark.incarnation, 0, true), Gap)
      else if t.awaitingSnapshot || n <= t.lastSeq then (t, Duplicate)
      else if n != t.lastSeq + 1 then (t.(awaitingSnapshot := true), Gap)
      else (t.(lastSeq := n), Apply)
  }

  function SnapshotAccepted(t: Tracker, mark: Mark): Tracker {
    if mark.incarnation != "" && mark.number.Some? && mark.number.value >= 0
    then Tracker(mark.incarnation, mark.number.value, false)
    else t.(awaitingSnapshot := false)
  }

  /** The position up to which output has been accepted; None before any numbered frame. */
  function Cursor(t: Tracker): Option<(string, int)> {
    if t.incarnation == "" then None else Some((t.incarnation, t.lastSeq))
  }

  class TerminalStreamTracker {
    var incarnationId: string
    var lastSeq: int
    var awaitingSnapshot: bool

    ghost function View(): Tracker
      reads this
    {
      Tracker(incarnationId, lastSeq, awaitingSnapshot)
    }

    constructor ()
      ensures View() == Untouched
    {
      incarnationId, lastSeq, awaitingSnapshot := "", 0, false;
    }

    method AcceptOutput(mark: Mark) returns (decision: Decision)
      modifies this
      ensures (View(), decision) == OutputAccepted(old(View()), mark)
    {
      if mark.incarnation == "" || mark.number.None? || mark.number.value <= 0 {
        return Apply;
      }
      var n := mark.number.value;
      if incarnationId == "" {
        incarnationId := mark.incarnation;
        if n != 1 {
          awaitingSnapshot := true;
          return Gap;
        }
        lastSeq := n;
        return Apply;
      }
      if mark.incarnation != incarnationId {
        incarnationId, lastSeq, awaitingSnapshot := mark.incarnation, 0, true;
        return Gap;
      }
      if awaitingSnapshot || n <= lastSeq {
        return Duplicate;
      }
      if n != lastSeq + 1 {
        awaitingSnapshot := true;
        return Gap;
      }
      lastSeq := n;
      return Apply;
    }

    method AcceptSnapshot(mark: Mark) returns (decision: Decision)
      modifies this
      ensures View() == SnapshotAccepted(old(View()), mark) && decision == Snapshot
    {
      if mark.incarnation != "" && mark.number.Some? && mark.number.value >= 0 {
        incarnationId, lastSeq := mark.incarnation, mark.number.value;
      }
      awaitingSnapshot := false;
      return Snapshot;
    }

    /** The position a snapshot request names. */
    method ResumeCursor() returns (cursor: Option<(string, int)>)
      ensures cursor == Cursor(View())
    {
      return if incarnationId == "" then None else Some((incarnationId, lastSeq));
    }
  }
}
