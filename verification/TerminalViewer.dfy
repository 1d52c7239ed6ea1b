/** The terminal view: tracker and scheduler wired together. Whatever a lossy network delivers, the
    screen shows exactly the producer's bytes until something is dropped, and says when it is not exact. */
module TerminalViewer {
  import opened Common
  import opened TerminalStream
  import opened TerminalScheduler

  // ----- the view as a machine -----

  /** `content` is what the terminal got since its last reset followed by what is still queued
      (`pending` bytes); `history` and `start` come from the last snapshot; `lost` counts bytes of
      this stream that were accepted by the tracker and dropped afterwards. */
  datatype View = View(tracker: Tracker, history: Bytes, start: int, content: Bytes, pending: nat, lost: nat)

  const Blank := View(Untouched, [], 0, [], 0, 0)

  /** What happens to a view. `left` is how many bytes are still queued afterwards. */
  datatype Input =
    | Output(mark: Mark, data: Bytes, outcome: Enqueued, left: nat)
    | SnapshotFrame(mark: Mark, data: Bytes, outcome: Enqueued, left: nat)
    | HandedOver(left: nat)
    | Stall

  /** Data the tracker let through reaches the scheduler. */
  function Fed(v: View, data: Bytes, outcome: Enqueued, left: nat): View {
    match outcome
    case Taken => v.(content := v.content + data, pending := Min(left, |v.content| + |data|))
    case Discarded => v.(lost := v.lost + |data|)
    case Overflowed =>
      if data == [] then v else v.(content := [], pending := 0, lost := v.lost + |v.content| + |data|)
  }

  function After(v: View, input: Input): View {
    match input
    case Output(mark, data, outcome, left) =>
      var (tracker, decision) := OutputAccepted(v.tracker, mark);
      var v' := v.(tracker := tracker);
      if decision == Apply then Fed(v', data, outcome, left) else v'
    case SnapshotFrame(mark, data, outcome, left) =>
      var tracker := SnapshotAccepted(v.tracker, mark);
      Fed(View(tracker, data, tracker.lastSeq, [], 0, 0), data, outcome, left)
    case HandedOver(left) => v.(pending := Min(left, v.pending))
    case Stall =>
      if v.pending > |v.content| then v
      else v.(content := v.content[..|v.content| - v.pending], pending := 0, lost := v.lost + v.pending)
  }

  function AfterAll(v: View, inputs: seq<Input>): View
    decreases |inputs|
  {
    if inputs == [] then v else AfterAll(After(v, inputs[0]), inputs[1..])
  }

  // ----- the producer and the network -----

  /** The n-th output of an incarnation. */
  type Producer = (string, int) -> Bytes

  /** Outputs from+1..to of one incarnation, joined. */
  function Outputs(out: Producer, incarnation: string, from: int, to: int): Bytes
    decreases to - from
  {
    if to <= from then [] else Outputs(out, incarnation, from, to - 1) + out(incarnation, to)
  }

  /** A frame the producer really sent, fully numbered; the network may lose, repeat and reorder such frames at will. */
  ghost predicate Genuine(out: Producer, input: Input) {
    match input
    case Output(mark, data, _, _) =>
      && mark.incarnation != "" && mark.number.Some? && mark.number.value > 0
      && data == out(mark.incarnation, mark.number.value)
    case SnapshotFrame(mark, _, _, _) =>
      mark.incarnation != "" && mark.number.Some? && mark.number.value >= 0
    case _ => true
  }

  ghost predicate AllGenuine(out: Producer, inputs: seq<Input>) {
    forall i | 0 <= i < |inputs| :: Genuine(out, inputs[i])
  }

  /** The last snapshot's history followed by exactly the outputs after it that were accepted. */
  function Expected(out: Producer, v: View): Bytes {
    v.history + Outputs(out, v.tracker.incarnation, v.start, v.tracker.lastSeq)
  }

  /** The step drops bytes the tracker had accepted: an overflow or a discarded enqueue, or a stall with
      bytes queued. */
  ghost predicate Drops(v: View, input: Input) {
    match input
    case Output(mark, data, outcome, _) => OutputAccepted(v.tracker, mark).1 == Apply && data != [] && outcome != Taken
    case SnapshotFrame(_, data, outcome, _) => data != [] && outcome != Taken
    case HandedOver(_) => false
    case Stall => 0 < v.pending <= |v.content|
  }

  /** Something was dropped since the last snapshot. */
  ghost predicate DroppedSince(v: View, inputs: seq<Input>, already: bool)
    decreases |inputs|
  {
    if inputs == [] then already
    else DroppedSince(After(v, inputs[0]), inputs[1..], Drops(v, inputs[0]) || (already && !inputs[0].SnapshotFrame?))
  }

  ghost predicate Accounted(out: Producer, v: View) {
    && v.pending <= |v.content|
    && (v.tracker.incarnation == "" ==> v == Blank)
    && (!v.tracker.awaitingSnapshot ==>
          && v.start <= v.tracker.lastSeq
          && |v.content| + v.lost == |Expected(out, v)|
          && (v.lost == 0 ==> v.content == Expected(out, v)))
  }

  lemma AppliedOutput(out: Producer, v: View, mark: Mark, data: Bytes)
    requires Accounted(out, v) && Genuine(out, Output(mark, data, Taken, 0))
    requires OutputAccepted(v.tracker, mark).1 == Apply
    ensures var v' := v.(tracker := OutputAccepted(v.tracker, mark).0);
      && !v.tracker.awaitingSnapshot && !v'.tracker.awaitingSnapshot
      && v'.tracker.incarnation != "" && v.start <= v'.tracker.lastSeq
      && Expected(out, v') == Expected(out, v) + data
  {
    var t := OutputAccepted(v.tracker, mark).0;
    var before := Outputs(out, t.incarnation, v.start, t.lastSeq - 1);
    assert before == Outputs(out, v.tracker.incarnation, v.start, v.tracker.lastSeq);
    assert Outputs(out, t.incarnation, v.start, t.lastSeq) == before + data;
    assert v.history + (before + data) == (v.history + before) + data;
  }

  lemma StepAccounted(out: Producer, v: View, input: Input)
    requires Accounted(out, v) && Genuine(out, input)
    ensures Accounted(out, After(v, input))
    ensures After(v, input).lost > 0 <==> Drops(v, input) || (v.lost > 0 && !input.SnapshotFrame?)
  {
    match input {
      case Output(mark, data, outcome, left) =>
        if OutputAccepted(v.tracker, mark).1 == Apply {
          AppliedOutput(out, v, mark, data);
        }
      case SnapshotFrame(mark, data, outcome, left) =>
        assert data + [] == data;
      case HandedOver(left) =>
      case Stall =>
        assert v.content[..|v.content|] == v.content;
    }
  }

  /** On a gap the screen asks to resume from the last output it accounts for: within the incarnation it
      follows, everything up to that output is shown, queued or counted as lost, and more than one output
      is missing up to the frame that came; of another incarnation nothing is there yet. */
  lemma GapAsksForTheRest(out: Producer, v: View, mark: Mark, data: Bytes)
    requires Accounted(out, v) && Genuine(out, Output(mark, data, Taken, 0))
    requires OutputAccepted(v.tracker, mark).1 == Gap
    ensures var cursor := Cursor(OutputAccepted(v.tracker, mark).0);
      && cursor.Some? && cursor.value.0 == mark.incarnation
      && (mark.incarnation != v.tracker.incarnation ==> cursor.value.1 == 0)
      && (mark.incarnation == v.tracker.incarnation ==>
            var covered := v.history + Outputs(out, mark.incarnation, v.start, cursor.value.1);
            && cursor.value.1 + 1 < mark.number.value
            && |v.content| + v.lost == |covered| && (v.lost == 0 ==> v.content == covered))
  {
  }

  /** Under any loss, duplication and reordering of the producer's frames: whenever no snapshot is awaited,
      the screen is byte-exact if and only if nothing was dropped since the last snapshot. */
  lemma {:induction false} ExactUnlessDropped(out: Producer, v: View, inputs: seq<Input>)
    requires Accounted(out, v) && AllGenuine(out, inputs)
    ensures var end := AfterAll(v, inputs);
      && Accounted(out, end)
      && (end.lost > 0 <==> DroppedSince(v, inputs, v.lost > 0))
      && (!end.tracker.awaitingSnapshot ==>
            (end.content == Expected(out, end) <==> !DroppedSince(v, inputs, v.lost > 0)))
    decreases |inputs|
  {
    if inputs != [] {
      StepAccounted(out, v, inputs[0]);
      ExactUnlessDropped(out, After(v, inputs[0]), inputs[1..]);
    }
  }

  /** The same from a fresh view, where nothing has been dropped yet. */
  lemma FreshViewIsExact(out: Producer, inputs: seq<Input>)
    requires AllGenuine(out, inputs)
    ensures var end := AfterAll(Blank, inputs);
      !end.tracker.awaitingSnapshot ==> (end.content == Expected(out, end) <==> !DroppedSince(Blank, inputs, false))
  {
    ExactUnlessDropped(out, Blank, inputs);
  }

  // ----- nothing that arrives in order is withheld -----

  /** Outputs of one incarnation arrive without a gap, repeats allowed, and take the accepted numbers from
      `from` to `last`; every enqueue is taken. Chunks may be handed over in between. */
  ghost predicate InOrder(out: Producer, inputs: seq<Input>, incarnation: string, from: int, last: int)
    decreases |inputs|
  {
    if inputs == [] then from == last
    else
      match inputs[0]
      case HandedOver(_) => InOrder(out, inputs[1..], incarnation, from, last)
      case Output(mark, data, outcome, _) =>
        && mark.incarnation == incarnation && mark.number.Some? && 1 <= mark.number.value <= from + 1
        && data == out(incarnation, mark.number.value) && outcome == Taken
        && InOrder(out, inputs[1..], incarnation, if mark.number.value == from + 1 then from + 1 else from, last)
      case _ => false
  }

  /** A view that follows the incarnation up to `from`, or has seen nothing at all. */
  ghost predicate Follows(v: View, incarnation: string, from: int) {
    incarnation != "" && (v.tracker == Tracker(incarnation, from, false) || (v.tracker == Untouched && from == 0))
  }

  /** Frames that arrive in order are all painted, each once. */
  lemma {:induction false} InOrderIsPainted(out: Producer, v: View, inputs: seq<Input>,
                                            incarnation: string, from: nat, last: int)
    requires Follows(v, incarnation, from) && InOrder(out, inputs, incarnation, from, last)
    ensures from <= last && Follows(AfterAll(v, inputs), incarnation, last)
    ensures AfterAll(v, inputs).content == v.content + Outputs(out, incarnation, from, last)
    decreases |inputs|
  {
    if inputs == [] {
      assert v.content + [] == v.content;
    } else {
      var next := After(v, inputs[0]);
      if inputs[0].Output? && inputs[0].mark.number.value == from + 1 {
        InOrderIsPainted(out, next, inputs[1..], incarnation, from + 1, last);
        OutputsFrom(out, incarnation, from, last);
        assert (v.content + out(incarnation, from + 1)) + Outputs(out, incarnation, from + 1, last)
            == v.content + (out(incarnation, from + 1) + Outputs(out, incarnation, from + 1, last));
      } else {
        assert next.tracker == v.tracker && next.content == v.content;
        InOrderIsPainted(out, next, inputs[1..], incarnation, from, last);
      }
    }
  }

  lemma {:induction false} OutputsFrom(out: Producer, incarnation: string, from: int, last: int)
    requires from < last
    ensures Outputs(out, incarnation, from, last)
         == out(incarnation, from + 1) + Outputs(out, incarnation, from + 1, last)
    decreases last - from
  {
    if from + 1 == last {
      assert Outputs(out, incarnation, from, from) == [] && [] + out(incarnation, last) == out(incarnation, last);
    } else {
      OutputsFrom(out, incarnation, from, last - 1);
    }
  }

  /** From a fresh mount the screen shows exactly outputs 1 to n of what arrived in order. */
  lemma FreshMountPaintsAll(out: Producer, inputs: seq<Input>, incarnation: string, n: int)
    requires incarnation != "" && InOrder(out, inputs, incarnation, 0, n)
    ensures AfterAll(Blank, inputs).content == Outputs(out, incarnation, 0, n)
  {
    InOrderIsPainted(out, Blank, inputs, incarnation, 0, n);
  }

  /** And from a snapshot at k, whatever was there before, its history followed by exactly outputs k+1 to n. */
  lemma SnapshotPaintsAll(out: Producer, v: View, mark: Mark, history: Bytes, left: nat, inputs: seq<Input>, n: int)
    requires mark.incarnation != "" && mark.number.Some? && mark.number.value >= 0
    requires InOrder(out, inputs, mark.incarnation, mark.number.value, n)
    ensures AfterAll(After(v, SnapshotFrame(mark, history, Taken, left)), inputs).content
         == history + Outputs(out, mark.incarnation, mark.number.value, n)
  {
    var painted := After(v, SnapshotFrame(mark, history, Taken, left));
    assert [] + history == history;
    InOrderIsPainted(out, painted, inputs, mark.incarnation, mark.number.value, n);
  }

  /** A gap was answered since the last snapshot. */
  ghost predicate GapSince(v: View, inputs: seq<Input>, already: bool)
    decreases |inputs|
  {
    if inputs == [] then already
    else
      var input := inputs[0];
      var gap := input.Output? && OutputAccepted(v.tracker, input.mark).1 == Gap;
      GapSince(After(v, input), inputs[1..], gap || (already && !input.SnapshotFrame?))
  }

  /** A snapshot is awaited if and only if a gap was answered since the last one; each gap requests one. */
  lemma {:induction false} AwaitedMeansAsked(v: View, inputs: seq<Input>)
    ensures AfterAll(v, inputs).tracker.awaitingSnapshot <==> GapSince(v, inputs, v.tracker.awaitingSnapshot)
    decreases |inputs|
  {
    if inputs != [] {
      AwaitedMeansAsked(After(v, inputs[0]), inputs[1..]);
    }
  }

  predicate Numbered(mark: Mark) {
    mark.incarnation != "" && mark.number.Some? && mark.number.value > 0
  }

  /** The output is accounted for, or a snapshot is on its way. */
  predicate Noticed(t: Tracker, mark: Mark)
    requires Numbered(mark)
  {
    t.awaitingSnapshot || (t.incarnation == mark.incarnation && mark.number.value <= t.lastSeq)
  }

  /** Nothing is skipped silently: when no snapshot is awaited, every numbered output that came since the last
      one belongs to the incarnation followed and lies within what the screen accounts for. */
  lemma {:induction false} NothingSkippedSilently(v: View, inputs: seq<Input>, i: nat)
    requires i < |inputs| && inputs[i].Output? && Numbered(inputs[i].mark)
    requires forall j | i < j < |inputs| :: !inputs[j].SnapshotFrame?
    ensures var t := AfterAll(v, inputs).tracker; var mark := inputs[i].mark;
      t.awaitingSnapshot || (t.incarnation == mark.incarnation && mark.number.value <= t.lastSeq)
    decreases |inputs|
  {
    var next := After(v, inputs[0]);
    if i > 0 {
      NothingSkippedSilently(next, inputs[1..], i - 1);
    } else {
      StaysNoticed(next, inputs[1..], inputs[0].mark);
    }
  }

  lemma {:induction false} StaysNoticed(v: View, inputs: seq<Input>, mark: Mark)
    requires Numbered(mark) && Noticed(v.tracker, mark)
    requires forall j | 0 <= j < |inputs| :: !inputs[j].SnapshotFrame?
    ensures Noticed(AfterAll(v, inputs).tracker, mark)
    decreases |inputs|
  {
    if inputs != [] {
      StaysNoticed(After(v, inputs[0]), inputs[1..], mark);
    }
  }

  /** Frames without an incarnation or a number are painted as they come. */
  lemma UnnumberedIsPainted(v: View, mark: Mark, data: Bytes, left: nat)
    requires mark.incarnation == "" || mark.number.None? || mark.number.value <= 0
    ensures var after := After(v, Output(mark, data, Taken, left));
      after.content == v.content + data && after.tracker == v.tracker
  {
  }
}
