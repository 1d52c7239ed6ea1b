/** When payloads go on the wire, how often, and to which request journal events belong. */
module GatewayDelivery {
  import opened Common
  import opened JournalLog
  import opened TurnTable
  import opened GatewayState
  import opened GatewayInvariant
  import opened GatewaySteps
  import opened GatewayRuns

  /** `d` may be written in state s: it is the journal's unfinished request, its conversation holds
      a slot, and this connection has not carried it since the host was last reported offline. */
  ghost predicate Authorised(s: State, d: Delivery) {
    && Linked(s, d.id)
    && Recovered(s.LogOf(d.id)).Ok? && Recovered(s.LogOf(d.id)).value.Some?
    && Recovered(s.LogOf(d.id)).value.value.requestId == d.requestId
    && Recovered(s.LogOf(d.id)).value.value.data == d.payload
    && d.id in s.active
    && d.requestId !in s.peers[d.id].link.shown
  }

  lemma WrittenIsAuthorised(s: State, id: string, p: PeerView)
    requires Inv(s) && Linked(s, id) && p.link.Up? && Writes(p)
    requires p.activeChat == s.peers[id].activeChat && p.payload == s.peers[id].payload
    requires p.lease == s.peers[id].lease && p.link.sentChat == s.peers[id].link.sentChat
    ensures Authorised(s, Delivery(id, p.activeChat, p.payload))
  {
    assert Local(s, id);
    PeerMatchesRecovery(s, id);
  }

  /** What one step did to the wire: nothing, or exactly one authorised write by `writer` to an online host,
      entered in the connection's record. */
  ghost predicate WroteRight(s: State, s': State, writer: string) {
    s'.wire == s.wire ||
    (exists d :: s'.wire == s.wire + [d] && d.id == writer && Authorised(s, d)
                 && Linked(s', d.id) && s'.peers[d.id].link.hostOnline
                 && s'.peers[d.id].link.shown == s.peers[d.id].link.shown + [d.requestId])
  }

  lemma ChatWrittenRight(s: State, q: PeerView, id: string, wrote: bool)
    requires Inv(s) && Linked(s, id) && q.link.Up? && q.link.hostOnline
    requires q.activeChat == s.peers[id].activeChat && q.payload == s.peers[id].payload && q.lease == s.peers[id].lease
    requires q.link.sentChat == s.peers[id].link.sentChat && q.link.shown == s.peers[id].link.shown
    ensures WroteRight(s, ChatWritten(s.With(id, q), id, wrote), id)
  {
    if Writes(q) && wrote {
      var d := Delivery(id, q.activeChat, q.payload);
      WrittenIsAuthorised(s, id, q);
      assert ChatWritten(s.With(id, q), id, wrote).wire == s.wire + [d];
    }
  }

  lemma RecordedFrame(s: State, id: string, frame: Frame, disk: Disk)
    requires id in s.peers
    ensures var s' := Recorded(s, id, frame, disk);
      && s'.wire == s.wire && s'.peers == s.peers[id := s.peers[id].(tasks := s'.peers[id].tasks)]
      && s'.active == s.active && s'.queue == s.queue && s'.limit == s.limit && s'.maxEvent == s.maxEvent
  {
  }

  lemma FinishedFrame(s: State, id: string, marker: Bytes, disk: Disk)
    requires id in s.peers && s.peers[id].link.Up?
    ensures Finished(s, id, marker, disk).wire == s.wire
  {
    hide TryAppend, Released;
    var r := TryAppend(s.LogOf(id), id, RequestCompleted, s.peers[id].activeChat, marker, disk, s.maxEvent);
    if r.Ok? {
      ReleasedWire(Idled(s, id, r.value), id);
    }
  }

  lemma ReleasedWire(s: State, id: string)
    ensures Released(s, id).wire == s.wire
  {
    hide FirstLive, Drop;
  }

  lemma ReceivedRight(s: State, id: string, frame: Frame, env: FrameEnv)
    requires Inv(s) && Linked(s, id)
    ensures WroteRight(s, Received(s, id, frame, env), id)
  {
    hide TryAppend, Stamped, Finished, Recovered;
    var p := s.peers[id];
    if frame.kind.HostStatus? {
      if frame.connected {
        ChatWrittenRight(s, p.(link := p.link.(hostOnline := true)), id, env.wrote);
      }
      var reported := HostReported(s, id, frame.connected, env.wrote);
      if reported.peers[id].link.Up? {
        RecordedFrame(reported, id, frame, env.disk);
      }
    } else {
      RecordedFrame(s, id, frame, env.disk);
      if Terminal(frame.kind) {
        FinishedFrame(Recorded(s, id, frame, env.disk), id, env.marker, env.finishDisk);
      }
    }
  }

  /** Only handling a frame and taking a wake token write chats. */
  function Writer(a: Action): string {
    if a.Receive? || a.Wake? then a.id else ""
  }

  lemma ClosedWire(s: State, id: string)
    ensures Closed(s, id).wire == s.wire
  {
    hide FirstLive, Drop;
  }

  lemma SentWire(s: State, id: string, requestId: string, message: Message, env: SendEnv)
    ensures Sent(s, id, requestId, message, env).0.wire == s.wire
  {
    hide TryAppend, Recovered, AcceptedIds, Claim, EnsureRefusal, SendDecision;
  }

  lemma OthersWriteNothing(s: State, a: Action)
    requires !a.Receive? && !a.Wake?
    ensures Next(s, a).wire == s.wire
  {
    hide TryAppend, Recovered, Claim, Closed, Sent;
    match a {
      case Send(id, requestId, message, env) => SentWire(s, id, requestId, message, env);
      case Close(id) => ClosedWire(s, id);
      case Remove(id, _) => ClosedWire(s, id);
      case _ =>
    }
  }

  /** A chat payload goes on the wire only while it is the journal's unfinished request, its
      conversation holds a slot and its host last reported online; and each write is recorded. */
  lemma WireIsAuthorised(s: State, a: Action)
    requires Inv(s)
    ensures WroteRight(s, Next(s, a), Writer(a))
  {
    match a {
      case Receive(id, frame, env) =>
        if Linked(s, id) {
          ReceivedRight(s, id, frame, env);
        }
      case Wake(id, wrote) =>
        if Linked(s, id) && s.peers[id].wake && s.peers[id].link.hostOnline {
          ChatWrittenRight(s, s.peers[id].(wake := false), id, wrote);
        }
      case _ =>
        OthersWriteNothing(s, a);
    }
  }

  /** No wakeup is lost: a leased, online, unsent chat has a token waiting, and taking it delivers the chat. */
  lemma WakeDelivers(s: State, id: string)
    requires Inv(s) && Linked(s, id) && s.peers[id].link.hostOnline
    requires s.peers[id].activeChat != "" && s.peers[id].lease && s.peers[id].payload != []
    requires s.peers[id].activeChat != s.peers[id].link.sentChat
    ensures s.peers[id].wake
    ensures var t := Next(s, Wake(id, true));
      && t.wire == s.wire + [Delivery(id, s.peers[id].activeChat, s.peers[id].payload)]
      && id in t.peers && !t.peers[id].wake
  {
    assert Local(s, id);
  }

  // ----- at most once per connection epoch -----

  /** The chats delivered to one conversation, in order. */
  function DeliveredTo(wire: seq<Delivery>, id: string): seq<string> {
    if wire == [] then []
    else
      var last := wire[|wire| - 1];
      DeliveredTo(wire[..|wire| - 1], id) + if last.id == id then [last.requestId] else []
  }

  /** The step neither opens a connection for `id` nor reports its host offline, and leaves it connected. */
  ghost predicate SameEpoch(s: State, a: Action, id: string) {
    && Linked(s, id) && Linked(Next(s, a), id)
    && a != Connect(id)
    && !(a.Receive? && a.id == id && a.frame.kind.HostStatus? && !a.frame.connected)
  }

  ghost predicate OneEpoch(s: State, actions: seq<Action>, id: string)
    decreases |actions|
  {
    actions != [] ==> SameEpoch(s, actions[0], id) && OneEpoch(Next(s, actions[0]), actions[1..], id)
  }

  /** Within an epoch the connection's record and the wire grow by the same chats. */
  ghost predicate Tracks(s: State, s': State, id: string)
    requires Linked(s, id) && Linked(s', id)
  {
    SameGrowth(s.peers[id].link.shown, s'.peers[id].link.shown, DeliveredTo(s.wire, id), DeliveredTo(s'.wire, id))
  }

  /** Both lists grew by the same elements. */
  ghost predicate SameGrowth(a: seq<string>, a': seq<string>, b: seq<string>, b': seq<string>) {
    a <= a' && b <= b' && a'[|a|..] == b'[|b|..]
  }

  lemma GrowthComposes(a: seq<string>, a': seq<string>, a'': seq<string>,
                       b: seq<string>, b': seq<string>, b'': seq<string>)
    requires SameGrowth(a, a', b, b') && SameGrowth(a', a'', b', b'')
    ensures SameGrowth(a, a'', b, b'')
  {
    assert a''[|a|..] == a'[|a|..] + a''[|a'|..];
    assert b''[|b|..] == b'[|b|..] + b''[|b'|..];
  }

  /** The connection's record and the remembered task origins of `id` are as before. */
  ghost predicate Undisturbed(s: State, s': State, id: string) {
    && (Linked(s, id) && Linked(s', id) ==> s'.peers[id].link.shown == s.peers[id].link.shown)
    && (id in s.peers && id in s'.peers ==> s'.peers[id].tasks == s.peers[id].tasks)
  }

  lemma ReleasedQuietly(s: State, id: string, other: string)
    ensures Undisturbed(s, Released(s, id), other) && Linked(Released(s, id), other) == Linked(s, other)
    ensures other in Released(s, id).peers <==> other in s.peers
  {
  }

  lemma CompletedQuietly(s: State, id: string, marker: Bytes, disk: Disk, other: string)
    requires Linked(s, id)
    ensures var s' := Completed(s, id, marker, disk).0;
      Undisturbed(s, s', other) && Linked(s', other) == Linked(s, other) && (other in s'.peers <==> other in s.peers)
  {
    hide TryAppend, FirstLive, Drop;
    var r := TryAppend(s.LogOf(id), id, RequestCompleted, s.peers[id].activeChat, marker, disk, s.maxEvent);
    if r.Ok? {
      ReleasedQuietly(Idled(s, id, r.value), id, other);
    }
  }

  lemma FinishedQuietly(s: State, id: string, marker: Bytes, disk: Disk, other: string)
    requires Linked(s, id)
    ensures var s' := Finished(s, id, marker, disk);
      Undisturbed(s, s', other) && Linked(s', other) == Linked(s, other) && (other in s'.peers <==> other in s.peers)
  {
    hide TryAppend, FirstLive, Drop, Released;
    CompletedQuietly(s, id, marker, disk, other);
    CompletedQuietly(s, id, marker, disk, id);
  }

  lemma ReceivedShown(s: State, id: string, frame: Frame, env: FrameEnv, other: string)
    requires Linked(s, id)
    requires other == id && frame.kind.HostStatus? ==> frame.connected && Received(s, id, frame, env).wire == s.wire
    ensures var s' := Received(s, id, frame, env);
      Linked(s, other) && Linked(s', other) ==> s'.peers[other].link.shown == s.peers[other].link.shown
  {
    hide TryAppend, Stamped, Completed;
    if frame.kind.HostStatus? {
      var reported := HostReported(s, id, frame.connected, env.wrote);
      if reported.peers[id].link.Up? {
        RecordedFrame(reported, id, frame, env.disk);
      }
    } else {
      RecordedFrame(s, id, frame, env.disk);
      if Terminal(frame.kind) {
        FinishedQuietly(Recorded(s, id, frame, env.disk), id, env.marker, env.finishDisk, other);
      }
    }
  }

  lemma ClosedQuietly(s: State, id: string, other: string)
    ensures Undisturbed(s, Closed(s, id), other)
  {
    hide FirstLive, Drop, Released;
    ReleasedQuietly(Unpublished(s, id), id, other);
  }

  lemma QuietStep(s: State, a: Action, id: string)
    requires !a.Receive? && !a.Wake? && !a.Close? && !a.Remove? && !a.Send? && a != Connect(id)
    ensures Undisturbed(s, Next(s, a), id)
  {
    hide TryAppend, Recovered, AcceptedIds, FirstLive, Drop, Claim;
  }

  lemma SentQuietly(s: State, target: string, requestId: string, message: Message, env: SendEnv, id: string)
    ensures Undisturbed(s, Sent(s, target, requestId, message, env).0, id)
  {
    hide TryAppend, Recovered, AcceptedIds, FirstLive, Drop, Claim;
    QuietStep(s, Ensure(target), id);
  }

  lemma OtherStepsQuiet(s: State, a: Action, id: string)
    requires !a.Receive? && !a.Wake? && a != Connect(id)
    ensures Undisturbed(s, Next(s, a), id)
  {
    match a {
      case Close(target) => ClosedQuietly(s, target, id);
      case Remove(target, _) => ClosedQuietly(s, target, id);
      case Send(target, requestId, message, env) => SentQuietly(s, target, requestId, message, env, id);
      case _ => QuietStep(s, a, id);
    }
  }

  /** What a connection has carried changes only by a write to it. */
  lemma ShownOnlyByWire(s: State, a: Action, id: string)
    requires Inv(s) && SameEpoch(s, a, id)
    requires Next(s, a).wire == s.wire || id != Writer(a)
    ensures Next(s, a).peers[id].link.shown == s.peers[id].link.shown
  {
    hide TryAppend, Received, Inv, Sent, Released;
    match a {
      case Receive(target, frame, env) =>
        if Linked(s, target) {
          ReceivedShown(s, target, frame, env, id);
        }
      case Wake(target, wrote) =>
      case _ => OtherStepsQuiet(s, a, id);
    }
  }

  /** One step of an epoch: the connection's record and the wire grow by the same chats. */
  lemma StepTracks(s: State, a: Action, id: string)
    requires Inv(s) && SameEpoch(s, a, id)
    ensures Tracks(s, Next(s, a), id)
  {
    hide Next, Inv, Recovered;
    var s' := Next(s, a);
    WireIsAuthorised(s, a);
    if s'.wire == s.wire {
      ShownOnlyByWire(s, a, id);
    } else {
      var d :| s'.wire == s.wire + [d] && d.id == Writer(a) && Authorised(s, d) && Linked(s', d.id)
               && s'.peers[d.id].link.shown == s.peers[d.id].link.shown + [d.requestId];
      assert s'.wire[..|s.wire|] == s.wire;
      if d.id == id {
        assert DeliveredTo(s'.wire, id) == DeliveredTo(s.wire, id) + [d.requestId];
      } else {
        ShownOnlyByWire(s, a, id);
      }
    }
  }

  lemma {:induction false} EpochTracks(s: State, actions: seq<Action>, id: string)
    requires Inv(s) && AllGenuine(s, actions) && Linked(s, id) && OneEpoch(s, actions, id)
    ensures Linked(RunAll(s, actions), id) && Tracks(s, RunAll(s, actions), id)
    decreases |actions|
  {
    hide Next, Inv, DeliveredTo;
    if actions != [] {
      var s' := Next(s, actions[0]);
      NextKeeps(s, actions[0]);
      StepTracks(s, actions[0], id);
      EpochTracks(s', actions[1..], id);
      var end := RunAll(s', actions[1..]);
      GrowthComposes(s.peers[id].link.shown, s'.peers[id].link.shown, end.peers[id].link.shown,
                     DeliveredTo(s.wire, id), DeliveredTo(s'.wire, id), DeliveredTo(end.wire, id));
    }
  }

  /** Between host-offline reports one connection carries each chat at most once: the chats delivered
      during the epoch are pairwise different, and different from those it carried before. */
  lemma DeliveredAtMostOnce(s: State, actions: seq<Action>, id: string)
    requires Inv(s) && AllGenuine(s, actions) && Linked(s, id) && OneEpoch(s, actions, id)
    ensures var before, after := DeliveredTo(s.wire, id), DeliveredTo(RunAll(s, actions).wire, id);
      before <= after && Distinct(s.peers[id].link.shown + after[|before|..])
  {
    EpochTracks(s, actions, id);
    RunKeeps(s, actions);
    var end := RunAll(s, actions);
    assert Local(end, id);
    assert end.peers[id].link.shown == s.peers[id].link.shown + end.peers[id].link.shown[|s.peers[id].link.shown|..];
  }

  // ----- attribution -----

  /** Background tasks stay with the request that launched them: a remembered origin overrides both the
      id the frame names and the turn that is active now. */
  lemma OriginOverrides(log: Log, p: PeerView, frame: Frame)
    requires frame.kind.Task? && FirstBound(p.tasks, TaskKeys(frame.taskId, frame.parentId)) != ""
    ensures Stamped(log, p, frame) == (p.tasks, FirstBound(p.tasks, TaskKeys(frame.taskId, frame.parentId)))
  {
  }

  ghost predicate BindingsKept(s: State, s': State, id: string) {
    id in s.peers && id in s'.peers ==>
      forall key | key in s.peers[id].tasks ::
        key in s'.peers[id].tasks && s'.peers[id].tasks[key] == s.peers[id].tasks[key]
  }

  lemma RecordedBindings(s: State, id: string, frame: Frame, disk: Disk, other: string)
    requires Inv(s) && id in s.peers
    ensures BindingsKept(s, Recorded(s, id, frame, disk), other)
    ensures other in Recorded(s, id, frame, disk).peers <==> other in s.peers
  {
    assert Local(s, id);
    StampedIsAccepted(s.LogOf(id), s.peers[id], frame);
    RecordedFrame(s, id, frame, disk);
  }

  lemma HostReportedTasks(s: State, id: string, connected: bool, wrote: bool, other: string)
    requires Linked(s, id)
    ensures var s' := HostReported(s, id, connected, wrote);
      (other in s'.peers <==> other in s.peers) && (other in s.peers ==> s'.peers[other].tasks == s.peers[other].tasks)
  {
  }

  lemma ReceivedBindings(s: State, id: string, frame: Frame, env: FrameEnv, other: string)
    requires Inv(s) && Linked(s, id)
    ensures BindingsKept(s, Received(s, id, frame, env), other)
  {
    hide TryAppend, Stamped, Finished, PeerInv, LogInv, Coupled;
    if frame.kind.HostStatus? {
      HostReportedKeeps(s, id, frame.connected, env.wrote);
      HostReportedTasks(s, id, frame.connected, env.wrote, other);
      RecordedBindings(HostReported(s, id, frame.connected, env.wrote), id, frame, env.disk, other);
    } else {
      RecordedBindings(s, id, frame, env.disk, other);
      RecordedFrame(s, id, frame, env.disk);
      if Terminal(frame.kind) {
        FinishedQuietly(Recorded(s, id, frame, env.disk), id, env.marker, env.finishDisk, other);
      }
    }
  }

  /** The first request bound to a task stays bound to it for as long as the peer lives. */
  lemma BindingsNeverChange(s: State, a: Action, id: string)
    requires Inv(s)
    ensures BindingsKept(s, Next(s, a), id)
  {
    hide TryAppend, Stamped, Received, Inv, Released, Sent;
    match a {
      case Receive(target, frame, env) =>
        if Linked(s, target) {
          ReceivedBindings(s, target, frame, env, id);
        }
      case Wake(_, _) =>
      case Connect(_) =>
      case _ => OtherStepsQuiet(s, a, id);
    }
  }

  /** The peer lives before, between and after the actions. */
  ghost predicate Lives(s: State, actions: seq<Action>, id: string)
    decreases |actions|
  {
    id in s.peers && (actions != [] ==> Lives(Next(s, actions[0]), actions[1..], id))
  }

  lemma {:induction false} BindingsLast(s: State, actions: seq<Action>, id: string, key: string)
    requires Inv(s) && AllGenuine(s, actions) && Lives(s, actions, id) && key in s.peers[id].tasks
    ensures Inv(RunAll(s, actions)) && id in RunAll(s, actions).peers
    ensures var tasks := RunAll(s, actions).peers[id].tasks; key in tasks && tasks[key] == s.peers[id].tasks[key]
    decreases |actions|
  {
    hide Next, Inv;
    if actions != [] {
      NextKeeps(s, actions[0]);
      BindingsNeverChange(s, actions[0], id);
      BindingsLast(Next(s, actions[0]), actions[1..], id, key);
    }
  }

  /** A background task once bound to a request stays with it: whatever happens meanwhile, and whatever
      request is active or named by then, a frame of that task is stamped with that request for as long
      as the peer lives. */
  lemma TaskKeepsItsOrigin(s: State, actions: seq<Action>, id: string, frame: Frame)
    requires Inv(s) && AllGenuine(s, actions) && Lives(s, actions, id)
    requires frame.kind.Task? && frame.taskId != "" && |frame.taskId| <= MaxTaskId
    requires "task:" + frame.taskId in s.peers[id].tasks
    ensures var t := RunAll(s, actions);
      id in t.peers && Stamped(t.LogOf(id), t.peers[id], frame).1 == s.peers[id].tasks["task:" + frame.taskId]
  {
    hide RunAll, LogInv, LinkInv, Agrees, TableInv, Coupled, Named;
    var key := "task:" + frame.taskId;
    BindingsLast(s, actions, id, key);
    var t := RunAll(s, actions);
    assert Local(s, id) && s.peers[id].tasks[key] != "";
    assert TaskKeys(frame.taskId, frame.parentId)[0] == key;
    OriginOverrides(t.LogOf(id), t.peers[id], frame);
  }

  /** In every reachable state, each id stamped on a journaled event was accepted at or before it in that
      conversation. */
  lemma StampedIdsWereAccepted(s: State, id: string, j: nat)
    requires Inv(s) && j < |s.LogOf(id)| && s.LogOf(id)[j].requestId != ""
    ensures exists i | 0 <= i <= j :: Accepts(s.LogOf(id)[i]) && s.LogOf(id)[i].requestId == s.LogOf(id)[j].requestId
  {
    assert Local(s, id);
    AttributedMeaning(s.LogOf(id), j);
  }
}
