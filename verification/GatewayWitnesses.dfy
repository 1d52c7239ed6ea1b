/** Short runs from the start that meet the failing side of the gateway's exact conditions. */
module GatewayWitnesses {
  import opened Common
  import opened JournalLog
  import opened TurnTable
  import opened GatewayState
  import opened GatewayInvariant
  import opened GatewaySteps
  import opened GatewayRuns
  import opened GatewayDelivery
  import opened GatewayProgress
  import opened GatewayScheduling
  import opened GatewaySending

  const Granted := SendEnv(true, Open, Open, Room)

  predicate Sized(requestId: string) {
    requestId != "" && |requestId| <= MaxRequestId
  }

  lemma RunTwo(s: State, a: Action, b: Action)
    ensures RunAll(s, [a, b]) == Next(Next(s, a), b)
    ensures Genuine(s, a) && Genuine(Next(s, a), b) ==> AllGenuine(s, [a, b])
  {
    hide Next, Genuine;
    assert [a, b][1..] == [b] && [b][1..] == [];
    assert RunAll(Next(s, a), [b]) == Next(Next(s, a), b);
    assert Genuine(Next(s, a), b) ==> AllGenuine(Next(s, a), [b]);
  }

  // ----- intruding frames -----

  /** A freshly connected conversation and a frame of the reserved type without any id are enough. */
  lemma IntrusionIsReachable(id: string, limit: nat, maxEvent: nat)
    requires SafeJournalId(id)
    ensures var s := RunAll(Start(limit, maxEvent), [Ensure(id), Connect(id)]);
      var frame := Frame(RequestAccepted, false, "", "", "", []);
      && AllGenuine(Start(limit, maxEvent), [Ensure(id), Connect(id)]) && Linked(s, id)
      && Intrudes(s, id, frame, Room)
      && !Inv(Received(s, id, frame, FrameEnv(true, Room, Room, [])))
  {
    hide Inv, Received;
    var start := Start(limit, maxEvent);
    RunTwo(start, Ensure(id), Connect(id));
    var s := RunAll(start, [Ensure(id), Connect(id)]);
    StartIsSound(limit, maxEvent);
    RunKeeps(start, [Ensure(id), Connect(id)]);
    assert start.LogOf(id) == [] && Pending([]) == map[];
    assert s.peers[id] == FreshPeer(None).(link := Up(false, "", []));
    ReceivedKeepsExactly(s, id, Frame(RequestAccepted, false, "", "", "", []), FrameEnv(true, Room, Room, []));
  }

  // ----- the stop window -----

  /** The state after a first chat was sent to a conversation nobody used before. */
  function FirstTurn(s: State, id: string, requestId: string, payload: Bytes): State {
    var (table, leased) := Claim(s.Table(), s.limit, id);
    s.(logs := s.logs[id := [Event(1, RequestAccepted, requestId, payload)]],
       peers := s.peers[id := PeerView(requestId, payload, leased, leased, map[], Outbox([], []), Down)],
       active := table.active, queue := table.queue)
  }

  lemma SendingFirst(s: State, id: string, requestId: string, payload: Bytes)
    requires SafeJournalId(id) && Sized(requestId) && |payload| <= s.maxEvent
    requires id !in s.peers && s.LogOf(id) == []
    ensures Next(s, Send(id, requestId, Chat(payload), Granted)) == FirstTurn(s, id, requestId, payload)
  {
    hide Claim;
    assert Pending([]) == map[];
    var ready := Ensured(s, id);
    assert ready == s.With(id, FreshPeer(None));
    assert SendDecision(ready, id, requestId, Chat(payload), Granted)
        == Accepted(Event(1, RequestAccepted, requestId, payload));
    var t := FirstTurn(s, id, requestId, payload);
    assert t.peers == ready.peers[id := t.peers[id]];
    assert s.LogOf(id) + [Event(1, RequestAccepted, requestId, payload)] == t.logs[id];
  }

  lemma RunOne(s: State, a: Action)
    ensures RunAll(s, [a]) == Next(s, a) && (Genuine(s, a) ==> AllGenuine(s, [a]))
  {
    hide Next, Genuine;
    assert [a][1..] == [];
  }

  /** One chat sent, its conversation closed, and the conversation ensured again in between. */
  lemma StopWindowIsReachable(id: string, requestId: string, payload: Bytes)
    requires SafeJournalId(id) && Sized(requestId)
    ensures var actions := [Send(id, requestId, Chat(payload), Granted)];
      var s := RunAll(Start(1, |payload|), actions);
      && AllGenuine(Start(1, |payload|), actions) && id in s.peers
      && !Coupled(Abandoned(InWindow(Unpublished(s, id), id, [Ensuring]), id, s.peers[id].activeChat != ""))
  {
    hide Inv, Coupled, Ensured, Abandoned, Sent;
    var start, send := Start(1, |payload|), Send(id, requestId, Chat(payload), Granted);
    RunOne(start, send);
    StartIsSound(1, |payload|);
    SendingFirst(start, id, requestId, payload);
    RunKeeps(start, [send]);
    var s := Next(start, send);
    StopWindow(s, id, [Ensuring]);
    EnsuringReopensTheTurn(s, id);
    OneOperation(Unpublished(s, id), id, Ensuring);
  }

  // ----- the release window -----

  /** What two sends, a connection and a terminal frame lead to: one conversation holds the only slot, the
      other is idle but still queued. */
  ghost predicate StaleWaiter(s: State, a: string, b: string, requestId: string) {
    && s.limit == 1 && s.active == {a} && s.queue == [b] && a in s.peers && b in s.peers
    && s.peers[a].activeChat != "" && s.peers[b].activeChat == "" && s.peers[b].outgoing.queued == []
    && AcceptedIds(s.LogOf(b)) == {requestId}
  }

  /** The other conversation's turn ends before it ever got a slot. */
  lemma EndsUnleased(s: State, id: string, requestId: string, payload: Bytes, data: Bytes)
    requires Linked(s, id) && SafeJournalId(id) && |data| <= s.maxEvent
    requires s.peers[id] == PeerView(requestId, payload, false, false, map[], Outbox([], []), Up(false, "", []))
    requires s.LogOf(id) == [Event(1, RequestAccepted, requestId, payload)] && requestId != ""
    ensures var t := Next(s, Receive(id, Frame(Done, false, "", "", "", data), FrameEnv(true, Room, Room, data)));
      && t.Table() == s.Table() && t.limit == s.limit && t.maxEvent == s.maxEvent
      && id in t.peers && t.peers == s.peers[id := t.peers[id]]
      && t.peers[id].activeChat == "" && t.peers[id].outgoing.queued == []
      && AcceptedIds(t.LogOf(id)) == {requestId}
  {
    hide Next, Recorded, Completed, Stamped, AcceptedIds;
    var frame, env := Frame(Done, false, "", "", "", data), FrameEnv(true, Room, Room, data);
    TerminalSteps(s, id, frame, env);
    RecordedExactly(s, id, frame, env);
    RecordedFrame(s, id, frame, Room);
    EndKeeps(s, id, frame, env);
    FirstLog(s, id, requestId, payload);
    FrameAcceptsNothing(s, id, frame, data, requestId);
    CompletedExactly(Recorded(s, id, frame, Room), id, data, Room);
    ReceivedSize(s, id, frame, env);
    var log, t := s.LogOf(id), Next(s, Receive(id, frame, env));
    var a, b := FrameEvent(log, s.peers[id], frame), Event(|log| + 2, RequestCompleted, requestId, data);
    assert (log + [a]) + [b] == log + [a, b];
    assert t.LogOf(id) == log + [a, b];
  }

  /** The first three steps: two sends and a connection. */
  lemma TwoSendsAndAConnection(a: string, b: string, requestId: string, payload: Bytes)
    requires SafeJournalId(a) && SafeJournalId(b) && a != b && Sized(requestId)
    ensures var s := Next(Next(Next(Start(1, |payload|), Send(a, requestId, Chat(payload), Granted)),
                               Send(b, requestId, Chat(payload), Granted)), Connect(b));
      && s.limit == 1 && s.active == {a} && s.queue == [b] && s.maxEvent == |payload|
      && a in s.peers && s.peers[a].activeChat != ""
      && Linked(s, b)
      && s.peers[b] == PeerView(requestId, payload, false, false, map[], Outbox([], []), Up(false, "", []))
      && s.LogOf(b) == [Event(1, RequestAccepted, requestId, payload)]
  {
    hide Sent;
    var start := Start(1, |payload|);
    SendingFirst(start, a, requestId, payload);
    SendingFirst(FirstTurn(start, a, requestId, payload), b, requestId, payload);
  }

  lemma StaleWaiterIsReachable(a: string, b: string, requestId: string, payload: Bytes) returns (actions: seq<Action>)
    requires SafeJournalId(a) && SafeJournalId(b) && a != b && Sized(requestId)
    ensures AllGenuine(Start(1, |payload|), actions)
    ensures StaleWaiter(RunAll(Start(1, |payload|), actions), a, b, requestId)
    ensures RunAll(Start(1, |payload|), actions).maxEvent == |payload|
  {
    hide Sent, Received, Inv;
    var start := Start(1, |payload|);
    var first, second := Send(a, requestId, Chat(payload), Granted), Send(b, requestId, Chat(payload), Granted);
    var done := Receive(b, Frame(Done, false, "", "", "", payload), FrameEnv(true, Room, Room, payload));
    var s := Next(Next(Next(start, first), second), Connect(b));
    actions := [first, second] + [Connect(b), done];
    TwoSendsAndAConnection(a, b, requestId, payload);
    EndsUnleased(s, b, requestId, payload, payload);
    RunTwo(start, first, second);
    RunTwo(Next(Next(start, first), second), Connect(b), done);
    RunJoins(start, [first, second], [Connect(b), done]);
  }

  lemma {:induction false} RunJoins(s: State, before: seq<Action>, after: seq<Action>)
    ensures RunAll(s, before + after) == RunAll(RunAll(s, before), after)
    ensures AllGenuine(s, before) && AllGenuine(RunAll(s, before), after) ==> AllGenuine(s, before + after)
    decreases |before|
  {
    hide Next, Genuine;
    if before == [] {
      assert before + after == after;
    } else {
      assert (before + after)[1..] == before[1..] + after;
      RunJoins(Next(s, before[0]), before[1..], after);
    }
  }

  /** A conversation waits behind another, its turn ends without a slot, the other one is closed; between
      the pass that promotes the idle waiter and the one that takes the slot back, it is sent a new chat.
      The chat is accepted and leased, and the lease is then taken away from the table. */
  lemma ReleaseWindowIsReachable(a: string, b: string, first: string, next: string, payload: Bytes)
    returns (actions: seq<Action>)
    requires SafeJournalId(a) && SafeJournalId(b) && a != b && Sized(first) && Sized(next) && first != next
    ensures AllGenuine(Start(1, |payload|), actions)
    ensures a in RunAll(Start(1, |payload|), actions).peers
    ensures var gone := Unpublished(RunAll(Start(1, |payload|), actions), a);
      var meanwhile := InWindow(MidRelease(gone, a), b, [Sending(next, Chat(payload), Granted)]);
      && Changing(gone, a) && !Live(gone.peers, a) && Release(gone.Table(), gone.limit, a).1 == Some(b)
      && Live(meanwhile.peers, b) && meanwhile.peers[b].lease
      && !Coupled(Released(meanwhile, b))
  {
    hide Inv, Changing, Coupled, Released, CoupledBut, TableInv;
    actions := StaleWaiterIsReachable(a, b, first, payload);
    var s := RunAll(Start(1, |payload|), actions);
    StartIsSound(1, |payload|);
    RunKeeps(Start(1, |payload|), actions);
    ClosingIsChanging(s, a);
    var gone := Unpublished(s, a);
    assert Drop([b], a) == [b] + Drop([], a) == [b];
    assert s.active - {a} == {};
    SoundParts(s, b);
    NewChatInWindow(MidRelease(gone, a), b, next, payload, first);
    ReleaseWindow(gone, a, [Sending(next, Chat(payload), Granted)]);
  }

  lemma SoundParts(s: State, id: string)
    requires Inv(s)
    ensures LogInv(s.LogOf(id)) && Recovered(s.LogOf(id)).Ok?
    ensures id in s.peers ==> SafeJournalId(id)
  {
    assert Local(s, id);
    RecoveryFindsTheTurn(s.LogOf(id));
  }

  lemma ClosingIsChanging(s: State, id: string)
    requires Inv(s) && id in s.peers
    ensures Changing(Unpublished(s, id), id)
  {
    hide CoupledBut, TableInv, LogInv;
    UnpublishedKeeps(s, id);
    assert Local(s, id);
  }

  lemma OneOperation(s: State, id: string, op: Meanwhile)
    ensures InWindow(s, id, [op]) == Operated(s, id, op)
  {
    hide Operated;
    assert [op][1..] == [];
  }

  /** The window is open for a Send: the idle conversation takes the chat and is told it holds a slot. */
  lemma NewChatInWindow(m: State, id: string, requestId: string, payload: Bytes, earlier: string)
    requires id in m.peers && m.peers[id].activeChat == "" && m.peers[id].outgoing.queued == [] && id in m.active
    requires SafeJournalId(id) && Recovered(m.LogOf(id)).Ok? && AcceptedIds(m.LogOf(id)) == {earlier}
    requires Sized(requestId) && requestId != earlier && |payload| <= m.maxEvent
    ensures var t := InWindow(m, id, [Sending(requestId, Chat(payload), Granted)]);
      Live(t.peers, id) && t.peers[id].lease
  {
    hide AcceptedIds, Recovered;
    OneOperation(m, id, Sending(requestId, Chat(payload), Granted));
  }

  // ----- a task stamped through its parent -----

  lemma FreshStamp(log: Log, p: PeerView, frame: Frame)
    requires frame.kind.Task? && frame.taskId == "" && GatewayProgress.Usable(frame.parentId) && frame.requestId == ""
    requires p.tasks == map[]
    ensures Stamped(log, p, frame).1 == p.activeChat
  {
    hide FirstBound, Bound, AcceptedIds;
    assert TaskKeys(frame.taskId, frame.parentId) == ["parent:" + frame.parentId];
    OneKey(p.tasks, "parent:" + frame.parentId, p.activeChat);
  }

  /** What a state on the way looks like: a sound state, the peer's turn, and the only request accepted so far. */
  ghost predicate OnTheWay(s: State, id: string, turn: string, accepted: set<string>) {
    Inv(s) && id in s.peers && s.peers[id].activeChat == turn && AcceptedIds(s.LogOf(id)) == accepted
  }

  ghost predicate ParentBoundTo(s: State, id: string, parentId: string, requestId: string) {
    id in s.peers && "parent:" + parentId in s.peers[id].tasks && s.peers[id].tasks["parent:" + parentId] == requestId
  }

  const Works := FrameEnv(true, Room, Room, [])

  /** A first chat, a connection, and a task frame that names only its parent. */
  lemma ParentGetsBound(id: string, name: string, parentId: string, requestId: string, payload: Bytes)
    returns (s: State)
    requires SafeJournalId(id) && Sized(requestId) && 0 < |name| <= 96 && GatewayProgress.Usable(parentId)
    ensures var connected := Next(Next(Start(1, |payload|), Send(id, requestId, Chat(payload), Granted)), Connect(id));
      s == Next(connected, Receive(id, Frame(Task(name), false, "", "", parentId, []), Works))
    ensures OnTheWay(s, id, requestId, {requestId}) && Linked(s, id) && ParentBoundTo(s, id, parentId, requestId)
    ensures |s.peers[id].tasks| == 1 && s.peers[id].outgoing == Outbox([], []) && s.maxEvent == |payload|
  {
    hide Inv, Sent, Next, Stamped, Recorded;
    var start, send := Start(1, |payload|), Send(id, requestId, Chat(payload), Granted);
    var frame := Frame(Task(name), false, "", "", parentId, []);
    StartIsSound(1, |payload|);
    SendingFirst(start, id, requestId, payload);
    NextKeeps(start, send);
    Connected(Next(start, send), id);
    var c := Next(Next(start, send), Connect(id));
    FirstLog(c, id, requestId, payload);
    NoIntrusion(c, id, frame, Room);
    FreshStamp(c.LogOf(id), c.peers[id], frame);
    ParentBound(c.LogOf(id), c.peers[id], frame);
    OneBinding(c.LogOf(id), c.peers[id], frame);
    TaskFrameRemembers(c, id, frame, Works);
    NextKeeps(c, Receive(id, frame, Works));
    OtherFramesKeepTurns(c, id, frame, Works);
    PlainSteps(c, id, frame, Works);
    RecordedFrame(c, id, frame, Room);
    AcceptedAfter(c.LogOf(id), FrameEvent(c.LogOf(id), c.peers[id], frame));
    s := Next(c, Receive(id, frame, Works));
  }

  lemma Connected(s: State, id: string)
    requires Inv(s) && id in s.peers
    ensures var t := Next(s, Connect(id)); Inv(t) && t == s.With(id, s.peers[id].(link := Up(false, "", [])))
  {
    hide Inv;
    NextKeeps(s, Connect(id));
  }

  lemma FirstLog(s: State, id: string, requestId: string, payload: Bytes)
    requires s.LogOf(id) == [Event(1, RequestAccepted, requestId, payload)] && requestId != ""
    ensures AcceptedIds(s.LogOf(id)) == {requestId}
  {
    assert s.LogOf(id) == [] + s.LogOf(id) && AcceptedIds([]) == {};
    AcceptedAfter([], s.LogOf(id)[0]);
  }

  lemma OneBinding(log: Log, p: PeerView, frame: Frame)
    requires frame.kind.Task? && frame.taskId == "" && GatewayProgress.Usable(frame.parentId) && frame.requestId == ""
    requires p.tasks == map[] && p.activeChat != ""
    ensures |Stamped(log, p, frame).0| == 1
  {
    hide FirstBound, Bound, AcceptedIds;
    assert TaskKeys(frame.taskId, frame.parentId) == ["parent:" + frame.parentId];
    OneKey(p.tasks, "parent:" + frame.parentId, p.activeChat);
    assert map[]["parent:" + frame.parentId := p.activeChat].Keys == {"parent:" + frame.parentId};
  }

  /** The turn ends, the next one begins, and the host connects again: the binding is still there. */
  lemma NextTurnBegins(s: State, id: string, parentId: string, first: string, next: string, payload: Bytes)
    returns (t: State)
    requires OnTheWay(s, id, first, {first}) && Linked(s, id) && ParentBoundTo(s, id, parentId, first)
    requires |s.peers[id].tasks| == 1 && s.peers[id].outgoing == Outbox([], []) && |payload| == s.maxEvent
    requires first != "" && Sized(next) && first != next
    ensures var done := Next(s, Receive(id, Frame(Done, false, "", "", "", []), Works));
      t == Next(Next(done, Send(id, next, Chat(payload), Granted)), Connect(id))
    ensures Inv(t) && Linked(t, id) && t.peers[id].activeChat == next && ParentBoundTo(t, id, parentId, first)
    ensures |t.peers[id].tasks| == 1
  {
    hide Inv, Next, Stamped, Recorded, Completed, Recovered, SlotPassed;
    var end, send := Receive(id, Frame(Done, false, "", "", "", []), Works), Send(id, next, Chat(payload), Granted);
    SafeOf(s, id);
    NoIntrusion(s, id, end.frame, Room);
    NextKeeps(s, end);
    TerminalFrameEndsTurn(s, id, end.frame, Works);
    FrameAcceptsNothing(s, id, end.frame, [], first);
    var d := Next(s, end);
    BindingsNeverChange(s, end, id);
    EndKeeps(s, id, end.frame, Works);
    AcceptedMeaning(d.LogOf(id), next);
    SentIs(d, id, next, Chat(payload), Granted);
    AcceptedExactly(d, id, next, Chat(payload), Granted);
    ChatTakesEffect(d, id, next, payload, Granted);
    BindingsNeverChange(d, send, id);
    NextKeeps(d, send);
    ChatKeepsTasks(d, id, next, payload, Granted);
    Connected(Next(d, send), id);
    t := Next(Next(d, send), Connect(id));
  }

  lemma SentIs(s: State, id: string, requestId: string, message: Message, env: SendEnv)
    ensures Next(s, Send(id, requestId, message, env)) == Sent(s, id, requestId, message, env).0
  {
    hide Sent;
  }

  lemma FrameAcceptsNothing(s: State, id: string, frame: Frame, marker: Bytes, first: string)
    requires Linked(s, id) && AcceptedIds(s.LogOf(id)) == {first} && frame.kind == Done
    ensures var log := s.LogOf(id);
      var end := Event(|log| + 2, RequestCompleted, s.peers[id].activeChat, marker);
      AcceptedIds(log + [FrameEvent(log, s.peers[id], frame), end]) == {first}
  {
    hide Stamped;
    var log := s.LogOf(id);
    var a, b := FrameEvent(log, s.peers[id], frame), Event(|log| + 2, RequestCompleted, s.peers[id].activeChat, marker);
    AcceptedAfter(log, a);
    AcceptedAfter(log + [a], b);
    assert log + [a, b] == (log + [a]) + [b];
  }

  /** A terminal frame without a task leaves tasks and queue as they are. */
  lemma EndKeeps(s: State, id: string, frame: Frame, env: FrameEnv)
    requires Linked(s, id) && frame.kind == Done
    ensures var t := Next(s, Receive(id, frame, env));
      id in t.peers && t.peers[id].tasks == s.peers[id].tasks && t.peers[id].outgoing == s.peers[id].outgoing
      && t.maxEvent == s.maxEvent
  {
    hide Next, Recorded, Completed, Stamped;
    TerminalSteps(s, id, frame, env);
    RecordedFrame(s, id, frame, env.disk);
    RecordedTasks(s, id, frame, env.disk);
    PlainOrigin(s.LogOf(id), s.peers[id], frame);
    CompletedQuietly(Recorded(s, id, frame, env.disk), id, env.marker, env.finishDisk, id);
    CompletedBox(Recorded(s, id, frame, env.disk), id, env.marker, env.finishDisk, id);
    ReceivedSize(s, id, frame, env);
  }

  lemma ReceivedSize(s: State, id: string, frame: Frame, env: FrameEnv)
    requires Linked(s, id) && frame.kind == Done
    ensures Next(s, Receive(id, frame, env)).maxEvent == s.maxEvent
    ensures Next(s, Receive(id, frame, env)).limit == s.limit
  {
    hide Stamped, Released, AcceptedIds;
    var recorded := Recorded(s, id, frame, env.disk);
    RecordedFrame(s, id, frame, env.disk);
    ReleasedFrame(Idled(recorded, id, EndEvent(recorded.LogOf(id), recorded.peers[id], env.marker)), id);
  }

  lemma ChatKeepsTasks(s: State, id: string, requestId: string, encoded: Bytes, env: SendEnv)
    requires Inv(s) && id in s.peers
    ensures var t := Next(s, Send(id, requestId, Chat(encoded), env));
      id in t.peers ==> t.peers[id].tasks == s.peers[id].tasks
  {
    hide Inv, TryAppend, Recovered, AcceptedIds, Claim;
  }

  /** Six actions lead to a state in which a task frame is stamped through its parent with an old request while
      another turn is active: the next frame that names only the task goes to that turn. */
  lemma ParentAloneIsReachable(id: string, name: string, parentId: string, taskId: string,
                               first: string, next: string, payload: Bytes)
    returns (actions: seq<Action>)
    requires SafeJournalId(id) && Sized(first) && Sized(next) && first != next && 0 < |name| <= 96
    requires GatewayProgress.Usable(parentId) && GatewayProgress.Usable(taskId)
    ensures var s := RunAll(Start(1, |payload|), actions);
      var frame := Frame(Task(name), false, "", taskId, parentId, []);
      var t := Next(s, Receive(id, frame, Works)); var later := Frame(Task(name), false, "", taskId, "", []);
      && StampedThen(s, id, frame, Works, []) && Stamped(s.LogOf(id), s.peers[id], frame).1 == first
      && id in t.peers && Stamped(t.LogOf(id), t.peers[id], later).1 == next
  {
    hide Inv, Next, Stamped;
    var a := ParentGetsBound(id, name, parentId, first, payload);
    var s := NextTurnBegins(a, id, parentId, first, next, payload);
    actions := [Send(id, first, Chat(payload), Granted), Connect(id)]
      + ([Receive(id, Frame(Task(name), false, "", "", parentId, []), Works),
          Receive(id, Frame(Done, false, "", "", "", []), Works)]
      + [Send(id, next, Chat(payload), Granted), Connect(id)]);
    SixSteps(Start(1, |payload|), actions);
    var frame := Frame(Task(name), false, "", taskId, parentId, []);
    ParentDecides(s.LogOf(id), s.peers[id], frame, first);
    NoIntrusion(s, id, frame, Room);
    assert StampedThen(s, id, frame, Works, []) by {
      TaskFrameRemembers(s, id, frame, Works);
    }
    ParentAloneIsNotEnough(s, id, frame, Works);
  }

  lemma SixSteps(s: State, actions: seq<Action>)
    requires |actions| == 6
    ensures var two := Next(Next(s, actions[0]), actions[1]);
      var four := Next(Next(two, actions[2]), actions[3]);
      RunAll(s, actions) == Next(Next(four, actions[4]), actions[5])
  {
    hide Next;
    var two := Next(Next(s, actions[0]), actions[1]);
    var four := Next(Next(two, actions[2]), actions[3]);
    RunTwo(s, actions[0], actions[1]);
    RunTwo(two, actions[2], actions[3]);
    RunTwo(four, actions[4], actions[5]);
    RunJoins(s, [actions[0], actions[1]], [actions[2], actions[3]] + [actions[4], actions[5]]);
    RunJoins(two, [actions[2], actions[3]], [actions[4], actions[5]]);
    assert actions == [actions[0], actions[1]] + ([actions[2], actions[3]] + [actions[4], actions[5]]);
  }

  lemma {:induction false} SubsetSize(small: set<string>, large: set<string>)
    requires small <= large
    ensures |small| <= |large|
  {
    if small != {} {
      var x :| x in small;
      SubsetSize(small - {x}, large - {x});
    }
  }

  /** A bound parent and an unknown task. */
  lemma ParentDecides(log: Log, p: PeerView, frame: Frame, requestId: string)
    requires frame.kind.Task? && GatewayProgress.Usable(frame.taskId) && GatewayProgress.Usable(frame.parentId)
    requires |p.tasks| == 1 && requestId != ""
    requires "parent:" + frame.parentId in p.tasks && p.tasks["parent:" + frame.parentId] == requestId
    ensures Stamped(log, p, frame) == (p.tasks, requestId) && !OwnOrigin(p.tasks, frame)
  {
    hide FirstBound, Bound, AcceptedIds;
    TaskKeysDistinct(frame.taskId, frame.parentId);
    var keys := ["task:" + frame.taskId, "parent:" + frame.parentId];
    assert TaskKeys(frame.taskId, frame.parentId) == keys && keys[0] != keys[1];
    if keys[0] in p.tasks {
      assert {keys[0], keys[1]} <= p.tasks.Keys && |{keys[0], keys[1]}| == 2;
      SubsetSize({keys[0], keys[1]}, p.tasks.Keys);
    }
    TwoKeys(p.tasks, keys[0], keys[1], requestId);
  }
}
