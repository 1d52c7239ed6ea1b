/** What relay frames achieve: each is journaled, terminal frames end turns and nothing else does, and
    background tasks keep the request of their first frame. */
module GatewayProgress {
  import opened Common
  import opened JournalLog
  import opened TurnTable
  import opened GatewayState
  import opened GatewayInvariant
  import opened GatewaySteps
  import opened GatewayRuns
  import opened GatewayDelivery

  // ----- frames are journaled -----

  /** The frame names a request this conversation has accepted. */
  ghost predicate NamesAccepted(log: Log, frame: Frame) {
    && frame.requestId != "" && |frame.requestId| <= 160
    && exists i | 0 <= i < |log| :: Accepts(log[i]) && log[i].requestId == frame.requestId
  }

  /** A frame that is no background task event belongs to the accepted request it names, else to the active turn. */
  lemma PlainOrigin(log: Log, p: PeerView, frame: Frame)
    requires !frame.kind.Task?
    ensures Stamped(log, p, frame) == (p.tasks, if NamesAccepted(log, frame) then frame.requestId else p.activeChat)
  {
    hide AcceptedIds;
    AcceptedMeaning(log, frame.requestId);
  }

  /** The event a frame of one of the executor's own types becomes. */
  function FrameEvent(log: Log, p: PeerView, frame: Frame): Event {
    Event(|log| + 1, frame.kind, Stamped(log, p, frame).1, frame.data)
  }

  /** The disk takes the frame's event. */
  predicate Journalable(s: State, frame: Frame, env: FrameEnv) {
    |frame.data| <= s.maxEvent && NameFits(frame.kind) && env.disk == Room
    && !frame.kind.RequestAccepted? && !frame.kind.ControlAccepted?
  }

  lemma RecordedExactly(s: State, id: string, frame: Frame, env: FrameEnv)
    requires id in s.peers && SafeJournalId(id) && Journalable(s, frame, env)
    ensures var t := Recorded(s, id, frame, env.disk);
      t == s.With(id, s.peers[id].(tasks := t.peers[id].tasks))
            .(logs := s.logs[id := s.LogOf(id) + [FrameEvent(s.LogOf(id), s.peers[id], frame)]])
  {
    hide Stamped, AcceptedIds;
  }

  // ----- a slot moves on -----

  /** Giving a slot up hands it to the first live waiter, who is leased and woken, and drops the entries ahead
      of it; without a live waiter the slot is free and nobody waits. */
  lemma SlotMovesOn(s: State, id: string)
    requires TableInv(s.Table(), s.limit) && id in s.active
    ensures var t := Released(s, id); var k := FirstLive(s.peers, s.queue);
      if k == |s.queue| then t == s.(active := s.active - {id}, queue := [])
      else
        var next := s.queue[k];
        t == s.With(next, s.peers[next].(lease := true, wake := true))
              .(active := s.active - {id} + {next}, queue := s.queue[k + 1..])
  {
    DropMembers(s.queue, id);
    assert |s.active - {id}| == |s.active| - 1;
  }

  // ----- turns end -----

  /** The event that ends the active turn. */
  function EndEvent(log: Log, p: PeerView, marker: Bytes): Event {
    Event(|log| + 1, RequestCompleted, p.activeChat, marker)
  }

  lemma CompletedExactly(s: State, id: string, marker: Bytes, disk: Disk)
    requires id in s.peers && s.peers[id].activeChat != "" && SafeJournalId(id)
    requires |marker| <= s.maxEvent && disk != Broken
    ensures var idle := Idled(s, id, EndEvent(s.LogOf(id), s.peers[id], marker));
      Completed(s, id, marker, disk) == (if s.peers[id].lease then Released(idle, id) else idle, true)
  {
    hide Released, AcceptedIds;
  }

  /** What the end of a turn leaves of its own conversation. */
  ghost predicate TurnEnded(s: State, t: State, id: string, marker: Bytes) {
    && id in s.peers && id in t.peers && t.peers[id].activeChat == "" && t.peers[id].payload == [] && !t.peers[id].lease
    && id !in t.active
    && Recovered(t.LogOf(id)) == Ok(None)
    && |t.LogOf(id)| > 0
    && t.LogOf(id)[|t.LogOf(id)| - 1] == Event(|t.LogOf(id)|, RequestCompleted, s.peers[id].activeChat, marker)
  }

  /** The slot the conversation held, if any, is with the first live waiter, or free if nobody waits. */
  ghost predicate SlotPassed(s: State, t: State, id: string)
    requires id in s.peers
  {
    if !s.peers[id].lease then t.active == s.active && t.queue == s.queue
    else
      var k := FirstLive(s.peers, s.queue);
      if k == |s.queue| then t.active == s.active - {id} && t.queue == []
      else
        && t.active == s.active - {id} + {s.queue[k]} && t.queue == s.queue[k + 1..]
        && s.queue[k] in t.peers && t.peers[s.queue[k]].lease && t.peers[s.queue[k]].wake
  }

  lemma {:induction false} SameLive(before: map<string, PeerView>, after: map<string, PeerView>, queue: seq<string>)
    requires forall i | 0 <= i < |queue| :: Live(before, queue[i]) == Live(after, queue[i])
    ensures FirstLive(before, queue) == FirstLive(after, queue)
  {
    if queue != [] {
      SameLive(before, after, queue[1..]);
    }
  }

  lemma EndedPasses(s: State, id: string, event: Event)
    requires Inv(s) && id in s.peers && s.peers[id].lease
    ensures SlotPassed(s, Released(Idled(s, id, event), id), id)
    ensures id in Released(Idled(s, id, event), id).peers && id !in Released(Idled(s, id, event), id).active
  {
    hide TableInv, Released, Local;
    var idle := Idled(s, id, event);
    Apart(s, id);
    SlotMovesOn(idle, id);
    SameLive(s.peers, idle.peers, s.queue);
    var k := FirstLive(s.peers, s.queue);
    assert k < |s.queue| ==> s.queue[k] in s.queue;
  }

  lemma Apart(s: State, id: string)
    requires Inv(s) && id in s.peers && s.peers[id].lease
    ensures id in s.active && id !in s.queue
  {
  }

  lemma CompletedEnds(s: State, id: string, marker: Bytes, disk: Disk)
    requires Inv(s) && id in s.peers && s.peers[id].activeChat != ""
    requires |marker| <= s.maxEvent && disk != Broken
    ensures var (t, done) := Completed(s, id, marker, disk);
      && done && Inv(t) && TurnEnded(s, t, id, marker) && SlotPassed(s, t, id)
      && t.LogOf(id) == s.LogOf(id) + [EndEvent(s.LogOf(id), s.peers[id], marker)]
  {
    hide Inv, Released, SlotPassed, Completed, Recovered;
    SafeOf(s, id);
    CompletedExactly(s, id, marker, disk);
    CompletedKeeps(s, id, marker, disk);
    var event := EndEvent(s.LogOf(id), s.peers[id], marker);
    IdlePeer(Completed(s, id, marker, disk).0, id) by { CompletedFrame(s, id, marker, disk); }
    if s.peers[id].lease {
      EndedPasses(s, id, event);
      ReleasedFrame(Idled(s, id, event), id);
    } else {
      EndedUnleased(s, id, event);
    }
  }

  lemma EndedUnleased(s: State, id: string, event: Event)
    requires Inv(s) && id in s.peers && !s.peers[id].lease
    ensures SlotPassed(s, Idled(s, id, event), id) && id !in s.active
  {
  }

  /** A sound idle peer. */
  lemma IdlePeer(t: State, id: string)
    requires Inv(t) && id in t.peers && t.peers[id].activeChat == ""
    ensures t.peers[id].payload == [] && !t.peers[id].lease && id !in t.active && Recovered(t.LogOf(id)) == Ok(None)
  {
    hide Recovered;
    PeerMatchesRecovery(t, id);
    assert Local(t, id);
  }

  /** Handling a terminal frame is recording it, completing the turn and forgetting what the connection carried. */
  lemma TerminalSteps(s: State, id: string, frame: Frame, env: FrameEnv)
    requires Linked(s, id) && (frame.kind == Done || frame.kind == Kind.Error || frame.kind == Aborted)
    ensures var recorded := Recorded(s, id, frame, env.disk);
      var c := Completed(recorded, id, env.marker, env.finishDisk).0;
      var t := Next(s, Receive(id, frame, env));
      && t.logs == c.logs && t.active == c.active && t.queue == c.queue
      && (id in c.peers ==>
            id in t.peers && t.peers == c.peers[id := c.peers[id].(link := t.peers[id].link)])
  {
    hide Recorded, Completed;
    RecordedFrame(s, id, frame, env.disk);
  }

  /** A done, error or aborted frame ends the active turn: its peer is idle, its journal recovers nothing,
      and any slot it held is with the first live waiter. The journal has grown by the frame itself, if
      the disk took it, and by the completion. */
  lemma TerminalFrameEndsTurn(s: State, id: string, frame: Frame, env: FrameEnv)
    requires Inv(s) && Linked(s, id) && s.peers[id].activeChat != ""
    requires frame.kind == Done || frame.kind == Kind.Error || frame.kind == Aborted
    requires |env.marker| <= s.maxEvent && env.finishDisk != Broken
    ensures var t := Next(s, Receive(id, frame, env));
      && TurnEnded(s, t, id, env.marker) && SlotPassed(s, t, id)
      && (Journalable(s, frame, env) ==>
            t.LogOf(id) == s.LogOf(id)
              + [FrameEvent(s.LogOf(id), s.peers[id], frame),
                 Event(|s.LogOf(id)| + 2, RequestCompleted, s.peers[id].activeChat, env.marker)])
  {
    hide Inv, Completed, Recorded, Next, SlotPassed, Recovered, Stamped, FrameEvent, Journalable;
    TerminalSteps(s, id, frame, env);
    NoIntrusion(s, id, frame, env.disk);
    var recorded := Recorded(s, id, frame, env.disk);
    RecordedKeeps(s, id, frame, env.disk);
    RecordedFrame(s, id, frame, env.disk);
    CompletedEnds(recorded, id, env.marker, env.finishDisk);
    if Journalable(s, frame, env) {
      SafeOf(s, id);
      RecordedExactly(s, id, frame, env);
    }
    PassedFrom(s, recorded, Completed(recorded, id, env.marker, env.finishDisk).0, id);
    PassedOn(s, Completed(recorded, id, env.marker, env.finishDisk).0, Next(s, Receive(id, frame, env)), id);
  }

  lemma NoIntrusion(s: State, id: string, frame: Frame, disk: Disk)
    requires id in s.peers && !frame.kind.RequestAccepted? && !frame.kind.RequestCompleted?
    ensures !Intrudes(s, id, frame, disk)
  {
    hide TryAppend, Stamped;
  }

  /** Forgetting which chat a connection carried takes no slot back. */
  lemma PassedOn(s: State, t: State, u: State, id: string)
    requires id in s.peers && SlotPassed(s, t, id) && id in t.peers && u.active == t.active && u.queue == t.queue
    requires u.peers == t.peers || (id in u.peers && u.peers == t.peers[id := t.peers[id].(link := u.peers[id].link)])
    ensures SlotPassed(s, u, id)
  {
  }

  /** Whose slot passes does not depend on what was journaled or remembered in between, or on the link. */
  lemma PassedFrom(s: State, recorded: State, t: State, id: string)
    requires id in s.peers && id in recorded.peers && recorded.active == s.active && recorded.queue == s.queue
    requires recorded.peers == s.peers[id := s.peers[id].(tasks := recorded.peers[id].tasks)]
    requires SlotPassed(recorded, t, id)
    ensures SlotPassed(s, t, id)
  {
  }

  lemma SafeOf(s: State, id: string)
    requires Inv(s) && id in s.peers
    ensures SafeJournalId(id)
  {
    assert Local(s, id);
  }

  /** A host report concerns its own connection only. */
  lemma ReportedExactly(s: State, id: string, connected: bool, wrote: bool)
    requires Linked(s, id)
    ensures var t := HostReported(s, id, connected, wrote);
      && id in t.peers && t.(wire := s.wire) == s.With(id, s.peers[id].(link := t.peers[id].link))
      && (wrote || !connected ==> t.peers[id].link.Up?)
  {
  }

  /** What handling any other frame comes to. */
  lemma PlainSteps(s: State, id: string, frame: Frame, env: FrameEnv)
    requires Linked(s, id) && frame.kind != Done && frame.kind != Kind.Error && frame.kind != Aborted
    ensures var reported := if frame.kind.HostStatus? then HostReported(s, id, frame.connected, env.wrote) else s;
      && id in reported.peers
      && Next(s, Receive(id, frame, env))
         == if reported.peers[id].link.Down? then reported else Recorded(reported, id, frame, env.disk)
  {
    hide HostReported, Recorded;
    ReportedExactly(s, id, frame.connected, env.wrote);
  }

  /** No other frame ends, starts or changes a turn, unless it intrudes on the journal's reserved types; it
      leaves one event with its own type and data. */
  lemma OtherFramesKeepTurns(s: State, id: string, frame: Frame, env: FrameEnv)
    requires Inv(s) && Linked(s, id) && !Intrudes(s, id, frame, env.disk)
    requires frame.kind != Done && frame.kind != Kind.Error && frame.kind != Aborted
    ensures var t := Next(s, Receive(id, frame, env));
      && id in t.peers && t.active == s.active && t.queue == s.queue
      && t.peers[id].activeChat == s.peers[id].activeChat && t.peers[id].payload == s.peers[id].payload
      && t.peers[id].lease == s.peers[id].lease
      && (Recovered(t.LogOf(id)) == Ok(None) <==> Recovered(s.LogOf(id)) == Ok(None))
      && (Journalable(s, frame, env) && env.wrote ==>
            t.LogOf(id) == s.LogOf(id) + [FrameEvent(s.LogOf(id), s.peers[id], frame)])
  {
    hide Inv, Next, HostReported, Recorded, Recovered, Stamped, Journalable, FrameEvent;
    var t := Next(s, Receive(id, frame, env));
    var reported := if frame.kind.HostStatus? then HostReported(s, id, frame.connected, env.wrote) else s;
    ReportedExactly(s, id, frame.connected, env.wrote);
    PlainSteps(s, id, frame, env);
    RecordedFrame(reported, id, frame, env.disk);
    ReceivedKeeps(s, id, frame, env) by { SteppedIsReceived(s, id, frame, env); }
    SteppedIsReceived(s, id, frame, env);
    SameTurn(s, t, id);
    SafeOf(s, id);
    if Journalable(s, frame, env) && env.wrote {
      JournalableAfter(s, reported, frame, env);
      RecordedExactly(reported, id, frame, env);
      EventAfter(s, reported, id, frame);
    }
  }

  lemma SteppedIsReceived(s: State, id: string, frame: Frame, env: FrameEnv)
    requires Linked(s, id)
    ensures Next(s, Receive(id, frame, env)) == Received(s, id, frame, env)
  {
    hide Received;
  }

  lemma JournalableAfter(s: State, t: State, frame: Frame, env: FrameEnv)
    requires t.maxEvent == s.maxEvent && Journalable(s, frame, env)
    ensures Journalable(t, frame, env)
  {
  }

  lemma EventAfter(s: State, t: State, id: string, frame: Frame)
    requires id in s.peers && id in t.peers && t.logs == s.logs
    requires t.peers[id] == s.peers[id].(link := t.peers[id].link)
    ensures FrameEvent(t.LogOf(id), t.peers[id], frame) == FrameEvent(s.LogOf(id), s.peers[id], frame)
  {
    hide Correlated, Named;
  }

  /** Sound states in which a peer has the same turn recover the same turn. */
  lemma SameTurn(s: State, t: State, id: string)
    requires Inv(s) && Inv(t) && id in s.peers && id in t.peers
    requires t.peers[id].activeChat == s.peers[id].activeChat && t.peers[id].payload == s.peers[id].payload
    ensures s.peers[id].activeChat == "" ==> Recovered(s.LogOf(id)) == Recovered(t.LogOf(id)) == Ok(None)
    ensures s.peers[id].activeChat != "" ==>
      && Recovered(s.LogOf(id)).Ok? && Recovered(s.LogOf(id)).value.Some?
      && Recovered(t.LogOf(id)).Ok? && Recovered(t.LogOf(id)).value.Some?
      && Recovered(t.LogOf(id)).value.value.requestId == Recovered(s.LogOf(id)).value.value.requestId
      && Recovered(t.LogOf(id)).value.value.data == Recovered(s.LogOf(id)).value.value.data
  {
    hide Inv, Recovered;
    PeerMatchesRecovery(s, id);
    PeerMatchesRecovery(t, id);
  }

  // ----- background tasks keep the request of their first frame -----

  predicate Usable(id: string) {
    0 < |id| <= 256
  }

  /** A task frame of a task nobody is bound to yet, or a frame of a bound task: its parent decides nothing. */
  predicate OwnOrigin(tasks: map<string, string>, frame: Frame) {
    "task:" + frame.taskId in tasks || !Usable(frame.parentId) || "parent:" + frame.parentId !in tasks
  }

  /** A task id is bound by a frame that is stamped, while there is room, exactly if it was bound before or
      the frame's parent was not: a frame stamped through its parent leaves its task unbound. */
  lemma TaskBoundExactly(log: Log, p: PeerView, frame: Frame)
    requires frame.kind.Task? && Usable(frame.taskId) && |p.tasks| < 2048
    requires forall key | key in p.tasks :: p.tasks[key] != ""
    requires Stamped(log, p, frame).1 != ""
    ensures var (tasks, requestId) := Stamped(log, p, frame); var key := "task:" + frame.taskId;
      && (key in tasks <==> OwnOrigin(p.tasks, frame))
      && (key in tasks ==> tasks[key] == requestId)
  {
    hide Named, Correlated;
    CorrelatedTask(p.tasks, frame, Named(log, frame));
    CorrelatedTask(p.tasks, frame, p.activeChat);
  }

  lemma OneKey(tasks: map<string, string>, k: string, requestId: string)
    ensures FirstBound(tasks, [k]) == if k in tasks then tasks[k] else ""
    ensures Bound(tasks, [k], requestId) == if |tasks| >= MaxTaskKeys then tasks else tasks[k := requestId]
  {
    assert [k][1..] == [];
    assert FirstBound(tasks, []) == "";
    assert Bound(tasks[k := requestId], [], requestId) == tasks[k := requestId];
  }

  lemma TwoKeys(tasks: map<string, string>, k: string, l: string, requestId: string)
    ensures FirstBound(tasks, [k, l])
         == if k in tasks && tasks[k] != "" then tasks[k] else if l in tasks then tasks[l] else ""
    ensures |tasks| < MaxTaskKeys ==> var next := tasks[k := requestId];
      Bound(tasks, [k, l], requestId) == if |next| >= MaxTaskKeys then next else next[l := requestId]
  {
    assert [k, l][1..] == [l];
    OneKey(tasks, l, requestId);
    OneKey(tasks[k := requestId], l, requestId);
  }

  lemma CorrelatedTask(tasks: map<string, string>, frame: Frame, candidate: string)
    requires frame.kind.Task? && Usable(frame.taskId) && |tasks| < 2048
    requires forall key | key in tasks :: tasks[key] != ""
    ensures var (after, requestId) := Correlated(tasks, frame, candidate); var key := "task:" + frame.taskId;
      && (requestId == "" ==> after == tasks)
      && (requestId != "" ==> (key in after <==> OwnOrigin(tasks, frame)))
      && (requestId != "" && key in after ==> after[key] == requestId)
  {
    hide FirstBound, Bound;
    var key, parent := "task:" + frame.taskId, "parent:" + frame.parentId;
    TaskKeysDistinct(frame.taskId, frame.parentId);
    if Usable(frame.parentId) {
      assert TaskKeys(frame.taskId, frame.parentId) == [key, parent];
      assert [key, parent][0] != [key, parent][1];
      TwoKeys(tasks, key, parent, candidate);
    } else {
      assert TaskKeys(frame.taskId, frame.parentId) == [key];
      OneKey(tasks, key, candidate);
    }
  }

  /** The same for a frame that names only its parent. */
  lemma CorrelatedParent(tasks: map<string, string>, frame: Frame, candidate: string)
    requires frame.kind.Task? && !Usable(frame.taskId) && Usable(frame.parentId) && |tasks| < 2048
    requires forall key | key in tasks :: tasks[key] != ""
    ensures var (after, requestId) := Correlated(tasks, frame, candidate); var key := "parent:" + frame.parentId;
      && (requestId == "" ==> after == tasks)
      && (requestId != "" ==> key in after && after[key] == requestId)
  {
    hide FirstBound, Bound;
    assert TaskKeys(frame.taskId, frame.parentId) == ["parent:" + frame.parentId];
    OneKey(tasks, "parent:" + frame.parentId, candidate);
  }

  lemma ParentBound(log: Log, p: PeerView, frame: Frame)
    requires frame.kind.Task? && !Usable(frame.taskId) && Usable(frame.parentId) && |p.tasks| < 2048
    requires forall key | key in p.tasks :: p.tasks[key] != ""
    requires Stamped(log, p, frame).1 != ""
    ensures var (tasks, requestId) := Stamped(log, p, frame); var key := "parent:" + frame.parentId;
      key in tasks && tasks[key] == requestId
  {
    hide Named, Correlated;
    CorrelatedParent(p.tasks, frame, Named(log, frame));
    CorrelatedParent(p.tasks, frame, p.activeChat);
  }

  /** The peer after a task frame remembers what stamping it left. */
  lemma TaskFrameRemembers(s: State, id: string, frame: Frame, env: FrameEnv)
    requires Linked(s, id) && frame.kind.Task?
    ensures var t := Next(s, Receive(id, frame, env));
      id in t.peers && t.peers[id].tasks == Stamped(s.LogOf(id), s.peers[id], frame).0
  {
    hide Stamped, Recorded, TryAppend;
    PlainSteps(s, id, frame, env);
    RecordedTasks(s, id, frame, env.disk);
  }

  lemma RecordedTasks(s: State, id: string, frame: Frame, disk: Disk)
    requires id in s.peers
    ensures var t := Recorded(s, id, frame, disk);
      id in t.peers && t.peers[id].tasks == Stamped(s.LogOf(id), s.peers[id], frame).0
  {
    hide Stamped, TryAppend;
  }

  lemma TasksSound(s: State, id: string)
    requires Inv(s) && id in s.peers
    ensures |s.peers[id].tasks| <= 2048 && forall key | key in s.peers[id].tasks :: s.peers[id].tasks[key] != ""
  {
    assert Local(s, id);
  }

  /** What the two run theorems below start from: a stamped task frame, and what happens after it. */
  ghost predicate StampedThen(s: State, id: string, frame: Frame, env: FrameEnv, actions: seq<Action>) {
    && Inv(s) && Linked(s, id) && frame.kind.Task? && |s.peers[id].tasks| < 2048
    && Stamped(s.LogOf(id), s.peers[id], frame).1 != ""
    && AllGenuine(Next(s, Receive(id, frame, env)), actions) && Lives(Next(s, Receive(id, frame, env)), actions, id)
  }

  /** A task whose frame was stamped keeps that request: every later frame of the task is stamped with it,
      whatever happens in between and whoever else is active or named by then, as long as the peer
      lives. A first frame without a bound parent is enough; a frame stamped through its parent alone,
      whose task was unknown, is not. */
  lemma TaskKeepsFirstOrigin(s: State, id: string, frame: Frame, env: FrameEnv, actions: seq<Action>, later: Frame)
    requires StampedThen(s, id, frame, env, actions) && OwnOrigin(s.peers[id].tasks, frame)
    requires Usable(frame.taskId) && later.kind.Task? && later.taskId == frame.taskId
    ensures var t := RunAll(Next(s, Receive(id, frame, env)), actions);
      id in t.peers && Stamped(t.LogOf(id), t.peers[id], later).1 == Stamped(s.LogOf(id), s.peers[id], frame).1
  {
    hide Inv, Next, RunAll, Stamped, OwnOrigin;
    var next := Next(s, Receive(id, frame, env));
    NoIntrusion(s, id, frame, env.disk);
    NextKeeps(s, Receive(id, frame, env));
    TasksSound(s, id);
    TaskFrameRemembers(s, id, frame, env);
    TaskBoundExactly(s.LogOf(id), s.peers[id], frame);
    TaskKeepsItsOrigin(next, actions, id, later) by { assert Usable(later.taskId); }
  }

  /** The same for frames that name only the tool call they belong to. */
  lemma ParentKeepsFirstOrigin(s: State, id: string, frame: Frame, env: FrameEnv, actions: seq<Action>, later: Frame)
    requires StampedThen(s, id, frame, env, actions)
    requires !Usable(frame.taskId) && Usable(frame.parentId)
    requires later.kind.Task? && !Usable(later.taskId) && later.parentId == frame.parentId
    ensures var t := RunAll(Next(s, Receive(id, frame, env)), actions);
      id in t.peers && Stamped(t.LogOf(id), t.peers[id], later).1 == Stamped(s.LogOf(id), s.peers[id], frame).1
  {
    hide Inv, Next, RunAll, Stamped;
    var next, key := Next(s, Receive(id, frame, env)), "parent:" + frame.parentId;
    NoIntrusion(s, id, frame, env.disk);
    NextKeeps(s, Receive(id, frame, env));
    TasksSound(s, id);
    TaskFrameRemembers(s, id, frame, env);
    ParentBound(s.LogOf(id), s.peers[id], frame);
    BindingsLast(next, actions, id, key);
    var t := RunAll(next, actions);
    TasksSound(t, id);
    assert TaskKeys(later.taskId, later.parentId) == [key];
    OriginOverrides(t.LogOf(id), t.peers[id], later);
  }

  /** A task stamped through its parent stays unknown: a later frame of it that names neither its parent nor
      a request goes to whatever turn is active then. */
  lemma UnknownTaskFollowsTheTurn(log: Log, p: PeerView, later: Frame)
    requires later.kind.Task? && Usable(later.taskId) && later.parentId == "" && later.requestId == ""
    requires "task:" + later.taskId !in p.tasks
    ensures Stamped(log, p, later).1 == p.activeChat
  {
    hide FirstBound, Bound, AcceptedIds;
    assert TaskKeys(later.taskId, later.parentId) == ["task:" + later.taskId];
    OneKey(p.tasks, "task:" + later.taskId, p.activeChat);
  }

  /** So a frame stamped through its parent alone fixes nothing for its task: if another turn is active, the
      next frame that names only the task goes there. */
  lemma ParentAloneIsNotEnough(s: State, id: string, frame: Frame, env: FrameEnv)
    requires StampedThen(s, id, frame, env, []) && Usable(frame.taskId) && !OwnOrigin(s.peers[id].tasks, frame)
    requires s.peers[id].activeChat != Stamped(s.LogOf(id), s.peers[id], frame).1
    ensures var t := Next(s, Receive(id, frame, env)); var later := Frame(frame.kind, false, "", frame.taskId, "", []);
      id in t.peers && Stamped(t.LogOf(id), t.peers[id], later).1 == s.peers[id].activeChat
  {
    hide Inv, Next, Stamped;
    NoIntrusion(s, id, frame, env.disk);
    TasksSound(s, id);
    TaskFrameRemembers(s, id, frame, env);
    TaskBoundExactly(s.LogOf(id), s.peers[id], frame);
    OtherFramesKeepTurns(s, id, frame, env);
    var t := Next(s, Receive(id, frame, env));
    UnknownTaskFollowsTheTurn(t.LogOf(id), t.peers[id], Frame(frame.kind, false, "", frame.taskId, "", []));
  }
}
