/** What every reachable gateway state satisfies: journals, peers and turn table agree. */
module GatewayInvariant {
  import opened Common
  import opened JournalLog
  import opened TurnTable
  import opened GatewayState

  /** A journal file is well formed and leaves at most one chat unfinished. */
  ghost predicate LogInv(log: Log) {
    WellFormed(log) && Attributed(log) && |Pending(log)| <= 1 && "" !in Pending(log)
  }

  /** The peer's active turn is exactly the journal's unfinished request, payload included. */
  ghost predicate Agrees(pending: map<string, PendingRequest>, p: PeerView) {
    if p.activeChat == "" then pending.Keys == {} && p.payload == [] && !p.lease
    else pending.Keys == {p.activeChat} && pending[p.activeChat].data == p.payload
  }

  /** Remembered task origins are accepted requests, and not too many. */
  ghost predicate TasksInv(accepted: set<string>, p: PeerView) {
    && |p.tasks| <= MaxTaskKeys
    && forall key | key in p.tasks :: p.tasks[key] != "" && p.tasks[key] in accepted
  }

  /** A turn that could run but has not been written to this connection has a wake token waiting. */
  ghost predicate NoLostWakeup(p: PeerView) {
    (p.link.Up? && p.link.hostOnline && p.lease && p.activeChat != p.link.sentChat && p.payload != []) ==> p.wake
  }

  /** No chat was written twice to this connection since its host was last reported offline. */
  ghost predicate LinkInv(accepted: set<string>, p: PeerView) {
    p.link.Up? ==>
      && Distinct(p.link.shown)
      && (forall i | 0 <= i < |p.link.shown| :: p.link.shown[i] != "" && p.link.shown[i] in accepted)
      && (p.activeChat != "" && p.activeChat in p.link.shown ==> p.link.sentChat == p.activeChat)
      && (p.link.sentChat != "" ==> p.link.sentChat in p.link.shown)
  }

  ghost predicate PeerInv(log: Log, p: PeerView) {
    && Agrees(Pending(log), p)
    && TasksInv(AcceptedIds(log), p)
    && LinkInv(AcceptedIds(log), p)
    && NoLostWakeup(p)
  }

  /** Everything about one conversation alone. */
  ghost predicate Local(s: State, id: string) {
    LogInv(s.LogOf(id)) && (id in s.peers ==> SafeJournalId(id) && PeerInv(s.LogOf(id), s.peers[id]))
  }

  /** Slot holders are exactly the leased peers, and every live turn without a slot is queued.
      The conversation `except` is being changed and makes no promise yet. */
  ghost predicate CoupledBut(s: State, except: string) {
    && (forall id | id != except :: id in s.active <==> id in s.peers && s.peers[id].lease)
    && (forall id | id != except && Live(s.peers, id) && !s.peers[id].lease :: id in s.queue)
  }

  ghost predicate Coupled(s: State) {
    && (forall id :: id in s.active <==> id in s.peers && s.peers[id].lease)
    && (forall id | Live(s.peers, id) && !s.peers[id].lease :: id in s.queue)
  }

  ghost predicate Inv(s: State) {
    (forall id :: Local(s, id)) && TableInv(s.Table(), s.limit) && Coupled(s)
  }

  // ----- the scheduler -----

  lemma PromotionKeepsTable(s: State)
    requires Distinct(s.queue) && (forall i | 0 <= i < |s.queue| :: s.queue[i] !in s.active)
    requires |s.active| <= s.limit && (s.queue != [] ==> |s.active| + 1 >= s.limit)
    ensures TableInv(Promoted(s).Table(), s.limit)
  {
  }

  /** The slot goes to the first live waiter; the waiters it skips are all stale. */
  lemma PromotionKeeps(s: State)
    requires Distinct(s.queue) && (forall i | 0 <= i < |s.queue| :: s.queue[i] !in s.active)
    requires |s.active| <= s.limit && (s.queue != [] ==> |s.active| + 1 >= s.limit)
    requires Coupled(s)
    ensures TableInv(Promoted(s).Table(), s.limit) && Coupled(Promoted(s))
  {
    hide TableInv;
    PromotionKeepsTable(s);
    var s' := Promoted(s);
    var k := FirstLive(s.peers, s.queue);
    if |s.active| < s.limit {
      forall other | Live(s'.peers, other) && !s'.peers[other].lease
        ensures other in s'.queue
      {
        assert Live(s.peers, other) && other in s.queue;
        var i :| 0 <= i < |s.queue| && s.queue[i] == other;
        assert i > k;
        assert s'.queue[i - k - 1] == other;
      }
    }
  }

  lemma ReleasedCouples(s: State, id: string)
    requires TableInv(s.Table(), s.limit) && CoupledBut(s, id) && !Live(s.peers, id)
    requires id in s.peers ==> !s.peers[id].lease
    ensures TableInv(Released(s, id).Table(), s.limit) && Coupled(Released(s, id))
  {
    hide Promoted, Drop;
    var left := s.(active := s.active - {id}, queue := Drop(s.queue, id));
    DropMembers(s.queue, id);
    assert forall i | 0 <= i < |left.queue| :: left.queue[i] in s.queue;
    if s.queue != [] {
      assert |left.active| >= s.limit - 1;
    }
    PromotionKeeps(left);
  }

  /** Giving a turn away disturbs nobody's journal, connection or turn. */
  lemma ReleasedLocal(s: State, id: string, other: string)
    requires Local(s, other)
    ensures Local(Released(s, id), other)
    ensures Released(s, id).logs == s.logs && Released(s, id).peers.Keys == s.peers.Keys
  {
    hide LogInv, AcceptedIds, Pending, Drop;
  }

  // ----- one conversation's journal and peer -----

  lemma AcceptedMonotone(accepted: set<string>, more: set<string>, p: PeerView)
    requires accepted <= more && TasksInv(accepted, p) && LinkInv(accepted, p)
    ensures TasksInv(more, p) && LinkInv(more, p)
  {
  }

  lemma LogGrows(log: Log, event: Event)
    requires LogInv(log) && WellFormed(log + [event])
    requires event.requestId == "" || event.requestId in AcceptedIds(log) || Accepts(event)
    requires |PendingStep(Pending(log), event)| <= 1 && "" !in PendingStep(Pending(log), event)
    ensures LogInv(log + [event])
    ensures AcceptedIds(log) <= AcceptedIds(log + [event])
    ensures Accepts(event) ==> event.requestId in AcceptedIds(log + [event])
  {
    PendingAfter(log, event);
    AcceptedAfter(log, event);
    AppendKeepsAttributed(log, event);
  }

  /** Events that neither open nor close a chat leave journal and peer in agreement. */
  lemma HarmlessAppend(log: Log, event: Event)
    requires LogInv(log) && WellFormed(log + [event])
    requires event.requestId == "" || event.requestId in AcceptedIds(log) || Accepts(event)
    requires !event.kind.RequestAccepted?
    requires event.kind.RequestCompleted? ==> event.requestId !in Pending(log)
    ensures LogInv(log + [event])
    ensures forall p | PeerInv(log, p) :: PeerInv(log + [event], p)
  {
    assert PendingStep(Pending(log), event) == Pending(log);
    LogGrows(log, event);
    PendingAfter(log, event);
    forall p | PeerInv(log, p)
      ensures PeerInv(log + [event], p)
    {
      AcceptedMonotone(AcceptedIds(log), AcceptedIds(log + [event]), p);
    }
  }

  function Activated(p: PeerView, requestId: string, payload: Bytes, lease: bool): PeerView {
    p.(activeChat := requestId, payload := payload, lease := lease, wake := lease || p.wake)
  }

  /** A new id was never written to this connection, so the peer may take it up. */
  lemma NewChatFits(accepted: set<string>, p: PeerView, requestId: string, payload: Bytes, lease: bool)
    requires LinkInv(accepted, p) && requestId !in accepted
    ensures LinkInv(accepted, Activated(p, requestId, payload, lease))
  {
    assert p.link.Up? ==> requestId !in p.link.shown;
  }

  /** A peer's control messages concern nothing else it promises. */
  lemma OutboxApart(log: Log, p: PeerView, box: Outbox)
    ensures PeerInv(log, p) <==> PeerInv(log, p.(outgoing := box))
  {
    hide Pending, AcceptedIds;
  }

  /** Accepting a chat makes it the one unfinished request and the peer's active turn. */
  lemma ChatAccepted(log: Log, p: PeerView, event: Event, lease: bool)
    requires LogInv(log) && PeerInv(log, p) && p.activeChat == ""
    requires WellFormed(log + [event]) && event.kind.RequestAccepted?
    requires event.requestId != "" && event.requestId !in AcceptedIds(log)
    ensures LogInv(log + [event])
    ensures PeerInv(log + [event], Activated(p, event.requestId, event.data, lease))
  {
    hide WellFormed, Attributed, AcceptedIds;
    var p' := Activated(p, event.requestId, event.data, lease);
    assert Pending(log) == map[];
    LogGrows(log, event);
    PendingAfter(log, event);
    NewChatFits(AcceptedIds(log), p, event.requestId, event.data, lease);
    AcceptedMonotone(AcceptedIds(log), AcceptedIds(log + [event]), p');
  }

  /** Completing the active turn leaves nothing unfinished and the peer idle. */
  lemma ChatCompleted(log: Log, p: PeerView, event: Event)
    requires LogInv(log) && PeerInv(log, p) && p.activeChat != ""
    requires WellFormed(log + [event]) && event.kind.RequestCompleted? && event.requestId == p.activeChat
    ensures LogInv(log + [event])
    ensures PeerInv(log + [event], p.(activeChat := "", payload := [], lease := false))
  {
    ActiveWasAccepted(log, p);
    assert PendingStep(Pending(log), event).Keys == {};
    LogGrows(log, event);
    PendingAfter(log, event);
    AcceptedMonotone(AcceptedIds(log), AcceptedIds(log + [event]), p);
  }

  /** The active turn was accepted, so the peer may stamp events with it. */
  lemma ActiveWasAccepted(log: Log, p: PeerView)
    requires Agrees(Pending(log), p)
    ensures p.activeChat == "" || p.activeChat in AcceptedIds(log)
  {
    if p.activeChat != "" {
      PendingWasAccepted(log, p.activeChat);
    }
  }

  lemma {:induction false} BoundKeeps(tasks: map<string, string>, keys: seq<string>, requestId: string)
    requires |tasks| <= MaxTaskKeys && requestId != "" && FirstBound(tasks, keys) == ""
    requires forall key | key in tasks :: tasks[key] != ""
    requires Distinct(keys)
    ensures var after := Bound(tasks, keys, requestId);
      && |after| <= MaxTaskKeys
      && (forall key | key in tasks :: key in after && after[key] == tasks[key])
      && (forall key | key in after && key !in tasks :: key in keys && after[key] == requestId)
    decreases |keys|
  {
    if keys != [] && |tasks| < MaxTaskKeys {
      var next := tasks[keys[0] := requestId];
      UnboundStays(tasks, keys[0], requestId, keys[1..]);
      assert |next.Keys| == |tasks.Keys + {keys[0]}|;
      BoundKeeps(next, keys[1..], requestId);
    }
  }

  lemma {:induction false} UnboundStays(tasks: map<string, string>, key: string, requestId: string, keys: seq<string>)
    requires key !in keys && FirstBound(tasks, keys) == ""
    ensures FirstBound(tasks[key := requestId], keys) == ""
    decreases |keys|
  {
    if keys != [] {
      UnboundStays(tasks, key, requestId, keys[1..]);
    }
  }

  lemma TaskKeysDistinct(taskId: string, parentId: string)
    ensures Distinct(TaskKeys(taskId, parentId))
  {
    assert ("task:" + taskId)[0] != ("parent:" + parentId)[0];
  }

  /** A first binding wins for good: no binding ever changes, new ones name the candidate, and
      the table never exceeds its limit. */
  lemma CorrelationKeeps(tasks: map<string, string>, frame: Frame, candidate: string)
    requires |tasks| <= MaxTaskKeys && forall key | key in tasks :: tasks[key] != ""
    ensures var (after, requestId) := Correlated(tasks, frame, candidate);
      && |after| <= MaxTaskKeys
      && (forall key | key in tasks :: key in after && after[key] == tasks[key])
      && (forall key | key in after && key !in tasks :: after[key] == candidate != "")
      && (requestId == candidate || exists key :: key in tasks && tasks[key] == requestId)
  {
    var keys := TaskKeys(frame.taskId, frame.parentId);
    TaskKeysDistinct(frame.taskId, frame.parentId);
    if FirstBound(tasks, keys) != "" {
      FirstBoundIsBound(tasks, keys);
    } else if candidate != "" {
      BoundKeeps(tasks, keys, candidate);
    }
  }

  lemma {:induction false} FirstBoundIsBound(tasks: map<string, string>, keys: seq<string>)
    requires FirstBound(tasks, keys) != ""
    ensures exists key :: key in tasks && key in keys && tasks[key] == FirstBound(tasks, keys)
    decreases |keys|
  {
    if !(keys[0] in tasks && tasks[keys[0]] != "") {
      FirstBoundIsBound(tasks, keys[1..]);
    }
  }

  /** The id stamped on a frame was accepted by this conversation, and so is every remembered origin. */
  lemma StampedIsAccepted(log: Log, p: PeerView, frame: Frame)
    requires TasksInv(AcceptedIds(log), p) && Agrees(Pending(log), p)
    ensures var (tasks, requestId) := Stamped(log, p, frame);
      && TasksInv(AcceptedIds(log), p.(tasks := tasks))
      && (requestId == "" ==> p.activeChat == "")
      && (requestId == "" || requestId in AcceptedIds(log))
      && (forall key | key in p.tasks :: key in tasks && tasks[key] == p.tasks[key])
  {
    hide Pending, AcceptedIds;
    CorrelationKeeps(p.tasks, frame, Named(log, frame));
    CorrelationKeeps(p.tasks, frame, p.activeChat);
    ActiveWasAccepted(log, p);
  }
}
