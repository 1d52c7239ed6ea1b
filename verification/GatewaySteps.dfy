/** Every operation of the gateway keeps the invariant, so every run does, crashes included. */
module GatewaySteps {
  import opened Common
  import opened JournalLog
  import opened TurnTable
  import opened GatewayState
  import opened GatewayInvariant

  /** A sound journal never reports several unfinished requests; it names the unfinished one exactly. */
  lemma RecoveryFindsTheTurn(log: Log)
    requires LogInv(log)
    ensures Recovered(log).Ok?
    ensures match Recovered(log).value
      case None => Pending(log).Keys == {}
      case Some(p) => Pending(log).Keys == {p.requestId} && Pending(log)[p.requestId] == p && p.requestId != ""
  {
    var pending := Pending(log);
    if pending.Keys != {} {
      assert |pending.Keys| >= 1;
      var p := Only(pending);
      var id :| pending == map[id := p];
      assert id in pending;
      PendingMeaning(log, id);
    }
  }

  /** Only the journal and the peer of `id` differ. */
  ghost predicate OnlyAt(s: State, s': State, id: string) {
    forall other | other != id ::
      && s'.LogOf(other) == s.LogOf(other)
      && (other in s'.peers <==> other in s.peers)
      && (other in s.peers ==> s'.peers[other] == s.peers[other])
  }

  lemma LocalElsewhere(s: State, s': State, id: string)
    requires forall other :: Local(s, other)
    requires OnlyAt(s, s', id) && Local(s', id)
    ensures forall other :: Local(s', other)
  {
    hide PeerInv, LogInv;
    forall other
      ensures Local(s', other)
    {
      assert Local(s, other);
    }
  }

  /** Changing a peer without touching its turn keeps the coupling. */
  lemma SameTurnCouples(s: State, s': State, id: string)
    requires Coupled(s) && id in s.peers && id in s'.peers
    requires s'.active == s.active && s'.queue == s.queue && s'.peers == s.peers[id := s'.peers[id]]
    requires s'.peers[id].lease == s.peers[id].lease
    requires s'.peers[id].activeChat == "" || s'.peers[id].activeChat == s.peers[id].activeChat
    ensures Coupled(s')
  {
  }

  /** Claiming a slot for a peer that just got a chat keeps table and peers coupled. */
  lemma ClaimCouples(s: State, id: string, p: PeerView)
    requires TableInv(s.Table(), s.limit) && CoupledBut(s, id) && p.activeChat != ""
    ensures var (table, leased) := Claim(s.Table(), s.limit, id);
      var s' := s.With(id, p.(lease := leased)).(active := table.active, queue := table.queue);
      TableInv(table, s.limit) && Coupled(s')
  {
    ClaimKeepsTable(s.Table(), s.limit, id);
  }

  lemma EnsuredLocal(s: State, id: string)
    requires Local(s, id)
    ensures Local(Ensured(s, id), id)
  {
    hide WellFormed, Attributed, AcceptedIds, Pending, Recovered;
    RecoveryFindsTheTurn(s.LogOf(id));
  }

  lemma EnsuredCouples(s: State, id: string)
    requires TableInv(s.Table(), s.limit) && Coupled(s)
    requires Lookup(s, id).Ok? && Lookup(s, id).value.Some? ==> Lookup(s, id).value.value.requestId != ""
    ensures TableInv(Ensured(s, id).Table(), s.limit) && Coupled(Ensured(s, id))
  {
    hide Lookup, Recovered;
    var pending := Lookup(s, id);
    if pending.Ok? && id !in s.peers && pending.value.Some? {
      ClaimCouples(s, id, FreshPeer(pending.value).(wake := Claim(s.Table(), s.limit, id).1));
    }
  }

  lemma EnsuredKeeps(s: State, id: string)
    requires Inv(s)
    ensures Inv(Ensured(s, id))
  {
    hide LogInv, PeerInv, TableInv, Coupled, Recovered;
    assert Local(s, id);
    RecoveryFindsTheTurn(s.LogOf(id));
    EnsuredLocal(s, id);
    EnsuredCouples(s, id);
    LocalElsewhere(s, Ensured(s, id), id);
  }

  lemma TookKeepsLocal(s: State, id: string, requestId: string, message: Message, env: SendEnv)
    requires Inv(s) && id in s.peers && requestId != ""
    requires SendDecision(s, id, requestId, message, env).Accepted?
    ensures Local(Took(s, id, requestId, message, SendDecision(s, id, requestId, message, env).event), id)
  {
    hide LogInv, PeerInv, WellFormed, AcceptedIds, TableInv, Coupled;
    var event := SendDecision(s, id, requestId, message, env).event;
    var log, p := s.LogOf(id), s.peers[id];
    assert Local(s, id);
    SoundLog(log);
    AppendKeepsWellFormed(log, id, AcceptedKind(message), requestId, DurableForm(message), env.disk, s.maxEvent);
    match message {
      case Chat(encoded) =>
        ChatAccepted(log, p, event, Claim(s.Table(), s.limit, id).1);
      case Control(encoded, durable) =>
        HarmlessAppend(log, event);
        OutboxApart(log + [event], p, p.outgoing.(queued := p.outgoing.queued + [encoded]));
    }
  }

  lemma SoundLog(log: Log)
    requires LogInv(log)
    ensures WellFormed(log)
  {
  }

  lemma TookOnlyAt(s: State, id: string, requestId: string, message: Message, event: Event)
    requires id in s.peers
    ensures OnlyAt(s, Took(s, id, requestId, message, event), id)
  {
    hide Claim;
  }

  lemma TookChatCouples(s: State, id: string, requestId: string, encoded: Bytes, event: Event)
    requires TableInv(s.Table(), s.limit) && CoupledBut(s, id) && id in s.peers && requestId != ""
    ensures var s' := Took(s, id, requestId, Chat(encoded), event);
      TableInv(s'.Table(), s'.limit) && Coupled(s')
  {
    hide TableInv, Claim;
    var (table, leased) := Claim(s.Table(), s.limit, id);
    var p := Activated(s.peers[id], requestId, encoded, leased);
    ClaimCouples(s, id, p);
    var s' := Took(s, id, requestId, Chat(encoded), event);
    SameButLogs(s.With(id, p).(active := table.active, queue := table.queue), s');
  }

  /** The coupling does not look at journals. */
  lemma SameButLogs(s: State, s': State)
    requires Coupled(s) && s' == s.(logs := s'.logs)
    ensures Coupled(s')
  {
  }

  lemma TookControlCouples(s: State, id: string, requestId: string, message: Message, event: Event)
    requires TableInv(s.Table(), s.limit) && Coupled(s) && id in s.peers && message.Control?
    ensures var s' := Took(s, id, requestId, message, event);
      TableInv(s'.Table(), s'.limit) && Coupled(s')
  {
    hide TableInv;
    SameTurnCouples(s, Took(s, id, requestId, message, event), id);
  }

  lemma TookKeeps(s: State, id: string, requestId: string, message: Message, event: Event)
    requires Inv(s) && id in s.peers && requestId != ""
    requires Local(Took(s, id, requestId, message, event), id)
    ensures Inv(Took(s, id, requestId, message, event))
  {
    hide TableInv, Coupled, LogInv, PeerInv, Took;
    TookOnlyAt(s, id, requestId, message, event);
    LocalElsewhere(s, Took(s, id, requestId, message, event), id);
    if message.Chat? {
      CoupledIsCoupledBut(s, id);
      TookChatCouples(s, id, requestId, message.encoded, event);
    } else {
      TookControlCouples(s, id, requestId, message, event);
    }
  }

  lemma CoupledIsCoupledBut(s: State, id: string)
    requires Coupled(s)
    ensures CoupledBut(s, id)
  {
  }

  lemma SentKeeps(s: State, id: string, requestId: string, message: Message, env: SendEnv)
    requires Inv(s)
    ensures Inv(Sent(s, id, requestId, message, env).0)
  {
    if requestId != "" && |requestId| <= MaxRequestId && EnsureRefusal(s, id, env).None? {
      var ready := Ensured(s, id);
      EnsuredKeeps(s, id);
      if SendDecision(ready, id, requestId, message, env).Accepted? {
        TookKeepsLocal(ready, id, requestId, message, env);
        TookKeeps(ready, id, requestId, message, SendDecision(ready, id, requestId, message, env).event);
      }
    }
  }

  // ----- the relay connection -----

  /** Changing only one peer, and not its turn, keeps everything if the peer itself stays sound. */
  lemma PeerChanged(s: State, s': State, id: string)
    requires Inv(s) && id in s.peers && id in s'.peers
    requires s'.(wire := s.wire) == s.With(id, s'.peers[id])
    requires s'.peers[id].lease == s.peers[id].lease && s'.peers[id].activeChat == s.peers[id].activeChat
    requires PeerInv(s.LogOf(id), s'.peers[id])
    ensures Inv(s')
  {
    assert Local(s, id);
    SameTurnCouples(s, s', id);
    LocalElsewhere(s, s', id);
  }

  /** After writing, or finding nothing to write, no wakeup is owed and nothing was written twice. */
  lemma WrittenPeer(accepted: set<string>, p: PeerView)
    requires p.link.Up? && LinkInv(accepted, p)
    ensures !Writes(p) && (p.activeChat == "" ==> !p.lease) ==> NoLostWakeup(p)
    ensures NoLostWakeup(p.(link := Down)) && LinkInv(accepted, p.(link := Down))
    ensures Writes(p) && p.activeChat in accepted ==>
      var p' := p.(link := p.link.(sentChat := p.activeChat, shown := p.link.shown + [p.activeChat]));
      LinkInv(accepted, p') && NoLostWakeup(p')
  {
  }

  /** Everything a peer promises except the wake token. */
  ghost predicate Settling(log: Log, p: PeerView) {
    Agrees(Pending(log), p) && TasksInv(AcceptedIds(log), p) && LinkInv(AcceptedIds(log), p)
  }

  lemma ChatWrittenKeeps(s: State, q: PeerView, id: string, wrote: bool)
    requires Inv(s) && id in s.peers && q.link.Up? && Settling(s.LogOf(id), q)
    requires q.lease == s.peers[id].lease && q.activeChat == s.peers[id].activeChat
    ensures Inv(ChatWritten(s.With(id, q), id, wrote))
  {
    hide Inv;
    var s' := ChatWritten(s.With(id, q), id, wrote);
    ActiveWasAccepted(s.LogOf(id), q);
    WrittenPeer(AcceptedIds(s.LogOf(id)), q);
    PeerChanged(s, s', id);
  }

  lemma PeerOf(s: State, id: string)
    requires Inv(s) && id in s.peers
    ensures PeerInv(s.LogOf(id), s.peers[id])
  {
    assert Local(s, id);
  }

  lemma HostReportedKeeps(s: State, id: string, connected: bool, wrote: bool)
    requires Inv(s) && id in s.peers && s.peers[id].link.Up?
    ensures Inv(HostReported(s, id, connected, wrote))
  {
    hide Inv, ChatWritten, LogInv, Pending, AcceptedIds;
    var p := s.peers[id];
    PeerOf(s, id);
    if connected {
      ChatWrittenKeeps(s, p.(link := p.link.(hostOnline := true)), id, wrote);
    } else {
      PeerChanged(s, HostReported(s, id, connected, wrote), id);
    }
  }

  lemma WokenKeeps(s: State, id: string, wrote: bool)
    requires Inv(s) && id in s.peers && s.peers[id].link.Up?
    ensures Inv(Woken(s, id, wrote))
  {
    hide Inv, ChatWritten, LogInv, Pending, AcceptedIds;
    var p := s.peers[id];
    PeerOf(s, id);
    if p.link.hostOnline {
      ChatWrittenKeeps(s, p.(wake := false), id, wrote);
    } else {
      PeerChanged(s, Woken(s, id, wrote), id);
    }
  }

  lemma HarmlessTry(log: Log, id: string, kind: Kind, requestId: string, data: Bytes, disk: Disk, maxEvent: nat)
    requires LogInv(log) && TryAppend(log, id, kind, requestId, data, disk, maxEvent).Ok?
    requires requestId == "" || requestId in AcceptedIds(log)
    requires !kind.RequestAccepted? && (kind.RequestCompleted? ==> requestId !in Pending(log))
    ensures var event := TryAppend(log, id, kind, requestId, data, disk, maxEvent).value;
      LogInv(log + [event]) && forall p | PeerInv(log, p) :: PeerInv(log + [event], p)
  {
    AppendKeepsWellFormed(log, id, kind, requestId, data, disk, maxEvent);
    HarmlessAppend(log, TryAppend(log, id, kind, requestId, data, disk, maxEvent).value);
  }

  /** Journaling an event that neither opens nor closes a chat. */
  lemma AppendedKeeps(s: State, id: string, kind: Kind, requestId: string, data: Bytes, disk: Disk)
    requires Inv(s)
    requires requestId == "" || requestId in AcceptedIds(s.LogOf(id))
    requires TryAppend(s.LogOf(id), id, kind, requestId, data, disk, s.maxEvent).Ok? ==> !kind.RequestAccepted?
    requires kind.RequestCompleted? ==> requestId !in Pending(s.LogOf(id))
    ensures Inv(s.Appended(id, kind, requestId, data, disk))
  {
    hide PeerInv, LogInv, TableInv;
    if TryAppend(s.LogOf(id), id, kind, requestId, data, disk, s.maxEvent).Ok? {
      var s' := s.Appended(id, kind, requestId, data, disk);
      assert Local(s, id);
      HarmlessTry(s.LogOf(id), id, kind, requestId, data, disk, s.maxEvent);
      LocalElsewhere(s, s', id);
    }
  }

  /** A frame whose own type is one of the two reserved journal types, and which would be journaled
      so that it opens a chat nobody sent or closes the chat that is active. */
  ghost predicate Intrudes(s: State, id: string, frame: Frame, disk: Disk)
    requires id in s.peers
  {
    var p := s.peers[id];
    var requestId := Stamped(s.LogOf(id), p, frame).1;
    && TryAppend(s.LogOf(id), id, frame.kind, requestId, frame.data, disk, s.maxEvent).Ok?
    && (frame.kind.RequestAccepted? || (frame.kind.RequestCompleted? && requestId == p.activeChat != ""))
  }

  lemma RecordedKeeps(s: State, id: string, frame: Frame, disk: Disk)
    requires Inv(s) && id in s.peers && !Intrudes(s, id, frame, disk)
    ensures Inv(Recorded(s, id, frame, disk))
  {
    hide LogInv, TableInv, Coupled, AcceptedIds, Pending;
    var p, log := s.peers[id], s.LogOf(id);
    var (tasks, requestId) := Stamped(log, p, frame);
    assert Local(s, id);
    StampedIsAccepted(log, p, frame);
    var remembered := s.With(id, p.(tasks := tasks));
    PeerChanged(s, remembered, id);
    if TryAppend(log, id, frame.kind, requestId, frame.data, disk, s.maxEvent).Ok? {
      AppendedKeeps(remembered, id, frame.kind, requestId, frame.data, disk);
    }
  }

  // ----- turns that end -----

  /** Giving a turn away touches neither the journals nor, unless it is live, the peer that gives. */
  lemma ReleasedFrame(s: State, id: string)
    ensures Released(s, id).logs == s.logs && Released(s, id).peers.Keys == s.peers.Keys
    ensures Released(s, id).limit == s.limit && Released(s, id).maxEvent == s.maxEvent
    ensures id in s.peers && !Live(s.peers, id) ==> Released(s, id).peers[id] == s.peers[id]
  {
    hide Drop;
  }

  lemma ReleasedKeeps(s: State, id: string)
    requires (forall other :: Local(s, other)) && TableInv(s.Table(), s.limit) && CoupledBut(s, id)
    requires !Live(s.peers, id) && (id in s.peers ==> !s.peers[id].lease)
    ensures Inv(Released(s, id))
  {
    hide TableInv, Coupled, Released;
    ReleasedCouples(s, id);
    ReleasedFrame(s, id);
    forall other
      ensures Local(Released(s, id), other)
    {
      ReleasedLocal(s, id, other);
    }
  }

  lemma IdledKeeps(s: State, id: string, event: Event)
    requires Inv(s) && id in s.peers && s.peers[id].activeChat != ""
    requires WellFormed(s.LogOf(id) + [event])
    requires event.kind.RequestCompleted? && event.requestId == s.peers[id].activeChat
    ensures var idle := Idled(s, id, event);
      && (forall other :: Local(idle, other))
      && CoupledBut(idle, id)
      && (!s.peers[id].lease ==> Coupled(idle))
  {
    hide WellFormed, Attributed, AcceptedIds, Coupled, CoupledBut, TableInv;
    assert Local(s, id);
    ChatCompleted(s.LogOf(id), s.peers[id], event);
    LocalElsewhere(s, Idled(s, id, event), id);
    IdledCouples(s, id, event);
  }

  lemma IdledCouples(s: State, id: string, event: Event)
    requires Coupled(s) && id in s.peers
    ensures CoupledBut(Idled(s, id, event), id)
    ensures !s.peers[id].lease ==> Coupled(Idled(s, id, event))
  {
    if !s.peers[id].lease {
      SameTurnCouples(s, Idled(s, id, event), id);
    }
  }

  lemma CompletedKeeps(s: State, id: string, marker: Bytes, disk: Disk)
    requires Inv(s) && id in s.peers
    ensures Inv(Completed(s, id, marker, disk).0)
  {
    hide TableInv, Released, AcceptedIds, Pending;
    var p, log := s.peers[id], s.LogOf(id);
    var r := TryAppend(log, id, RequestCompleted, p.activeChat, marker, disk, s.maxEvent);
    if p.activeChat != "" && r.Ok? {
      AppendKeepsWellFormed(log, id, RequestCompleted, p.activeChat, marker, disk, s.maxEvent) by {
        assert Local(s, id);
      }
      IdledKeeps(s, id, r.value);
      if p.lease {
        ReleasedKeeps(Idled(s, id, r.value), id);
      }
    }
  }

  lemma CompletedFrame(s: State, id: string, marker: Bytes, disk: Disk)
    requires id in s.peers
    ensures id in Completed(s, id, marker, disk).0.peers
    ensures Completed(s, id, marker, disk).1 ==> Completed(s, id, marker, disk).0.peers[id].activeChat == ""
  {
    var r := TryAppend(s.LogOf(id), id, RequestCompleted, s.peers[id].activeChat, marker, disk, s.maxEvent);
    if r.Ok? {
      ReleasedFrame(Idled(s, id, r.value), id);
    }
  }

  lemma FinishedKeeps(s: State, id: string, marker: Bytes, disk: Disk)
    requires Inv(s) && id in s.peers && s.peers[id].link.Up?
    ensures Inv(Finished(s, id, marker, disk))
  {
    CompletedKeeps(s, id, marker, disk);
    CompletedFrame(s, id, marker, disk);
    var (s', done) := Completed(s, id, marker, disk);
    if done && s'.peers[id].link.Up? {
      assert Local(s', id);
      PeerChanged(s', Finished(s, id, marker, disk), id);
    }
  }

  lemma ReceivedKeeps(s: State, id: string, frame: Frame, env: FrameEnv)
    requires Inv(s) && id in s.peers && s.peers[id].link.Up? && !Intrudes(s, id, frame, env.disk)
    ensures Inv(Received(s, id, frame, env))
  {
    hide Inv, Stamped;
    if frame.kind.HostStatus? {
      var reported := HostReported(s, id, frame.connected, env.wrote);
      HostReportedKeeps(s, id, frame.connected, env.wrote);
      if reported.peers[id].link.Up? {
        RecordedKeeps(reported, id, frame, env.disk);
      }
    } else {
      RecordedKeeps(s, id, frame, env.disk);
      if Terminal(frame.kind) {
        FinishedKeeps(Recorded(s, id, frame, env.disk), id, env.marker, env.finishDisk);
      }
    }
  }

  /** A frame keeps journals, peers and turn table consistent exactly when it does not intrude. */
  lemma ReceivedKeepsExactly(s: State, id: string, frame: Frame, env: FrameEnv)
    requires Inv(s) && id in s.peers && s.peers[id].link.Up?
    ensures Inv(Received(s, id, frame, env)) <==> !Intrudes(s, id, frame, env.disk)
  {
    if Intrudes(s, id, frame, env.disk) {
      IntrusionBreaks(s, id, frame, env.disk);
    } else {
      ReceivedKeeps(s, id, frame, env);
    }
  }

  /** An intruding frame leaves an accepted chat without an id, or closes the active turn behind its peer. */
  lemma IntrusionBreaks(s: State, id: string, frame: Frame, disk: Disk)
    requires Inv(s) && id in s.peers && Intrudes(s, id, frame, disk)
    ensures !Local(Recorded(s, id, frame, disk), id)
  {
    var p, log := s.peers[id], s.LogOf(id);
    assert Local(s, id);
    StampedIsAccepted(log, p, frame);
    var requestId := Stamped(log, p, frame).1;
    var event := TryAppend(log, id, frame.kind, requestId, frame.data, disk, s.maxEvent).value;
    PendingAfter(log, event);
    assert Recorded(s, id, frame, disk).LogOf(id) == log + [event];
  }

  // ----- closing, removal, crash -----

  lemma UnpublishedKeeps(s: State, id: string)
    requires Inv(s) && id in s.peers
    ensures (forall other :: Local(Unpublished(s, id), other)) && CoupledBut(Unpublished(s, id), id)
    ensures s.peers[id].activeChat == "" ==> Coupled(Unpublished(s, id))
  {
    hide LogInv, TableInv, AcceptedIds;
    assert Local(s, id);
    LocalElsewhere(s, Unpublished(s, id), id);
  }

  lemma ClosedKeeps(s: State, id: string)
    requires Inv(s)
    ensures Inv(Closed(s, id))
  {
    if id in s.peers {
      UnpublishedKeeps(s, id);
      if s.peers[id].activeChat != "" {
        ReleasedKeeps(Unpublished(s, id), id);
      }
    }
  }

  lemma ClosedFrame(s: State, id: string)
    ensures id !in Closed(s, id).peers && Closed(s, id).logs == s.logs
  {
    ReleasedFrame(Unpublished(s, id), id);
  }

  lemma RemovedKeeps(s: State, id: string, erased: bool)
    requires Inv(s)
    ensures Inv(Removed(s, id, erased))
  {
    hide Coupled, Closed, TableInv;
    ClosedKeeps(s, id);
    ClosedFrame(s, id);
    LocalElsewhere(Closed(s, id), Removed(s, id, erased), id);
    SameButLogs(Closed(s, id), Removed(s, id, erased));
  }

  lemma CrashedKeeps(s: State)
    requires Inv(s)
    ensures Inv(Crashed(s))
  {
    forall id
      ensures Local(Crashed(s), id)
    {
      assert Local(s, id);
    }
  }

  /** The action is not a frame that intrudes on the journal's reserved types. */
  ghost predicate Genuine(s: State, a: Action) {
    a.Receive? && Linked(s, a.id) ==> !Intrudes(s, a.id, a.frame, a.env.disk)
  }

  lemma NextKeeps(s: State, a: Action)
    requires Inv(s) && Genuine(s, a)
    ensures Inv(Next(s, a))
  {
    hide Inv, Sent, Received, Ensured, Woken, Closed, Removed, Crashed, TryAppend, AcceptedIds, Stamped;
    match a {
      case Ensure(id) => EnsuredKeeps(s, id);
      case Send(id, requestId, message, env) => SentKeeps(s, id, requestId, message, env);
      case Connect(id) => LinkChangeKeeps(s, id, a);
      case Disconnect(id) => LinkChangeKeeps(s, id, a);
      case Receive(id, frame, env) => if Linked(s, id) { ReceivedKeeps(s, id, frame, env); }
      case Wake(id, wrote) => if Linked(s, id) && s.peers[id].wake { WokenKeeps(s, id, wrote); }
      case WriteControl(id, wrote) => LinkChangeKeeps(s, id, a);
      case RecordState(id, name, data, disk) => AppendedKeeps(s, id, Other(name), "", data, disk);
      case Close(id) => ClosedKeeps(s, id);
      case Remove(id, erased) => RemovedKeeps(s, id, erased);
      case Crash => CrashedKeeps(s);
    }
  }

  lemma LinkChangeKeeps(s: State, id: string, a: Action)
    requires Inv(s) && (a == Connect(id) || a == Disconnect(id) || (a.WriteControl? && a.id == id))
    ensures Inv(Next(s, a))
  {
    hide TryAppend, Sent, Received, Woken, Closed, Removed, Ensured, LogInv, Coupled, TableInv;
    if id in s.peers {
      assert Local(s, id);
      PeerChanged(s, Next(s, a), id);
    }
  }
}
