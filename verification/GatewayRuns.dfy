/** What holds over whole runs of the gateway: durability across crashes, exactly-once
    acceptance, authorised delivery and stable attribution. */
module GatewayRuns {
  import opened Common
  import opened JournalLog
  import opened TurnTable
  import opened GatewayState
  import opened GatewayInvariant
  import opened GatewaySteps

  /** No frame of the run intrudes on the journal's reserved types. */
  ghost predicate AllGenuine(s: State, actions: seq<Action>)
    decreases |actions|
  {
    actions != [] ==> Genuine(s, actions[0]) && AllGenuine(Next(s, actions[0]), actions[1..])
  }

  function Start(limit: nat, maxEvent: nat): State {
    State(map[], map[], {}, [], limit, maxEvent, [])
  }

  lemma StartIsSound(limit: nat, maxEvent: nat)
    ensures Inv(Start(limit, maxEvent))
  {
    assert forall id :: Start(limit, maxEvent).LogOf(id) == [];
  }

  /** Every run keeps journals, peers and turn table consistent, through any number of crashes. */
  lemma {:induction false} RunKeeps(s: State, actions: seq<Action>)
    requires Inv(s) && AllGenuine(s, actions)
    ensures Inv(RunAll(s, actions))
    decreases |actions|
  {
    if actions != [] {
      NextKeeps(s, actions[0]);
      RunKeeps(Next(s, actions[0]), actions[1..]);
    }
  }

  /** A live peer's turn is the one its journal recovers; an idle peer's journal recovers nothing. */
  lemma PeerMatchesRecovery(s: State, id: string)
    requires Inv(s) && id in s.peers
    ensures Recovered(s.LogOf(id)).Ok?
    ensures match Recovered(s.LogOf(id)).value
      case None => s.peers[id].activeChat == "" && s.peers[id].payload == []
      case Some(p) => p.requestId == s.peers[id].activeChat != "" && p.data == s.peers[id].payload
  {
    assert Local(s, id);
    RecoveryFindsTheTurn(s.LogOf(id));
  }

  /** The reachable states, in plain terms: at most one unfinished chat per journal; it is the
      live peer's turn; slots, leases and the waiting queue account for every live turn. */
  lemma ReachableStates(limit: nat, maxEvent: nat, actions: seq<Action>)
    requires AllGenuine(Start(limit, maxEvent), actions)
    ensures var s := RunAll(Start(limit, maxEvent), actions);
      && (forall id :: Recovered(s.LogOf(id)).Ok?)
      && (forall id | id in s.peers && s.peers[id].activeChat != "" ::
            Recovered(s.LogOf(id)).value.Some?
            && Recovered(s.LogOf(id)).value.value.requestId == s.peers[id].activeChat
            && Recovered(s.LogOf(id)).value.value.data == s.peers[id].payload)
      && (forall id :: id in s.active <==> id in s.peers && s.peers[id].lease)
      && |s.active| <= s.limit
      && Distinct(s.queue) && (forall id | id in s.queue :: id !in s.active)
      && (forall id | Live(s.peers, id) && id !in s.active :: id in s.queue)
      && (s.queue != [] ==> |s.active| == s.limit)
  {
    StartIsSound(limit, maxEvent);
    RunKeeps(Start(limit, maxEvent), actions);
    var s := RunAll(Start(limit, maxEvent), actions);
    forall id
      ensures Recovered(s.LogOf(id)).Ok?
    {
      assert Local(s, id);
      RecoveryFindsTheTurn(s.LogOf(id));
    }
    forall id | id in s.peers && s.peers[id].activeChat != ""
      ensures Recovered(s.LogOf(id)).value.Some?
        && Recovered(s.LogOf(id)).value.value.requestId == s.peers[id].activeChat
        && Recovered(s.LogOf(id)).value.value.data == s.peers[id].payload
    {
      PeerMatchesRecovery(s, id);
    }
  }

  /** The journal alone determines a peer's turn: two sound managers over the same file agree. */
  lemma JournalDeterminesTurn(s: State, t: State, id: string)
    requires Inv(s) && Inv(t) && id in s.peers && id in t.peers && s.LogOf(id) == t.LogOf(id)
    ensures s.peers[id].activeChat == t.peers[id].activeChat && s.peers[id].payload == t.peers[id].payload
  {
    PeerMatchesRecovery(s, id);
    PeerMatchesRecovery(t, id);
  }

  /** The action concerns this conversation. */
  predicate About(a: Action, id: string) {
    !a.Crash? && a.id == id
  }

  lemma FinishedElsewhere(s: State, target: string, marker: Bytes, disk: Disk, id: string)
    requires Linked(s, target) && target != id
    ensures Finished(s, target, marker, disk).LogOf(id) == s.LogOf(id)
  {
    hide TryAppend, Released;
    var r := TryAppend(s.LogOf(target), target, RequestCompleted, s.peers[target].activeChat, marker, disk, s.maxEvent);
    if r.Ok? {
      ReleasedFrame(Idled(s, target, r.value), target);
    }
    assert Finished(s, target, marker, disk).logs == Completed(s, target, marker, disk).0.logs;
  }

  lemma ReceivedElsewhere(s: State, target: string, frame: Frame, env: FrameEnv, id: string)
    requires Linked(s, target) && target != id
    ensures Received(s, target, frame, env).LogOf(id) == s.LogOf(id)
  {
    hide TryAppend, Stamped, Finished;
    var reported := if frame.kind.HostStatus? then HostReported(s, target, frame.connected, env.wrote) else s;
    assert reported.logs == s.logs;
    if reported.peers[target].link.Up? && Terminal(frame.kind) {
      FinishedElsewhere(Recorded(reported, target, frame, env.disk), target, env.marker, env.finishDisk, id);
    }
  }

  /** An action about another conversation, or a crash, leaves this one's file as it is. */
  lemma OthersKeepLog(s: State, a: Action, id: string)
    requires !About(a, id)
    ensures Next(s, a).LogOf(id) == s.LogOf(id)
  {
    hide TryAppend, AcceptedIds, Recovered, Received, Closed, Stamped, Claim;
    match a {
      case Receive(target, frame, env) => if Linked(s, target) { ReceivedElsewhere(s, target, frame, env, id); }
      case Close(target) => ClosedFrame(s, target);
      case Remove(target, _) => ClosedFrame(s, target);
      case _ =>
    }
  }

  lemma {:induction false} RunKeepsLog(s: State, actions: seq<Action>, id: string)
    requires forall a | a in actions :: !About(a, id)
    ensures RunAll(s, actions).LogOf(id) == s.LogOf(id)
    decreases |actions|
  {
    hide Next;
    if actions != [] {
      OthersKeepLog(s, actions[0], id);
      RunKeepsLog(Next(s, actions[0]), actions[1..], id);
    }
  }

  /** After a crash, and whatever other conversations do and however often the manager crashes again before,
      ensuring a conversation restores exactly the turn it lost, holding a slot or waiting for one. */
  lemma CrashRestoresTurn(s: State, actions: seq<Action>, id: string)
    requires Inv(s) && id in s.peers && AllGenuine(Crashed(s), actions)
    requires forall a | a in actions :: !About(a, id)
    ensures var t := Ensured(RunAll(Crashed(s), actions), id);
      && id in t.peers
      && t.peers[id].activeChat == s.peers[id].activeChat
      && t.peers[id].payload == s.peers[id].payload
      && (t.peers[id].activeChat != "" ==> id in t.active || id in t.queue)
  {
    hide Next, TryAppend, Recovered, AcceptedIds, PeerInv;
    var before := RunAll(Crashed(s), actions);
    var t := Ensured(before, id);
    CrashedKeeps(s);
    RunKeeps(Crashed(s), actions);
    RunKeepsLog(Crashed(s), actions, id);
    EnsuredKeeps(before, id);
    assert Local(s, id);
    PeerMatchesRecovery(s, id);
    assert id in t.peers;
    JournalDeterminesTurn(s, t, id);
  }

  // ----- each request is accepted at most once -----

  lemma AppendedGrows(s: State, id: string, kind: Kind, requestId: string, data: Bytes, disk: Disk, other: string)
    ensures AcceptedIds(s.LogOf(other)) <= AcceptedIds(s.Appended(id, kind, requestId, data, disk).LogOf(other))
  {
    var r := TryAppend(s.LogOf(id), id, kind, requestId, data, disk, s.maxEvent);
    if r.Ok? {
      AcceptedAfter(s.LogOf(id), r.value);
    }
  }

  lemma ReceivedGrows(s: State, id: string, frame: Frame, env: FrameEnv, other: string)
    requires id in s.peers && s.peers[id].link.Up?
    ensures AcceptedIds(s.LogOf(other)) <= AcceptedIds(Received(s, id, frame, env).LogOf(other))
  {
    hide TryAppend, Stamped, AcceptedIds, Finished, Released;
    var reported := if frame.kind.HostStatus? then HostReported(s, id, frame.connected, env.wrote) else s;
    assert reported.logs == s.logs;
    if reported.peers[id].link.Up? {
      var p := reported.peers[id];
      var (tasks, requestId) := Stamped(s.LogOf(id), p, frame);
      AppendedGrows(reported.With(id, p.(tasks := tasks)), id, frame.kind, requestId, frame.data, env.disk, other);
      if Terminal(frame.kind) {
        FinishedGrows(Recorded(reported, id, frame, env.disk), id, env.marker, env.finishDisk, other);
      }
    }
  }

  lemma CompletedGrows(s: State, id: string, marker: Bytes, disk: Disk, other: string)
    requires id in s.peers
    ensures AcceptedIds(s.LogOf(other)) <= AcceptedIds(Completed(s, id, marker, disk).0.LogOf(other))
  {
    hide AcceptedIds, Released, TryAppend;
    var r := TryAppend(s.LogOf(id), id, RequestCompleted, s.peers[id].activeChat, marker, disk, s.maxEvent);
    if r.Ok? {
      AcceptedAfter(s.LogOf(id), r.value);
      ReleasedFrame(Idled(s, id, r.value), id);
    }
  }

  lemma FinishedGrows(s: State, id: string, marker: Bytes, disk: Disk, other: string)
    requires id in s.peers && s.peers[id].link.Up?
    ensures AcceptedIds(s.LogOf(other)) <= AcceptedIds(Finished(s, id, marker, disk).LogOf(other))
  {
    hide AcceptedIds, Released, TryAppend;
    CompletedGrows(s, id, marker, disk, other);
    assert Finished(s, id, marker, disk).logs == Completed(s, id, marker, disk).0.logs;
  }

  lemma EnsuredFrame(s: State, id: string)
    ensures Ensured(s, id).logs == s.logs
  {
  }

  lemma TookGrows(s: State, id: string, requestId: string, message: Message, event: Event, other: string)
    requires id in s.peers
    ensures AcceptedIds(s.LogOf(other)) <= AcceptedIds(Took(s, id, requestId, message, event).LogOf(other))
    ensures AcceptedIds(Took(s, id, requestId, message, event).LogOf(id))
         == AcceptedStep(AcceptedIds(s.LogOf(id)), event)
  {
    AcceptedAfter(s.LogOf(id), event);
  }

  lemma SentGrows(s: State, id: string, requestId: string, message: Message, env: SendEnv, other: string)
    ensures AcceptedIds(s.LogOf(other)) <= AcceptedIds(Sent(s, id, requestId, message, env).0.LogOf(other))
  {
    hide AcceptedIds, TryAppend, Recovered, Took;
    if requestId != "" && |requestId| <= MaxRequestId && EnsureRefusal(s, id, env).None? {
      var ready := Ensured(s, id);
      EnsuredFrame(s, id);
      var outcome := SendDecision(ready, id, requestId, message, env);
      if outcome.Accepted? {
        TookGrows(ready, id, requestId, message, outcome.event, other);
      }
    }
  }

  /** Only removing the conversation makes it forget an accepted id. */
  lemma NextRemembers(s: State, a: Action, id: string)
    requires a != Remove(id, true)
    ensures AcceptedIds(s.LogOf(id)) <= AcceptedIds(Next(s, a).LogOf(id))
  {
    hide TryAppend, AcceptedIds, Sent, Received, Released;
    match a {
      case Send(target, requestId, message, env) => SentGrows(s, target, requestId, message, env, id);
      case Receive(target, frame, env) => if Linked(s, target) { ReceivedGrows(s, target, frame, env, id); }
      case RecordState(target, name, data, disk) => AppendedGrows(s, target, Other(name), "", data, disk, id);
      case Close(target) => ClosedFrame(s, target);
      case Remove(target, _) => ClosedFrame(s, target);
      case _ =>
    }
  }

  /** Once accepted, a request id stays a duplicate for the life of the conversation: in every later
      state, also after crashes and restarts, sending it again accepts nothing. */
  lemma {:induction false} AcceptedAtMostOnce(s: State, actions: seq<Action>,
                                              id: string, requestId: string, message: Message, env: SendEnv)
    requires requestId in AcceptedIds(s.LogOf(id)) && Remove(id, true) !in actions
    ensures requestId in AcceptedIds(RunAll(s, actions).LogOf(id))
    ensures !Sent(RunAll(s, actions), id, requestId, message, env).1.Accepted?
    decreases |actions|
  {
    if actions == [] {
      EnsuredFrame(s, id);
    } else {
      NextRemembers(s, actions[0], id);
      AcceptedAtMostOnce(Next(s, actions[0]), actions[1..], id, requestId, message, env);
    }
  }

  /** Acceptance is durable at once: the id is in the journal when Send reports it accepted, and was not before. */
  lemma AcceptanceIsDurable(s: State, id: string, requestId: string, message: Message, env: SendEnv)
    requires Sent(s, id, requestId, message, env).1.Accepted?
    ensures requestId !in AcceptedIds(s.LogOf(id))
    ensures requestId in AcceptedIds(Sent(s, id, requestId, message, env).0.LogOf(id))
  {
    hide AcceptedIds, Recovered;
    var ready := Ensured(s, id);
    EnsuredFrame(s, id);
    TookGrows(ready, id, requestId, message, SendDecision(ready, id, requestId, message, env).event, id);
  }
}
