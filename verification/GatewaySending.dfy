/** What sending achieves: which requests are accepted, that they take effect, that control messages reach
    the socket in order and once, and that every host that comes online gets the unfinished chat. */
module GatewaySending {
  import opened Common
  import opened JournalLog
  import opened TurnTable
  import opened GatewayState
  import opened GatewayInvariant
  import opened GatewaySteps
  import opened GatewayRuns
  import opened GatewayDelivery
  import opened GatewayProgress

  // ----- requests take effect -----

  /** Some event of the log accepts the request. */
  ghost predicate WasAccepted(log: Log, requestId: string) {
    exists i | 0 <= i < |log| :: Accepts(log[i]) && log[i].requestId == requestId
  }

  /** What a request and the control plane must be like to get as far as the journal. */
  predicate Admissible(id: string, requestId: string, env: SendEnv) {
    && 0 < |requestId| <= 160 && SafeJournalId(id)
    && env.enabled && env.passed != Ended && env.current == Open
  }

  /** The form a message is journaled in. */
  function Stored(message: Message): Bytes {
    match message
    case Chat(encoded) => encoded
    case Control(_, durable) => durable
  }

  /** The gateway looks for the conversation's peer, or makes one that restores its unfinished request. */
  lemma EnsuredPeer(s: State, id: string)
    requires Inv(s) && SafeJournalId(id)
    ensures Lookup(s, id).Ok? && Inv(Ensured(s, id))
    ensures id in Ensured(s, id).peers && Ensured(s, id).logs == s.logs && Ensured(s, id).maxEvent == s.maxEvent
    ensures id in s.peers ==> Ensured(s, id) == s
    ensures id !in s.peers ==> Ensured(s, id).peers[id].outgoing == Outbox([], [])
    ensures Ensured(s, id).peers[id].activeChat == "" <==> Recovered(s.LogOf(id)) == Ok(None)
  {
    hide Inv, Recovered, Claim;
    SoundRecovery(s, id);
    EnsuredKeeps(s, id);
    EnsuredFrame(s, id);
    PeerMatchesRecovery(Ensured(s, id), id);
  }

  lemma SoundRecovery(s: State, id: string)
    requires Inv(s)
    ensures Recovered(s.LogOf(id)).Ok?
  {
    assert Local(s, id);
    RecoveryFindsTheTurn(s.LogOf(id));
  }

  /** A request is accepted exactly if it is admissible and new, the socket queue has room, a chat finds no
      unfinished chat in the journal, and the journal takes it. */
  lemma AcceptedExactly(s: State, id: string, requestId: string, message: Message, env: SendEnv)
    requires Inv(s)
    ensures Sent(s, id, requestId, message, env).1.Accepted? <==>
      && Admissible(id, requestId, env) && !WasAccepted(s.LogOf(id), requestId)
      && (id in s.peers ==> |s.peers[id].outgoing.queued| < 64)
      && (message.Chat? ==> Recovered(s.LogOf(id)) == Ok(None))
      && |Stored(message)| <= s.maxEvent
      && (env.disk == Room || (env.disk == Full && s.LogOf(id) == []))
  {
    hide Inv, Recovered, AcceptedIds, Ensured, Took;
    AcceptedMeaning(s.LogOf(id), requestId);
    if SafeJournalId(id) {
      EnsuredPeer(s, id);
    }
  }

  /** A request is called a duplicate exactly if it is admissible and was accepted before. */
  lemma DuplicateExactly(s: State, id: string, requestId: string, message: Message, env: SendEnv)
    requires Inv(s)
    ensures Sent(s, id, requestId, message, env).1 == Duplicate <==>
      Admissible(id, requestId, env) && WasAccepted(s.LogOf(id), requestId)
  {
    hide Inv, Recovered, AcceptedIds, Ensured, Took;
    AcceptedMeaning(s.LogOf(id), requestId);
    if SafeJournalId(id) {
      EnsuredPeer(s, id);
    }
  }

  /** The event of an accepted request. */
  function AcceptedEvent(log: Log, requestId: string, message: Message): Event {
    match message
    case Chat(encoded) => Event(|log| + 1, RequestAccepted, requestId, encoded)
    case Control(_, durable) => Event(|log| + 1, ControlAccepted, requestId, durable)
  }

  lemma AcceptedSteps(s: State, id: string, requestId: string, message: Message, env: SendEnv)
    requires Inv(s) && Sent(s, id, requestId, message, env).1.Accepted?
    ensures SafeJournalId(id) && id in Ensured(s, id).peers
    ensures var event := AcceptedEvent(s.LogOf(id), requestId, message);
      && Sent(s, id, requestId, message, env).1 == Accepted(event)
      && Sent(s, id, requestId, message, env).0 == Took(Ensured(s, id), id, requestId, message, event)
  {
    hide Inv, Recovered, AcceptedIds, Ensured, Took;
    AcceptedExactly(s, id, requestId, message, env);
    EnsuredPeer(s, id);
  }

  lemma TookLog(s: State, id: string, requestId: string, message: Message, event: Event)
    requires id in s.peers
    ensures Took(s, id, requestId, message, event).LogOf(id) == s.LogOf(id) + [event]
  {
    hide Claim;
  }

  /** An accepted chat is journaled verbatim and is at once the conversation's turn, with a slot or waiting
      for one, and what recovery would find. */
  lemma ChatTakesEffect(s: State, id: string, requestId: string, encoded: Bytes, env: SendEnv)
    requires Inv(s) && Sent(s, id, requestId, Chat(encoded), env).1.Accepted?
    ensures var t := Next(s, Send(id, requestId, Chat(encoded), env));
      && t.LogOf(id) == s.LogOf(id) + [Event(|s.LogOf(id)| + 1, RequestAccepted, requestId, encoded)]
      && id in t.peers && t.peers[id].activeChat == requestId && t.peers[id].payload == encoded
      && (id in t.active || id in t.queue)
      && Recovered(t.LogOf(id)).Ok? && Recovered(t.LogOf(id)).value.Some?
      && Recovered(t.LogOf(id)).value.value.requestId == requestId
      && Recovered(t.LogOf(id)).value.value.data == encoded
  {
    hide Inv, Sent, Recovered, Ensured, Claim;
    AcceptedExactly(s, id, requestId, Chat(encoded), env);
    AcceptedSteps(s, id, requestId, Chat(encoded), env);
    EnsuredPeer(s, id);
    TookLog(Ensured(s, id), id, requestId, Chat(encoded), AcceptedEvent(s.LogOf(id), requestId, Chat(encoded)));
    SentKeeps(s, id, requestId, Chat(encoded), env);
    var t := Next(s, Send(id, requestId, Chat(encoded), env));
    PeerMatchesRecovery(t, id);
    LiveIsPlaced(t, id);
  }

  lemma LiveIsPlaced(s: State, id: string)
    requires Inv(s) && id in s.peers && s.peers[id].activeChat != ""
    ensures id in s.active || id in s.queue
  {
  }

  /** An accepted control message is journaled in its durable form, joins the end of the socket queue in its
      full form, and leaves the turn alone. */
  lemma ControlTakesEffect(s: State, id: string, requestId: string, encoded: Bytes, durable: Bytes, env: SendEnv)
    requires Inv(s) && Sent(s, id, requestId, Control(encoded, durable), env).1.Accepted?
    ensures var t := Next(s, Send(id, requestId, Control(encoded, durable), env));
      && t.LogOf(id) == s.LogOf(id) + [Event(|s.LogOf(id)| + 1, ControlAccepted, requestId, durable)]
      && id in t.peers
      && t.peers[id].outgoing == (if id in s.peers
           then Outbox(s.peers[id].outgoing.queued + [encoded], s.peers[id].outgoing.taken)
           else Outbox([encoded], []))
      && (id in s.peers ==> t.peers[id].activeChat == s.peers[id].activeChat && t.peers[id].lease == s.peers[id].lease)
  {
    hide Inv, Sent, Recovered, Ensured, Claim;
    var message := Control(encoded, durable);
    AcceptedSteps(s, id, requestId, message, env);
    EnsuredPeer(s, id);
    TookLog(Ensured(s, id), id, requestId, message, AcceptedEvent(s.LogOf(id), requestId, message));
  }

  // ----- control messages reach the socket in order -----

  /** The messages of a record, in order. */
  function Messages(taken: seq<ControlWrite>): seq<Bytes> {
    seq(|taken|, i requires 0 <= i < |taken| => taken[i].message)
  }

  /** Everything that ever entered a peer's queue: taken for the socket first, then still waiting. */
  function Through(box: Outbox): seq<Bytes> {
    Messages(box.taken) + box.queued
  }

  /** The full form of the control message this action gets accepted for the conversation. */
  function Controls(s: State, a: Action, id: string): seq<Bytes> {
    if a.Send? && a.id == id && a.message.Control? && Sent(s, id, a.requestId, a.message, a.sendEnv).1.Accepted?
    then [a.message.encoded] else []
  }

  function AllControls(s: State, actions: seq<Action>, id: string): seq<Bytes>
    decreases |actions|
  {
    if actions == [] then [] else Controls(s, actions[0], id) + AllControls(Next(s, actions[0]), actions[1..], id)
  }

  /** The queue of `id` is as before. */
  ghost predicate BoxKept(s: State, t: State, id: string) {
    id in s.peers && id in t.peers ==> t.peers[id].outgoing == s.peers[id].outgoing
  }

  lemma ReleasedBox(s: State, released: string, id: string)
    ensures BoxKept(s, Released(s, released), id)
  {
    hide Drop, FirstLive;
  }

  lemma CompletedBox(s: State, target: string, marker: Bytes, disk: Disk, id: string)
    requires target in s.peers
    ensures BoxKept(s, Completed(s, target, marker, disk).0, id)
    ensures id in Completed(s, target, marker, disk).0.peers <==> id in s.peers
  {
    hide TryAppend, Released;
    var r := TryAppend(s.LogOf(target), target, RequestCompleted, s.peers[target].activeChat, marker, disk, s.maxEvent);
    if r.Ok? {
      ReleasedBox(Idled(s, target, r.value), target, id);
      ReleasedFrame(Idled(s, target, r.value), target);
    }
  }

  lemma ReceivedBox(s: State, target: string, frame: Frame, env: FrameEnv, id: string)
    requires Linked(s, target)
    ensures BoxKept(s, Next(s, Receive(target, frame, env)), id)
  {
    hide Next, Completed, Recorded, HostReported;
    if frame.kind == Done || frame.kind == Kind.Error || frame.kind == Aborted {
      TerminalSteps(s, target, frame, env);
      RecordedFrame(s, target, frame, env.disk);
      CompletedBox(Recorded(s, target, frame, env.disk), target, env.marker, env.finishDisk, id);
      CompletedBox(Recorded(s, target, frame, env.disk), target, env.marker, env.finishDisk, target);
    } else {
      PlainSteps(s, target, frame, env);
      ReportedExactly(s, target, frame.connected, env.wrote);
      var reported := if frame.kind.HostStatus? then HostReported(s, target, frame.connected, env.wrote) else s;
      RecordedFrame(reported, target, frame, env.disk);
    }
  }

  lemma ClosedBox(s: State, target: string, id: string)
    ensures BoxKept(s, Closed(s, target), id)
  {
    hide Released;
    ReleasedBox(Unpublished(s, target), target, id);
    ReleasedFrame(Unpublished(s, target), target);
  }

  lemma SentBox(s: State, target: string, requestId: string, message: Message, env: SendEnv, id: string)
    requires target == id ==> message.Chat? || !Sent(s, target, requestId, message, env).1.Accepted?
    ensures BoxKept(s, Sent(s, target, requestId, message, env).0, id)
  {
    hide TryAppend, Recovered, AcceptedIds, Claim;
  }

  /** One step, as long as the peer lives: what went through the queue grows by the accepted message, if any. */
  lemma StepThrough(s: State, a: Action, id: string)
    requires Inv(s) && id in s.peers && id in Next(s, a).peers
    ensures Through(Next(s, a).peers[id].outgoing) == Through(s.peers[id].outgoing) + Controls(s, a, id)
  {
    hide Inv, Sent, Received, Closed, Recovered, Released, ChatWritten;
    if Controls(s, a, id) != [] {
      ControlTakesEffect(s, id, a.requestId, a.message.encoded, a.message.durable, a.sendEnv);
    } else {
      assert Through(s.peers[id].outgoing) + [] == Through(s.peers[id].outgoing);
      match a {
        case Send(target, requestId, message, env) => SentBox(s, target, requestId, message, env, id);
        case Receive(target, frame, env) => if Linked(s, target) { ReceivedBox(s, target, frame, env, id); }
        case Wake(target, wrote) => if Linked(s, target) && s.peers[target].wake { WokenBox(s, target, wrote, id); }
        case Close(target) => ClosedBox(s, target, id);
        case Remove(target, _) => ClosedBox(s, target, id);
        case WriteControl(target, wrote) =>
          if target == id && Linked(s, id) && s.peers[id].outgoing.queued != [] {
            TakenGoesThrough(s.peers[id].outgoing, wrote);
          }
        case _ =>
      }
    }
  }

  lemma WokenBox(s: State, target: string, wrote: bool, id: string)
    requires Linked(s, target)
    ensures BoxKept(s, Woken(s, target, wrote), id)
  {
  }

  lemma TakenGoesThrough(box: Outbox, wrote: bool)
    requires box.queued != []
    ensures Through(Outbox(box.queued[1..], box.taken + [ControlWrite(box.queued[0], wrote)])) == Through(box)
  {
    assert box.queued == [box.queued[0]] + box.queued[1..];
    assert Messages(box.taken + [ControlWrite(box.queued[0], wrote)]) == Messages(box.taken) + [box.queued[0]];
  }

  /** Over any run in which the peer lives, the control messages taken for the socket followed by those still
      queued are those there were before followed by the accepted ones, in order and once each. */
  lemma {:induction false} ControlsInOrder(s: State, actions: seq<Action>, id: string)
    requires Inv(s) && AllGenuine(s, actions) && Lives(s, actions, id)
    ensures id in RunAll(s, actions).peers
    ensures Through(RunAll(s, actions).peers[id].outgoing)
         == Through(s.peers[id].outgoing) + AllControls(s, actions, id)
    decreases |actions|
  {
    hide Inv, Next, Through, Controls;
    if actions == [] {
      assert Through(s.peers[id].outgoing) + [] == Through(s.peers[id].outgoing);
    } else {
      var before, first := Through(s.peers[id].outgoing), Controls(s, actions[0], id);
      NextKeeps(s, actions[0]);
      StepThrough(s, actions[0], id);
      ControlsInOrder(Next(s, actions[0]), actions[1..], id);
      var rest := AllControls(Next(s, actions[0]), actions[1..], id);
      assert (before + first) + rest == before + (first + rest);
    }
  }

  /** From the moment a peer is published, that is every control message accepted since. */
  lemma PublishedControlsInOrder(s: State, actions: seq<Action>, id: string)
    requires Inv(s) && SafeJournalId(id) && id !in s.peers
    requires AllGenuine(Next(s, Ensure(id)), actions) && Lives(Next(s, Ensure(id)), actions, id)
    ensures var t := RunAll(Next(s, Ensure(id)), actions);
      id in t.peers && Through(t.peers[id].outgoing) == AllControls(Next(s, Ensure(id)), actions, id)
  {
    hide Inv, Ensured, RunAll, AllControls;
    EnsuredPeer(s, id);
    ControlsInOrder(Next(s, Ensure(id)), actions, id);
    assert Through(Outbox([], [])) == [];
    assert [] + AllControls(Next(s, Ensure(id)), actions, id) == AllControls(Next(s, Ensure(id)), actions, id);
  }

  /** The record of messages that were all written. */
  function Carried(messages: seq<Bytes>): seq<ControlWrite> {
    seq(|messages|, i requires 0 <= i < |messages| => ControlWrite(messages[i], true))
  }

  /** An online host is sent the whole queue, in order, by as many successful writes. */
  lemma {:induction false} QueueDrains(s: State, actions: seq<Action>, id: string)
    requires Linked(s, id) && s.peers[id].link.hostOnline
    requires |actions| == |s.peers[id].outgoing.queued|
    requires forall i | 0 <= i < |actions| :: actions[i] == WriteControl(id, true)
    ensures var t := RunAll(s, actions); var box := s.peers[id].outgoing;
      id in t.peers && t.peers[id].outgoing == Outbox([], box.taken + Carried(box.queued))
    decreases |actions|
  {
    var box := s.peers[id].outgoing;
    if actions == [] {
      assert box.taken + Carried(box.queued) == box.taken;
    } else {
      var next := Next(s, actions[0]);
      assert actions[0] == WriteControl(id, true);
      QueueDrains(next, actions[1..], id);
      assert Carried(box.queued) == [ControlWrite(box.queued[0], true)] + Carried(box.queued[1..]);
      assert box.taken + Carried(box.queued) == next.peers[id].outgoing.taken + Carried(box.queued[1..]);
    }
  }

  // ----- connections end -----

  /** Disconnecting ends the connection, and so does a write that fails. */
  lemma ConnectionEnds(s: State, id: string)
    ensures !Linked(Next(s, Disconnect(id)), id)
    ensures Linked(s, id) && s.peers[id].link.hostOnline && s.peers[id].outgoing.queued != [] ==>
      !Linked(Next(s, WriteControl(id, false)), id)
    ensures Linked(s, id) && s.peers[id].link.hostOnline && s.peers[id].wake && Writes(s.peers[id]) ==>
      !Linked(Next(s, Wake(id, false)), id)
  {
  }

  lemma StaysUnlinked(s: State, a: Action, id: string)
    requires !Linked(s, id) && a != Connect(id)
    ensures !Linked(Next(s, a), id)
  {
    hide Received, Closed, Ensured, Sent;
    match a {
      case Ensure(target) => EnsuredUnlinked(s, target, id);
      case Send(target, requestId, message, env) => SentUnlinked(s, target, requestId, message, env, id);
      case Receive(target, frame, env) => if Linked(s, target) { ReceivedElsewhere(s, target, frame, env, id); }
      case Close(target) => ClosedLinks(s, target, id);
      case Remove(target, _) => ClosedLinks(s, target, id);
      case _ =>
    }
  }

  lemma EnsuredUnlinked(s: State, target: string, id: string)
    requires !Linked(s, id)
    ensures !Linked(Ensured(s, target), id)
  {
    hide Claim, Recovered;
  }

  lemma SentUnlinked(s: State, target: string, requestId: string, message: Message, env: SendEnv, id: string)
    requires !Linked(s, id)
    ensures !Linked(Sent(s, target, requestId, message, env).0, id)
  {
    hide Claim, Recovered, TryAppend, AcceptedIds;
  }

  lemma ReceivedElsewhere(s: State, target: string, frame: Frame, env: FrameEnv, id: string)
    requires Linked(s, target) && id != target
    ensures LinkKept(s, Received(s, target, frame, env), id)
    ensures id in Received(s, target, frame, env).peers <==> id in s.peers
  {
    hide TryAppend, Stamped, Completed;
    var reported := if frame.kind.HostStatus? then HostReported(s, target, frame.connected, env.wrote) else s;
    if reported.peers[target].link.Up? {
      RecordedFrame(reported, target, frame, env.disk);
      var recorded := Recorded(reported, target, frame, env.disk);
      if Terminal(frame.kind) {
        CompletedLinks(recorded, target, env.marker, env.finishDisk, id);
        CompletedLinks(recorded, target, env.marker, env.finishDisk, target);
      }
    }
  }

  /** Until it connects again, nothing is written to a conversation's host. */
  lemma {:induction false} NothingWithoutConnection(s: State, actions: seq<Action>, id: string)
    requires Inv(s) && AllGenuine(s, actions) && !Linked(s, id)
    requires forall i | 0 <= i < |actions| :: actions[i] != Connect(id)
    ensures !Linked(RunAll(s, actions), id)
    ensures DeliveredTo(RunAll(s, actions).wire, id) == DeliveredTo(s.wire, id)
    decreases |actions|
  {
    hide Inv, Next, DeliveredTo;
    if actions != [] {
      var a := actions[0];
      NextKeeps(s, a);
      StaysUnlinked(s, a, id);
      WireIsAuthorised(s, a);
      DeliveredElsewhere(s, Next(s, a), Writer(a), id);
      NothingWithoutConnection(Next(s, a), actions[1..], id);
    }
  }

  lemma DeliveredElsewhere(s: State, t: State, writer: string, id: string)
    requires WroteRight(s, t, writer) && !Linked(s, id)
    ensures DeliveredTo(t.wire, id) == DeliveredTo(s.wire, id)
  {
    if t.wire != s.wire {
      var d :| t.wire == s.wire + [d] && d.id == writer && Authorised(s, d);
      assert t.wire[..|s.wire|] == s.wire;
    }
  }

  // ----- hosts get their chats -----

  predicate HostReport(a: Action, id: string) {
    a.Receive? && a.id == id && a.frame.kind == HostStatus
  }

  /** A connection's host is online exactly as last reported on it; a new connection has no report. */
  lemma OnlineAsReported(s: State, a: Action, id: string)
    requires Linked(s, id) && Linked(Next(s, a), id)
    ensures Next(s, a).peers[id].link.hostOnline
         == if HostReport(a, id) then a.frame.connected
            else if a == Connect(id) then false else s.peers[id].link.hostOnline
  {
    hide Sent, Received, Closed, Ensured;
    match a {
      case Ensure(target) => EnsuredLinks(s, target, id);
      case Send(target, requestId, message, env) => SentLinks(s, target, requestId, message, env, id);
      case Receive(target, frame, env) => if Linked(s, target) { ReceivedOnline(s, target, frame, env, id); }
      case Close(target) => ClosedLinks(s, target, id);
      case Remove(target, _) => ClosedLinks(s, target, id);
      case _ =>
    }
  }

  /** The link of `id` is as before. */
  ghost predicate LinkKept(s: State, t: State, id: string) {
    id in s.peers && id in t.peers ==> t.peers[id].link == s.peers[id].link
  }

  lemma EnsuredLinks(s: State, target: string, id: string)
    requires id in s.peers
    ensures LinkKept(s, Ensured(s, target), id)
  {
    hide Claim, Recovered;
  }

  lemma SentLinks(s: State, target: string, requestId: string, message: Message, env: SendEnv, id: string)
    requires id in s.peers
    ensures LinkKept(s, Sent(s, target, requestId, message, env).0, id)
  {
    hide TryAppend, Recovered, AcceptedIds, Claim;
  }

  lemma ReleasedLinks(s: State, released: string, id: string)
    ensures LinkKept(s, Released(s, released), id)
  {
    hide Drop, FirstLive;
  }

  lemma ClosedLinks(s: State, target: string, id: string)
    ensures LinkKept(s, Closed(s, target), id)
    ensures id in Closed(s, target).peers ==> id in s.peers
  {
    hide Released;
    ReleasedLinks(Unpublished(s, target), target, id);
    ReleasedFrame(Unpublished(s, target), target);
  }

  lemma CompletedLinks(s: State, target: string, marker: Bytes, disk: Disk, id: string)
    requires target in s.peers
    ensures LinkKept(s, Completed(s, target, marker, disk).0, id)
    ensures id in Completed(s, target, marker, disk).0.peers <==> id in s.peers
  {
    hide TryAppend, Released;
    var r := TryAppend(s.LogOf(target), target, RequestCompleted, s.peers[target].activeChat, marker, disk, s.maxEvent);
    if r.Ok? {
      ReleasedLinks(Idled(s, target, r.value), target, id);
      ReleasedFrame(Idled(s, target, r.value), target);
    }
  }

  lemma FinishedOnline(s: State, target: string, marker: Bytes, disk: Disk, id: string)
    requires Linked(s, target) && Linked(s, id)
    ensures var t := Finished(s, target, marker, disk);
      Linked(t, id) && t.peers[id].link.hostOnline == s.peers[id].link.hostOnline
  {
    hide Completed;
    CompletedLinks(s, target, marker, disk, id);
    CompletedLinks(s, target, marker, disk, target);
  }

  lemma ReceivedOnline(s: State, target: string, frame: Frame, env: FrameEnv, id: string)
    requires Linked(s, target) && Linked(s, id) && Linked(Received(s, target, frame, env), id)
    ensures Received(s, target, frame, env).peers[id].link.hostOnline
         == if target == id && frame.kind == HostStatus then frame.connected else s.peers[id].link.hostOnline
  {
    hide TryAppend, Stamped, Finished;
    var reported := if frame.kind.HostStatus? then HostReported(s, target, frame.connected, env.wrote) else s;
    if reported.peers[target].link.Up? {
      RecordedFrame(reported, target, frame, env.disk);
      if Terminal(frame.kind) {
        FinishedOnline(Recorded(reported, target, frame, env.disk), target, env.marker, env.finishDisk, id);
      }
    }
  }

  /** The leased turn of a connected peer, with something to send. */
  ghost predicate Sendable(s: State, id: string) {
    Linked(s, id) && s.peers[id].activeChat != "" && s.peers[id].lease && s.peers[id].payload != []
  }

  /** Whenever a host is reported online on a connection that has not carried the turn, the turn is written. */
  lemma OnlineReportDelivers(s: State, id: string, frame: Frame, env: FrameEnv)
    requires Sendable(s, id) && s.peers[id].link.sentChat != s.peers[id].activeChat
    requires frame.kind == HostStatus && frame.connected && env.wrote
    ensures Next(s, Receive(id, frame, env)).wire
         == s.wire + [Delivery(id, s.peers[id].activeChat, s.peers[id].payload)]
  {
    hide Recorded;
    var reported := HostReported(s, id, true, true);
    RecordedFrame(reported, id, frame, env.disk);
  }

  /** A host that replaces one that went offline gets the unfinished chat, once, although the connection had
      carried it before. */
  lemma ReplacedHostGetsTheChat(s: State, id: string, down: Frame, downEnv: FrameEnv, up: Frame, upEnv: FrameEnv)
    requires Sendable(s, id)
    requires down.kind == HostStatus && !down.connected && up.kind == HostStatus && up.connected && upEnv.wrote
    ensures Next(Next(s, Receive(id, down, downEnv)), Receive(id, up, upEnv)).wire
         == s.wire + [Delivery(id, s.peers[id].activeChat, s.peers[id].payload)]
  {
    hide Recorded;
    var offline := Next(s, Receive(id, down, downEnv));
    var reported := HostReported(s, id, false, downEnv.wrote);
    RecordedFrame(reported, id, down, downEnv.disk);
    assert offline == Recorded(reported, id, down, downEnv.disk);
    OnlineReportDelivers(offline, id, up, upEnv);
  }

  /** So does the host behind a new connection. */
  lemma NewConnectionGetsTheChat(s: State, id: string, up: Frame, env: FrameEnv)
    requires id in s.peers && s.peers[id].activeChat != "" && s.peers[id].lease && s.peers[id].payload != []
    requires up.kind == HostStatus && up.connected && env.wrote
    ensures Next(Next(s, Connect(id)), Receive(id, up, env)).wire
         == s.wire + [Delivery(id, s.peers[id].activeChat, s.peers[id].payload)]
  {
    hide Received;
    OnlineReportDelivers(Next(s, Connect(id)), id, up, env);
  }

  // ----- removal, crashes and transport events -----

  /** A removed conversation is gone with its peer, and its file too if it could be erased; nothing else is
      forgotten. */
  lemma RemovalForgets(s: State, id: string, erased: bool)
    requires SafeJournalId(id)
    ensures var t := Next(s, Remove(id, erased));
      && id !in t.peers
      && t.logs == (if erased then s.logs - {id} else s.logs)
      && (erased ==> t.LogOf(id) == [] && Recovered(t.LogOf(id)) == Ok(None))
  {
    hide Closed;
    ClosedFrame(s, id);
    assert Pending([]) == map[];
  }

  /** A crash loses every peer and the turn table, and nothing on disk or on the wire. */
  lemma CrashLosesMemory(s: State)
    ensures var t := Next(s, Crash);
      t.peers == map[] && t.active == {} && t.queue == [] && t.logs == s.logs && t.wire == s.wire
  {
  }

  /** A transport event is journaled verbatim, without a request. */
  lemma TransportIsJournaled(s: State, id: string, name: string, data: Bytes)
    requires SafeJournalId(id) && 0 < |name| <= 96 && |data| <= s.maxEvent
    ensures var t := Next(s, RecordState(id, name, data, Room));
      t == s.(logs := s.logs[id := s.LogOf(id) + [Event(|s.LogOf(id)| + 1, Other(name), "", data)]])
  {
  }
}
