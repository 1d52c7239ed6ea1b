/** The chat gateway itself: peers and the turn table updated in place, each operation proved
    to do exactly what the transition system says. */
module ChatGateway {
  import opened Common
  import opened JournalLog
  import opened JournalStore
  import opened TurnTable
  import opened GatewayState
  import opened GatewayScheduling

  /** One live conversation. `link` holds what the relay read loop remembers of its connection. */
  class Peer {
    const convId: string
    var activeChat: string
    var activePayload: Bytes
    var turnLease: bool
    var chatWake: bool
    var taskRequests: map<string, string>
    var outgoing: seq<Bytes>
    ghost var taken: seq<ControlWrite>
    var link: Link

    constructor (id: string, pending: Option<PendingRequest>)
      ensures convId == id && View() == FreshPeer(pending)
    {
      convId := id;
      activeChat := if pending.Some? then pending.value.requestId else "";
      activePayload := if pending.Some? then pending.value.data else [];
      turnLease, chatWake := false, false;
      taskRequests, outgoing, taken, link := map[], [], [], Down;
    }

    ghost function View(): PeerView
      reads this
    {
      PeerView(activeChat, activePayload, turnLease, chatWake, taskRequests, Outbox(outgoing, taken), link)
    }

    /** Finds the request a background task belongs to and remembers a first binding. */
    method CorrelateTaskRequest(frame: Frame, candidate: string) returns (requestId: string)
      modifies this`taskRequests
      ensures (taskRequests, requestId) == Correlated(old(taskRequests), frame, candidate)
    {
      var keys := TaskKeys(frame.taskId, frame.parentId);
      if !frame.kind.Task? || keys == [] {
        return candidate;
      }
      var i := 0;
      while i < |keys|
        invariant 0 <= i <= |keys|
        invariant FirstBound(taskRequests, keys) == FirstBound(taskRequests, keys[i..])
        modifies {}
      {
        if keys[i] in taskRequests && taskRequests[keys[i]] != "" {
          return taskRequests[keys[i]];
        }
        i := i + 1;
      }
      if candidate == "" {
        return "";
      }
      i := 0;
      while i < |keys| && |taskRequests| < MaxTaskKeys
        invariant 0 <= i <= |keys|
        invariant Bound(old(taskRequests), keys, candidate) == Bound(taskRequests, keys[i..], candidate)
      {
        taskRequests := taskRequests[keys[i] := candidate];
        i := i + 1;
      }
      return candidate;
    }
  }

  class Gateway {
    const journal: Journal
    const turnLimit: nat
    var peers: map<string, Peer>
    var turnActive: set<string>
    var turnQueue: seq<string>
    ghost var wire: seq<Delivery>

    /** A gateway over a journal, as a manager starts or restarts it. */
    constructor (journal: Journal, turnLimit: nat)
      requires journal.Valid()
      ensures Valid() && this.journal == journal && this.turnLimit == turnLimit
      ensures State() == GatewayState.State(journal.files, map[], {}, [], turnLimit, journal.maxEvent, [])
    {
      this.journal := journal;
      this.turnLimit := turnLimit;
      peers, turnActive, turnQueue, wire := map[], {}, [], [];
    }

    ghost predicate Valid()
      reads this`peers, journal, peers.Values
    {
      && journal.Valid()
      && forall id | id in peers :: peers[id].convId == id
    }

    ghost function Views(): map<string, PeerView>
      reads this`peers, peers.Values
    {
      map id | id in peers :: peers[id].View()
    }

    ghost function State(): State
      reads this, journal, peers.Values
    {
      GatewayState.State(journal.files, Views(), turnActive, turnQueue, turnLimit, journal.maxEvent, wire)
    }

    /** Changing or adding one peer changes exactly one view. */
    twostate lemma ViewsAfter(id: string)
      requires id in peers && peers == old(peers)[id := peers[id]]
      requires forall other | other in old(peers) && other != id :: old(peers)[other].View() == old(peers[other].View())
      ensures Views() == old(Views())[id := peers[id].View()]
    {
    }

    lemma ViewAt(id: string)
      requires id in peers
      ensures Views().Keys == peers.Keys && Views()[id] == peers[id].View()
    {
    }

    /** claimTurn: a slot now, or a place at the end of the queue. */
    method ClaimTurn(id: string) returns (leased: bool)
      requires Valid()
      modifies this`turnActive, this`turnQueue
      ensures Valid()
      ensures (Turns(turnActive, turnQueue), leased) == Claim(Turns(old(turnActive), old(turnQueue)), turnLimit, id)
    {
      if id in turnActive {
        return true;
      }
      for i := 0 to |turnQueue|
        invariant id !in turnQueue[..i]
        modifies {}
      {
        if turnQueue[i] == id {
          return false;
        }
      }
      if |turnActive| < turnLimit {
        turnActive := turnActive + {id};
        return true;
      }
      turnQueue := turnQueue + [id];
      return false;
    }

    /** Removes the first queue entry for `id`. */
    static method Dequeue(queue: seq<string>, id: string) returns (left: seq<string>)
      ensures left == Drop(queue, id)
    {
      for i := 0 to |queue|
        invariant Drop(queue, id) == queue[..i] + Drop(queue[i..], id)
      {
        if queue[i] == id {
          return queue[..i] + queue[i + 1..];
        }
        assert queue[..i + 1] == queue[..i] + [queue[i]];
      }
      return queue;
    }

    /** One locked pass of the release loop over the turn table. */
    method ReleasePass(id: string) returns (next: Option<string>)
      requires Valid()
      modifies this`turnActive, this`turnQueue
      ensures Valid()
      ensures (Turns(turnActive, turnQueue), next) == Release(Turns(old(turnActive), old(turnQueue)), turnLimit, id)
    {
      hide Indexed;
      var active := turnActive - {id};
      var queue := Dequeue(turnQueue, id);
      if queue == [] || |active| >= turnLimit {
        next := None;
      } else {
        next, active, queue := Some(queue[0]), active + {queue[0]}, queue[1..];
      }
      turnActive, turnQueue := active, queue;
    }

    /** Leases and wakes the promoted peer, unless it is gone or has nothing to run any more. */
    method Promote(id: string) returns (valid: bool)
      requires Valid()
      modifies peers.Values
      ensures Valid()
      ensures valid == Live(old(Views()), id)
      ensures State() == if !valid then old(State())
        else old(State()).With(id, old(Views())[id].(lease := true, wake := true))
    {
      hide Indexed;
      if id !in peers || peers[id].activeChat == "" {
        return false;
      }
      var p := peers[id];
      p.turnLease := true;
      p.chatWake := true;
      ViewsAfter(id);
      return true;
    }

    /** releaseTurn: the loop skips stale conversations and hands the slot to the first live waiter. */
    method ReleaseTurn(id: string)
      requires Valid() && TableInv(State().Table(), turnLimit)
      modifies this`turnActive, this`turnQueue, peers.Values
      ensures Valid()
      ensures State() == Released(old(State()), id)
    {
      hide Indexed, Released, TableInv, Views;
      var current := id;
      while true
        invariant Valid() && TableInv(State().Table(), turnLimit)
        invariant Released(State(), current) == Released(old(State()), id)
        decreases |turnQueue|
      {
        ghost var before := State();
        ReleaseKeepsTable(before.Table(), turnLimit, current);
        var next := ReleasePass(current);
        if next.None? {
          LastPass(before, current);
          return;
        }
        var valid := Promote(next.value);
        if valid {
          LastPass(before, current);
          return;
        }
        StalePass(before, current);
        current := next.value;
      }
    }

    /** Publishes a peer for the conversation, restoring the unfinished request of its journal. */
    method Ensure(id: string, env: SendEnv) returns (refusal: Option<Refusal>)
      requires Valid()
      modifies this`peers, this`turnActive, this`turnQueue
      ensures Valid()
      ensures refusal == EnsureRefusal(old(State()), id, env)
      ensures State() == if refusal.None? then Ensured(old(State()), id) else old(State())
      ensures fresh(peers.Values - old(peers.Values)) && (refusal.None? ==> id in peers)
    {
      hide Indexed, Recovered;
      if !env.enabled {
        return Some(Disabled);
      }
      if env.passed.Ended? {
        return Some(ConversationClosed);
      }
      var pending := journal.PendingChatRequest(id);
      if pending.Err? {
        return Some(Storage(pending.error));
      }
      if id !in peers {
        Publish(id, pending.value);
      }
      return None;
    }

    method Publish(id: string, pending: Option<PendingRequest>)
      requires Valid() && id !in peers
      modifies this`peers, this`turnActive, this`turnQueue
      ensures Valid()
      ensures State() == Published(old(State()), id, pending)
      ensures peers.Keys == old(peers).Keys + {id} && fresh(peers.Values - old(peers.Values))
    {
      hide Indexed, Claim, Views;
      var p := new Peer(id, pending);
      peers := peers[id := p];
      ViewsAfter(id);
      if pending.Some? {
        var leased := ClaimTurn(id);
        p.turnLease := leased;
        if leased {
          p.chatWake := true;
        }
        ViewsAfter(id);
      }
    }

    /** Stops a peer and lets its turn, if it had one, move on. */
    method Stop(id: string)
      requires Valid() && TableInv(State().Table(), turnLimit)
      modifies this`peers, this`turnActive, this`turnQueue, peers.Values
      ensures Valid()
      ensures State() == Closed(old(State()), id)
    {
      hide Indexed, Released, TableInv;
      if id !in peers {
        return;
      }
      var p := peers[id];
      var hadTurn := p.activeChat != "";
      peers := peers - {id};
      p.activeChat, p.activePayload, p.turnLease := "", [], false;
      assert State() == Unpublished(old(State()), id);
      if hadTurn {
        ReleaseTurn(id);
      }
    }

    /** Stops a peer and deletes its journal. `erased` is whether the file could be deleted. */
    method Remove(id: string, erased: bool)
      requires Valid() && TableInv(State().Table(), turnLimit)
      modifies this`peers, this`turnActive, this`turnQueue, peers.Values
      modifies journal`files, journal`sequences, journal`requestIds
      ensures Valid()
      ensures State() == Removed(old(State()), id, erased)
    {
      hide Indexed, Closed, Views;
      Stop(id);
      var ok := journal.Remove(id, erased);
    }

    /** completeActive: ends whatever turn is active, durably first, and releases its slot. */
    method CompleteActive(id: string, marker: Bytes, disk: Disk) returns (done: bool)
      requires Valid() && id in peers && TableInv(State().Table(), turnLimit)
      modifies this`turnActive, this`turnQueue, peers.Values
      modifies journal`files, journal`sequences, journal`requestIds
      ensures Valid()
      ensures (State(), done) == Completed(old(State()), id, marker, disk)
    {
      hide Indexed, TryAppend, Released, TableInv;
      var p := peers[id];
      if p.activeChat == "" {
        return false;
      }
      var r := MarkCompleted(id, marker, disk);
      if r.Err? {
        return false;
      }
      if r.value {
        ReleaseTurn(id);
      }
      return true;
    }

    /** Journals the completion and clears the turn; answers whether the turn held a slot. */
    method MarkCompleted(id: string, marker: Bytes, disk: Disk) returns (r: Result<bool, JournalError>)
      requires Valid() && id in peers
      modifies peers.Values
      modifies journal`files, journal`sequences, journal`requestIds
      ensures Valid()
      ensures var s, p := old(State()), old(Views())[id];
        var written := TryAppend(s.LogOf(id), id, RequestCompleted, p.activeChat, marker, disk, s.maxEvent);
        if written.Err? then r.Err? && State() == s
        else r == Ok(p.lease) && State() == Idled(s, id, written.value)
    {
      hide Indexed, TryAppend;
      var p := peers[id];
      var written := journal.Append(id, RequestCompleted, p.activeChat, marker, disk);
      if written.Err? {
        return Err(written.error);
      }
      r := Ok(p.turnLease);
      ClearTurn(id);
    }

    method ClearTurn(id: string)
      requires Valid() && id in peers
      modifies peers.Values
      ensures Valid()
      ensures State() == old(State()).With(id, old(Views())[id].(activeChat := "", payload := [], lease := false))
    {
      hide Indexed;
      var p := peers[id];
      p.activeChat, p.activePayload, p.turnLease := "", [], false;
      ViewsAfter(id);
    }

    /** Send: ensures the peer, rechecks the conversation, deduplicates, journals, then starts or queues the turn. */
    method Send(id: string, requestId: string, message: Message, env: SendEnv) returns (outcome: SendOutcome)
      requires Valid()
      modifies this`peers, this`turnActive, this`turnQueue, peers.Values
      modifies journal`files, journal`sequences, journal`requestIds
      ensures Valid()
      ensures (State(), outcome) == Sent(old(State()), id, requestId, message, env)
    {
      hide Indexed, Views, EnsureRefusal, Ensured, SendDecision, Taken;
      if requestId == "" || |requestId| > MaxRequestId {
        return Refused(BadRequestId);
      }
      var refusal := Ensure(id, env);
      if refusal.Some? {
        return Refused(refusal.value);
      }
      ViewAt(id);
      outcome := Decide(id, requestId, message, env);
      if outcome.Accepted? {
        Take(id, requestId, message);
      }
    }

    /** Checks a request against the published peer and journals it if nothing stands against it. */
    method Decide(id: string, requestId: string, message: Message, env: SendEnv) returns (outcome: SendOutcome)
      requires Valid() && id in peers && requestId != ""
      modifies journal`files, journal`sequences, journal`requestIds
      ensures Valid()
      ensures outcome == SendDecision(old(State()), id, requestId, message, env)
      ensures State() == if outcome.Accepted? then Logged(old(State()), id, outcome.event) else old(State())
    {
      hide Indexed, TryAppend;
      var p := peers[id];
      if env.current.Missing? {
        return Refused(NotFound);
      }
      if env.current != Open {
        return Refused(ConversationClosed);
      }
      var duplicate := journal.HasRequest(id, requestId);
      if duplicate {
        return Duplicate;
      }
      if |p.outgoing| >= OutgoingCapacity {
        return Refused(Backpressure);
      }
      if message.Chat? && p.activeChat != "" {
        return Refused(TurnActive);
      }
      var r := journal.Append(id, AcceptedKind(message), requestId, DurableForm(message), env.disk);
      match r {
        case Ok(event) => return Accepted(event);
        case Err(error) => return if error.DuplicateRequest? then Duplicate else Refused(Storage(error));
      }
    }

    /** Makes an accepted chat the active turn, or hands an accepted control message to the socket queue. */
    method Take(id: string, requestId: string, message: Message)
      requires Valid() && id in peers
      modifies this`turnActive, this`turnQueue, peers.Values
      ensures Valid()
      ensures State() == Taken(old(State()), id, requestId, message)
    {
      hide Indexed, Views, Claim;
      ViewAt(id);
      match message {
        case Control(encoded, _) =>
          peers[id].outgoing := peers[id].outgoing + [encoded];
          ViewsAfter(id);
        case Chat(encoded) =>
          var leased := ClaimTurn(id);
          Activate(id, requestId, encoded, leased);
      }
    }

    method Activate(id: string, requestId: string, payload: Bytes, leased: bool)
      requires Valid() && id in peers
      modifies peers.Values
      ensures Valid()
      ensures State() == old(State()).With(id, old(peers[id].View()).(
        activeChat := requestId, payload := payload, lease := leased, wake := leased || old(peers[id].chatWake)))
    {
      hide Indexed, Views;
      var p := peers[id];
      p.activeChat, p.activePayload, p.turnLease := requestId, payload, leased;
      if leased {
        p.chatWake := true;
      }
      ViewsAfter(id);
    }

    /** Writes the active chat to the relay if it is leased and unsent on this connection. */
    method SendActiveChat(id: string, wrote: bool)
      requires Valid() && id in peers && peers[id].link.Up?
      modifies peers.Values, this`wire
      ensures Valid()
      ensures State() == ChatWritten(old(State()), id, wrote)
    {
      hide Indexed;
      var p := peers[id];
      if p.activeChat == "" || !p.turnLease || p.activeChat == p.link.sentChat || p.activePayload == [] {
        return;
      }
      if !wrote {
        p.link := Down;
      } else {
        wire := wire + [Delivery(id, p.activeChat, p.activePayload)];
        p.link := p.link.(sentChat := p.activeChat, shown := p.link.shown + [p.activeChat]);
      }
      ViewsAfter(id);
    }

    method ReportHost(id: string, connected: bool, wrote: bool)
      requires Valid() && id in peers && peers[id].link.Up?
      modifies peers.Values, this`wire
      ensures Valid()
      ensures State() == HostReported(old(State()), id, connected, wrote)
    {
      hide Indexed, Views, ChatWritten;
      ViewAt(id);
      var p := peers[id];
      p.link := if connected then p.link.(hostOnline := true) else Up(false, "", []);
      ViewsAfter(id);
      if connected {
        SendActiveChat(id, wrote);
      }
    }

    /** The request a frame belongs to; a first task binding is remembered. */
    method Attribute(id: string, frame: Frame) returns (requestId: string)
      requires Valid() && id in peers
      modifies peers.Values, journal`sequences, journal`requestIds
      ensures Valid()
      ensures var (tasks, stamped) := Stamped(old(State()).LogOf(id), old(peers[id].View()), frame);
        requestId == stamped && State() == old(State()).With(id, old(peers[id].View()).(tasks := tasks))
    {
      hide Indexed, Views, Correlated, AcceptedIds;
      var p := peers[id];
      var named := "";
      if frame.requestId != "" && |frame.requestId| <= MaxRequestId {
        var accepted := journal.HasRequest(id, frame.requestId);
        if accepted {
          named := frame.requestId;
        }
      }
      requestId := p.CorrelateTaskRequest(frame, named);
      if requestId == "" {
        requestId := p.CorrelateTaskRequest(frame, p.activeChat);
      }
      ViewsAfter(id);
    }

    /** Attributes a frame to a request and journals it. */
    method RecordRaw(id: string, frame: Frame, disk: Disk)
      requires Valid() && id in peers
      modifies peers.Values
      modifies journal`files, journal`sequences, journal`requestIds
      ensures Valid()
      ensures State() == Recorded(old(State()), id, frame, disk)
      ensures peers[id].link == old(peers[id].link)
    {
      hide Indexed, Views, Stamped, TryAppend;
      ViewAt(id);
      var requestId := Attribute(id, frame);
      ViewAt(id);
      var r := journal.Append(id, frame.kind, requestId, frame.data, disk);
    }

    /** Ends the active turn on a terminal frame and forgets which chat this connection carried. */
    method Finish(id: string, marker: Bytes, disk: Disk)
      requires Valid() && id in peers && peers[id].link.Up? && TableInv(State().Table(), turnLimit)
      modifies this`turnActive, this`turnQueue, peers.Values
      modifies journal`files, journal`sequences, journal`requestIds
      ensures Valid()
      ensures State() == Finished(old(State()), id, marker, disk)
    {
      hide Indexed, TableInv, Completed, Views;
      ViewAt(id);
      var done := CompleteActive(id, marker, disk);
      ViewAt(id);
      var p := peers[id];
      if done && p.link.Up? {
        label completed:
        p.link := p.link.(sentChat := "");
        ViewsAfter@completed(id);
      }
    }

    /** The read loop's reaction to one frame. */
    method HandleFrame(id: string, frame: Frame, env: FrameEnv)
      requires Valid() && id in peers && peers[id].link.Up? && TableInv(State().Table(), turnLimit)
      modifies this`turnActive, this`turnQueue, this`wire, peers.Values
      modifies journal`files, journal`sequences, journal`requestIds
      ensures Valid()
      ensures State() == Received(old(State()), id, frame, env)
    {
      hide Indexed, TableInv, HostReported, Recorded, Finished, Views;
      ViewAt(id);
      if frame.kind.HostStatus? {
        ReportHost(id, frame.connected, env.wrote);
        ViewAt(id);
        if peers[id].link.Down? {
          return;
        }
      }
      RecordRaw(id, frame, env.disk);
      ViewAt(id);
      if Terminal(frame.kind) {
        Finish(id, env.marker, env.finishDisk);
      }
    }

    /** The read loop takes the next control message for the socket. */
    method WriteControl(id: string, wrote: bool) returns (message: Bytes)
      requires Valid() && id in peers && peers[id].link.Up? && peers[id].outgoing != []
      modifies peers.Values
      ensures Valid()
      ensures State() == ControlTaken(old(State()), id, wrote) && message == old(peers[id].outgoing)[0]
    {
      hide Indexed;
      var p := peers[id];
      message := p.outgoing[0];
      p.outgoing := p.outgoing[1..];
      if !wrote {
        p.link := Down;
      }
      p.taken := p.taken + [ControlWrite(message, wrote)];
      ViewsAfter(id);
    }

    /** The read loop takes the wake token. */
    method TakeWake(id: string, wrote: bool)
      requires Valid() && id in peers && peers[id].link.Up?
      modifies peers.Values, this`wire
      ensures Valid()
      ensures State() == Woken(old(State()), id, wrote)
    {
      hide Indexed, Views, ChatWritten;
      ViewAt(id);
      var p := peers[id];
      p.chatWake := false;
      ViewsAfter(id);
      if p.link.hostOnline {
        SendActiveChat(id, wrote);
      }
    }
  }
}
