/** The chat gateway as a transition system on values: journal files, live peers, the turn
    table and the payloads written to relays. Each function is one atomic operation. */
module GatewayState {
  import opened Common
  import opened JournalLog
  import opened TurnTable

  const MaxRequestId := 160
  const MaxTaskId := 256
  const MaxTaskKeys := 2048
  const OutgoingCapacity := 64

  /** A peer's relay connection: the locals of its read loop. `shown` records the chats
      written since the connection opened or the host was last reported offline. */
  datatype Link = Down | Up(hostOnline: bool, sentChat: string, shown: seq<string>)

  /** A control message taken for the socket, and whether the write succeeded. */
  datatype ControlWrite = ControlWrite(message: Bytes, wrote: bool)

  /** A peer's control messages: those waiting for the socket, and a record of those taken before. */
  datatype Outbox = Outbox(queued: seq<Bytes>, taken: seq<ControlWrite>)

  datatype PeerView = PeerView(
    activeChat: string,
    payload: Bytes,
    lease: bool,
    wake: bool,
    tasks: map<string, string>,
    outgoing: Outbox,
    link: Link)

  datatype Delivery = Delivery(id: string, requestId: string, payload: Bytes)

  datatype State = State(
    logs: map<string, Log>,
    peers: map<string, PeerView>,
    active: set<string>,
    queue: seq<string>,
    limit: nat,
    maxEvent: nat,
    wire: seq<Delivery>)
  {
    function LogOf(id: string): Log {
      FileOf(logs, id)
    }

    function Table(): Turns {
      Turns(active, queue)
    }

    function With(id: string, peer: PeerView): State {
      this.(peers := peers[id := peer])
    }

    /** What one append does to this state's journal. */
    function Appended(id: string, kind: Kind, requestId: string, data: Bytes, disk: Disk): State {
      var r := TryAppend(LogOf(id), id, kind, requestId, data, disk, maxEvent);
      if r.Ok? then this.(logs := logs[id := LogOf(id) + [r.value]]) else this
    }
  }

  // ----- the turn scheduler -----

  predicate Live(peers: map<string, PeerView>, id: string) {
    id in peers && peers[id].activeChat != ""
  }

  /** The first queue position whose peer still has a chat to run; the length if there is none. */
  function FirstLive(peers: map<string, PeerView>, queue: seq<string>): (k: nat)
    ensures k <= |queue|
    ensures k < |queue| ==> Live(peers, queue[k])
    ensures forall i | 0 <= i < k :: !Live(peers, queue[i])
  {
    if queue == [] || Live(peers, queue[0]) then 0 else 1 + FirstLive(peers, queue[1..])
  }

  /** If a slot is free, the first live waiter takes it and is woken; the stale entries ahead of it are dropped. */
  function Promoted(s: State): State {
    var k := FirstLive(s.peers, s.queue);
    if |s.active| >= s.limit then s
    else if k == |s.queue| then s.(queue := [])
    else
      var next := s.queue[k];
      s.With(next, s.peers[next].(lease := true, wake := true))
       .(active := s.active + {next}, queue := s.queue[k + 1..])
  }

  /** `id` gives up its slot and its place in the queue, and the slot moves on. */
  function Released(s: State, id: string): State {
    Promoted(s.(active := s.active - {id}, queue := Drop(s.queue, id)))
  }

  // ----- peer life cycle -----

  datatype Refusal =
    | Disabled
    | ConversationClosed
    | NotFound
    | BadRequestId
    | Backpressure
    | TurnActive
    | Storage(error: JournalError)

  function FreshPeer(pending: Option<PendingRequest>): PeerView {
    match pending
    case None => PeerView("", [], false, false, map[], Outbox([], []), Down)
    case Some(request) => PeerView(request.requestId, request.data, false, false, map[], Outbox([], []), Down)
  }

  /** The outcome of looking for a conversation's unfinished request. */
  function Lookup(s: State, id: string): Result<Option<PendingRequest>, JournalError> {
    if SafeJournalId(id) then Recovered(s.LogOf(id)) else Err(InvalidId)
  }

  /** A peer for `id` appears; with an unfinished request it claims a slot for it at once. */
  function Published(s: State, id: string, pending: Option<PendingRequest>): State {
    if pending.None? then s.With(id, FreshPeer(None))
    else
      var (table, leased) := Claim(s.Table(), s.limit, id);
      s.With(id, FreshPeer(pending).(lease := leased, wake := leased))
       .(active := table.active, queue := table.queue)
  }

  /** Ensure: a conversation without a live peer gets one that restores its journal's unfinished request. */
  function Ensured(s: State, id: string): State {
    if Lookup(s, id).Err? || id in s.peers then s else Published(s, id, Lookup(s, id).value)
  }

  /** Close: the peer disappears from the table of peers and abandons its turn. */
  function Closed(s: State, id: string): State {
    if id !in s.peers then s
    else Abandoned(Unpublished(s, id), id, s.peers[id].activeChat != "")
  }

  function Unpublished(s: State, id: string): State {
    s.(peers := s.peers - {id})
  }

  function Abandoned(s: State, id: string, hadTurn: bool): State {
    if hadTurn then Released(s, id) else s
  }

  /** Permanent removal also deletes the journal file, if the disk lets it. */
  function Removed(s: State, id: string, erased: bool): State {
    var s' := Closed(s, id);
    if SafeJournalId(id) && erased then s'.(logs := s'.logs - {id}) else s'
  }

  /** A manager crash loses every peer and the turn table; journal files survive. */
  function Crashed(s: State): State {
    s.(peers := map[], active := {}, queue := [])
  }

  // ----- sending -----

  /** A request body. The journal stores a chat verbatim and a reduced form of some control messages. */
  datatype Message = Chat(encoded: Bytes) | Control(encoded: Bytes, durable: Bytes)

  datatype Status = Missing | Open | Closing | Ended

  /** What the control plane and the disk answer while one request is sent: whether the relay
      issuer is enabled, the status the caller passed in, the status on record, the disk. */
  datatype SendEnv = SendEnv(enabled: bool, passed: Status, current: Status, disk: Disk)

  datatype SendOutcome = Accepted(event: Event) | Duplicate | Refused(why: Refusal)

  function EnsureRefusal(s: State, id: string, env: SendEnv): Option<Refusal> {
    if !env.enabled then Some(Disabled)
    else if env.passed.Ended? then Some(ConversationClosed)
    else if Lookup(s, id).Err? then Some(Storage(Lookup(s, id).error))
    else None
  }

  function AcceptedKind(message: Message): Kind {
    if message.Chat? then RequestAccepted else ControlAccepted
  }

  function DurableForm(message: Message): Bytes {
    if message.Chat? then message.encoded else message.durable
  }

  /** Why a published peer would not take a request, in the order the gateway checks. */
  function SendDecision(s: State, id: string, requestId: string, message: Message, env: SendEnv): SendOutcome
    requires id in s.peers
  {
    var p := s.peers[id];
    if env.current.Missing? then Refused(NotFound)
    else if env.current != Open then Refused(ConversationClosed)
    else if requestId in AcceptedIds(s.LogOf(id)) then Duplicate
    else if |p.outgoing.queued| >= OutgoingCapacity then Refused(Backpressure)
    else if message.Chat? && p.activeChat != "" then Refused(TurnActive)
    else
      match TryAppend(s.LogOf(id), id, AcceptedKind(message), requestId, DurableForm(message), env.disk, s.maxEvent)
      case Ok(event) => Accepted(event)
      case Err(DuplicateRequest) => Duplicate
      case Err(error) => Refused(Storage(error))
  }

  /** An accepted chat becomes the active turn and claims a slot; a control message waits for the socket. */
  function Taken(s: State, id: string, requestId: string, message: Message): State
    requires id in s.peers
  {
    var p := s.peers[id];
    match message
    case Control(encoded, _) => s.With(id, p.(outgoing := p.outgoing.(queued := p.outgoing.queued + [encoded])))
    case Chat(encoded) =>
      var (table, leased) := Claim(s.Table(), s.limit, id);
      s.With(id, p.(activeChat := requestId, payload := encoded, lease := leased, wake := leased || p.wake))
       .(active := table.active, queue := table.queue)
  }

  function Logged(s: State, id: string, event: Event): State {
    s.(logs := s.logs[id := s.LogOf(id) + [event]])
  }

  /** The state after a request was accepted: journaled first, then taken up. */
  function Took(s: State, id: string, requestId: string, message: Message, event: Event): State
    requires id in s.peers
  {
    Taken(Logged(s, id, event), id, requestId, message)
  }

  function Sent(s: State, id: string, requestId: string, message: Message, env: SendEnv): (State, SendOutcome) {
    if requestId == "" || |requestId| > MaxRequestId then (s, Refused(BadRequestId))
    else
      match EnsureRefusal(s, id, env)
      case Some(why) => (s, Refused(why))
      case None =>
        var ready := Ensured(s, id);
        var outcome := SendDecision(ready, id, requestId, message, env);
        (if outcome.Accepted? then Took(ready, id, requestId, message, outcome.event) else ready, outcome)
  }

  // ----- the relay connection -----

  /** A frame read from the relay. */
  datatype Frame = Frame(kind: Kind, connected: bool, requestId: string, taskId: string, parentId: string, data: Bytes)

  /** How the socket and the disk behave while one frame is handled, and the encoded completion marker. */
  datatype FrameEnv = FrameEnv(wrote: bool, disk: Disk, finishDisk: Disk, marker: Bytes)

  /** Whether this connection should carry the peer's active chat now. */
  predicate Writes(p: PeerView)
    requires p.link.Up?
  {
    p.activeChat != "" && p.lease && p.activeChat != p.link.sentChat && p.payload != []
  }

  /** Writes the active chat to the relay if it is leased and this connection has not carried it yet. */
  function ChatWritten(s: State, id: string, wrote: bool): State
    requires id in s.peers && s.peers[id].link.Up?
  {
    var p := s.peers[id];
    if !Writes(p) then s
    else if !wrote then s.With(id, p.(link := Down))
    else
      s.With(id, p.(link := p.link.(sentChat := p.activeChat, shown := p.link.shown + [p.activeChat])))
       .(wire := s.wire + [Delivery(id, p.activeChat, p.payload)])
  }

  function HostReported(s: State, id: string, connected: bool, wrote: bool): State
    requires id in s.peers && s.peers[id].link.Up?
  {
    var p := s.peers[id];
    if connected then ChatWritten(s.With(id, p.(link := p.link.(hostOnline := true))), id, wrote)
    else s.With(id, p.(link := Up(false, "", [])))
  }

  function TaskKeys(taskId: string, parentId: string): seq<string> {
    (if taskId != "" && |taskId| <= MaxTaskId then ["task:" + taskId] else [])
    + (if parentId != "" && |parentId| <= MaxTaskId then ["parent:" + parentId] else [])
  }

  /** The request the first remembered key is bound to, or "". */
  function FirstBound(tasks: map<string, string>, keys: seq<string>): string {
    if keys == [] then ""
    else if keys[0] in tasks && tasks[keys[0]] != "" then tasks[keys[0]]
    else FirstBound(tasks, keys[1..])
  }

  function Bound(tasks: map<string, string>, keys: seq<string>, requestId: string): map<string, string>
    decreases |keys|
  {
    if keys == [] || |tasks| >= MaxTaskKeys then tasks
    else Bound(tasks[keys[0] := requestId], keys[1..], requestId)
  }

  /** The request a background task event belongs to, and the bindings remembered afterwards. */
  function Correlated(tasks: map<string, string>, frame: Frame, candidate: string): (map<string, string>, string) {
    var keys := TaskKeys(frame.taskId, frame.parentId);
    if !frame.kind.Task? || keys == [] then (tasks, candidate)
    else if FirstBound(tasks, keys) != "" then (tasks, FirstBound(tasks, keys))
    else if candidate == "" then (tasks, "")
    else (Bound(tasks, keys, candidate), candidate)
  }

  /** The id a frame itself names, if this conversation accepted it. */
  function Named(log: Log, frame: Frame): string {
    if frame.requestId != "" && |frame.requestId| <= MaxRequestId && frame.requestId in AcceptedIds(log)
    then frame.requestId else ""
  }

  /** The request id a frame is journaled under: its task's origin, else the accepted id it names, else the
      active turn. */
  function Stamped(log: Log, p: PeerView, frame: Frame): (map<string, string>, string) {
    var (tasks, requestId) := Correlated(p.tasks, frame, Named(log, frame));
    if requestId != "" then (tasks, requestId) else Correlated(tasks, frame, p.activeChat)
  }

  function Recorded(s: State, id: string, frame: Frame, disk: Disk): State
    requires id in s.peers
  {
    var p := s.peers[id];
    var (tasks, requestId) := Stamped(s.LogOf(id), p, frame);
    s.With(id, p.(tasks := tasks)).Appended(id, frame.kind, requestId, frame.data, disk)
  }

  /** The peer after its completion was journaled, still holding its place in the turn table. */
  function Idled(s: State, id: string, event: Event): State
    requires id in s.peers
  {
    s.(logs := s.logs[id := s.LogOf(id) + [event]])
     .With(id, s.peers[id].(activeChat := "", payload := [], lease := false))
  }

  /** completeActive: whatever turn is active ends, durably first, and its slot moves on. */
  function Completed(s: State, id: string, marker: Bytes, disk: Disk): (State, bool)
    requires id in s.peers
  {
    var p := s.peers[id];
    if p.activeChat == "" then (s, false)
    else
      var r := TryAppend(s.LogOf(id), id, RequestCompleted, p.activeChat, marker, disk, s.maxEvent);
      if r.Err? then (s, false)
      else
        var idle := Idled(s, id, r.value);
        (if p.lease then Released(idle, id) else idle, true)
  }

  /** The read loop's reaction to a terminal frame. */
  function Finished(s: State, id: string, marker: Bytes, disk: Disk): State
    requires id in s.peers && s.peers[id].link.Up?
  {
    var (s', done) := Completed(s, id, marker, disk);
    if done && id in s'.peers && s'.peers[id].link.Up?
    then s'.With(id, s'.peers[id].(link := s'.peers[id].link.(sentChat := "")))
    else s'
  }

  /** One frame from the relay: host report, attribution and journaling, completion. */
  function Received(s: State, id: string, frame: Frame, env: FrameEnv): State
    requires id in s.peers && s.peers[id].link.Up?
  {
    var reported := if frame.kind.HostStatus? then HostReported(s, id, frame.connected, env.wrote) else s;
    if reported.peers[id].link.Down? then reported
    else
      var recorded := Recorded(reported, id, frame, env.disk);
      if Terminal(frame.kind) then Finished(recorded, id, env.marker, env.finishDisk) else recorded
  }

  /** The read loop takes the next control message and writes it; a failed write ends the connection. */
  function ControlTaken(s: State, id: string, wrote: bool): State
    requires id in s.peers && s.peers[id].outgoing.queued != []
  {
    var p := s.peers[id];
    var box := p.outgoing;
    s.With(id, p.(outgoing := Outbox(box.queued[1..], box.taken + [ControlWrite(box.queued[0], wrote)]),
                  link := if wrote then p.link else Down))
  }

  /** The read loop takes the wake token. */
  function Woken(s: State, id: string, wrote: bool): State
    requires id in s.peers && s.peers[id].link.Up?
  {
    var p := s.peers[id];
    var taken := s.With(id, p.(wake := false));
    if p.link.hostOnline then ChatWritten(taken, id, wrote) else taken
  }

  // ----- one step of the whole system -----

  datatype Action =
    | Ensure(id: string)
    | Send(id: string, requestId: string, message: Message, sendEnv: SendEnv)
    | Connect(id: string)
    | Disconnect(id: string)
    | Receive(id: string, frame: Frame, env: FrameEnv)
    | Wake(id: string, wrote: bool)
    | WriteControl(id: string, wrote: bool)
    | RecordState(id: string, name: string, data: Bytes, disk: Disk)
    | Close(id: string)
    | Remove(id: string, erased: bool)
    | Crash

  predicate Linked(s: State, id: string) {
    id in s.peers && s.peers[id].link.Up?
  }

  /** The state after an action; an action that is not enabled changes nothing. */
  function Next(s: State, a: Action): State {
    match a
    case Ensure(id) => Ensured(s, id)
    case Send(id, requestId, message, env) => Sent(s, id, requestId, message, env).0
    case Connect(id) => if id in s.peers then s.With(id, s.peers[id].(link := Up(false, "", []))) else s
    case Disconnect(id) => if id in s.peers then s.With(id, s.peers[id].(link := Down)) else s
    case Receive(id, frame, env) => if Linked(s, id) then Received(s, id, frame, env) else s
    case Wake(id, wrote) => if Linked(s, id) && s.peers[id].wake then Woken(s, id, wrote) else s
    case WriteControl(id, wrote) =>
      if Linked(s, id) && s.peers[id].link.hostOnline && s.peers[id].outgoing.queued != []
      then ControlTaken(s, id, wrote) else s
    case RecordState(id, name, data, disk) => s.Appended(id, Other(name), "", data, disk)
    case Close(id) => Closed(s, id)
    case Remove(id, erased) => Removed(s, id, erased)
    case Crash => Crashed(s)
  }

  function RunAll(s: State, actions: seq<Action>): State
    decreases |actions|
  {
    if actions == [] then s else RunAll(Next(s, actions[0]), actions[1..])
  }
}
