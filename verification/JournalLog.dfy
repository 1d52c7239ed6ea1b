/** What one conversation's journal file means: its events, the idempotency index a
    manager derives from it and the chat requests it leaves unfinished. */
module JournalLog {
  import opened Common

  /** The event and frame types the gateway tells apart. `Task` stands for the types
      that start with task_ or subagent_, `Other` for every remaining type. */
  datatype Kind =
    | RequestAccepted
    | ControlAccepted
    | RequestCompleted
    | HostStatus
    | Done
    | Error
    | Aborted
    | Usage
    | Task(name: string)
    | Other(name: string)

  datatype Event = Event(sequence: nat, kind: Kind, requestId: string, data: Bytes)

  type Log = seq<Event>

  /** The log of a conversation; one that was never written to is empty. */
  function FileOf(files: map<string, Log>, id: string): Log {
    if id in files then files[id] else []
  }

  datatype PendingRequest = PendingRequest(requestId: string, data: Bytes, sequence: nat)

  datatype JournalError = InvalidEvent | InvalidId | DuplicateRequest | JournalFull | IoFailure | MultipleUnfinished

  /** How the disk answers one append: it has room, the size budget is spent, or the write fails. */
  datatype Disk = Room | Full | Broken

  /** Event types are non-empty and at most 96 characters; the fixed ones are. */
  predicate NameFits(kind: Kind) {
    match kind
    case Task(name) => 0 < |name| <= 96
    case Other(name) => 0 < |name| <= 96
    case _ => true
  }

  predicate Terminal(kind: Kind) {
    kind.Done? || kind.Error? || kind.Aborted?
  }

  predicate Idempotency(kind: Kind) {
    kind.RequestAccepted? || kind.ControlAccepted?
  }

  predicate Accepts(event: Event) {
    Idempotency(event.kind) && event.requestId != ""
  }

  predicate SafeChar(c: char) {
    'a' <= c <= 'z' || 'A' <= c <= 'Z' || '0' <= c <= '9' || c == '-' || c == '_' || c == '.'
  }

  predicate SafeJournalId(id: string) {
    id != "" && |id| <= 160 && forall i | 0 <= i < |id| :: SafeChar(id[i])
  }

  /** The request ids a log has accepted; the journal keeps this set in memory. */
  function AcceptedIds(log: Log): set<string> {
    if log == [] then {} else AcceptedStep(AcceptedIds(log[..|log| - 1]), log[|log| - 1])
  }

  function AcceptedStep(accepted: set<string>, event: Event): set<string> {
    if Accepts(event) then accepted + {event.requestId} else accepted
  }

  function PendingStep(pending: map<string, PendingRequest>, event: Event): map<string, PendingRequest> {
    match event.kind
    case RequestAccepted => pending[event.requestId := PendingRequest(event.requestId, event.data, event.sequence)]
    case RequestCompleted => pending - {event.requestId}
    case _ => pending
  }

  /** The chat requests accepted and not completed, read in file order. */
  function Pending(log: Log): map<string, PendingRequest> {
    if log == [] then map[] else PendingStep(Pending(log[..|log| - 1]), log[|log| - 1])
  }

  /** What a recovering manager learns from a log. */
  function Recovered(log: Log): Result<Option<PendingRequest>, JournalError> {
    var pending := Pending(log);
    if pending.Keys == {} then Ok(None)
    else if |pending| != 1 then Err(MultipleUnfinished)
    else Ok(Some(Only(pending)))
  }

  ghost predicate Numbered(log: Log) {
    forall i | 0 <= i < |log| :: log[i].sequence == i + 1
  }

  /** No event accepts an id that an earlier event accepted. */
  ghost predicate AcceptedOnce(log: Log) {
    log == [] ||
    var before, last := log[..|log| - 1], log[|log| - 1];
    AcceptedOnce(before) && (Accepts(last) ==> last.requestId !in AcceptedIds(before))
  }

  ghost predicate WellFormed(log: Log) {
    Numbered(log) && AcceptedOnce(log)
  }

  /** Every id stamped on an event was accepted no later than that event. */
  ghost predicate Attributed(log: Log) {
    log == [] ||
    (Attributed(log[..|log| - 1]) && (log[|log| - 1].requestId == "" || log[|log| - 1].requestId in AcceptedIds(log)))
  }

  predicate ValidEvent(id: string, kind: Kind, data: Bytes, maxEvent: nat) {
    SafeJournalId(id) && NameFits(kind) && |data| <= maxEvent
  }

  /** The event one append would write to `log`, or why it writes nothing. */
  function TryAppend(log: Log, id: string, kind: Kind, requestId: string, data: Bytes, disk: Disk, maxEvent: nat)
    : (r: Result<Event, JournalError>)
  {
    if !ValidEvent(id, kind, data, maxEvent) then Err(InvalidEvent)
    else if requestId != "" && Idempotency(kind) && requestId in AcceptedIds(log) then Err(DuplicateRequest)
    else if disk.Full? && log != [] && !kind.RequestCompleted? then Err(JournalFull)
    else if disk.Broken? then Err(IoFailure)
    else Ok(Event(|log| + 1, kind, requestId, data))
  }

  function Only(pending: map<string, PendingRequest>): (p: PendingRequest)
    requires |pending| == 1
    ensures exists id :: pending == map[id := p]
  {
    SingletonMap(pending);
    var id :| id in pending;
    pending[id]
  }

  lemma SingletonMap(m: map<string, PendingRequest>)
    requires |m| == 1
    ensures exists id :: id in m
    ensures forall id, id' | id in m && id' in m :: id == id'
    ensures forall id | id in m :: m == map[id := m[id]]
  {
    var id :| id in m.Keys;
    assert |m.Keys - {id}| == 0;
    forall id' | id' in m
      ensures id' == id
    {
      assert id' !in m.Keys - {id};
    }
  }

  // ----- what one appended event changes -----

  lemma AcceptedAfter(log: Log, event: Event)
    ensures AcceptedIds(log + [event]) == AcceptedStep(AcceptedIds(log), event)
  {
    assert (log + [event])[..|log|] == log;
  }

  /** The index holds exactly the ids some accepting event of the file carries. */
  lemma {:induction false} AcceptedMeaning(log: Log, id: string)
    ensures id in AcceptedIds(log) <==> exists i | 0 <= i < |log| :: Accepts(log[i]) && log[i].requestId == id
  {
    if log != [] {
      var before := log[..|log| - 1];
      AcceptedMeaning(before, id);
      assert forall i | 0 <= i < |before| :: before[i] == log[i];
    }
  }

  lemma PendingAfter(log: Log, event: Event)
    ensures Pending(log + [event]) == PendingStep(Pending(log), event)
  {
    assert (log + [event])[..|log|] == log;
  }

  /** Accepted once means: two different events never accept the same id. */
  lemma {:induction false} AcceptedOnceMeaning(log: Log)
    ensures AcceptedOnce(log) <==>
      forall i, j | 0 <= i < j < |log| && Accepts(log[i]) && Accepts(log[j]) :: log[i].requestId != log[j].requestId
  {
    if log != [] {
      var n := |log| - 1;
      var before := log[..n];
      AcceptedOnceMeaning(before);
      AcceptedMeaning(before, log[n].requestId);
      assert forall i | 0 <= i < n :: before[i] == log[i];
    }
  }

  /** Attributed means: each stamped id belongs to an accepting event at or before the stamped one. */
  lemma {:induction false} AttributedMeaning(log: Log, j: nat)
    requires Attributed(log) && j < |log| && log[j].requestId != ""
    ensures exists i | 0 <= i <= j :: Accepts(log[i]) && log[i].requestId == log[j].requestId
  {
    var n := |log| - 1;
    if j < n {
      AttributedMeaning(log[..n], j);
    } else {
      AcceptedMeaning(log, log[j].requestId);
    }
  }

  /** Appending through the journal keeps file sequences exactly 1..n and each id accepted at most once. */
  lemma AppendKeepsWellFormed(log: Log, id: string, kind: Kind, requestId: string, data: Bytes,
                              disk: Disk, maxEvent: nat)
    requires WellFormed(log)
    requires TryAppend(log, id, kind, requestId, data, disk, maxEvent).Ok?
    ensures WellFormed(log + [TryAppend(log, id, kind, requestId, data, disk, maxEvent).value])
  {
    var event := TryAppend(log, id, kind, requestId, data, disk, maxEvent).value;
    assert (log + [event])[..|log|] == log;
  }

  lemma AppendKeepsAttributed(log: Log, event: Event)
    requires Attributed(log)
    requires event.requestId == "" || event.requestId in AcceptedIds(log) || Accepts(event)
    ensures Attributed(log + [event])
  {
    assert (log + [event])[..|log|] == log;
    AcceptedAfter(log, event);
  }

  /** A chat request left unfinished at position i: accepted there, neither accepted again nor completed later. */
  ghost predicate UnfinishedAt(log: Log, id: string, i: nat) {
    && i < |log|
    && log[i].kind.RequestAccepted?
    && log[i].requestId == id
    && forall j | i < j < |log| && log[j].requestId == id ::
      !log[j].kind.RequestAccepted? && !log[j].kind.RequestCompleted?
  }

  /** The recovery fold finds exactly the requests that were accepted and never completed since,
      each with the payload of its last acceptance. */
  lemma {:induction false} PendingMeaning(log: Log, id: string)
    ensures id in Pending(log) <==> exists i: nat :: UnfinishedAt(log, id, i)
    ensures forall i: nat | UnfinishedAt(log, id, i) ::
      id in Pending(log) && Pending(log)[id] == PendingRequest(id, log[i].data, log[i].sequence)
  {
    if log != [] {
      var n := |log| - 1;
      var before := log[..n];
      PendingMeaning(before, id);
      if log[n].requestId == id && log[n].kind.RequestAccepted? {
        assert UnfinishedAt(log, id, n);
        assert forall i: nat | UnfinishedAt(log, id, i) :: i == n;
      } else if log[n].requestId == id && log[n].kind.RequestCompleted? {
        assert forall i: nat :: !UnfinishedAt(log, id, i);
      } else {
        assert forall i: nat :: UnfinishedAt(log, id, i) <==> UnfinishedAt(before, id, i);
      }
    }
  }

  /** Every unfinished chat request is an accepted one, so its id cannot be accepted again. */
  lemma {:induction false} PendingWasAccepted(log: Log, id: string)
    requires id in Pending(log) && id != ""
    ensures id in AcceptedIds(log)
  {
    PendingMeaning(log, id);
    var i: nat :| UnfinishedAt(log, id, i);
    AcceptedMeaning(log, id);
  }
}
