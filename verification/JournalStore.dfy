/** The journal service: one append-only file per conversation, with an index that is
    loaded from the file the first time a conversation is touched. */
module JournalStore {
  import opened Common
  import opened JournalLog

  function Last(sequences: map<string, nat>, id: string): nat {
    if id in sequences then sequences[id] else 0
  }

  /** Every file is well formed and every loaded index equals the fold of its file. */
  ghost predicate Indexed(files: map<string, Log>, sequences: map<string, nat>, requestIds: map<string, set<string>>) {
    && (forall id | id in files :: WellFormed(files[id]))
    && (forall id | id in requestIds :: requestIds[id] == AcceptedIds(FileOf(files, id)))
    && (forall id | id in requestIds :: Last(sequences, id) == |FileOf(files, id)|)
    && (forall id | id in sequences :: id in requestIds)
  }

  /** Appending one event and the index update that goes with it keep the index exact. */
  lemma IndexFollowsAppend(files: map<string, Log>, sequences: map<string, nat>, requestIds: map<string, set<string>>,
                           id: string, event: Event)
    requires Indexed(files, sequences, requestIds) && id in requestIds
    requires WellFormed(FileOf(files, id) + [event])
    ensures Indexed(files[id := FileOf(files, id) + [event]],
                    sequences[id := Last(sequences, id) + 1],
                    if Accepts(event) then requestIds[id := requestIds[id] + {event.requestId}] else requestIds)
  {
    hide AcceptedIds, WellFormed;
    AcceptedAfter(FileOf(files, id), event);
  }

  class Journal {
    const maxEvent: nat
    var files: map<string, Log>
    var sequences: map<string, nat>
    var requestIds: map<string, set<string>>

    function SequenceOf(id: string): nat
      reads this
    {
      Last(sequences, id)
    }

    ghost predicate Valid()
      reads this
    {
      Indexed(files, sequences, requestIds)
    }

    /** Opens a journal over the files a previous process left; nothing is loaded yet. */
    constructor (files: map<string, Log>, maxEvent: nat)
      requires forall id | id in files :: WellFormed(files[id])
      ensures Valid() && this.files == files && this.maxEvent == maxEvent
    {
      this.maxEvent := maxEvent;
      this.files := files;
      sequences := map[];
      requestIds := map[];
    }

    method LoadIndex(id: string)
      requires Valid()
      modifies this`sequences, this`requestIds
      ensures Valid() && id in requestIds
      ensures requestIds[id] == AcceptedIds(FileOf(files, id)) && SequenceOf(id) == |FileOf(files, id)|
      ensures WellFormed(FileOf(files, id))
    {
      if id in requestIds {
        return;
      }
      var file := FileOf(files, id);
      var ids: set<string> := {};
      var last := SequenceOf(id);
      for i := 0 to |file|
        invariant ids == AcceptedIds(file[..i])
        invariant last == i
        modifies {}
      {
        assert file[..i + 1] == file[..i] + [file[i]];
        AcceptedAfter(file[..i], file[i]);
        if file[i].sequence > last {
          last := file[i].sequence;
        }
        if file[i].requestId != "" && Idempotency(file[i].kind) {
          ids := ids + {file[i].requestId};
        }
      }
      assert file[..|file|] == file;
      requestIds := requestIds[id := ids];
      if file != [] {
        sequences := sequences[id := last];
      }
    }

    /** Appends one event: the file grows by exactly the event the log itself calls for, or nothing changes. */
    method Append(id: string, kind: Kind, requestId: string, data: Bytes, disk: Disk)
      returns (r: Result<Event, JournalError>)
      requires Valid()
      modifies this`files, this`sequences, this`requestIds
      ensures Valid()
      ensures r == TryAppend(FileOf(old(files), id), id, kind, requestId, data, disk, maxEvent)
      ensures files == if r.Ok? then old(files)[id := FileOf(old(files), id) + [r.value]] else old(files)
    {
      hide Indexed, AcceptedIds, WellFormed;
      if !ValidEvent(id, kind, data, maxEvent) {
        return Err(InvalidEvent);
      }
      LoadIndex(id);
      if requestId != "" && Idempotency(kind) && requestId in requestIds[id] {
        return Err(DuplicateRequest);
      }
      var file := FileOf(files, id);
      if disk.Full? && file != [] && !kind.RequestCompleted? {
        return Err(JournalFull);
      }
      if disk.Broken? {
        return Err(IoFailure);
      }
      var event := Event(SequenceOf(id) + 1, kind, requestId, data);
      AppendKeepsWellFormed(file, id, kind, requestId, data, disk, maxEvent);
      Write(id, event);
      return Ok(event);
    }

    /** The synced write and the index update after it. */
    method Write(id: string, event: Event)
      requires Valid() && id in requestIds
      requires WellFormed(FileOf(files, id) + [event])
      requires event.sequence == SequenceOf(id) + 1
      modifies this`files, this`sequences, this`requestIds
      ensures Valid()
      ensures files == old(files)[id := FileOf(old(files), id) + [event]]
    {
      hide Indexed, AcceptedIds, WellFormed;
      var grown := files[id := FileOf(files, id) + [event]];
      var numbered := sequences[id := event.sequence];
      var indexed := if event.requestId != "" && Idempotency(event.kind)
        then requestIds[id := requestIds[id] + {event.requestId}] else requestIds;
      assert Indexed(grown, numbered, indexed) by {
        IndexFollowsAppend(files, sequences, requestIds, id, event);
      }
      files, sequences, requestIds := grown, numbered, indexed;
    }

    /** Idempotency survives restarts: the answer depends on the file alone. */
    method HasRequest(id: string, requestId: string) returns (has: bool)
      requires Valid()
      modifies this`sequences, this`requestIds
      ensures Valid()
      ensures has <==> requestId in AcceptedIds(FileOf(files, id))
    {
      if requestId == "" {
        AcceptedMeaning(FileOf(files, id), requestId);
        return false;
      }
      LoadIndex(id);
      return requestId in requestIds[id];
    }

    method LastSequence(id: string) returns (last: nat)
      requires Valid()
      modifies this`sequences, this`requestIds
      ensures Valid()
      ensures last == |FileOf(files, id)|
    {
      LoadIndex(id);
      return SequenceOf(id);
    }

    /** The decode loop reports exactly what the file leaves unfinished, also for a file nobody validated. */
    method PendingChatRequest(id: string) returns (r: Result<Option<PendingRequest>, JournalError>)
      ensures r == if SafeJournalId(id) then Recovered(FileOf(files, id)) else Err(InvalidId)
    {
      if !SafeJournalId(id) {
        return Err(InvalidId);
      }
      var file := FileOf(files, id);
      var pending: map<string, PendingRequest> := map[];
      for i := 0 to |file|
        invariant pending == Pending(file[..i])
      {
        var event := file[i];
        assert file[..i + 1][..i] == file[..i];
        match event.kind {
          case RequestAccepted =>
            pending := pending[event.requestId := PendingRequest(event.requestId, event.data, event.sequence)];
          case RequestCompleted =>
            pending := pending - {event.requestId};
          case _ =>
        }
      }
      assert file[..|file|] == file;
      if |pending| == 0 {
        return Ok(None);
      }
      if |pending| != 1 {
        return Err(MultipleUnfinished);
      }
      return Ok(Some(Only(pending)));
    }

    /** Deletes a conversation's file together with its index; `erased` is whether the disk lets it. */
    method Remove(id: string, erased: bool) returns (ok: bool)
      requires Valid()
      modifies this`files, this`sequences, this`requestIds
      ensures Valid()
      ensures ok == (SafeJournalId(id) && erased)
      ensures files == if ok then old(files) - {id} else old(files)
    {
      if !SafeJournalId(id) || !erased {
        return false;
      }
      files := files - {id};
      sequences := sequences - {id};
      requestIds := requestIds - {id};
      return true;
    }

    /** One page: the first `limit` events after a cursor (200 when the limit is out of range). */
    method Events(id: string, after: nat, limit: int) returns (r: Result<seq<Event>, JournalError>)
      requires Valid()
      ensures r == if !SafeJournalId(id) then Err(InvalidId)
        else Ok(Page(FileOf(files, id), after, if 1 <= limit <= 1000 then limit else 200))
    {
      if !SafeJournalId(id) {
        return Err(InvalidId);
      }
      var size := if 1 <= limit <= 1000 then limit else 200;
      var file := FileOf(files, id);
      var values: seq<Event> := [];
      var i := 0;
      while i < |file|
        invariant 0 <= i <= |file|
        invariant values == if i <= after then [] else file[after..i]
        invariant |values| < size
      {
        if file[i].sequence > after {
          values := values + [file[i]];
          assert values == file[after..i + 1];
          if |values| == size {
            return Ok(values);
          }
        }
        i := i + 1;
      }
      return Ok(values);
    }
  }

  /** The page a well-numbered file answers with: positions after..after+size, as far as they exist. */
  function Page(file: Log, after: nat, size: nat): (page: seq<Event>)
    ensures |page| <= size
  {
    if |file| <= after then [] else file[after..if after + size < |file| then after + size else |file|]
  }
}
