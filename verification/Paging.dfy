/** The two readers that page through a growing journal: the event stream's backlog and the usage reconciler. */
module Paging {
  import opened Common
  import opened JournalLog
  import opened JournalStore

  const BACKLOG_PAGE := 200
  const USAGE_PAGE := 1000

  /** One read of the journal: the file as it then was, or an error. */
  datatype Read = Sees(log: Log) | Fails

  /** The file only grows: whatever was read is a prefix of what it is in the end. */
  ghost predicate Snapshots(views: seq<Read>, end: Log) {
    Numbered(end) && forall i | 0 <= i < |views| && views[i].Sees? :: views[i].log <= end
  }

  /** The events after number `from` up to and including number `last`. */
  function Between(log: Log, from: nat, last: nat): seq<Event> {
    if from <= last <= |log| then log[from..last] else []
  }

  lemma PageIsBetween(log: Log, end: Log, after: nat, size: nat)
    requires log <= end && Numbered(end)
    ensures var page := Page(log, after, size);
      && (page != [] ==> page == Between(end, after, after + |page|) && after + |page| <= |log|)
      && (|page| < size ==> |log| <= after + |page|)
      && forall i | 0 <= i < |page| :: page[i].sequence == after + i + 1
  {
  }

  lemma BetweenJoins(log: Log, a: nat, b: nat, c: nat)
    requires a <= b <= c && (b > a ==> b <= |log|) && (c > b ==> c <= |log|)
    ensures Between(log, a, b) + Between(log, b, c) == Between(log, a, c)
  {
  }

  lemma NothingBetween(log: Log, a: nat)
    ensures Between(log, a, a) == []
  {
  }

  // ----- the backlog of an event stream -----

  datatype Ending = CaughtUp | Interrupted | StillReading

  /** Sends one page, up to the first write that fails. */
  method SendPage(page: seq<Event>, cursor: nat, room: nat) returns (after: nat, n: nat)
    requires forall i | 0 <= i < |page| :: page[i].sequence == cursor + i + 1
    ensures after == cursor + n && n == if room < |page| then room else |page|
  {
    after, n := cursor, 0;
    while n < |page|
      invariant n <= |page| && n <= room && after == cursor + n
    {
      if n == room {
        return;
      }
      after := page[n].sequence;
      n := n + 1;
    }
  }

  /** Sends page after page from the cursor until a page comes back short. `room` is how many events the
      client takes before the connection breaks. What was sent is a contiguous run that starts right
      after the cursor, whatever was appended between the pages. */
  method SendBacklog(views: seq<Read>, start: nat, room: nat, ghost end: Log)
    returns (after: nat, sent: seq<Event>, ending: Ending, used: nat)
    requires Snapshots(views, end)
    ensures after == start + |sent| && sent == Between(end, start, after) && |sent| <= room && used <= |views|
    ensures ending.CaughtUp? ==> used > 0 && views[used - 1].Sees? && |views[used - 1].log| <= after
    ensures ending.StillReading? ==> used == |views| && |sent| == BACKLOG_PAGE * |views|
    ensures ending.Interrupted? ==> |sent| == room || (used < |views| && views[used].Fails?)
  {
    hide Between, Page;
    after, sent, used := start, [], 0;
    NothingBetween(end, start);
    while used < |views|
      invariant used <= |views|
      invariant after == start + |sent| && sent == Between(end, start, after) && |sent| <= room
      invariant |sent| == BACKLOG_PAGE * used
    {
      if views[used].Fails? {
        return after, sent, Interrupted, used;
      }
      var page := Page(views[used].log, after, BACKLOG_PAGE);
      PageIsBetween(views[used].log, end, after, BACKLOG_PAGE);
      var cursor, n := SendPage(page, after, room - |sent|);
      RunGrows(end, start, after, page, n);
      sent, after := sent + page[..n], cursor;
      if n < |page| {
        return after, sent, Interrupted, used;
      }
      used := used + 1;
      if |page| < BACKLOG_PAGE {
        return after, sent, CaughtUp, used;
      }
    }
    ending := StillReading;
  }

  /** A part of a page extends the run before it. */
  lemma RunGrows(end: Log, start: nat, cursor: nat, page: seq<Event>, n: nat)
    requires start <= cursor && n <= |page|
    requires page != [] ==> page == Between(end, cursor, cursor + |page|) && cursor + |page| <= |end|
    ensures Between(end, start, cursor) + page[..n] == Between(end, start, cursor + n)
  {
    if n > 0 {
      assert page[..n] == Between(end, cursor, cursor + n);
      BetweenJoins(end, start, cursor, cursor + n);
    }
  }

  /** A client that reconnects where it stopped gets one contiguous run over both connections. */
  lemma ReconnectLosesNothing(end: Log, start: nat, first: seq<Event>, second: seq<Event>)
    requires Numbered(end)
    requires first == Between(end, start, start + |first|)
    requires second == Between(end, start + |first|, start + |first| + |second|)
    ensures var all := first + second;
      all == Between(end, start, start + |all|)
      && forall i | 0 <= i < |all| :: all[i].sequence == start + i + 1
  {
    BetweenJoins(end, start, start + |first|, start + |first| + |second|);
  }

  // ----- the usage reconciler -----

  /** The usage events of a log, in order. */
  function Usages(log: Log): seq<Event> {
    if log == [] then []
    else
      var last := log[|log| - 1];
      Usages(log[..|log| - 1]) + if last.kind.Usage? then [last] else []
  }

  /** The usage events of a log are recorded exactly, in order and once each, up to the cursor. */
  ghost predicate RecordedUpTo(log: Log, cursor: nat, recorded: seq<Event>) {
    cursor <= |log| && recorded == Usages(log[..cursor])
  }

  lemma RecordedFurther(log: Log, cursor: nat)
    requires cursor < |log|
    ensures Usages(log[..cursor + 1]) == Usages(log[..cursor]) + if log[cursor].kind.Usage? then [log[cursor]] else []
  {
    assert log[..cursor + 1][..cursor] == log[..cursor];
  }

  lemma RecordedInLonger(log: Log, longer: Log, cursor: nat, recorded: seq<Event>)
    requires RecordedUpTo(log, cursor, recorded) && log <= longer
    ensures RecordedUpTo(longer, cursor, recorded)
  {
    assert log[..cursor] == longer[..cursor];
  }

  /** No usage event at or before the cursor is unrecorded, and none is recorded that is not there. */
  lemma {:induction false} UsagesMeaning(log: Log, event: Event)
    ensures event in Usages(log) <==> event in log && event.kind.Usage?
  {
    if log != [] {
      var n := |log| - 1;
      UsagesMeaning(log[..n], event);
      assert log == log[..n] + [log[n]];
    }
  }

  /** A usage event at or before the cursor has been recorded; one after it has not, in a numbered log. */
  lemma CursorSeparates(log: Log, cursor: nat, recorded: seq<Event>, i: nat)
    requires RecordedUpTo(log, cursor, recorded) && Numbered(log) && i < |log| && log[i].kind.Usage?
    ensures log[i] in recorded <==> i < cursor
  {
    UsagesMeaning(log[..cursor], log[i]);
    if i < cursor {
      assert log[..cursor][i] == log[i];
    }
  }

  /** One pass over one conversation: what its reads of the file show and which attempts the ledger takes. */
  datatype Job = Job(id: string, views: seq<Read>, accepts: nat -> bool)

  /** A pass that was not interrupted by a failing read or a refused record has left the cursor at or behind the
      end of a file it read, or has read only full pages. */
  ghost predicate GotFar(job: Job, ending: Ending, cursor: nat) {
    match ending
    case CaughtUp => exists u | 0 <= u < |job.views| :: job.views[u].Sees? && |job.views[u].log| <= cursor
    case StillReading => USAGE_PAGE * |job.views| <= cursor
    case Interrupted => (exists u | 0 <= u < |job.views| :: job.views[u].Fails?) || exists i: nat :: !job.accepts(i)
  }

  lemma GotFarther(job: Job, ending: Ending, before: nat, after: nat)
    requires GotFar(job, ending, before) && before <= after
    ensures GotFar(job, ending, after)
  {
  }

  lemma PassGotFar(job: Job, ending: Ending, used: nat, attempts: nat, cursor: nat)
    requires ending.CaughtUp? ==>
      0 < used <= |job.views| && job.views[used - 1].Sees? && |job.views[used - 1].log| <= cursor
    requires ending.StillReading? ==> USAGE_PAGE * |job.views| <= cursor
    requires ending.Interrupted? ==>
      (used < |job.views| && job.views[used].Fails?) || (attempts > 0 && !job.accepts(attempts - 1))
    ensures GotFar(job, ending, cursor)
  {
  }

  /** Files are only appended to. */
  ghost predicate GrowsTo(before: map<string, Log>, after: map<string, Log>) {
    forall id :: FileOf(before, id) <= FileOf(after, id)
  }

  ghost predicate Growing(files: seq<map<string, Log>>) {
    forall j, k | 0 <= j <= k < |files| :: GrowsTo(files[j], files[k])
  }

  /** The worker's memory: a cursor for each conversation, and in a ghost field what the ledger took. */
  class UsageReconciler {
    var cursors: map<string, nat>
    ghost var ledger: map<string, seq<Event>>

    function Cursor(id: string): nat
      reads this
    {
      if id in cursors then cursors[id] else 0
    }

    ghost function Recorded(id: string): seq<Event>
      reads this
    {
      if id in ledger then ledger[id] else []
    }

    constructor ()
      ensures cursors == map[] && ledger == map[]
    {
      cursors, ledger := map[], map[];
    }

    /** Nothing about the other conversations changes. */
    twostate predicate OnlyTouches(id: string)
      reads this
    {
      forall other | other != id :: Cursor(other) == old(Cursor(other)) && Recorded(other) == old(Recorded(other))
    }

    /** The events of one page, up to the first usage event the ledger does not take. */
    method RecordPage(id: string, page: seq<Event>, accepts: nat -> bool, before: nat, ghost end: Log)
      returns (ok: bool, attempts: nat)
      requires RecordedUpTo(end, Cursor(id), Recorded(id)) && Numbered(end)
      requires Cursor(id) + |page| <= |end| && page == end[Cursor(id)..Cursor(id) + |page|]
      modifies this
      ensures RecordedUpTo(end, Cursor(id), Recorded(id)) && OnlyTouches(id)
      ensures attempts == before + |Recorded(id)| - |old(Recorded(id))| + if ok then 0 else 1
      ensures forall i | before <= i < before + |Recorded(id)| - |old(Recorded(id))| :: accepts(i)
      ensures ok ==> Cursor(id) == old(Cursor(id)) + |page|
      ensures !ok ==>
        && old(Cursor(id)) <= Cursor(id) < |end| && end[Cursor(id)].kind.Usage?
        && attempts > 0 && !accepts(attempts - 1)
    {
      hide Usages;
      attempts := before;
      for i := 0 to |page|
        invariant Cursor(id) == old(Cursor(id)) + i
        invariant attempts == before + |Recorded(id)| - |old(Recorded(id))|
        invariant forall i | before <= i < attempts :: accepts(i)
        invariant RecordedUpTo(end, Cursor(id), Recorded(id)) && OnlyTouches(id)
      {
        assert page[i] == end[Cursor(id)];
        RecordedFurther(end, Cursor(id));
        if page[i].kind.Usage? {
          attempts := attempts + 1;
          if !accepts(attempts - 1) {
            return false, attempts;
          }
          ledger := ledger[id := Recorded(id) + [page[i]]];
        }
        cursors := cursors[id := page[i].sequence];
      }
      ok := true;
    }

    /** The pass over one conversation. `accepts` says which attempts, counted within the pass, the
        ledger takes. The cursor never passes a usage event that was not recorded, and reaches the end of
        the last file read when nothing fails. */
    method Reconcile(id: string, views: seq<Read>, accepts: nat -> bool, ghost end: Log)
      returns (ending: Ending, used: nat, attempts: nat)
      requires Snapshots(views, end)
      requires RecordedUpTo(end, Cursor(id), Recorded(id))
      modifies this
      ensures RecordedUpTo(end, Cursor(id), Recorded(id)) && OnlyTouches(id)
      ensures Cursor(id) >= old(Cursor(id)) && used <= |views|
      ensures |Recorded(id)| >= |old(Recorded(id))|
      ensures forall i | 0 <= i < |Recorded(id)| - |old(Recorded(id))| :: accepts(i)
      ensures attempts == |Recorded(id)| - |old(Recorded(id))|
        || (ending.Interrupted? && attempts == |Recorded(id)| - |old(Recorded(id))| + 1)
      ensures ending.CaughtUp? ==> used > 0 && views[used - 1].Sees? && |views[used - 1].log| <= Cursor(id)
      ensures ending.StillReading? ==> used == |views| && Cursor(id) == old(Cursor(id)) + USAGE_PAGE * |views|
      ensures ending.Interrupted? && !(used < |views| && views[used].Fails?) ==>
        Cursor(id) < |end| && end[Cursor(id)].kind.Usage? && attempts > 0 && !accepts(attempts - 1)
    {
      hide RecordedUpTo, Page, Numbered;
      used, attempts := 0, 0;
      while used < |views|
        invariant used <= |views|
        invariant RecordedUpTo(end, Cursor(id), Recorded(id)) && OnlyTouches(id)
        invariant Cursor(id) == old(Cursor(id)) + USAGE_PAGE * used
        invariant attempts == |Recorded(id)| - |old(Recorded(id))|
        invariant forall i | 0 <= i < attempts :: accepts(i)
      {
        if views[used].Fails? {
          return Interrupted, used, attempts;
        }
        var page := Page(views[used].log, Cursor(id), USAGE_PAGE);
        PageIsBetween(views[used].log, end, Cursor(id), USAGE_PAGE);
        if page == [] {
          return CaughtUp, used + 1, attempts;
        }
        var ok;
        ok, attempts := RecordPage(id, page, accepts, attempts, end);
        if !ok {
          return Interrupted, used, attempts;
        }
        used := used + 1;
        if |page| < USAGE_PAGE {
          return CaughtUp, used, attempts;
        }
      }
      ending := StillReading;
    }

    /** Every conversation's recorded usage events are exactly those up to its cursor. */
    ghost predicate AllRecorded(files: map<string, Log>)
      reads this
    {
      forall id :: RecordedUpTo(FileOf(files, id), Cursor(id), Recorded(id))
    }

    /** No cursor has gone back. */
    twostate predicate Forward()
      reads this
    {
      forall id :: Cursor(id) >= old(Cursor(id))
    }

    /** One pass, and how far it got; afterwards the files may have grown. */
    method Pass(job: Job, ghost files: map<string, Log>, ghost later: map<string, Log>) returns (ending: Ending)
      requires AllRecorded(files) && GrowsTo(files, later) && Snapshots(job.views, FileOf(files, job.id))
      modifies this
      ensures AllRecorded(later) && Forward() && GotFar(job, ending, Cursor(job.id))
    {
      hide RecordedUpTo, Snapshots, GotFar, FileOf;
      var used, attempts;
      ending, used, attempts := Reconcile(job.id, job.views, job.accepts, FileOf(files, job.id));
      forall id ensures RecordedUpTo(FileOf(later, id), Cursor(id), Recorded(id)) {
        RecordedInLonger(FileOf(files, id), FileOf(later, id), Cursor(id), Recorded(id));
      }
      PassGotFar(job, ending, used, attempts, Cursor(job.id));
    }

    /** The passes of the worker, conversation after conversation and tick after tick, while the files keep
        growing. Through all of them each conversation's recorded usage events are exactly those up to
        its cursor, no cursor ever goes back, and every pass got as far as reads and ledger let it. */
    method Work(jobs: seq<Job>, ghost files: seq<map<string, Log>>) returns (endings: seq<Ending>)
      requires |files| == |jobs| + 1 && Growing(files)
      requires forall k | 0 <= k < |jobs| :: Snapshots(jobs[k].views, FileOf(files[k], jobs[k].id))
      requires AllRecorded(files[0])
      modifies this
      ensures AllRecorded(files[|jobs|]) && Forward()
      ensures |endings| == |jobs| && forall k | 0 <= k < |jobs| :: GotFar(jobs[k], endings[k], Cursor(jobs[k].id))
    {
      hide Snapshots, GotFar, FileOf, GrowsTo, AllRecorded;
      endings := [];
      for k := 0 to |jobs|
        invariant AllRecorded(files[k]) && Forward()
        invariant |endings| == k && forall j | 0 <= j < k :: GotFar(jobs[j], endings[j], Cursor(jobs[j].id))
      {
        label pass:
        var ending := Pass(jobs[k], files[k], files[k + 1]);
        forall j | 0 <= j < k ensures GotFar(jobs[j], endings[j], Cursor(jobs[j].id)) {
          GotFarther(jobs[j], endings[j], old@pass(Cursor(jobs[j].id)), Cursor(jobs[j].id));
        }
        endings := endings + [ending];
      }
    }
  }
}
