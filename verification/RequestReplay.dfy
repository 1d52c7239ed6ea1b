/** The client's replay cache: it recognises retried chat requests and keeps a bounded history of
    response frames. Its greedy eviction is proved equal to an offline choice over everything that
    ever completed. */
module RequestReplay {
  import opened Common

  const MaxRequests := 64
  const MaxActiveBytes := 0x100_0000
  const MaxRetainedBytes := 0x200_0000

  /** A completed request and the frames a retry is answered with. */
  datatype Entry = Entry(id: string, frames: seq<Bytes>)

  // ----- the offline specification -----

  function Size(entries: seq<Entry>): (n: nat) {
    if entries == [] then 0 else Total(entries[0].frames) + Size(entries[1..])
  }

  predicate Fits(entries: seq<Entry>) {
    |entries| <= MaxRequests && Size(entries) <= MaxRetainedBytes
  }

  /** Of everything that completed, in order, what is still retained. */
  function Retained(history: seq<Entry>): (kept: seq<Entry>) {
    if Fits(history) then history else Retained(history[1..])
  }

  lemma {:induction false} SizeAppend(a: seq<Entry>, b: seq<Entry>)
    ensures Size(a + b) == Size(a) + Size(b)
  {
    if a == [] {
      assert a + b == b;
    } else {
      SizeAppend(a[1..], b);
      assert (a + b)[1..] == a[1..] + b;
    }
  }

  /** The retained entries are the longest suffix of the completion order within both bounds. */
  lemma {:induction false} RetainedIsLongestSuffix(history: seq<Entry>) returns (k: nat)
    ensures k <= |history| && Retained(history) == history[k..] && Fits(history[k..])
    ensures forall j | 0 <= j < k :: !Fits(history[j..])
  {
    if Fits(history) {
      k := 0;
    } else {
      var k' := RetainedIsLongestSuffix(history[1..]);
      k := k' + 1;
      forall j | 0 <= j < k
        ensures !Fits(history[j..])
      {
        if j > 0 {
          assert history[1..][j - 1..] == history[j..];
        }
      }
    }
  }

  /** Evicting greedily after each completion never differs from choosing over the whole history. */
  lemma {:induction false} GreedyIsOffline(history: seq<Entry>, entry: Entry)
    ensures Retained(history + [entry]) == Retained(Retained(history) + [entry])
  {
    if !Fits(history) {
      SizeAppend(history, [entry]);
      assert (history + [entry])[1..] == history[1..] + [entry];
      GreedyIsOffline(history[1..], entry);
    }
  }

  /** The frames replayed while a request is active: the longest prefix within the byte bound. */
  function Replayable(observed: seq<Bytes>): (prefix: seq<Bytes>) {
    if Total(observed) <= MaxActiveBytes then observed else Replayable(observed[..|observed| - 1])
  }

  lemma {:induction false} ReplayableIsLongestPrefix(observed: seq<Bytes>) returns (k: nat)
    ensures k <= |observed| && Replayable(observed) == observed[..k] && Total(observed[..k]) <= MaxActiveBytes
    ensures forall j | k < j <= |observed| :: Total(observed[..j]) > MaxActiveBytes
  {
    if Total(observed) <= MaxActiveBytes {
      k := |observed|;
      assert observed[..k] == observed;
    } else {
      var before := observed[..|observed| - 1];
      k := ReplayableIsLongestPrefix(before);
      forall j | k < j <= |observed|
        ensures Total(observed[..j]) > MaxActiveBytes
      {
        if j == |observed| {
          assert observed[..j] == observed;
        } else {
          assert before[..j] == observed[..j];
        }
      }
      assert before[..k] == observed[..k];
    }
  }

  /** What a finished request is remembered by: its full stream, or just the terminal frame if that was too long. */
  function Outcome(observed: seq<Bytes>): seq<Bytes>
    requires observed != []
  {
    if Total(observed) <= MaxActiveBytes then observed else [observed[|observed| - 1]]
  }

  // ----- the cache as a machine over its whole past -----

  datatype Active = Active(id: string, observed: seq<Bytes>)

  datatype Cache = Cache(history: seq<Entry>, active: Option<Active>)

  function Ids(entries: seq<Entry>): (ids: seq<string>)
    ensures |ids| == |entries|
  {
    seq(|entries|, i requires 0 <= i < |entries| => entries[i].id)
  }

  /** The frames of the retained entry for `id`. */
  function Find(entries: seq<Entry>, id: string): Option<seq<Bytes>> {
    if entries == [] then None
    else if entries[0].id == id then Some(entries[0].frames)
    else Find(entries[1..], id)
  }

  datatype Answer = Answer(duplicate: bool, frames: seq<Bytes>)

  /** Begin: `requestId` is "" for a message that is not a chat with a usable id. */
  function Began(c: Cache, requestId: string): (Cache, Answer) {
    if requestId == "" then (c, Answer(false, []))
    else if Find(Retained(c.history), requestId).Some? then
      (c, Answer(true, Find(Retained(c.history), requestId).value))
    else if c.active.Some? && c.active.value.id == requestId then (c, Answer(true, Replayable(c.active.value.observed)))
    else if c.active.Some? then (c, Answer(false, []))
    else (c.(active := Some(Active(requestId, []))), Answer(false, []))
  }

  function Observed(c: Cache, raw: Bytes, terminal: bool): Cache {
    if c.active.None? then c
    else
      var observed := c.active.value.observed + [raw];
      if terminal then Cache(c.history + [Entry(c.active.value.id, Outcome(observed))], None)
      else c.(active := Some(c.active.value.(observed := observed)))
  }

  function Reset(c: Cache): Cache {
    c.(active := None)
  }

  /** The ids a retry of which is recognised. */
  ghost predicate Known(c: Cache, id: string) {
    id in Ids(Retained(c.history)) || (c.active.Some? && c.active.value.id == id)
  }

  ghost predicate Sound(c: Cache) {
    && (forall i | 0 <= i < |c.history| :: c.history[i].id != "")
    && (forall i, j | 0 <= i < j < |Retained(c.history)| :: Retained(c.history)[i].id != Retained(c.history)[j].id)
    && (c.active.Some? ==> c.active.value.id != "" && c.active.value.id !in Ids(Retained(c.history)))
  }

  lemma {:induction false} FindMeaning(entries: seq<Entry>, id: string)
    ensures Find(entries, id).Some? <==> id in Ids(entries)
  {
    if entries != [] {
      FindMeaning(entries[1..], id);
      assert Ids(entries) == [entries[0].id] + Ids(entries[1..]);
    }
  }

  datatype Op = Begin(id: string) | Observe(raw: Bytes, terminal: bool) | ResetActive

  function Do(c: Cache, op: Op): Cache {
    match op
    case Begin(id) => Began(c, id).0
    case Observe(raw, terminal) => Observed(c, raw, terminal)
    case ResetActive => Reset(c)
  }

  function DoAll(c: Cache, ops: seq<Op>): Cache
    decreases |ops|
  {
    if ops == [] then c else DoAll(Do(c, ops[0]), ops[1..])
  }

  /** Completing the active request keeps retained ids distinct. */
  lemma CompletionKeepsSound(c: Cache, entry: Entry)
    requires Sound(c) && c.active.Some? && c.active.value.id == entry.id
    ensures entry.id !in Ids(Retained(c.history)) && Sound(Cache(c.history + [entry], None))
  {
    GreedyIsOffline(c.history, entry);
    var kept := Retained(c.history) + [entry];
    var k := RetainedIsLongestSuffix(kept);
    forall i | 0 <= i < |Retained(c.history)|
      ensures kept[i].id != entry.id
    {
      assert Ids(Retained(c.history))[i] == kept[i].id;
    }
  }

  lemma ObservedKeepsSound(c: Cache, raw: Bytes, terminal: bool)
    requires Sound(c)
    ensures Sound(Observed(c, raw, terminal))
  {
    hide Retained;
    if c.active.Some? && terminal {
      CompletionKeepsSound(c, Entry(c.active.value.id, Outcome(c.active.value.observed + [raw])));
    }
  }

  lemma BeganKeepsSound(c: Cache, id: string)
    requires Sound(c)
    ensures Sound(Began(c, id).0)
  {
    FindMeaning(Retained(c.history), id);
  }

  lemma {:induction false} RunKeepsSound(c: Cache, ops: seq<Op>)
    requires Sound(c)
    ensures Sound(DoAll(c, ops))
    decreases |ops|
  {
    if ops != [] {
      match ops[0] {
        case Begin(id) => BeganKeepsSound(c, id);
        case Observe(raw, terminal) => ObservedKeepsSound(c, raw, terminal);
        case ResetActive =>
      }
      RunKeepsSound(Do(c, ops[0]), ops[1..]);
    }
  }

  /** Begin calls a request a duplicate exactly when its id is known. */
  lemma DuplicateMeansKnown(c: Cache, id: string)
    requires id != ""
    ensures Began(c, id).1.duplicate <==> Known(c, id)
  {
    FindMeaning(Retained(c.history), id);
  }

  /** A request answered "new" is remembered exactly when no other request was active: an overlapping
      one is let through again on every retry. */
  lemma RememberedUnlessBusy(c: Cache, id: string)
    requires id != "" && !Began(c, id).1.duplicate
    ensures Began(Began(c, id).0, id).1.duplicate <==> c.active.None?
  {
  }

  /** Once completed, and until evicted, a request is answered with its whole stream, or with exactly its
      terminal frame when the stream exceeded the bound. */
  lemma CompletedIsReplayed(c: Cache, raw: Bytes)
    requires Sound(c) && c.active.Some?
    requires c.active.value.id in Ids(Retained(Observed(c, raw, true).history))
    ensures Began(Observed(c, raw, true), c.active.value.id).1
         == Answer(true, Outcome(c.active.value.observed + [raw]))
  {
    var id := c.active.value.id;
    var c' := Observed(c, raw, true);
    ObservedKeepsSound(c, raw, true);
    var k := RetainedIsLongestSuffix(c'.history);
    var kept := Retained(c'.history);
    FindMeaning(kept, id);
    assert kept != [];
    FindLast(kept, id);
  }

  lemma {:induction false} FindLast(entries: seq<Entry>, id: string)
    requires entries != [] && entries[|entries| - 1].id == id
    requires forall i, j | 0 <= i < j < |entries| :: entries[i].id != entries[j].id
    ensures Find(entries, id) == Some(entries[|entries| - 1].frames)
  {
    if |entries| > 1 {
      FindLast(entries[1..], id);
    }
  }

  // ----- how long a request is remembered -----

  lemma {:induction false} SuffixFits(history: seq<Entry>, j: nat)
    requires j <= |history| && Fits(history)
    ensures Fits(history[j..])
  {
    SizeAppend(history[..j], history[j..]);
    assert history[..j] + history[j..] == history;
  }

  /** An entry is retained exactly while it and everything completed after it fit within both bounds. */
  lemma RetainedExactly(before: seq<Entry>, own: Entry, later: seq<Entry>)
    ensures Fits([own] + later) ==> own in Retained(before + [own] + later)
    ensures !Fits([own] + later) ==> |Retained(before + [own] + later)| <= |later|
    ensures |Retained(before + [own] + later)| <= |later| ==>
      Retained(before + [own] + later) == later[|later| - |Retained(before + [own] + later)|..]
  {
    var all := before + [own] + later;
    var k := RetainedIsLongestSuffix(all);
    assert all[|before|..] == [own] + later;
    if Fits([own] + later) {
      assert k <= |before|;
      assert all[k..][|before| - k] == own;
    }
    if k <= |before| {
      SuffixFits(all[k..], |before| - k);
      assert all[k..][|before| - k..] == all[|before|..];
    } else {
      assert all[k..] == later[k - |before| - 1..];
    }
  }

  lemma {:induction false} HistoryGrows(c: Cache, ops: seq<Op>)
    ensures c.history <= DoAll(c, ops).history
    decreases |ops|
  {
    if ops != [] {
      HistoryGrows(Do(c, ops[0]), ops[1..]);
    }
  }

  /** What completed during a run. */
  function Since(c: Cache, ops: seq<Op>): seq<Entry> {
    HistoryGrows(c, ops);
    DoAll(c, ops).history[|c.history|..]
  }

  lemma {:induction false} FindIn(entries: seq<Entry>, own: Entry)
    requires own in entries && forall i, j | 0 <= i < j < |entries| :: entries[i].id != entries[j].id
    ensures Find(entries, own.id) == Some(own.frames)
  {
    if entries[0] != own {
      var i :| 0 < i < |entries| && entries[i] == own;
      assert entries[1..][i - 1] == own;
      FindIn(entries[1..], own);
    }
  }

  /** A completed request is answered with what it is remembered by as long as it and all requests
      completed since are at most 64 and hold at most 32 MiB, whatever else happens; and unless it is
      taken up again, exactly that long. */
  lemma RemembersWhileItFits(c: Cache, ops: seq<Op>)
    requires Sound(c) && c.history != []
    ensures var own := c.history[|c.history| - 1]; var later := Since(c, ops); var end := DoAll(c, ops);
      var fits := |later| < 64 && Size([own] + later) <= 0x200_0000;
      && (fits ==> Began(end, own.id).1 == Answer(true, own.frames))
      && (own.id !in Ids(later) && !(end.active.Some? && end.active.value.id == own.id) ==>
            (Began(end, own.id).1.duplicate <==> fits))
  {
    hide Do, Retained, Size;
    var n := |c.history| - 1;
    var own, later, end := c.history[n], Since(c, ops), DoAll(c, ops);
    HistoryGrows(c, ops);
    RunKeepsSound(c, ops);
    assert end.history == c.history[..n] + [own] + later;
    RetainedExactly(c.history[..n], own, later);
    var kept := Retained(end.history);
    if Fits([own] + later) {
      FindIn(kept, own);
    } else {
      FindMeaning(kept, own.id);
      forall i | 0 <= i < |kept| ensures kept[i].id in Ids(later) {
        assert Ids(later)[|later| - |kept| + i] == kept[i].id;
      }
      if own.id in Ids(kept) {
        var i :| 0 <= i < |kept| && Ids(kept)[i] == own.id;
        assert kept[i].id in Ids(later);
      }
    }
  }

  /** No reset hits the request while it is active. */
  ghost predicate NeverReset(c: Cache, ops: seq<Op>, id: string)
    decreases |ops|
  {
    ops != [] ==>
      && !(ops[0].ResetActive? && c.active.Some? && c.active.value.id == id)
      && NeverReset(Do(c, ops[0]), ops[1..], id)
  }

  /** The active request stays active until it completes or is reset; if it completes, it is the next to do so. */
  lemma {:induction false} ActiveUntilDone(c: Cache, ops: seq<Op>, id: string)
    requires c.active.Some? && c.active.value.id == id && NeverReset(c, ops, id)
    ensures var later, end := Since(c, ops), DoAll(c, ops);
      if later == [] then end.active.Some? && end.active.value.id == id else later[0].id == id
    decreases |ops|
  {
    if ops != [] {
      var c' := Do(c, ops[0]);
      HistoryGrows(c', ops[1..]);
      if c'.history == c.history {
        ActiveUntilDone(c', ops[1..], id);
      } else {
        assert DoAll(c, ops).history[|c.history|] == c'.history[|c.history|];
      }
    }
  }

  /** Begin says "new" once per id: a request taken up is called a duplicate from then on, through any
      operations that do not reset it, while it is active and, once it has completed, as long as it and
      all requests completed since are at most 64 and hold at most 32 MiB. */
  lemma NewOncePerId(c: Cache, ops: seq<Op>, id: string)
    requires Sound(c) && c.active.Some? && c.active.value.id == id && NeverReset(c, ops, id)
    ensures Fits(Since(c, ops)) ==> Began(DoAll(c, ops), id).1.duplicate
  {
    hide Do, Retained, Fits;
    var later, end := Since(c, ops), DoAll(c, ops);
    ActiveUntilDone(c, ops, id);
    HistoryGrows(c, ops);
    RunKeepsSound(c, ops);
    if later == [] {
      DuplicateMeansKnown(end, id);
    } else if Fits(later) {
      assert end.history == c.history + [later[0]] + later[1..];
      assert later == [later[0]] + later[1..];
      RetainedExactly(c.history, later[0], later[1..]);
      FindIn(Retained(end.history), later[0]);
    }
  }

  /** A request whose process died before it finished is new again, and taken up again, when it is retried. */
  lemma ResetLetsItStartAgain(c: Cache, id: string)
    requires Sound(c) && c.active.Some? && c.active.value.id == id
    ensures !Began(Reset(c), id).1.duplicate && Began(Reset(c), id).0.active == Some(Active(id, []))
  {
    FindMeaning(Retained(c.history), id);
  }

  // ----- what a retry is answered with, told from the operations -----

  /** Neither resets nor completes anything. */
  predicate InProgress(ops: seq<Op>) {
    forall i | 0 <= i < |ops| :: ops[i].Begin? || (ops[i].Observe? && !ops[i].terminal)
  }

  /** The frames observed, in order. */
  function Raws(ops: seq<Op>): seq<Bytes> {
    if ops == [] then [] else (if ops[0].Observe? then [ops[0].raw] else []) + Raws(ops[1..])
  }

  lemma {:induction false} ProgressObserves(c: Cache, ops: seq<Op>)
    requires c.active.Some? && InProgress(ops)
    ensures DoAll(c, ops) == c.(active := Some(Active(c.active.value.id, c.active.value.observed + Raws(ops))))
    decreases |ops|
  {
    hide Retained, Find, Replayable;
    if ops == [] {
      assert c.active.value.observed + [] == c.active.value.observed;
    } else {
      var next := Do(c, ops[0]);
      ProgressObserves(next, ops[1..]);
      var own, seen := c.active.value.observed, if ops[0].Observe? then [ops[0].raw] else [];
      assert next == c.(active := Some(Active(c.active.value.id, own + seen))) by {
        assert own + [] == own;
      }
      assert (own + seen) + Raws(ops[1..]) == own + (seen + Raws(ops[1..]));
    }
  }

  /** The request is new and nothing else is active, so it is taken up. */
  ghost predicate TakenUp(c: Cache, id: string) {
    Sound(c) && id != "" && c.active.None? && !Began(c, id).1.duplicate
  }

  lemma TakenUpIsActive(c: Cache, id: string)
    requires TakenUp(c, id)
    ensures Began(c, id).0 == c.(active := Some(Active(id, [])))
    ensures Sound(Began(c, id).0) && Find(Retained(c.history), id).None?
  {
    BeganKeepsSound(c, id);
  }

  /** Until it completes or is reset, a request taken up is called a duplicate and answered with the longest
      prefix of the frames observed since that holds at most 16 MiB. */
  lemma ActiveIsReplayed(c: Cache, id: string, ops: seq<Op>)
    requires TakenUp(c, id) && InProgress(ops)
    ensures var answer := Began(DoAll(Began(c, id).0, ops), id).1; var raws := Raws(ops);
      && answer.duplicate && answer.frames <= raws && Total(answer.frames) <= 0x100_0000
      && forall j | |answer.frames| < j <= |raws| :: Total(raws[..j]) > 0x100_0000
  {
    hide Retained, Find, Replayable, Total, Sound;
    TakenUpIsActive(c, id);
    ProgressObserves(Began(c, id).0, ops);
    assert [] + Raws(ops) == Raws(ops);
    var k := ReplayableIsLongestPrefix(Raws(ops));
  }

  /** Once its terminal frame has come, it is answered with all its frames if they hold at most 16 MiB, and else
      with the terminal frame alone, which is kept if it holds at most 32 MiB. */
  lemma CompletedIsReplayedInFull(c: Cache, id: string, ops: seq<Op>, last: Bytes)
    requires TakenUp(c, id) && InProgress(ops) && |last| <= 0x200_0000
    ensures var done := DoAll(Began(c, id).0, ops + [Observe(last, true)]); var raws := Raws(ops) + [last];
      Began(done, id).1 == Answer(true, if Total(raws) <= 0x100_0000 then raws else [last])
  {
    hide Retained, Find, Sound;
    var start, end := Began(c, id).0, Observe(last, true);
    TakenUpIsActive(c, id);
    ProgressObserves(start, ops);
    DoInParts(start, ops, [end]);
    assert [end][1..] == [];
    assert [] + Raws(ops) == Raws(ops);
    var before := DoAll(start, ops);
    RunKeepsSound(start, ops);
    var own := Entry(id, Outcome(Raws(ops) + [last]));
    assert DoAll(start, ops + [end]) == Cache(c.history + [own], None);
    OneFits(own, last);
    RetainedExactly(c.history, own, []);
    assert c.history + [own] + [] == c.history + [own] && [own] + [] == [own];
    CompletedIsReplayed(before, last) by {
      OwnIsRetained(Retained(c.history + [own]), own);
    }
  }

  lemma {:induction false} DoInParts(c: Cache, a: seq<Op>, b: seq<Op>)
    ensures DoAll(c, a + b) == DoAll(DoAll(c, a), b)
    decreases |a|
  {
    hide Do;
    if a == [] {
      assert a + b == b;
    } else {
      assert (a + b)[1..] == a[1..] + b;
      DoInParts(Do(c, a[0]), a[1..], b);
    }
  }

  lemma OneFits(own: Entry, last: Bytes)
    requires Total(own.frames) <= 0x100_0000 || own.frames == [last]
    requires |last| <= 0x200_0000
    ensures Fits([own])
  {
    assert [own][1..] == [] && Size([]) == 0;
    assert [last][1..] == [] && Total([]) == 0;
  }

  lemma OwnIsRetained(kept: seq<Entry>, own: Entry)
    requires own in kept
    ensures own.id in Ids(kept)
  {
    var i :| 0 <= i < |kept| && kept[i] == own;
    assert Ids(kept)[i] == own.id;
  }

  // ----- the cache itself -----

  /** The retained entries as the map and the order list hold them. */
  ghost predicate Holds(entries: seq<Entry>, completed: map<string, seq<Bytes>>, order: seq<string>) {
    && order == Ids(entries)
    && (forall id | id in completed :: id in order)
    && (forall i | 0 <= i < |entries| :: entries[i].id in completed && completed[entries[i].id] == entries[i].frames)
    && (forall i, j | 0 <= i < j < |entries| :: entries[i].id != entries[j].id)
  }

  lemma HoldsFinds(entries: seq<Entry>, completed: map<string, seq<Bytes>>, order: seq<string>, id: string)
    requires Holds(entries, completed, order)
    ensures Find(entries, id) == if id in completed then Some(completed[id]) else None
  {
    FindMeaning(entries, id);
    if id in order {
      var i :| 0 <= i < |order| && order[i] == id;
      FindAt(entries, i);
    }
  }

  lemma {:induction false} FindAt(entries: seq<Entry>, i: nat)
    requires i < |entries| && forall j, k | 0 <= j < k < |entries| :: entries[j].id != entries[k].id
    ensures Find(entries, entries[i].id) == Some(entries[i].frames)
  {
    if i > 0 {
      FindAt(entries[1..], i - 1);
    }
  }

  /** Remembering one more completed request. */
  lemma HoldsMore(entries: seq<Entry>, completed: map<string, seq<Bytes>>, order: seq<string>, entry: Entry)
    requires Holds(entries, completed, order) && entry.id !in Ids(entries)
    ensures Holds(entries + [entry], completed[entry.id := entry.frames], order + [entry.id])
  {
    hide Find;
    assert forall i | 0 <= i < |entries| :: order[i] == entries[i].id;
  }

  /** Evicting the oldest one. */
  lemma HoldsLess(entries: seq<Entry>, completed: map<string, seq<Bytes>>, order: seq<string>)
    requires Holds(entries, completed, order) && entries != []
    ensures order[0] in completed && completed[order[0]] == entries[0].frames
    ensures Holds(entries[1..], completed - {order[0]}, order[1..])
  {
    var rest := entries[1..];
    assert order[0] == entries[0].id;
    assert order[1..] == Ids(rest);
    assert forall i | 0 <= i < |rest| :: rest[i] == entries[i + 1] && rest[i].id != order[0];
    forall id | id in completed - {order[0]}
      ensures id in order[1..]
    {
      var i :| 0 <= i < |order| && order[i] == id;
      assert order[1..][i - 1] == id;
    }
  }

  lemma {:induction false} ReplayableMore(observed: seq<Bytes>, raw: Bytes)
    ensures Total(observed + [raw]) == Total(observed) + |raw|
    ensures Total(observed) > MaxActiveBytes || Total(observed) + |raw| > MaxActiveBytes
      ==> Replayable(observed + [raw]) == Replayable(observed)
  {
    TotalAppend(observed, [raw]);
    assert (observed + [raw])[..|observed|] == observed;
  }

  /** The frames kept, or the terminal frame alone when they are not all of them, are the outcome. */
  lemma KeptIsOutcome(observed: seq<Bytes>)
    requires observed != []
    ensures Outcome(observed)
         == if Total(observed) > MaxActiveBytes then [observed[|observed| - 1]] else Replayable(observed)
  {
  }

  class ReplayBuffer {
    var activeId: string
    var activeFrames: seq<Bytes>
    var activeBytes: nat
    var activeTruncated: bool
    var completed: map<string, seq<Bytes>>
    var completedOrder: seq<string>
    var completedBytes: int
    ghost var history: seq<Entry>
    ghost var observed: seq<Bytes>

    /** The buffer as the machine over everything that ever happened to it. */
    ghost function Abstract(): Cache
      reads this
    {
      Cache(history, if activeId == "" then None else Some(Active(activeId, observed)))
    }

    ghost predicate Valid()
      reads this
    {
      && Holds(Retained(history), completed, completedOrder)
      && completedBytes == Size(Retained(history))
      && Sound(Abstract())
      && (activeId != "" ==>
            && activeFrames == Replayable(observed)
            && activeBytes == Total(activeFrames)
            && (activeTruncated <==> Total(observed) > MaxActiveBytes))
    }

    constructor ()
      ensures Valid() && Abstract() == Cache([], None)
    {
      activeId, activeFrames, activeBytes, activeTruncated := "", [], 0, false;
      completed, completedOrder, completedBytes := map[], [], 0;
      history, observed := [], [];
    }

    method Begin(requestId: string) returns (duplicate: bool, frames: seq<Bytes>)
      requires Valid()
      modifies this
      ensures Valid()
      ensures (Abstract(), Answer(duplicate, frames)) == Began(old(Abstract()), requestId)
    {
      if requestId == "" {
        return false, [];
      }
      HoldsFinds(Retained(history), completed, completedOrder, requestId);
      BeganKeepsSound(Abstract(), requestId);
      if requestId in completed {
        return true, completed[requestId];
      }
      if activeId == requestId {
        return true, activeFrames;
      }
      if activeId != "" {
        return false, [];
      }
      activeId, activeFrames, activeBytes, activeTruncated := requestId, [], 0, false;
      observed := [];
      return false, [];
    }

    /** Records one response frame; a terminal one completes the request and evicts greedily from the front. */
    method Observe(raw: Bytes, terminal: bool)
      requires Valid()
      modifies this
      ensures Valid()
      ensures Abstract() == Observed(old(Abstract()), raw, terminal)
    {
      if activeId == "" {
        return;
      }
      Buffer(raw);
      if !terminal {
        return;
      }
      Complete(raw);
    }

    method Buffer(raw: Bytes)
      requires Valid() && activeId != ""
      modifies this`activeFrames, this`activeBytes, this`activeTruncated, this`observed
      ensures Valid() && observed == old(observed) + [raw]
    {
      ReplayableMore(observed, raw);
      TotalAppend(activeFrames, [raw]);
      if !activeTruncated && activeBytes + |raw| <= MaxActiveBytes {
        activeFrames := activeFrames + [raw];
        activeBytes := activeBytes + |raw|;
      } else {
        activeTruncated := true;
      }
      observed := observed + [raw];
    }

    method Complete(raw: Bytes)
      requires Valid() && activeId != "" && observed != [] && observed[|observed| - 1] == raw
      modifies this
      ensures Valid()
      ensures Abstract() == Cache(old(history) + [Entry(old(activeId), Outcome(old(observed)))], None)
    {
      hide Retained, Total, Holds, Sound, Replayable, Outcome;
      KeptIsOutcome(observed);
      if activeTruncated {
        activeFrames := [raw];
      }
      CompletionKeepsSound(Abstract(), Entry(activeId, activeFrames));
      Archive(activeId, activeFrames);
      activeId, activeFrames, activeBytes, activeTruncated := "", [], 0, false;
      observed := [];
    }

    /** Remembers a completed request and evicts what no longer fits. */
    method Archive(id: string, frames: seq<Bytes>)
      requires Holds(Retained(history), completed, completedOrder) && completedBytes == Size(Retained(history))
      requires id !in Ids(Retained(history))
      modifies this`completed, this`completedOrder, this`completedBytes, this`history
      ensures history == old(history) + [Entry(id, frames)]
      ensures Holds(Retained(history), completed, completedOrder) && completedBytes == Size(Retained(history))
    {
      hide Retained, Total, Holds;
      ghost var entry := Entry(id, frames);
      GreedyIsOffline(history, entry);
      SizeAppend(Retained(history), [entry]);
      HoldsMore(Retained(history), completed, completedOrder, entry);
      completed := completed[id := frames];
      completedBytes := completedBytes + Total(frames);
      completedOrder := completedOrder + [id];
      Evict(Retained(history) + [entry]);
      history := history + [entry];
    }

    /** Drops the oldest requests until both bounds hold again; it never indexes an empty list. */
    method Evict(ghost entries: seq<Entry>)
      requires Holds(entries, completed, completedOrder) && completedBytes == Size(entries)
      modifies this`completed, this`completedOrder, this`completedBytes
      ensures Holds(Retained(entries), completed, completedOrder) && completedBytes == Size(Retained(entries))
    {
      ghost var left := entries;
      while |completedOrder| > MaxRequests || completedBytes > MaxRetainedBytes
        invariant Holds(left, completed, completedOrder) && completedBytes == Size(left)
        invariant Retained(left) == Retained(entries)
        decreases |completedOrder|
      {
        var oldest := completedOrder[0];
        HoldsLess(left, completed, completedOrder);
        completedBytes := completedBytes - Total(completed[oldest]);
        completed := completed - {oldest};
        completedOrder := completedOrder[1..];
        left := left[1..];
      }
    }

    method ResetActive()
      requires Valid()
      modifies this
      ensures Valid()
      ensures Abstract() == Reset(old(Abstract()))
    {
      activeId, activeFrames, activeBytes, activeTruncated := "", [], 0, false;
      observed := [];
    }
  }
}
