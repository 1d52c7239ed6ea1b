/** The turn table every conversation shares: who holds one of the `limit` Claude slots
    and who waits for one. Each function here is one critical section under the table's
    own lock, so a run is an arbitrary interleaving of them. */
module TurnTable {
  import opened Common

  datatype Turns = Turns(active: set<string>, queue: seq<string>)

  ghost predicate Distinct(q: seq<string>) {
    forall i, j | 0 <= i < j < |q| :: q[i] != q[j]
  }

  /** Slots are never oversubscribed, nobody both holds and awaits a slot, nobody waits
      twice, and somebody waits only while every slot is taken. */
  ghost predicate TableInv(t: Turns, limit: nat) {
    && Distinct(t.queue)
    && (forall i | 0 <= i < |t.queue| :: t.queue[i] !in t.active)
    && |t.active| <= limit
    && (t.queue != [] ==> |t.active| == limit)
  }

  /** claimTurn: already active, already queued, a free slot, or the end of the queue. */
  function Claim(t: Turns, limit: nat, id: string): (Turns, bool) {
    if id in t.active then (t, true)
    else if id in t.queue then (t, false)
    else if |t.active| < limit then (t.(active := t.active + {id}), true)
    else (t.(queue := t.queue + [id]), false)
  }

  /** The queue without the first entry for `id`. */
  function Drop(q: seq<string>, id: string): (r: seq<string>)
    ensures |r| <= |q|
  {
    if q == [] then [] else if q[0] == id then q[1..] else [q[0]] + Drop(q[1..], id)
  }

  /** One locked pass of the releaseTurn loop: `id` leaves the table and, when a slot is
      free, the head of the queue takes it. */
  function Release(t: Turns, limit: nat, id: string): (Turns, Option<string>) {
    var active := t.active - {id};
    var queue := Drop(t.queue, id);
    if queue == [] || |active| >= limit then (Turns(active, queue), None)
    else (Turns(active + {queue[0]}, queue[1..]), Some(queue[0]))
  }

  lemma {:induction false} DropKeeps(q: seq<string>, id: string)
    ensures forall x | x in Drop(q, id) :: x in q
    ensures forall x | x in q && x != id :: x in Drop(q, id)
    ensures id !in q ==> Drop(q, id) == q
  {
    if q != [] && q[0] != id {
      DropKeeps(q[1..], id);
    }
  }

  lemma {:induction false} DropMembers(q: seq<string>, id: string)
    requires Distinct(q)
    ensures Distinct(Drop(q, id)) && id !in Drop(q, id)
    ensures forall x :: x in Drop(q, id) <==> x in q && x != id
    ensures id !in q ==> Drop(q, id) == q
  {
    DropKeeps(q, id);
    if q != [] {
      assert q[0] !in q[1..];
      if q[0] != id {
        DropMembers(q[1..], id);
        DistinctCons(q[0], Drop(q[1..], id));
      }
    }
  }

  lemma DistinctCons(x: string, q: seq<string>)
    requires x !in q && Distinct(q)
    ensures Distinct([x] + q)
  {
  }

  lemma ClaimKeepsTable(t: Turns, limit: nat, id: string)
    requires TableInv(t, limit)
    ensures TableInv(Claim(t, limit, id).0, limit)
  {
  }

  lemma ReleaseKeepsTable(t: Turns, limit: nat, id: string)
    requires TableInv(t, limit)
    ensures TableInv(Release(t, limit, id).0, limit)
  {
    var queue := Drop(t.queue, id);
    DropMembers(t.queue, id);
    assert forall i | 0 <= i < |queue| :: queue[i] in t.queue;
    if t.queue != [] {
      assert |t.active - {id}| >= limit - 1;
    }
  }

  // ----- runs: any interleaving of critical sections -----

  datatype Section = ClaimBy(id: string) | ReleaseOf(id: string)

  function Advance(t: Turns, limit: nat, section: Section): Turns {
    match section
    case ClaimBy(id) => Claim(t, limit, id).0
    case ReleaseOf(id) => Release(t, limit, id).0
  }

  lemma AdvanceKeepsTable(t: Turns, limit: nat, section: Section)
    requires TableInv(t, limit)
    ensures TableInv(Advance(t, limit, section), limit)
  {
    match section
    case ClaimBy(id) => ClaimKeepsTable(t, limit, id);
    case ReleaseOf(id) => ReleaseKeepsTable(t, limit, id);
  }

  function Run(t: Turns, limit: nat, sections: seq<Section>): Turns
    decreases |sections|
  {
    if sections == [] then t else Run(Advance(t, limit, sections[0]), limit, sections[1..])
  }

  /** In every interleaving of claims and releases the table stays sound. */
  lemma {:induction false} RunKeepsTable(t: Turns, limit: nat, sections: seq<Section>)
    requires TableInv(t, limit)
    ensures TableInv(Run(t, limit, sections), limit)
    decreases |sections|
  {
    if sections != [] {
      AdvanceKeepsTable(t, limit, sections[0]);
      RunKeepsTable(Advance(t, limit, sections[0]), limit, sections[1..]);
    }
  }

  /** `id` is in the queue before, between and after all the given sections. */
  ghost predicate WaitsThrough(t: Turns, limit: nat, sections: seq<Section>, id: string)
    decreases |sections|
  {
    id in t.queue && (sections != [] ==> WaitsThrough(Advance(t, limit, sections[0]), limit, sections[1..], id))
  }

  /** How many conversations are ahead of `id` in the queue. */
  function Position(q: seq<string>, id: string): (p: nat)
    ensures p <= |q|
    ensures id in q ==> p < |q|
    ensures p < |q| ==> q[p] == id
  {
    if q == [] || q[0] == id then 0 else 1 + Position(q[1..], id)
  }

  /** `late` holds no slot and, if it is queued at all, stands behind `early`. */
  ghost predicate Behind(t: Turns, early: string, late: string) {
    && late != early
    && late !in t.active
    && (late in t.queue ==> Position(t.queue, early) < Position(t.queue, late))
  }

  lemma {:induction false} PositionAfterDrop(q: seq<string>, other: string, id: string)
    requires id in q && id != other
    ensures Position(Drop(q, other), id)
         == Position(q, id) - if other in q && Position(q, other) < Position(q, id) then 1 else 0
  {
    if q[0] != other && q[0] != id {
      PositionAfterDrop(q[1..], other, id);
      assert Drop(q, other)[1..] == Drop(q[1..], other);
    }
  }

  lemma {:induction false} PositionAfterJoin(q: seq<string>, other: string, id: string)
    requires other !in q
    ensures id in q ==> Position(q + [other], id) == Position(q, id)
    ensures Position(q + [other], other) == |q|
  {
    if q != [] {
      assert (q + [other])[1..] == q[1..] + [other];
      PositionAfterJoin(q[1..], other, id);
    }
  }

  /** A section never moves a waiter back, and moves it forward when it frees a slot. */
  lemma SectionMovesForward(t: Turns, limit: nat, section: Section, id: string)
    requires TableInv(t, limit) && id in t.queue && id in Advance(t, limit, section).queue
    ensures Position(Advance(t, limit, section).queue, id) + Freed(t, section) <= Position(t.queue, id)
  {
    match section {
      case ClaimBy(other) =>
        if other !in t.queue {
          PositionAfterJoin(t.queue, other, id);
        }
      case ReleaseOf(other) =>
        DropMembers(t.queue, other);
        PositionAfterDrop(t.queue, other, id);
        if other in t.active {
          assert |t.active - {other}| == limit - 1;
          assert other !in t.queue;
          assert id != t.queue[0] by {
            assert forall i | 0 <= i < |t.queue[1..]| :: t.queue[1..][i] == t.queue[i + 1];
          }
        } else {
          assert t.active - {other} == t.active;
        }
    }
  }

  /** A section never lets somebody behind a waiter gain a slot or pass it. */
  lemma SectionKeepsBehind(t: Turns, limit: nat, section: Section, early: string, late: string)
    requires TableInv(t, limit) && early in t.queue && early in Advance(t, limit, section).queue
    requires Behind(t, early, late)
    ensures Behind(Advance(t, limit, section), early, late)
  {
    match section {
      case ClaimBy(other) =>
        if other !in t.queue {
          PositionAfterJoin(t.queue, other, early);
          PositionAfterJoin(t.queue, other, late);
        }
      case ReleaseOf(other) =>
        ReleaseKeepsBehind(t, limit, other, early, late);
    }
  }

  lemma ReleaseKeepsBehind(t: Turns, limit: nat, other: string, early: string, late: string)
    requires TableInv(t, limit) && early in t.queue && early in Release(t, limit, other).0.queue
    requires Behind(t, early, late)
    ensures Behind(Release(t, limit, other).0, early, late)
  {
    var queue := Drop(t.queue, other);
    DropMembers(t.queue, other);
    PositionAfterDrop(t.queue, other, early);
    assert early in queue;
    if late in queue {
      PositionAfterDrop(t.queue, other, late);
      assert other in t.queue ==> Position(t.queue, other) != Position(t.queue, early);
    }
    assert Behind(Turns(t.active - {other}, queue), early, late);
    if |t.active - {other}| < limit {
      PromotionKeepsBehind(Turns(t.active - {other}, queue), early, late);
    }
  }

  lemma PromotionKeepsBehind(t: Turns, early: string, late: string)
    requires t.queue != [] && early in t.queue[1..] && Distinct(t.queue) && Behind(t, early, late)
    ensures Behind(Turns(t.active + {t.queue[0]}, t.queue[1..]), early, late)
  {
    assert late != t.queue[0];
  }

  /** First come, first served: while `early` keeps waiting, nobody behind it in the queue
      and nobody who had not even joined gets a slot. */
  lemma {:induction false} NoOvertaking(t: Turns, limit: nat, sections: seq<Section>, early: string, late: string)
    requires TableInv(t, limit) && WaitsThrough(t, limit, sections, early) && Behind(t, early, late)
    ensures Behind(Run(t, limit, sections), early, late)
    decreases |sections|
  {
    if sections != [] {
      var t' := Advance(t, limit, sections[0]);
      AdvanceKeepsTable(t, limit, sections[0]);
      assert WaitsThrough(t', limit, sections[1..], early);
      SectionKeepsBehind(t, limit, sections[0], early, late);
      NoOvertaking(t', limit, sections[1..], early, late);
    }
  }

  function Freed(t: Turns, section: Section): nat {
    if section.ReleaseOf? && section.id in t.active then 1 else 0
  }

  /** The slots given up by their holders during a run. */
  function SlotsFreed(t: Turns, limit: nat, sections: seq<Section>): nat
    decreases |sections|
  {
    if sections == [] then 0
    else Freed(t, sections[0]) + SlotsFreed(Advance(t, limit, sections[0]), limit, sections[1..])
  }

  /** Bounded waiting: a conversation cannot still be queued after more slots were given up
      than there were conversations ahead of it. */
  lemma {:induction false} BoundedWaiting(t: Turns, limit: nat, sections: seq<Section>, id: string)
    requires TableInv(t, limit) && WaitsThrough(t, limit, sections, id)
    ensures SlotsFreed(t, limit, sections) <= Position(t.queue, id)
    decreases |sections|
  {
    if sections != [] {
      var t' := Advance(t, limit, sections[0]);
      AdvanceKeepsTable(t, limit, sections[0]);
      assert WaitsThrough(t', limit, sections[1..], id);
      SectionMovesForward(t, limit, sections[0], id);
      BoundedWaiting(t', limit, sections[1..], id);
    }
  }
}
