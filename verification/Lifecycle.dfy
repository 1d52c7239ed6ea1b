/** The user lifecycle webhook: at-least-once, unordered events applied to one user record. */
module Lifecycle {
  import opened Common

  datatype Kind = Created | Reactivated | Updated | Suspended | Deleted | Unknown

  datatype Status = Unset | Active | Inactive | Gone

  /** A decoded event about one user. Times are instants, 0 the zero time; `hash` digests the rest. */
  datatype Event = Event(id: string, kind: Kind, occurredAt: int, userIdValid: bool, hash: string,
                         externalSubject: string, organizationId: string, quota: Option<nat>)

  datatype User = User(id: string, externalSubject: string, organizationId: string, status: Status, quota: nat,
                       eventId: string, eventHash: string, occurredAt: int, version: int)

  datatype Reason = Invalid | FromTheFuture | Unsupported | OtherPayload | OtherTime | OtherType

  /** What the handler decides after reading the record: `Write` carries the value it wants stored. */
  datatype Decision = Refuse(reason: Reason) | Ignore | Repeat | Write(value: User)

  /** `skew` is the tolerance for clocks; a configured value of 0 or less means five minutes. */
  datatype Site = Site(userId: string, skew: int, defaultQuota: nat)

  const FIVE_MINUTES := 300

  function Tolerance(site: Site): int {
    if site.skew <= 0 then FIVE_MINUTES else site.skew
  }

  function StatusOf(k: Kind): Status {
    match k
    case Created => Active
    case Reactivated => Active
    case Suspended => Inactive
    case Deleted => Gone
    case Updated => Unset
    case Unknown => Unset
  }

  /** The event is well formed, not from the future and of a known kind. */
  predicate Acceptable(site: Site, e: Event, receivedAt: int) {
    && e.id != "" && e.occurredAt != 0 && e.userIdValid && e.kind != Unknown
    && e.occurredAt <= receivedAt + (if site.skew > 0 then site.skew else 300)
  }

  /** The record after an event that is neither stale nor a duplicate. */
  function Amended(site: Site, current: Option<User>, e: Event, status: Status): User {
    var base := if current.Some? then current.value else User(site.userId, "", "", Unset, 0, "", "", 0, 0);
    base.(status := status,
          eventId := e.id, eventHash := e.hash, occurredAt := e.occurredAt,
          externalSubject := if e.externalSubject != "" then e.externalSubject
                             else if base.externalSubject == "" then site.userId else base.externalSubject,
          organizationId := if e.organizationId != "" || current.None? then e.organizationId else base.organizationId,
          quota := if e.quota.Some? then e.quota.value else base.quota)
  }

  /** The status an event asks for: an update keeps what the user has. */
  function Wanted(current: Option<User>, e: Event): Status {
    if StatusOf(e.kind) != Unset then StatusOf(e.kind)
    else if current.Some? && current.value.status != Unset then current.value.status else Active
  }

  function Decide(site: Site, current: Option<User>, e: Event, receivedAt: int): Decision {
    if e.id == "" || e.occurredAt == 0 || !e.userIdValid then Refuse(Invalid)
    else if e.occurredAt > receivedAt + Tolerance(site) then Refuse(FromTheFuture)
    else if e.kind.Unknown? then Refuse(Unsupported)
    else if current.None? then Write(Amended(site, current, e, Wanted(current, e)))
    else
      var u := current.value;
      if u.eventId == e.id then
        if u.eventHash != "" && u.eventHash != e.hash then Refuse(OtherPayload)
        else if u.occurredAt != e.occurredAt then Refuse(OtherTime)
        else if Wanted(current, e) != u.status then Refuse(OtherType)
        else Repeat
      else if u.occurredAt != 0 && e.occurredAt <= u.occurredAt then Ignore
      else Write(Amended(site, current, e, Wanted(current, e)))
  }

  /** The store's compare-and-swap: the write lands only on the version the handler read. */
  function Put(site: Site, store: Option<User>, value: User, expected: int, ok: bool): Option<User> {
    if !ok || (if store.Some? then store.value.version != expected else expected != 0) then store
    else
      Some(value.(version := expected + 1,
                  quota := if store.None? && value.quota == 0 then site.defaultQuota else value.quota))
  }

  function VersionOf(u: Option<User>): int {
    if u.Some? then u.value.version else 0
  }

  // ----- one delivery at a time -----

  /** A delivery of an event; `stored` tells whether the store would accept a write. */
  datatype Delivery = Delivery(event: Event, receivedAt: int, stored: bool)

  function Delivered(site: Site, u: Option<User>, d: Delivery): Option<User> {
    match Decide(site, u, d.event, d.receivedAt)
    case Write(value) => Put(site, u, value, VersionOf(u), d.stored)
    case _ => u
  }

  function AllDelivered(site: Site, u: Option<User>, ds: seq<Delivery>): Option<User>
    decreases |ds|
  {
    if ds == [] then u else AllDelivered(site, Delivered(site, u, ds[0]), ds[1..])
  }

  /** The delivery could take effect. */
  predicate Effective(site: Site, d: Delivery) {
    Acceptable(site, d.event, d.receivedAt) && d.stored
  }

  ghost predicate Stamped(u: Option<User>, e: Event) {
    u.Some? && u.value.eventId == e.id && u.value.eventHash == e.hash && u.value.occurredAt == e.occurredAt
  }

  /** No effective delivery carries a later event than e, and only e itself carries its time. */
  ghost predicate LatestOf(site: Site, ds: seq<Delivery>, e: Event) {
    forall j | 0 <= j < |ds| && Effective(site, ds[j]) :: ds[j].event == e || ds[j].event.occurredAt < e.occurredAt
  }

  /** The record has a stamp older than e, or none at all. */
  ghost predicate OlderThan(u: Option<User>, e: Event) {
    u.Some? ==> u.value.eventId != e.id && (u.value.occurredAt != 0 ==> u.value.occurredAt < e.occurredAt)
  }

  /** The time of the last applied event never goes back, and stands still only if nothing changed. */
  lemma TimeNeverDecreases(site: Site, u: User, d: Delivery)
    requires u.occurredAt != 0
    ensures var after := Delivered(site, Some(u), d);
      after.Some? && (after == Some(u) || after.value.occurredAt > u.occurredAt)
  {
  }

  /** A redelivery of the event last applied never changes the record, whatever payload it carries. */
  lemma RedeliveryChangesNothing(site: Site, u: User, d: Delivery)
    requires d.event.id == u.eventId
    ensures Delivered(site, Some(u), d) == Some(u)
  {
  }

  /** An effective delivery of an event newer than the record stamps the record with it. */
  lemma NewerIsStored(site: Site, u: Option<User>, d: Delivery)
    requires Effective(site, d) && OlderThan(u, d.event)
    ensures var after := Delivered(site, u, d);
      Stamped(after, d.event) && after.value.status == Wanted(u, d.event) && after.value.version == VersionOf(u) + 1
  {
  }

  /** Deliveries older than e leave a record older than e. */
  lemma {:induction false} StaysOlder(site: Site, u: Option<User>, ds: seq<Delivery>, e: Event)
    requires OlderThan(u, e)
    requires forall j | 0 <= j < |ds| && Effective(site, ds[j]) ::
      ds[j].event.id != e.id && ds[j].event.occurredAt < e.occurredAt
    ensures OlderThan(AllDelivered(site, u, ds), e)
    decreases |ds|
  {
    if ds != [] {
      StaysOlder(site, Delivered(site, u, ds[0]), ds[1..], e);
    }
  }

  /** Only a well-formed event of a known type, newer than the record and not further in the future than
      clocks may differ (five minutes unless configured), changes the record, and only if it is stored. */
  lemma OnlyAcceptableApply(site: Site, u: Option<User>, d: Delivery)
    requires Delivered(site, u, d) != u
    ensures d.stored && d.event.id != "" && d.event.occurredAt != 0 && d.event.userIdValid
    ensures d.event.occurredAt <= d.receivedAt + if site.skew > 0 then site.skew else 300
    ensures d.event.kind != Unknown
    ensures u.Some? ==> u.value.eventId != d.event.id
    ensures u.Some? && u.value.occurredAt != 0 ==> d.event.occurredAt > u.value.occurredAt
  {
  }

  /** What an applied event leaves in the record: what it names it sets; what it leaves out stays, and in a
      new record the subject is the user's own id and the quota the default one. */
  lemma AppliedFields(site: Site, u: Option<User>, d: Delivery)
    requires Effective(site, d) && OlderThan(u, d.event)
    ensures var after := Delivered(site, u, d); after.Some? && var e, r := d.event, after.value;
      && r.id == (if u.Some? then u.value.id else site.userId)
      && (e.organizationId != "" || u.None? ==> r.organizationId == e.organizationId)
      && (e.organizationId == "" && u.Some? ==> r.organizationId == u.value.organizationId)
      && (e.externalSubject != "" ==> r.externalSubject == e.externalSubject)
      && (e.externalSubject == "" && u.Some? && u.value.externalSubject != "" ==>
            r.externalSubject == u.value.externalSubject)
      && (r.externalSubject == "" ==> site.userId == "")
      && (e.quota.Some? && (u.Some? || e.quota.value != 0) ==> r.quota == e.quota.value)
      && (e.quota.None? ==> r.quota == if u.Some? then u.value.quota else site.defaultQuota)
  {
  }

  /** A delivery that reuses the id last applied is refused exactly if its payload or its time is another one,
      or the status it asks for is not the one the record has. */
  lemma ReuseRefusedExactly(site: Site, u: User, d: Delivery)
    requires Acceptable(site, d.event, d.receivedAt) && d.event.id == u.eventId
    ensures Decide(site, Some(u), d.event, d.receivedAt).Refuse? <==>
      || (u.eventHash != "" && u.eventHash != d.event.hash)
      || u.occurredAt != d.event.occurredAt
      || (d.event.kind != Updated && u.status != StatusOf(d.event.kind))
      || (d.event.kind == Updated && u.status == Unset)
  {
  }

  /** Once the latest event is stamped, no delivery changes anything any more. */
  lemma {:induction false} LatestSettles(site: Site, u: Option<User>, ds: seq<Delivery>, e: Event)
    requires Stamped(u, e) && e.occurredAt != 0 && LatestOf(site, ds, e)
    ensures AllDelivered(site, u, ds) == u
    decreases |ds|
  {
    if ds != [] {
      assert Delivered(site, u, ds[0]) == u;
      LatestSettles(site, u, ds[1..], e);
    }
  }

  lemma {:induction false} DeliveredInParts(site: Site, u: Option<User>, before: seq<Delivery>, after: seq<Delivery>)
    ensures AllDelivered(site, u, before + after) == AllDelivered(site, AllDelivered(site, u, before), after)
    decreases |before|
  {
    if before == [] {
      assert before + after == after;
    } else {
      assert (before + after)[1..] == before[1..] + after;
      DeliveredInParts(site, Delivered(site, u, before[0]), before[1..], after);
    }
  }

  /** Whatever the order and the repetitions, the first effective delivery of the latest event fixes
      the record for good: its stamp, and the status it asked for at that moment. */
  lemma LatestWins(site: Site, u: Option<User>, ds: seq<Delivery>, i: nat)
    requires i < |ds| && Effective(site, ds[i]) && LatestOf(site, ds, ds[i].event) && OlderThan(u, ds[i].event)
    requires forall j | 0 <= j < i && Effective(site, ds[j]) :: ds[j].event != ds[i].event
    requires IdNames(site, ds, ds[i].event)
    ensures var end := AllDelivered(site, u, ds);
      && Stamped(end, ds[i].event)
      && end == AllDelivered(site, u, ds[..i + 1])
      && end.value.status == Wanted(AllDelivered(site, u, ds[..i]), ds[i].event)
  {
    hide Effective, Decide, Put;
    var e := ds[i].event;
    var before, middle := AllDelivered(site, u, ds[..i]), [ds[i]];
    StaysOlder(site, u, ds[..i], e);
    NewerIsStored(site, before, ds[i]);
    DeliveredInParts(site, u, ds[..i], middle);
    assert ds[..i] + middle == ds[..i + 1];
    assert AllDelivered(site, before, middle) == Delivered(site, before, ds[i]) by {
      assert middle[1..] == [];
    }
    assert e.occurredAt != 0 by {
      EffectiveHasTime(site, ds[i]);
    }
    DeliveredInParts(site, u, ds[..i + 1], ds[i + 1..]);
    assert ds[..i + 1] + ds[i + 1..] == ds;
    LatestSettles(site, AllDelivered(site, u, ds[..i + 1]), ds[i + 1..], e);
  }

  lemma EffectiveHasTime(site: Site, d: Delivery)
    requires Effective(site, d)
    ensures d.event.occurredAt != 0
  {
  }

  /** The earliest effective delivery of an event that is effectively delivered somewhere. */
  lemma {:induction false} FirstDelivery(site: Site, ds: seq<Delivery>, e: Event, k: nat) returns (i: nat)
    requires k < |ds| && Effective(site, ds[k]) && ds[k].event == e
    ensures i <= k && Effective(site, ds[i]) && ds[i].event == e
    ensures forall j | 0 <= j < i && Effective(site, ds[j]) :: ds[j].event != e
    decreases k
  {
    if j :| 0 <= j < k && Effective(site, ds[j]) && ds[j].event == e {
      i := FirstDelivery(site, ds, e, j);
    } else {
      i := k;
    }
  }

  ghost predicate Carries(site: Site, ds: seq<Delivery>, e: Event) {
    exists i | 0 <= i < |ds| :: Effective(site, ds[i]) && ds[i].event == e
  }

  /** An event id names one event. */
  ghost predicate IdNames(site: Site, ds: seq<Delivery>, e: Event) {
    forall j | 0 <= j < |ds| && Effective(site, ds[j]) && ds[j].event.id == e.id :: ds[j].event == e
  }

  /** Two histories of deliveries that share their latest event end with the same event id, hash and
      time, and, unless that event is an update, with the same status. */
  lemma OrderDoesNotMatter(site: Site, u: Option<User>, ds: seq<Delivery>, es: seq<Delivery>, e: Event)
    requires OlderThan(u, e)
    requires Carries(site, ds, e) && LatestOf(site, ds, e) && IdNames(site, ds, e)
    requires Carries(site, es, e) && LatestOf(site, es, e) && IdNames(site, es, e)
    ensures var a, b := AllDelivered(site, u, ds), AllDelivered(site, u, es);
      && Stamped(a, e) && Stamped(b, e)
      && (!e.kind.Updated? ==> a.value.status == b.value.status)
      && (e.kind == Created || e.kind == Reactivated ==> a.value.status == Active)
      && (e.kind == Suspended ==> a.value.status == Inactive)
      && (e.kind == Deleted ==> a.value.status == Gone)
  {
    hide Effective, AllDelivered;
    Ends(site, u, ds, e);
    Ends(site, u, es, e);
  }

  lemma Ends(site: Site, u: Option<User>, ds: seq<Delivery>, e: Event)
    requires OlderThan(u, e) && Carries(site, ds, e) && LatestOf(site, ds, e) && IdNames(site, ds, e)
    ensures Stamped(AllDelivered(site, u, ds), e)
    ensures !e.kind.Updated? ==> AllDelivered(site, u, ds).value.status == StatusOf(e.kind)
  {
    hide AllDelivered;
    var k :| 0 <= k < |ds| && Effective(site, ds[k]) && ds[k].event == e;
    var i := FirstDelivery(site, ds, e, k);
    LatestWins(site, u, ds, i);
  }

  // ----- when the latest event is an update -----

  function EndStatus(u: Option<User>): Status {
    if u.Some? then u.value.status else Unset
  }

  /** The deliveries that could take effect carry these events, each at least once, and no others. */
  ghost predicate CarriesExactly(site: Site, ds: seq<Delivery>, events: set<Event>) {
    forall x :: x in events <==> Carries(site, ds, x)
  }

  /** Well-formed events, each id naming one of them, also with respect to the event last applied to u. */
  ghost predicate Coherent(u: Option<User>, events: set<Event>) {
    && (forall x | x in events :: x.id != "" && x.occurredAt != 0 && x.userIdValid && !x.kind.Unknown?)
    && (forall x, y | x in events && y in events && x.id == y.id :: x == y)
    && (forall x | x in events && u.Some? && u.value.eventId == x.id :: u.value.occurredAt == x.occurredAt)
  }

  /** Every event that sets a status and could still be applied sets this one. */
  ghost predicate AllSet(u: Option<User>, events: set<Event>, status: Status) {
    forall x | x in events && StatusOf(x.kind) != Unset && OlderThan(u, x) :: StatusOf(x.kind) == status
  }

  /** One delivery of an event other than the update leaves what the update would find. */
  lemma StepKeepsWanted(site: Site, u: Option<User>, d: Delivery, events: set<Event>, e: Event)
    requires Coherent(u, events) && e.kind.Updated? && AllSet(u, events, Wanted(u, e))
    requires Effective(site, d) ==> d.event in events
    ensures var after := Delivered(site, u, d);
      Coherent(after, events) && Wanted(after, e) == Wanted(u, e) && AllSet(after, events, Wanted(u, e))
  {
    var after := Delivered(site, u, d);
    if after != u {
      assert Effective(site, d) && OlderThan(u, d.event) && Stamped(after, d.event);
      assert after.value.status == Wanted(u, d.event) == Wanted(u, e);
      forall x | x in events && OlderThan(after, x) ensures OlderThan(u, x) {
        assert x.occurredAt > d.event.occurredAt;
      }
    }
  }

  lemma {:induction false} KeepsWanted(site: Site, u: Option<User>, ds: seq<Delivery>, events: set<Event>, e: Event)
    requires Coherent(u, events) && e.kind.Updated? && AllSet(u, events, Wanted(u, e))
    requires forall j | 0 <= j < |ds| && Effective(site, ds[j]) :: ds[j].event in events
    ensures Wanted(AllDelivered(site, u, ds), e) == Wanted(u, e)
    decreases |ds|
  {
    hide Coherent, AllSet, Effective, Delivered, Wanted;
    if ds != [] {
      StepKeepsWanted(site, u, ds[0], events, e);
      KeepsWanted(site, Delivered(site, u, ds[0]), ds[1..], events, e);
    }
  }

  lemma EveryOrderAgrees(site: Site, u: Option<User>, ds: seq<Delivery>, events: set<Event>, e: Event)
    requires Coherent(u, events) && e.kind.Updated? && AllSet(u, events, Wanted(u, e))
    requires e in events && OlderThan(u, e) && forall x | x in events :: x == e || x.occurredAt < e.occurredAt
    requires CarriesExactly(site, ds, events)
    ensures EndStatus(AllDelivered(site, u, ds)) == Wanted(u, e)
  {
    hide AllSet, Effective, AllDelivered, Wanted;
    assert Carries(site, ds, e);
    var k :| 0 <= k < |ds| && Effective(site, ds[k]) && ds[k].event == e;
    var i := FirstDelivery(site, ds, e, k);
    forall j | 0 <= j < |ds| && Effective(site, ds[j]) ensures ds[j].event in events {
      assert Carries(site, ds, ds[j].event);
    }
    LatestWins(site, u, ds, i);
    KeepsWanted(site, u, ds[..i], events, e);
  }

  /** Every event delivered as soon as it occurs. */
  function Prompt(e: Event): Delivery {
    Delivery(e, e.occurredAt, true)
  }

  lemma {:induction false} SomeOrder(events: set<Event>) returns (order: seq<Event>)
    ensures forall x :: x in order <==> x in events
    decreases |events|
  {
    if events == {} {
      order := [];
    } else {
      var x :| x in events;
      var rest := SomeOrder(events - {x});
      order := [x] + rest;
    }
  }

  /** Some history that begins with the given deliveries and carries exactly the events. */
  lemma HistoryFrom(site: Site, u: Option<User>, first: seq<Delivery>, events: set<Event>) returns (ds: seq<Delivery>)
    requires Coherent(u, events)
    requires forall j | 0 <= j < |first| :: first[j].event in events
    ensures CarriesExactly(site, ds, events) && first <= ds
    ensures forall j | 0 <= j < |ds| :: ds[j].event in events
  {
    var order := SomeOrder(events);
    ds := first + seq(|order|, j requires 0 <= j < |order| => Prompt(order[j]));
    forall x | x in events ensures Carries(site, ds, x) {
      var j :| 0 <= j < |order| && order[j] == x;
      assert ds[|first| + j] == Prompt(x) && Effective(site, Prompt(x));
    }
  }

  /** The status a history that starts by delivering these ends with, once e is among them. */
  lemma EndsAfter(site: Site, u: Option<User>, first: seq<Delivery>, events: set<Event>, e: Event)
    returns (ds: seq<Delivery>)
    requires Coherent(u, events) && forall x | x in events :: x == e || x.occurredAt < e.occurredAt
    requires forall j | 0 <= j < |first| :: first[j].event in events
    requires e in events && Stamped(AllDelivered(site, u, first), e)
    ensures CarriesExactly(site, ds, events) && AllDelivered(site, u, ds) == AllDelivered(site, u, first)
  {
    hide AllDelivered, Effective;
    ds := HistoryFrom(site, u, first, events);
    var rest := ds[|first|..];
    assert ds == first + rest;
    DeliveredInParts(site, u, first, rest);
    LatestSettles(site, AllDelivered(site, u, first), rest, e);
  }

  /** An event that sets another status makes two orders disagree: the update before it or after it. */
  lemma OrdersDisagree(site: Site, u: Option<User>, events: set<Event>, e: Event, x: Event)
    returns (ds: seq<Delivery>, es: seq<Delivery>)
    requires Coherent(u, events) && e.kind.Updated? && e in events && x in events
    requires OlderThan(u, e) && forall y | y in events :: y == e || y.occurredAt < e.occurredAt
    requires StatusOf(x.kind) != Unset && OlderThan(u, x)
    ensures CarriesExactly(site, ds, events) && EndStatus(AllDelivered(site, u, ds)) == Wanted(u, e)
    ensures CarriesExactly(site, es, events) && EndStatus(AllDelivered(site, u, es)) == StatusOf(x.kind)
  {
    hide CarriesExactly, Decide, Put, Amended;
    var early, late := [Prompt(e)], [Prompt(x), Prompt(e)];
    var afterX := Delivered(site, u, Prompt(x));
    assert early[1..] == [] && late[1..] == early;
    assert AllDelivered(site, u, early) == Delivered(site, u, Prompt(e));
    assert AllDelivered(site, u, late) == AllDelivered(site, afterX, early) == Delivered(site, afterX, Prompt(e));
    NewerIsStored(site, u, Prompt(e));
    NewerIsStored(site, u, Prompt(x));
    NewerIsStored(site, afterX, Prompt(e));
    ds := EndsAfter(site, u, early, events, e);
    es := EndsAfter(site, u, late, events, e);
  }

  /** All histories that carry exactly these events, the latest of which is an update, end with the same
      status if and only if every other one that sets a status, and is not already too old for the record,
      sets the status the update would find at once. */
  lemma UpdateOrderExactly(site: Site, u: Option<User>, events: set<Event>, e: Event)
    requires Coherent(u, events) && e in events && e.kind.Updated? && OlderThan(u, e)
    requires forall x | x in events :: x == e || x.occurredAt < e.occurredAt
    ensures (forall ds, es | CarriesExactly(site, ds, events) && CarriesExactly(site, es, events) ::
               EndStatus(AllDelivered(site, u, ds)) == EndStatus(AllDelivered(site, u, es)))
      <==> AllSet(u, events, Wanted(u, e))
  {
    hide CarriesExactly, Coherent, AllDelivered, OlderThan, Wanted;
    if AllSet(u, events, Wanted(u, e)) {
      forall ds | CarriesExactly(site, ds, events) ensures EndStatus(AllDelivered(site, u, ds)) == Wanted(u, e) {
        EveryOrderAgrees(site, u, ds, events, e);
      }
    } else {
      var x :| x in events && StatusOf(x.kind) != Unset && OlderThan(u, x) && StatusOf(x.kind) != Wanted(u, e);
      var ds, es := OrdersDisagree(site, u, events, e, x);
    }
  }

  function Sample(id: string, kind: Kind, at: int): Delivery {
    Delivery(Event(id, kind, at, true, id, "", "", None), at, true)
  }

  /** With an update as the latest event the order does matter: the same three events end suspended
      in one order and active in another. */
  lemma UpdatesFreezeStatus(site: Site)
    ensures var c, s, p := Sample("c", Created, 1), Sample("s", Suspended, 2), Sample("p", Updated, 3);
      && AllDelivered(site, None, [c, s, p]).Some? && AllDelivered(site, None, [p, s, c]).Some?
      && AllDelivered(site, None, [c, s, p]).value.status == Inactive
      && AllDelivered(site, None, [p, s, c]).value.status == Active
  {
    var c, s, p := Sample("c", Created, 1), Sample("s", Suspended, 2), Sample("p", Updated, 3);
    Three(site, c, s, p);
    Three(site, p, s, c);
    DistinctIds();
  }

  lemma Three(site: Site, a: Delivery, b: Delivery, c: Delivery)
    ensures AllDelivered(site, None, [a, b, c]) == Delivered(site, Delivered(site, Delivered(site, None, a), b), c)
  {
    hide Delivered;
    var u := Delivered(site, None, a);
    assert [a, b, c][1..] == [b, c];
    assert [b, c][1..] == [c];
    assert [c][1..] == [];
    assert AllDelivered(site, u, [b, c]) == AllDelivered(site, Delivered(site, u, b), [c]);
    assert AllDelivered(site, Delivered(site, u, b), [c]) == Delivered(site, Delivered(site, u, b), c);
  }

  lemma DistinctIds()
    ensures "c" != "s" && "s" != "p" && "p" != "c" && "c" != "" && "s" != "" && "p" != ""
  {
    assert "c"[0] != "s"[0] && "s"[0] != "p"[0] && "p"[0] != "c"[0];
  }

  // ----- concurrent deliveries -----

  /** A handler that has read the record and not yet tried its write. */
  datatype Handler = Handler(event: Event, receivedAt: int, read: Option<User>)

  datatype Machine = Machine(user: Option<User>, handlers: seq<Handler>)

  datatype Step =
    | Read(event: Event, receivedAt: int)
    | TryWrite(handler: nat, stored: bool)

  function Stepped(site: Site, m: Machine, step: Step): Machine {
    match step
    case Read(e, at) => m.(handlers := m.handlers + [Handler(e, at, m.user)])
    case TryWrite(h, ok) =>
      if h >= |m.handlers| then m
      else
        match Decide(site, m.handlers[h].read, m.handlers[h].event, m.handlers[h].receivedAt)
        case Write(value) => m.(user := Put(site, m.user, value, VersionOf(m.handlers[h].read), ok))
        case _ => m
  }

  function Ran(site: Site, m: Machine, steps: seq<Step>): Machine
    decreases |steps|
  {
    if steps == [] then m else Ran(site, Stepped(site, m, steps[0]), steps[1..])
  }

  /** A record a handler has read is an older version, or the very record that is stored. */
  ghost predicate ReadsSound(m: Machine) {
    && (m.user.Some? ==> m.user.value.version > 0)
    && forall h | 0 <= h < |m.handlers| :: var read := m.handlers[h].read;
        VersionOf(read) <= VersionOf(m.user) && (VersionOf(read) == VersionOf(m.user) ==> read == m.user)
        && (read.Some? ==> read.value.version > 0)
  }

  /** The delivery a step amounts to: a write that lands acts as if it had read and written at once. */
  function Atomic(m: Machine, step: Step): seq<Delivery> {
    if step.TryWrite? && step.handler < |m.handlers| && m.handlers[step.handler].read == m.user
    then [Delivery(m.handlers[step.handler].event, m.handlers[step.handler].receivedAt, step.stored)]
    else []
  }

  function AtomicRun(site: Site, m: Machine, steps: seq<Step>): seq<Delivery>
    decreases |steps|
  {
    if steps == [] then [] else Atomic(m, steps[0]) + AtomicRun(site, Stepped(site, m, steps[0]), steps[1..])
  }

  lemma StepIsAtomic(site: Site, m: Machine, step: Step)
    requires ReadsSound(m)
    ensures ReadsSound(Stepped(site, m, step))
    ensures Stepped(site, m, step).user == AllDelivered(site, m.user, Atomic(m, step))
  {
    hide Amended, Wanted, Acceptable;
    var ds := Atomic(m, step);
    if ds != [] {
      assert ds[1..] == [];
      assert AllDelivered(site, m.user, ds) == Delivered(site, m.user, ds[0]);
    }
  }

  /** However concurrent handlers interleave, the record evolves as if a sequence of them had run one after another. */
  lemma {:induction false} InterleavingsAreSequential(site: Site, m: Machine, steps: seq<Step>)
    requires ReadsSound(m)
    ensures Ran(site, m, steps).user == AllDelivered(site, m.user, AtomicRun(site, m, steps))
    decreases |steps|
  {
    hide Stepped, ReadsSound, Atomic;
    if steps != [] {
      StepIsAtomic(site, m, steps[0]);
      var m' := Stepped(site, m, steps[0]);
      InterleavingsAreSequential(site, m', steps[1..]);
      DeliveredInParts(site, m.user, Atomic(m, steps[0]), AtomicRun(site, m', steps[1..]));
    }
  }

  // ----- the handler itself -----

  /** The comparison that decides whether a record needs storing. */
  predicate Changed(before: User, after: User) {
    || before.status != after.status || before.externalSubject != after.externalSubject
    || before.organizationId != after.organizationId || before.quota != after.quota
    || before.eventId != after.eventId || before.eventHash != after.eventHash || before.occurredAt != after.occurredAt
  }

  lemma AmendedIsChanged(site: Site, current: Option<User>, e: Event, status: Status)
    ensures current.Some? && current.value.eventId != e.id ==> Changed(current.value, Amended(site, current, e, status))
  {
  }

  class UserRecord {
    const site: Site
    var user: Option<User>

    constructor (site: Site, user: Option<User>)
      ensures this.site == site && this.user == user
    {
      this.site, this.user := site, user;
    }

    /** One delivery handled from reading to storing; `refused` is the reason of a 400 or 409 answer. */
    method Handle(event: Event, receivedAt: int, stored: bool) returns (refused: Option<Reason>)
      modifies this
      ensures user == Delivered(site, old(user), Delivery(event, receivedAt, stored))
      ensures var d := Decide(site, old(user), event, receivedAt);
        refused == if d.Refuse? then Some(d.reason) else None
    {
      hide Amended, Put;
      if event.id == "" || event.occurredAt == 0 || !event.userIdValid {
        return Some(Invalid);
      }
      var skew := site.skew;
      if skew <= 0 {
        skew := FIVE_MINUTES;
      }
      if event.occurredAt > receivedAt + skew {
        return Some(FromTheFuture);
      }
      var status := Unset;
      match event.kind {
        case Created => status := Active;
        case Reactivated => status := Active;
        case Updated =>
        case Suspended => status := Inactive;
        case Deleted => status := Gone;
        case Unknown => return Some(Unsupported);
      }
      var duplicate := user.Some? && user.value.eventId == event.id;
      if duplicate && user.value.eventHash != "" && user.value.eventHash != event.hash {
        return Some(OtherPayload);
      }
      if duplicate && user.value.occurredAt != event.occurredAt {
        return Some(OtherTime);
      }
      if user.Some? && !duplicate && user.value.occurredAt != 0 && event.occurredAt <= user.value.occurredAt {
        return None;
      }
      if status == Unset {
        status := if user.Some? && user.value.status != Unset then user.value.status else Active;
      }
      if duplicate && status != user.value.status {
        return Some(OtherType);
      }
      if !duplicate {
        var value := Amend(event, status);
        AmendedIsChanged(site, user, event, status);
        if user.None? || Changed(user.value, value) {
          user := Put(site, user, value, VersionOf(user), stored);
        }
      }
      return None;
    }

    /** The fields an accepted event changes, one after the other. */
    method Amend(event: Event, status: Status) returns (value: User)
      ensures value == Amended(site, user, event, status)
    {
      value := if user.Some? then user.value else User(site.userId, "", "", Unset, 0, "", "", 0, 0);
      value := value.(status := status, eventId := event.id, eventHash := event.hash, occurredAt := event.occurredAt);
      if event.externalSubject != "" {
        value := value.(externalSubject := event.externalSubject);
      } else if value.externalSubject == "" {
        value := value.(externalSubject := site.userId);
      }
      if event.organizationId != "" || user.None? {
        value := value.(organizationId := event.organizationId);
      }
      if event.quota.Some? {
        value := value.(quota := event.quota.value);
      }
    }
  }
}
