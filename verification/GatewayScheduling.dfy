/** The promotion loop as a run of critical sections, gateway runs as runs of the turn table, and the two
    windows between critical sections in which a conversation can lose its place. */
module GatewayScheduling {
  import opened Common
  import opened JournalLog
  import opened TurnTable
  import opened GatewayState
  import opened GatewayInvariant
  import opened GatewaySteps
  import opened GatewayRuns

  /** The locked passes the releaseTurn loop makes over the turn table: one for `id` and one for
      every stale conversation it promoted by mistake. */
  function ReleaseSections(s: State, id: string): seq<Section>
    decreases |s.queue|
  {
    var (t, next) := Release(s.Table(), s.limit, id);
    if next.None? || Live(s.peers, next.value) then [ReleaseOf(id)]
    else [ReleaseOf(id)] + ReleaseSections(s.(active := t.active, queue := t.queue), next.value)
  }

  /** What one pass that promotes somebody leaves in the table. */
  lemma PromotingPass(t: Turns, limit: nat, id: string)
    requires TableInv(t, limit) && Release(t, limit, id).1.Some?
    ensures var (t', next) := Release(t, limit, id);
      && Drop(t.queue, id) == [next.value] + t'.queue
      && Drop(t'.queue, next.value) == t'.queue
      && t'.active - {next.value} == t.active - {id}
      && |t.active - {id}| < limit
  {
    hide Distinct, Drop;
    var queue := Drop(t.queue, id);
    DropMembers(t.queue, id);
    assert queue[0] in t.queue && queue[0] !in t.active;
    DistinctTail(queue);
    DropMembers(queue[1..], queue[0]);
  }

  lemma DistinctTail(q: seq<string>)
    requires q != [] && Distinct(q)
    ensures Distinct(q[1..]) && q[0] !in q[1..]
  {
  }

  /** Having promoted a stale conversation, the loop still has the same result to reach. */
  lemma StalePass(s: State, id: string)
    requires TableInv(s.Table(), s.limit)
    ensures var (t, next) := Release(s.Table(), s.limit, id);
      next.Some? && !Live(s.peers, next.value) ==>
        Released(s.(active := t.active, queue := t.queue), next.value) == Released(s, id)
  {
    hide TableInv, Drop;
    var (t, next) := Release(s.Table(), s.limit, id);
    if next.Some? && !Live(s.peers, next.value) {
      PromotingPass(s.Table(), s.limit, id);
      SkipStale(s.(active := s.active - {id}), next.value, t.queue);
    }
  }

  lemma SkipStale(s: State, stale: string, rest: seq<string>)
    requires !Live(s.peers, stale) && |s.active| < s.limit
    ensures Promoted(s.(queue := [stale] + rest)) == Promoted(s.(queue := rest))
  {
    var k := FirstLive(s.peers, rest);
    assert ([stale] + rest)[1..] == rest;
    assert FirstLive(s.peers, [stale] + rest) == k + 1;
    if k < |rest| {
      assert ([stale] + rest)[k + 2..] == rest[k + 1..];
    }
  }

  /** The loop ends as soon as it promoted a live conversation or found nobody to promote. */
  lemma LastPass(s: State, id: string)
    ensures var (t, next) := Release(s.Table(), s.limit, id);
      && (next.None? ==> Released(s, id) == s.(active := t.active, queue := t.queue))
      && (next.Some? && Live(s.peers, next.value) ==>
            Released(s, id) == s.With(next.value, s.peers[next.value].(lease := true, wake := true))
                                .(active := t.active, queue := t.queue))
  {
    hide Drop;
  }

  /** releaseTurn is a finite run of table sections, so everything proved about runs of the turn
      table (soundness, first come first served, bounded waiting) holds of it. */
  lemma {:induction false} ReleaseIsARun(s: State, id: string)
    requires TableInv(s.Table(), s.limit)
    ensures Run(s.Table(), s.limit, ReleaseSections(s, id)) == Released(s, id).Table()
    ensures TableInv(Released(s, id).Table(), s.limit)
    decreases |s.queue|
  {
    hide TableInv, Drop, Released;
    var (t, next) := Release(s.Table(), s.limit, id);
    ReleaseKeepsTable(s.Table(), s.limit, id);
    if next.None? || Live(s.peers, next.value) {
      LastPass(s, id);
      assert Run(s.Table(), s.limit, [ReleaseOf(id)]) == t;
    } else {
      StalePass(s, id);
      var s' := s.(active := t.active, queue := t.queue);
      ReleaseIsARun(s', next.value);
      assert ReleaseSections(s, id)[1..] == ReleaseSections(s', next.value);
    }
  }

  // ----- gateway runs are table runs -----

  /** The sections by which ensuring a conversation acts on the turn table. */
  function EnsureSections(s: State, id: string): seq<Section> {
    if Lookup(s, id).Ok? && id !in s.peers && Lookup(s, id).value.Some? then [ClaimBy(id)] else []
  }

  function SendSections(s: State, id: string, requestId: string, message: Message, env: SendEnv): seq<Section> {
    if requestId == "" || |requestId| > MaxRequestId || EnsureRefusal(s, id, env).Some? then []
    else
      var outcome := SendDecision(Ensured(s, id), id, requestId, message, env);
      EnsureSections(s, id) + if outcome.Accepted? && message.Chat? then [ClaimBy(id)] else []
  }

  function CompleteSections(s: State, id: string, marker: Bytes, disk: Disk): seq<Section>
    requires id in s.peers
  {
    var p := s.peers[id];
    var r := TryAppend(s.LogOf(id), id, RequestCompleted, p.activeChat, marker, disk, s.maxEvent);
    if p.activeChat != "" && r.Ok? && p.lease then ReleaseSections(Idled(s, id, r.value), id) else []
  }

  function ReceiveSections(s: State, id: string, frame: Frame, env: FrameEnv): seq<Section>
    requires id in s.peers && s.peers[id].link.Up?
  {
    var reported := if frame.kind.HostStatus? then HostReported(s, id, frame.connected, env.wrote) else s;
    if reported.peers[id].link.Down? || !Terminal(frame.kind) then []
    else CompleteSections(Recorded(reported, id, frame, env.disk), id, env.marker, env.finishDisk)
  }

  function CloseSections(s: State, id: string): seq<Section> {
    if id in s.peers && s.peers[id].activeChat != "" then ReleaseSections(Unpublished(s, id), id) else []
  }

  /** The critical sections of the turn table one action consists of. */
  function TableSections(s: State, a: Action): seq<Section> {
    match a
    case Ensure(id) => EnsureSections(s, id)
    case Send(id, requestId, message, env) => SendSections(s, id, requestId, message, env)
    case Receive(id, frame, env) => if Linked(s, id) then ReceiveSections(s, id, frame, env) else []
    case Close(id) => CloseSections(s, id)
    case Remove(id, _) => CloseSections(s, id)
    case _ => []
  }

  /** Claims only, or releases only. */
  predicate OneKind(sections: seq<Section>) {
    || (forall i | 0 <= i < |sections| :: sections[i].ClaimBy?)
    || (forall i | 0 <= i < |sections| :: sections[i].ReleaseOf?)
  }

  /** These sections turn the table of s into that of t, and nothing else changes the limit. */
  ghost predicate Acts(s: State, t: State, sections: seq<Section>) {
    t.Table() == Run(s.Table(), s.limit, sections) && t.limit == s.limit && OneKind(sections)
  }

  lemma {:induction false} ReleaseSectionsRelease(s: State, id: string)
    ensures forall i | 0 <= i < |ReleaseSections(s, id)| :: ReleaseSections(s, id)[i].ReleaseOf?
    decreases |s.queue|
  {
    hide Drop;
    var (t, next) := Release(s.Table(), s.limit, id);
    if next.Some? && !Live(s.peers, next.value) {
      ReleaseSectionsRelease(s.(active := t.active, queue := t.queue), next.value);
    }
  }

  lemma ReleasedActs(s: State, before: State, id: string)
    requires TableInv(before.Table(), before.limit) && s.Table() == before.Table() && s.limit == before.limit
    ensures Acts(before, Released(s, id), ReleaseSections(s, id))
  {
    hide TableInv, Released, ReleaseSections, Run;
    ReleaseIsARun(s, id);
    ReleaseSectionsRelease(s, id);
    ReleasedFrame(s, id);
  }

  lemma CompletedActs(s: State, id: string, marker: Bytes, disk: Disk)
    requires TableInv(s.Table(), s.limit) && id in s.peers
    ensures Acts(s, Completed(s, id, marker, disk).0, CompleteSections(s, id, marker, disk))
  {
    hide TableInv, Released, ReleaseSections, TryAppend;
    var r := TryAppend(s.LogOf(id), id, RequestCompleted, s.peers[id].activeChat, marker, disk, s.maxEvent);
    if r.Ok? {
      ReleasedActs(Idled(s, id, r.value), s, id);
    }
  }

  lemma FinishedTable(s: State, id: string, marker: Bytes, disk: Disk)
    requires Linked(s, id)
    ensures Finished(s, id, marker, disk).Table() == Completed(s, id, marker, disk).0.Table()
    ensures Finished(s, id, marker, disk).limit == Completed(s, id, marker, disk).0.limit
  {
    hide Completed;
  }

  lemma ReceivedActs(s: State, id: string, frame: Frame, env: FrameEnv)
    requires TableInv(s.Table(), s.limit) && Linked(s, id)
    ensures Acts(s, Received(s, id, frame, env), ReceiveSections(s, id, frame, env))
  {
    hide TableInv, TryAppend, Stamped, Finished, Completed, CompleteSections;
    var reported := if frame.kind.HostStatus? then HostReported(s, id, frame.connected, env.wrote) else s;
    assert reported.Table() == s.Table() && reported.limit == s.limit;
    if reported.peers[id].link.Up? && Terminal(frame.kind) {
      var recorded := Recorded(reported, id, frame, env.disk);
      assert recorded.Table() == s.Table() && recorded.limit == s.limit;
      CompletedActs(recorded, id, env.marker, env.finishDisk);
      FinishedTable(recorded, id, env.marker, env.finishDisk);
    }
  }

  lemma ClosedActs(s: State, id: string)
    requires TableInv(s.Table(), s.limit)
    ensures Acts(s, Closed(s, id), CloseSections(s, id))
  {
    hide TableInv, Released, ReleaseSections;
    ReleasedActs(Unpublished(s, id), s, id);
  }

  lemma EnsuredActs(s: State, id: string)
    ensures Acts(s, Ensured(s, id), EnsureSections(s, id))
  {
    hide Lookup, Claim;
    OneClaim(s.Table(), s.limit, id);
  }

  lemma OneClaim(t: Turns, limit: nat, id: string)
    ensures Run(t, limit, [ClaimBy(id)]) == Claim(t, limit, id).0
  {
    hide Claim;
    assert [ClaimBy(id)][1..] == [];
  }

  lemma SentActs(s: State, id: string, requestId: string, message: Message, env: SendEnv)
    ensures Acts(s, Sent(s, id, requestId, message, env).0, SendSections(s, id, requestId, message, env))
  {
    hide Lookup, Claim, SendDecision, Ensured, EnsureSections;
    if requestId != "" && |requestId| <= MaxRequestId && EnsureRefusal(s, id, env).None? {
      var ready := Ensured(s, id);
      EnsuredActs(s, id);
      EnsuredPublishes(s, id);
      EnsureSectionsShape(s, id);
      OneClaim(ready.Table(), s.limit, id);
      RunInParts(s.Table(), s.limit, EnsureSections(s, id), [ClaimBy(id)]);
      assert EnsureSections(s, id) + [] == EnsureSections(s, id);
      var outcome := SendDecision(ready, id, requestId, message, env);
      if outcome.Accepted? {
        TookTable(ready, id, requestId, message, outcome.event);
      }
    }
  }

  lemma EnsureSectionsShape(s: State, id: string)
    ensures EnsureSections(s, id) == [] || EnsureSections(s, id) == [ClaimBy(id)]
  {
  }

  lemma TookTable(s: State, id: string, requestId: string, message: Message, event: Event)
    requires id in s.peers
    ensures var t := Took(s, id, requestId, message, event);
      t.limit == s.limit && t.Table() == if message.Chat? then Claim(s.Table(), s.limit, id).0 else s.Table()
  {
    hide Claim;
  }

  /** Every action but a crash acts on the turn table by a few critical sections of one kind. */
  lemma NextActs(s: State, a: Action)
    requires TableInv(s.Table(), s.limit) && !a.Crash?
    ensures Acts(s, Next(s, a), TableSections(s, a))
  {
    hide TableInv, Received, ReceiveSections, Sent, SendSections, Closed, CloseSections, Ensured, EnsureSections;
    hide ChatWritten, TryAppend;
    match a {
      case Ensure(id) => EnsuredActs(s, id);
      case Send(id, requestId, message, env) => SentActs(s, id, requestId, message, env);
      case Receive(id, frame, env) => if Linked(s, id) { ReceivedActs(s, id, frame, env); }
      case Wake(id, wrote) => if Linked(s, id) && s.peers[id].wake { WokenTable(s, id, wrote); }
      case Close(id) => ClosedActs(s, id);
      case Remove(id, _) => ClosedActs(s, id);
      case _ =>
    }
  }

  lemma WokenTable(s: State, id: string, wrote: bool)
    requires Linked(s, id)
    ensures Woken(s, id, wrote).Table() == s.Table() && Woken(s, id, wrote).limit == s.limit
  {
  }

  function AllSections(s: State, actions: seq<Action>): seq<Section>
    decreases |actions|
  {
    if actions == [] then [] else TableSections(s, actions[0]) + AllSections(Next(s, actions[0]), actions[1..])
  }

  /** The conversation is in the queue before, between and after the actions. */
  ghost predicate KeepsWaiting(s: State, actions: seq<Action>, id: string)
    decreases |actions|
  {
    id in s.queue && (actions != [] ==> KeepsWaiting(Next(s, actions[0]), actions[1..], id))
  }

  lemma {:induction false} RunInParts(t: Turns, limit: nat, a: seq<Section>, b: seq<Section>)
    ensures Run(t, limit, a + b) == Run(Run(t, limit, a), limit, b)
    decreases |a|
  {
    hide Advance;
    if a == [] {
      assert a + b == b;
    } else {
      assert (a + b)[1..] == a[1..] + b;
      RunInParts(Advance(t, limit, a[0]), limit, a[1..], b);
    }
  }

  lemma {:induction false} WaitsInParts(t: Turns, limit: nat, a: seq<Section>, b: seq<Section>, id: string)
    requires WaitsThrough(t, limit, a, id) && WaitsThrough(Run(t, limit, a), limit, b, id)
    ensures WaitsThrough(t, limit, a + b, id)
    decreases |a|
  {
    hide Advance;
    if a == [] {
      assert a + b == b;
    } else {
      assert (a + b)[1..] == a[1..] + b;
      WaitsInParts(Advance(t, limit, a[0]), limit, a[1..], b, id);
    }
  }

  /** Releases add nobody to the queue, and claims take nobody out of it. */
  lemma {:induction false} QueueOneWay(t: Turns, limit: nat, sections: seq<Section>, id: string)
    requires OneKind(sections) && id in t.queue && id in Run(t, limit, sections).queue
    ensures WaitsThrough(t, limit, sections, id)
    decreases |sections|
  {
    hide Advance;
    if sections != [] {
      var t' := Advance(t, limit, sections[0]);
      if sections[0].ClaimBy? {
        ClaimOneWay(t, limit, sections[0].id, id);
      } else if id !in t'.queue {
        ReleasesOneWay(t', limit, sections[1..], id);
      }
      QueueOneWay(t', limit, sections[1..], id);
    }
  }

  lemma ClaimOneWay(t: Turns, limit: nat, claimer: string, id: string)
    ensures id in t.queue ==> id in Advance(t, limit, ClaimBy(claimer)).queue
  {
  }

  lemma {:induction false} ReleasesOneWay(t: Turns, limit: nat, sections: seq<Section>, id: string)
    requires id !in t.queue && forall i | 0 <= i < |sections| :: sections[i].ReleaseOf?
    ensures id !in Run(t, limit, sections).queue
    decreases |sections|
  {
    hide Drop;
    if sections != [] {
      DropKeeps(t.queue, sections[0].id);
      ReleasesOneWay(Advance(t, limit, sections[0]), limit, sections[1..], id);
    }
  }

  lemma KeepsWaitingOn(s: State, actions: seq<Action>, id: string)
    requires actions != [] && KeepsWaiting(s, actions, id)
    ensures id in s.queue && KeepsWaiting(Next(s, actions[0]), actions[1..], id) && id in Next(s, actions[0]).queue
  {
    hide Next;
    var rest := actions[1..];
    assert KeepsWaiting(Next(s, actions[0]), rest, id);
  }

  /** A run of the gateway without a crash is a run of its turn table, and whoever keeps waiting between
      the actions keeps waiting between the sections too. */
  lemma {:induction false} GatewayRunIsTableRun(s: State, actions: seq<Action>)
    requires Inv(s) && AllGenuine(s, actions) && Crash !in actions
    ensures RunAll(s, actions).Table() == Run(s.Table(), s.limit, AllSections(s, actions))
    ensures forall id | KeepsWaiting(s, actions, id) :: WaitsThrough(s.Table(), s.limit, AllSections(s, actions), id)
    decreases |actions|
  {
    hide Next, TableSections, TableInv, Coupled, Local, Advance;
    if actions != [] {
      var s' := Next(s, actions[0]);
      NextKeeps(s, actions[0]);
      NextActs(s, actions[0]);
      GatewayRunIsTableRun(s', actions[1..]);
      RunInParts(s.Table(), s.limit, TableSections(s, actions[0]), AllSections(s', actions[1..]));
      forall id | KeepsWaiting(s, actions, id)
        ensures WaitsThrough(s.Table(), s.limit, AllSections(s, actions), id)
      {
        KeepsWaitingOn(s, actions, id);
        QueueOneWay(s.Table(), s.limit, TableSections(s, actions[0]), id);
        WaitsInParts(s.Table(), s.limit, TableSections(s, actions[0]), AllSections(s', actions[1..]), id);
      }
    }
  }

  /** First come, first served, over any actions of the gateway: while a conversation keeps waiting, nobody
      behind it and nobody who joins later gets a slot, and at most as many slots are given up as there
      were conversations ahead of it. */
  lemma FirstComeFirstServed(s: State, actions: seq<Action>, early: string, late: string)
    requires Inv(s) && AllGenuine(s, actions) && Crash !in actions
    requires KeepsWaiting(s, actions, early) && Behind(s.Table(), early, late)
    ensures late !in RunAll(s, actions).active && Behind(RunAll(s, actions).Table(), early, late)
    ensures SlotsFreed(s.Table(), s.limit, AllSections(s, actions)) <= Position(s.queue, early)
  {
    hide Next, AllSections, TableInv, Coupled, Local;
    GatewayRunIsTableRun(s, actions);
    NoOvertaking(s.Table(), s.limit, AllSections(s, actions), early, late);
    BoundedWaiting(s.Table(), s.limit, AllSections(s, actions), early);
  }

  /** Taking the turn of a live peer away leaves it with neither a slot nor a place in the queue. */
  lemma LiveWithoutPlace(s: State, id: string)
    requires TableInv(s.Table(), s.limit) && Live(s.peers, id)
    ensures !Coupled(Released(s, id))
  {
    var after := Released(s, id);
    DropMembers(s.queue, id);
    assert id !in after.active && id !in after.queue;
    assert Live(after.peers, id);
  }

  // ----- the two windows -----

  /** What somebody else may do to a conversation between two critical sections. */
  datatype Meanwhile = Ensuring | Sending(requestId: string, message: Message, env: SendEnv)

  function Operated(s: State, id: string, op: Meanwhile): State {
    match op
    case Ensuring => Ensured(s, id)
    case Sending(requestId, message, env) => Sent(s, id, requestId, message, env).0
  }

  /** Any number of such operations, one after the other. */
  function InWindow(s: State, id: string, ops: seq<Meanwhile>): State
    decreases |ops|
  {
    if ops == [] then s else InWindow(Operated(s, id, ops[0]), id, ops[1..])
  }

  /** A conversation being changed: table sound, everybody else's slot and lease agree, its journal sound if
      it has no peer, and its peer, if any, without a lease unless it is live. */
  ghost predicate Changing(s: State, id: string) {
    && TableInv(s.Table(), s.limit) && CoupledBut(s, id)
    && (id !in s.peers ==> LogInv(s.LogOf(id)))
    && (id in s.peers && !Live(s.peers, id) ==> !s.peers[id].lease)
  }

  /** A claim concerns nobody else's slot or place. */
  lemma ClaimConcerns(t: Turns, limit: nat, id: string)
    requires TableInv(t, limit)
    ensures var t' := Claim(t, limit, id).0;
      TableInv(t', limit) && forall other | other != id ::
        (other in t'.active <==> other in t.active) && (other in t.queue ==> other in t'.queue)
  {
    hide TableInv;
    ClaimKeepsTable(t, limit, id);
  }

  /** What happened concerns no other conversation. */
  lemma ElsewhereAgrees(s: State, t: State, id: string)
    requires CoupledBut(s, id)
    requires t.peers.Keys + {id} == s.peers.Keys + {id}
    requires forall other | other in s.peers && other != id :: t.peers[other] == s.peers[other]
    requires forall other | other != id ::
      (other in t.active <==> other in s.active) && (other in s.queue ==> other in t.queue)
    ensures CoupledBut(t, id)
  {
  }

  lemma EnsuredChanges(s: State, id: string)
    requires Changing(s, id)
    ensures Changing(Ensured(s, id), id)
  {
    hide TableInv, LogInv, Recovered, CoupledBut, Claim;
    if id !in s.peers {
      RecoveryFindsTheTurn(s.LogOf(id));
    }
    ClaimConcerns(s.Table(), s.limit, id);
    ElsewhereAgrees(s, Ensured(s, id), id);
  }

  lemma TookChanges(s: State, id: string, requestId: string, message: Message, event: Event)
    requires Changing(s, id) && id in s.peers && requestId != ""
    ensures Changing(Took(s, id, requestId, message, event), id)
  {
    hide TableInv, CoupledBut, Claim, LogInv;
    ClaimConcerns(s.Table(), s.limit, id);
    ElsewhereAgrees(s, Took(s, id, requestId, message, event), id);
  }

  lemma OperationChanges(s: State, id: string, op: Meanwhile)
    requires Changing(s, id)
    ensures Changing(Operated(s, id, op), id)
  {
    hide Changing, Ensured, Took, TryAppend, AcceptedIds;
    EnsuredChanges(s, id);
    if op.Sending? && op.requestId != "" && |op.requestId| <= MaxRequestId && EnsureRefusal(s, id, op.env).None? {
      EnsuredPublishes(s, id);
      var outcome := SendDecision(Ensured(s, id), id, op.requestId, op.message, op.env);
      if outcome.Accepted? {
        TookChanges(Ensured(s, id), id, op.requestId, op.message, outcome.event);
      }
    }
  }

  lemma {:induction false} WindowChanges(s: State, id: string, ops: seq<Meanwhile>)
    requires Changing(s, id)
    ensures Changing(InWindow(s, id, ops), id)
    decreases |ops|
  {
    hide Changing, Operated;
    if ops != [] {
      OperationChanges(s, id, ops[0]);
      WindowChanges(Operated(s, id, ops[0]), id, ops[1..]);
    }
  }

  lemma {:induction false} WindowKeeps(s: State, id: string, ops: seq<Meanwhile>)
    requires Inv(s)
    ensures Inv(InWindow(s, id, ops))
    decreases |ops|
  {
    hide Inv, Ensured, Sent;
    if ops != [] {
      match ops[0] {
        case Ensuring => EnsuredKeeps(s, id);
        case Sending(requestId, message, env) => SentKeeps(s, id, requestId, message, env);
      }
      WindowKeeps(Operated(s, id, ops[0]), id, ops[1..]);
    }
  }

  lemma EnsuredPublishes(s: State, id: string)
    requires Lookup(s, id).Ok?
    ensures id in Ensured(s, id).peers
  {
  }

  /** Releasing a conversation that somebody operated on since keeps slots and leases in agreement exactly
      if it has no live turn. */
  lemma ReleasedAfterWindow(s: State, id: string)
    requires Changing(s, id)
    ensures Coupled(Released(s, id)) <==> !Live(s.peers, id)
  {
    hide TableInv, Coupled, CoupledBut, Released, LogInv;
    if Live(s.peers, id) {
      LiveWithoutPlace(s, id);
    } else {
      ReleasedCouples(s, id);
    }
  }

  /** Closing in three steps: the peer is unpublished, others operate on the conversation, then the closed
      peer abandons its turn. Slots and leases agree afterwards exactly if the closed peer had no turn or
      the conversation has no live one when it is abandoned. */
  lemma StopWindow(s: State, id: string, ops: seq<Meanwhile>)
    requires Inv(s) && id in s.peers
    ensures var meanwhile := InWindow(Unpublished(s, id), id, ops);
      var end := Abandoned(meanwhile, id, s.peers[id].activeChat != "");
      Coupled(end) <==> s.peers[id].activeChat == "" || !Live(meanwhile.peers, id)
  {
    hide TableInv, Coupled, CoupledBut, LogInv, InWindow, Released;
    assert Local(s, id);
    var gone := Unpublished(s, id);
    UnpublishedKeeps(s, id);
    assert Local(gone, id);
    if s.peers[id].activeChat != "" {
      WindowChanges(gone, id, ops);
      ReleasedAfterWindow(InWindow(gone, id, ops), id);
    } else {
      WindowKeeps(gone, id, ops);
    }
  }

  /** In the window of a stop, a conversation whose turn is being closed is live again as soon as somebody
      ensures it: its journal still has the turn. */
  lemma EnsuringReopensTheTurn(s: State, id: string)
    requires Inv(s) && id in s.peers && s.peers[id].activeChat != ""
    ensures Live(Ensured(Unpublished(s, id), id).peers, id)
  {
    assert Local(s, id);
    PeerMatchesRecovery(s, id);
  }

  /** The table between two passes of the loop, after a pass that promoted somebody. */
  function MidRelease(s: State, id: string): State {
    var (t, _) := Release(s.Table(), s.limit, id);
    s.(active := t.active, queue := t.queue)
  }

  /** A pass that promotes somebody moves the slot from one conversation to the other. */
  lemma PassMoves(t: Turns, limit: nat, id: string)
    requires TableInv(t, limit) && Release(t, limit, id).1.Some?
    ensures var (t', next) := Release(t, limit, id);
      && TableInv(t', limit) && next.value in t.queue && next.value !in t.active && next.value != id
      && (forall other | other != next.value :: other in t'.active <==> other in t.active && other != id)
      && (forall other | other in t.queue && other != id && other != next.value :: other in t'.queue)
  {
    ReleaseKeepsTable(t, limit, id);
    DropMembers(t.queue, id);
    var queue := Drop(t.queue, id);
    assert queue == [queue[0]] + queue[1..];
    assert queue[0] in queue;
  }

  lemma MidReleaseChanges(s: State, id: string)
    requires Changing(s, id) && !Live(s.peers, id) && Release(s.Table(), s.limit, id).1.Some?
    requires var next := Release(s.Table(), s.limit, id).1.value; !Live(s.peers, next) && LogInv(s.LogOf(next))
    ensures Changing(MidRelease(s, id), Release(s.Table(), s.limit, id).1.value)
  {
    hide LogInv, TableInv, Release;
    PassMoves(s.Table(), s.limit, id);
  }

  /** The release loop promotes a conversation without a live turn, with or without a peer, and before the
      next pass takes the slot back others operate on it. Slots and leases agree after that pass exactly
      if the conversation still has no live turn. */
  lemma ReleaseWindow(s: State, id: string, ops: seq<Meanwhile>)
    requires Changing(s, id) && !Live(s.peers, id) && Release(s.Table(), s.limit, id).1.Some?
    requires var next := Release(s.Table(), s.limit, id).1.value; !Live(s.peers, next) && LogInv(s.LogOf(next))
    ensures var next := Release(s.Table(), s.limit, id).1.value;
      var meanwhile := InWindow(MidRelease(s, id), next, ops);
      Coupled(Released(meanwhile, next)) <==> !Live(meanwhile.peers, next)
  {
    hide Changing, Release, Coupled, Released, InWindow;
    var next := Release(s.Table(), s.limit, id).1.value;
    MidReleaseChanges(s, id);
    WindowChanges(MidRelease(s, id), next, ops);
    ReleasedAfterWindow(InWindow(MidRelease(s, id), next, ops), next);
  }
}
