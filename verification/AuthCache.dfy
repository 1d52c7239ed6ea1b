/** The single-flight verification cache: any number of concurrent calls of Verify, interleaved at
    the granularity of its two lock sections, the upstream answer and the wake-up of waiters. */
module AuthCache {
  import opened Common

  const MAX_ENTRIES := 4096

  /** What a verification says. The last two stand for errors of the caller's own context. */
  datatype Outcome = Granted(principal: string) | Refused(error: string) | Cancelled | TimedOut

  datatype Entry = Entry(outcome: Outcome, expires: int)

  /** One answer of the upstream verifier, with the time its leader had read before asking. */
  datatype Answer = Answer(token: string, started: int, outcome: Outcome)

  /** Where an answered call got its outcome from. */
  datatype Origin =
    | FromCache(current: int, expires: int)
    | FromUpstream(started: int)
    | FromLeader(leader: nat)
    | NoVerifier
    | OwnContext(timedOut: bool)

  datatype Call =
    | Leading(token: string, current: int)
    | Waiting(token: string, leader: nat)
    | Answered(token: string, outcome: Outcome, origin: Origin)

  datatype Config = Config(hasNext: bool, ttl: int, negativeTtl: int)

  /** `inflight` names the leading call of each token; `answers` records all the upstream ever said. */
  datatype State = State(
    entries: map<string, Entry>,
    inflight: map<string, nat>,
    calls: seq<Call>,
    answers: seq<Answer>)

  const Empty := State(map[], map[], [], [])

  datatype Step =
    | Begin(token: string, current: int)
    | Finish(call: nat, outcome: Outcome, kept: set<string>)
    | Wake(call: nat)
    | Abandon(call: nat, timedOut: bool)

  function Ttl(c: Config, o: Outcome): int {
    if o.Granted? then c.ttl else c.negativeTtl
  }

  predicate Storable(o: Outcome) {
    o.Granted? || o.Refused?
  }

  predicate Stores(c: Config, o: Outcome) {
    Ttl(c, o) > 0 && Storable(o)
  }

  // ----- pruning -----

  function Unexpired(entries: map<string, Entry>, current: int): set<string> {
    set t | t in entries && current < entries[t].expires
  }

  function Keep(entries: map<string, Entry>, kept: set<string>): map<string, Entry> {
    map t | t in entries && t in kept :: entries[t]
  }

  /** What pruning may keep: everything within the bound; else the unexpired entries; else any
      MAX_ENTRIES of those. */
  predicate MayKeep(entries: map<string, Entry>, current: int, kept: set<string>) {
    if |entries| <= MAX_ENTRIES then kept == entries.Keys
    else
      var live := Unexpired(entries, current);
      if |live| <= MAX_ENTRIES then kept == live else kept < live && |kept| == MAX_ENTRIES
  }

  lemma KeptIsBounded(entries: map<string, Entry>, current: int, kept: set<string>)
    requires MayKeep(entries, current, kept)
    ensures |Keep(entries, kept)| <= MAX_ENTRIES && kept <= entries.Keys
    ensures forall t | t in Keep(entries, kept) :: t in entries && Keep(entries, kept)[t] == entries[t]
  {
    assert Keep(entries, kept).Keys == kept;
  }

  lemma OneMore(entries: map<string, Entry>, t: string, e: Entry)
    ensures |entries[t := e]| <= |entries| + 1
  {
    assert entries[t := e].Keys == entries.Keys + {t};
  }

  lemma KeepAll(entries: map<string, Entry>)
    ensures Keep(entries, entries.Keys) == entries
  {
  }

  // ----- the machine -----

  predicate Enabled(c: Config, s: State, step: Step) {
    match step
    case Begin(_, _) => true
    case Finish(k, o, kept) =>
      k < |s.calls| && s.calls[k].Leading?
      && (Stores(c, o) ==> MayKeep(Stored(c, s, s.calls[k], o), s.calls[k].current, kept))
    case Wake(k) =>
      k < |s.calls| && s.calls[k].Waiting? && s.calls[k].leader < |s.calls| && s.calls[s.calls[k].leader].Answered?
    case Abandon(k, _) => k < |s.calls| && s.calls[k].Waiting?
  }

  /** The entries with a leader's outcome added. */
  function Stored(c: Config, s: State, leader: Call, o: Outcome): map<string, Entry>
    requires leader.Leading?
  {
    s.entries[leader.token := Entry(o, leader.current + Ttl(c, o))]
  }

  function Next(c: Config, s: State, step: Step): State
    requires Enabled(c, s, step)
  {
    match step
    case Begin(token, current) =>
      if !c.hasNext then s.(calls := s.calls + [Answered(token, Refused("unauthorized"), NoVerifier)])
      else if token in s.entries && current < s.entries[token].expires then
        var e := s.entries[token];
        s.(calls := s.calls + [Answered(token, e.outcome, FromCache(current, e.expires))])
      else if token in s.inflight then s.(calls := s.calls + [Waiting(token, s.inflight[token])])
      else s.(inflight := s.inflight[token := |s.calls|], calls := s.calls + [Leading(token, current)])
    case Finish(k, o, kept) =>
      var leader := s.calls[k];
      State(if Stores(c, o) then Keep(Stored(c, s, leader, o), kept) else s.entries,
            s.inflight - {leader.token},
            s.calls[k := Answered(leader.token, o, FromUpstream(leader.current))],
            s.answers + [Answer(leader.token, leader.current, o)])
    case Wake(k) =>
      var w := s.calls[k];
      s.(calls := s.calls[k := Answered(w.token, s.calls[w.leader].outcome, FromLeader(w.leader))])
    case Abandon(k, timedOut) =>
      var own := if timedOut then TimedOut else Cancelled;
      s.(calls := s.calls[k := Answered(s.calls[k].token, own, OwnContext(timedOut))])
  }

  predicate Possible(c: Config, s: State, steps: seq<Step>)
    decreases |steps|
  {
    steps == [] || (Enabled(c, s, steps[0]) && Possible(c, Next(c, s, steps[0]), steps[1..]))
  }

  function Run(c: Config, s: State, steps: seq<Step>): State
    requires Possible(c, s, steps)
    decreases |steps|
  {
    if steps == [] then s else Run(c, Next(c, s, steps[0]), steps[1..])
  }

  // ----- the invariant -----

  /** The entry holds what the upstream said about that very token, and expires one TTL after that
      verification started. */
  ghost predicate EntrySound(c: Config, answers: seq<Answer>, t: string, e: Entry) {
    Stores(c, e.outcome) && Answer(t, e.expires - Ttl(c, e.outcome), e.outcome) in answers
  }

  ghost predicate AllSound(c: Config, entries: map<string, Entry>, answers: seq<Answer>) {
    forall t | t in entries :: EntrySound(c, answers, t, entries[t])
  }

  ghost predicate EntriesSound(c: Config, s: State) {
    |s.entries| <= MAX_ENTRIES && AllSound(c, s.entries, s.answers)
  }

  /** Call k is the one that asks the upstream about the token. */
  ghost predicate Leads(s: State, k: nat, token: string) {
    k < |s.calls| && s.calls[k].Leading? && s.calls[k].token == token
  }

  /** Call k has asked the upstream about the token and has its answer. */
  ghost predicate Led(s: State, k: nat, token: string) {
    k < |s.calls| && s.calls[k].Answered? && s.calls[k].origin.FromUpstream? && s.calls[k].token == token
  }

  /** The tokens in flight are exactly those with a leading call, and it is the one named. */
  ghost predicate FlightsSound(s: State) {
    && (forall t | t in s.inflight :: Leads(s, s.inflight[t], t))
    && (forall k | 0 <= k < |s.calls| && s.calls[k].Leading? ::
          s.calls[k].token in s.inflight && s.inflight[s.calls[k].token] == k)
  }

  ghost predicate CallSound(c: Config, s: State, call: Call) {
    match call
    case Leading(_, _) => c.hasNext
    case Waiting(t, l) => Leads(s, l, t) || Led(s, l, t)
    case Answered(t, o, FromCache(current, expires)) =>
      Storable(o) && current < expires && Answer(t, expires - Ttl(c, o), o) in s.answers
    case Answered(t, o, FromUpstream(started)) => Answer(t, started, o) in s.answers
    case Answered(t, o, FromLeader(l)) =>
      Led(s, l, t) && s.calls[l].outcome == o
    case Answered(_, o, NoVerifier) => !c.hasNext && o.Refused?
    case Answered(_, o, OwnContext(timedOut)) => !Storable(o) && (timedOut <==> o == TimedOut)
  }

  ghost predicate Inv(c: Config, s: State) {
    && EntriesSound(c, s)
    && FlightsSound(s)
    && forall k | 0 <= k < |s.calls| :: CallSound(c, s, s.calls[k])
  }

  /** One more answer spoils no entry. */
  lemma AnswersGrow(c: Config, entries: map<string, Entry>, answers: seq<Answer>, a: Answer)
    requires AllSound(c, entries, answers)
    ensures AllSound(c, entries, answers + [a])
  {
    hide EntrySound;
    forall t | t in entries ensures EntrySound(c, answers + [a], t, entries[t]) {
      EntryStays(c, answers, t, entries[t], a);
    }
  }

  /** Storing the newest answer and keeping some entries leaves sound ones. */
  lemma StoringIsSound(c: Config, entries: map<string, Entry>, answers: seq<Answer>, a: Answer, kept: set<string>)
    requires AllSound(c, entries, answers) && Stores(c, a.outcome)
    ensures var stored := entries[a.token := Entry(a.outcome, a.started + Ttl(c, a.outcome))];
      AllSound(c, Keep(stored, kept), answers + [a])
  {
    hide EntrySound, Ttl, Stores;
    var stored := entries[a.token := Entry(a.outcome, a.started + Ttl(c, a.outcome))];
    forall t | t in Keep(stored, kept) ensures EntrySound(c, answers + [a], t, Keep(stored, kept)[t]) {
      EntryStays(c, answers, t, stored[t], a);
    }
  }

  lemma EntriesKept(c: Config, s: State, step: Step)
    requires EntriesSound(c, s) && Enabled(c, s, step)
    ensures EntriesSound(c, Next(c, s, step))
  {
    hide MayKeep, EntrySound, Keep;
    if step.Finish? {
      var leader := s.calls[step.call];
      var answer := Answer(leader.token, leader.current, step.outcome);
      if Stores(c, step.outcome) {
        KeptIsBounded(Stored(c, s, leader, step.outcome), leader.current, step.kept);
        StoringIsSound(c, s.entries, s.answers, answer, step.kept);
      } else {
        AnswersGrow(c, s.entries, s.answers, answer);
      }
    }
  }

  lemma EntryStays(c: Config, answers: seq<Answer>, t: string, e: Entry, a: Answer)
    ensures EntrySound(c, answers, t, e) ==> EntrySound(c, answers + [a], t, e)
    ensures Stores(c, e.outcome) && a == Answer(t, e.expires - Ttl(c, e.outcome), e.outcome) ==>
      EntrySound(c, answers + [a], t, e)
  {
  }

  /** What a call relies on stays true while the call itself does not change. */
  lemma CallStays(c: Config, s: State, step: Step, call: Call)
    requires CallSound(c, s, call) && Enabled(c, s, step)
    ensures CallSound(c, Next(c, s, step), call)
  {
    hide MayKeep, Keep, Stored;
  }

  /** The call a step moves is sound where it arrives. */
  lemma CallMoves(c: Config, s: State, step: Step)
    requires Enabled(c, s, step) && FlightsSound(s)
    requires step.Begin? ==> EntriesSound(c, s)
    requires !step.Begin? ==> CallSound(c, s, s.calls[step.call])
    requires step.Wake? ==> CallSound(c, s, s.calls[s.calls[step.call].leader])
    ensures var t := Next(c, s, step);
      var k := if step.Begin? then |s.calls| else step.call; CallSound(c, t, t.calls[k])
  {
    hide MayKeep, Keep, Stored;
    if step.Begin? {
      FlightLeads(s, step.token);
    }
  }

  lemma CallsKept(c: Config, s: State, step: Step, k: nat)
    requires Inv(c, s) && Enabled(c, s, step) && k < |Next(c, s, step).calls|
    ensures var t := Next(c, s, step); CallSound(c, t, t.calls[k])
  {
    hide FlightsSound, EntriesSound, CallSound, MayKeep, Keep, Stored;
    if k == if step.Begin? then |s.calls| else step.call {
      CallMoves(c, s, step);
    } else {
      CallStays(c, s, step, s.calls[k]);
    }
  }

  lemma FlightLeads(s: State, t: string)
    requires FlightsSound(s)
    ensures t in s.inflight ==> Leads(s, s.inflight[t], t)
  {
  }

  lemma NextKeeps(c: Config, s: State, step: Step)
    requires Inv(c, s) && Enabled(c, s, step)
    ensures Inv(c, Next(c, s, step))
  {
    hide EntriesSound, CallSound, MayKeep, Keep, Stored;
    EntriesKept(c, s, step);
    forall k | 0 <= k < |Next(c, s, step).calls| ensures CallSound(c, Next(c, s, step), Next(c, s, step).calls[k]) {
      CallsKept(c, s, step, k);
    }
  }

  // ----- what holds in every run -----

  lemma {:induction false} EveryInterleaving(c: Config, s: State, steps: seq<Step>)
    requires Inv(c, s) && Possible(c, s, steps)
    ensures Inv(c, Run(c, s, steps)) && |Run(c, s, steps).entries| <= MAX_ENTRIES
    decreases |steps|
  {
    hide FlightsSound, CallSound, Enabled, Next;
    if steps == [] {
    } else {
      NextKeeps(c, s, steps[0]);
      EveryInterleaving(c, Next(c, s, steps[0]), steps[1..]);
    }
  }

  lemma EmptyIsSound(c: Config)
    ensures Inv(c, Empty)
  {
  }

  /** What every run of an initially empty cache comes to. */
  lemma ReachableIsSound(c: Config, steps: seq<Step>)
    requires Possible(c, Empty, steps)
    ensures Inv(c, Run(c, Empty, steps)) && |Run(c, Empty, steps).entries| <= MAX_ENTRIES
  {
    hide *;
    EmptyIsSound(c);
    EveryInterleaving(c, Empty, steps);
  }

  /** At most one upstream verification per token is under way. */
  lemma OneFlightPerToken(c: Config, steps: seq<Step>, i: nat, j: nat)
    requires Possible(c, Empty, steps)
    requires var s := Run(c, Empty, steps); i < |s.calls| && j < |s.calls| && s.calls[i].Leading? && s.calls[j].Leading?
    ensures var s := Run(c, Empty, steps); s.calls[i].token == s.calls[j].token ==> i == j
  {
    hide Next, Run, Possible;
    ReachableIsSound(c, steps);
  }

  /** Every answer except an error of the caller's own context is one the upstream gave for that token. */
  lemma AnswersAreUpstreams(c: Config, steps: seq<Step>, k: nat)
    requires c.hasNext && Possible(c, Empty, steps) && k < |Run(c, Empty, steps).calls|
    ensures var s := Run(c, Empty, steps);
      s.calls[k].Answered? && !s.calls[k].origin.OwnContext? ==>
        exists started :: Answer(s.calls[k].token, started, s.calls[k].outcome) in s.answers
  {
    hide Next, Run, Possible, EntriesSound, FlightsSound;
    ReachableIsSound(c, steps);
    var s := Run(c, Empty, steps);
    assert CallSound(c, s, s.calls[k]);
    if s.calls[k].Answered? && s.calls[k].origin.FromLeader? {
      assert CallSound(c, s, s.calls[s.calls[k].origin.leader]);
    }
  }

  /** A cached answer is never a context error and comes from a verification of that token that
      started less than its TTL before. */
  lemma CachedAnswersAreFresh(c: Config, steps: seq<Step>, k: nat)
    requires Possible(c, Empty, steps) && k < |Run(c, Empty, steps).calls|
    requires var s := Run(c, Empty, steps); s.calls[k].Answered? && s.calls[k].origin.FromCache?
    ensures var s := Run(c, Empty, steps); var a := s.calls[k];
      Storable(a.outcome)
      && exists started ::
        && Answer(a.token, started, a.outcome) in s.answers
        && a.origin.current < started + if a.outcome.Granted? then c.ttl else c.negativeTtl
  {
    hide Next, Run, Possible, EntriesSound, FlightsSound;
    ReachableIsSound(c, steps);
    var s := Run(c, Empty, steps);
    var a := s.calls[k];
    assert CallSound(c, s, a);
    assert Answer(a.token, a.origin.expires - Ttl(c, a.outcome), a.outcome) in s.answers;
  }

  /** A waiter can always go on: either its leader still leads the flight of that token, or its
      outcome is there to be taken. */
  lemma WaitersAreServed(c: Config, steps: seq<Step>, k: nat)
    requires Possible(c, Empty, steps) && k < |Run(c, Empty, steps).calls|
    requires Run(c, Empty, steps).calls[k].Waiting?
    ensures var s := Run(c, Empty, steps); var w := s.calls[k];
      (w.token in s.inflight && s.inflight[w.token] == w.leader) <==> !Enabled(c, s, Wake(k))
  {
    hide Next, Run, Possible, EntriesSound;
    ReachableIsSound(c, steps);
    var s := Run(c, Empty, steps);
    assert CallSound(c, s, s.calls[k]);
  }

  /** A call asks the upstream itself exactly if there is one, no unexpired entry answers the token and no
      other call is asking about it; it waits exactly if one is. */
  lemma AsksExactly(c: Config, steps: seq<Step>, token: string, current: int)
    requires Possible(c, Empty, steps)
    ensures var s := Run(c, Empty, steps); var call := Next(c, s, Begin(token, current)).calls[|s.calls|];
      var unexpired := token in s.entries && current < s.entries[token].expires;
      var asking := exists k :: 0 <= k < |s.calls| && s.calls[k].Leading? && s.calls[k].token == token;
      && (call.Leading? <==> c.hasNext && !unexpired && !asking)
      && (call.Waiting? <==> c.hasNext && !unexpired && asking)
  {
    hide Run, Possible, EntriesSound, CallSound;
    ReachableIsSound(c, steps);
    var s := Run(c, Empty, steps);
    FlightLeads(s, token);
  }

  /** The cache stays below its bound, so nothing is pruned, and no other verification of the token finishes. */
  ghost predicate Undisturbed(c: Config, s: State, steps: seq<Step>, token: string)
    requires Possible(c, s, steps)
    decreases |steps|
  {
    steps != [] ==>
      && (steps[0].Finish? ==> |s.entries| < 4096 && s.calls[steps[0].call].token != token)
      && Undisturbed(c, Next(c, s, steps[0]), steps[1..], token)
  }

  lemma FinishKeepsAll(c: Config, s: State, finish: Step)
    requires finish.Finish? && Enabled(c, s, finish) && Stores(c, finish.outcome) && |s.entries| < 4096
    ensures Next(c, s, finish).entries == Stored(c, s, s.calls[finish.call], finish.outcome)
  {
    hide Keep;
    var leader := s.calls[finish.call];
    var stored := Stored(c, s, leader, finish.outcome);
    OneMore(s.entries, leader.token, stored[leader.token]);
    KeepAll(stored);
  }

  lemma {:induction false} EntryLasts(c: Config, s: State, steps: seq<Step>, token: string)
    requires Possible(c, s, steps) && Undisturbed(c, s, steps, token) && token in s.entries
    ensures var t := Run(c, s, steps); token in t.entries && t.entries[token] == s.entries[token]
    decreases |steps|
  {
    if steps != [] {
      var next := Next(c, s, steps[0]);
      if steps[0].Finish? && Stores(c, steps[0].outcome) {
        FinishKeepsAll(c, s, steps[0]);
      }
      EntryLasts(c, next, steps[1..], token);
    }
  }

  lemma FinishStores(c: Config, s: State, finish: Step)
    requires finish.Finish? && Enabled(c, s, finish) && |s.entries| < 4096
    requires (finish.outcome.Granted? && c.ttl > 0) || (finish.outcome.Refused? && c.negativeTtl > 0)
    ensures finish.call < |s.calls| && s.calls[finish.call].Leading?
    ensures var leader := s.calls[finish.call]; var entries := Next(c, s, finish).entries;
      leader.token in entries && entries[leader.token]
        == Entry(finish.outcome, leader.current + if finish.outcome.Granted? then c.ttl else c.negativeTtl)
  {
    FinishKeepsAll(c, s, finish);
  }

  lemma BeginHits(c: Config, s: State, token: string, current: int)
    requires c.hasNext && token in s.entries && current < s.entries[token].expires
    ensures Enabled(c, s, Begin(token, current))
    ensures |Next(c, s, Begin(token, current)).calls| > |s.calls|
    ensures var call := Next(c, s, Begin(token, current)).calls[|s.calls|];
      call == Answered(token, s.entries[token].outcome, FromCache(current, s.entries[token].expires))
  {
  }

  /** A stored answer is used: from the end of a verification whose outcome is kept, and as long as the cache
      stays below its bound and no newer verification of the token finishes, every call that comes within
      the time to live of that verification is answered with it and asks nobody. */
  lemma StoredAnswersAreUsed(c: Config, s: State, finish: Step, steps: seq<Step>, current: int)
    requires c.hasNext && finish.Finish? && Enabled(c, s, finish) && |s.entries| < 4096
    requires (finish.outcome.Granted? && c.ttl > 0) || (finish.outcome.Refused? && c.negativeTtl > 0)
    requires Possible(c, Next(c, s, finish), steps)
    requires Undisturbed(c, Next(c, s, finish), steps, s.calls[finish.call].token)
    requires current < s.calls[finish.call].current + if finish.outcome.Granted? then c.ttl else c.negativeTtl
    ensures var t := Run(c, Next(c, s, finish), steps); var token := s.calls[finish.call].token;
      var call := Next(c, t, Begin(token, current)).calls[|t.calls|];
      call.Answered? && call.outcome == finish.outcome && call.origin.FromCache?
  {
    hide Run, Possible, Undisturbed, Next, Enabled;
    FinishStores(c, s, finish);
    var token := s.calls[finish.call].token;
    EntryLasts(c, Next(c, s, finish), steps, token);
    BeginHits(c, Run(c, Next(c, s, finish), steps), token, current);
  }

  // ----- the cache itself -----

  class Cached {
    const config: Config
    var entries: map<string, Entry>
    var inflight: map<string, nat>
    ghost var calls: seq<Call>
    ghost var answers: seq<Answer>

    ghost function View(): State
      reads this
    {
      State(entries, inflight, calls, answers)
    }

    constructor (config: Config)
      ensures View() == Empty && this.config == config
    {
      this.config := config;
      entries, inflight, calls, answers := map[], map[], [], [];
    }

    /** Verify up to the end of its first lock section. `id` names the call in `inflight`, as the
        pointer to its record does. */
    method Lookup(token: string, current: int, id: nat) returns (hit: Option<Outcome>, leader: Option<nat>)
      requires id == |calls|
      modifies this
      ensures View() == Next(config, old(View()), Begin(token, current))
      ensures hit == if calls[id].Answered? then Some(calls[id].outcome) else None
      ensures leader == if calls[id].Waiting? then Some(calls[id].leader) else None
    {
      hide Stored;
      if !config.hasNext {
        calls := calls + [Answered(token, Refused("unauthorized"), NoVerifier)];
        return Some(Refused("unauthorized")), None;
      }
      if token in entries && current < entries[token].expires {
        var e := entries[token];
        calls := calls + [Answered(token, e.outcome, FromCache(current, e.expires))];
        return Some(e.outcome), None;
      }
      if token in inflight {
        calls := calls + [Waiting(token, inflight[token])];
        return None, Some(inflight[token]);
      }
      inflight := inflight[token := id];
      calls := calls + [Leading(token, current)];
      return None, None;
    }

    /** The leader's second lock section, once the upstream has answered. */
    method Settle(ghost id: nat, token: string, current: int, outcome: Outcome) returns (ghost kept: set<string>)
      requires id < |calls| && calls[id] == Leading(token, current)
      modifies this
      ensures Enabled(config, old(View()), Finish(id, outcome, kept))
      ensures View() == Next(config, old(View()), Finish(id, outcome, kept))
    {
      hide Unexpired, Keep, MayKeep;
      var ttl := if outcome.Granted? then config.ttl else config.negativeTtl;
      if ttl > 0 && !outcome.Cancelled? && !outcome.TimedOut? {
        entries := entries[token := Entry(outcome, current + ttl)];
        kept := Prune(current);
      } else {
        kept := {};
      }
      inflight := inflight - {token};
      calls := calls[id := Answered(token, outcome, FromUpstream(current))];
      answers := answers + [Answer(token, current, outcome)];
    }

    /** Brings the entries back within the bound: expired ones go first, then any. */
    method Prune(current: int) returns (ghost kept: set<string>)
      modifies this`entries
      ensures MayKeep(old(entries), current, kept) && entries == Keep(old(entries), kept)
    {
      hide Unexpired, Keep;
      kept := entries.Keys;
      KeepAll(entries);
      if |entries| > MAX_ENTRIES {
        DropExpired(current);
        kept := DropExcess(old(entries), Unexpired(old(entries), current));
      }
    }

    method DropExpired(current: int)
      modifies this`entries
      ensures entries == Keep(old(entries), Unexpired(old(entries), current))
      ensures entries.Keys == Unexpired(old(entries), current)
    {
      ghost var live := Unexpired(entries, current);
      var rest := entries.Keys;
      while rest != {}
        invariant rest <= entries.Keys
        invariant entries == Keep(old(entries), live + rest)
        decreases |rest|
      {
        var t :| t in rest;
        rest := rest - {t};
        if !(current < entries[t].expires) {
          entries := entries - {t};
        }
      }
    }

    /** Deletes entries in any order until the bound is met; `all` and `live` say where they come from. */
    method DropExcess(ghost all: map<string, Entry>, ghost live: set<string>) returns (ghost kept: set<string>)
      requires entries == Keep(all, live) && entries.Keys == live
      modifies this`entries
      ensures kept <= live && entries == Keep(all, kept)
      ensures if |live| <= MAX_ENTRIES then kept == live else kept < live && |kept| == MAX_ENTRIES
    {
      var rest := entries.Keys;
      while rest != {} && |entries| > MAX_ENTRIES
        invariant rest == entries.Keys <= live && entries == Keep(all, rest)
        invariant |rest| == |entries|
        invariant rest == live || (|live| > MAX_ENTRIES && |rest| >= MAX_ENTRIES)
        decreases |rest|
      {
        var t :| t in rest;
        rest := rest - {t};
        entries := entries - {t};
      }
      kept := rest;
      assert |rest| == |live| || rest != live;
    }
  }
}
