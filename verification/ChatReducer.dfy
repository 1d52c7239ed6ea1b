/** The chat transcript as a fold over actions, and what it shows for any sequence of them. */
module ChatReducer {
  import opened Common

  datatype Verdict = Pending | Allowed | Denied

  datatype Body =
    | Claude
    | Me(name: string)
    | Peer(name: string)
    | System
    | Error
    | Activity(tool: string, input: string, result: Option<string>)
    | Permission(requestId: string, tool: string, input: string, decision: Verdict)

  datatype Message = Message(id: nat, text: string, body: Body)

  datatype Chat = Chat(messages: seq<Message>, streaming: string, responding: bool, thinking: string,
                       sessionId: string, hostUp: bool, nextId: nat)

  const Initial := Chat([], "", false, "", "", false, 1)

  /** Server events, the local send, locally injected lines and local permission decisions. `content`
      is a tool result as rendered, `from` a speaker's display name. */
  datatype Action =
    | SessionId(sessionId: string)
    | Text(text: string)
    | Thinking(text: string)
    | Done(sessionId: string)
    | Failure(message: string)
    | Aborted
    | PeerChat(from: string, text: string)
    | HostStatus(connected: bool)
    | Unavailable
    | ToolCall(name: string, input: string)
    | ToolResult(content: string)
    | PermissionRequest(requestId: string, tool: string, input: string)
    | Send(name: string, text: string)
    | Notice(text: string)
    | DecidePermission(requestId: string, allow: bool)

  const ERROR_PREFIX := "오류: "
  const ABORTED_LINE := "응답이 중단되었습니다."
  const UNAVAILABLE_LINE := "호스트가 연결되어 있지 않습니다 — 노트북 데몬이 실행 중인지 확인하세요."

  // ----- the reducer -----

  function Push(s: Chat, text: string, body: Body): Chat {
    s.(messages := s.messages + [Message(s.nextId, text, body)], nextId := s.nextId + 1)
  }

  /** The white space String.prototype.trim removes. */
  predicate Blank(c: char) {
    || '\t' <= c <= '\r' || c == ' ' || c == '\U{00A0}' || c == '\U{1680}' || '\U{2000}' <= c <= '\U{200A}'
    || c == '\U{2028}' || c == '\U{2029}' || c == '\U{202F}' || c == '\U{205F}' || c == '\U{3000}' || c == '\U{FEFF}'
  }

  function TrimStart(t: string): string {
    if t != "" && Blank(t[0]) then TrimStart(t[1..]) else t
  }

  function TrimEnd(t: string): string {
    if t != "" && Blank(t[|t| - 1]) then TrimEnd(t[..|t| - 1]) else t
  }

  function Trim(t: string): string {
    TrimEnd(TrimStart(t))
  }

  /** Moves the streamed text into the transcript, ending the turn or keeping it open. */
  function Flushed(s: Chat, keepResponding: bool): Chat {
    var line := Trim(s.streaming);
    var s' := if line != "" then Push(s, line, Claude) else s;
    s'.(streaming := "", responding := keepResponding, thinking := if keepResponding then s'.thinking else "")
  }

  predicate Unanswered(m: Message) {
    m.body.Activity? && m.body.result.None?
  }

  function Answer(m: Message, content: string): Message
    requires Unanswered(m)
  {
    m.(body := m.body.(result := Some(content)))
  }

  /** A result goes to the last activity that has none. */
  function Attached(ms: seq<Message>, content: string): seq<Message> {
    if ms == [] then []
    else
      var front, last := ms[..|ms| - 1], ms[|ms| - 1];
      if Unanswered(last) then front + [Answer(last, content)]
      else Attached(front, content) + [last]
  }

  /** A decision fixes every pending card with its request id. */
  function Decided(m: Message, requestId: string, allow: bool): Message {
    if m.body.Permission? && m.body.requestId == requestId && m.body.decision.Pending?
    then m.(body := m.body.(decision := if allow then Allowed else Denied))
    else m
  }

  function AllDecided(ms: seq<Message>, requestId: string, allow: bool): seq<Message> {
    seq(|ms|, i requires 0 <= i < |ms| => Decided(ms[i], requestId, allow))
  }

  function Reduced(s: Chat, a: Action): Chat {
    match a
    case SessionId(id) => if id != "" then s.(sessionId := id) else s
    case Text(t) => s.(responding := true, streaming := s.streaming + t)
    case Thinking(t) => s.(responding := true, thinking := s.thinking + t)
    case Done(id) => Flushed(if id != "" then s.(sessionId := id) else s, false)
    case Failure(m) => Push(Flushed(s, false), ERROR_PREFIX + m, Error)
    case Aborted => Push(Flushed(s, false), ABORTED_LINE, System)
    case PeerChat(from, t) => Push(s, t, Peer(from))
    case HostStatus(up) => s.(hostUp := up)
    case Unavailable => Push(s.(responding := false), UNAVAILABLE_LINE, System)
    case ToolCall(name, input) => Push(Flushed(s, true), "", Activity(name, input, None))
    case ToolResult(content) => s.(messages := Attached(s.messages, content))
    case PermissionRequest(id, tool, input) => Push(s, "", Permission(id, tool, input, Pending))
    case Send(name, t) => Push(s, t, Me(name)).(responding := true, thinking := "")
    case Notice(t) => Push(s, t, System)
    case DecidePermission(id, allow) => s.(messages := AllDecided(s.messages, id, allow))
  }

  /** The transcript after a sequence of actions. */
  function Transcript(actions: seq<Action>): Chat {
    if actions == [] then Initial else Reduced(Transcript(actions[..|actions| - 1]), actions[|actions| - 1])
  }

  // ----- the two loops of the reducer -----

  lemma AttachedUpTo(ms: seq<Message>, i: nat, content: string)
    requires i < |ms|
    ensures Attached(ms[..i + 1], content)
         == if Unanswered(ms[i]) then ms[..i] + [Answer(ms[i], content)] else Attached(ms[..i], content) + [ms[i]]
  {
    assert ms[..i + 1][..i] == ms[..i];
  }

  method AttachToolResult(state: Chat, content: string) returns (r: Chat)
    ensures r == state.(messages := Attached(state.messages, content))
  {
    hide Attached, Unanswered, Answer;
    var ms := state.messages;
    var i := |ms|;
    assert ms[..i] == ms && ms[i..] == [];
    assert Attached(ms, content) + [] == Attached(ms, content);
    while i > 0
      invariant 0 <= i <= |ms|
      invariant Attached(ms, content) == Attached(ms[..i], content) + ms[i..]
    {
      i := i - 1;
      AttachedUpTo(ms, i, content);
      if Unanswered(ms[i]) {
        var answered := ms[i := Answer(ms[i], content)];
        assert answered == ms[..i] + [Answer(ms[i], content)] + ms[i + 1..];
        return state.(messages := answered);
      }
      assert Attached(ms[..i], content) + [ms[i]] + ms[i + 1..] == Attached(ms[..i], content) + ms[i..];
    }
    AttachedNothing(content);
    assert ms[..0] == [] && [] + ms[0..] == ms;
    return state;
  }

  lemma AttachedNothing(content: string)
    ensures Attached([], content) == []
  {
  }

  method FixPermission(state: Chat, requestId: string, allow: bool) returns (r: Chat)
    ensures r == state.(messages := AllDecided(state.messages, requestId, allow))
  {
    var changed := false;
    var messages: seq<Message> := [];
    for i := 0 to |state.messages|
      invariant |messages| == i
      invariant forall k | 0 <= k < i :: messages[k] == Decided(state.messages[k], requestId, allow)
      invariant !changed ==> messages == state.messages[..i]
    {
      var m := state.messages[i];
      if m.body.Permission? && m.body.requestId == requestId && m.body.decision.Pending? {
        changed := true;
        m := m.(body := m.body.(decision := if allow then Allowed else Denied));
      }
      messages := messages + [m];
    }
    assert messages == AllDecided(state.messages, requestId, allow);
    return if changed then state.(messages := messages) else state;
  }

  // ----- tool results match tool calls as brackets do -----

  /** Calls minus results. */
  function Depth(actions: seq<Action>): int {
    if actions == [] then 0
    else
      var last := actions[|actions| - 1];
      Depth(actions[..|actions| - 1]) + if last.ToolCall? then 1 else if last.ToolResult? then -1 else 0
  }

  /** The depth reached between the call at i and position k. */
  function Net(actions: seq<Action>, i: nat, k: nat): int
    requires i < k <= |actions|
  {
    Depth(actions[i + 1..k])
  }

  /** Nothing between i and j closes more than was opened there. */
  ghost predicate Balanced(actions: seq<Action>, i: nat, j: nat)
    requires i < j <= |actions|
  {
    forall k | i < k <= j :: Net(actions, i, k) >= 0
  }

  /** The result at j closes the call at i, as a closing bracket closes its opening one. */
  ghost predicate Closes(actions: seq<Action>, i: nat, j: nat) {
    i < j < |actions| && actions[i].ToolCall? && actions[j].ToolResult?
    && Balanced(actions, i, j) && Net(actions, i, j) == 0
  }

  /** The call at i is still open at the end. */
  ghost predicate Open(actions: seq<Action>, i: nat) {
    i < |actions| && actions[i].ToolCall? && Balanced(actions, i, |actions|)
  }

  /** The results shown by the activities of a transcript, in order. */
  function Results(ms: seq<Message>): seq<Option<string>> {
    if ms == [] then []
    else
      var last := ms[|ms| - 1];
      Results(ms[..|ms| - 1]) + if last.body.Activity? then [last.body.result] else []
  }

  /** The positions of the calls, in order. */
  function Calls(actions: seq<Action>): seq<nat> {
    if actions == [] then []
    else
      var n := |actions| - 1;
      Calls(actions[..n]) + if actions[n].ToolCall? then [n as nat] else []
  }

  /** Fills the last gap. */
  function Fill<T>(xs: seq<Option<T>>, value: T): seq<Option<T>> {
    if xs == [] then []
    else
      var front, last := xs[..|xs| - 1], xs[|xs| - 1];
      if last.None? then front + [Some(value)] else Fill(front, value) + [last]
  }

  /** For every call, the position of the result it got. */
  function Matches(actions: seq<Action>): seq<Option<nat>> {
    if actions == [] then []
    else
      var n: nat := |actions| - 1;
      var before := Matches(actions[..n]);
      if actions[n].ToolCall? then before + [None]
      else if actions[n].ToolResult? then Fill(before, n)
      else before
  }

  function Gaps<T>(xs: seq<Option<T>>): nat {
    if xs == [] then 0 else Gaps(xs[..|xs| - 1]) + if xs[|xs| - 1].None? then 1 else 0
  }

  /** Filling touches exactly the last gap, if there is one. */
  lemma {:induction false} FillTakesLastGap<T>(xs: seq<Option<T>>, value: T, p: nat)
    requires p < |xs|
    ensures |Fill(xs, value)| == |xs|
    ensures Fill(xs, value)[p] == if xs[p].None? && Gaps(xs[p + 1..]) == 0 then Some(value) else xs[p]
    ensures Gaps(Fill(xs, value)[p + 1..]) == if Gaps(xs[p + 1..]) > 0 then Gaps(xs[p + 1..]) - 1 else 0
  {
    var n := |xs| - 1;
    var front := xs[..n];
    if p == n {
      FillKeepsLength(front, value);
    } else {
      assert xs[p + 1..][..n - p - 1] == front[p + 1..];
      FillKeepsLength(front, value);
      if xs[n].None? {
        assert Fill(xs, value)[p + 1..][..n - p - 1] == front[p + 1..];
      } else {
        FillTakesLastGap(front, value, p);
        assert Fill(xs, value)[p + 1..][..n - p - 1] == Fill(front, value)[p + 1..];
      }
    }
  }

  lemma {:induction false} FillKeepsLength<T>(xs: seq<Option<T>>, value: T)
    ensures |Fill(xs, value)| == |xs|
  {
    if xs != [] {
      FillKeepsLength(xs[..|xs| - 1], value);
    }
  }

  /** What the p-th call got: a result if and only if that result closes it, and while it is open its
      depth counts the open calls after it. */
  ghost predicate MatchOk(actions: seq<Action>, call: nat, match_: Option<nat>, gapsAfter: nat) {
    match match_
    case Some(j) => Closes(actions, call, j)
    case None => Open(actions, call) && Depth(actions[call + 1..]) == gapsAfter
  }

  ghost predicate MatchesOk(actions: seq<Action>, calls: seq<nat>, matches: seq<Option<nat>>) {
    && |calls| == |matches|
    && forall p | 0 <= p < |calls| :: MatchOk(actions, calls[p], matches[p], Gaps(matches[p + 1..]))
  }

  lemma ClosesExtends(actions: seq<Action>, a: Action, i: nat, j: nat)
    requires Closes(actions, i, j)
    ensures Closes(actions + [a], i, j)
  {
    forall k: nat | i < k <= j ensures Net(actions + [a], i, k) == Net(actions, i, k) {
      assert (actions + [a])[i + 1..k] == actions[i + 1..k];
    }
  }

  lemma OpenExtends(actions: seq<Action>, a: Action, i: nat)
    requires Open(actions, i)
    ensures Depth((actions + [a])[i + 1..])
         == Depth(actions[i + 1..]) + if a.ToolCall? then 1 else if a.ToolResult? then -1 else 0
    ensures Depth((actions + [a])[i + 1..]) >= 0 ==> Open(actions + [a], i)
    ensures a.ToolResult? && Depth(actions[i + 1..]) == 0 ==> Closes(actions + [a], i, |actions|)
  {
    var more := actions + [a];
    assert more[i + 1..][..|actions| - i - 1] == actions[i + 1..];
    assert more[i + 1..] == actions[i + 1..] + [a];
    forall k: nat | i < k <= |actions| ensures Net(more, i, k) == Net(actions, i, k) {
      assert more[i + 1..k] == actions[i + 1..k];
    }
    assert actions[i + 1..|actions|] == actions[i + 1..];
    assert more[i + 1..|more|] == more[i + 1..];
  }

  lemma {:induction false} MatchesAreBrackets(actions: seq<Action>)
    ensures MatchesOk(actions, Calls(actions), Matches(actions))
  {
    hide MatchOk;
    if actions != [] {
      var n := |actions| - 1;
      var before := actions[..n];
      MatchesAreBrackets(before);
      assert actions == before + [actions[n]];
      FillLengths(actions);
      forall p | 0 <= p < |Calls(actions)|
        ensures MatchOk(actions, Calls(actions)[p], Matches(actions)[p], Gaps(Matches(actions)[p + 1..]))
      {
        if p < |Calls(before)| {
          MatchAdvances(before, actions[n], p);
        } else {
          NewCall(before, actions[n]);
        }
      }
    }
  }

  lemma FillLengths(actions: seq<Action>)
    requires actions != [] && |Calls(actions[..|actions| - 1])| == |Matches(actions[..|actions| - 1])|
    ensures |Calls(actions)| == |Matches(actions)|
  {
    var n: nat := |actions| - 1;
    FillKeepsLength(Matches(actions[..n]), n);
  }

  lemma NewCall(before: seq<Action>, a: Action)
    requires a.ToolCall?
    ensures MatchOk(before + [a], |before|, None, 0)
  {
    assert (before + [a])[|before| + 1..] == [];
  }

  /** One more action moves the match of an earlier call as bracket matching demands. */
  lemma MatchAdvances(before: seq<Action>, a: Action, p: nat)
    requires p < |Calls(before)| == |Matches(before)|
    requires MatchOk(before, Calls(before)[p], Matches(before)[p], Gaps(Matches(before)[p + 1..]))
    ensures var actions := before + [a];
      p < |Calls(actions)| == |Matches(actions)|
      && MatchOk(actions, Calls(actions)[p], Matches(actions)[p], Gaps(Matches(actions)[p + 1..]))
  {
    hide Open, Closes, Depth, Gaps, Fill;
    var actions, call, rest := before + [a], Calls(before)[p], Matches(before)[p + 1..];
    assert actions[..|before|] == before;
    match Matches(before)[p] {
      case Some(j) => ClosesExtends(before, a, call, j);
      case None => OpenExtends(before, a, call);
    }
    if a.ToolCall? {
      assert Matches(actions)[p + 1..] == rest + [None];
      GapAppended(rest);
    } else if a.ToolResult? {
      FillTakesLastGap<nat>(Matches(before), |before|, p);
    }
  }

  lemma GapAppended(xs: seq<Option<nat>>)
    ensures Gaps(xs + [None]) == Gaps(xs) + 1
  {
    assert (xs + [None])[..|xs|] == xs;
  }

  lemma NetAfterClose(actions: seq<Action>, i: nat, j: nat)
    requires Closes(actions, i, j)
    ensures Net(actions, i, j + 1) == -1
  {
    assert actions[i + 1..j + 1][..j - i - 1] == actions[i + 1..j];
  }

  /** A call has at most one closing result, and is closed or open but not both. */
  lemma BracketsAreUnique(actions: seq<Action>, i: nat, j: nat)
    requires Closes(actions, i, j)
    ensures !Open(actions, i)
    ensures forall k: nat :: Closes(actions, i, k) ==> k == j
  {
    NetAfterClose(actions, i, j);
    forall k: nat | Closes(actions, i, k) ensures k == j {
      if k < j {
        NetAfterClose(actions, i, k);
      }
    }
  }

  /** What the activities show: the content of each call's match. */
  function Shown(actions: seq<Action>, matches: seq<Option<nat>>): seq<Option<string>> {
    seq(|matches|, p requires 0 <= p < |matches| =>
      if matches[p].Some? && matches[p].value < |actions| && actions[matches[p].value].ToolResult?
      then Some(actions[matches[p].value].content) else None)
  }

  lemma {:induction false} AttachedFills(ms: seq<Message>, content: string)
    ensures Results(Attached(ms, content)) == Fill(Results(ms), content)
    ensures |Attached(ms, content)| == |ms|
  {
    if ms != [] {
      var front, last := ms[..|ms| - 1], ms[|ms| - 1];
      AttachedFills(front, content);
      if Unanswered(last) {
        assert Attached(ms, content)[..|ms| - 1] == front;
      } else {
        assert Attached(ms, content)[..|ms| - 1] == Attached(front, content);
      }
      if last.body.Activity? {
        assert Results(ms)[..|Results(ms)| - 1] == Results(front);
      } else {
        assert Results(ms) == Results(front);
        assert Results(Attached(ms, content)) == Results(Attached(front, content));
      }
    }
  }

  lemma {:induction false} DecidedKeepsResults(ms: seq<Message>, requestId: string, allow: bool)
    ensures Results(AllDecided(ms, requestId, allow)) == Results(ms)
  {
    if ms != [] {
      var n := |ms| - 1;
      DecidedKeepsResults(ms[..n], requestId, allow);
      assert AllDecided(ms, requestId, allow)[..n] == AllDecided(ms[..n], requestId, allow);
    }
  }

  lemma PushedResults(s: Chat, text: string, body: Body)
    ensures Results(Push(s, text, body).messages) == Results(s.messages) + if body.Activity? then [body.result] else []
  {
    assert Push(s, text, body).messages[..|s.messages|] == s.messages;
  }

  lemma FlushedResults(s: Chat, keep: bool)
    ensures Results(Flushed(s, keep).messages) == Results(s.messages)
  {
    PushedResults(s, Trim(s.streaming), Claude);
  }

  /** One action changes the shown results as it changes the matches. */
  lemma ReducedResults(s: Chat, a: Action)
    ensures var r := Results(Reduced(s, a).messages);
      r == if a.ToolCall? then Results(s.messages) + [None]
           else if a.ToolResult? then Fill(Results(s.messages), a.content)
           else Results(s.messages)
  {
    hide Results, Fill, Attached, Push, Flushed, AllDecided;
    match a {
      case Done(id) => FlushedResults(if id != "" then s.(sessionId := id) else s, false);
      case Failure(m) => FlushedResults(s, false); PushedResults(Flushed(s, false), ERROR_PREFIX + m, Error);
      case Aborted => FlushedResults(s, false); PushedResults(Flushed(s, false), ABORTED_LINE, System);
      case PeerChat(from, t) => PushedResults(s, t, Peer(from));
      case Unavailable => PushedResults(s.(responding := false), UNAVAILABLE_LINE, System);
      case ToolCall(name, input) =>
        FlushedResults(s, true);
        PushedResults(Flushed(s, true), "", Activity(name, input, None));
      case ToolResult(content) => AttachedFills(s.messages, content);
      case PermissionRequest(id, tool, input) => PushedResults(s, "", Permission(id, tool, input, Pending));
      case Send(name, t) => PushedResults(s, t, Me(name));
      case Notice(t) => PushedResults(s, t, System);
      case DecidePermission(id, allow) => DecidedKeepsResults(s.messages, id, allow);
      case _ =>
    }
  }

  /** Every match names a tool result among the actions. */
  ghost predicate PointBack(actions: seq<Action>, matches: seq<Option<nat>>) {
    forall p | 0 <= p < |matches| && matches[p].Some? ::
      matches[p].value < |actions| && actions[matches[p].value].ToolResult?
  }

  lemma ShownGrows(before: seq<Action>, a: Action, matches: seq<Option<nat>>)
    requires PointBack(before, matches)
    ensures Shown(before + [a], matches) == Shown(before, matches)
    ensures Shown(before + [a], matches + [None]) == Shown(before, matches) + [None]
    ensures a.ToolResult? ==>
      Shown(before + [a], Fill<nat>(matches, |before|)) == Fill(Shown(before, matches), a.content)
  {
    if a.ToolResult? {
      FillShown(before, a, matches);
    }
  }

  lemma {:induction false} FillShown(before: seq<Action>, a: Action, matches: seq<Option<nat>>)
    requires a.ToolResult? && PointBack(before, matches)
    ensures Shown(before + [a], Fill<nat>(matches, |before|)) == Fill(Shown(before, matches), a.content)
  {
    FillKeepsLength<nat>(matches, |before|);
    if matches != [] {
      var n := |matches| - 1;
      var front := matches[..n];
      FillShown(before, a, front);
      FillKeepsLength<nat>(front, |before|);
      assert Shown(before, matches)[..n] == Shown(before, front);
      assert Shown(before, matches) == Shown(before, front) + [Shown(before, matches)[n]];
    }
  }

  lemma {:induction false} TranscriptShowsMatches(actions: seq<Action>)
    ensures Results(Transcript(actions).messages) == Shown(actions, Matches(actions))
  {
    hide Results, Reduced, Fill, Shown;
    if actions == [] {
      EmptyShown();
    } else {
      var n := |actions| - 1;
      var before := actions[..n];
      TranscriptShowsMatches(before);
      ReducedResults(Transcript(before), actions[n]);
      MatchesPointBack(before);
      assert actions == before + [actions[n]];
      ShownGrows(before, actions[n], Matches(before));
    }
  }

  lemma EmptyShown()
    ensures Results([]) == Shown([], [])
  {
  }

  lemma MatchesPointBack(actions: seq<Action>)
    ensures PointBack(actions, Matches(actions))
  {
    MatchesAreBrackets(actions);
    var cs, ms := Calls(actions), Matches(actions);
    forall p | 0 <= p < |ms| && ms[p].Some? ensures ms[p].value < |actions| && actions[ms[p].value].ToolResult? {
      assert MatchOk(actions, cs[p], ms[p], Gaps(ms[p + 1..]));
    }
  }

  /** For every sequence of actions, the activity of the p-th tool call shows a result exactly when some
      tool result closes that call, and then it shows that one. */
  lemma ToolResultsMatchAsBrackets(actions: seq<Action>, p: nat)
    requires p < |Calls(actions)|
    ensures var shown := Results(Transcript(actions).messages); var call := Calls(actions)[p];
      && |shown| == |Calls(actions)|
      && (shown[p].None? <==> Open(actions, call))
      && (forall j: nat :: Closes(actions, call, j) ==> shown[p] == Some(actions[j].content))
      && (shown[p].Some? ==> exists j: nat :: Closes(actions, call, j))
  {
    hide Open, Depth, Gaps, Calls, Matches, Transcript, Results;
    TranscriptShowsMatches(actions);
    MatchesAreBrackets(actions);
    var call, m := Calls(actions)[p], Matches(actions)[p];
    assert MatchOk(actions, call, m, Gaps(Matches(actions)[p + 1..]));
    forall j: nat | Closes(actions, call, j) ensures m == Some(j) {
      BracketsAreUnique(actions, call, j);
    }
    if m.Some? {
      BracketsAreUnique(actions, call, m.value);
    }
  }

  // ----- message ids, and what never changes -----

  ghost predicate IdsIncrease(s: Chat) {
    && (forall i, j | 0 <= i < j < |s.messages| :: s.messages[i].id < s.messages[j].id)
    && (forall i | 0 <= i < |s.messages| :: s.messages[i].id < s.nextId)
  }

  /** A message may only gain a missing result or a pending decision. */
  ghost predicate Evolves(m: Message, n: Message) {
    && n.id == m.id && n.text == m.text
    && match m.body {
      case Activity(tool, input, None) => n.body.Activity? && n.body.tool == tool && n.body.input == input
      case Permission(id, tool, input, Pending) =>
        n.body.Permission? && n.body.requestId == id && n.body.tool == tool && n.body.input == input
      case _ => n.body == m.body
    }
  }

  ghost predicate AllEvolve(ms: seq<Message>, ns: seq<Message>) {
    |ms| <= |ns| && forall i | 0 <= i < |ms| :: Evolves(ms[i], ns[i])
  }

  lemma {:induction false} AttachedEvolves(ms: seq<Message>, content: string)
    ensures AllEvolve(ms, Attached(ms, content)) && |Attached(ms, content)| == |ms|
  {
    if ms != [] {
      AttachedEvolves(ms[..|ms| - 1], content);
    }
  }

  /** Appending keeps the ids and whatever was there. */
  lemma PushedEvolves(s: Chat, text: string, body: Body)
    requires IdsIncrease(s)
    ensures IdsIncrease(Push(s, text, body)) && AllEvolve(s.messages, Push(s, text, body).messages)
  {
  }

  lemma FlushedEvolves(s: Chat, keep: bool)
    requires IdsIncrease(s)
    ensures IdsIncrease(Flushed(s, keep)) && AllEvolve(s.messages, Flushed(s, keep).messages)
  {
    hide Trim, IdsIncrease, AllEvolve;
    PushedEvolves(s, Trim(s.streaming), Claude);
    SelfEvolves(s.messages);
    SelfEvolves(Flushed(s, keep).messages);
    EvolvedIds(if Trim(s.streaming) != "" then Push(s, Trim(s.streaming), Claude) else s, Flushed(s, keep));
  }

  lemma EvolvedIds(s: Chat, t: Chat)
    requires IdsIncrease(s) && AllEvolve(s.messages, t.messages) && |t.messages| == |s.messages| && t.nextId == s.nextId
    ensures IdsIncrease(t)
  {
    forall i | 0 <= i < |s.messages| ensures t.messages[i].id == s.messages[i].id {
      assert Evolves(s.messages[i], t.messages[i]);
    }
  }

  lemma FlushThenPush(s: Chat, keep: bool, text: string, body: Body)
    requires IdsIncrease(s)
    ensures var t := Push(Flushed(s, keep), text, body); IdsIncrease(t) && AllEvolve(s.messages, t.messages)
  {
    hide IdsIncrease, AllEvolve, Flushed;
    FlushedEvolves(s, keep);
    PushedEvolves(Flushed(s, keep), text, body);
    EvolvesOn(s.messages, Flushed(s, keep).messages, Push(Flushed(s, keep), text, body).messages);
  }

  lemma ReducedEvolves(s: Chat, a: Action)
    requires IdsIncrease(s)
    ensures IdsIncrease(Reduced(s, a)) && AllEvolve(s.messages, Reduced(s, a).messages)
  {
    hide IdsIncrease, AllEvolve, Attached, AllDecided, Flushed, Push;
    var t := Reduced(s, a);
    SelfEvolves(s.messages);
    match a {
      case Done(id) =>
        var s' := if id != "" then s.(sessionId := id) else s;
        EvolvedIds(s, s');
        FlushedEvolves(s', false);
      case Failure(m) => FlushThenPush(s, false, ERROR_PREFIX + m, Error);
      case Aborted => FlushThenPush(s, false, ABORTED_LINE, System);
      case PeerChat(from, x) => PushedEvolves(s, x, Peer(from));
      case Unavailable =>
        EvolvedIds(s, s.(responding := false));
        PushedEvolves(s.(responding := false), UNAVAILABLE_LINE, System);
      case ToolCall(name, input) => FlushThenPush(s, true, "", Activity(name, input, None));
      case ToolResult(content) =>
        AttachedEvolves(s.messages, content);
        EvolvedIds(s, t);
      case PermissionRequest(id, tool, input) => PushedEvolves(s, "", Permission(id, tool, input, Pending));
      case Send(name, x) =>
        PushedEvolves(s, x, Me(name));
        SelfEvolves(t.messages);
        EvolvedIds(Push(s, x, Me(name)), t);
      case Notice(x) => PushedEvolves(s, x, System);
      case DecidePermission(id, allow) =>
        DecidedEvolves(s.messages, id, allow);
        SameDecidedLength(s.messages, id, allow);
        EvolvedIds(s, t);
      case _ => EvolvedIds(s, t);
    }
  }

  lemma EvolvesOn(a: seq<Message>, b: seq<Message>, c: seq<Message>)
    requires AllEvolve(a, b) && AllEvolve(b, c)
    ensures AllEvolve(a, c)
  {
    forall i | 0 <= i < |a| ensures Evolves(a[i], c[i]) {
      assert Evolves(a[i], b[i]) && Evolves(b[i], c[i]);
    }
  }

  /** Ids stay strictly increasing, and as the conversation goes on no line ever moves or changes but for
      a first result or a first decision: an attached result is never replaced. */
  lemma {:induction false} NothingIsRewritten(actions: seq<Action>, k: nat)
    requires k <= |actions|
    ensures IdsIncrease(Transcript(actions))
    ensures AllEvolve(Transcript(actions[..k]).messages, Transcript(actions).messages)
  {
    hide IdsIncrease, AllEvolve, Reduced;
    if k == |actions| {
      assert actions[..k] == actions;
      IdsFromStart(actions);
      SelfEvolves(Transcript(actions).messages);
    } else {
      var n := |actions| - 1;
      var before := actions[..n];
      NothingIsRewritten(before, k);
      assert before[..k] == actions[..k];
      ReducedEvolves(Transcript(before), actions[n]);
      EvolvesOn(Transcript(actions[..k]).messages, Transcript(before).messages, Transcript(actions).messages);
    }
  }

  lemma {:induction false} IdsFromStart(actions: seq<Action>)
    ensures IdsIncrease(Transcript(actions))
  {
    if actions != [] {
      hide Reduced, IdsIncrease;
      IdsFromStart(actions[..|actions| - 1]);
      ReducedEvolves(Transcript(actions[..|actions| - 1]), actions[|actions| - 1]);
    }
  }

  lemma SelfEvolves(ms: seq<Message>)
    ensures AllEvolve(ms, ms)
  {
  }

  // ----- no streamed text is lost -----

  /** A text without its white space. */
  function Ink(t: string): string {
    if t == "" then "" else Ink(t[..|t| - 1]) + if Blank(t[|t| - 1]) then "" else [t[|t| - 1]]
  }

  /** The text of the assistant's lines, joined. */
  function Lines(ms: seq<Message>): string {
    if ms == [] then "" else Lines(ms[..|ms| - 1]) + if ms[|ms| - 1].body.Claude? then ms[|ms| - 1].text else ""
  }

  /** The text events, joined. */
  function Streamed(actions: seq<Action>): string {
    if actions == [] then ""
    else Streamed(actions[..|actions| - 1]) + if actions[|actions| - 1].Text? then actions[|actions| - 1].text else ""
  }

  lemma {:induction false} InkJoins(a: string, b: string)
    ensures Ink(a + b) == Ink(a) + Ink(b)
  {
    if b == "" {
      assert a + b == a;
    } else {
      var n := |b| - 1;
      InkJoins(a, b[..n]);
      assert (a + b)[..|a + b| - 1] == a + b[..n];
    }
  }

  lemma {:induction false} TrimEndKeepsInk(t: string)
    ensures Ink(TrimEnd(t)) == Ink(t)
  {
    if t != "" && Blank(t[|t| - 1]) {
      TrimEndKeepsInk(t[..|t| - 1]);
    }
  }

  lemma {:induction false} TrimKeepsInk(t: string)
    ensures Ink(TrimStart(t)) == Ink(t)
    ensures Ink(Trim(t)) == Ink(t)
  {
    if t != "" && Blank(t[0]) {
      TrimKeepsInk(t[1..]);
      InkJoins(t[..1], t[1..]);
      assert t == t[..1] + t[1..];
      assert t[..1][..0] == "";
    }
    TrimEndKeepsInk(TrimStart(t));
  }

  lemma PushedLines(s: Chat, text: string, body: Body)
    ensures Lines(Push(s, text, body).messages) == Lines(s.messages) + if body.Claude? then text else ""
  {
    assert Push(s, text, body).messages[..|s.messages|] == s.messages;
  }

  lemma FlushedInk(s: Chat, keep: bool)
    ensures var t := Flushed(s, keep);
      Ink(Lines(t.messages)) == Ink(Lines(s.messages)) + Ink(s.streaming) && t.streaming == ""
  {
    hide Lines, Trim;
    var line := Trim(s.streaming);
    TrimKeepsInk(s.streaming);
    PushedLines(s, line, Claude);
    InkJoins(Lines(s.messages), line);
  }

  lemma {:induction false} SameLines(ms: seq<Message>, ns: seq<Message>)
    requires |ms| == |ns| && AllEvolve(ms, ns)
    ensures Lines(ms) == Lines(ns)
  {
    if ms != [] {
      var n := |ms| - 1;
      assert Evolves(ms[n], ns[n]);
      SameLines(ms[..n], ns[..n]);
    }
  }

  lemma DecidedEvolves(ms: seq<Message>, requestId: string, allow: bool)
    ensures AllEvolve(ms, AllDecided(ms, requestId, allow))
  {
  }

  /** The ink on the assistant's lines followed by the ink still streaming. */
  function Inked(s: Chat): string {
    Ink(Lines(s.messages)) + Ink(s.streaming)
  }

  lemma ReducedInk(s: Chat, a: Action)
    ensures Inked(Reduced(s, a)) == Inked(s) + if a.Text? then Ink(a.text) else ""
  {
    hide Lines, Ink, Attached, Push, Flushed, AllDecided;
    EmptyInk();
    match a {
      case Text(t) => InkJoins(s.streaming, t);
      case Done(id) => FlushedInk(if id != "" then s.(sessionId := id) else s, false);
      case Failure(m) => FlushedInk(s, false); PushedInk(Flushed(s, false), ERROR_PREFIX + m, Error);
      case Aborted => FlushedInk(s, false); PushedInk(Flushed(s, false), ABORTED_LINE, System);
      case PeerChat(from, t) => PushedInk(s, t, Peer(from));
      case Unavailable => PushedInk(s.(responding := false), UNAVAILABLE_LINE, System);
      case ToolCall(name, input) => FlushedInk(s, true); PushedInk(Flushed(s, true), "", Activity(name, input, None));
      case ToolResult(content) =>
        AttachedEvolves(s.messages, content);
        SameLines(s.messages, Attached(s.messages, content));
      case PermissionRequest(id, tool, input) => PushedInk(s, "", Permission(id, tool, input, Pending));
      case Send(name, t) => PushedInk(s, t, Me(name));
      case Notice(t) => PushedInk(s, t, System);
      case DecidePermission(id, allow) =>
        DecidedEvolves(s.messages, id, allow);
        SameDecidedLength(s.messages, id, allow);
        SameLines(s.messages, AllDecided(s.messages, id, allow));
      case _ =>
    }
  }

  lemma EmptyInk()
    ensures Ink("") == ""
  {
  }

  lemma SameDecidedLength(ms: seq<Message>, requestId: string, allow: bool)
    ensures |AllDecided(ms, requestId, allow)| == |ms|
  {
  }

  lemma PushedInk(s: Chat, text: string, body: Body)
    requires !body.Claude?
    ensures Inked(Push(s, text, body)) == Inked(s) && Push(s, text, body).streaming == s.streaming
  {
    hide Lines, Ink;
    PushedLines(s, text, body);
    assert Lines(s.messages) + "" == Lines(s.messages);
  }

  /** No streamed text is lost, repeated or reordered: up to white space, the assistant's lines followed
      by the text still streaming are exactly the text events in order. */
  lemma {:induction false} StreamIsConserved(actions: seq<Action>)
    ensures Inked(Transcript(actions)) == Ink(Streamed(actions))
  {
    hide Reduced, Ink;
    if actions == [] {
      EmptyInk();
      EmptyInked(Transcript(actions));
    } else {
      var n := |actions| - 1;
      StreamIsConserved(actions[..n]);
      ReducedInk(Transcript(actions[..n]), actions[n]);
      if actions[n].Text? {
        InkJoins(Streamed(actions[..n]), actions[n].text);
      } else {
        assert Streamed(actions) == Streamed(actions[..n]);
      }
    }
  }

  lemma EmptyInked(s: Chat)
    requires s.messages == [] && s.streaming == ""
    ensures Inked(s) == ""
  {
    var lines := Lines(s.messages);
    assert lines == "";
    assert Inked(s) == Ink(lines) + Ink(s.streaming);
  }

  // ----- the transcript shows what happened, in order -----

  /** A line as it was put into the transcript, without what it gains later. */
  datatype Line =
    | Mine(name: string, text: string)
    | Peers(name: string, text: string)
    | SystemLine(text: string)
    | ErrorLine(text: string)
    | ToolLine(tool: string, input: string)
    | Card(requestId: string, tool: string, input: string)

  function LineOf(m: Message): seq<Line> {
    match m.body
    case Claude => []
    case Me(name) => [Mine(name, m.text)]
    case Peer(name) => [Peers(name, m.text)]
    case System => [SystemLine(m.text)]
    case Error => [ErrorLine(m.text)]
    case Activity(tool, input, _) => [ToolLine(tool, input)]
    case Permission(id, tool, input, _) => [Card(id, tool, input)]
  }

  /** The line an action adds, besides the assistant's own text. */
  function Adds(a: Action): seq<Line> {
    match a
    case Failure(m) => [ErrorLine("오류: " + m)]
    case Aborted => [SystemLine("응답이 중단되었습니다.")]
    case PeerChat(from, t) => [Peers(from, t)]
    case Unavailable => [SystemLine("호스트가 연결되어 있지 않습니다 — 노트북 데몬이 실행 중인지 확인하세요.")]
    case ToolCall(name, input) => [ToolLine(name, input)]
    case PermissionRequest(id, tool, input) => [Card(id, tool, input)]
    case Send(name, t) => [Mine(name, t)]
    case Notice(t) => [SystemLine(t)]
    case _ => []
  }

  function Shows(ms: seq<Message>): seq<Line> {
    if ms == [] then [] else Shows(ms[..|ms| - 1]) + LineOf(ms[|ms| - 1])
  }

  function Added(actions: seq<Action>): seq<Line> {
    if actions == [] then [] else Added(actions[..|actions| - 1]) + Adds(actions[|actions| - 1])
  }

  lemma PushedShows(s: Chat, text: string, body: Body)
    ensures Shows(Push(s, text, body).messages) == Shows(s.messages) + LineOf(Message(s.nextId, text, body))
  {
    assert Push(s, text, body).messages[..|s.messages|] == s.messages;
  }

  lemma FlushedShows(s: Chat, keep: bool)
    ensures Shows(Flushed(s, keep).messages) == Shows(s.messages)
  {
    hide Trim;
    PushedShows(s, Trim(s.streaming), Claude);
    assert Shows(s.messages) + [] == Shows(s.messages);
  }

  lemma {:induction false} SameShows(ms: seq<Message>, ns: seq<Message>)
    requires |ms| == |ns| && AllEvolve(ms, ns)
    ensures Shows(ms) == Shows(ns)
  {
    if ms != [] {
      var n := |ms| - 1;
      assert Evolves(ms[n], ns[n]);
      SameShows(ms[..n], ns[..n]);
    }
  }

  lemma FlushThenShows(s: Chat, keep: bool, text: string, body: Body)
    ensures Shows(Push(Flushed(s, keep), text, body).messages)
         == Shows(s.messages) + LineOf(Message(Flushed(s, keep).nextId, text, body))
  {
    hide Flushed, LineOf;
    FlushedShows(s, keep);
    PushedShows(Flushed(s, keep), text, body);
  }

  lemma ReducedShows(s: Chat, a: Action)
    ensures Shows(Reduced(s, a).messages) == Shows(s.messages) + Adds(a)
  {
    hide Shows, Attached, Push, Flushed, AllDecided;
    assert Shows(s.messages) + [] == Shows(s.messages);
    match a {
      case Done(id) => FlushedShows(if id != "" then s.(sessionId := id) else s, false);
      case Failure(m) => FlushThenShows(s, false, ERROR_PREFIX + m, Error);
      case Aborted => FlushThenShows(s, false, ABORTED_LINE, System);
      case PeerChat(from, t) => PushedShows(s, t, Peer(from));
      case Unavailable => PushedShows(s.(responding := false), UNAVAILABLE_LINE, System);
      case ToolCall(name, input) => FlushThenShows(s, true, "", Activity(name, input, None));
      case ToolResult(content) =>
        AttachedEvolves(s.messages, content);
        SameShows(s.messages, Attached(s.messages, content));
      case PermissionRequest(id, tool, input) => PushedShows(s, "", Permission(id, tool, input, Pending));
      case Send(name, t) => PushedShows(s, t, Me(name));
      case Notice(t) => PushedShows(s, t, System);
      case DecidePermission(id, allow) =>
        DecidedEvolves(s.messages, id, allow);
        SameDecidedLength(s.messages, id, allow);
        SameShows(s.messages, AllDecided(s.messages, id, allow));
      case _ =>
    }
  }

  /** Besides the assistant's text the transcript shows exactly one line for each action that calls for one,
      in the order of the actions, with that action's own words. */
  lemma {:induction false} TranscriptShowsActions(actions: seq<Action>)
    ensures Shows(Transcript(actions).messages) == Added(actions)
  {
    hide Reduced, Adds;
    if actions != [] {
      var n := |actions| - 1;
      TranscriptShowsActions(actions[..n]);
      ReducedShows(Transcript(actions[..n]), actions[n]);
    }
  }

  // ----- permission cards -----

  /** The first decision for a request among the actions; Pending if there is none. */
  function FirstDecision(actions: seq<Action>, requestId: string): Verdict {
    if actions == [] then Pending
    else if actions[0].DecidePermission? && actions[0].requestId == requestId then
      if actions[0].allow then Allowed else Denied
    else FirstDecision(actions[1..], requestId)
  }

  function Decisions(ms: seq<Message>): seq<Verdict> {
    if ms == [] then []
    else
      var last := ms[|ms| - 1];
      Decisions(ms[..|ms| - 1]) + if last.body.Permission? then [last.body.decision] else []
  }

  function RequestIds(ms: seq<Message>): seq<string> {
    if ms == [] then []
    else
      var last := ms[|ms| - 1];
      RequestIds(ms[..|ms| - 1]) + if last.body.Permission? then [last.body.requestId] else []
  }

  /** The positions of the permission requests, in order. */
  function Requests(actions: seq<Action>): seq<nat> {
    if actions == [] then []
    else
      var n: nat := |actions| - 1;
      Requests(actions[..n]) + if actions[n].PermissionRequest? then [n] else []
  }

  /** One decision applied to a card. */
  function Settled(v: Verdict, own: string, requestId: string, allow: bool): Verdict {
    if v == Pending && own == requestId then if allow then Allowed else Denied else v
  }

  function AllSettled(vs: seq<Verdict>, ids: seq<string>, requestId: string, allow: bool): seq<Verdict>
    requires |vs| == |ids|
  {
    seq(|vs|, i requires 0 <= i < |vs| => Settled(vs[i], ids[i], requestId, allow))
  }

  lemma {:induction false} CardsMatch(ms: seq<Message>)
    ensures |Decisions(ms)| == |RequestIds(ms)|
  {
    if ms != [] {
      CardsMatch(ms[..|ms| - 1]);
    }
  }

  lemma {:induction false} DecidedSettles(ms: seq<Message>, requestId: string, allow: bool)
    ensures |Decisions(ms)| == |RequestIds(ms)|
    ensures Decisions(AllDecided(ms, requestId, allow)) == AllSettled(Decisions(ms), RequestIds(ms), requestId, allow)
    ensures RequestIds(AllDecided(ms, requestId, allow)) == RequestIds(ms)
  {
    CardsMatch(ms);
    if ms != [] {
      var n := |ms| - 1;
      CardsMatch(ms[..n]);
      DecidedSettles(ms[..n], requestId, allow);
      assert AllDecided(ms, requestId, allow)[..n] == AllDecided(ms[..n], requestId, allow);
    }
  }

  lemma PushedCards(s: Chat, text: string, body: Body)
    ensures var ms := Push(s, text, body).messages;
      && Decisions(ms) == Decisions(s.messages) + (if body.Permission? then [body.decision] else [])
      && RequestIds(ms) == RequestIds(s.messages) + (if body.Permission? then [body.requestId] else [])
  {
    assert Push(s, text, body).messages[..|s.messages|] == s.messages;
  }

  lemma FlushedCards(s: Chat, keep: bool)
    ensures Decisions(Flushed(s, keep).messages) == Decisions(s.messages)
    ensures RequestIds(Flushed(s, keep).messages) == RequestIds(s.messages)
  {
    hide Trim, Decisions, RequestIds;
    PushedCards(s, Trim(s.streaming), Claude);
    assert Decisions(s.messages) + [] == Decisions(s.messages) && RequestIds(s.messages) + [] == RequestIds(s.messages);
  }

  lemma {:induction false} AttachedCards(ms: seq<Message>, content: string)
    ensures Decisions(Attached(ms, content)) == Decisions(ms) && RequestIds(Attached(ms, content)) == RequestIds(ms)
    ensures |Attached(ms, content)| == |ms|
  {
    if ms != [] {
      var front, last := ms[..|ms| - 1], ms[|ms| - 1];
      AttachedCards(front, content);
      assert Attached(ms, content)[..|ms| - 1] == if Unanswered(last) then front else Attached(front, content);
    }
  }

  /** What one action does to the cards. */
  lemma ReducedCards(s: Chat, a: Action)
    ensures |Decisions(s.messages)| == |RequestIds(s.messages)|
    ensures var ds, ids, ms := Decisions(s.messages), RequestIds(s.messages), Reduced(s, a).messages;
      && Decisions(ms) == (if a.PermissionRequest? then ds + [Pending]
           else if a.DecidePermission? then AllSettled(ds, ids, a.requestId, a.allow) else ds)
      && RequestIds(ms) == (if a.PermissionRequest? then ids + [a.requestId] else ids)
  {
    hide Decisions, RequestIds, Attached, Push, Flushed, AllDecided, AllSettled;
    CardsMatch(s.messages);
    assert Decisions(s.messages) + [] == Decisions(s.messages) && RequestIds(s.messages) + [] == RequestIds(s.messages);
    match a {
      case Done(id) => FlushedCards(if id != "" then s.(sessionId := id) else s, false);
      case Failure(m) => FlushedCards(s, false); PlainCards(Flushed(s, false), ERROR_PREFIX + m, Error);
      case Aborted => FlushedCards(s, false); PlainCards(Flushed(s, false), ABORTED_LINE, System);
      case PeerChat(from, t) => PlainCards(s, t, Peer(from));
      case Unavailable => PlainCards(s.(responding := false), UNAVAILABLE_LINE, System);
      case ToolCall(name, input) =>
        FlushedCards(s, true);
        PlainCards(Flushed(s, true), "", Activity(name, input, None));
      case ToolResult(content) => AttachedCards(s.messages, content);
      case PermissionRequest(id, tool, input) => PushedCards(s, "", Permission(id, tool, input, Pending));
      case Send(name, t) => PlainCards(s, t, Me(name));
      case Notice(t) => PlainCards(s, t, System);
      case DecidePermission(id, allow) => DecidedSettles(s.messages, id, allow);
      case _ =>
    }
  }

  lemma PlainCards(s: Chat, text: string, body: Body)
    requires !body.Permission?
    ensures Decisions(Push(s, text, body).messages) == Decisions(s.messages)
    ensures RequestIds(Push(s, text, body).messages) == RequestIds(s.messages)
  {
    hide Decisions, RequestIds;
    PushedCards(s, text, body);
    assert Decisions(s.messages) + [] == Decisions(s.messages) && RequestIds(s.messages) + [] == RequestIds(s.messages);
  }

  lemma {:induction false} DecisionAppended(actions: seq<Action>, a: Action, requestId: string)
    ensures FirstDecision(actions + [a], requestId)
         == if a.DecidePermission? then Settled(FirstDecision(actions, requestId), requestId, a.requestId, a.allow)
            else FirstDecision(actions, requestId)
  {
    if actions == [] {
      assert [a][1..] == [] && [] + [a] == [a];
    } else {
      assert (actions + [a])[1..] == actions[1..] + [a];
      DecisionAppended(actions[1..], a, requestId);
    }
  }

  /** For every action sequence, the p-th permission card carries the request id of the p-th request and shows
      the first decision made for that id after it, or is pending if there was none. */
  lemma {:induction false} CardsShowFirstDecision(actions: seq<Action>)
    ensures var ds, ids := Decisions(Transcript(actions).messages), RequestIds(Transcript(actions).messages);
      && |ds| == |ids| == |Requests(actions)|
      && forall p | 0 <= p < |ds| :: CardRight(actions, Requests(actions)[p], ids[p], ds[p])
  {
    hide Reduced, Decisions, RequestIds;
    if actions == [] {
      NoCards();
    } else {
      var n: nat := |actions| - 1;
      var before, s := actions[..n], Transcript(actions[..n]);
      CardsShowFirstDecision(before);
      ReducedCards(s, actions[n]);
      assert actions == before + [actions[n]];
      forall p | 0 <= p < |Decisions(Transcript(actions).messages)|
        ensures CardRight(actions, Requests(actions)[p], RequestIds(Transcript(actions).messages)[p],
                          Decisions(Transcript(actions).messages)[p])
      {
        if p < |Requests(before)| {
          assert CardRight(before, Requests(before)[p], RequestIds(s.messages)[p], Decisions(s.messages)[p]);
          var i := Requests(before)[p];
          DecisionAppended(before[i + 1..], actions[n], RequestIds(s.messages)[p]);
          assert actions[i + 1..] == before[i + 1..] + [actions[n]];
        }
      }
    }
  }

  lemma NoCards()
    ensures Decisions([]) == [] && RequestIds([]) == []
  {
  }

  /** The card of the request at position i. */
  ghost predicate CardRight(actions: seq<Action>, i: nat, requestId: string, decision: Verdict) {
    && i < |actions| && actions[i].PermissionRequest? && actions[i].requestId == requestId
    && decision == FirstDecision(actions[i + 1..], requestId)
  }

  // ----- the state of the conversation -----

  predicate OpensTurn(a: Action) {
    a.Text? || a.Thinking? || a.ToolCall? || a.Send?
  }

  predicate ClosesTurn(a: Action) {
    a.Done? || a.Failure? || a.Aborted? || a.Unavailable?
  }

  /** What one action does to the state beside the transcript. */
  lemma ReducedFlags(s: Chat, a: Action)
    ensures var t := Reduced(s, a);
      && t.responding == (OpensTurn(a) || (s.responding && !ClosesTurn(a)))
      && t.sessionId == (if Session(a) != "" then Session(a) else s.sessionId)
      && t.hostUp == (if a.HostStatus? then a.connected else s.hostUp)
      && t.thinking == (if ClearsThoughts(a) then "" else if a.Thinking? then s.thinking + a.text else s.thinking)
  {
    hide Trim, Attached, AllDecided;
  }

  /** The action at i opened a turn that nothing has closed since. */
  ghost predicate OpenSince(actions: seq<Action>, i: nat) {
    i < |actions| && OpensTurn(actions[i]) && forall j | i < j < |actions| :: !ClosesTurn(actions[j])
  }

  /** A turn is live exactly if something opened one and nothing has closed it since. */
  lemma {:induction false} RespondingExactly(actions: seq<Action>)
    ensures Transcript(actions).responding <==> exists i: nat :: OpenSince(actions, i)
  {
    hide Reduced, OpensTurn, ClosesTurn;
    if actions != [] {
      var n := |actions| - 1;
      var before, a := actions[..n], actions[n];
      RespondingExactly(before);
      ReducedFlags(Transcript(before), a);
      NotBoth(a);
      if Transcript(actions).responding {
        if OpensTurn(a) {
          assert OpenSince(actions, n);
        } else {
          var i: nat :| OpenSince(before, i);
          assert OpenSince(actions, i);
        }
      }
      forall i: nat | OpenSince(actions, i) ensures Transcript(actions).responding {
        if i < n {
          assert OpenSince(before, i);
        }
      }
    }
  }

  lemma NotBoth(a: Action)
    ensures !(OpensTurn(a) && ClosesTurn(a))
  {
  }

  /** What an action says about the session, "" if nothing. */
  function Session(a: Action): string {
    if a.SessionId? || a.Done? then a.sessionId else ""
  }

  /** The session id is the last one that was not blank. */
  lemma {:induction false} SessionIsLast(actions: seq<Action>, i: nat)
    requires i < |actions| && Session(actions[i]) != "" && forall j | i < j < |actions| :: Session(actions[j]) == ""
    ensures Transcript(actions).sessionId == Session(actions[i])
  {
    hide Reduced;
    var n := |actions| - 1;
    ReducedFlags(Transcript(actions[..n]), actions[n]);
    if i < n {
      SessionIsLast(actions[..n], i);
    }
  }

  /** The host is up exactly as last reported. */
  lemma {:induction false} HostIsLast(actions: seq<Action>, i: nat)
    requires i < |actions| && actions[i].HostStatus? && forall j | i < j < |actions| :: !actions[j].HostStatus?
    ensures Transcript(actions).hostUp == actions[i].connected
  {
    hide Reduced;
    var n := |actions| - 1;
    ReducedFlags(Transcript(actions[..n]), actions[n]);
    if i < n {
      HostIsLast(actions[..n], i);
    }
  }

  predicate ClearsThoughts(a: Action) {
    a.Done? || a.Failure? || a.Aborted? || a.Send?
  }

  function Thoughts(actions: seq<Action>): string {
    if actions == [] then ""
    else
      var last := actions[|actions| - 1];
      Thoughts(actions[..|actions| - 1]) + if last.Thinking? then last.text else ""
  }

  /** The thinking text shown is everything thought since it was last cleared. */
  lemma {:induction false} ThoughtsSince(before: seq<Action>, after: seq<Action>)
    requires before == [] || ClearsThoughts(before[|before| - 1])
    requires forall j | 0 <= j < |after| :: !ClearsThoughts(after[j])
    ensures Transcript(before + after).thinking == Thoughts(after)
    decreases |after|
  {
    hide Reduced;
    if after == [] {
      assert before + after == before;
      if before != [] {
        ReducedFlags(Transcript(before[..|before| - 1]), before[|before| - 1]);
      }
    } else {
      var n := |after| - 1;
      ThoughtsSince(before, after[..n]);
      assert (before + after)[..|before| + n] == before + after[..n];
      ReducedFlags(Transcript(before + after[..n]), after[n]);
      assert Thoughts(after[..n]) + "" == Thoughts(after[..n]);
    }
  }
}
