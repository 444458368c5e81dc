/** The chat transcript of the agent loops, and what each call sees. */
module Transcript {
  import opened Options

  type CallId = nat

  datatype Message =
    | System(text: string)
    | User(text: string)
    | Assistant(text: string, calls: seq<CallId>)
    | Tool(id: CallId, text: string)

  /** The messages right after an assistant's answer its calls in order, once each. */
  predicate Answers(calls: seq<CallId>, rest: seq<Message>) {
    |calls| <= |rest| && forall i | 0 <= i < |calls| :: rest[i].Tool? && rest[i].id == calls[i]
  }

  /** Each block of tool messages directly follows its assistant message and answers its calls. */
  predicate WellFormed(ms: seq<Message>)
    decreases |ms|
  {
    ms == [] ||
    match ms[0]
    case Tool(_, _) => false
    case Assistant(_, calls) => Answers(calls, ms[1..]) && WellFormed(ms[1 + |calls|..])
    case _ => WellFormed(ms[1..])
  }

  lemma AnswersMore(calls: seq<CallId>, a: seq<Message>, b: seq<Message>)
    requires Answers(calls, a)
    ensures |calls| <= |a| && Answers(calls, a + b)
  {
  }

  lemma {:induction false} Append(a: seq<Message>, b: seq<Message>)
    requires WellFormed(a) && WellFormed(b)
    ensures WellFormed(a + b)
    decreases |a|
  {
    hide Answers;
    if a == [] {
      assert a + b == b;
    } else {
      var calls := if a[0].Assistant? then a[0].calls else [];
      var n := 1 + |calls|;
      if a[0].Assistant? { AnswersMore(calls, a[1..], b); }
      assert (a + b)[1..] == a[1..] + b;
      assert (a + b)[n..] == a[n..] + b;
      Append(a[n..], b);
    }
  }

  // ---- Trimming ----

  function Heads(ms: seq<Message>): (n: nat)
    ensures n <= |ms|
    ensures forall i | 0 <= i < n :: ms[i].System?
    ensures n < |ms| ==> !ms[n].System?
  {
    if ms == [] || !ms[0].System? then 0 else 1 + Heads(ms[1..])
  }

  function DropTools(ms: seq<Message>): seq<Message> {
    if ms != [] && ms[0].Tool? then DropTools(ms[1..]) else ms
  }

  lemma HeadsAt(ms: seq<Message>, head: nat)
    requires head <= |ms|
    ensures Heads(ms[head..]) == if head < |ms| && ms[head].System? then 1 + Heads(ms[head + 1..]) else 0
  {
    if head < |ms| {
      assert ms[head..][1..] == ms[head + 1..];
    }
  }

  lemma DropToolsAt(ms: seq<Message>)
    ensures DropTools(ms) == if ms != [] && ms[0].Tool? then DropTools(ms[1..]) else ms
  {
  }

  /** `_trim_messages`: the leading system messages, and of the rest the most recent ones, less any
      tool messages left without their assistant message. */
  function Trimmed(ms: seq<Message>, max: nat): seq<Message> {
    var n := Heads(ms);
    if |ms| - n <= max then ms else ms[..n] + DropTools(ms[|ms| - max..])
  }

  lemma {:induction false} DropAnswers(calls: seq<CallId>, ms: seq<Message>)
    requires Answers(calls, ms) && WellFormed(ms[|calls|..])
    ensures DropTools(ms) == ms[|calls|..]
    decreases |calls|
  {
    if calls == [] {
      assert ms[|calls|..] == ms;
    } else {
      assert ms[0].Tool?;
      assert forall i | 0 <= i < |calls| - 1 :: calls[1..][i] == calls[i + 1] && ms[1..][i] == ms[i + 1];
      assert ms[1..][|calls[1..]|..] == ms[|calls|..];
      DropAnswers(calls[1..], ms[1..]);
    }
  }

  /** Any suffix of a well-formed transcript is well-formed once orphaned tool messages go. */
  lemma {:induction false} SuffixWellFormed(ms: seq<Message>, k: nat)
    requires WellFormed(ms) && k <= |ms|
    ensures WellFormed(DropTools(ms[k..]))
    decreases |ms|
  {
    if k == 0 {
      assert ms[k..] == ms;
    } else {
      var calls := if ms[0].Assistant? then ms[0].calls else [];
      var n := 1 + |calls|;
      assert WellFormed(ms[n..]);
      if k >= n {
        assert ms[n..][k - n..] == ms[k..];
        SuffixWellFormed(ms[n..], k - n);
      } else {
        var left := calls[k - 1..];
        assert forall i | 0 <= i < |left| :: ms[k..][i] == ms[1..][k - 1 + i] && left[i] == calls[k - 1 + i];
        assert ms[k..][|left|..] == ms[n..];
        DropAnswers(left, ms[k..]);
      }
    }
  }

  lemma {:induction false} SystemsWellFormed(ms: seq<Message>)
    requires forall m | m in ms :: m.System?
    ensures WellFormed(ms)
    decreases |ms|
  {
    if ms != [] { SystemsWellFormed(ms[1..]); }
  }

  /** Trimming keeps a transcript well-formed. */
  lemma TrimWellFormed(ms: seq<Message>, max: nat)
    requires WellFormed(ms)
    ensures WellFormed(Trimmed(ms, max))
  {
    var n := Heads(ms);
    if |ms| - n > max {
      SuffixWellFormed(ms, |ms| - max);
      SystemsWellFormed(ms[..n]);
      Append(ms[..n], DropTools(ms[|ms| - max..]));
    }
  }

  lemma {:induction false} DropToolsSuffix(ms: seq<Message>) returns (k: nat)
    ensures k <= |ms| && DropTools(ms) == ms[k..] && forall i | 0 <= i < k :: ms[i].Tool?
    decreases |ms|
  {
    k := 0;
    if ms != [] && ms[0].Tool? {
      var j := DropToolsSuffix(ms[1..]);
      k := j + 1;
    }
  }

  lemma Suffix(ms: seq<Message>, cut: nat, j: nat)
    requires cut + j <= |ms|
    ensures ms[cut..][j..] == ms[cut + j..]
  {
  }

  /** It loses nothing else: what is left is the system head and a suffix, at most `max` long and
      short of `max` only by orphaned tool messages. */
  lemma TrimKeepsRecent(ms: seq<Message>, max: nat) returns (k: nat)
    requires |ms| - Heads(ms) > max
    ensures |ms| - max <= k <= |ms| && Trimmed(ms, max) == ms[..Heads(ms)] + ms[k..]
    ensures forall i | |ms| - max <= i < k :: ms[i].Tool?
  {
    hide DropTools, Heads;
    var cut := |ms| - max;
    var j := DropToolsSuffix(ms[cut..]);
    k := cut + j;
    Suffix(ms, cut, j);
    forall i | cut <= i < k ensures ms[i].Tool? {
      assert ms[i] == ms[cut..][i - cut];
    }
  }

  /** The leading system messages end at `n`. */
  ghost predicate HeadEnds(ms: seq<Message>, n: int) {
    0 <= n <= |ms| && (forall i | 0 <= i < n :: ms[i].System?) && (n < |ms| ==> !ms[n].System?)
  }

  /** From `from` on the first message that is not a tool's is at `k`. */
  ghost predicate ToolsEnd(ms: seq<Message>, from: int, k: int)
    requires 0 <= from
  {
    from <= k <= |ms| && (forall i | from <= i < k :: ms[i].Tool?) && (k < |ms| ==> !ms[k].Tool?)
  }

  /** `cut` is `ms` trimmed, where the system head of `ms` ends at `n`. */
  ghost predicate IsTrimAfter(ms: seq<Message>, n: nat, max: int, cut: seq<Message>) {
    if |ms| - n <= max then cut == ms
    else max >= 0 && n <= |ms| && exists k :: ToolsEnd(ms, |ms| - max, k) && cut == ms[..n] + ms[k..]
  }

  /** `cut` is `ms` trimmed: all of it if at most `max` messages follow the system head, and else that
      head and the last `max` messages without the tool messages they begin with. */
  ghost predicate IsTrim(ms: seq<Message>, max: int, cut: seq<Message>) {
    exists n :: HeadEnds(ms, n) && IsTrimAfter(ms, n, max, cut)
  }

  lemma {:induction false} DropToolsStops(ms: seq<Message>)
    ensures DropTools(ms) != [] ==> !DropTools(ms)[0].Tool?
    decreases |ms|
  {
    if ms != [] && ms[0].Tool? { DropToolsStops(ms[1..]); }
  }

  lemma TrimStops(ms: seq<Message>, max: nat, k: nat)
    requires |ms| - Heads(ms) > max && k <= |ms| && Trimmed(ms, max) == ms[..Heads(ms)] + ms[k..]
    ensures k < |ms| ==> !ms[k].Tool?
  {
    var n := Heads(ms);
    var rest := DropTools(ms[|ms| - max..]);
    DropToolsStops(ms[|ms| - max..]);
    assert rest == (ms[..n] + rest)[n..] == (ms[..n] + ms[k..])[n..] == ms[k..];
  }

  lemma TrimmedIsTrim(ms: seq<Message>, max: nat)
    ensures IsTrim(ms, max, Trimmed(ms, max))
  {
    assert HeadEnds(ms, Heads(ms));
    if |ms| - Heads(ms) > max {
      var k := TrimKeepsRecent(ms, max);
      TrimStops(ms, max, k);
      assert ToolsEnd(ms, |ms| - max, k);
    }
  }

  lemma {:induction false} HeadsPrefix(a: seq<Message>, b: seq<Message>)
    requires forall m | m in a :: m.System?
    ensures Heads(a + b) >= |a|
    decreases |a|
  {
  }

  /** The messages after the system head. */
  function BodySize(ms: seq<Message>): nat {
    |ms| - Heads(ms)
  }

  lemma TrimBounds(ms: seq<Message>, max: nat)
    ensures BodySize(Trimmed(ms, max)) <= max
  {
    if BodySize(ms) > max {
      var k := TrimKeepsRecent(ms, max);
      HeadsPrefix(ms[..Heads(ms)], ms[k..]);
    }
  }

  // ---- The active agent's system prompt ----

  function NonSystem(ms: seq<Message>): seq<Message> {
    if ms == [] then [] else (if ms[0].System? then [] else [ms[0]]) + NonSystem(ms[1..])
  }

  /** `_with_system`; an empty prompt counts as none. */
  function WithSystem(ms: seq<Message>, system: Option<string>): seq<Message> {
    if system.Some? && system.value != "" then [System(system.value)] + NonSystem(ms) else NonSystem(ms)
  }

  lemma {:induction false} NonSystemAppend(a: seq<Message>, b: seq<Message>)
    ensures NonSystem(a + b) == NonSystem(a) + NonSystem(b)
    decreases |a|
  {
    if a == [] {
      assert a + b == b;
    } else {
      assert (a + b)[1..] == a[1..] + b;
      NonSystemAppend(a[1..], b);
    }
  }

  lemma {:induction false} NonSystemSame(ms: seq<Message>)
    requires forall m | m in ms :: !m.System?
    ensures NonSystem(ms) == ms
    decreases |ms|
  {
    if ms != [] { NonSystemSame(ms[1..]); }
  }

  /** `rest` is what remains of `ms` without the system messages, message `at[j]` becoming message `j`. */
  ghost predicate OthersAt(ms: seq<Message>, rest: seq<Message>, at: seq<int>) {
    && |at| == |rest|
    && (forall j | 0 <= j < |at| :: 0 <= at[j] < |ms| && rest[j] == ms[at[j]] && !rest[j].System?)
    && (forall j, k | 0 <= j < k < |at| :: at[j] < at[k])
    && forall i | 0 <= i < |ms| && !ms[i].System? :: i in at
  }

  /** The prompt, unless it is empty or there is none, and then all messages that are no prompts. */
  ghost predicate Prompted(ms: seq<Message>, system: Option<string>, shown: seq<Message>) {
    exists at :: if system == None || system == Some("") then OthersAt(ms, shown, at)
      else shown != [] && shown[0] == System(system.value) && OthersAt(ms, shown[1..], at)
  }

  lemma {:induction false} NonSystemAt(ms: seq<Message>) returns (at: seq<int>)
    ensures OthersAt(ms, NonSystem(ms), at)
    decreases |ms|
  {
    at := [];
    if ms != [] {
      var n := |ms| - 1;
      at := NonSystemAt(ms[..n]);
      assert ms == ms[..n] + [ms[n]];
      NonSystemAppend(ms[..n], [ms[n]]);
      assert [ms[n]][1..] == [];
      assert NonSystem([ms[n]]) == if ms[n].System? then [] else [ms[n]];
      hide NonSystem;
      OthersMore(ms[..n], NonSystem(ms[..n]), at, ms[n]);
      if !ms[n].System? { at := at + [n]; }
    }
  }

  lemma OthersMore(ms: seq<Message>, rest: seq<Message>, at: seq<int>, m: Message)
    requires OthersAt(ms, rest, at)
    ensures if m.System? then OthersAt(ms + [m], rest + [], at) else OthersAt(ms + [m], rest + [m], at + [|ms|])
  {
    assert rest + [] == rest;
    forall i | 0 <= i < |ms| && !ms[i].System? ensures i in at + [|ms|] {
      assert i in at;
    }
  }

  lemma WithSystemPrompts(ms: seq<Message>, system: Option<string>)
    ensures Prompted(ms, system, WithSystem(ms, system))
  {
    var at := NonSystemAt(ms);
    hide OthersAt;
    if system.Some? && system.value != "" {
      assert WithSystem(ms, system)[1..] == NonSystem(ms);
    }
  }

  lemma {:induction false} NonSystemWellFormed(ms: seq<Message>)
    requires WellFormed(ms)
    ensures WellFormed(NonSystem(ms))
    decreases |ms|
  {
    if ms != [] {
      var n := FirstBlock(ms);
      hide WellFormed, NonSystem;
      NonSystemWellFormed(ms[n..]);
      assert ms == ms[..n] + ms[n..];
      NonSystemAppend(ms[..n], ms[n..]);
      Append(NonSystem(ms[..n]), NonSystem(ms[n..]));
    } else {
      assert NonSystem(ms) == [];
    }
  }

  /** The first message and, if it is an assistant's, the tool messages that answer it. */
  lemma FirstBlock(ms: seq<Message>) returns (n: nat)
    requires WellFormed(ms) && ms != []
    ensures 1 <= n <= |ms| && WellFormed(ms[n..]) && WellFormed(NonSystem(ms[..n]))
  {
    if ms[0].Assistant? {
      n := 1 + |ms[0].calls|;
      var block, tools := ms[..n], ms[1..n];
      assert forall i | 0 <= i < |tools| :: tools[i] == ms[1..][i];
      assert block == [ms[0]] + tools;
      BlockWellFormed(ms[0].text, ms[0].calls, tools);
      hide WellFormed;
      NonSystemSame(block);
    } else {
      n := 1;
      assert ms[..1] == [ms[0]] && [ms[0]][1..] == [];
      assert NonSystem(ms[..1]) == if ms[0].System? then [] else [ms[0]];
    }
  }

  lemma BlockWellFormed(text: string, calls: seq<CallId>, tools: seq<Message>)
    requires Answers(calls, tools) && |tools| == |calls|
    ensures WellFormed([Assistant(text, calls)] + tools)
  {
  }

  lemma WithSystemWellFormed(ms: seq<Message>, system: Option<string>)
    requires WellFormed(ms)
    ensures WellFormed(WithSystem(ms, system))
  {
    NonSystemWellFormed(ms);
    if system.Some? && system.value != "" {
      assert ([System(system.value)] + NonSystem(ms))[1..] == NonSystem(ms);
    }
  }

  lemma {:induction false} NonSystemSize(ms: seq<Message>)
    ensures |NonSystem(ms)| <= BodySize(ms)
    decreases |ms|
  {
    if ms != [] && ms[0].System? {
      NonSystemSize(ms[1..]);
    } else {
      NonSystemLonger(ms);
    }
  }

  lemma {:induction false} NonSystemLonger(ms: seq<Message>)
    ensures |NonSystem(ms)| <= |ms|
    decreases |ms|
  {
    if ms != [] { NonSystemLonger(ms[1..]); }
  }

  /** A completion under a prompt sees at most one message more than the bound. */
  lemma WithSystemBounds(ms: seq<Message>, system: Option<string>, max: nat)
    requires BodySize(ms) <= max
    ensures |WithSystem(ms, system)| <= max + 1
  {
    NonSystemSize(ms);
  }

  // ---- Rebuilding from the durable log ----

  /** One logged turn: inbound, outbound plain text, or an outbound event frame. */
  datatype Turn =
    | Inbound(text: string)
    | PlainOut(text: string)
    | CallFrame(id: Option<CallId>)
    | ResultFrame(id: Option<CallId>, text: string)
    | SilentFrame                       // `done`, `handoff`
    | TextFrame(text: string)           // `message` and any other kind

  function Results(history: seq<Turn>): map<CallId, string> {
    if history == [] then map[]
    else
      var t, m := history[|history| - 1], Results(history[..|history| - 1]);
      if t.ResultFrame? && t.id.Some? then m[t.id.value := t.text] else m
  }

  /** The messages one turn becomes. */
  function Rebuilt(t: Turn, results: map<CallId, string>, tools: bool): seq<Message> {
    match t
    case Inbound(text) => [User(text)]
    case PlainOut(text) => if text != "" then [Assistant(text, [])] else []
    case CallFrame(id) =>
      if tools && id.Some? && id.value in results then [Assistant("", [id.value]), Tool(id.value, results[id.value])]
        else []
    case ResultFrame(_, _) => []
    case SilentFrame => []
    case TextFrame(text) => if text != "" then [Assistant(text, [])] else []
  }

  function RebuiltAll(history: seq<Turn>, results: map<CallId, string>, tools: bool): seq<Message> {
    if history == [] then []
    else RebuiltAll(history[..|history| - 1], results, tools) + Rebuilt(history[|history| - 1], results, tools)
  }

  lemma RebuiltWellFormed(t: Turn, results: map<CallId, string>, tools: bool)
    ensures WellFormed(Rebuilt(t, results, tools))
  {
  }

  /** Turn `j` is the last result logged for call `id`. */
  ghost predicate LastResult(history: seq<Turn>, id: CallId, j: int) {
    && 0 <= j < |history| && history[j].ResultFrame? && history[j].id == Some(id)
    && forall k | j < k < |history| :: !(history[k].ResultFrame? && history[k].id == Some(id))
  }

  /** The messages of one turn of the log: a user's or an assistant's text; for a call with a logged
      result the call and the last such result; otherwise none. */
  ghost predicate Renders(history: seq<Turn>, t: Turn, tools: bool, piece: seq<Message>) {
    match t
    case Inbound(text) => piece == [User(text)]
    case PlainOut(text) => piece == if text == "" then [] else [Assistant(text, [])]
    case TextFrame(text) => piece == if text == "" then [] else [Assistant(text, [])]
    case ResultFrame(_, _) => piece == []
    case SilentFrame => piece == []
    case CallFrame(id) =>
      if tools && id.Some? && exists j :: LastResult(history, id.value, j) then
        exists j :: LastResult(history, id.value, j)
                    && piece == [Assistant("", [id.value]), Tool(id.value, history[j].text)]
      else piece == []
  }

  function Joined(pieces: seq<seq<Message>>): seq<Message> {
    if pieces == [] then [] else Joined(pieces[..|pieces| - 1]) + pieces[|pieces| - 1]
  }

  /** `ms` is the prompt, if there is one, and then the messages of the first turns, one piece a turn. */
  ghost predicate Rendered(history: seq<Turn>, system: Option<string>, tools: bool, pieces: seq<seq<Message>>,
                           ms: seq<Message>) {
    && ms == (if system == None || system == Some("") then [] else [System(system.value)]) + Joined(pieces)
    && |pieces| <= |history| && forall i | 0 <= i < |pieces| :: Renders(history, history[i], tools, pieces[i])
  }

  lemma RenderedMore(history: seq<Turn>, system: Option<string>, tools: bool, pieces: seq<seq<Message>>,
                     ms: seq<Message>, piece: seq<Message>)
    requires Rendered(history, system, tools, pieces, ms) && |pieces| < |history|
    requires Renders(history, history[|pieces|], tools, piece)
    ensures Rendered(history, system, tools, pieces + [piece], ms + piece)
  {
    hide Renders;
    assert (pieces + [piece])[..|pieces|] == pieces;
  }

  /** The results collected are the last ones logged. */
  lemma {:induction false} ResultsLast(history: seq<Turn>, id: CallId)
    ensures id in Results(history) <==> exists j :: LastResult(history, id, j)
    ensures id in Results(history) ==> exists j :: LastResult(history, id, j) && history[j].text == Results(history)[id]
    decreases |history|
  {
    if history != [] {
      var n := |history| - 1;
      ResultsLast(history[..n], id);
      if history[n].ResultFrame? && history[n].id == Some(id) {
        assert LastResult(history, id, n);
      } else if id in Results(history[..n]) {
        var j :| LastResult(history[..n], id, j) && history[..n][j].text == Results(history[..n])[id];
        assert LastResult(history, id, j);
      } else if exists j :: LastResult(history, id, j) {
        var j :| LastResult(history, id, j);
        assert LastResult(history[..n], id, j);
      }
    }
  }

  lemma RebuiltRenders(history: seq<Turn>, t: Turn, tools: bool)
    ensures Renders(history, t, tools, Rebuilt(t, if tools then Results(history) else map[], tools))
  {
    hide Results, LastResult;
    if t.CallFrame? && t.id.Some? { ResultsLast(history, t.id.value); }
  }

  function SystemHead(system: Option<string>): seq<Message> {
    if system.Some? && system.value != "" then [System(system.value)] else []
  }

  /** `history_to_messages`: from any log, a well-formed transcript in the order of the log; a call
      is there, with the last logged result for its id, exactly when some result is logged. */
  method HistoryToMessages(history: seq<Turn>, system: Option<string>, tools: bool) returns (messages: seq<Message>)
    ensures WellFormed(messages)
    ensures exists pieces :: |pieces| == |history| && Rendered(history, system, tools, pieces, messages)
    ensures messages == SystemHead(system) + RebuiltAll(history, if tools then Results(history) else map[], tools)
  {
    hide *;
    var results: map<CallId, string> := map[];
    if tools {
      results := CollectResults(history);
    }
    messages := SystemHead(system);
    HeadWellFormed(system);
    ghost var head := messages;
    ghost var pieces: seq<seq<Message>> := [];
    HeadRendered(history, system, tools);
    NothingRebuilt(results, tools);
    for i := 0 to |history|
      invariant messages == head + RebuiltAll(history[..i], results, tools)
      invariant WellFormed(messages) && |pieces| == i && Rendered(history, system, tools, pieces, messages)
    {
      RebuiltRenders(history, history[i], tools);
      RenderedMore(history, system, tools, pieces, messages, Rebuilt(history[i], results, tools));
      pieces := pieces + [Rebuilt(history[i], results, tools)];
      RebuiltMore(history, i, results, tools);
      RebuiltWellFormed(history[i], results, tools);
      Append(messages, Rebuilt(history[i], results, tools));
      messages := messages + Rebuilt(history[i], results, tools);
    }
    assert history[..|history|] == history;
  }

  lemma HeadWellFormed(system: Option<string>)
    ensures WellFormed(SystemHead(system))
  {
  }

  lemma HeadRendered(history: seq<Turn>, system: Option<string>, tools: bool)
    ensures Rendered(history, system, tools, [], SystemHead(system))
  {
  }

  lemma NothingRebuilt(results: map<CallId, string>, tools: bool)
    ensures RebuiltAll([], results, tools) == []
  {
  }

  lemma RebuiltMore(history: seq<Turn>, i: nat, results: map<CallId, string>, tools: bool)
    requires i < |history|
    ensures RebuiltAll(history[..i + 1], results, tools)
      == RebuiltAll(history[..i], results, tools) + Rebuilt(history[i], results, tools)
  {
    assert history[..i + 1][..i] == history[..i];
    hide Rebuilt;
  }

  method CollectResults(history: seq<Turn>) returns (results: map<CallId, string>)
    ensures results == Results(history)
  {
    results := map[];
    for i := 0 to |history|
      invariant results == Results(history[..i])
    {
      var t := history[i];
      assert history[..i + 1][..i] == history[..i];
      if t.ResultFrame? && t.id.Some? {
        results := results[t.id.value := t.text];
      }
    }
    assert history[..|history|] == history;
  }

  // ---- The loops ----

  /** How one tool call of a reply ends: the text of its result or refusal, or a handoff. */
  datatype Outcome = Text(text: string) | Transfer(target: nat, name: string)

  datatype ToolCall = ToolCall(id: CallId, outcome: Outcome)

  datatype Reply = Reply(text: string, calls: seq<ToolCall>)

  function Ids(calls: seq<ToolCall>): seq<CallId> {
    seq(|calls|, i requires 0 <= i < |calls| => calls[i].id)
  }

  function Said(o: Outcome): string {
    match o
    case Text(text) => text
    case Transfer(_, name) => "Transferred to " + name + "."
  }

  function ToolAnswers(calls: seq<ToolCall>): seq<Message> {
    seq(|calls|, i requires 0 <= i < |calls| => Tool(calls[i].id, Said(calls[i].outcome)))
  }

  /** A reply and the answers to its calls, in order. */
  function Exchange(r: Reply): seq<Message> {
    [Assistant(r.text, Ids(r.calls))] + ToolAnswers(r.calls)
  }

  lemma ExchangeWellFormed(r: Reply)
    ensures WellFormed(Exchange(r))
  {
  }

  /** The tool message with the call's id and its own text, or the note of its own transfer. */
  predicate AnswersCall(tc: ToolCall, m: Message) {
    && m.Tool? && m.id == tc.id
    && match tc.outcome
    case Text(text) => m.text == text
    case Transfer(_, name) => m.text == "Transferred to " + name + "."
  }

  /** After a reply the log is as before, then the reply's text with its calls' ids in order, and then for
      each call in order a tool message with its id and its own text, or the note of its own transfer. */
  ghost predicate Records(before: seq<Message>, reply: Reply, after: seq<Message>) {
    var n := |before|;
    && |after| == n + 1 + |reply.calls| && after[..n] == before
    && after[n].Assistant? && after[n].text == reply.text && |after[n].calls| == |reply.calls|
    && (forall i | 0 <= i < |reply.calls| :: after[n].calls[i] == reply.calls[i].id)
    && (forall i | 0 <= i < |reply.calls| :: AnswersCall(reply.calls[i], after[n + 1 + i]))
  }

  lemma ExchangeRecords(before: seq<Message>, reply: Reply)
    ensures Records(before, reply, before + Exchange(reply))
  {
    var after, n := before + Exchange(reply), |before|;
    assert after[..n] == before && after[n] == Exchange(reply)[0];
    forall i | 0 <= i < |reply.calls| ensures AnswersCall(reply.calls[i], after[n + 1 + i]) {
      assert after[n + 1 + i] == Exchange(reply)[1 + i] == ToolAnswers(reply.calls)[i];
    }
  }

  /** The log is trimmed to the bound, if there is one. */
  ghost predicate IsCut(ms: seq<Message>, max: Option<int>, cut: seq<Message>) {
    if max.None? then cut == ms else IsTrim(ms, max.value, cut)
  }

  /** The completion that saw `logs[i]` got `model[i]`, and the next one sees what it saw with the reply
      and its answers, trimmed. */
  ghost predicate SeesNext(logs: seq<seq<Message>>, model: seq<Reply>, max: Option<int>, i: int) {
    && 0 <= i < |model| && i + 1 < |logs|
    && exists after :: Records(logs[i], model[i], after) && IsCut(after, max, logs[i + 1])
  }

  /** Each completion sees what the one before saw and what came of it; the first sees the log. */
  ghost predicate Converses(start: seq<Message>, logs: seq<seq<Message>>, model: seq<Reply>, max: Option<int>) {
    && (logs != [] ==> IsCut(start, max, logs[0]))
    && forall i | 0 <= i < |logs| - 1 :: SeesNext(logs, model, max, i)
  }

  lemma NothingSeen(start: seq<Message>, model: seq<Reply>, max: Option<int>)
    ensures Converses(start, [], model, max)
  {
  }

  lemma ConversesMore(start: seq<Message>, logs: seq<seq<Message>>, model: seq<Reply>, max: Option<int>,
                      after: seq<Message>, next: seq<Message>)
    requires Converses(start, logs, model, max) && |logs| <= |model| && IsCut(after, max, next)
    requires if logs == [] then after == start else Records(logs[|logs| - 1], model[|logs| - 1], after)
    ensures Converses(start, logs + [next], model, max)
  {
    hide Records, IsCut;
    var more := logs + [next];
    forall i | 0 <= i < |more| - 1 ensures SeesNext(more, model, max, i) {
      var a := after;
      if i < |logs| - 1 {
        assert SeesNext(logs, model, max, i);
        a :| Records(logs[i], model[i], a) && IsCut(a, max, logs[i + 1]);
      }
      assert Records(more[i], model[i], a) && IsCut(a, max, more[i + 1]);
    }
  }

  predicate IsLastTransfer(calls: seq<ToolCall>, k: nat)
    requires k < |calls|
  {
    calls[k].outcome.Transfer? && forall i | k < i < |calls| :: !calls[i].outcome.Transfer?
  }

  /** `next` is whom the last transfer among the calls names, or the agent that made them. */
  ghost predicate LastTransfer(calls: seq<ToolCall>, active: nat, next: nat) {
    || (next == active && forall i | 0 <= i < |calls| :: !calls[i].outcome.Transfer?)
    || exists k :: 0 <= k < |calls| && IsLastTransfer(calls, k) && calls[k].outcome.target == next
  }

  /** The log cut to the bound, if one was asked for. */
  function Cut(ms: seq<Message>, max: Option<int>): seq<Message> {
    if max.Some? && max.value >= 1 then Trimmed(ms, max.value) else ms
  }

  /** The log that the completion after `replies` works on. */
  function LogAt(start: seq<Message>, replies: seq<Reply>, max: Option<int>): seq<Message> {
    if replies == [] then Cut(start, max)
    else Cut(LogAt(start, replies[..|replies| - 1], max) + Exchange(replies[|replies| - 1]), max)
  }

  predicate Bounded(ms: seq<Message>, max: Option<int>) {
    max.Some? && max.value >= 1 ==> BodySize(ms) <= max.value
  }

  lemma CutKeeps(ms: seq<Message>, max: Option<int>)
    requires WellFormed(ms)
    ensures WellFormed(Cut(ms, max)) && Bounded(Cut(ms, max), max)
  {
    if max.Some? && max.value >= 1 {
      TrimWellFormed(ms, max.value);
      TrimBounds(ms, max.value);
    }
  }

  /** Whatever the model replies, every completion works on a well-formed log within the bound. */
  lemma {:induction false} LogWellFormed(start: seq<Message>, replies: seq<Reply>, max: Option<int>)
    requires WellFormed(start)
    ensures WellFormed(LogAt(start, replies, max)) && Bounded(LogAt(start, replies, max), max)
    decreases |replies|
  {
    hide WellFormed, Cut, Exchange, Bounded;
    if replies == [] {
      CutKeeps(start, max);
    } else {
      var less := replies[..|replies| - 1];
      LogWellFormed(start, less, max);
      ExchangeWellFormed(replies[|replies| - 1]);
      Append(LogAt(start, less, max), Exchange(replies[|replies| - 1]));
      CutKeeps(LogAt(start, less, max) + Exchange(replies[|replies| - 1]), max);
    }
  }

  lemma LogMore(start: seq<Message>, model: seq<Reply>, n: nat, max: Option<int>)
    requires n < |model|
    ensures LogAt(start, model[..n + 1], max) == Cut(LogAt(start, model[..n], max) + Exchange(model[n]), max)
    ensures LogAt(start, model[..0], max) == Cut(start, max)
  {
    assert model[..n + 1][..n] == model[..n];
    hide Cut, Exchange;
  }

  /** The target of the last transfer among `calls`, or the agent that made them. */
  function LastTarget(calls: seq<ToolCall>, active: nat): nat {
    if calls == [] then active
    else if calls[|calls| - 1].outcome.Transfer? then calls[|calls| - 1].outcome.target
    else LastTarget(calls[..|calls| - 1], active)
  }

  lemma {:induction false} LastTargetTransfer(calls: seq<ToolCall>, active: nat)
    ensures LastTransfer(calls, active, LastTarget(calls, active))
    decreases |calls|
  {
    if calls != [] {
      var less := calls[..|calls| - 1];
      LastTargetTransfer(less, active);
      if calls[|calls| - 1].outcome.Transfer? {
        assert IsLastTransfer(calls, |calls| - 1);
      } else if exists k :: 0 <= k < |less| && IsLastTransfer(less, k) {
        var k :| 0 <= k < |less| && IsLastTransfer(less, k) && less[k].outcome.target == LastTarget(less, active);
        assert IsLastTransfer(calls, k);
      }
    }
  }

  function ActiveAfter(entry: nat, replies: seq<Reply>): nat {
    if replies == [] then entry
    else LastTarget(replies[|replies| - 1].calls, ActiveAfter(entry, replies[..|replies| - 1]))
  }

  /** What the completion after `replies` sees in the single-agent loop. */
  ghost predicate SeenAt(seen: seq<Message>, start: seq<Message>, replies: seq<Reply>, max: Option<int>) {
    seen == LogAt(start, replies, max) && WellFormed(seen) && Bounded(seen, max)
  }

  lemma IsSeen(start: seq<Message>, replies: seq<Reply>, max: Option<int>)
    requires WellFormed(start)
    ensures SeenAt(LogAt(start, replies, max), start, replies, max) && WellFormed(LogAt(start, replies, max))
  {
    hide WellFormed, LogAt, Bounded;
    LogWellFormed(start, replies, max);
  }

  /** And in the multi-agent loop: the same log under the prompt of the active agent alone. */
  ghost predicate SeenUnderPrompt(seen: seq<Message>, start: seq<Message>, replies: seq<Reply>, max: Option<int>,
                                  entry: nat, systems: map<nat, string>) {
    var active := ActiveAfter(entry, replies);
    && seen == WithSystem(LogAt(start, replies, max), if active in systems then Some(systems[active]) else None)
    && WellFormed(seen)
    && (max.Some? && max.value >= 1 ==> |seen| <= max.value + 1)
  }

  lemma IsSeenUnderPrompt(start: seq<Message>, replies: seq<Reply>, max: Option<int>, entry: nat,
                          systems: map<nat, string>)
    requires WellFormed(start)
    ensures var active, log := ActiveAfter(entry, replies), LogAt(start, replies, max);
      && SeenUnderPrompt(WithSystem(log, if active in systems then Some(systems[active]) else None),
                         start, replies, max, entry, systems)
      && WellFormed(log)
  {
    hide WellFormed, LogAt, WithSystem, ActiveAfter;
    var active, log := ActiveAfter(entry, replies), LogAt(start, replies, max);
    var system := if active in systems then Some(systems[active]) else None;
    LogWellFormed(start, replies, max);
    WithSystemWellFormed(log, system);
    if max.Some? && max.value >= 1 { WithSystemBounds(log, system, max.value); }
  }

  function PromptOf(systems: map<nat, string>, agent: nat): Option<string> {
    if agent in systems then Some(systems[agent]) else None
  }

  /** Agent after agent: the entry, and then whom the last transfer of each reply names. */
  ghost predicate PassesOn(entry: nat, agents: seq<nat>, model: seq<Reply>) {
    && agents != [] && agents[0] == entry && |agents| <= |model| + 1
    && forall i | 0 <= i < |agents| - 1 :: LastTransfer(model[i].calls, agents[i], agents[i + 1])
  }

  lemma NothingPassed(entry: nat, model: seq<Reply>)
    ensures PassesOn(entry, [entry], model)
  {
  }

  lemma PassesMore(entry: nat, agents: seq<nat>, model: seq<Reply>, next: nat)
    requires PassesOn(entry, agents, model) && |agents| <= |model|
    requires LastTransfer(model[|agents| - 1].calls, agents[|agents| - 1], next)
    ensures PassesOn(entry, agents + [next], model)
  {
    hide LastTransfer;
  }

  /** What each agent was shown is the log of its time under its prompt. */
  ghost predicate ShownTo(seen: seq<seq<Message>>, logs: seq<seq<Message>>, agents: seq<nat>,
                          systems: map<nat, string>) {
    && |logs| == |seen| && |agents| == |seen| + 1
    && forall i | 0 <= i < |seen| :: Prompted(logs[i], PromptOf(systems, agents[i]), seen[i])
  }

  lemma NothingShown(systems: map<nat, string>, entry: nat)
    ensures ShownTo([], [], [entry], systems)
  {
  }

  lemma ShownMore(seen: seq<seq<Message>>, logs: seq<seq<Message>>, agents: seq<nat>, systems: map<nat, string>,
                  shown: seq<Message>, log: seq<Message>, next: nat)
    requires ShownTo(seen, logs, agents, systems) && Prompted(log, PromptOf(systems, agents[|agents| - 1]), shown)
    ensures ShownTo(seen + [shown], logs + [log], agents + [next], systems)
  {
    hide Prompted, PromptOf;
  }

  lemma ActiveAtStart(entry: nat, model: seq<Reply>)
    ensures ActiveAfter(entry, model[..0]) == entry
  {
  }

  lemma ActiveMore(entry: nat, model: seq<Reply>, n: nat)
    requires n < |model|
    ensures ActiveAfter(entry, model[..n + 1]) == LastTarget(model[n].calls, ActiveAfter(entry, model[..n]))
  {
    assert model[..n + 1][..n] == model[..n];
    hide LastTarget;
  }

  /** The message log shared by the turns of a conversation. */
  class Conversation {
    var messages: seq<Message>

    constructor (messages: seq<Message>)
      ensures this.messages == messages
    {
      this.messages := messages;
    }

    /** `_trim_messages`; `false` is its `ValueError`. */
    method Trim(max: int) returns (ok: bool)
      modifies this
      ensures ok <==> max >= 1
      ensures if ok then IsTrim(old(messages), max, messages) else messages == old(messages)
      ensures messages == if ok then Trimmed(old(messages), max) else old(messages)
    {
      hide Heads, DropTools, IsTrim;
      if max < 1 { return false; }
      TrimmedIsTrim(messages, max);
      var ms, head := messages, 0;
      assert ms[0..] == ms;
      while head < |ms| && ms[head].System?
        invariant 0 <= head <= |ms| && head + Heads(ms[head..]) == Heads(ms) && messages == ms
      {
        HeadsAt(ms, head);
        head := head + 1;
      }
      HeadsAt(ms, head);
      ok := true;
      if |ms| - head <= max { return; }
      var tail := ms[|ms| - max..];
      while tail != [] && tail[0].Tool?
        invariant DropTools(tail) == DropTools(ms[|ms| - max..])
        decreases |tail|
      {
        DropToolsAt(tail);
        tail := tail[1..];
      }
      DropToolsAt(tail);
      messages := ms[..head] + tail;
    }

    /** One reply of the model, with every call answered: `_dispatch_tool` or a handoff each. */
    method Take(reply: Reply, active: nat) returns (next: nat)
      modifies this
      ensures Records(old(messages), reply, messages) && LastTransfer(reply.calls, active, next)
      ensures messages == old(messages) + Exchange(reply)
      ensures next == LastTarget(reply.calls, active)
    {
      hide Records, LastTransfer;
      messages := messages + [Assistant(reply.text, Ids(reply.calls))];
      next := active;
      for k := 0 to |reply.calls|
        invariant messages
          == old(messages) + ([Assistant(reply.text, Ids(reply.calls))] + ToolAnswers(reply.calls[..k]))
        invariant next == LastTarget(reply.calls[..k], active)
      {
        var tc := reply.calls[k];
        var text;
        match tc.outcome {
          case Text(t) => text := t;
          case Transfer(target, name) => text := "Transferred to " + name + "."; next := target;
        }
        messages := messages + [Tool(tc.id, text)];
        assert reply.calls[..k + 1][..k] == reply.calls[..k];
        assert ToolAnswers(reply.calls[..k + 1]) == ToolAnswers(reply.calls[..k]) + [Tool(tc.id, text)];
      }
      assert reply.calls[..|reply.calls|] == reply.calls;
      ExchangeRecords(old(messages), reply);
      LastTargetTransfer(reply.calls, active);
    }

    /** The start of a step: the log is cut if a bound was asked for; `false` is the `ValueError`. */
    method Bound(max: Option<int>) returns (ok: bool)
      modifies this
      ensures ok <==> (max.Some? ==> max.value >= 1)
      ensures ok ==> IsCut(old(messages), max, messages)
      ensures messages == Cut(old(messages), max) && (!ok ==> messages == old(messages))
    {
      hide IsTrim;
      ok := true;
      if max.Some? {
        ok := Trim(max.value);
      }
    }

    /** One step of `run_agent`; `false` is the `ValueError` of the bound. */
    method Step(ghost start: seq<Message>, model: seq<Reply>, step: nat, max: Option<int>)
      returns (ready: bool, shown: seq<Message>)
      requires WellFormed(start) && step < |model| && Cut(messages, max) == LogAt(start, model[..step], max)
      modifies this
      ensures ready <==> (max.Some? ==> max.value >= 1)
      ensures !ready ==> messages == old(messages)
      ensures ready ==> IsCut(old(messages), max, shown) && Records(shown, model[step], messages)
      ensures ready ==> SeenAt(shown, start, model[..step], max)
      ensures ready ==> messages == shown + Exchange(model[step]) && WellFormed(messages)
      ensures ready ==> Cut(messages, max) == LogAt(start, model[..step + 1], max)
    {
      hide WellFormed, Exchange, LogAt, Cut, SeenAt, IsCut, Records, LastTransfer;
      ready := Bound(max);
      shown := messages;
      if ready {
        IsSeen(start, model[..step], max);
        var _ := Take(model[step], 0);
        ExchangeWellFormed(model[step]);
        Append(shown, Exchange(model[step]));
        LogMore(start, model, step, max);
      }
    }

    /** `run_agent`, for any replies of the model: it goes on until a reply without calls or the
        last step, each completion sees what the one before saw and what came of it, cut to the
        bound, and that is always well-formed. */
    method RunAgent(model: seq<Reply>, maxSteps: int, max: Option<int>) returns (ok: bool, seen: seq<seq<Message>>)
      requires WellFormed(messages) && |model| >= maxSteps
      modifies this
      ensures ok <==> maxSteps >= 1 && (max.Some? ==> max.value >= 1)
      ensures ok ==> 1 <= |seen| <= maxSteps && forall i | 0 <= i < |seen| - 1 :: model[i].calls != []
      ensures ok && |seen| < maxSteps ==> model[|seen| - 1].calls == []
      ensures Converses(old(messages), seen, model, max)
      ensures ok ==> Records(seen[|seen| - 1], model[|seen| - 1], messages)
      ensures forall i | 0 <= i < |seen| :: i < |model| && SeenAt(seen[i], old(messages), model[..i], max)
      ensures WellFormed(messages)
      ensures messages == if ok then seen[|seen| - 1] + Exchange(model[|seen| - 1]) else old(messages)
    {
      hide WellFormed, Exchange, LogAt, Cut, SeenAt, Records, IsCut, LastTransfer, Converses;
      ghost var start := messages;
      seen := [];
      NothingSeen(start, model, max);
      if maxSteps < 1 { return false, seen; }
      LogMore(start, model, 0, max);
      for step := 0 to maxSteps
        invariant WellFormed(messages) && |seen| == step && (step > 0 ==> (max.Some? ==> max.value >= 1))
        invariant Cut(messages, max) == LogAt(start, model[..step], max)
        invariant forall i | 0 <= i < step :: model[i].calls != [] && SeenAt(seen[i], start, model[..i], max)
        invariant messages == if step > 0 then seen[step - 1] + Exchange(model[step - 1]) else start
        invariant Converses(start, seen, model, max)
        invariant if step == 0 then messages == start else Records(seen[step - 1], model[step - 1], messages)
      {
        ghost var was := messages;
        var ready, shown := Step(start, model, step, max);
        if !ready { return false, seen; }
        ConversesMore(start, seen, model, max, was, shown);
        seen := seen + [shown];
        if model[step].calls == [] { return true, seen; }
      }
      ok := true;
    }

    /** One step of `run_multi_agent` by the active agent; `false` is the `ValueError` of the bound. The
        agent is shown the trimmed log under its own prompt, its reply is recorded with the answers, and
        its last transfer names the next agent. */
    method Turn(ghost start: seq<Message>, model: seq<Reply>, step: nat, ghost entry: nat, active: nat,
                systems: map<nat, string>, max: Option<int>)
      returns (ready: bool, shown: seq<Message>, next: nat, ghost log: seq<Message>)
      requires WellFormed(start) && step < |model|
      requires Cut(messages, max) == LogAt(start, model[..step], max) && active == ActiveAfter(entry, model[..step])
      modifies this
      ensures ready <==> (max.Some? ==> max.value >= 1)
      ensures !ready ==> messages == old(messages)
      ensures ready ==> IsCut(old(messages), max, log) && Prompted(log, PromptOf(systems, active), shown)
      ensures ready ==> Records(log, model[step], messages) && LastTransfer(model[step].calls, active, next)
      ensures ready ==> SeenUnderPrompt(shown, start, model[..step], max, entry, systems)
      ensures ready ==> messages == LogAt(start, model[..step], max) + Exchange(model[step]) && WellFormed(messages)
      ensures ready ==> Cut(messages, max) == LogAt(start, model[..step + 1], max)
      ensures ready ==> next == ActiveAfter(entry, model[..step + 1])
    {
      hide WellFormed, Exchange, LogAt, Cut, WithSystem, LastTarget, SeenUnderPrompt, ActiveAfter, IsCut, Prompted,
        Records, LastTransfer;
      ready := Bound(max);
      shown, next, log := [], active, messages;
      if ready {
        var system := if active in systems then Some(systems[active]) else None;
        WithSystemPrompts(messages, system);
        IsSeenUnderPrompt(start, model[..step], max, entry, systems);
        shown := WithSystem(messages, system);
        next := Take(model[step], active);
        ExchangeWellFormed(model[step]);
        Append(LogAt(start, model[..step], max), Exchange(model[step]));
        LogMore(start, model, step, max);
        ActiveMore(entry, model, step);
      }
    }

    /** `run_multi_agent`: the same log, but each completion sees it under the prompt of the agent
        then active, which changes with the last transfer of a reply. */
    method RunMultiAgent(entry: nat, systems: map<nat, string>, model: seq<Reply>, maxSteps: int, max: Option<int>)
      returns (ok: bool, seen: seq<seq<Message>>, active: nat, ghost logs: seq<seq<Message>>, ghost agents: seq<nat>)
      requires WellFormed(messages) && |model| >= maxSteps
      modifies this
      ensures ok <==> maxSteps >= 1 && (max.Some? ==> max.value >= 1)
      ensures ok ==> 1 <= |seen| <= maxSteps && forall i | 0 <= i < |seen| - 1 :: model[i].calls != []
      ensures ok && |seen| < maxSteps ==> model[|seen| - 1].calls == []
      ensures Converses(old(messages), logs, model, max) && PassesOn(entry, agents, model)
      ensures ShownTo(seen, logs, agents, systems) && agents[|agents| - 1] == active
      ensures ok ==> Records(logs[|logs| - 1], model[|logs| - 1], messages)
      ensures ok ==> active == ActiveAfter(entry, model[..|seen|])
      ensures forall i | 0 <= i < |seen| ::
        i < |model| && SeenUnderPrompt(seen[i], old(messages), model[..i], max, entry, systems)
      ensures WellFormed(messages)
      ensures messages == if ok then LogAt(old(messages), model[..|seen| - 1], max) + Exchange(model[|seen| - 1])
        else old(messages)
    {
      hide WellFormed, Exchange, LogAt, Cut, WithSystem, LastTarget, SeenUnderPrompt, ActiveAfter, IsCut, Prompted,
        Records, LastTransfer, Converses, PassesOn, ShownTo, PromptOf;
      ghost var start := messages;
      seen, active, logs, agents := [], entry, [], [entry];
      NothingSeen(start, model, max);
      NothingPassed(entry, model);
      NothingShown(systems, entry);
      if maxSteps < 1 { return false, seen, active, logs, agents; }
      ActiveAtStart(entry, model);
      LogMore(messages, model, 0, max);
      for step := 0 to maxSteps
        invariant WellFormed(messages) && |seen| == step && (step > 0 ==> (max.Some? ==> max.value >= 1))
        invariant Cut(messages, max) == LogAt(start, model[..step], max) && active == ActiveAfter(entry, model[..step])
        invariant forall i | 0 <= i < step ::
          model[i].calls != [] && SeenUnderPrompt(seen[i], start, model[..i], max, entry, systems)
        invariant messages == if step > 0 then LogAt(start, model[..step - 1], max) + Exchange(model[step - 1])
          else start
        invariant |logs| == step && |agents| == step + 1 && agents[step] == active
        invariant ShownTo(seen, logs, agents, systems)
        invariant Converses(start, logs, model, max) && PassesOn(entry, agents, model)
        invariant if step == 0 then messages == start else Records(logs[step - 1], model[step - 1], messages)
      {
        ghost var was := messages;
        var ready, shown, next, log := Turn(start, model, step, entry, active, systems, max);
        if !ready { return false, seen, active, logs, agents; }
        ConversesMore(start, logs, model, max, was, log);
        PassesMore(entry, agents, model, next);
        ShownMore(seen, logs, agents, systems, shown, log, next);
        seen, active, logs, agents := seen + [shown], next, logs + [log], agents + [next];
        if model[step].calls == [] { return true, seen, active, logs, agents; }
      }
      ok := true;
    }
  }
}
