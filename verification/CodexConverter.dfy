/**
`CodexEventConverter` of `src/tianluo/codex_runner.py`: a streaming transducer
from codex lifecycle events to tool_use / tool_result / result lines. Events
are parsed objects with string texts; payload field fallbacks have already been
read. `Convert` and `Finalize` give the meaning of the two entry points, and the
class is proved to compute them.
*/
module CodexConverters {
  import opened OrderedMaps

  /** The `call_id` or `id` of an item, or neither. */
  datatype ItemId = Named(id: string) | Unnamed

  /** One entry of `changes`; an entry that is no object or has no path is unusable. */
  datatype Change = Unusable | Change(path: string, kind: string)

  datatype Item =
    | AgentMessage(id: ItemId, text: string)
    | CommandExecution(id: ItemId, command: string, output: string, isError: bool)
    | McpToolCall(id: ItemId, server: string, tool: string, arguments: string, result: string, isError: bool)
    | WebSearch(id: ItemId, query: string, result: string, isError: bool)
    | TodoList(id: ItemId, items: seq<string>)
    | FlatFileChange(id: ItemId, path: string, content: string, changeType: string)
    | FileChanges(id: ItemId, changes: seq<Change>)
    | OtherItem

  datatype Event =
    | Metadata(reported: bool)
    | ItemEvent(completed: bool, statusFinal: bool, item: Item)
    | TurnCompleted
    | TurnFailed(message: string)
    | Unknown

  /** What a tool_use is called with; a historical file change names its content by the kind of tool. */
  datatype ToolInput =
    | Command(command: string)
    | Arguments(arguments: string)
    | Query(query: string)
    | Todos(items: seq<string>)
    | File(path: string)
    | FileContent(path: string, content: string)
    | FileNewString(path: string, newString: string)

  datatype Line =
    | Init
    | Text(text: string)
    | ToolUse(id: string, name: string, input: ToolInput)
    | ToolResult(id: string, content: string, isError: bool)
    | Result(text: string, isError: bool)

  datatype ToolCall = ToolCall(name: string, input: ToolInput, result: string, isError: bool)

  /** The per-turn lifecycle state of tools. */
  datatype Tools = Tools(used: set<string>, resulted: set<string>, inflight: Pairs<string>)

  const NO_TOOLS := Tools({}, {}, [])

  datatype State = State(
    messages: Pairs<string>,
    seenTerminal: bool,
    counter: nat,
    touched: set<string>,
    tools: Tools)

  const START := State([], false, 0, {}, NO_TOOLS)

  const NO_OUTPUT := "Codex process exited without producing output"

  function SyntheticId(n: nat): string {
    "codex_tool_" + Decimal(n)
  }

  function ResolvedId(id: ItemId, counter: nat): string {
    if id.Named? then id.id else SyntheticId(counter + 1)
  }

  function CounterAfter(id: ItemId, counter: nat): nat {
    if id.Named? then counter else counter + 1
  }

  function OpenTool(ts: Tools, id: string, name: string): Tools {
    if id in ts.used then ts else ts.(used := ts.used + {id}, inflight := Put(ts.inflight, id, name))
  }

  function CloseTool(ts: Tools, id: string): Tools {
    if id in ts.resulted then ts
    else ts.(resulted := ts.resulted + {id}, inflight := Remove(ts.inflight, id))
  }

  /** One item reported once: its tool_use on first sight, its tool_result once final. */
  function Emit(ts: Tools, id: string, call: ToolCall, final: bool): (Tools, seq<Line>) {
    var shown := OpenTool(ts, id, call.name);
    var use := if id in ts.used then [] else [ToolUse(id, call.name, call.input)];
    if final && id !in ts.resulted
    then (CloseTool(shown, id), use + [ToolResult(id, call.result, call.isError)])
    else (shown, use)
  }

  function ChangeTool(kind: string): string {
    if kind in ["add", "create", "write"] then "Write"
    else if kind in ["delete", "remove"] then "Delete"
    else "Edit"
  }

  function ChangeCall(path: string, kind: string): ToolCall {
    ToolCall(ChangeTool(kind), File(path), "File " + (if kind == "" then "change" else kind) + ": " + path, false)
  }

  function ChangeId(base: string, index: nat): string {
    base + "#" + Decimal(index)
  }

  function EmitChanges(ts: Tools, base: string, changes: seq<Change>, final: bool): (Tools, seq<Line>) {
    if changes == [] then (ts, [])
    else
      var index := |changes| - 1;
      var before := EmitChanges(ts, base, changes[..index], final);
      match changes[index]
      case Unusable => before
      case Change(path, kind) =>
        var one := Emit(before.0, ChangeId(base, index), ChangeCall(path, kind), final);
        (one.0, before.1 + one.1)
  }

  lemma EmitChangesSnoc(ts: Tools, base: string, changes: seq<Change>, n: nat, final: bool)
    requires n < |changes|
    ensures var before := EmitChanges(ts, base, changes[..n], final);
            EmitChanges(ts, base, changes[..n + 1], final) ==
              if changes[n].Unusable? then before
              else
                var one := Emit(before.0, ChangeId(base, n), ChangeCall(changes[n].path, changes[n].kind), final);
                (one.0, before.1 + one.1)
  {
    assert changes[..n + 1][..n] == changes[..n];
  }

  function ChangedPaths(changes: seq<Change>): set<string> {
    set c | c in changes && c.Change? :: c.path
  }

  lemma ChangedPathsSnoc(changes: seq<Change>, n: nat)
    requires n < |changes|
    ensures ChangedPaths(changes[..n + 1]) ==
      ChangedPaths(changes[..n]) + if changes[n].Change? then {changes[n].path} else {}
  {
    assert changes[..n + 1] == changes[..n] + [changes[n]];
  }

  /** Claude's own name for an MCP tool. */
  function McpName(server: string, tool: string): string {
    if tool == "" then "unknown" else if server == "" then tool else "mcp__" + server + "__" + tool
  }

  predicate Writes(changeType: string) {
    changeType in ["write", "create"]
  }

  /** The single tool call an item amounts to, for every kind but the list of changes. */
  function CallOf(item: Item): seq<ToolCall> {
    match item
    case CommandExecution(_, command, output, isError) => [ToolCall("Bash", Command(command), output, isError)]
    case McpToolCall(_, server, tool, arguments, result, isError) =>
      [ToolCall(McpName(server, tool), Arguments(arguments), result, isError)]
    case WebSearch(_, query, result, isError) =>
      if query == "" then [] else [ToolCall("WebSearch", Query(query), result, isError)]
    case TodoList(_, items) => if items == [] then [] else [ToolCall("TodoWrite", Todos(items), "", false)]
    case FlatFileChange(_, path, content, changeType) =>
      [ToolCall(if Writes(changeType) then "Write" else "Edit",
                if Writes(changeType) then FileContent(path, content) else FileNewString(path, content),
                "File " + changeType + ": " + path, false)]
    case _ => []
  }

  /** The files an item reports as touched. */
  function TouchedBy(item: Item): set<string> {
    match item
    case FlatFileChange(_, path, _, _) => if path == "" then {} else {path}
    case FileChanges(_, changes) => ChangedPaths(changes)
    case _ => {}
  }

  function ConvertItem(s: State, item: Item, final: bool): (State, seq<Line>) {
    match item
    case OtherItem => (s, [])
    case AgentMessage(id, text) =>
      if text == "" then (s, [])
      else
        (s.(messages := Put(s.messages, ResolvedId(id, s.counter), text), counter := CounterAfter(id, s.counter)),
         if final then [Text(text)] else [])
    case FileChanges(id, changes) =>
      var emitted := EmitChanges(s.tools, ResolvedId(id, s.counter), changes, final);
      (s.(tools := emitted.0, counter := CounterAfter(id, s.counter), touched := s.touched + TouchedBy(item)),
       emitted.1)
    case _ =>
      var call := CallOf(item);
      if call == [] then (s, [])
      else
        var emitted := Emit(s.tools, ResolvedId(item.id, s.counter), call[0], final);
        (s.(tools := emitted.0, counter := CounterAfter(item.id, s.counter),
            touched := s.touched + TouchedBy(item)),
         emitted.1)
  }

  function Interrupted(name: string): string {
    "[interrupted] " + name + " did not complete before the turn ended"
  }

  /** Closing results for what is still in flight, in order of opening. */
  function Closing(inflight: Pairs<string>, resulted: set<string>): seq<Line> {
    if inflight == [] then []
    else
      var last := inflight[|inflight| - 1];
      Closing(inflight[..|inflight| - 1], resulted) +
      if last.0 in resulted then [] else [ToolResult(last.0, Interrupted(last.1), true)]
  }

  function Joined(messages: Pairs<string>): string {
    if messages == [] then ""
    else if |messages| == 1 then messages[0].1
    else Joined(messages[..|messages| - 1]) + "\n" + messages[|messages| - 1].1
  }

  /** Ends a turn: closing results, the result line, and a clean state. */
  function EndTurn(s: State, result: Line): (State, seq<Line>) {
    (s.(messages := [], seenTerminal := true, tools := NO_TOOLS),
     Closing(s.tools.inflight, s.tools.resulted) + [result])
  }

  function Convert(s: State, e: Event): (State, seq<Line>) {
    match e
    case Metadata(reported) => (s, if reported then [Init] else [])
    case ItemEvent(completed, statusFinal, item) => ConvertItem(s, item, completed || statusFinal)
    case TurnCompleted => EndTurn(s, Result(Joined(s.messages), false))
    case TurnFailed(message) => EndTurn(s, Result(message, true))
    case Unknown => (s, [])
  }

  function Finalize(s: State): (State, seq<Line>) {
    if s.seenTerminal then (s, [])
    else if s.messages != [] then EndTurn(s, Result(Joined(s.messages), false))
    else EndTurn(s, Result(NO_OUTPUT, true))
  }

  class CodexEventConverter {
    var messages: Pairs<string>
    var seenTerminal: bool
    var toolCounter: nat
    var touchedFiles: set<string>
    var emittedToolUse: set<string>
    var emittedToolResult: set<string>
    var inflightTools: Pairs<string>

    function Lifecycle(): Tools
      reads this
    {
      Tools(emittedToolUse, emittedToolResult, inflightTools)
    }

    function View(): State
      reads this
    {
      State(messages, seenTerminal, toolCounter, touchedFiles, Lifecycle())
    }

    ghost predicate Valid()
      reads this
    {
      Distinct(inflightTools)
    }

    constructor ()
      ensures Valid() && View() == START
    {
      messages, seenTerminal, toolCounter, touchedFiles := [], false, 0, {};
      emittedToolUse, emittedToolResult, inflightTools := {}, {}, [];
    }

    method ResolveItemId(id: ItemId) returns (resolved: string)
      modifies this`toolCounter
      ensures resolved == ResolvedId(id, old(toolCounter))
      ensures toolCounter == CounterAfter(id, old(toolCounter))
    {
      if id.Named? {
        return id.id;
      }
      toolCounter := toolCounter + 1;
      resolved := SyntheticId(toolCounter);
    }

    method EmitToolEvents(id: string, call: ToolCall, final: bool) returns (lines: seq<Line>)
      requires Valid()
      modifies this`emittedToolUse, this`emittedToolResult, this`inflightTools
      ensures Valid()
      ensures (Lifecycle(), lines) == Emit(old(Lifecycle()), id, call, final)
    {
      lines := [];
      if id !in emittedToolUse {
        emittedToolUse := emittedToolUse + {id};
        PutKeys(inflightTools, id, call.name);
        inflightTools := Put(inflightTools, id, call.name);
        lines := lines + [ToolUse(id, call.name, call.input)];
      }
      if final && id !in emittedToolResult {
        emittedToolResult := emittedToolResult + {id};
        RemoveKeys(inflightTools, id);
        inflightTools := Remove(inflightTools, id);
        lines := lines + [ToolResult(id, call.result, call.isError)];
      }
      assert lines == Emit(old(Lifecycle()), id, call, final).1;
    }

    method HandleFileChanges(id: ItemId, changes: seq<Change>, final: bool) returns (lines: seq<Line>)
      requires Valid()
      modifies this
      ensures Valid()
      ensures (View(), lines) == ConvertItem(old(View()), FileChanges(id, changes), final)
    {
      var base := ResolveItemId(id);
      lines := [];
      for n := 0 to |changes|
        invariant Valid() && messages == old(messages) && seenTerminal == old(seenTerminal)
        invariant toolCounter == CounterAfter(id, old(toolCounter))
        invariant (Lifecycle(), lines) == EmitChanges(old(Lifecycle()), base, changes[..n], final)
        invariant touchedFiles == old(touchedFiles) + ChangedPaths(changes[..n])
      {
        EmitChangesSnoc(old(Lifecycle()), base, changes, n, final);
        ChangedPathsSnoc(changes, n);
        if changes[n].Change? {
          touchedFiles := touchedFiles + {changes[n].path};
          var more := EmitToolEvents(ChangeId(base, n), ChangeCall(changes[n].path, changes[n].kind), final);
          lines := lines + more;
        }
      }
      assert changes[..|changes|] == changes;
    }

    method HandleItemEvent(completed: bool, statusFinal: bool, item: Item) returns (lines: seq<Line>)
      requires Valid()
      modifies this
      ensures Valid()
      ensures (View(), lines) == Convert(old(View()), ItemEvent(completed, statusFinal, item))
    {
      var final := completed || statusFinal;
      lines := [];
      match item
      case OtherItem =>
      case AgentMessage(id, text) =>
        if text != "" {
          var resolved := ResolveItemId(id);
          messages := Put(messages, resolved, text);
          if final {
            lines := [Text(text)];
          }
        }
      case FileChanges(id, changes) =>
        lines := HandleFileChanges(id, changes, final);
      case _ =>
        var call := CallOf(item);
        if call != [] {
          touchedFiles := touchedFiles + TouchedBy(item);
          var resolved := ResolveItemId(item.id);
          lines := EmitToolEvents(resolved, call[0], final);
        }
    }

    method CloseInflightTools() returns (lines: seq<Line>)
      requires Valid()
      modifies this`emittedToolResult, this`inflightTools
      ensures lines == Closing(old(inflightTools), old(emittedToolResult))
      ensures inflightTools == []
      ensures emittedToolResult == old(emittedToolResult) + Keys(old(inflightTools))
    {
      lines := [];
      var open := inflightTools;
      for n := 0 to |open|
        invariant inflightTools == open
        invariant emittedToolResult == old(emittedToolResult) + Keys(open[..n])
        invariant lines == Closing(open[..n], old(emittedToolResult))
      {
        DistinctPrefix(open, n);
        assert open[..n + 1][..n] == open[..n];
        if open[n].0 !in emittedToolResult {
          emittedToolResult := emittedToolResult + {open[n].0};
          lines := lines + [ToolResult(open[n].0, Interrupted(open[n].1), true)];
        }
      }
      assert open[..|open|] == open;
      inflightTools := [];
    }

    method ResetTurnState()
      modifies this`messages, this`emittedToolUse, this`emittedToolResult, this`inflightTools
      ensures messages == [] && Lifecycle() == NO_TOOLS
    {
      messages := [];
      emittedToolUse, emittedToolResult, inflightTools := {}, {}, [];
    }

    method HandleTurnEnd(result: Line) returns (lines: seq<Line>)
      requires Valid()
      modifies this
      ensures Valid()
      ensures (View(), lines) == EndTurn(old(View()), result)
    {
      seenTerminal := true;
      lines := CloseInflightTools();
      ResetTurnState();
      lines := lines + [result];
    }

    method ConvertEvent(e: Event) returns (lines: seq<Line>)
      requires Valid()
      modifies this
      ensures Valid()
      ensures (View(), lines) == Convert(old(View()), e)
    {
      lines := [];
      match e
      case Metadata(reported) =>
        if reported {
          lines := [Init];
        }
      case ItemEvent(completed, statusFinal, item) =>
        lines := HandleItemEvent(completed, statusFinal, item);
      case TurnCompleted =>
        lines := HandleTurnEnd(Result(Joined(messages), false));
      case TurnFailed(message) =>
        lines := HandleTurnEnd(Result(message, true));
      case Unknown =>
    }

    method Finish() returns (lines: seq<Line>)
      requires Valid()
      modifies this
      ensures Valid()
      ensures (View(), lines) == Finalize(old(View()))
    {
      if seenTerminal {
        return [];
      }
      if messages != [] {
        lines := HandleTurnEnd(Result(Joined(messages), false));
      } else {
        lines := HandleTurnEnd(Result(NO_OUTPUT, true));
      }
    }
  }

  /** The key at `n` is new to the keys before it. */
  lemma {:induction false} DistinctPrefix<V>(d: Pairs<V>, n: nat)
    requires Distinct(d) && n < |d|
    ensures d[n].0 !in Keys(d[..n])
    ensures Keys(d[..n + 1]) == Keys(d[..n]) + {d[n].0}
  {
    assert d[..n + 1][1..] == d[1..][..n];
    if n > 0 {
      assert d[..n][1..] == d[1..][..n - 1];
      DistinctPrefix(d[1..], n - 1);
      KeysPrefix(d[1..], n - 1);
    }
  }

  lemma {:induction false} KeysPrefix<V>(d: Pairs<V>, n: nat)
    requires n < |d|
    ensures d[n].0 in Keys(d)
  {
    if n > 0 {
      KeysPrefix(d[1..], n - 1);
    }
  }
}
