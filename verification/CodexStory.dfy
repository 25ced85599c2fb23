/**
A second account of the codex converter's output, told from the history of events
alone: which reports of a tool came first, which final report came first, which
message was final. The converter's sets, in-flight map and message table do not
occur in it; the output of every run is proved to be this story.
*/
module CodexStory {
  import opened OrderedMaps
  import opened CodexConverters
  import opened CodexTurns

  /** One sighting of a tool. */
  datatype Report = Report(id: string, call: ToolCall, final: bool)

  /** The item is shown at all, and so takes an id. */
  predicate TakesId(item: Item) {
    match item
    case AgentMessage(_, text) => text != ""
    case WebSearch(_, query, _, _) => query != ""
    case TodoList(_, items) => items != []
    case OtherItem => false
    case _ => true
  }

  /** How many items without an id of their own were shown so far. */
  function Numbered(events: seq<Event>): nat {
    if events == [] then 0
    else
      var e := events[|events| - 1];
      Numbered(events[..|events| - 1]) +
      if e.ItemEvent? && TakesId(e.item) && e.item.id.Unnamed? then 1 else 0
  }

  function ChangeReports(base: string, changes: seq<Change>, final: bool): seq<Report> {
    if changes == [] then []
    else
      var index := |changes| - 1;
      ChangeReports(base, changes[..index], final) +
      if changes[index].Unusable? then []
      else [Report(base + "#" + Decimal(index), ChangeCall(changes[index].path, changes[index].kind), final)]
  }

  /** The tools an item speaks about, with `numbered` items without an id before it. */
  function ReportsOf(item: Item, numbered: nat, final: bool): seq<Report> {
    if item.AgentMessage? || !TakesId(item) then []
    else
      var base := if item.id.Named? then item.id.id else "codex_tool_" + Decimal(numbered + 1);
      if item.FileChanges? then ChangeReports(base, item.changes, final)
      else [Report(base, CallOf(item)[0], final)]
  }

  /** All sightings of tools in the current turn. */
  function Reports(events: seq<Event>): seq<Report> {
    if events == [] then []
    else
      var init, e := events[..|events| - 1], events[|events| - 1];
      if EndsTurn(e) then []
      else if e.ItemEvent? then Reports(init) + ReportsOf(e.item, Numbered(init), e.completed || e.statusFinal)
      else Reports(init)
  }

  function Ids(reports: seq<Report>): set<string> {
    set r | r in reports :: r.id
  }

  function FinalIds(reports: seq<Report>): set<string> {
    set r | r in reports && r.final :: r.id
  }

  /** The first sighting of a tool shows its use, the first final one its result. */
  function LinesFor(earlier: seq<Report>, r: Report): seq<Line> {
    (if r.id in Ids(earlier) then [] else [ToolUse(r.id, r.call.name, r.call.input)]) +
    (if !r.final || r.id in FinalIds(earlier) then [] else [ToolResult(r.id, r.call.result, r.call.isError)])
  }

  function LinesForAll(earlier: seq<Report>, more: seq<Report>): seq<Line> {
    if more == [] then []
    else
      var init := more[..|more| - 1];
      LinesForAll(earlier, init) + LinesFor(earlier + init, more[|more| - 1])
  }

  /** The first sighting of every tool not in `done`: its id and name, in order. */
  function Unfinished(reports: seq<Report>, done: set<string>): Pairs<string> {
    if reports == [] then []
    else
      var init, r := reports[..|reports| - 1], reports[|reports| - 1];
      Unfinished(init, done) + if r.id in Ids(init) || r.id in done then [] else [(r.id, r.call.name)]
  }

  function Interruptions(open: Pairs<string>): seq<Line> {
    if open == [] then []
    else
      var (id, name) := open[|open| - 1];
      Interruptions(open[..|open| - 1]) +
      [ToolResult(id, "[interrupted] " + name + " did not complete before the turn ended", true)]
  }

  /** What the current turn has said: the last text of each message, in order of arrival. */
  function SaidText(events: seq<Event>): string {
    Joined(Latest(Said(events), Arrivals(Said(events))))
  }

  function TurnEnd(events: seq<Event>, result: Line): seq<Line> {
    Interruptions(Unfinished(Reports(events), FinalIds(Reports(events)))) + [result]
  }

  /** The lines event `e` adds after `events`. */
  function Told(events: seq<Event>, e: Event): seq<Line> {
    match e
    case Metadata(reported) => if reported then [Init] else []
    case ItemEvent(completed, statusFinal, AgentMessage(_, text)) =>
      if text != "" && (completed || statusFinal) then [Text(text)] else []
    case ItemEvent(completed, statusFinal, item) =>
      LinesForAll(Reports(events), ReportsOf(item, Numbered(events), completed || statusFinal))
    case TurnCompleted => TurnEnd(events, Result(SaidText(events), false))
    case TurnFailed(message) => TurnEnd(events, Result(message, true))
    case Unknown => []
  }

  function Story(events: seq<Event>): seq<Line> {
    if events == [] then []
    else Story(events[..|events| - 1]) + Told(events[..|events| - 1], events[|events| - 1])
  }

  // The tool state against the history

  ghost predicate Matches(ts: Tools, reports: seq<Report>) {
    && ts.used == Ids(reports)
    && ts.resulted == FinalIds(reports)
    && ts.inflight == Unfinished(reports, FinalIds(reports))
  }

  lemma IdsSnoc(reports: seq<Report>, r: Report)
    ensures Ids(reports + [r]) == Ids(reports) + {r.id}
    ensures FinalIds(reports + [r]) == FinalIds(reports) + if r.final then {r.id} else {}
    ensures FinalIds(reports) <= Ids(reports)
  {
  }

  lemma UnfinishedSnoc(reports: seq<Report>, r: Report, done: set<string>)
    ensures Unfinished(reports + [r], done) ==
      Unfinished(reports, done) + if r.id in Ids(reports) || r.id in done then [] else [(r.id, r.call.name)]
  {
    assert (reports + [r])[..|reports|] == reports;
  }

  lemma {:induction false} UnfinishedIds(reports: seq<Report>, done: set<string>)
    ensures Keys(Unfinished(reports, done)) == Ids(reports) - done
  {
    if reports != [] {
      var init, r := reports[..|reports| - 1], reports[|reports| - 1];
      assert reports == init + [r];
      UnfinishedIds(init, done);
      IdsSnoc(init, r);
      UnfinishedSnoc(init, r, done);
      KeysConcat(Unfinished(init, done), if r.id in Ids(init) || r.id in done then [] else [(r.id, r.call.name)]);
    }
  }

  lemma {:induction false} KeysConcat<V>(a: Pairs<V>, b: Pairs<V>)
    ensures Keys(a + b) == Keys(a) + Keys(b)
  {
    if a == [] {
      assert a + b == b;
    } else {
      assert (a + b)[1..] == a[1..] + b;
      KeysConcat(a[1..], b);
    }
  }

  lemma {:induction false} PutNew<V>(d: Pairs<V>, k: string, v: V)
    requires k !in Keys(d)
    ensures Put(d, k, v) == d + [(k, v)]
  {
    if d != [] {
      PutNew(d[1..], k, v);
    }
  }

  lemma {:induction false} RemoveConcat<V>(a: Pairs<V>, b: Pairs<V>, k: string)
    ensures Remove(a + b, k) == Remove(a, k) + Remove(b, k)
  {
    if a == [] {
      assert a + b == b;
    } else {
      assert (a + b)[1..] == a[1..] + b;
      RemoveConcat(a[1..], b, k);
    }
  }

  lemma {:induction false} RemoveAbsent<V>(d: Pairs<V>, k: string)
    requires k !in Keys(d)
    ensures Remove(d, k) == d
  {
    if d != [] {
      RemoveAbsent(d[1..], k);
    }
  }

  /** A tool that gets done leaves the unfinished ones; the others keep their places. */
  lemma {:induction false} DoneLeaves(reports: seq<Report>, done: set<string>, id: string)
    ensures Unfinished(reports, done + {id}) == Remove(Unfinished(reports, done), id)
  {
    if reports != [] {
      var init, r := reports[..|reports| - 1], reports[|reports| - 1];
      assert reports == init + [r];
      DoneLeaves(init, done, id);
      UnfinishedSnoc(init, r, done);
      UnfinishedSnoc(init, r, done + {id});
      var last: Pairs<string> := if r.id in Ids(init) || r.id in done then [] else [(r.id, r.call.name)];
      RemoveConcat(Unfinished(init, done), last, id);
      assert last != [] ==> last[1..] == [];
    }
  }

  lemma OpenMatches(ts: Tools, reports: seq<Report>, r: Report)
    requires Matches(ts, reports)
    ensures var ts' := OpenTool(ts, r.id, r.call.name);
            && ts'.used == Ids(reports + [r]) && ts'.resulted == FinalIds(reports)
            && ts'.inflight == Unfinished(reports + [r], FinalIds(reports))
  {
    IdsSnoc(reports, r);
    UnfinishedSnoc(reports, r, FinalIds(reports));
    UnfinishedIds(reports, FinalIds(reports));
    if r.id !in ts.used {
      PutNew(ts.inflight, r.id, r.call.name);
    }
  }

  lemma EmitTells(ts: Tools, reports: seq<Report>, r: Report)
    requires Matches(ts, reports)
    ensures var out := Emit(ts, r.id, r.call, r.final);
            Matches(out.0, reports + [r]) && out.1 == LinesFor(reports, r)
  {
    OpenMatches(ts, reports, r);
    IdsSnoc(reports, r);
    var all := reports + [r];
    if r.final && r.id !in ts.resulted {
      DoneLeaves(all, FinalIds(reports), r.id);
    } else {
      assert FinalIds(all) == FinalIds(reports);
    }
  }

  lemma LinesForAllSnoc(earlier: seq<Report>, init: seq<Report>, r: Report)
    ensures LinesForAll(earlier, init + [r]) == LinesForAll(earlier, init) + LinesFor(earlier + init, r)
  {
    assert (init + [r])[..|init|] == init;
  }

  lemma MoreTells(ts: Tools, lines: seq<Line>, reports: seq<Report>, more: seq<Report>, r: Report)
    requires Matches(ts, reports + more) && lines == LinesForAll(reports, more)
    ensures var out := Emit(ts, r.id, r.call, r.final);
            Matches(out.0, reports + (more + [r])) && lines + out.1 == LinesForAll(reports, more + [r])
  {
    EmitTells(ts, reports + more, r);
    LinesForAllSnoc(reports, more, r);
    assert reports + (more + [r]) == reports + more + [r];
  }

  lemma ChangeReportsSnoc(base: string, changes: seq<Change>, final: bool)
    requires changes != []
    ensures var index := |changes| - 1; var more := ChangeReports(base, changes[..index], final);
            ChangeReports(base, changes, final) ==
              if changes[index].Unusable? then more
              else more + [Report(ChangeId(base, index), ChangeCall(changes[index].path, changes[index].kind), final)]
  {
    var more := ChangeReports(base, changes[..|changes| - 1], final);
    assert more + [] == more;
  }

  lemma {:induction false} ChangesTell(ts: Tools, reports: seq<Report>, base: string, changes: seq<Change>, final: bool)
    requires Matches(ts, reports)
    ensures Matches(EmitChanges(ts, base, changes, final).0, reports + ChangeReports(base, changes, final))
    ensures EmitChanges(ts, base, changes, final).1 == LinesForAll(reports, ChangeReports(base, changes, final))
  {
    if changes == [] {
      assert reports + [] == reports;
    } else {
      var index := |changes| - 1;
      var init := changes[..index];
      ChangesTell(ts, reports, base, init, final);
      ChangeReportsSnoc(base, changes, final);
      if changes[index].Change? {
        var before := EmitChanges(ts, base, init, final);
        var r := Report(ChangeId(base, index), ChangeCall(changes[index].path, changes[index].kind), final);
        MoreTells(before.0, before.1, reports, ChangeReports(base, init, final), r);
      }
    }
  }

  /** What holds between the converter and the history after `events`. */
  ghost predicate Knows(s: State, events: seq<Event>) {
    && s.counter == Numbered(events)
    && Matches(s.tools, Reports(events))
    && s.messages == Latest(Said(events), Arrivals(Said(events)))
  }

  lemma ToolItemTells(s: State, reports: seq<Report>, item: Item, final: bool)
    requires Matches(s.tools, reports) && !item.AgentMessage?
    ensures var out, more := ConvertItem(s, item, final), ReportsOf(item, s.counter, final);
            && Matches(out.0.tools, reports + more) && out.1 == LinesForAll(reports, more)
            && out.0.messages == s.messages
            && out.0.counter == s.counter + if TakesId(item) && item.id.Unnamed? then 1 else 0
  {
    if !TakesId(item) {
      assert reports + [] == reports;
    } else if item.FileChanges? {
      ChangesTell(s.tools, reports, ResolvedId(item.id, s.counter), item.changes, final);
    } else {
      var r := Report(ResolvedId(item.id, s.counter), CallOf(item)[0], final);
      EmitTells(s.tools, reports, r);
      assert [r][..0] == [] && reports + [] == reports;
      var nothing: seq<Line> := [];
      assert nothing + LinesFor(reports, r) == LinesFor(reports, r);
    }
  }

  lemma {:induction false} ClosingTells(open: Pairs<string>, resulted: set<string>)
    requires Keys(open) !! resulted
    ensures Closing(open, resulted) == Interruptions(open)
  {
    if open != [] {
      var init, last := open[..|open| - 1], open[|open| - 1];
      assert open == init + [last];
      KeysConcat(init, [last]);
      assert [last][1..] == [] && last.0 in Keys([last]);
      ClosingTells(init, resulted);
    }
  }

  lemma TurnEndTells(s: State, events: seq<Event>, result: Line)
    requires Matches(s.tools, Reports(events))
    ensures EndTurn(s, result).1 == TurnEnd(events, result)
  {
    UnfinishedIds(Reports(events), FinalIds(Reports(events)));
    ClosingTells(s.tools.inflight, s.tools.resulted);
  }

  lemma StepTells(s: State, events: seq<Event>, e: Event)
    requires Knows(s, events)
    ensures Convert(s, e).1 == Told(events, e)
  {
    match e
    case Metadata(_) =>
    case ItemEvent(completed, statusFinal, item) =>
      if !item.AgentMessage? {
        ToolItemTells(s, Reports(events), item, completed || statusFinal);
      }
    case TurnCompleted => TurnEndTells(s, events, Result(SaidText(events), false));
    case TurnFailed(message) => TurnEndTells(s, events, Result(message, true));
    case Unknown =>
  }

  lemma ReportsSnoc(events: seq<Event>, e: Event)
    ensures Reports(events + [e]) ==
      if EndsTurn(e) then []
      else if e.ItemEvent? then
        Reports(events) + ReportsOf(e.item, Numbered(events), e.completed || e.statusFinal)
      else Reports(events)
    ensures Numbered(events + [e]) ==
      Numbered(events) + if e.ItemEvent? && TakesId(e.item) && e.item.id.Unnamed? then 1 else 0
  {
    var all := events + [e];
    assert all[..|all| - 1] == events && all[|all| - 1] == e;
  }

  lemma NothingMatches()
    ensures Matches(NO_TOOLS, [])
  {
  }

  lemma ToolsStep(s: State, events: seq<Event>, e: Event)
    requires s.counter == Numbered(events) && Matches(s.tools, Reports(events))
    ensures Convert(s, e).0.counter == Numbered(events + [e])
    ensures Matches(Convert(s, e).0.tools, Reports(events + [e]))
  {
    ReportsSnoc(events, e);
    if EndsTurn(e) {
      NothingMatches();
    } else if e.ItemEvent? {
      if e.item.AgentMessage? {
        assert Reports(events) + [] == Reports(events);
      } else {
        ToolItemTells(s, Reports(events), e.item, e.completed || e.statusFinal);
      }
    }
  }

  lemma {:induction false} RunKnows(events: seq<Event>)
    ensures Knows(Run(events).0, events)
  {
    CompletedTextIsLatest(events);
    if events != [] {
      var init, e := events[..|events| - 1], events[|events| - 1];
      assert events == init + [e];
      RunKnows(init);
      ToolsStep(Run(init).0, init, e);
    } else {
      NothingMatches();
    }
  }

  // Main results

  /** The output of every run is the story of its events. */
  lemma {:induction false} OutputIsStory(events: seq<Event>)
    ensures Run(events).1 == Story(events)
  {
    if events != [] {
      var init, e := events[..|events| - 1], events[|events| - 1];
      OutputIsStory(init);
      RunKnows(init);
      StepTells(Run(init).0, init, e);
    }
  }

  /**
  Ended by `finalize()` a run adds nothing if a turn had ended, else one turn end
  with what was said, or with an error if nothing was.
  */
  lemma FinishIsStory(events: seq<Event>)
    ensures Finished(events) == Story(events) +
      if TurnEnds(events) > 0 then []
      else if Said(events) != [] then TurnEnd(events, Result(SaidText(events), false))
      else TurnEnd(events, Result("Codex process exited without producing output", true))
  {
    OutputIsStory(events);
    RunKnows(events);
    OneResultPerTurnEnd(events);
    SaidIsKept(Said(events));
    var s := Run(events).0;
    TurnEndTells(s, events, Result(SaidText(events), false));
    TurnEndTells(s, events, Result(NO_OUTPUT, true));
  }

  lemma {:induction false} SaidIsKept(said: Pairs<string>)
    ensures Latest(said, Arrivals(said)) == [] <==> said == []
  {
    if said != [] {
      SaidIsKept(said[..|said| - 1]);
    }
  }

  function TextsOf(lines: seq<Line>): seq<string> {
    if lines == [] then []
    else
      var last := lines[|lines| - 1];
      TextsOf(lines[..|lines| - 1]) + if last.Text? then [last.text] else []
  }

  /** The non-empty texts of the agent messages reported in their final state, in order. */
  function FinalMessages(events: seq<Event>): seq<string> {
    if events == [] then []
    else
      var e := events[|events| - 1];
      FinalMessages(events[..|events| - 1]) +
      if e.ItemEvent? && e.item.AgentMessage? && e.item.text != "" && (e.completed || e.statusFinal)
      then [e.item.text] else []
  }

  lemma {:induction false} TextsConcat(a: seq<Line>, b: seq<Line>)
    ensures TextsOf(a + b) == TextsOf(a) + TextsOf(b)
  {
    if b == [] {
      assert a + b == a;
    } else {
      assert (a + b)[..|a + b| - 1] == a + b[..|b| - 1];
      TextsConcat(a, b[..|b| - 1]);
    }
  }

  lemma {:induction false} NoTexts(lines: seq<Line>)
    requires forall l :: l in lines ==> !l.Text?
    ensures TextsOf(lines) == []
  {
    if lines != [] {
      NoTexts(lines[..|lines| - 1]);
    }
  }

  lemma {:induction false} ToolLinesHaveNoText(earlier: seq<Report>, more: seq<Report>)
    ensures forall l :: l in LinesForAll(earlier, more) ==> !l.Text?
  {
    if more != [] {
      ToolLinesHaveNoText(earlier, more[..|more| - 1]);
    }
  }

  lemma {:induction false} InterruptionsHaveNoText(open: Pairs<string>)
    ensures forall l :: l in Interruptions(open) ==> !l.Text?
  {
    if open != [] {
      InterruptionsHaveNoText(open[..|open| - 1]);
    }
  }

  lemma ToldTexts(events: seq<Event>, e: Event)
    ensures TextsOf(Told(events, e)) ==
      if e.ItemEvent? && e.item.AgentMessage? && e.item.text != "" && (e.completed || e.statusFinal)
      then [e.item.text] else []
  {
    if e.ItemEvent? && e.item.AgentMessage? {
      var nothing: seq<Line> := [];
      assert [Text(e.item.text)][..0] == nothing;
    } else {
      if e.ItemEvent? {
        ToolLinesHaveNoText(Reports(events), ReportsOf(e.item, Numbered(events), e.completed || e.statusFinal));
      }
      InterruptionsHaveNoText(Unfinished(Reports(events), FinalIds(Reports(events))));
      NoTexts(Told(events, e));
    }
  }

  /** The assistant texts of a run are its final messages: no fragment is shown, and no final text is missing. */
  lemma {:induction false} TextsAreFinalMessages(events: seq<Event>)
    ensures TextsOf(Run(events).1) == FinalMessages(events)
  {
    OutputIsStory(events);
    if events != [] {
      var init, e := events[..|events| - 1], events[|events| - 1];
      TextsAreFinalMessages(init);
      OutputIsStory(init);
      TextsConcat(Story(init), Told(init, e));
      ToldTexts(init, e);
    }
  }

  /** A text of several messages is theirs, one per line. */
  lemma {:induction false} JoinedSplits(a: Pairs<string>, b: Pairs<string>)
    requires a != [] && b != []
    ensures Joined(a + b) == Joined(a) + "\n" + Joined(b)
    ensures |a| == 1 ==> Joined(a) == a[0].1
  {
    var init := b[..|b| - 1];
    assert (a + b)[..|a + b| - 1] == a + init;
    if init == [] {
      assert a + init == a;
    } else {
      JoinedSplits(a, init);
    }
  }

  // Payloads

  /** What a tool reported for the first time, and in its final state, shows. */
  ghost predicate ShowsOnce(
      lines: seq<Line>, id: string, name: string, input: ToolInput, result: string, isError: bool)
  {
    lines == [ToolUse(id, name, input), ToolResult(id, result, isError)]
  }

  /** The payload of each kind of item, seen on a first report in the final state. */
  lemma PayloadsByKind(s: State, item: Item)
    requires IsNamedTool(item) && item.id.id !in s.tools.used && item.id.id !in s.tools.resulted
    ensures var id, lines := item.id.id, ConvertItem(s, item, true).1;
            match item
            case CommandExecution(_, command, output, isError) =>
              ShowsOnce(lines, id, "Bash", Command(command), output, isError)
            case McpToolCall(_, server, tool, arguments, result, isError) =>
              && (tool != "" && server != "" ==>
                    ShowsOnce(lines, id, "mcp__" + server + "__" + tool, Arguments(arguments), result, isError))
              && (tool != "" && server == "" ==> ShowsOnce(lines, id, tool, Arguments(arguments), result, isError))
              && (tool == "" ==> ShowsOnce(lines, id, "unknown", Arguments(arguments), result, isError))
            case WebSearch(_, query, result, isError) =>
              if query == "" then lines == [] else ShowsOnce(lines, id, "WebSearch", Query(query), result, isError)
            case TodoList(_, items) =>
              if items == [] then lines == [] else ShowsOnce(lines, id, "TodoWrite", Todos(items), "", false)
            case FlatFileChange(_, path, content, changeType) =>
              var shown := "File " + changeType + ": " + path;
              if changeType == "write" || changeType == "create"
              then ShowsOnce(lines, id, "Write", FileContent(path, content), shown, false)
              else ShowsOnce(lines, id, "Edit", FileNewString(path, content), shown, false)
            case _ => true
  {
  }

  /** The payload of one entry of a list of changes. */
  lemma ChangePayload(path: string, kind: string)
    ensures var call := ChangeCall(path, kind);
            && call.input == File(path) && !call.isError
            && call.result == (if kind == "" then "File change: " else "File " + kind + ": ") + path
            && (call.name == "Write" <==> kind == "add" || kind == "create" || kind == "write")
            && (call.name == "Delete" <==> kind == "delete" || kind == "remove")
            && (call.name == "Write" || call.name == "Delete" || call.name == "Edit")
  {
    assert "File " + "change" + ": " == "File change: ";
  }

  // Touched files

  /** The item reports the file as changed. */
  predicate Touches(item: Item, path: string) {
    match item
    case FlatFileChange(_, p, _, _) => p == path && path != ""
    case FileChanges(_, changes) => exists n :: 0 <= n < |changes| && changes[n].Change? && changes[n].path == path
    case _ => false
  }

  lemma TouchedByIs(item: Item, path: string)
    ensures path in TouchedBy(item) <==> Touches(item, path)
  {
    if item.FileChanges? && path in TouchedBy(item) {
      var c :| c in item.changes && c.Change? && c.path == path;
    }
  }

  /** The touched files of a run are exactly the files some item of it reported, whatever its state. */
  lemma {:induction false} TouchedIsReported(events: seq<Event>, path: string)
    ensures path in Run(events).0.touched <==>
      exists n :: 0 <= n < |events| && events[n].ItemEvent? && Touches(events[n].item, path)
  {
    if events != [] {
      var init, e := events[..|events| - 1], events[|events| - 1];
      TouchedIsReported(init, path);
      assert forall n :: 0 <= n < |init| ==> init[n] == events[n];
      if e.ItemEvent? {
        TouchedByIs(e.item, path);
      }
    }
  }
}
