/**
Whole runs of the codex converter: how the emitted lines are bracketed turn by
turn, how many result lines there are, what a completed turn's text is, and
that repeated lifecycle events are silent.
*/
module CodexTurns {
  import opened OrderedMaps
  import opened Sequences
  import opened CodexConverters

  function Run(events: seq<Event>): (State, seq<Line>) {
    if events == [] then (START, [])
    else
      var before := Run(events[..|events| - 1]);
      var step := Convert(before.0, events[|events| - 1]);
      (step.0, before.1 + step.1)
  }

  // The output alone, cut into turns at its result lines

  datatype Log = Log(turns: seq<seq<Line>>, open: seq<Line>)

  function Feed(log: Log, lines: seq<Line>): Log {
    if lines == [] then log
    else
      var before := Feed(log, lines[..|lines| - 1]);
      var last := lines[|lines| - 1];
      if last.Result? then Log(before.turns + [before.open], [])
      else before.(open := before.open + [last])
  }

  lemma {:induction false} FeedConcat(log: Log, a: seq<Line>, b: seq<Line>)
    ensures Feed(log, a + b) == Feed(Feed(log, a), b)
  {
    if b == [] {
      assert a + b == a;
    } else {
      assert (a + b)[..|a + b| - 1] == a + b[..|b| - 1];
      FeedConcat(log, a, b[..|b| - 1]);
    }
  }

  lemma {:induction false} FeedPlain(log: Log, lines: seq<Line>)
    requires forall l :: l in lines ==> !l.Result?
    ensures Feed(log, lines) == log.(open := log.open + lines)
  {
    if lines == [] {
      assert log.open + lines == log.open;
    } else {
      FeedPlain(log, lines[..|lines| - 1]);
      assert log.open + lines == log.open + lines[..|lines| - 1] + [lines[|lines| - 1]];
    }
  }

  function UsedIds(turn: seq<Line>): set<string> {
    if turn == [] then {}
    else
      var last := turn[|turn| - 1];
      UsedIds(turn[..|turn| - 1]) + if last.ToolUse? then {last.id} else {}
  }

  function ResultIds(turn: seq<Line>): set<string> {
    if turn == [] then {}
    else
      var last := turn[|turn| - 1];
      ResultIds(turn[..|turn| - 1]) + if last.ToolResult? then {last.id} else {}
  }

  /** Each id has at most one tool_use and at most one tool_result, and the use comes first. */
  ghost predicate Bracketed(turn: seq<Line>) {
    && (forall i, j :: 0 <= i < j < |turn| && turn[i].ToolUse? && turn[j].ToolUse? ==> turn[i].id != turn[j].id)
    && (forall i, j :: 0 <= i < j < |turn| && turn[i].ToolResult? && turn[j].ToolResult? ==> turn[i].id != turn[j].id)
    && (forall j :: 0 <= j < |turn| && turn[j].ToolResult? ==> UsedBefore(turn, j, turn[j].id))
  }

  ghost predicate UsedBefore(turn: seq<Line>, j: nat, id: string)
    requires j <= |turn|
  {
    exists i :: 0 <= i < j && turn[i].ToolUse? && turn[i].id == id
  }

  ghost predicate ResultedAfter(turn: seq<Line>, i: nat, id: string) {
    exists j :: i < j < |turn| && turn[j].ToolResult? && turn[j].id == id
  }

  /** Every tool_use of the turn is followed by its tool_result in the turn. */
  ghost predicate Complete(turn: seq<Line>) {
    forall i :: 0 <= i < |turn| && turn[i].ToolUse? ==> ResultedAfter(turn, i, turn[i].id)
  }

  /** The same, checked line by line as the output arrives. */
  predicate Accepted(turn: seq<Line>) {
    turn == [] ||
    var init, last := turn[..|turn| - 1], turn[|turn| - 1];
    && Accepted(init)
    && (last.ToolUse? ==> last.id !in UsedIds(init))
    && (last.ToolResult? ==> last.id in UsedIds(init) && last.id !in ResultIds(init))
  }

  lemma {:induction false} UsedIdsAreUses(turn: seq<Line>, id: string)
    ensures id in UsedIds(turn) <==> exists i :: 0 <= i < |turn| && turn[i].ToolUse? && turn[i].id == id
  {
    if turn != [] {
      UsedIdsAreUses(turn[..|turn| - 1], id);
    }
  }

  lemma {:induction false} ResultIdsAreResults(turn: seq<Line>, id: string)
    ensures id in ResultIds(turn) <==> exists i :: 0 <= i < |turn| && turn[i].ToolResult? && turn[i].id == id
  {
    if turn != [] {
      ResultIdsAreResults(turn[..|turn| - 1], id);
    }
  }

  lemma {:induction false} AcceptedIsBracketed(turn: seq<Line>)
    requires Accepted(turn)
    ensures Bracketed(turn)
  {
    if turn != [] {
      var init, last := turn[..|turn| - 1], turn[|turn| - 1];
      AcceptedIsBracketed(init);
      forall j | 0 <= j < |turn| && turn[j].ToolResult?
        ensures UsedBefore(turn, j, turn[j].id)
      {
        if j < |init| {
          assert UsedBefore(init, j, init[j].id);
        } else {
          UsedIdsAreUses(init, last.id);
        }
      }
      if last.ToolUse? {
        UsedIdsAreUses(init, last.id);
      } else if last.ToolResult? {
        ResultIdsAreResults(init, last.id);
      }
    }
  }

  /** A turn is complete exactly when every id used in it also has a result. */
  lemma CompleteIsAllResulted(turn: seq<Line>)
    requires Accepted(turn)
    ensures Complete(turn) <==> UsedIds(turn) <= ResultIds(turn)
  {
    AcceptedIsBracketed(turn);
    if Complete(turn) {
      forall id | id in UsedIds(turn)
        ensures id in ResultIds(turn)
      {
        UsedIdsAreUses(turn, id);
        ResultIdsAreResults(turn, id);
        var i :| 0 <= i < |turn| && turn[i].ToolUse? && turn[i].id == id;
        assert ResultedAfter(turn, i, turn[i].id);
      }
    }
    if UsedIds(turn) <= ResultIds(turn) {
      forall i | 0 <= i < |turn| && turn[i].ToolUse?
        ensures ResultedAfter(turn, i, turn[i].id)
      {
        UsedIdsAreUses(turn, turn[i].id);
        ResultIdsAreResults(turn, turn[i].id);
        var j :| 0 <= j < |turn| && turn[j].ToolResult? && turn[j].id == turn[i].id;
        assert UsedBefore(turn, j, turn[j].id);
      }
    }
  }

  /** The converter's tool state is what the open turn shows. */
  ghost predicate Shows(ts: Tools, turn: seq<Line>) {
    && Accepted(turn)
    && ts.used == UsedIds(turn)
    && ts.resulted == ResultIds(turn) <= ts.used
    && Distinct(ts.inflight)
    && Keys(ts.inflight) == ts.used - ts.resulted
  }

  lemma Snoc(turn: seq<Line>, l: Line)
    requires Accepted(turn)
    requires l.ToolUse? ==> l.id !in UsedIds(turn)
    requires l.ToolResult? ==> l.id in UsedIds(turn) - ResultIds(turn)
    ensures Accepted(turn + [l])
    ensures UsedIds(turn + [l]) == UsedIds(turn) + if l.ToolUse? then {l.id} else {}
    ensures ResultIds(turn + [l]) == ResultIds(turn) + if l.ToolResult? then {l.id} else {}
  {
    assert (turn + [l])[..|turn|] == turn;
  }

  lemma OpenShows(ts: Tools, turn: seq<Line>, id: string, name: string, input: ToolInput)
    requires Shows(ts, turn) && id !in ts.used
    ensures Shows(OpenTool(ts, id, name), turn + [ToolUse(id, name, input)])
  {
    Snoc(turn, ToolUse(id, name, input));
    PutKeys(ts.inflight, id, name);
  }

  lemma CloseShows(ts: Tools, turn: seq<Line>, id: string, content: string, isError: bool)
    requires Shows(ts, turn) && id in ts.used && id !in ts.resulted
    ensures Shows(CloseTool(ts, id), turn + [ToolResult(id, content, isError)])
  {
    Snoc(turn, ToolResult(id, content, isError));
    RemoveKeys(ts.inflight, id);
  }

  lemma EmitShows(ts: Tools, turn: seq<Line>, id: string, call: ToolCall, final: bool)
    requires Shows(ts, turn)
    ensures var out := Emit(ts, id, call, final);
            Shows(out.0, turn + out.1) && forall l :: l in out.1 ==> !l.Result?
  {
    var out := Emit(ts, id, call, final);
    var shown, mid := OpenTool(ts, id, call.name), turn;
    if id !in ts.used {
      OpenShows(ts, turn, id, call.name, call.input);
      mid := turn + [ToolUse(id, call.name, call.input)];
    }
    if final && id !in ts.resulted {
      CloseShows(shown, mid, id, call.result, call.isError);
      assert turn + out.1 == mid + [ToolResult(id, call.result, call.isError)];
    } else {
      assert turn + out.1 == mid;
    }
  }

  lemma {:induction false} ChangesShow(ts: Tools, turn: seq<Line>, base: string, changes: seq<Change>, final: bool)
    requires Shows(ts, turn)
    ensures var out := EmitChanges(ts, base, changes, final);
            Shows(out.0, turn + out.1) && forall l :: l in out.1 ==> !l.Result?
  {
    if changes == [] {
      assert turn + [] == turn;
    } else {
      var index := |changes| - 1;
      ChangesShow(ts, turn, base, changes[..index], final);
      match changes[index]
      case Unusable =>
      case Change(path, kind) =>
        var before := EmitChanges(ts, base, changes[..index], final);
        EmitShows(before.0, turn + before.1, ChangeId(base, index), ChangeCall(path, kind), final);
        var one := Emit(before.0, ChangeId(base, index), ChangeCall(path, kind), final);
        assert turn + (before.1 + one.1) == turn + before.1 + one.1;
    }
  }

  lemma {:induction false} ClosingCompletes(turn: seq<Line>, inflight: Pairs<string>, n: nat)
    requires Accepted(turn) && Distinct(inflight) && n <= |inflight|
    requires Keys(inflight) == UsedIds(turn) - ResultIds(turn)
    ensures var lines := Closing(inflight[..n], ResultIds(turn));
            && Accepted(turn + lines)
            && UsedIds(turn + lines) == UsedIds(turn)
            && ResultIds(turn + lines) == ResultIds(turn) + Keys(inflight[..n])
  {
    if n == 0 {
      assert turn + [] == turn;
    } else {
      ClosingCompletes(turn, inflight, n - 1);
      assert inflight[..n][..n - 1] == inflight[..n - 1];
      DistinctPrefix(inflight, n - 1);
      KeysPrefix(inflight, n - 1);
      var lines := Closing(inflight[..n - 1], ResultIds(turn));
      var id := inflight[n - 1].0;
      assert id in UsedIds(turn) - ResultIds(turn);
      var last := ToolResult(id, Interrupted(inflight[n - 1].1), true);
      Snoc(turn + lines, last);
      assert Closing(inflight[..n], ResultIds(turn)) == lines + [last];
      assert turn + (lines + [last]) == turn + lines + [last];
    }
  }

  /** What holds between the converter and its output so far. */
  ghost predicate Inv(s: State, lines: seq<Line>) {
    var log := Feed(Log([], []), lines);
    && (forall t :: t in log.turns ==> Accepted(t) && UsedIds(t) <= ResultIds(t))
    && Shows(s.tools, log.open)
  }

  lemma TurnEndKeepsInv(s: State, lines: seq<Line>, result: Line)
    requires Inv(s, lines) && result.Result?
    ensures var out := EndTurn(s, result); Inv(out.0, lines + out.1)
    ensures Feed(Log([], []), lines + EndTurn(s, result).1).open == []
  {
    var log := Feed(Log([], []), lines);
    var ts := s.tools;
    var closing := Closing(ts.inflight, ts.resulted);
    assert ts.inflight[..|ts.inflight|] == ts.inflight;
    ClosingCompletes(log.open, ts.inflight, |ts.inflight|);
    ClosingLines(ts.inflight, ts.resulted);
    var last := log.open + closing;
    assert UsedIds(last) <= ResultIds(last);
    assert Feed(Log([], []), lines + (closing + [result])) == Log(log.turns + [last], []) by {
      FeedConcat(Log([], []), lines, closing + [result]);
      FeedPlain(log, closing);
      assert (closing + [result])[..|closing|] == closing;
    }
  }

  lemma ItemKeepsInv(s: State, lines: seq<Line>, item: Item, final: bool)
    requires Inv(s, lines)
    ensures var out := ConvertItem(s, item, final); Inv(out.0, lines + out.1)
  {
    var log := Feed(Log([], []), lines);
    var out := ConvertItem(s, item, final);
    FeedConcat(Log([], []), lines, out.1);
    match item
    case OtherItem =>
    case AgentMessage(id, text) =>
      FeedPlain(log, out.1);
      if out.1 != [] {
        Snoc(log.open, Text(text));
      } else {
        assert log.open + out.1 == log.open;
      }
    case FileChanges(id, changes) =>
      ChangesShow(s.tools, log.open, ResolvedId(id, s.counter), changes, final);
      FeedPlain(log, out.1);
    case _ =>
      if CallOf(item) != [] {
        EmitShows(s.tools, log.open, ResolvedId(item.id, s.counter), CallOf(item)[0], final);
        FeedPlain(log, out.1);
      }
  }

  lemma ConvertKeepsInv(s: State, lines: seq<Line>, e: Event)
    requires Inv(s, lines)
    ensures var out := Convert(s, e); Inv(out.0, lines + out.1)
  {
    match e
    case Metadata(reported) =>
      if reported {
        var log := Feed(Log([], []), lines);
        FeedConcat(Log([], []), lines, [Init]);
        FeedPlain(log, [Init]);
        Snoc(log.open, Init);
      } else {
        assert lines + [] == lines;
      }
    case ItemEvent(completed, statusFinal, item) => ItemKeepsInv(s, lines, item, completed || statusFinal);
    case TurnCompleted => TurnEndKeepsInv(s, lines, Result(Joined(s.messages), false));
    case TurnFailed(message) => TurnEndKeepsInv(s, lines, Result(message, true));
    case Unknown => assert lines + [] == lines;
  }

  lemma {:induction false} RunKeepsInv(events: seq<Event>)
    ensures Inv(Run(events).0, Run(events).1)
  {
    if events != [] {
      var init := events[..|events| - 1];
      RunKeepsInv(init);
      ConvertKeepsInv(Run(init).0, Run(init).1, events[|events| - 1]);
    }
  }

  lemma InvMeans(s: State, lines: seq<Line>)
    requires Inv(s, lines)
    ensures var log := Feed(Log([], []), lines);
            && (forall t :: t in log.turns ==> Bracketed(t) && Complete(t))
            && Bracketed(log.open)
            && (Complete(log.open) <==> s.tools.inflight == [])
  {
    var log := Feed(Log([], []), lines);
    forall t | t in log.turns
      ensures Bracketed(t) && Complete(t)
    {
      AcceptedIsBracketed(t);
      CompleteIsAllResulted(t);
    }
    AcceptedIsBracketed(log.open);
    CompleteIsAllResulted(log.open);
    if s.tools.inflight != [] {
      KeysPrefix(s.tools.inflight, 0);
    }
  }

  /**
  In every event sequence each turn of the output is bracketed, every finished
  turn has a result for every tool it opened before its result line, and the
  in-flight map is exactly what the open turn has used but not resulted.
  */
  lemma TurnsAreBracketed(events: seq<Event>)
    ensures var log := Feed(Log([], []), Run(events).1);
            && (forall t :: t in log.turns ==> Bracketed(t) && Complete(t))
            && Bracketed(log.open)
            && Distinct(Run(events).0.tools.inflight)
            && Keys(Run(events).0.tools.inflight) == UsedIds(log.open) - ResultIds(log.open)
  {
    RunKeepsInv(events);
    InvMeans(Run(events).0, Run(events).1);
  }

  /** The output of a run ended by `finalize()`. */
  function Finished(events: seq<Event>): seq<Line> {
    Run(events).1 + Finalize(Run(events).0).1
  }

  /**
  After `finalize()` no tool is left open exactly when no turn had ended before
  or nothing was in flight: an item opened after the last turn end stays open.
  */
  lemma FinalizeCompletes(events: seq<Event>)
    ensures var s, log := Run(events).0, Feed(Log([], []), Finished(events));
            && (forall t :: t in log.turns ==> Bracketed(t) && Complete(t))
            && (Complete(log.open) <==> !s.seenTerminal || s.tools.inflight == [])
  {
    RunKeepsInv(events);
    var s, lines := Run(events).0, Run(events).1;
    if s.seenTerminal {
      assert lines + [] == lines;
    } else if s.messages != [] {
      TurnEndKeepsInv(s, lines, Result(Joined(s.messages), false));
    } else {
      TurnEndKeepsInv(s, lines, Result(NO_OUTPUT, true));
    }
    InvMeans(Finalize(s).0, Finished(events));
  }

  /** A run whose last item `finalize()` leaves open. */
  lemma FinalizeLeavesOpen()
    ensures var item := CommandExecution(Named("item_1"), "ls", "", false);
            var events := [TurnCompleted, ItemEvent(false, false, item)];
            !Complete(Feed(Log([], []), Finished(events)).open)
  {
    var item := CommandExecution(Named("item_1"), "ls", "", false);
    var events := [TurnCompleted, ItemEvent(false, false, item)];
    assert events[..1] == [TurnCompleted] && [TurnCompleted][..0] == [];
    assert Run([TurnCompleted]).0 == START.(seenTerminal := true);
    FinalizeCompletes(events);
    assert Run(events).0.tools.inflight == [("item_1", "Bash")];
  }

  // How many result lines

  function Results(lines: seq<Line>): nat {
    if lines == [] then 0
    else Results(lines[..|lines| - 1]) + if lines[|lines| - 1].Result? then 1 else 0
  }

  predicate EndsTurn(e: Event) {
    e.TurnCompleted? || e.TurnFailed?
  }

  function TurnEnds(events: seq<Event>): nat {
    if events == [] then 0
    else
      var e := events[|events| - 1];
      TurnEnds(events[..|events| - 1]) + if EndsTurn(e) then 1 else 0
  }

  lemma {:induction false} ResultsAreTurns(lines: seq<Line>)
    ensures Results(lines) == |Feed(Log([], []), lines).turns|
  {
    if lines != [] {
      ResultsAreTurns(lines[..|lines| - 1]);
    }
  }

  lemma {:induction false} ResultsConcat(a: seq<Line>, b: seq<Line>)
    ensures Results(a + b) == Results(a) + Results(b)
  {
    if b == [] {
      assert a + b == a;
    } else {
      assert (a + b)[..|a + b| - 1] == a + b[..|b| - 1];
      ResultsConcat(a, b[..|b| - 1]);
    }
  }

  lemma {:induction false} NoResults(lines: seq<Line>)
    requires forall l :: l in lines ==> !l.Result?
    ensures Results(lines) == 0
  {
    if lines != [] {
      NoResults(lines[..|lines| - 1]);
    }
  }

  lemma {:induction false} ClosingLines(inflight: Pairs<string>, resulted: set<string>)
    ensures forall l :: l in Closing(inflight, resulted) ==> l.ToolResult?
  {
    if inflight != [] {
      ClosingLines(inflight[..|inflight| - 1], resulted);
    }
  }

  lemma EndTurnHasOneResult(s: State, result: Line)
    requires result.Result?
    ensures Results(EndTurn(s, result).1) == 1
  {
    var closing := Closing(s.tools.inflight, s.tools.resulted);
    ClosingLines(s.tools.inflight, s.tools.resulted);
    NoResults(closing);
    assert (closing + [result])[..|closing|] == closing;
  }

  lemma {:induction false} ChangesPlain(ts: Tools, base: string, changes: seq<Change>, final: bool)
    ensures forall l :: l in EmitChanges(ts, base, changes, final).1 ==> !l.Result?
  {
    if changes != [] {
      ChangesPlain(ts, base, changes[..|changes| - 1], final);
    }
  }

  lemma ItemHasNoResult(s: State, item: Item, final: bool)
    ensures Results(ConvertItem(s, item, final).1) == 0
  {
    if item.FileChanges? {
      ChangesPlain(s.tools, ResolvedId(item.id, s.counter), item.changes, final);
    }
    NoResults(ConvertItem(s, item, final).1);
  }

  lemma StepResults(s: State, e: Event)
    ensures Results(Convert(s, e).1) == if EndsTurn(e) then 1 else 0
    ensures Convert(s, e).0.seenTerminal <==> s.seenTerminal || EndsTurn(e)
  {
    match e
    case Metadata(_) => NoResults(Convert(s, e).1);
    case ItemEvent(completed, statusFinal, item) => ItemHasNoResult(s, item, completed || statusFinal);
    case TurnCompleted => EndTurnHasOneResult(s, Result(Joined(s.messages), false));
    case TurnFailed(message) => EndTurnHasOneResult(s, Result(message, true));
    case Unknown =>
  }

  lemma {:induction false} OneResultPerTurnEnd(events: seq<Event>)
    ensures Results(Run(events).1) == TurnEnds(events)
    ensures Run(events).0.seenTerminal <==> TurnEnds(events) > 0
  {
    if events != [] {
      var init, e := events[..|events| - 1], events[|events| - 1];
      OneResultPerTurnEnd(init);
      ResultsConcat(Run(init).1, Convert(Run(init).0, e).1);
      StepResults(Run(init).0, e);
    }
  }

  /**
  A run ended by `finalize()` has one result line per turn end, or exactly one
  if no turn ended; a second `finalize()` emits nothing.
  */
  lemma FinishedResultCount(events: seq<Event>)
    ensures Results(Finished(events)) == if TurnEnds(events) == 0 then 1 else TurnEnds(events)
    ensures Finalize(Finalize(Run(events).0).0).1 == []
  {
    OneResultPerTurnEnd(events);
    var s := Run(events).0;
    ResultsConcat(Run(events).1, Finalize(s).1);
    if !s.seenTerminal {
      EndTurnHasOneResult(s, Result(Joined(s.messages), false));
      EndTurnHasOneResult(s, Result(NO_OUTPUT, true));
    }
  }

  // What a completed turn says

  /** The non-empty agent messages of the current turn as they arrived, under their resolved ids. */
  function Said(events: seq<Event>): Pairs<string> {
    if events == [] then []
    else
      var init, e := events[..|events| - 1], events[|events| - 1];
      match e
      case TurnCompleted => []
      case TurnFailed(_) => []
      case ItemEvent(_, _, AgentMessage(id, text)) =>
        if text == "" then Said(init) else Said(init) + [(ResolvedId(id, Run(init).0.counter), text)]
      case _ => Said(init)
  }

  /** The message ids in order of first arrival. */
  function Arrivals(said: Pairs<string>): seq<string> {
    if said == [] then []
    else
      var ids, id := Arrivals(said[..|said| - 1]), said[|said| - 1].0;
      if id in ids then ids else ids + [id]
  }

  /** The last text that arrived under an id. */
  function LastText(said: Pairs<string>, id: string): string {
    if said == [] then ""
    else if said[|said| - 1].0 == id then said[|said| - 1].1
    else LastText(said[..|said| - 1], id)
  }

  function Latest(said: Pairs<string>, ids: seq<string>): Pairs<string> {
    if ids == [] then []
    else [(ids[0], LastText(said, ids[0]))] + Latest(said, ids[1..])
  }

  lemma {:induction false} ArrivalsDistinct(said: Pairs<string>)
    ensures NoRepeats(Arrivals(said))
  {
    if said != [] {
      ArrivalsDistinct(said[..|said| - 1]);
    }
  }

  lemma {:induction false} LatestSame(said: Pairs<string>, id: string, text: string, ids: seq<string>)
    requires id !in ids
    ensures Latest(said + [(id, text)], ids) == Latest(said, ids)
  {
    if ids != [] {
      assert (said + [(id, text)])[..|said|] == said;
      LatestSame(said, id, text, ids[1..]);
    }
  }

  lemma {:induction false} PutIsLatest(said: Pairs<string>, id: string, text: string, ids: seq<string>)
    requires NoRepeats(ids)
    ensures Put(Latest(said, ids), id, text) ==
      Latest(said + [(id, text)], if id in ids then ids else ids + [id])
  {
    var more := said + [(id, text)];
    assert more[..|said|] == said;
    if ids != [] {
      var tail := ids[1..];
      assert Latest(said, ids)[1..] == Latest(said, tail);
      if ids[0] == id {
        LatestSame(said, id, text, tail);
      } else {
        PutIsLatest(said, id, text, tail);
        assert (ids + [id])[1..] == tail + [id];
      }
    }
  }

  /**
  The text of a turn that completes now: the last non-empty text of each message
  id of this turn, joined in order of first arrival.
  */
  lemma {:induction false} CompletedTextIsLatest(events: seq<Event>)
    ensures Run(events).0.messages == Latest(Said(events), Arrivals(Said(events)))
    ensures var lines := Convert(Run(events).0, TurnCompleted).1;
            lines[|lines| - 1] == Result(Joined(Latest(Said(events), Arrivals(Said(events)))), false)
  {
    if events != [] {
      var init, e := events[..|events| - 1], events[|events| - 1];
      CompletedTextIsLatest(init);
      if e.ItemEvent? && e.item.AgentMessage? && e.item.text != "" {
        var said, id := Said(init), ResolvedId(e.item.id, Run(init).0.counter);
        ArrivalsDistinct(said);
        PutIsLatest(said, id, e.item.text, Arrivals(said));
        assert Said(events) == said + [(id, e.item.text)];
        assert (said + [(id, e.item.text)])[..|said|] == said;
      } else {
        assert Said(events) == if EndsTurn(e) then [] else Said(init);
      }
    }
  }

  // Repeated lifecycle events

  predicate IsNamedTool(item: Item) {
    !item.AgentMessage? && !item.OtherItem? && item.id.Named?
  }

  /** The tool ids an item with an id of its own speaks about. */
  function ReportedIds(item: Item): set<string>
    requires IsNamedTool(item)
  {
    if item.FileChanges? then
      set n | 0 <= n < |item.changes| && item.changes[n].Change? :: ChangeId(item.id.id, n)
    else if CallOf(item) == [] then {}
    else {item.id.id}
  }

  /** What can only grow within a turn. */
  predicate Grows(s: State, s': State) {
    s.tools.used <= s'.tools.used && s.tools.resulted <= s'.tools.resulted && s.touched <= s'.touched
  }

  lemma {:induction false} ChangesGrow(ts: Tools, base: string, changes: seq<Change>, final: bool)
    ensures var ts' := EmitChanges(ts, base, changes, final).0;
            && ts.used <= ts'.used && ts.resulted <= ts'.resulted
            && (final ==> forall n :: 0 <= n < |changes| && changes[n].Change? ==> ChangeId(base, n) in ts'.resulted)
  {
    if changes != [] {
      ChangesGrow(ts, base, changes[..|changes| - 1], final);
    }
  }

  lemma StepGrows(s: State, e: Event)
    requires !EndsTurn(e)
    ensures Grows(s, Convert(s, e).0)
  {
    if e.ItemEvent? && e.item.FileChanges? {
      ChangesGrow(s.tools, ResolvedId(e.item.id, s.counter), e.item.changes, e.completed || e.statusFinal);
    }
  }

  lemma FinalItemIsResulted(s: State, item: Item)
    requires IsNamedTool(item)
    ensures var s' := ConvertItem(s, item, true).0;
            ReportedIds(item) <= s'.tools.resulted && TouchedBy(item) <= s'.touched
  {
    if item.FileChanges? {
      ChangesGrow(s.tools, item.id.id, item.changes, true);
    }
  }

  /** The tool ids that a report, final or not, cannot say anything new about. */
  function Settled(ts: Tools, final: bool): set<string> {
    if final then ts.resulted else ts.used
  }

  predicate ChangesSettled(ts: Tools, base: string, changes: seq<Change>, final: bool) {
    forall n :: 0 <= n < |changes| && changes[n].Change? ==> ChangeId(base, n) in Settled(ts, final)
  }

  lemma EmitSilentIff(ts: Tools, id: string, call: ToolCall, final: bool)
    requires ts.resulted <= ts.used
    ensures Emit(ts, id, call, final).1 == [] <==> id in Settled(ts, final)
    ensures Emit(ts, id, call, final).1 == [] ==> Emit(ts, id, call, final).0 == ts
  {
  }

  lemma SettledSnoc(ts: Tools, base: string, init: seq<Change>, last: Change, final: bool)
    ensures ChangesSettled(ts, base, init + [last], final) <==>
      ChangesSettled(ts, base, init, final) && (last.Change? ==> ChangeId(base, |init|) in Settled(ts, final))
  {
    var all := init + [last];
    assert all[|init|] == last && forall n :: 0 <= n < |init| ==> all[n] == init[n];
  }

  lemma {:induction false} ChangesSilentIff(ts: Tools, base: string, changes: seq<Change>, final: bool)
    requires ts.resulted <= ts.used
    ensures EmitChanges(ts, base, changes, final).1 == [] <==> ChangesSettled(ts, base, changes, final)
    ensures EmitChanges(ts, base, changes, final).1 == [] ==> EmitChanges(ts, base, changes, final).0 == ts
  {
    if changes != [] {
      var index := |changes| - 1;
      var init, last := changes[..index], changes[index];
      assert changes == init + [last];
      ChangesSilentIff(ts, base, init, final);
      SettledSnoc(ts, base, init, last, final);
      EmitChangesSnoc(ts, base, changes, index, final);
      assert changes[..index + 1] == changes;
      if last.Change? {
        EmitSilentIff(ts, ChangeId(base, index), ChangeCall(last.path, last.kind), final);
      }
    }
  }

  /** An item with an id of its own is silent exactly when it speaks about settled tools only. */
  lemma ItemSilentIff(s: State, item: Item, final: bool)
    requires IsNamedTool(item) && s.tools.resulted <= s.tools.used
    ensures var out := ConvertItem(s, item, final);
            && (out.1 == [] <==> ReportedIds(item) <= Settled(s.tools, final))
            && (out.1 == [] ==> out.0 == s.(touched := s.touched + TouchedBy(item)))
  {
    assert s.touched + {} == s.touched;
    if item.FileChanges? {
      ChangesSilentIff(s.tools, item.id.id, item.changes, final);
      assert forall n :: 0 <= n < |item.changes| && item.changes[n].Change? ==>
        ChangeId(item.id.id, n) in ReportedIds(item);
    } else if CallOf(item) != [] {
      EmitSilentIff(s.tools, item.id.id, CallOf(item)[0], final);
    }
  }

  lemma {:induction false} GrowsThroughTurn(events: seq<Event>, more: seq<Event>)
    requires forall e :: e in more ==> !EndsTurn(e)
    ensures Grows(Run(events).0, Run(events + more).0)
  {
    if more == [] {
      assert events + more == events;
    } else {
      var init := more[..|more| - 1];
      GrowsThroughTurn(events, init);
      assert (events + more)[..|events + more| - 1] == events + init;
      StepGrows(Run(events + init).0, more[|more| - 1]);
    }
  }

  /**
  At any point of any run, an item with an id of its own emits nothing exactly
  when the open turn shows a tool_use of every id it speaks about, and for a final
  report a tool_result, however that came. It then changes nothing but may add
  touched files.
  */
  lemma RepeatsAreSilent(events: seq<Event>, item: Item, final: bool)
    requires IsNamedTool(item)
    ensures var s, open := Run(events).0, Feed(Log([], []), Run(events).1).open;
            var out := ConvertItem(s, item, final);
            && (out.1 == [] <==> ReportedIds(item) <= if final then ResultIds(open) else UsedIds(open))
            && (out.1 == [] ==> out.0 == s.(touched := s.touched + TouchedBy(item)))
  {
    RunKeepsInv(events);
    ItemSilentIff(Run(events).0, item, final);
  }

  /** So once an item was reported in its final state, the same item is silent in the rest of the turn. */
  lemma FinishedItemIsSilent(events: seq<Event>, item: Item, more: seq<Event>, final: bool)
    requires IsNamedTool(item) && forall e :: e in more ==> !EndsTurn(e)
    ensures var s := Run(events + [ItemEvent(true, true, item)] + more).0; ConvertItem(s, item, final) == (s, [])
  {
    var reported := events + [ItemEvent(true, true, item)];
    assert reported[..|events|] == events;
    FinalItemIsResulted(Run(events).0, item);
    GrowsThroughTurn(reported, more);
    RunKeepsInv(reported + more);
    var s := Run(reported + more).0;
    ItemSilentIff(s, item, final);
    assert s.touched + TouchedBy(item) == s.touched;
  }
}
