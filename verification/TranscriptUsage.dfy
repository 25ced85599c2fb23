/**
`SessionTranscriptWatcher.poll` of `src/tianluo/claude_interactive_runner.py`:
token usage accumulated from assistant records and reported as increments by
result records. A token category is an index into the source's tuple of usage
keys; usage payloads have already been read into counts.
*/
module TranscriptUsage {
  import opened Options
  import opened ByteLines
  import opened TranscriptTail

  const CATEGORIES := 6

  type Usage = u: seq<int> | |u| == CATEGORIES witness [0, 0, 0, 0, 0, 0]

  const NOTHING: Usage := [0, 0, 0, 0, 0, 0]

  /** `kept` tells whether the record survives the stream filter (a sidechain record does not). */
  datatype Record =
    | Assistant(usage: Option<Usage>, model: Option<string>, kept: bool)
    | TurnResult(usage: Option<Usage>, partial: bool, kept: bool)
    | Other(kept: bool)

  datatype Line =
    | Init(model: string)
    | Passed(record: Record)
    | Reported(usage: Option<Usage>, partial: bool, lineCount: nat)

  datatype State = State(
    lineCount: nat,
    usage: Usage,
    usageSeen: bool,
    mark: Usage,
    model: Option<string>,
    terminalSeen: bool)

  const START := State(0, NOTHING, false, NOTHING, None, false)

  function Max(a: int, b: int): int {
    if a < b then b else a
  }

  function Plus(a: Usage, b: Usage): Usage {
    seq(CATEGORIES, c requires 0 <= c < CATEGORIES => a[c] + b[c])
  }

  /** The increment from `a` up to `b`, never below zero. */
  function Increment(a: Usage, b: Usage): Usage {
    seq(CATEGORIES, c requires 0 <= c < CATEGORIES => Max(b[c] - a[c], 0))
  }

  function Higher(a: Usage, b: Usage): Usage {
    seq(CATEGORIES, c requires 0 <= c < CATEGORIES => Max(a[c], b[c]))
  }

  predicate Below(a: Usage, b: Usage) {
    exists c :: 0 <= c < CATEGORIES && a[c] < b[c]
  }

  function NewModel(s: State, r: Record): Option<string> {
    if s.model.None? && r.Assistant? && r.model.Some? && r.model.value != "" then r.model else s.model
  }

  /** The usage a result record is emitted with. */
  function ReportedUsage(s: State, r: Record): Option<Usage>
    requires r.TurnResult?
  {
    if r.usage.Some? then Some(Increment(s.mark, r.usage.value))
    else if s.usageSeen then Some(Increment(s.mark, s.usage))
    else None
  }

  function NextMark(s: State, r: Record): Usage {
    if !r.TurnResult? then s.mark
    else if r.usage.Some? then Higher(r.usage.value, s.mark)
    else if s.usageSeen then s.usage
    else s.mark
  }

  function Next(s: State, r: Record): State {
    State(s.lineCount + 1,
          if r.Assistant? && r.usage.Some? then Plus(s.usage, r.usage.value) else s.usage,
          s.usageSeen || (r.Assistant? && r.usage.Some?),
          NextMark(s, r),
          NewModel(s, r),
          s.terminalSeen || r.TurnResult?)
  }

  function Lines(s: State, r: Record): seq<Line> {
    var init := if NewModel(s, r) != s.model then [Init(NewModel(s, r).value)] else [];
    if !r.kept then init
    else if r.TurnResult? then
      init + [Reported(ReportedUsage(s, r),
                       r.partial || (r.usage.Some? && Below(r.usage.value, s.mark)), s.lineCount + 1)]
    else init + [Passed(r)]
  }

  function After(s: State, records: seq<Record>): State {
    if records == [] then s else Next(After(s, records[..|records| - 1]), records[|records| - 1])
  }

  function Emitted(s: State, records: seq<Record>): seq<Line> {
    if records == [] then []
    else
      var init := records[..|records| - 1];
      Emitted(s, init) + Lines(After(s, init), records[|records| - 1])
  }

  class SessionTranscriptWatcher {
    const parse: Parser<Record>
    var cursor: nat
    var lineCount: nat
    var usage: Usage
    var usageSeen: bool
    var emittedUsage: Usage
    var model: Option<string>
    var terminalResultSeen: bool

    function View(): State
      reads this
    {
      State(lineCount, usage, usageSeen, emittedUsage, model, terminalResultSeen)
    }

    /** `resumeAt` is the parked end of an existing transcript, or zero. */
    constructor (parse: Parser<Record>, resumeAt: nat)
      ensures View() == START && cursor == resumeAt && this.parse == parse
    {
      this.parse, cursor := parse, resumeAt;
      lineCount, usage, usageSeen, emittedUsage, model, terminalResultSeen := 0, NOTHING, false, NOTHING, None, false;
    }

    method Accumulate(u: Usage)
      modifies this`usage, this`usageSeen
      ensures usageSeen && usage == Plus(old(usage), u)
    {
      usageSeen := true;
      var sum := usage;
      for c := 0 to CATEGORIES
        invariant |sum| == CATEGORIES && usage == old(usage) && usageSeen
        invariant forall d :: 0 <= d < c ==> sum[d] == usage[d] + u[d]
        invariant forall d :: c <= d < CATEGORIES ==> sum[d] == usage[d]
      {
        sum := sum[c := sum[c] + u[c]];
      }
      usage := sum;
    }

    /** Reports the increment a result record stands for and moves the mark. */
    method ReportResult(r: Record) returns (line: Line)
      requires r.TurnResult?
      modifies this`emittedUsage
      ensures emittedUsage == NextMark(old(View()), r)
      ensures line == Reported(ReportedUsage(old(View()), r),
                               r.partial || (r.usage.Some? && Below(r.usage.value, old(emittedUsage))), lineCount)
    {
      line := Reported(None, r.partial, lineCount);
      if r.usage.None? && usageSeen {
        line := line.(usage := Some(Increment(emittedUsage, usage)));
        emittedUsage := usage;
      } else if r.usage.Some? {
        line := line.(usage := Some(Increment(emittedUsage, r.usage.value)),
                      partial := r.partial || Below(r.usage.value, emittedUsage));
        emittedUsage := Higher(r.usage.value, emittedUsage);
      }
    }

    method Handle(r: Record) returns (lines: seq<Line>)
      modifies this
      ensures View() == Next(old(View()), r) && lines == Lines(old(View()), r)
      ensures cursor == old(cursor)
    {
      lines := [];
      lineCount := lineCount + 1;
      if r.Assistant? {
        if r.usage.Some? {
          Accumulate(r.usage.value);
        }
        if model.None? && r.model.Some? && r.model.value != "" {
          model := r.model;
          lines := lines + [Init(r.model.value)];
        }
      }
      var line := Passed(r);
      if r.TurnResult? {
        terminalResultSeen := true;
        line := ReportResult(r);
      }
      if r.kept {
        lines := lines + [line];
      }
    }

    /** Emits what the records appended since the last poll amount to. */
    method Poll(answer: Answer) returns (lines: seq<Line>)
      modifies this
      ensures var (records, cursor') := Tail(parse, answer, old(cursor));
              && cursor == cursor'
              && View() == After(old(View()), records)
              && lines == Emitted(old(View()), records)
    {
      lines := [];
      var records, cursor' := TailNewRecords(parse, answer, cursor);
      cursor := cursor';
      ghost var s := View();
      for n := 0 to |records|
        invariant cursor == cursor'
        invariant View() == After(s, records[..n]) && lines == Emitted(s, records[..n])
      {
        assert records[..n + 1][..n] == records[..n];
        var more := Handle(records[n]);
        lines := lines + more;
      }
      assert records[..|records|] == records;
    }
  }

  // Runs

  lemma {:induction false} AfterConcat(s: State, a: seq<Record>, b: seq<Record>)
    ensures After(s, a + b) == After(After(s, a), b)
  {
    if b == [] {
      assert a + b == a;
    } else {
      var whole, init := a + b, b[..|b| - 1];
      assert whole[..|whole| - 1] == a + init && whole[|whole| - 1] == b[|b| - 1];
      AfterConcat(s, a, init);
    }
  }

  lemma EmittedSnoc(s: State, records: seq<Record>, r: Record)
    ensures Emitted(s, records + [r]) == Emitted(s, records) + Lines(After(s, records), r)
  {
    assert (records + [r])[..|records|] == records;
  }

  lemma {:induction false} EmittedConcat(s: State, a: seq<Record>, b: seq<Record>)
    ensures Emitted(s, a + b) == Emitted(s, a) + Emitted(After(s, a), b)
  {
    if b == [] {
      assert a + b == a;
    } else {
      var init, last := b[..|b| - 1], b[|b| - 1];
      assert b == init + [last] && a + b == a + init + [last];
      EmittedConcat(s, a, init);
      AfterConcat(s, a, init);
      EmittedSnoc(s, a + init, last);
      EmittedSnoc(After(s, a), init, last);
    }
  }

  /** A run of polls: the state, the lines and the cursor it comes to. */
  function PollRun(parse: Parser<Record>, start: nat, answers: seq<Answer>): (State, seq<Line>, nat) {
    if answers == [] then (START, [], start)
    else
      var before := PollRun(parse, start, answers[..|answers| - 1]);
      var (records, cursor) := Tail(parse, answers[|answers| - 1], before.2);
      (After(before.0, records), before.1 + Emitted(before.0, records), cursor)
  }

  /**
  Over an append-only transcript polled at arbitrary moments, what the watcher
  has emitted and accumulated depends only on the bytes up to its cursor.
  */
  lemma {:induction false} PollingIsOnePass(parse: Parser<Record>, file: seq<Byte>, start: nat, answers: seq<Answer>)
    requires parse([]).None? && AppendOnly(file, start, answers)
    ensures var (s, lines, cursor) := PollRun(parse, start, answers);
            && start <= cursor <= |file|
            && s == After(START, Records(parse, file[start..cursor]))
            && lines == Emitted(START, Records(parse, file[start..cursor]))
  {
    TailingIsOneParse(parse, file, start, answers);
    PollRunIsFold(parse, start, answers);
  }

  lemma {:induction false} PollRunIsFold(parse: Parser<Record>, start: nat, answers: seq<Answer>)
    ensures var (records, cursor) := Polled(parse, start, answers);
            PollRun(parse, start, answers) == (After(START, records), Emitted(START, records), cursor)
  {
    if answers != [] {
      var init := answers[..|answers| - 1];
      PollRunIsFold(parse, start, init);
      var (records, cursor) := Polled(parse, start, init);
      AfterConcat(START, records, Tail(parse, answers[|answers| - 1], cursor).0);
      EmittedConcat(START, records, Tail(parse, answers[|answers| - 1], cursor).0);
    }
  }

  // Telescoping, one category at a time

  /** The sum of the increments emitted so far. */
  function Billed(lines: seq<Line>, c: nat): int
    requires c < CATEGORIES
  {
    if lines == [] then 0
    else
      var last := lines[|lines| - 1];
      Billed(lines[..|lines| - 1], c) + if last.Reported? && last.usage.Some? then last.usage.value[c] else 0
  }

  lemma {:induction false} BilledConcat(a: seq<Line>, b: seq<Line>, c: nat)
    requires c < CATEGORIES
    ensures Billed(a + b, c) == Billed(a, c) + Billed(b, c)
  {
    if b == [] {
      assert a + b == a;
    } else {
      assert (a + b)[..|a + b| - 1] == a + b[..|b| - 1];
      BilledConcat(a, b[..|b| - 1], c);
    }
  }

  /** How far the mark falls at a result that carries no usage of its own. */
  function Fall(s: State, r: Record, c: nat): nat
    requires c < CATEGORIES
  {
    if r.TurnResult? && r.usage.None? && s.usageSeen then Max(s.mark[c] - s.usage[c], 0) else 0
  }

  function Falls(records: seq<Record>, c: nat): nat
    requires c < CATEGORIES
  {
    if records == [] then 0
    else
      var init := records[..|records| - 1];
      Falls(init, c) + Fall(After(START, init), records[|records| - 1], c)
  }

  /** The increment of a result record that the stream filter drops. */
  function Dropped(s: State, r: Record, c: nat): int
    requires c < CATEGORIES
  {
    if r.TurnResult? && !r.kept && ReportedUsage(s, r).Some? then ReportedUsage(s, r).value[c] else 0
  }

  function Filtered(records: seq<Record>, c: nat): nat
    requires c < CATEGORIES
  {
    if records == [] then 0
    else
      var init := records[..|records| - 1];
      Filtered(init, c) + Dropped(After(START, init), records[|records| - 1], c)
  }

  lemma LinesBilled(s: State, r: Record, c: nat)
    requires c < CATEGORIES
    ensures Billed(Lines(s, r), c) ==
      if r.TurnResult? && r.kept && ReportedUsage(s, r).Some? then ReportedUsage(s, r).value[c] else 0
  {
    var init: seq<Line> := if NewModel(s, r) != s.model then [Init(NewModel(s, r).value)] else [];
    assert Billed(init, c) == 0;
    if r.kept {
      var last := Lines(s, r)[|init|];
      assert [last][..0] == [];
      assert Billed([last], c) == if last.Reported? && last.usage.Some? then last.usage.value[c] else 0;
      BilledConcat(init, [last], c);
      assert Lines(s, r) == init + [last];
    }
  }

  /** The increment a result record stands for is what the mark gains plus what it falls. */
  lemma MarkMoves(s: State, r: Record, c: nat)
    requires c < CATEGORIES && r.TurnResult?
    ensures NextMark(s, r)[c] - s.mark[c] + Fall(s, r, c) ==
      if ReportedUsage(s, r).Some? then ReportedUsage(s, r).value[c] else 0
  {
    if r.usage.Some? {
      assert Increment(s.mark, r.usage.value)[c] == Max(r.usage.value[c] - s.mark[c], 0);
      assert Higher(r.usage.value, s.mark)[c] == Max(r.usage.value[c], s.mark[c]);
    } else if s.usageSeen {
      assert Increment(s.mark, s.usage)[c] == Max(s.usage[c] - s.mark[c], 0);
    }
  }

  lemma OneBalances(s: State, r: Record, c: nat)
    requires c < CATEGORIES
    ensures Billed(Lines(s, r), c) + Dropped(s, r, c) == NextMark(s, r)[c] - s.mark[c] + Fall(s, r, c)
  {
    LinesBilled(s, r, c);
    if r.TurnResult? {
      MarkMoves(s, r, c);
    }
  }

  /**
  In every category the increments emitted, plus those the filter dropped, add up
  to the current mark plus every fall of the mark.
  */
  lemma {:induction false} IncrementsBalance(records: seq<Record>, c: nat)
    requires c < CATEGORIES
    ensures Billed(Emitted(START, records), c) + Filtered(records, c) ==
      After(START, records).mark[c] + Falls(records, c)
  {
    if records != [] {
      var init, r := records[..|records| - 1], records[|records| - 1];
      var s := After(START, init);
      IncrementsBalance(init, c);
      BilledConcat(Emitted(START, init), Lines(s, r), c);
      OneBalances(s, r, c);
      assert After(START, records).mark == NextMark(s, r);
    }
  }

  /** At every result without usage of its own, the accumulated usage has reached the mark. */
  ghost predicate NeverBehind(records: seq<Record>, c: nat)
    requires c < CATEGORIES
  {
    forall n :: 0 <= n < |records| && records[n].TurnResult? && records[n].usage.None? ==>
      var s := After(START, records[..n]);
      s.usageSeen ==> s.usage[c] >= s.mark[c]
  }

  lemma {:induction false} NoFallsIffNeverBehind(records: seq<Record>, c: nat)
    requires c < CATEGORIES
    ensures Falls(records, c) == 0 <==> NeverBehind(records, c)
  {
    if records != [] {
      var init := records[..|records| - 1];
      NoFallsIffNeverBehind(init, c);
      assert forall n :: 0 <= n < |init| ==> records[..n] == init[..n];
    }
  }

  /**
  With no result record filtered out, the emitted increments of a category sum
  to the mark exactly when the accumulated usage was never behind the mark at a
  result without usage of its own. Otherwise they exceed it.
  */
  lemma IncrementsTelescope(records: seq<Record>, c: nat)
    requires c < CATEGORIES
    requires forall r :: r in records && r.TurnResult? ==> r.kept
    ensures Billed(Emitted(START, records), c) >= After(START, records).mark[c]
    ensures Billed(Emitted(START, records), c) == After(START, records).mark[c] <==> NeverBehind(records, c)
  {
    IncrementsBalance(records, c);
    NothingFiltered(records, c);
    NoFallsIffNeverBehind(records, c);
  }

  lemma {:induction false} NothingFiltered(records: seq<Record>, c: nat)
    requires c < CATEGORIES
    requires forall r :: r in records && r.TurnResult? ==> r.kept
    ensures Filtered(records, c) == 0
  {
    if records != [] {
      NothingFiltered(records[..|records| - 1], c);
    }
  }

  /**
  A snapshot of 10 tokens followed by a result without usage when only 4 had been
  accumulated, and then by one at 10: 16 tokens are emitted for a mark of 10.
  */
  lemma BehindOvercounts()
    ensures Billed(Emitted(START, OVERCOUNTED), 0) == 16 && After(START, OVERCOUNTED).mark[0] == 10
  {
    BehindFalls();
    IncrementsBalance(OVERCOUNTED, 0);
    NothingFiltered(OVERCOUNTED, 0);
  }

  const FOUR: Usage := [4, 0, 0, 0, 0, 0]
  const TEN: Usage := [10, 0, 0, 0, 0, 0]
  const OVERCOUNTED := [Assistant(Some(FOUR), None, true), TurnResult(Some(TEN), false, true),
                        TurnResult(None, false, true), TurnResult(Some(TEN), false, true)]

  lemma BehindFalls()
    ensures Falls(OVERCOUNTED, 0) == 6 && After(START, OVERCOUNTED).mark[0] == 10
  {
    var r1 := [OVERCOUNTED[0]];
    var r2 := r1 + [OVERCOUNTED[1]];
    var r3 := r2 + [OVERCOUNTED[2]];
    assert r1 == [] + r1 && OVERCOUNTED == r3 + [OVERCOUNTED[3]];
    FallsSnoc([], OVERCOUNTED[0], 0);
    FallsSnoc(r1, OVERCOUNTED[1], 0);
    FallsSnoc(r2, OVERCOUNTED[2], 0);
    FallsSnoc(r3, OVERCOUNTED[3], 0);
    assert After(START, r2).mark[0] == 10 && After(START, r2).usage[0] == 4 && After(START, r2).usageSeen;
    assert After(START, r3).mark[0] == 4;
  }

  lemma FallsSnoc(records: seq<Record>, r: Record, c: nat)
    requires c < CATEGORIES
    ensures After(START, records + [r]) == Next(After(START, records), r)
    ensures Falls(records + [r], c) == Falls(records, c) + Fall(After(START, records), r, c)
  {
    assert (records + [r])[..|records|] == records;
  }

  /** The positions reported so far: snapshots, and the accumulated usage where there was none. */
  function Positions(records: seq<Record>, c: nat): seq<int>
    requires c < CATEGORIES
  {
    if records == [] then []
    else
      var init, r := records[..|records| - 1], records[|records| - 1];
      var s := After(START, init);
      Positions(init, c) +
      if !r.TurnResult? then []
      else if r.usage.Some? then [r.usage.value[c]]
      else if s.usageSeen then [s.usage[c]]
      else []
  }

  function Highest(positions: seq<int>): int {
    if positions == [] then 0
    else Max(Highest(positions[..|positions| - 1]), positions[|positions| - 1])
  }

  /** Never behind, the mark is the running maximum of the reported positions. */
  lemma {:induction false} MarkIsRunningMaximum(records: seq<Record>, c: nat)
    requires c < CATEGORIES && NeverBehind(records, c)
    ensures After(START, records).mark[c] == Highest(Positions(records, c))
  {
    if records != [] {
      var init := records[..|records| - 1];
      assert forall n :: 0 <= n < |init| ==> records[..n] == init[..n];
      assert NeverBehind(init, c);
      MarkIsRunningMaximum(init, c);
      var p := Positions(records, c);
      if |p| > |Positions(init, c)| {
        assert p[..|p| - 1] == Positions(init, c);
      } else {
        assert p == Positions(init, c);
      }
    }
  }

  /** The accumulated usage is the sum over the assistant records. */
  function Spent(records: seq<Record>, c: nat): int
    requires c < CATEGORIES
  {
    if records == [] then 0
    else
      var r := records[|records| - 1];
      Spent(records[..|records| - 1], c) + if r.Assistant? && r.usage.Some? then r.usage.value[c] else 0
  }

  lemma {:induction false} AccumulatedIsSpent(records: seq<Record>, c: nat)
    requires c < CATEGORIES
    ensures After(START, records).usage[c] == Spent(records, c)
  {
    if records != [] {
      AccumulatedIsSpent(records[..|records| - 1], c);
    }
  }

  /** The snapshot lies below a position reported before it. */
  ghost predicate WentBackwards(records: seq<Record>, carried: Usage) {
    exists c: nat :: c < CATEGORIES && carried[c] < Highest(Positions(records, c))
  }

  lemma BelowMarkIsBackwards(records: seq<Record>, carried: Usage)
    requires forall c: nat :: c < CATEGORIES ==> NeverBehind(records, c)
    ensures Below(carried, After(START, records).mark) <==> WentBackwards(records, carried)
  {
    var mark := After(START, records).mark;
    if Below(carried, mark) {
      var c :| 0 <= c < CATEGORIES && carried[c] < mark[c];
      MarkIsRunningMaximum(records, c);
    }
    if WentBackwards(records, carried) {
      var c: nat :| c < CATEGORIES && carried[c] < Highest(Positions(records, c));
      MarkIsRunningMaximum(records, c);
    }
  }

  /** The position a result reports: its own snapshot, or what was accumulated. */
  function Position(records: seq<Record>, r: Record, c: nat): int
    requires c < CATEGORIES && r.TurnResult?
  {
    if r.usage.Some? then r.usage.value[c] else Spent(records, c)
  }

  /** Some assistant record carried usage. */
  predicate UsedBefore(records: seq<Record>) {
    exists n :: 0 <= n < |records| && records[n].Assistant? && records[n].usage.Some?
  }

  lemma {:induction false} UsageSeenIff(records: seq<Record>)
    ensures After(START, records).usageSeen <==> UsedBefore(records)
  {
    if records != [] {
      var init := records[..|records| - 1];
      UsageSeenIff(init);
      assert forall n :: 0 <= n < |init| ==> init[n] == records[n];
    }
  }

  lemma ResultLine(s: State, r: Record)
    requires r.TurnResult? && r.kept
    ensures Lines(s, r) ==
      [Reported(ReportedUsage(s, r), r.partial || (r.usage.Some? && Below(r.usage.value, s.mark)), s.lineCount + 1)]
  {
  }

  /**
  What a result is emitted with: in every category its position minus the highest
  one reported before it, and never below zero; no usage at all exactly when it has
  none and no assistant record had; and marked partial exactly when it was, or when
  its own snapshot lies below an earlier position.
  */
  lemma PartialIffBackwards(records: seq<Record>, r: Record) returns (reported: Line)
    requires r.TurnResult? && r.kept
    requires forall c: nat :: c < CATEGORIES ==> NeverBehind(records, c)
    ensures Lines(After(START, records), r) == [reported] && reported.Reported?
    ensures reported.usage.Some? <==> r.usage.Some? || UsedBefore(records)
    ensures reported.usage.Some? ==> forall c: nat :: c < CATEGORIES ==>
      reported.usage.value[c] == Max(Position(records, r, c) - Highest(Positions(records, c)), 0)
    ensures reported.partial <==> r.partial || (r.usage.Some? && WentBackwards(records, r.usage.value))
  {
    var s := After(START, records);
    ResultLine(s, r);
    reported := Lines(s, r)[0];
    UsageSeenIff(records);
    forall c: nat | c < CATEGORIES && reported.usage.Some?
      ensures reported.usage.value[c] == Max(Position(records, r, c) - Highest(Positions(records, c)), 0)
    {
      MarkIsRunningMaximum(records, c);
      AccumulatedIsSpent(records, c);
    }
    if r.usage.Some? {
      BelowMarkIsBackwards(records, r.usage.value);
    }
  }

  // What is passed on

  /** What a line shows, its token counts apart. */
  datatype Shown = ModelShown(model: string) | RecordShown(record: Record) | ResultShown(lineCount: nat)

  function Outline(lines: seq<Line>): seq<Shown> {
    if lines == [] then []
    else
      var shown := match lines[|lines| - 1]
        case Init(model) => ModelShown(model)
        case Passed(record) => RecordShown(record)
        case Reported(_, _, lineCount) => ResultShown(lineCount);
      Outline(lines[..|lines| - 1]) + [shown]
  }

  predicate NamesModel(r: Record) {
    r.Assistant? && r.model.Some? && r.model.value != ""
  }

  /** The first non-empty model an assistant record names. */
  function FirstModel(records: seq<Record>): Option<string> {
    if records == [] then None
    else
      var init, r := records[..|records| - 1], records[|records| - 1];
      if FirstModel(init).Some? then FirstModel(init) else if NamesModel(r) then r.model else None
  }

  /** What record number `n` shows, after the model if it is the first to name one. */
  function ShownFor(first: bool, r: Record, n: nat): seq<Shown>
    requires first ==> NamesModel(r)
  {
    (if first then [ModelShown(r.model.value)] else []) +
    (if !r.kept then [] else if r.TurnResult? then [ResultShown(n)] else [RecordShown(r)])
  }

  /**
  The kept records in order, results by their number in the transcript, and the
  first model right before the line of the record that names it.
  */
  function PassedOn(records: seq<Record>): seq<Shown> {
    if records == [] then []
    else
      var init, r := records[..|records| - 1], records[|records| - 1];
      PassedOn(init) + ShownFor(NamesModel(r) && FirstModel(init).None?, r, |records|)
  }

  lemma {:induction false} OutlineConcat(a: seq<Line>, b: seq<Line>)
    ensures Outline(a + b) == Outline(a) + Outline(b)
  {
    if b == [] {
      assert a + b == a;
    } else {
      var whole, init := a + b, b[..|b| - 1];
      assert whole[..|whole| - 1] == a + init && whole[|whole| - 1] == b[|b| - 1];
      OutlineConcat(a, init);
    }
  }

  lemma OutlineOne(line: Line)
    ensures |Outline([line])| == 1
    ensures line.Init? ==> Outline([line]) == [ModelShown(line.model)]
    ensures line.Passed? ==> Outline([line]) == [RecordShown(line.record)]
    ensures line.Reported? ==> Outline([line]) == [ResultShown(line.lineCount)]
  {
    assert [line][..0] == [];
  }

  lemma {:induction false} StateFollows(records: seq<Record>)
    ensures After(START, records).lineCount == |records|
    ensures After(START, records).model == FirstModel(records)
    ensures After(START, records).terminalSeen <==> exists n :: 0 <= n < |records| && records[n].TurnResult?
  {
    if records != [] {
      var init := records[..|records| - 1];
      StateFollows(init);
      assert forall n :: 0 <= n < |init| ==> init[n] == records[n];
    }
  }

  lemma LinesOutline(s: State, r: Record)
    ensures Outline(Lines(s, r)) == ShownFor(NamesModel(r) && s.model.None?, r, s.lineCount + 1)
  {
    var init: seq<Line> := if NamesModel(r) && s.model.None? then [Init(r.model.value)] else [];
    if init != [] {
      OutlineOne(init[0]);
    }
    if r.kept {
      var last := Lines(s, r)[|init|];
      assert Lines(s, r) == init + [last];
      OutlineConcat(init, [last]);
      OutlineOne(last);
    }
  }

  /**
  The watcher passes the transcript on: all kept records in order and nothing else,
  each result at its number, and one model line, for the first model named, right
  before the line of the record that names it.
  */
  lemma {:induction false} EmittedIsPassedOn(records: seq<Record>)
    ensures Outline(Emitted(START, records)) == PassedOn(records)
  {
    if records != [] {
      var init, r := records[..|records| - 1], records[|records| - 1];
      EmittedIsPassedOn(init);
      StateFollows(init);
      OutlineConcat(Emitted(START, init), Lines(After(START, init), r));
      LinesOutline(After(START, init), r);
    }
  }
}
