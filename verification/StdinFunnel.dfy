/**
The single-owner stdin funnel of `src/tianluo/stdin_channel.py`: a feeder thread
moves lines from one stream into a buffer, consumers take what they need. A
bounded wait is modelled by its end: the critical section that finds an answer
or gives up. Threads interleave at their critical sections and reads.
*/
module StdinFunnel {
  import opened Options
  import opened Sequences

  /** The shared fields; `attached` says whether the funnel is bound to the stream. */
  datatype Funnel = Funnel(attached: bool, chunks: seq<string>, eof: bool)

  datatype Answer = Pending | NoAnswer | Text(text: string)

  /** `rstrip("\r\n")`. */
  function Strip(line: string): (stripped: string)
    ensures stripped <= line
    ensures forall n :: |stripped| <= n < |line| ==> line[n] == '\r' || line[n] == '\n'
    ensures stripped != "" ==> stripped[|stripped| - 1] != '\r' && stripped[|stripped| - 1] != '\n'
  {
    if line != "" && (line[|line| - 1] == '\r' || line[|line| - 1] == '\n')
    then Strip(line[..|line| - 1]) else line
  }

  /** The funnel after `_ensure_feeder_locked`. */
  function Attached(f: Funnel): Funnel {
    if f.attached then f else Funnel(true, [], false)
  }

  /** Whether `_ensure_feeder_locked` starts a feeder, given whether the recorded one lives. */
  predicate Starts(f: Funnel, alive: bool) {
    !Attached(f).eof && !(f.attached && alive)
  }

  /** The funnel after a feeder handed over what it read; an empty line is end of file. */
  function Deposited(f: Funnel, line: string): Funnel {
    if !f.attached then f
    else if line == "" then f.(eof := true)
    else f.(chunks := f.chunks + [line])
  }

  function LineAnswer(f: Funnel): Answer {
    if f.chunks != [] then Text(Strip(f.chunks[0])) else if f.eof then NoAnswer else Pending
  }

  function AfterLine(f: Funnel): Funnel {
    if f.chunks != [] then f.(chunks := f.chunks[1..]) else f
  }

  function AllAnswer(f: Funnel): Answer {
    if !f.eof then Pending else if Join(f.chunks) == "" then NoAnswer else Text(Join(f.chunks))
  }

  function AfterAll(f: Funnel): Funnel {
    if f.eof then f.(chunks := []) else f
  }

  class SharedStdin {
    var attached: bool
    var chunks: seq<string>
    var eof: bool
    var feederAlive: bool

    function View(): Funnel
      reads this
    {
      Funnel(attached, chunks, eof)
    }

    constructor ()
      ensures View() == Funnel(false, [], false) && !feederAlive
    {
      attached, chunks, eof, feederAlive := false, [], false, false;
    }

    method EnsureFeederLocked() returns (started: bool)
      modifies this
      ensures View() == Attached(old(View()))
      ensures started <==> Starts(old(View()), old(feederAlive))
      ensures feederAlive == (started || (old(attached) && old(feederAlive)))
    {
      if !attached {
        chunks, eof, feederAlive, attached := [], false, false, true;
      }
      started := !eof && !feederAlive;
      if started {
        feederAlive := true;
      }
    }

    /** One turn of the feeder loop after its read; `goOn` is false when the thread ends. */
    method Feed(line: string) returns (goOn: bool)
      modifies this
      ensures View() == Deposited(old(View()), line)
      ensures goOn <==> attached && line != ""
      ensures feederAlive == (old(feederAlive) && (goOn || !attached))
    {
      if !attached {
        return false;
      }
      if line == "" {
        eof, feederAlive := true, false;
        return false;
      }
      chunks := chunks + [line];
      goOn := true;
    }

    method ReadAll() returns (answer: Answer)
      modifies this`chunks
      ensures answer == AllAnswer(old(View())) && View() == AfterAll(old(View()))
      ensures answer.Pending? ==> View() == old(View())
      ensures answer.Pending? <==> !old(eof)
      ensures old(eof) ==> chunks == []
    {
      if !eof {
        return Pending;
      }
      var content := Join(chunks);
      chunks := [];
      answer := if content == "" then NoAnswer else Text(content);
    }

    method ReadLine() returns (answer: Answer)
      modifies this`chunks
      ensures answer == LineAnswer(old(View())) && View() == AfterLine(old(View()))
      ensures answer.Pending? || answer.NoAnswer? ==> View() == old(View())
      ensures answer.Pending? <==> old(chunks) == [] && !old(eof)
      ensures answer.NoAnswer? <==> old(chunks) == [] && old(eof)
      ensures old(chunks) != [] ==> answer == Text(Strip(old(chunks)[0])) && chunks == old(chunks)[1..]
    {
      if chunks == [] && !eof {
        return Pending;
      }
      if chunks == [] {
        return NoAnswer;
      }
      answer := Text(Strip(chunks[0]));
      chunks := chunks[1..];
    }

    method Reset()
      modifies this
      ensures View() == Funnel(false, [], false) && !feederAlive
    {
      chunks, eof, feederAlive, attached := [], false, false, false;
    }
  }

  // All threads

  datatype Feeder = Reading | Holding(line: string) | Gone

  /**
  `unread` is what the stream still holds. The rest is history. `fed` and
  `delivered` are the lines put into the buffer and handed to consumers since the
  last reset; `before` those that left the stream earlier: delivered, dropped by a
  reset or discarded by a feeder a reset left behind. `latest` is the feeder
  started last, `failed` tells whether a read failed since it started.
  */
  datatype System = System(
    funnel: Funnel,
    thread: Option<nat>,
    feeders: map<nat, Feeder>,
    unread: seq<string>,
    before: seq<string>,
    fed: seq<string>,
    delivered: seq<string>,
    latest: Option<nat>,
    failed: bool)

  datatype Move =
    | Ensure(t: nat)
    | Fetch(t: nat, fails: bool)
    | Deposit(t: nat)
    | TakeLine
    | TakeAll
    | Reset

  function Initial(input: seq<string>): System {
    System(Funnel(false, [], false), None, map[], input, [], [], [], None, false)
  }

  predicate IsAlive(s: System, t: nat) {
    t in s.feeders && !s.feeders[t].Gone?
  }

  predicate OwnerAlive(s: System) {
    s.thread.Some? && IsAlive(s, s.thread.value)
  }

  /** A move that is not enabled leaves the system as it is. */
  function Step(s: System, m: Move): System {
    match m
    case Ensure(t) =>
      var s' := s.(funnel := Attached(s.funnel), thread := if s.funnel.attached then s.thread else None);
      if t in s.feeders then s
      else if Starts(s.funnel, OwnerAlive(s)) then
        s'.(thread := Some(t), feeders := s.feeders[t := Reading], latest := Some(t), failed := false)
      else s'
    case Fetch(t, fails) =>
      if t !in s.feeders || !s.feeders[t].Reading? then s
      else if fails then s.(feeders := s.feeders[t := Holding("")], failed := true)
      else if s.unread == [] then s.(feeders := s.feeders[t := Holding("")])
      else s.(feeders := s.feeders[t := Holding(s.unread[0])], unread := s.unread[1..])
    case Deposit(t) =>
      if t !in s.feeders || !s.feeders[t].Holding? then s
      else
        var line := s.feeders[t].line;
        var goOn := s.funnel.attached && line != "";
        s.(funnel := Deposited(s.funnel, line),
           feeders := s.feeders[t := if goOn then Reading else Gone],
           fed := if goOn then s.fed + [line] else s.fed,
           before := if !s.funnel.attached && line != "" then s.before + [line] else s.before)
    case TakeLine =>
      s.(funnel := AfterLine(s.funnel),
         delivered := s.delivered + if s.funnel.chunks != [] then [s.funnel.chunks[0]] else [])
    case TakeAll =>
      s.(funnel := AfterAll(s.funnel),
         delivered := s.delivered + if s.funnel.eof then s.funnel.chunks else [])
    case Reset =>
      s.(funnel := Funnel(false, [], false), thread := None,
         before := s.before + s.delivered + s.funnel.chunks, fed := [], delivered := [])
  }

  function Run(input: seq<string>, moves: seq<Move>): System {
    if moves == [] then Initial(input)
    else Step(Run(input, moves[..|moves| - 1]), moves[|moves| - 1])
  }

  // How many feeders live

  ghost predicate AtMostOne(s: System) {
    forall t: nat, u: nat :: IsAlive(s, t) && IsAlive(s, u) ==> t == u
  }

  ghost predicate AlwaysAtMostOne(input: seq<string>, moves: seq<Move>) {
    AtMostOne(Run(input, moves)) && (moves == [] || AlwaysAtMostOne(input, moves[..|moves| - 1]))
  }

  /** A read attaches the funnel again while a feeder from before the reset still lives. */
  ghost predicate AttachesBeside(s: System, m: Move) {
    m.Ensure? && m.t !in s.feeders && !s.funnel.attached && exists u: nat :: IsAlive(s, u)
  }

  /** No read after a reset comes before the feeder left behind has ended. */
  ghost predicate Clean(input: seq<string>, moves: seq<Move>) {
    moves == [] ||
    var init := moves[..|moves| - 1];
    Clean(input, init) && !AttachesBeside(Run(input, init), moves[|moves| - 1])
  }

  /** Only the feeder started last may live, and it is the recorded one while the funnel is attached. */
  ghost predicate LatestOnly(s: System) {
    && (forall t: nat :: IsAlive(s, t) ==> s.latest == Some(t))
    && (s.funnel.attached ==> s.thread == s.latest)
  }

  lemma CleanStep(s: System, m: Move)
    requires LatestOnly(s)
    ensures !AttachesBeside(s, m) ==> LatestOnly(Step(s, m))
    ensures AttachesBeside(s, m) ==> !AtMostOne(Step(s, m))
  {
    var s' := Step(s, m);
    if AttachesBeside(s, m) {
      var u: nat :| IsAlive(s, u);
      assert IsAlive(s', u) && IsAlive(s', m.t);
    } else {
      assert forall t: nat :: IsAlive(s', t) ==> IsAlive(s, t) || (m.Ensure? && t == m.t && s'.latest == Some(t));
    }
  }

  lemma {:induction false} CleanKeepsLatest(input: seq<string>, moves: seq<Move>)
    requires Clean(input, moves)
    ensures LatestOnly(Run(input, moves))
  {
    if moves != [] {
      var init := moves[..|moves| - 1];
      CleanKeepsLatest(input, init);
      CleanStep(Run(input, init), moves[|moves| - 1]);
    }
  }

  /**
  With any number of resets, there was never more than one live feeder exactly
  when no read attached the funnel again before the feeder that the reset left
  behind had ended.
  */
  lemma {:induction false} OneFeederIffClean(input: seq<string>, moves: seq<Move>)
    ensures AlwaysAtMostOne(input, moves) <==> Clean(input, moves)
  {
    if moves != [] {
      var init := moves[..|moves| - 1];
      OneFeederIffClean(input, init);
      if Clean(input, init) {
        CleanKeepsLatest(input, init);
        CleanStep(Run(input, init), moves[|moves| - 1]);
      }
    }
  }

  lemma TwoAreNotClean(input: seq<string>, moves: seq<Move>, t: nat, u: nat)
    requires t != u && IsAlive(Run(input, moves), t) && IsAlive(Run(input, moves), u)
    ensures !Clean(input, moves)
  {
    if Clean(input, moves) {
      CleanKeepsLatest(input, moves);
    }
  }

  // What becomes of the lines

  /** The line the latest feeder has read but not handed over yet. */
  function InHand(s: System): seq<string> {
    if s.latest.Some? && IsAlive(s, s.latest.value) && s.feeders[s.latest.value].Holding? &&
       s.feeders[s.latest.value].line != ""
    then [s.feeders[s.latest.value].line] else []
  }

  ghost predicate LinesKept(input: seq<string>, s: System) {
    && s.delivered + s.funnel.chunks == s.fed
    && s.before + s.fed + InHand(s) + s.unread == input
    && (!s.funnel.attached ==> s.funnel == Funnel(false, [], false) && s.fed == [])
  }

  ghost predicate EndSeen(s: System) {
    && (s.funnel.eof ==> InHand(s) == [] && (!s.failed ==> s.unread == []))
    && (s.funnel.eof ==> forall t: nat :: !IsAlive(s, t))
    && (s.funnel.attached && !s.funnel.eof ==> s.latest.Some? && IsAlive(s, s.latest.value))
    && (forall t: nat :: IsAlive(s, t) && s.feeders[t] == Holding("") && !s.failed ==> s.unread == [])
  }

  ghost predicate Inv(input: seq<string>, s: System) {
    LatestOnly(s) && LinesKept(input, s) && EndSeen(s)
  }

  lemma TakesHead(past: seq<string>, unread: seq<string>)
    requires unread != []
    ensures past + [] + unread == past + [unread[0]] + unread[1..]
  {
    assert unread == [unread[0]] + unread[1..];
  }

  lemma FetchKeepsLines(input: seq<string>, s: System, t: nat, fails: bool)
    requires Inv(input, s) && "" !in input
    ensures LinesKept(input, Step(s, Fetch(t, fails)))
  {
    if t in s.feeders && s.feeders[t].Reading? {
      assert IsAlive(s, t) && InHand(s) == [];
      if !fails && s.unread != [] {
        TakesHead(s.before + s.fed, s.unread);
        assert input[|s.before + s.fed|] == s.unread[0];
        assert InHand(Step(s, Fetch(t, fails))) == [s.unread[0]];
      } else {
        assert InHand(Step(s, Fetch(t, fails))) == [];
      }
    }
  }

  lemma FetchKeepsEnd(input: seq<string>, s: System, t: nat, fails: bool)
    requires Inv(input, s) && "" !in input
    ensures EndSeen(Step(s, Fetch(t, fails)))
  {
    if t in s.feeders && s.feeders[t].Reading? {
      assert IsAlive(s, t);
      if !fails && s.unread != [] {
        assert input[|s.before + s.fed + InHand(s)|] == s.unread[0];
      }
    }
  }

  lemma DepositKeepsLines(input: seq<string>, s: System, t: nat)
    requires Inv(input, s)
    ensures LinesKept(input, Step(s, Deposit(t)))
  {
    if t in s.feeders && s.feeders[t].Holding? {
      assert IsAlive(s, t);
      var line, s' := s.feeders[t].line, Step(s, Deposit(t));
      assert InHand(s') == [];
      if line == "" {
        assert InHand(s) == [];
      } else {
        assert InHand(s) == [line];
        HandsOver(s.before, s.fed, line, s.unread);
        assert s.funnel.attached ==> s.delivered + (s.funnel.chunks + [line]) == s.fed + [line];
      }
    }
  }

  /** A line handed over is counted as fed, or without any fed as left. */
  lemma HandsOver(before: seq<string>, fed: seq<string>, line: string, unread: seq<string>)
    ensures before + (fed + [line]) + [] + unread == before + fed + [line] + unread
    ensures fed == [] ==> before + [line] + fed + [] + unread == before + fed + [line] + unread
  {
    assert before + (fed + [line]) == before + fed + [line];
  }

  lemma DepositKeepsEnd(input: seq<string>, s: System, t: nat)
    requires Inv(input, s)
    ensures EndSeen(Step(s, Deposit(t)))
  {
    var s' := Step(s, Deposit(t));
    if s' != s {
      assert IsAlive(s, t);
      assert forall u: nat :: IsAlive(s', u) ==> IsAlive(s, u);
    }
  }

  lemma ConsumerStepKeepsInv(input: seq<string>, s: System, m: Move)
    requires Inv(input, s) && (m.Ensure? || m.TakeLine? || m.TakeAll?) && !AttachesBeside(s, m)
    ensures Inv(input, Step(s, m))
  {
    var s' := Step(s, m);
    CleanStep(s, m);
    assert forall t: nat :: IsAlive(s', t) ==> IsAlive(s, t) || (m.Ensure? && t == m.t);
  }

  lemma ResetKeepsInv(input: seq<string>, s: System)
    requires Inv(input, s)
    ensures Inv(input, Step(s, Reset))
  {
    CleanStep(s, Reset);
    var s' := Step(s, Reset);
    assert s'.before + [] == s.before + s.fed;
    assert forall t: nat :: IsAlive(s', t) <==> IsAlive(s, t);
  }

  lemma {:induction false} Reachable(input: seq<string>, moves: seq<Move>)
    requires "" !in input && Clean(input, moves)
    ensures Inv(input, Run(input, moves))
  {
    if moves != [] {
      var init, m := moves[..|moves| - 1], moves[|moves| - 1];
      Reachable(input, init);
      if m.Fetch? {
        CleanStep(Run(input, init), m);
        FetchKeepsLines(input, Run(input, init), m.t, m.fails);
        FetchKeepsEnd(input, Run(input, init), m.t, m.fails);
      } else if m.Deposit? {
        CleanStep(Run(input, init), m);
        DepositKeepsLines(input, Run(input, init), m.t);
        DepositKeepsEnd(input, Run(input, init), m.t);
      } else if m.Reset? {
        ResetKeepsInv(input, Run(input, init));
      } else {
        ConsumerStepKeepsInv(input, Run(input, init), m);
      }
    }
  }

  /**
  On one stream, in any interleaving in which no read overtakes the feeder of an
  earlier reset: since the last reset the lines delivered, then those buffered,
  are the lines fed, in order and each once; with what left the stream before, the
  line in the feeder's hand and the unread rest they are the whole input; and end
  of file without a failed read means that all the rest was fed.
  */
  lemma EveryLineOnce(input: seq<string>, moves: seq<Move>)
    requires "" !in input && Clean(input, moves)
    ensures var s := Run(input, moves);
            && s.delivered + s.funnel.chunks == s.fed
            && s.before + s.fed + InHand(s) + s.unread == input
            && AtMostOne(s)
            && (s.funnel.eof && !s.failed ==> s.before + s.fed == input)
  {
    Reachable(input, moves);
    var s := Run(input, moves);
    if s.funnel.eof && !s.failed {
      assert s.before + s.fed + [] + [] == s.before + s.fed;
    }
  }

  /** As long as nothing was reset, a detached funnel has never been attached. */
  ghost predicate Untouched(s: System) {
    s.before == [] && (s.funnel.attached || s.feeders == map[])
  }

  lemma UntouchedStep(s: System, m: Move)
    requires Untouched(s) && !m.Reset?
    ensures Untouched(Step(s, m)) && !AttachesBeside(s, m)
  {
  }

  /** Without a reset the run is clean, and all counting starts with the input. */
  lemma {:induction false} NoResetIsClean(input: seq<string>, moves: seq<Move>)
    requires Reset !in moves
    ensures Clean(input, moves) && Untouched(Run(input, moves))
  {
    if moves != [] {
      var init, m := moves[..|moves| - 1], moves[|moves| - 1];
      NoResetIsClean(input, init);
      assert m in moves;
      UntouchedStep(Run(input, init), m);
    }
  }

  /** Everything that left the stream, in order: what went before the last reset and what was delivered since. */
  function Past(s: System): seq<string> {
    s.before + s.delivered
  }

  /** The first buffered line is the first line of the input after those past. */
  lemma NextBuffered(input: seq<string>, s: System)
    requires "" !in input && LinesKept(input, s)
    ensures |Past(s)| <= |input|
    ensures s.funnel.chunks != [] ==>
      |Past(s)| < |input| && input[|Past(s)|] == s.funnel.chunks[0] && Join(s.funnel.chunks) != ""
    ensures InHand(s) + s.unread == [] ==> input[|Past(s)|..] == s.funnel.chunks
  {
    var rest := InHand(s) + s.unread;
    assert input == Past(s) + s.funnel.chunks + rest;
    if s.funnel.chunks != [] {
      assert input[|Past(s)|] == s.funnel.chunks[0] != "";
    }
  }

  /**
  Reading a line: an abandoned read takes nothing, "no answer" comes only at end
  of file with everything delivered, and a line is the next one of the input
  without its ending.
  */
  lemma LineAnswersAreNextInput(input: seq<string>, moves: seq<Move>)
    requires "" !in input && Clean(input, moves)
    ensures var s := Run(input, moves); var answer := LineAnswer(s.funnel);
            && (answer.Pending? ==> Step(s, TakeLine) == s)
            && (answer.NoAnswer? ==> s.funnel.eof && s.delivered == s.fed)
            && (answer.Text? ==> |Past(s)| < |input| && answer.text == Strip(input[|Past(s)|]))
  {
    Reachable(input, moves);
    LineAnswerIsNext(input, Run(input, moves));
  }

  lemma LineAnswerIsNext(input: seq<string>, s: System)
    requires "" !in input && LinesKept(input, s)
    ensures var answer := LineAnswer(s.funnel);
            && (answer.Pending? ==> Step(s, TakeLine) == s)
            && (answer.NoAnswer? ==> s.funnel.eof && s.delivered == s.fed)
            && (answer.Text? ==> |Past(s)| < |input| && answer.text == Strip(input[|Past(s)|]))
  {
    assert s.delivered + [] == s.delivered;
    NextBuffered(input, s);
  }

  /** Reading to the end: the same, and an answer is all the rest of the input at once. */
  lemma WholeAnswersAreRestOfInput(input: seq<string>, moves: seq<Move>)
    requires "" !in input && Clean(input, moves)
    ensures var s := Run(input, moves); var answer := AllAnswer(s.funnel);
            && (answer.Pending? ==> Step(s, TakeAll) == s)
            && (answer.NoAnswer? ==> s.funnel.eof && s.delivered == s.fed)
            && |Past(s)| <= |input|
            && (answer.Text? && !s.failed ==> answer.text == Join(input[|Past(s)|..]))
  {
    Reachable(input, moves);
    WholeAnswerIsRest(input, Run(input, moves));
  }

  lemma WholeAnswerIsRest(input: seq<string>, s: System)
    requires "" !in input && LinesKept(input, s) && EndSeen(s)
    ensures var answer := AllAnswer(s.funnel);
            && (answer.Pending? ==> Step(s, TakeAll) == s)
            && (answer.NoAnswer? ==> s.funnel.eof && s.delivered == s.fed)
            && |Past(s)| <= |input|
            && (answer.Text? && !s.failed ==> answer.text == Join(input[|Past(s)|..]))
  {
    assert s.delivered + [] == s.delivered;
    NextBuffered(input, s);
  }

  // Nobody waits for ever

  /** One turn of the feeder started last, with no read failing. */
  function Turn(s: System): System {
    if s.latest.None? || !IsAlive(s, s.latest.value) then s
    else if s.feeders[s.latest.value].Holding? then Step(s, Deposit(s.latest.value))
    else Step(s, Fetch(s.latest.value, false))
  }

  function Turns(s: System, n: nat): System {
    if n == 0 then s else Turn(Turns(s, n - 1))
  }

  lemma {:induction false} TurnsFront(s: System, n: nat)
    ensures Turns(Turn(s), n) == Turns(s, n + 1)
  {
    if n > 0 {
      TurnsFront(s, n - 1);
    }
  }

  lemma TurnKeepsInv(input: seq<string>, s: System)
    requires "" !in input && Inv(input, s)
    ensures Inv(input, Turn(s)) && Turn(s).failed == s.failed
    ensures s.funnel.attached ==> Turn(s).funnel.attached
  {
    if s.latest.Some? && IsAlive(s, s.latest.value) {
      var t := s.latest.value;
      if s.feeders[t].Holding? {
        CleanStep(s, Deposit(t));
        DepositKeepsLines(input, s, t);
        DepositKeepsEnd(input, s, t);
      } else {
        CleanStep(s, Fetch(t, false));
        FetchKeepsLines(input, s, t, false);
        FetchKeepsEnd(input, s, t, false);
      }
    }
  }

  /** How far the end is: the unread lines, and what the feeder does next. */
  function Ahead(s: System): nat {
    2 * |s.unread| + if s.latest.Some? && IsAlive(s, s.latest.value) && s.feeders[s.latest.value].Holding? then 1 else 0
  }

  lemma TurnAdvances(input: seq<string>, s: System)
    requires "" !in input && Inv(input, s) && s.funnel.attached && !s.funnel.eof
    ensures Turn(s).funnel.eof || Ahead(Turn(s)) < Ahead(s) || (s.unread == [] && Turn(Turn(s)).funnel.eof)
  {
  }

  lemma EndSeenMeans(input: seq<string>, s: System)
    requires Inv(input, s) && s.funnel.eof && !s.failed
    ensures s.before + s.fed == input
  {
    assert s.before + s.fed + [] + [] == s.before + s.fed;
  }

  lemma FeederBringsEnd(input: seq<string>, s: System) returns (n: nat)
    requires "" !in input && Inv(input, s) && s.funnel.attached
    ensures Inv(input, Turns(s, n)) && Turns(s, n).funnel.eof && Turns(s, n).failed == s.failed
    decreases Ahead(s)
  {
    if s.funnel.eof {
      n := 0;
    } else {
      TurnKeepsInv(input, s);
      TurnKeepsInv(input, Turn(s));
      TurnAdvances(input, s);
      if Turn(s).funnel.eof {
        assert Turns(s, 0) == s;
        n := 1;
      } else if Turn(Turn(s)).funnel.eof {
        assert Turns(s, 1) == Turn(Turns(s, 0)) == Turn(s);
        n := 2;
      } else {
        var more := FeederBringsEnd(input, Turn(s));
        TurnsFront(s, more);
        n := more + 1;
      }
    }
  }

  /**
  Whatever came before, once the funnel is attached its feeder, left alone, brings
  the end of file, and without a failed read the whole rest of the input before it:
  no read waits for ever.
  */
  lemma EveryReadIsAnswered(input: seq<string>, moves: seq<Move>) returns (n: nat)
    requires "" !in input && Clean(input, moves) && Run(input, moves).funnel.attached
    ensures var s := Turns(Run(input, moves), n);
            && !LineAnswer(s.funnel).Pending? && !AllAnswer(s.funnel).Pending?
            && (!Run(input, moves).failed ==> s.before + s.fed == input)
  {
    Reachable(input, moves);
    n := FeederBringsEnd(input, Run(input, moves));
    var s := Turns(Run(input, moves), n);
    if !s.failed {
      EndSeenMeans(input, s);
    }
  }

  // What `reset()` breaks

  lemma RunSnoc(input: seq<string>, moves: seq<Move>, m: Move) returns (moves': seq<Move>)
    ensures moves' == moves + [m] && Run(input, moves') == Step(Run(input, moves), m)
  {
    moves' := moves + [m];
    assert moves'[..|moves|] == moves;
  }

  /** A reset while a line is being read, then a read that attaches the funnel again. */
  lemma TwoHoldALine(a: string, b: string) returns (moves: seq<Move>)
    requires a != "" && b != ""
    ensures var s := Run([a, b], moves);
            s.funnel == Funnel(true, [], false) && s.feeders == map[0 := Holding(a), 1 := Holding(b)]
  {
    moves := RunSnoc([a, b], [], Ensure(0));
    moves := RunSnoc([a, b], moves, Fetch(0, false));
    moves := RunSnoc([a, b], moves, Reset);
    var s := Run([a, b], moves);
    assert s.feeders == map[0 := Holding(a)] && s.unread == [b] && !s.funnel.attached;
    moves := RunSnoc([a, b], moves, Ensure(1));
    moves := RunSnoc([a, b], moves, Fetch(1, false));
  }

  /**
  `reset()` is meant to keep an old feeder from handing bytes to the next funnel.
  When the next read finds the same stream, the funnel is attached again, two
  feeders live on it, and the lines can come out in the wrong order.
  */
  lemma ResetLeavesTwoFeeders(a: string, b: string) returns (moves: seq<Move>)
    requires a != "" && b != "" && a != b
    ensures var s := Run([a, b], moves);
            IsAlive(s, 0) && IsAlive(s, 1) && s.funnel.chunks == [b, a] != [a, b]
    ensures !Clean([a, b], moves)
  {
    moves := TwoHoldALine(a, b);
    moves := RunSnoc([a, b], moves, Deposit(1));
    moves := RunSnoc([a, b], moves, Deposit(0));
    TwoAreNotClean([a, b], moves, 0, 1);
  }
}
