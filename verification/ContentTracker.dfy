/**
`_MeaningfulContentTracker` of `src/tianluo/claude_interactive_runner.py`: the
bounded memory of recently seen lines that keeps cosmetic redraws from holding
an inactivity timer alive. The normaliser of a completed block of text is an
arbitrary function; the clock is the number of its updates.
*/
module ContentTrackers {
  import opened Sequences

  const SEEN_MAX := 256

  type Normaliser = string -> seq<string>

  /** The deque, oldest first, and the set kept beside it. */
  datatype Window = Window(seen: seq<string>, members: set<string>)

  datatype State = State(chunkIdx: nat, residual: string, window: Window, bumps: nat)

  const START := State(0, "", Window([], {}), 0)

  predicate IsBreak(c: char) {
    c == '\r' || c == '\n'
  }

  /** The length of the part of `text` that ends with its last line break. */
  function LineEnd(text: string): (end: nat)
    ensures end <= |text|
    ensures end > 0 ==> IsBreak(text[end - 1])
    ensures forall n :: end <= n < |text| ==> !IsBreak(text[n])
  {
    if text == "" then 0
    else if IsBreak(text[|text| - 1]) then |text|
    else LineEnd(text[..|text| - 1])
  }

  function Remember(w: Window, line: string): Window {
    if line in w.members then w
    else if |w.seen| == SEEN_MAX then
      Window(w.seen[1..] + [line], w.members - {w.seen[0]} + {line})
    else Window(w.seen + [line], w.members + {line})
  }

  function RememberAll(w: Window, lines: seq<string>): Window
    decreases lines
  {
    if lines == [] then w else RememberAll(Remember(w, lines[0]), lines[1..])
  }

  /** How many of the lines are judged fresh when they come. */
  function FreshCount(w: Window, lines: seq<string>): nat
    decreases lines
  {
    if lines == [] then 0
    else (if lines[0] in w.members then 0 else 1) + FreshCount(Remember(w, lines[0]), lines[1..])
  }

  /** The new text a scan of `buffer` looks at. */
  function NewText(s: State, buffer: seq<string>): string {
    if |buffer| <= s.chunkIdx then s.residual else s.residual + Join(buffer[s.chunkIdx..])
  }

  /** The normalised lines a scan judges. */
  function Judged(normalise: Normaliser, s: State, buffer: seq<string>): seq<string> {
    var text := NewText(s, buffer);
    if |buffer| <= s.chunkIdx || LineEnd(text) == 0 then [] else normalise(text[..LineEnd(text)])
  }

  function Scanned(normalise: Normaliser, s: State, buffer: seq<string>): State {
    if |buffer| <= s.chunkIdx then s
    else
      var text := NewText(s, buffer);
      var lines := Judged(normalise, s, buffer);
      State(|buffer|, text[LineEnd(text)..], RememberAll(s.window, lines),
            s.bumps + if FreshCount(s.window, lines) > 0 then 1 else 0)
  }

  /** Something among the lines is new to the window. */
  predicate HasFresh(w: Window, lines: seq<string>) {
    exists line :: line in lines && line !in w.members
  }

  lemma {:induction false} FreshIff(w: Window, lines: seq<string>)
    ensures FreshCount(w, lines) > 0 <==> HasFresh(w, lines)
    decreases lines
  {
    if lines != [] {
      if lines[0] in w.members {
        FreshIff(w, lines[1..]);
        assert lines == [lines[0]] + lines[1..];
      } else {
        assert lines[0] in lines;
      }
    }
  }

  class MeaningfulContentTracker {
    const normalise: Normaliser
    var chunkIdx: nat
    var residual: string
    var seen: seq<string>
    var seenSet: set<string>
    var bumps: nat

    function View(): State
      reads this
    {
      State(chunkIdx, residual, Window(seen, seenSet), bumps)
    }

    constructor (normalise: Normaliser)
      ensures View() == START && this.normalise == normalise
    {
      this.normalise := normalise;
      chunkIdx, residual, seen, seenSet, bumps := 0, "", [], {}, 0;
    }

    method Scan(outputBuffer: seq<string>)
      modifies this
      ensures View() == Scanned(normalise, old(View()), outputBuffer)
      ensures var judged := Judged(normalise, old(View()), outputBuffer);
              bumps == old(bumps) + if exists line :: line in judged && line !in old(seenSet) then 1 else 0
    {
      FreshIff(Window(seen, seenSet), Judged(normalise, View(), outputBuffer));
      if |outputBuffer| <= chunkIdx {
        return;
      }
      var text := residual + Join(outputBuffer[chunkIdx..]);
      chunkIdx := |outputBuffer|;
      var end := LineEnd(text);
      residual := text[end..];
      if end == 0 {
        return;
      }
      var lines := normalise(text[..end]);
      var anyFresh := false;
      ghost var before := Window(seen, seenSet);
      for n := 0 to |lines|
        invariant chunkIdx == |outputBuffer| && residual == text[end..] && bumps == old(bumps)
        invariant RememberAll(Window(seen, seenSet), lines[n..]) == RememberAll(before, lines)
        invariant anyFresh || FreshCount(Window(seen, seenSet), lines[n..]) == FreshCount(before, lines)
        invariant anyFresh ==> FreshCount(before, lines) > 0
      {
        assert lines[n..][1..] == lines[n + 1..];
        if lines[n] !in seenSet {
          anyFresh := true;
          if |seen| == SEEN_MAX {
            seenSet := seenSet - {seen[0]};
            seen := seen[1..];
          }
          seen := seen + [lines[n]];
          seenSet := seenSet + {lines[n]};
        }
      }
      if anyFresh {
        bumps := bumps + 1;
      }
    }
  }

  // What the set and the deque have to do with each other

  function Members(seen: seq<string>): set<string> {
    set line | line in seen
  }

  /** The set is the deque's contents, without duplicates, within the bound. */
  predicate Consistent(w: Window) {
    w.members == Members(w.seen) && NoRepeats(w.seen) && |w.seen| <= SEEN_MAX
  }

  lemma RememberKeepsConsistent(w: Window, line: string)
    requires Consistent(w)
    ensures Consistent(Remember(w, line))
  {
    var w' := Remember(w, line);
    if w' != w {
      var kept := if |w.seen| == SEEN_MAX then w.seen[1..] else w.seen;
      assert |w.seen| == SEEN_MAX ==> w.seen == [w.seen[0]] + kept;
      assert forall x :: x in w'.seen <==> x in kept || x == line;
      assert forall x :: x in kept ==> x in w.members;
    }
  }

  lemma {:induction false} RememberAllKeepsConsistent(w: Window, lines: seq<string>)
    requires Consistent(w)
    ensures Consistent(RememberAll(w, lines))
    decreases lines
  {
    if lines != [] {
      RememberKeepsConsistent(w, lines[0]);
      RememberAllKeepsConsistent(Remember(w, lines[0]), lines[1..]);
    }
  }

  // Runs of scans

  function Run(normalise: Normaliser, s: State, buffers: seq<seq<string>>): State {
    if buffers == [] then s
    else Scanned(normalise, Run(normalise, s, buffers[..|buffers| - 1]), buffers[|buffers| - 1])
  }

  /** Every line judged in a run, in order. */
  function Produced(normalise: Normaliser, s: State, buffers: seq<seq<string>>): seq<string> {
    if buffers == [] then []
    else
      var init := buffers[..|buffers| - 1];
      Produced(normalise, s, init) + Judged(normalise, Run(normalise, s, init), buffers[|buffers| - 1])
  }

  /** In every reachable state the seen set is exactly what the deque holds. */
  lemma {:induction false} ReachableIsConsistent(normalise: Normaliser, buffers: seq<seq<string>>)
    ensures Consistent(Run(normalise, START, buffers).window)
  {
    if buffers != [] {
      var init := buffers[..|buffers| - 1];
      ReachableIsConsistent(normalise, init);
      var s := Run(normalise, START, init);
      RememberAllKeepsConsistent(s.window, Judged(normalise, s, buffers[|buffers| - 1]));
    }
  }

  lemma {:induction false} RememberAllConcat(w: Window, a: seq<string>, b: seq<string>)
    ensures RememberAll(w, a + b) == RememberAll(RememberAll(w, a), b)
    ensures FreshCount(w, a + b) == FreshCount(w, a) + FreshCount(RememberAll(w, a), b)
    decreases a
  {
    if a == [] {
      assert a + b == b;
    } else {
      assert (a + b)[1..] == a[1..] + b;
      RememberAllConcat(Remember(w, a[0]), a[1..], b);
    }
  }

  lemma {:induction false} RunIsOneJudging(normalise: Normaliser, s: State, buffers: seq<seq<string>>)
    ensures var lines := Produced(normalise, s, buffers);
            && Run(normalise, s, buffers).window == RememberAll(s.window, lines)
            && s.bumps <= Run(normalise, s, buffers).bumps <= s.bumps + FreshCount(s.window, lines)
  {
    if buffers != [] {
      var init := buffers[..|buffers| - 1];
      RunIsOneJudging(normalise, s, init);
      var judged := Judged(normalise, Run(normalise, s, init), buffers[|buffers| - 1]);
      RememberAllConcat(s.window, Produced(normalise, s, init), judged);
    }
  }

  /** How many scans of a run judged a line that was outside the seen set as they began. */
  function FreshScans(normalise: Normaliser, s: State, buffers: seq<seq<string>>): nat {
    if buffers == [] then 0
    else
      var init := buffers[..|buffers| - 1];
      var before := Run(normalise, s, init);
      FreshScans(normalise, s, init) +
      if HasFresh(before.window, Judged(normalise, before, buffers[|buffers| - 1])) then 1 else 0
  }

  /** Over every run the clock is bumped once for each scan that brought something fresh, and not otherwise. */
  lemma {:induction false} ClockCountsFreshScans(normalise: Normaliser, s: State, buffers: seq<seq<string>>)
    ensures Run(normalise, s, buffers).bumps == s.bumps + FreshScans(normalise, s, buffers)
  {
    if buffers != [] {
      var init := buffers[..|buffers| - 1];
      var before := Run(normalise, s, init);
      ClockCountsFreshScans(normalise, s, init);
      FreshIff(before.window, Judged(normalise, before, buffers[|buffers| - 1]));
    }
  }

  // What the window holds

  function LastOf(lines: seq<string>): seq<string> {
    if |lines| <= SEEN_MAX then lines else lines[|lines| - SEEN_MAX..]
  }

  /** A line is fresh when it is not among the last 256 fresh ones. */
  function WithFresh(fresh': seq<string>, line: string): seq<string> {
    if line in LastOf(fresh') then fresh' else fresh' + [line]
  }

  function FreshLines(lines: seq<string>): seq<string> {
    if lines == [] then []
    else
      WithFresh(FreshLines(lines[..|lines| - 1]), lines[|lines| - 1])
  }

  function WindowOf(fresh': seq<string>): Window {
    Window(LastOf(fresh'), Members(LastOf(fresh')))
  }

  lemma RememberSlides(fresh': seq<string>, line: string)
    requires NoRepeats(LastOf(fresh'))
    ensures line in WindowOf(fresh').members <==> line in LastOf(fresh')
    ensures Remember(WindowOf(fresh'), line) == WindowOf(WithFresh(fresh', line))
    ensures NoRepeats(LastOf(WithFresh(fresh', line)))
  {
    var seen := LastOf(fresh');
    if line !in seen {
      var kept := if |seen| == SEEN_MAX then seen[1..] else seen;
      assert LastOf(fresh' + [line]) == kept + [line];
      RememberKeepsConsistent(WindowOf(fresh'), line);
      assert Remember(WindowOf(fresh'), line).seen == kept + [line];
    }
  }

  lemma RememberAllSnoc(w: Window, init: seq<string>, line: string)
    ensures RememberAll(w, init + [line]) == Remember(RememberAll(w, init), line)
    ensures FreshCount(w, init + [line]) ==
      FreshCount(w, init) + if line in RememberAll(w, init).members then 0 else 1
  {
    RememberAllConcat(w, init, [line]);
    assert [line][1..] == [];
  }

  /**
  Whatever lines were judged, the deque holds the last 256 fresh ones in the order
  they came, the set the same, and the count of fresh judgements is theirs.
  */
  lemma {:induction false} WindowIsLastFresh(lines: seq<string>)
    ensures RememberAll(START.window, lines) == WindowOf(FreshLines(lines)) && NoRepeats(LastOf(FreshLines(lines)))
    ensures FreshCount(START.window, lines) == |FreshLines(lines)|
  {
    if lines != [] {
      var init, line := lines[..|lines| - 1], lines[|lines| - 1];
      WindowIsLastFresh(init);
      assert lines == init + [line];
      RememberAllSnoc(START.window, init, line);
      RememberSlides(FreshLines(init), line);
    }
  }

  // The bound

  lemma {:induction false} DistinctFit(lines: seq<string>, bound: set<string>)
    requires NoRepeats(lines) && forall l :: l in lines ==> l in bound
    ensures |lines| <= |bound|
  {
    if lines != [] {
      var init, last := lines[..|lines| - 1], lines[|lines| - 1];
      assert forall l :: l in init ==> l in bound - {last};
      DistinctFit(init, bound - {last});
    }
  }

  /** `recent` are the last lines that came into the deque. */
  predicate EndsWith(seen: seq<string>, recent: seq<string>) {
    |recent| <= |seen| && seen[|seen| - |recent|..] == recent
  }

  lemma TailIsDistinct(seen: seq<string>, recent: seq<string>)
    requires NoRepeats(seen) && EndsWith(seen, recent)
    ensures NoRepeats(recent)
  {
    assert forall n :: 0 <= n < |recent| ==> recent[n] == seen[|seen| - |recent| + n];
  }

  lemma FreshStep(w: Window, recent: seq<string>, line: string)
    requires Consistent(w) && EndsWith(w.seen, recent) && line !in w.members
    ensures NoRepeats(recent + [line])
    ensures |recent| < SEEN_MAX ==> EndsWith(Remember(w, line).seen, recent + [line])
  {
    TailIsDistinct(w.seen, recent);
    assert forall n :: 0 <= n < |recent| ==> recent[n] == w.seen[|w.seen| - |recent| + n];
  }

  /** At most 256 distinct lines can have come in, so they are all still in the deque. */
  lemma {:induction false} FreshFit(w: Window, recent: seq<string>, lines: seq<string>, bound: set<string>)
    requires Consistent(w) && EndsWith(w.seen, recent) && |bound| <= SEEN_MAX
    requires forall l :: l in recent ==> l in bound
    requires forall l :: l in lines ==> l in bound
    ensures |recent| + FreshCount(w, lines) <= |bound|
    decreases lines
  {
    if lines == [] {
      TailIsDistinct(w.seen, recent);
      DistinctFit(recent, bound);
    } else {
      var line := lines[0];
      RememberKeepsConsistent(w, line);
      if line in w.members {
        FreshFit(Remember(w, line), recent, lines[1..], bound);
      } else {
        FreshStep(w, recent, line);
        DistinctFit(recent + [line], bound);
        FreshFit(Remember(w, line), recent + [line], lines[1..], bound);
      }
    }
  }

  /**
  From any reachable state, if everything completed from then on normalises into
  a set of at most 256 strings, the clock is bumped at most that many more times,
  however the stream is cut into chunks and polls: a redraw cycle cannot keep
  the inactivity timer alive.
  */
  lemma RedrawsCannotHoldTheClock(
      normalise: Normaliser, before: seq<seq<string>>, after: seq<seq<string>>, bound: set<string>)
    requires |bound| <= SEEN_MAX
    requires forall l :: l in Produced(normalise, Run(normalise, START, before), after) ==> l in bound
    ensures var s := Run(normalise, START, before);
            && FreshCount(s.window, Produced(normalise, s, after)) <= |bound|
            && Run(normalise, s, after).bumps <= s.bumps + |bound|
  {
    var s := Run(normalise, START, before);
    ReachableIsConsistent(normalise, before);
    RunIsOneJudging(normalise, s, after);
    FreshFit(s.window, [], Produced(normalise, s, after), bound);
  }

  /** Lines that come round in a fixed order, the oldest of 257 first. */
  function Cycle(order: seq<string>, n: nat): seq<string>
    requires |order| == SEEN_MAX + 1
    decreases n
  {
    if n == 0 then [] else [order[SEEN_MAX]] + Cycle(order[1..] + [order[0]], n - 1)
  }

  /** The bound 256 is exact: a cycle of 257 distinct lines is fresh every time, for ever. */
  lemma {:induction false} LongerCycleStaysFresh(order: seq<string>, n: nat)
    requires |order| == SEEN_MAX + 1 && NoRepeats(order)
    ensures FreshCount(Window(order[..SEEN_MAX], Members(order[..SEEN_MAX])), Cycle(order, n)) == n
    decreases n
  {
    if n > 0 {
      var next := order[1..] + [order[0]];
      var w := Window(order[..SEEN_MAX], Members(order[..SEEN_MAX]));
      var w' := Remember(w, order[SEEN_MAX]);
      assert order[SEEN_MAX] !in w.members;
      RememberKeepsConsistent(w, order[SEEN_MAX]);
      assert w'.seen == next[..SEEN_MAX];
      assert Cycle(order, n)[1..] == Cycle(next, n - 1);
      LongerCycleStaysFresh(next, n - 1);
    }
  }

  // Chunking

  /** The normaliser treats a text that ends in a line break independently of what follows. */
  ghost predicate Linewise(normalise: Normaliser) {
    normalise("") == [] &&
    forall a: string, b: string :: a != "" && IsBreak(a[|a| - 1]) ==> normalise(a + b) == normalise(a) + normalise(b)
  }

  /** Each snapshot of the output buffer extends the one before it. */
  ghost predicate Growing(buffers: seq<seq<string>>) {
    forall m, n :: 0 <= m < n < |buffers| ==> buffers[m] <= buffers[n]
  }

  lemma {:induction false} JoinSplit(chunks: seq<string>, n: nat)
    requires n <= |chunks|
    ensures Join(chunks) == Join(chunks[..n]) + Join(chunks[n..])
  {
    if n > 0 {
      JoinSplit(chunks[1..], n - 1);
      assert chunks[..n][1..] == chunks[1..][..n - 1];
      assert chunks[1..][n - 1..] == chunks[n..];
    }
  }

  lemma {:induction false} LineEndConcat(done: string, rest: string)
    requires done == "" || IsBreak(done[|done| - 1])
    ensures LineEnd(done + rest) == |done| + LineEnd(rest)
  {
    if rest == "" {
      assert done + rest == done;
    } else {
      assert (done + rest)[..|done + rest| - 1] == done + rest[..|rest| - 1];
      LineEndConcat(done, rest[..|rest| - 1]);
    }
  }

  /** The tracker has read exactly this buffer, as if in one scan. */
  ghost predicate HasRead(normalise: Normaliser, s: State, buffer: seq<string>) {
    var text := Join(buffer);
    && s.chunkIdx == |buffer|
    && s.residual == text[LineEnd(text)..]
    && s.window == RememberAll(START.window, normalise(text[..LineEnd(text)]))
  }

  lemma NormaliseMore(normalise: Normaliser, done: string, rest: string)
    requires Linewise(normalise) && (done == "" || IsBreak(done[|done| - 1]))
    ensures var text := done + rest;
            && text[LineEnd(text)..] == rest[LineEnd(rest)..]
            && normalise(text[..LineEnd(text)]) == normalise(done) + normalise(rest[..LineEnd(rest)])
  {
    LineEndConcat(done, rest);
    var text, block := done + rest, rest[..LineEnd(rest)];
    assert text[..LineEnd(text)] == done + block;
    if done == "" {
      assert done + block == block && normalise(done) + normalise(block) == normalise(block);
    }
  }

  lemma ScanReadsOn(normalise: Normaliser, s: State, earlier: seq<string>, buffer: seq<string>)
    requires Linewise(normalise) && HasRead(normalise, s, earlier) && earlier <= buffer
    ensures HasRead(normalise, Scanned(normalise, s, buffer), buffer)
  {
    if |buffer| == |earlier| {
      assert buffer == earlier;
    } else {
      var seen := Join(earlier);
      var done, rest := seen[..LineEnd(seen)], NewText(s, buffer);
      JoinSplit(buffer, |earlier|);
      assert buffer[..|earlier|] == earlier;
      ConcatAssoc(done, s.residual, Join(buffer[|earlier|..]));
      assert Join(buffer) == done + rest;
      NormaliseMore(normalise, done, rest);
      var judged := Judged(normalise, s, buffer);
      assert judged == normalise(rest[..LineEnd(rest)]);
      RememberAllConcat(START.window, normalise(done), judged);
    }
  }

  /**
  With a line-wise normaliser the tracker's memory depends only on the text so
  far: any way of cutting it into chunks and polls gives what one scan of the
  whole gives, and the residual is the text after the last line break.
  */
  lemma {:induction false} ChunkingIsImmaterial(normalise: Normaliser, buffers: seq<seq<string>>)
    requires Linewise(normalise) && Growing(buffers) && buffers != []
    ensures HasRead(normalise, Run(normalise, START, buffers), buffers[|buffers| - 1])
  {
    var init, last := buffers[..|buffers| - 1], buffers[|buffers| - 1];
    if init == [] {
      ScanReadsOn(normalise, START, [], last);
    } else {
      ChunkingIsImmaterial(normalise, init);
      ScanReadsOn(normalise, Run(normalise, START, init), init[|init| - 1], last);
    }
  }
}
