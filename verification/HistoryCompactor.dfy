/**
The 1:1 history rewrite of `scripts/compact_history_jsonl.py`. The compaction of
one payload (JSON parse, record compaction, dump and re-parse) is an arbitrary
function; the rewrite must keep line positions whatever it returns.
*/
module HistoryCompactor {
  import opened Options
  import opened ByteLines

  const FAST_PATH_BYTES := 65536
  const CHUNK_BYTES := 1048576

  /** What parsing, compacting and dumping a payload came to. */
  datatype Attempt =
    | ParseFailed
    | CompactionFailed
    | NotCompacted
    | DumpFailed
    | Dumped(encoded: seq<Byte>, parses: bool)

  type Compaction = seq<Byte> -> Attempt

  /** A dump that parses as JSON is not empty. */
  ghost predicate JsonIsNonEmpty(compact: Compaction) {
    forall payload :: compact(payload).Dumped? && compact(payload).parses ==> compact(payload).encoded != []
  }

  datatype LineOutcome = LineOutcome(oversized: bool, compacted: bool, failed: bool, originalBytes: nat, newBytes: nat)

  // Physical lines

  function Flatten(parts: seq<seq<Byte>>): seq<Byte> {
    if parts == [] then [] else Flatten(parts[..|parts| - 1]) + parts[|parts| - 1]
  }

  /** The lines a binary file iterator yields, terminators included. */
  function Lines(content: seq<Byte>): (lines: seq<seq<Byte>>)
    ensures content != [] ==> lines != []
  {
    if content == [] then []
    else
      var init, last := content[..|content| - 1], content[|content| - 1];
      var lines := Lines(init);
      if AtLineStart(init, |init|) then lines + [[last]]
      else lines[..|lines| - 1] + [lines[|lines| - 1] + [last]]
  }

  function Newlines(data: seq<Byte>): nat {
    if data == [] then 0
    else Newlines(data[..|data| - 1]) + if data[|data| - 1] == NEWLINE then 1 else 0
  }

  lemma {:induction false} NewlinesConcat(a: seq<Byte>, b: seq<Byte>)
    ensures Newlines(a + b) == Newlines(a) + Newlines(b)
  {
    if b == [] {
      assert a + b == a;
    } else {
      assert (a + b)[..|a + b| - 1] == a + b[..|b| - 1];
      NewlinesConcat(a, b[..|b| - 1]);
    }
  }

  lemma {:induction false} NoNewlines(data: seq<Byte>)
    requires NEWLINE !in data
    ensures Newlines(data) == 0
  {
    if data != [] {
      NoNewlines(data[..|data| - 1]);
    }
  }

  predicate EndsLine(line: seq<Byte>) {
    line != [] && line[|line| - 1] == NEWLINE
  }

  /** A non-empty line whose only newline, if any, is its last byte. */
  predicate IsLine(line: seq<Byte>) {
    line != [] && Newlines(line[..|line| - 1]) == 0
  }

  predicate AreLines(lines: seq<seq<Byte>>) {
    lines == [] ||
    var init := lines[..|lines| - 1];
    AreLines(init) && IsLine(lines[|lines| - 1]) && (init != [] ==> EndsLine(init[|init| - 1]))
  }

  lemma AreLinesSnoc(lines: seq<seq<Byte>>, line: seq<Byte>)
    requires AreLines(lines) && IsLine(line) && (lines != [] ==> EndsLine(lines[|lines| - 1]))
    ensures AreLines(lines + [line])
    ensures Flatten(lines + [line]) == Flatten(lines) + line
  {
    assert (lines + [line])[..|lines|] == lines;
  }

  lemma IsLineSnoc(line: seq<Byte>, last: Byte)
    requires line != [] ==> IsLine(line) && !EndsLine(line)
    ensures IsLine(line + [last])
    ensures EndsLine(line + [last]) <==> last == NEWLINE
  {
    assert (line + [last])[..|line|] == line;
  }

  lemma GrowLast(lines: seq<seq<Byte>>, last: Byte)
    requires lines != [] && AreLines(lines) && !EndsLine(lines[|lines| - 1])
    ensures var longer := lines[..|lines| - 1] + [lines[|lines| - 1] + [last]];
            AreLines(longer) && Flatten(longer) == Flatten(lines) + [last]
  {
    var most, open := lines[..|lines| - 1], lines[|lines| - 1];
    IsLineSnoc(open, last);
    AreLinesSnoc(most, open + [last]);
    assert Flatten(most) + (open + [last]) == (Flatten(most) + open) + [last];
  }

  /** The line list of a text is well formed, adds up to the text and is open at the end as the text is. */
  ghost predicate LinesFit(content: seq<Byte>, lines: seq<seq<Byte>>) {
    && AreLines(lines) && Flatten(lines) == content
    && (content != [] ==> lines != [] && EndsLine(lines[|lines| - 1]) == EndsLine(content))
  }

  lemma {:induction false} LinesAreLines(content: seq<Byte>)
    ensures LinesFit(content, Lines(content))
  {
    if content != [] {
      var init, last := content[..|content| - 1], content[|content| - 1];
      LinesAreLines(init);
      var lines := Lines(init);
      assert content == init + [last];
      if AtLineStart(init, |init|) {
        IsLineSnoc([], last);
        assert [last] == [] + [last];
        AreLinesSnoc(lines, [last]);
      } else {
        GrowLast(lines, last);
        IsLineSnoc(lines[|lines| - 1], last);
      }
    }
  }

  lemma {:induction false} LinesOfLine(before: seq<Byte>, line: seq<Byte>)
    requires AtLineStart(before, |before|) && IsLine(line)
    ensures Lines(before + line) == Lines(before) + [line]
  {
    var init, last := line[..|line| - 1], line[|line| - 1];
    assert (before + line)[..|before + line| - 1] == before + init;
    if init == [] {
      assert before + init == before && line == [last];
    } else {
      LinesOfLine(before, init);
      assert init + [last] == line;
      assert (Lines(before) + [init])[..|Lines(before)|] == Lines(before);
      assert !AtLineStart(before + init, |before + init|);
    }
  }

  /** Cutting a text into lines recovers the lines it was put together from. */
  lemma {:induction false} LinesOfFlatten(lines: seq<seq<Byte>>)
    requires AreLines(lines)
    ensures Lines(Flatten(lines)) == lines
    ensures AtLineStart(Flatten(lines), |Flatten(lines)|) <==> lines == [] || EndsLine(lines[|lines| - 1])
  {
    if lines != [] {
      var init, last := lines[..|lines| - 1], lines[|lines| - 1];
      LinesOfFlatten(init);
      var before := Flatten(init);
      LinesOfLine(before, last);
      assert init + [last] == lines;
      assert (before + last)[|before + last| - 1] == last[|last| - 1];
    }
  }

  // One line

  function Payload(line: seq<Byte>): seq<Byte> {
    if EndsLine(line) then line[..|line| - 1] else line
  }

  function Terminator(line: seq<Byte>): seq<Byte> {
    if EndsLine(line) then [NEWLINE] else []
  }

  predicate NeedsCompaction(bytes: nat) {
    bytes >= FAST_PATH_BYTES
  }

  function CompactLine(compact: Compaction, line: seq<Byte>): (seq<Byte>, LineOutcome) {
    var payload := Payload(line);
    var size := |payload|;
    if !NeedsCompaction(size) then (line, LineOutcome(false, false, false, size, size))
    else
      var asIs := LineOutcome(true, false, false, size, size);
      match compact(payload)
      case NotCompacted => (line, asIs)
      case Dumped(encoded, parses) =>
        if NEWLINE in encoded || RETURN in encoded then (line, asIs.(failed := true))
        else if |encoded| >= size then (line, asIs)
        else if !parses then (line, asIs.(failed := true))
        else (encoded + Terminator(line), asIs.(compacted := true, newBytes := |encoded|))
      case _ => (line, asIs.(failed := true))
  }

  /** Byte-identical, or strictly shorter with the same terminator. */
  predicate KeepsPosition(line: seq<Byte>, line': seq<Byte>) {
    line' == line || (|line'| < |line| && Terminator(line') == Terminator(line))
  }

  lemma EncodedIsLine(encoded: seq<Byte>, line: seq<Byte>)
    requires encoded != [] && NEWLINE !in encoded
    ensures var line' := encoded + Terminator(line);
            IsLine(line') && EndsLine(line') == EndsLine(line) && Terminator(line') == Terminator(line)
  {
    NoNewlines(encoded);
    var line', last := encoded + Terminator(line), |encoded| - 1;
    if EndsLine(line) {
      assert line'[..|line'| - 1] == encoded;
    } else {
      assert line' == encoded;
      assert encoded[last] in encoded;
      NewlinesConcat(encoded[..last], encoded[last..]);
      assert encoded == encoded[..last] + encoded[last..];
    }
  }

  /** What a compacted line is made of. */
  lemma CompactedIsEncoded(compact: Compaction, line: seq<Byte>)
    requires JsonIsNonEmpty(compact) && CompactLine(compact, line).1.compacted
    ensures compact(Payload(line)).Dumped?
    ensures var encoded := compact(Payload(line)).encoded;
            && encoded != [] && NEWLINE !in encoded && |encoded| < |Payload(line)|
            && CompactLine(compact, line) ==
              (encoded + Terminator(line), LineOutcome(true, true, false, |Payload(line)|, |encoded|))
  {
  }

  lemma CompactLineIsOneLine(compact: Compaction, line: seq<Byte>)
    requires JsonIsNonEmpty(compact) && IsLine(line)
    ensures var (line', o) := CompactLine(compact, line);
            && IsLine(line') && EndsLine(line') == EndsLine(line) && KeepsPosition(line, line')
            && (o.compacted <==> line' != line)
            && o.newBytes <= o.originalBytes && |line| - |line'| == o.originalBytes - o.newBytes
            && (o.compacted ==> o.oversized)
  {
    if CompactLine(compact, line).1.compacted {
      CompactedIsEncoded(compact, line);
      EncodedIsLine(compact(Payload(line)).encoded, line);
    }
  }

  /** A line that can be made smaller: oversized, with a shorter dump that is one line of JSON. */
  predicate Shrinks(compact: Compaction, line: seq<Byte>) {
    var payload := Payload(line);
    && |payload| >= 65536 && compact(payload).Dumped? && compact(payload).parses
    && NEWLINE !in compact(payload).encoded && RETURN !in compact(payload).encoded
    && |compact(payload).encoded| < |payload|
  }

  /** A line whose treatment went wrong: no JSON, no record, no text, several lines, or a shorter text but no JSON. */
  predicate Fails(compact: Compaction, line: seq<Byte>) {
    var payload := Payload(line);
    |payload| >= 65536 &&
    match compact(payload)
    case NotCompacted => false
    case Dumped(encoded, parses) =>
      NEWLINE in encoded || RETURN in encoded || (|encoded| < |payload| && !parses)
    case _ => true
  }

  /** A line is compacted exactly when it can be made smaller, and otherwise left alone. */
  lemma CompactsIff(compact: Compaction, line: seq<Byte>)
    ensures var (line', o) := CompactLine(compact, line);
            && (o.compacted <==> Shrinks(compact, line))
            && (o.failed <==> Fails(compact, line))
            && (o.oversized <==> |Payload(line)| >= 65536)
            && o.originalBytes == |Payload(line)|
            && line' == (if Shrinks(compact, line) then compact(Payload(line)).encoded + Terminator(line) else line)
            && o.newBytes == if Shrinks(compact, line) then |compact(Payload(line)).encoded| else |Payload(line)|
    ensures line == Payload(line) + Terminator(line)
    ensures IsLine(line) ==> NEWLINE !in Payload(line)
  {
    if IsLine(line) {
      PayloadIsPlain(line);
    }
  }

  lemma {:induction false} SomeNewline(data: seq<Byte>)
    requires NEWLINE in data
    ensures Newlines(data) > 0
  {
    if data[|data| - 1] != NEWLINE {
      SomeNewline(data[..|data| - 1]);
    }
  }

  lemma PayloadIsPlain(line: seq<Byte>)
    requires IsLine(line)
    ensures NEWLINE !in Payload(line)
  {
    var init := line[..|line| - 1];
    if NEWLINE in init {
      SomeNewline(init);
    }
    assert line == init + [line[|line| - 1]];
  }

  // All lines

  function Shrinking(compact: Compaction): seq<Byte> -> bool {
    line => Shrinks(compact, line)
  }

  function Failing(compact: Compaction): seq<Byte> -> bool {
    line => Fails(compact, line)
  }

  function Oversized(): seq<Byte> -> bool {
    line => |Payload(line)| >= 65536
  }

  /** How many lines are of a kind. */
  function Count(lines: seq<seq<Byte>>, kind: seq<Byte> -> bool): nat {
    if lines == [] then 0
    else Count(lines[..|lines| - 1], kind) + if kind(lines[|lines| - 1]) then 1 else 0
  }

  function Bytes(lines: seq<seq<Byte>>, kind: seq<Byte> -> bool): nat {
    if lines == [] then 0
    else
      var last := lines[|lines| - 1];
      Bytes(lines[..|lines| - 1], kind) + if kind(last) then |Payload(last)| else 0
  }

  lemma {:induction false} CountPositive(lines: seq<seq<Byte>>, kind: seq<Byte> -> bool)
    ensures Count(lines, kind) > 0 <==> exists line :: line in lines && kind(line)
  {
    if lines != [] {
      var init, last := lines[..|lines| - 1], lines[|lines| - 1];
      CountPositive(init, kind);
      assert lines == init + [last];
      assert forall line :: line in lines <==> line in init || line == last;
    }
  }

  datatype Tally = Tally(
    totalLines: nat, oversizedLines: nat, compactedLines: nat, failedLines: nat,
    oversizedBytes: nat, compactedBytes: nat)

  function Add(t: Tally, o: LineOutcome): Tally {
    Tally(t.totalLines + 1,
          t.oversizedLines + if o.oversized then 1 else 0,
          t.compactedLines + if o.compacted then 1 else 0,
          t.failedLines + if o.failed then 1 else 0,
          t.oversizedBytes + if o.oversized then o.originalBytes else 0,
          t.compactedBytes + if o.oversized then o.newBytes else 0)
  }

  function Totals(compact: Compaction, lines: seq<seq<Byte>>): Tally {
    if lines == [] then Tally(0, 0, 0, 0, 0, 0)
    else Add(Totals(compact, lines[..|lines| - 1]), CompactLine(compact, lines[|lines| - 1]).1)
  }

  function Rewritten(compact: Compaction, lines: seq<seq<Byte>>): seq<seq<Byte>> {
    if lines == [] then []
    else Rewritten(compact, lines[..|lines| - 1]) + [CompactLine(compact, lines[|lines| - 1]).0]
  }

  /** The content an applied rewrite puts in place. */
  function Rewrite(compact: Compaction, content: seq<Byte>): seq<Byte> {
    Flatten(Rewritten(compact, Lines(content)))
  }

  function SavedBytes(t: Tally): nat {
    if t.oversizedBytes <= t.compactedBytes then 0 else t.oversizedBytes - t.compactedBytes
  }

  lemma RewrittenSnoc(compact: Compaction, lines: seq<seq<Byte>>)
    requires lines != []
    ensures var init, last := lines[..|lines| - 1], lines[|lines| - 1];
            var line' := CompactLine(compact, last).0;
            && Rewritten(compact, lines) == Rewritten(compact, init) + [line']
            && Flatten(lines) == Flatten(init) + last
            && Flatten(Rewritten(compact, lines)) == Flatten(Rewritten(compact, init)) + line'
  {
    var init, line' := lines[..|lines| - 1], CompactLine(compact, lines[|lines| - 1]).0;
    var before := Rewritten(compact, init);
    assert (before + [line'])[..|before|] == before;
  }

  /** The rewritten lines are lines again, as many and ending alike. */
  lemma {:induction false} RewrittenLines(compact: Compaction, lines: seq<seq<Byte>>)
    requires JsonIsNonEmpty(compact) && AreLines(lines)
    ensures var lines' := Rewritten(compact, lines);
            && |lines'| == |lines| && AreLines(lines')
            && (lines != [] ==> EndsLine(lines'[|lines| - 1]) == EndsLine(lines[|lines| - 1]))
  {
    if lines != [] {
      var init, last := lines[..|lines| - 1], lines[|lines| - 1];
      RewrittenLines(compact, init);
      RewrittenSnoc(compact, lines);
      CompactLineIsOneLine(compact, last);
      AreLinesSnoc(Rewritten(compact, init), CompactLine(compact, last).0);
    }
  }

  /** Line `n` of the rewrite is line `n` compacted. */
  lemma {:induction false} RewrittenAt(compact: Compaction, lines: seq<seq<Byte>>, n: nat)
    requires n < |lines|
    ensures |Rewritten(compact, lines)| == |lines|
    ensures Rewritten(compact, lines)[n] == CompactLine(compact, lines[n]).0
  {
    var init := lines[..|lines| - 1];
    RewrittenSnoc(compact, lines);
    if init != [] {
      RewrittenAt(compact, init, if n < |init| then n else 0);
    }
  }

  lemma {:induction false} LineAt(lines: seq<seq<Byte>>, n: nat)
    requires AreLines(lines) && n < |lines|
    ensures IsLine(lines[n])
  {
    if n < |lines| - 1 {
      LineAt(lines[..|lines| - 1], n);
    }
  }

  lemma RewrittenPosition(compact: Compaction, lines: seq<seq<Byte>>, n: nat)
    requires JsonIsNonEmpty(compact) && AreLines(lines) && n < |lines|
    ensures |Rewritten(compact, lines)| == |lines| && KeepsPosition(lines[n], Rewritten(compact, lines)[n])
  {
    RewrittenAt(compact, lines, n);
    LineAt(lines, n);
    CompactLineIsOneLine(compact, lines[n]);
  }

  /** The totals count the lines and exactly the bytes the rewrite saves. */
  lemma {:induction false} RewrittenTotals(compact: Compaction, lines: seq<seq<Byte>>)
    requires JsonIsNonEmpty(compact) && AreLines(lines)
    ensures var t := Totals(compact, lines);
            && t.totalLines == |lines| && t.compactedBytes <= t.oversizedBytes
            && |Flatten(lines)| - |Flatten(Rewritten(compact, lines))| == t.oversizedBytes - t.compactedBytes
  {
    if lines != [] {
      var init, last := lines[..|lines| - 1], lines[|lines| - 1];
      RewrittenTotals(compact, init);
      RewrittenSnoc(compact, lines);
      CompactLineIsOneLine(compact, last);
      assert Totals(compact, lines) == Add(Totals(compact, init), CompactLine(compact, last).1);
    }
  }

  lemma SnocsEqual(a: seq<seq<Byte>>, x: seq<Byte>, b: seq<seq<Byte>>, y: seq<Byte>)
    ensures a + [x] == b + [y] <==> a == b && x == y
  {
    if a + [x] == b + [y] {
      assert (a + [x])[..|a|] == a && (b + [y])[..|b|] == b;
      assert (a + [x])[|a|] == x && (b + [y])[|b|] == y;
    }
  }

  lemma TotalsSnoc(compact: Compaction, lines: seq<seq<Byte>>)
    requires JsonIsNonEmpty(compact) && lines != [] && IsLine(lines[|lines| - 1])
    ensures var init, last := lines[..|lines| - 1], lines[|lines| - 1];
            Totals(compact, lines).compactedLines ==
              Totals(compact, init).compactedLines + if CompactLine(compact, last).0 == last then 0 else 1
  {
    CompactLineIsOneLine(compact, lines[|lines| - 1]);
  }

  /** The report's totals are the numbers of lines of each kind, and the bytes of the oversized ones. */
  lemma {:induction false} TotalsCount(compact: Compaction, lines: seq<seq<Byte>>)
    ensures var t := Totals(compact, lines);
            && t.totalLines == |lines|
            && t.oversizedLines == Count(lines, Oversized())
            && t.compactedLines == Count(lines, Shrinking(compact))
            && t.failedLines == Count(lines, Failing(compact))
            && t.oversizedBytes == Bytes(lines, Oversized())
  {
    if lines != [] {
      var init, last := lines[..|lines| - 1], lines[|lines| - 1];
      TotalsCount(compact, init);
      CompactsIff(compact, last);
      assert Totals(compact, lines) == Add(Totals(compact, init), CompactLine(compact, last).1);
    }
  }

  /** A rewrite without a compacted line, and only that, is the identity. */
  lemma {:induction false} RewrittenSame(compact: Compaction, lines: seq<seq<Byte>>)
    requires JsonIsNonEmpty(compact) && AreLines(lines)
    ensures Totals(compact, lines).compactedLines == 0 <==> Rewritten(compact, lines) == lines
  {
    if lines != [] {
      var init, last := lines[..|lines| - 1], lines[|lines| - 1];
      RewrittenSame(compact, init);
      TotalsSnoc(compact, lines);
      RewrittenSnoc(compact, lines);
      SnocsEqual(Rewritten(compact, init), CompactLine(compact, last).0, init, last);
      assert lines == init + [last];
    }
  }

  /**
  Whatever the compaction does, a rewrite keeps the number and order of physical
  lines; each line is byte-identical or strictly shorter with the same
  terminator; the size drops by exactly the bytes reported as saved; and nothing
  changes exactly when no line was compacted.
  */
  lemma RewriteKeepsOrdinals(compact: Compaction, content: seq<Byte>)
    requires JsonIsNonEmpty(compact)
    ensures var content', t := Rewrite(compact, content), Totals(compact, Lines(content));
            && |Lines(content')| == |Lines(content)| == t.totalLines
            && (forall n :: 0 <= n < |Lines(content)| ==> KeepsPosition(Lines(content)[n], Lines(content')[n]))
            && |content'| + SavedBytes(t) == |content|
            && (content' == content <==> t.compactedLines == 0)
  {
    var lines := Lines(content);
    LinesAreLines(content);
    RewrittenLines(compact, lines);
    RewrittenTotals(compact, lines);
    RewrittenSame(compact, lines);
    LinesOfFlatten(Rewritten(compact, lines));
    forall n | 0 <= n < |lines|
      ensures KeepsPosition(lines[n], Rewritten(compact, lines)[n])
    {
      RewrittenPosition(compact, lines, n);
    }
  }

  /** A file with no oversized line would be rewritten to itself, so skipping it loses nothing. */
  lemma {:induction false} SkippingIsIdentity(compact: Compaction, lines: seq<seq<Byte>>)
    requires forall line :: line in lines ==> !NeedsCompaction(|Payload(line)|)
    ensures Rewritten(compact, lines) == lines
    ensures Totals(compact, lines) == Tally(|lines|, 0, 0, 0, 0, 0)
  {
    if lines != [] {
      var init, last := lines[..|lines| - 1], lines[|lines| - 1];
      SkippingIsIdentity(compact, init);
      assert last in lines && lines == init + [last];
    }
  }

  // Counting lines from chunks

  lemma {:induction false} LinesAreNewlines(content: seq<Byte>)
    ensures |Lines(content)| == Newlines(content) + if content != [] && !EndsLine(content) then 1 else 0
  {
    if content != [] {
      LinesAreNewlines(content[..|content| - 1]);
    }
  }

  /** Counts physical lines from non-empty reads, however the content falls into them. */
  method CountPhysicalLines(chunks: seq<seq<Byte>>) returns (total: nat)
    requires forall chunk :: chunk in chunks ==> chunk != []
    ensures total == |Lines(Flatten(chunks))|
  {
    total := 0;
    var lastByte: Option<Byte> := None;
    for n := 0 to |chunks|
      invariant total == Newlines(Flatten(chunks[..n]))
      invariant lastByte.None? <==> Flatten(chunks[..n]) == []
      invariant lastByte.Some? ==> lastByte.value == Flatten(chunks[..n])[|Flatten(chunks[..n])| - 1]
    {
      assert chunks[..n + 1][..n] == chunks[..n] && chunks[n] in chunks;
      NewlinesConcat(Flatten(chunks[..n]), chunks[n]);
      total := total + Newlines(chunks[n]);
      lastByte := Some(chunks[n][|chunks[n]| - 1]);
    }
    assert chunks[..|chunks|] == chunks;
    LinesAreNewlines(Flatten(chunks));
    if lastByte.Some? && lastByte.value != NEWLINE {
      total := total + 1;
    }
  }

  /** The reads of a file in blocks of `size`. */
  function Blocks(content: seq<Byte>, size: nat): (blocks: seq<seq<Byte>>)
    requires size > 0
    ensures forall block :: block in blocks ==> block != []
    decreases |content|
  {
    if content == [] then []
    else
      var rest := (|content| - 1) / size * size;
      Blocks(content[..rest], size) + [content[rest..]]
  }

  lemma {:induction false} BlocksFlatten(content: seq<Byte>, size: nat)
    requires size > 0
    ensures Flatten(Blocks(content, size)) == content
    decreases |content|
  {
    if content != [] {
      var rest := (|content| - 1) / size * size;
      BlocksFlatten(content[..rest], size);
      var blocks := Blocks(content, size);
      assert blocks[..|blocks| - 1] == Blocks(content[..rest], size);
    }
  }

  method CountFileLines(content: seq<Byte>) returns (total: nat)
    ensures total == |Lines(content)|
  {
    BlocksFlatten(content, CHUNK_BYTES);
    total := CountPhysicalLines(Blocks(content, CHUNK_BYTES));
  }

  // The scratch name

  const TMP_PREFIX := ".compact-tmp-"

  function Replace(name: string, c: char, sub: string): string {
    if name == "" then ""
    else (if name[0] == c then sub else [name[0]]) + Replace(name[1..], c, sub)
  }

  function TmpName(name: string): string {
    TMP_PREFIX + Replace(Replace(name, '%', "%25"), '.', "%2E")
  }

  /** Reads escapes back. */
  function Unescape(escaped: string): string
    decreases |escaped|
  {
    if escaped == "" then ""
    else if escaped[0] == '%' && |escaped| >= 3 then
      (if escaped[1..3] == "25" then "%" else ".") + Unescape(escaped[3..])
    else [escaped[0]] + Unescape(escaped[1..])
  }

  lemma {:induction false} ReplaceConcat(a: string, b: string, c: char, sub: string)
    ensures Replace(a + b, c, sub) == Replace(a, c, sub) + Replace(b, c, sub)
  {
    if a == "" {
      assert a + b == b;
    } else {
      assert (a + b)[1..] == a[1..] + b;
      ReplaceConcat(a[1..], b, c, sub);
    }
  }

  function EscapeOne(c: char): string {
    if c == '%' then "%25" else if c == '.' then "%2E" else [c]
  }

  /** The two replacements in a row are one escape per character. */
  lemma EscapeCons(name: string)
    requires name != ""
    ensures Replace(Replace(name, '%', "%25"), '.', "%2E") ==
      EscapeOne(name[0]) + Replace(Replace(name[1..], '%', "%25"), '.', "%2E")
  {
    var head := if name[0] == '%' then "%25" else [name[0]];
    ReplaceConcat(head, Replace(name[1..], '%', "%25"), '.', "%2E");
    if name[0] == '%' {
      assert head[1..] == "25" && "25"[1..] == "5" && "5"[1..] == "";
      assert Replace("5", '.', "%2E") == "5" && Replace("25", '.', "%2E") == "25";
    } else {
      assert head[1..] == "";
    }
  }

  lemma {:induction false} UnescapeInverts(name: string)
    ensures Unescape(Replace(Replace(name, '%', "%25"), '.', "%2E")) == name
    ensures '.' !in Replace(Replace(name, '%', "%25"), '.', "%2E")
  {
    if name != "" {
      EscapeCons(name);
      UnescapeInverts(name[1..]);
      var rest := Replace(Replace(name[1..], '%', "%25"), '.', "%2E");
      var escaped := EscapeOne(name[0]) + rest;
      if name[0] == '%' || name[0] == '.' {
        assert escaped[3..] == rest;
        assert escaped[1..3] == EscapeOne(name[0])[1..];
      } else {
        assert escaped[1..] == rest;
      }
      assert name == [name[0]] + name[1..];
    }
  }

  predicate HasAt(name: string, part: string, at: nat) {
    at + |part| <= |name| && name[at..at + |part|] == part
  }

  ghost predicate Contains(name: string, part: string) {
    exists at: nat :: HasAt(name, part, at)
  }

  /** Two sources never share a scratch file. */
  lemma TmpNamesDiffer(a: string, b: string)
    requires a != b
    ensures TmpName(a) != TmpName(b)
  {
    UnescapeInverts(a);
    UnescapeInverts(b);
    assert TmpName(a)[|TMP_PREFIX|..] == Replace(Replace(a, '%', "%25"), '.', "%2E");
    assert TmpName(b)[|TMP_PREFIX|..] == Replace(Replace(b, '%', "%25"), '.', "%2E");
  }

  /** No scratch name carries `.jsonl`, by which history files are found. */
  lemma TmpIsNoHistory(name: string)
    ensures !Contains(TmpName(name), ".jsonl")
  {
    UnescapeInverts(name);
    var tmp := TmpName(name);
    forall at: nat
      ensures !HasAt(tmp, ".jsonl", at)
    {
      if at + 6 <= |tmp| {
        var cut := tmp[at..at + 6];
        assert cut[0] == tmp[at] && cut[1] == tmp[at + 1];
        if at >= |TMP_PREFIX| {
          assert tmp[at] in Replace(Replace(name, '%', "%25"), '.', "%2E");
        } else if at == 0 {
          assert cut[1] == TMP_PREFIX[1];
        } else {
          assert cut[0] == TMP_PREFIX[at];
        }
      }
    }
  }

  lemma {:induction false} ReplaceGrows(name: string, c: char, sub: string)
    requires sub != ""
    ensures |Replace(name, c, sub)| >= |name|
  {
    if name != "" {
      ReplaceGrows(name[1..], c, sub);
    }
  }

  // The file pass

  datatype Failure =
    | ReadFailed
    | RewriteFailed
    | VerificationFailed
    | ReplaceFailed

  /** Which operating-system calls fail; a failing stream has handled at most `partial` lines. */
  datatype Faults = Faults(
    scan: bool, stream: bool, partial: nat, count: bool, replace: bool, unlink: bool)

  /** How many of `n` lines the stream handles. */
  function Reach(faults: Faults, n: nat): nat {
    if faults.stream && faults.partial < n then faults.partial else n
  }

  class FileReport {
    var tally: Tally
    var rewritten: bool
    var error: Option<Failure>

    constructor ()
      ensures tally == Tally(0, 0, 0, 0, 0, 0) && !rewritten && error == None
    {
      tally, rewritten, error := Tally(0, 0, 0, 0, 0, 0), false, None;
    }
  }

  method HasOversizedLine(lines: seq<seq<Byte>>) returns (oversized: bool, total: nat)
    ensures oversized <==> exists line :: line in lines && NeedsCompaction(|Payload(line)|)
    ensures total == |lines|
  {
    total, oversized := 0, false;
    for n := 0 to |lines|
      invariant total == n
      invariant oversized <==> exists line :: line in lines[..n] && NeedsCompaction(|Payload(line)|)
    {
      assert lines[..n + 1] == lines[..n] + [lines[n]];
      total := total + 1;
      if NeedsCompaction(|Payload(lines[n])|) {
        oversized := true;
      }
    }
    assert lines[..|lines|] == lines;
  }

  method Stream(compact: Compaction, lines: seq<seq<Byte>>, report: FileReport) returns (written: seq<Byte>)
    requires report.tally == Tally(0, 0, 0, 0, 0, 0)
    modifies report`tally
    ensures written == Flatten(Rewritten(compact, lines))
    ensures report.tally == Totals(compact, lines)
  {
    written := [];
    for n := 0 to |lines|
      invariant written == Flatten(Rewritten(compact, lines[..n]))
      invariant report.tally == Totals(compact, lines[..n])
    {
      assert lines[..n + 1][..n] == lines[..n];
      var (line', outcome) := CompactLine(compact, lines[n]);
      ghost var more := Rewritten(compact, lines[..n + 1]);
      assert more[..|more| - 1] == Rewritten(compact, lines[..n]);
      written := written + line';
      report.tally := Add(report.tally, outcome);
    }
    assert lines[..|lines|] == lines;
  }

  /** The rewrite compacts something exactly when some line can be made smaller. */
  lemma SomeShrink(compact: Compaction, lines: seq<seq<Byte>>)
    ensures Totals(compact, lines).compactedLines > 0 <==> exists line :: line in lines && Shrinks(compact, line)
  {
    TotalsCount(compact, lines);
    CountPositive(lines, Shrinking(compact));
    assert forall line :: Shrinking(compact)(line) <==> Shrinks(compact, line);
  }

  class Disk {
    var files: map<string, seq<Byte>>

    method Unlink(name: string, fails: bool)
      modifies this
      ensures files == if fails then old(files) else old(files) - {name}
    {
      if !fails {
        files := files - {name};
      }
    }

    /**
    Writes the scratch file, verifies it and puts it in place. Whatever fails, the
    source is either exactly as before or exactly its rewrite, and nothing but the
    scratch file is touched beside it. The line-count guard cannot fire: with no
    failing call there is no error.
    */
    method RewriteFile(compact: Compaction, name: string, report: FileReport, faults: Faults)
      requires JsonIsNonEmpty(compact) && name in files
      requires report.tally == Tally(0, 0, 0, 0, 0, 0) && !report.rewritten && report.error == None
      modifies this, report
      ensures OnlyRewrote(compact, old(files), files, name, report.rewritten)
      ensures report.tally == Totals(compact, Lines(old(files)[name])[..Reach(faults, |Lines(old(files)[name])|)])
      ensures report.error ==
        if faults.stream then Some(RewriteFailed)
        else if faults.count then Some(VerificationFailed)
        else if faults.replace && report.tally.compactedLines > 0 then Some(ReplaceFailed)
        else None
      ensures !faults.unlink ==> TmpName(name) !in files
      ensures report.rewritten <==> report.error == None && report.tally.compactedLines > 0
    {
      var content, tmp := files[name], TmpName(name);
      ghost var before := files;
      RewriteKeepsOrdinals(compact, content);
      var lines := Lines(content);
      var reach := Reach(faults, |lines|);
      assert lines[..|lines|] == lines;
      var written := Stream(compact, lines[..reach], report);
      if faults.stream {
        files := files[tmp := written];
        ScratchDropped(compact, before, name, written);
        report.error := Some(RewriteFailed);
        Unlink(tmp, faults.unlink);
        return;
      }
      files := files[tmp := written];
      ScratchDropped(compact, before, name, written);
      if faults.count {
        report.error := Some(VerificationFailed);
        Unlink(tmp, faults.unlink);
        return;
      }
      var sourceLines := CountFileLines(content);
      var tmpLines := CountFileLines(written);
      if sourceLines != tmpLines || tmpLines != report.tally.totalLines {
        assert false;
      }
      if report.tally.compactedLines == 0 {
        Unlink(tmp, faults.unlink);
        return;
      }
      if faults.replace {
        report.error := Some(ReplaceFailed);
        Unlink(tmp, faults.unlink);
        return;
      }
      files := files[name := written] - {tmp};
      ScratchMoved(compact, before, name);
      report.rewritten := true;
    }

    /** Scans and, with `apply`, rewrites one file. */
    method ProcessFile(compact: Compaction, name: string, apply: bool, faults: Faults) returns (report: FileReport)
      requires JsonIsNonEmpty(compact)
      modifies this
      ensures fresh(report)
      ensures !apply ==> files == old(files)
      ensures OnlyRewrote(compact, old(files), files, name, report.rewritten)
      ensures name in old(files) && !faults.scan && !faults.stream && !faults.count && !faults.replace ==>
        report.error == None
      ensures report.error == None ==> name in old(files) && report.tally == Totals(compact, Lines(old(files)[name]))
      ensures report.rewritten ==> apply && report.error == None
      ensures apply && report.error == None && !report.rewritten ==>
        Rewrite(compact, old(files)[name]) == old(files)[name]
      ensures report.rewritten ==> |files[name]| + SavedBytes(report.tally) == |old(files)[name]|
      ensures name !in old(files) || faults.scan ==> report.error == Some(ReadFailed)
      ensures name in old(files) && !faults.scan ==>
        var lines := Lines(old(files)[name]);
        var oversized := exists line :: line in lines && |Payload(line)| >= 65536;
        var shrinks := exists line :: line in lines && Shrinks(compact, line);
        && (report.rewritten <==> apply && shrinks && !faults.stream && !faults.count && !faults.replace)
        && report.error ==
             if !oversized then None
             else if !apply then if faults.stream then Some(ReadFailed) else None
             else if faults.stream then Some(RewriteFailed)
             else if faults.count then Some(VerificationFailed)
             else if faults.replace && shrinks then Some(ReplaceFailed)
             else None
    {
      report := new FileReport();
      if name !in files || faults.scan {
        report.error := Some(ReadFailed);
        return;
      }
      var lines := Lines(files[name]);
      RewriteKeepsOrdinals(compact, files[name]);
      SomeShrink(compact, lines);
      var oversized, total := HasOversizedLine(lines);
      if !oversized {
        report.tally := report.tally.(totalLines := total);
        SkippingIsIdentity(compact, lines);
      } else if apply {
        RewriteFile(compact, name, report, faults);
      } else {
        var _ := Stream(compact, lines[..Reach(faults, |lines|)], report);
        if faults.stream {
          report.error := Some(ReadFailed);
        }
      }
      assert lines[..|lines|] == lines;
    }
  }

  /** At most the scratch file is left behind; the source changed only into its rewrite. */
  ghost predicate OnlyRewrote(
      compact: Compaction, before: map<string, seq<Byte>>, after: map<string, seq<Byte>>, name: string, rewritten: bool)
  {
    if rewritten then
      name in before && name in after && TmpName(name) !in after &&
      after[name] == Rewrite(compact, before[name]) &&
      after - {name} == before - {name, TmpName(name)}
    else after - {TmpName(name)} == before - {TmpName(name)}
  }

  lemma ScratchDropped(compact: Compaction, before: map<string, seq<Byte>>, name: string, scratch: seq<Byte>)
    ensures OnlyRewrote(compact, before, before[TmpName(name) := scratch], name, false)
    ensures OnlyRewrote(compact, before, before[TmpName(name) := scratch] - {TmpName(name)}, name, false)
  {
  }

  lemma ScratchMoved(compact: Compaction, before: map<string, seq<Byte>>, name: string)
    requires name in before
    ensures var content' := Rewrite(compact, before[name]);
            var after := before[TmpName(name) := content'][name := content'] - {TmpName(name)};
            OnlyRewrote(compact, before, after, name, true)
  {
    TmpIsOther(name);
  }

  lemma TmpIsOther(name: string)
    ensures TmpName(name) != name
  {
    ReplaceGrows(name, '%', "%25");
    ReplaceGrows(Replace(name, '%', "%25"), '.', "%2E");
  }
}
