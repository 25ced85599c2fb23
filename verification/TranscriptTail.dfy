/**
`tail_new_records` of `src/tianluo/claude_interactive_runner.py`: incremental
reading of a growing transcript from a byte cursor. Decoding, stripping and JSON
parsing of one line are one arbitrary function that yields a record or nothing;
newline bytes never occur inside a UTF-8 character (section 1 of RFC 3629), so
splitting bytes is splitting text.
*/
module TranscriptTail {
  import opened Options
  import opened ByteLines

  type Parser<!R> = seq<Byte> -> Option<R>

  /** What the file system answers during one call: the size, then the content at the later read. */
  datatype Answer =
    | NoSize
    | NoContent(size: nat)
    | Content(size: nat, content: seq<Byte>)

  function ParseAll<R>(parse: Parser<R>, pieces: seq<seq<Byte>>): seq<R> {
    if pieces == [] then []
    else
      var record := parse(pieces[|pieces| - 1]);
      ParseAll(parse, pieces[..|pieces| - 1]) + if record.Some? then [record.value] else []
  }

  /** The records of all lines of a text. */
  function Records<R>(parse: Parser<R>, data: seq<Byte>): seq<R> {
    ParseAll(parse, Split(data))
  }

  function StartCursor(size: nat, cursor: nat): nat {
    if size < cursor then 0 else cursor
  }

  function NewData(content: seq<Byte>, cursor: nat): seq<Byte> {
    if cursor <= |content| then content[cursor..] else []
  }

  function Tail<R>(parse: Parser<R>, answer: Answer, cursor: nat): (seq<R>, nat) {
    match answer
    case NoSize => ([], cursor)
    case NoContent(size) => ([], StartCursor(size, cursor))
    case Content(size, content) =>
      var from := StartCursor(size, cursor);
      var data := NewData(content, from);
      if size == from || LineEnd(data) == 0 then ([], from)
      else (Records(parse, data[..LineEnd(data)]), from + LineEnd(data))
  }

  method TailNewRecords<R>(parse: Parser<R>, answer: Answer, cursor: nat) returns (records: seq<R>, newCursor: nat)
    ensures (records, newCursor) == Tail(parse, answer, cursor)
  {
    records, newCursor := [], cursor;
    if answer.NoSize? {
      return;
    }
    if answer.size < newCursor {
      newCursor := 0;
    }
    if answer.size == newCursor || answer.NoContent? {
      return;
    }
    var data := NewData(answer.content, newCursor);
    var end := LineEnd(data);
    if end == 0 {
      return;
    }
    var pieces := Split(data[..end]);
    newCursor := newCursor + end;
    for n := 0 to |pieces|
      invariant records == ParseAll(parse, pieces[..n])
    {
      assert pieces[..n + 1][..n] == pieces[..n];
      var record := parse(pieces[n]);
      if record.Some? {
        records := records + [record.value];
      }
    }
    assert pieces[..|pieces|] == pieces;
  }

  // Many polls of one growing file

  function Polled<R>(parse: Parser<R>, start: nat, answers: seq<Answer>): (seq<R>, nat) {
    if answers == [] then ([], start)
    else
      var before := Polled(parse, start, answers[..|answers| - 1]);
      var more := Tail(parse, answers[|answers| - 1], before.1);
      (before.0 + more.0, more.1)
  }

  /** The longest content read so far. */
  function Known(start: nat, answers: seq<Answer>): nat {
    if answers == [] then start
    else
      var last := answers[|answers| - 1];
      if last.Content? then |last.content| else Known(start, answers[..|answers| - 1])
  }

  /** The answers come from a file that is only appended to and becomes `file`. */
  ghost predicate AppendOnly(file: seq<Byte>, start: nat, answers: seq<Answer>) {
    if answers == [] then start <= |file|
    else
      var init, last := answers[..|answers| - 1], answers[|answers| - 1];
      AppendOnly(file, start, init) &&
      match last
      case NoSize => true
      case NoContent(size) => Known(start, init) <= size
      case Content(size, content) => Known(start, init) <= size <= |content| && content <= file
  }

  lemma {:induction false} ParseConcat<R>(parse: Parser<R>, a: seq<seq<Byte>>, b: seq<seq<Byte>>)
    ensures ParseAll(parse, a + b) == ParseAll(parse, a) + ParseAll(parse, b)
  {
    if b == [] {
      assert a + b == a;
    } else {
      assert (a + b)[..|a + b| - 1] == a + b[..|b| - 1];
      ParseConcat(parse, a, b[..|b| - 1]);
    }
  }

  /** Blank lines hold no record, so texts cut at a line start have their records side by side. */
  lemma RecordsConcat<R>(parse: Parser<R>, a: seq<Byte>, b: seq<Byte>)
    requires parse([]).None? && AtLineStart(a, |a|)
    ensures Records(parse, a + b) == Records(parse, a) + Records(parse, b)
  {
    SplitConcat(a, b);
    var pieces := Split(a);
    var most := pieces[..|pieces| - 1];
    assert pieces == most + [[]];
    assert ParseAll(parse, pieces) == ParseAll(parse, most) + [] == ParseAll(parse, most);
    ParseConcat(parse, most, Split(b));
  }

  /** The records returned so far are one parse of the file from `start` to `cursor`. */
  ghost predicate HasRead<R>(parse: Parser<R>, file: seq<Byte>, start: nat, records: seq<R>, cursor: nat) {
    && start <= cursor <= |file|
    && (cursor == start || file[cursor - 1] == NEWLINE)
    && records == Records(parse, file[start..cursor])
  }

  lemma ReadOn<R>(parse: Parser<R>, file: seq<Byte>, start: nat, records: seq<R>, cursor: nat, more: seq<Byte>)
    requires parse([]).None? && HasRead(parse, file, start, records, cursor)
    requires more != [] && more[|more| - 1] == NEWLINE
    requires cursor + |more| <= |file| && more == file[cursor..cursor + |more|]
    ensures HasRead(parse, file, start, records + Records(parse, more), cursor + |more|)
  {
    var read := file[start..cursor];
    assert file[start..cursor + |more|] == read + more;
    assert AtLineStart(read, |read|);
    RecordsConcat(parse, read, more);
    assert more[|more| - 1] == file[cursor + |more| - 1];
  }

  /** What a successful poll takes from a file it reads a prefix of. */
  function Taken(cursor: nat, size: nat, content: seq<Byte>): seq<Byte>
    requires cursor <= size <= |content|
  {
    if size == cursor then [] else content[cursor..][..LineEnd(content[cursor..])]
  }

  lemma TailTakes<R>(parse: Parser<R>, cursor: nat, size: nat, content: seq<Byte>)
    requires cursor <= size <= |content|
    ensures var more := Taken(cursor, size, content);
            Tail(parse, Content(size, content), cursor) ==
              (if more == [] then [] else Records(parse, more), cursor + |more|)
  {
  }

  lemma TakenIsNext(file: seq<Byte>, cursor: nat, size: nat, content: seq<Byte>)
    requires cursor <= size <= |content| && content <= file
    ensures var more := Taken(cursor, size, content);
            && cursor + |more| <= |content| && more == file[cursor..cursor + |more|]
            && (more == [] || more[|more| - 1] == NEWLINE)
  {
    assert content == file[..|content|];
  }

  lemma ReadsMore<R>(
      parse: Parser<R>, file: seq<Byte>, start: nat, records: seq<R>, cursor: nat, more: seq<Byte>,
      given: seq<R>, cursor': nat)
    requires parse([]).None? && HasRead(parse, file, start, records, cursor)
    requires cursor' == cursor + |more| <= |file| && more == file[cursor..cursor']
    requires given == if more == [] then [] else Records(parse, more)
    requires more == [] || more[|more| - 1] == NEWLINE
    ensures HasRead(parse, file, start, records + given, cursor')
  {
    if more == [] {
      assert records + [] == records;
    } else {
      ReadOn(parse, file, start, records, cursor, more);
    }
  }

  lemma PollReads<R>(
      parse: Parser<R>, file: seq<Byte>, start: nat, records: seq<R>, cursor: nat, size: nat, content: seq<Byte>)
    requires parse([]).None? && HasRead(parse, file, start, records, cursor)
    requires cursor <= size <= |content| && content <= file
    ensures var polled := Tail(parse, Content(size, content), cursor);
            HasRead(parse, file, start, records + polled.0, polled.1) && polled.1 <= |content|
  {
    var more := Taken(cursor, size, content);
    TakenIsNext(file, cursor, size, content);
    TailTakes(parse, cursor, size, content);
    var polled := Tail(parse, Content(size, content), cursor);
    ReadsMore(parse, file, start, records, cursor, more, polled.0, polled.1);
  }

  lemma NothingBeyond<R>(parse: Parser<R>, file: seq<Byte>, cursor: nat, size: nat, content: seq<Byte>)
    requires cursor <= size <= |content| && content <= file
    ensures forall n :: Tail(parse, Content(size, content), cursor).1 <= n < size ==> file[n] != NEWLINE
  {
    var data := content[cursor..];
    forall n | Tail(parse, Content(size, content), cursor).1 <= n < size
      ensures file[n] != NEWLINE
    {
      assert file[n] == content[n] == data[n - cursor];
    }
  }

  /**
  Polling an append-only file at arbitrary moments, with stat and read failures
  in between, returns in all exactly the records of one parse from the start
  offset to the cursor: none lost, none repeated. The cursor is the start or just
  past a newline, and no newline a successful poll could see lies beyond it.
  */
  lemma {:induction false} TailingIsOneParse<R>(parse: Parser<R>, file: seq<Byte>, start: nat, answers: seq<Answer>)
    requires parse([]).None? && AppendOnly(file, start, answers)
    ensures var (records, cursor) := Polled(parse, start, answers);
            && HasRead(parse, file, start, records, cursor)
            && cursor <= Known(start, answers) <= |file|
            && (answers != [] && answers[|answers| - 1].Content? ==>
                  forall n :: cursor <= n < answers[|answers| - 1].size ==> file[n] != NEWLINE)
  {
    if answers == [] {
      assert file[start..start] == [];
    } else {
      var init, last := answers[..|answers| - 1], answers[|answers| - 1];
      TailingIsOneParse(parse, file, start, init);
      var (records, cursor) := Polled(parse, start, init);
      assert records + [] == records;
      if last.Content? {
        PollReads(parse, file, start, records, cursor, last.size, last.content);
        NothingBeyond(parse, file, cursor, last.size, last.content);
      }
    }
  }

  /** A watcher that resumes at a line start continues the parse of the whole file. */
  lemma ResumeContinues<R>(parse: Parser<R>, file: seq<Byte>, start: nat, answers: seq<Answer>)
    requires parse([]).None? && AppendOnly(file, start, answers) && start <= |file| && AtLineStart(file, start)
    ensures var (records, cursor) := Polled(parse, start, answers);
            cursor <= |file| && Records(parse, file[..start]) + records == Records(parse, file[..cursor])
  {
    TailingIsOneParse(parse, file, start, answers);
    var cursor := Polled(parse, start, answers).1;
    assert file[..cursor] == file[..start] + file[start..cursor];
    assert start > 0 ==> file[..start][start - 1] == file[start - 1];
    RecordsConcat(parse, file[..start], file[start..cursor]);
  }

  /** A terminated line holds the one record its content parses to, if any. */
  lemma RecordsOfLine<R>(parse: Parser<R>, line: seq<Byte>)
    requires parse([]).None? && NEWLINE !in line
    ensures Records(parse, line + [NEWLINE]) == if parse(line).Some? then [parse(line).value] else []
  {
    OnePiece(line);
    var data := line + [NEWLINE];
    assert data[..|data| - 1] == line;
    assert Split(data) == [line, []];
    var pieces := [line, []];
    assert pieces[..1] == [line] && pieces[1] == [] && [line][..0] == [];
    assert ParseAll(parse, [line]) == if parse(line).Some? then [parse(line).value] else [];
    assert ParseAll(parse, pieces) == ParseAll(parse, [line]) + [];
  }

  lemma {:induction false} OnePiece(line: seq<Byte>)
    requires NEWLINE !in line
    ensures Split(line) == [line]
  {
    if line != [] {
      var init, last := line[..|line| - 1], line[|line| - 1];
      assert last in line && forall b :: b in init ==> b in line;
      OnePiece(init);
      assert init + [last] == line;
    }
  }

  /** A file that became shorter than the cursor is read again from its start. */
  lemma TruncationRestarts<R>(parse: Parser<R>, size: nat, content: seq<Byte>, cursor: nat)
    requires size < cursor
    ensures Tail(parse, Content(size, content), cursor) == Tail(parse, Content(size, content), 0)
    ensures Tail(parse, NoContent(size), cursor) == ([], 0)
  {
  }
}
