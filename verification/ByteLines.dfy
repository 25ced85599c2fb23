/** Byte strings cut at newline bytes. */
module ByteLines {
  import opened Sequences

  type Byte = n: int | 0 <= n < 256

  const NEWLINE: Byte := 10
  const RETURN: Byte := 13

  /** The length of the part of `data` that ends with its last newline. */
  function LineEnd(data: seq<Byte>): (end: nat)
    ensures end <= |data|
    ensures end > 0 ==> data[end - 1] == NEWLINE
    ensures forall n :: end <= n < |data| ==> data[n] != NEWLINE
  {
    if data == [] then 0
    else if data[|data| - 1] == NEWLINE then |data|
    else LineEnd(data[..|data| - 1])
  }

  /** `data.split(b"\n")`: the pieces between newlines, always one more than newlines. */
  function Split(data: seq<Byte>): (pieces: seq<seq<Byte>>)
    ensures pieces != []
  {
    if data == [] then [[]]
    else
      var pieces, last := Split(data[..|data| - 1]), data[|data| - 1];
      if last == NEWLINE then pieces + [[]]
      else pieces[..|pieces| - 1] + [pieces[|pieces| - 1] + [last]]
  }

  predicate AtLineStart(data: seq<Byte>, at: nat)
    requires at <= |data|
  {
    at == 0 || data[at - 1] == NEWLINE
  }

  lemma SplitSnoc(data: seq<Byte>, last: Byte)
    ensures var pieces := Split(data);
            Split(data + [last]) ==
              if last == NEWLINE then pieces + [[]]
              else pieces[..|pieces| - 1] + [pieces[|pieces| - 1] + [last]]
  {
    assert (data + [last])[..|data|] == data;
  }

  /** If a text splits after `before`, so does a longer one. */
  lemma SplitMore(before: seq<seq<Byte>>, a: seq<Byte>, init: seq<Byte>, last: Byte)
    requires Split(a + init) == before + Split(init)
    ensures Split(a + (init + [last])) == before + Split(init + [last])
  {
    var pieces := Split(init);
    ConcatAssoc(a, init, [last]);
    SplitSnoc(a + init, last);
    SplitSnoc(init, last);
    if last == NEWLINE {
      ConcatAssoc(before, pieces, [[]]);
    } else {
      LastReplaced(before, pieces, pieces[|pieces| - 1] + [last]);
    }
  }

  lemma {:induction false} SplitConcat(a: seq<Byte>, b: seq<Byte>)
    requires AtLineStart(a, |a|)
    ensures Split(a)[|Split(a)| - 1] == []
    ensures Split(a + b) == Split(a)[..|Split(a)| - 1] + Split(b)
  {
    if b == [] {
      assert a + b == a;
      var pieces := Split(a);
      assert pieces == pieces[..|pieces| - 1] + [pieces[|pieces| - 1]];
    } else {
      var init, last := b[..|b| - 1], b[|b| - 1];
      SplitConcat(a, init);
      SplitMore(Split(a)[..|Split(a)| - 1], a, init, last);
      assert b == init + [last];
    }
  }

  /** The text that pieces were cut from. */
  function Glue(pieces: seq<seq<Byte>>): seq<Byte>
    requires pieces != []
  {
    var last := pieces[|pieces| - 1];
    if |pieces| == 1 then last else Glue(pieces[..|pieces| - 1]) + [NEWLINE] + last
  }

  lemma GlueSnoc(pieces: seq<seq<Byte>>, piece: seq<Byte>)
    requires pieces != []
    ensures Glue(pieces + [piece]) == Glue(pieces) + [NEWLINE] + piece
  {
    assert (pieces + [piece])[..|pieces|] == pieces;
  }

  lemma GlueLonger(pieces: seq<seq<Byte>>, last: Byte)
    requires pieces != []
    ensures Glue(pieces[..|pieces| - 1] + [pieces[|pieces| - 1] + [last]]) == Glue(pieces) + [last]
  {
    var most, open := pieces[..|pieces| - 1], pieces[|pieces| - 1];
    if most == [] {
      assert most + [open + [last]] == [open + [last]];
    } else {
      GlueSnoc(most, open + [last]);
      ConcatAssoc(Glue(most) + [NEWLINE], open, [last]);
    }
  }

  /** Splitting cuts at every newline and loses nothing else. */
  lemma {:induction false} SplitGlues(data: seq<Byte>)
    ensures Glue(Split(data)) == data
    ensures forall piece :: piece in Split(data) ==> NEWLINE !in piece
  {
    if data != [] {
      var init, last := data[..|data| - 1], data[|data| - 1];
      SplitGlues(init);
      var pieces := Split(init);
      assert data == init + [last];
      SplitSnoc(init, last);
      if last == NEWLINE {
        GlueSnoc(pieces, []);
        assert init + [NEWLINE] + [] == data;
      } else {
        GlueLonger(pieces, last);
        assert pieces[|pieces| - 1] in pieces;
      }
    }
  }
}
