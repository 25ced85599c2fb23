/**
What canonicalisation keeps apart and what it identifies: dates, case and
padding never matter, and a canonical name is its own canonical name exactly
when it does not end in white space.
*/
module PricingSpellings {
  import opened Options
  import opened PricingNames
  import opened Sequences

  // Trimming

  lemma {:induction false} StripLeftIsSuffix(s: string)
    ensures |StripLeft(s)| <= |s|
    ensures StripLeft(s) == s[|s| - |StripLeft(s)|..]
    ensures StripLeft(s) != "" ==> !Space(StripLeft(s)[0])
  {
    if s != "" && Space(s[0]) {
      StripLeftIsSuffix(s[1..]);
    }
  }

  lemma {:induction false} StripRightIsPrefix(s: string)
    ensures StripRight(s) <= s
    ensures !EndsInSpace(StripRight(s))
    ensures EndsInSpace(s) ==> |StripRight(s)| < |s|
  {
    if EndsInSpace(s) {
      StripRightIsPrefix(s[..|s| - 1]);
    }
  }

  lemma NormalShortens(s: string)
    ensures |Normal(s)| <= |s|
    ensures EndsInSpace(s) ==> |Normal(s)| < |s|
  {
    StripLeftIsSuffix(s);
    StripRightIsPrefix(StripLeft(s));
  }

  /** A normal name has no space at either end, and no capitals. */
  lemma NormalIsTrimmed(s: string)
    ensures var name := Normal(s);
            && !EndsInSpace(name)
            && (name != "" ==> !Space(name[0]))
            && Lower(name) == name
  {
    var left := StripLeft(s);
    StripLeftIsSuffix(s);
    StripRightIsPrefix(left);
  }

  lemma TrimmedIsNormal(name: string)
    requires !EndsInSpace(name) && (name != "" ==> !Space(name[0])) && Lower(name) == name
    ensures Normal(name) == name
  {
  }

  lemma {:induction false} StripLeftAppend(s: string, t: string)
    requires t != "" && !Space(t[0])
    ensures StripLeft(s + t) == StripLeft(s) + t
  {
    if s == "" {
      assert s + t == t;
    } else if Space(s[0]) {
      assert (s + t)[1..] == s[1..] + t;
      StripLeftAppend(s[1..], t);
    }
  }

  lemma {:induction false} PaddingLeft(pad: string, s: string)
    requires forall c :: c in pad ==> Space(c)
    ensures StripLeft(pad + s) == StripLeft(s)
  {
    if pad == "" {
      assert pad + s == s;
    } else {
      assert Space(pad[0]);
      assert (pad + s)[1..] == pad[1..] + s;
      PaddingLeft(pad[1..], s);
    }
  }

  lemma {:induction false} PaddingRight(s: string, pad: string)
    requires forall c :: c in pad ==> Space(c)
    ensures StripRight(s + pad) == StripRight(s)
  {
    if pad == "" {
      assert s + pad == s;
    } else {
      var last := |pad| - 1;
      assert Space(pad[last]);
      assert (s + pad)[..|s + pad| - 1] == s + pad[..last];
      PaddingRight(s, pad[..last]);
    }
  }

  /** Padding at the right survives trimming at the left, unless all is space. */
  lemma {:induction false} PaddingBoth(s: string, pad: string)
    requires forall c :: c in pad ==> Space(c)
    ensures StripRight(StripLeft(s + pad)) == StripRight(StripLeft(s))
  {
    if s == "" {
      PaddingLeft(pad, "");
      assert s + pad == pad + "";
    } else if Space(s[0]) {
      assert (s + pad)[1..] == s[1..] + pad;
      PaddingBoth(s[1..], pad);
    } else {
      PaddingRight(s, pad);
    }
  }

  lemma {:induction false} StripLeftLower(s: string)
    ensures StripLeft(Lower(s)) == Lower(StripLeft(s))
  {
    if s != "" && Space(s[0]) {
      assert Lower(s)[1..] == Lower(s[1..]);
      StripLeftLower(s[1..]);
    }
  }

  lemma {:induction false} StripRightLower(s: string)
    ensures StripRight(Lower(s)) == Lower(StripRight(s))
  {
    if EndsInSpace(s) {
      assert Lower(s)[..|s| - 1] == Lower(s[..|s| - 1]);
      StripRightLower(s[..|s| - 1]);
    }
  }

  // Dates

  lemma DateEnds(s: string, date: string)
    requires Date(date)
    ensures DateLength(Core(s + date)) == |date|
    ensures WithoutOneDate(s + date) == s
  {
    var whole := s + date;
    assert whole[|whole| - 1] == date[|date| - 1] && IsDigit(date[|date| - 1]);
    assert Core(whole) == whole;
    assert whole[|whole| - |date|..] == date;
    if |date| == 11 {
      assert whole[|whole| - 9..][0] == date[2] && IsDigit(date[2]);
    }
    assert whole[..|whole| - |date|] == s;
  }

  /** `to` has only characters of `from`, and its first one unless only a newline is left. */
  ghost predicate Keeps(from: string, to: string) {
    && |to| <= |from|
    && (forall n :: 0 <= n < |to| ==> to[n] in from)
    && (to != "" && to != "\n" ==> to[0] == from[0])
  }

  lemma OneDateKeeps(s: string)
    ensures Keeps(s, WithoutOneDate(s))
  {
    var core := Core(s);
    var kept, rest := core[..|core| - DateLength(core)], s[|core|..];
    var shorter := WithoutOneDate(s);
    assert shorter == kept + rest && (rest == "" || rest == "\n");
    forall n | 0 <= n < |shorter|
      ensures shorter[n] in s
    {
      assert shorter[n] == if n < |kept| then s[n] else s[|core| + n - |kept|];
    }
    if kept == "" {
      assert shorter == rest;
    }
  }

  lemma KeepsTrans(a: string, b: string, c: string)
    requires Keeps(a, b) && Keeps(b, c)
    ensures Keeps(a, c)
  {
    forall n | 0 <= n < |c|
      ensures c[n] in a
    {
      var m :| 0 <= m < |b| && b[m] == c[n];
    }
  }

  lemma {:induction false} WithoutDatesKeeps(s: string)
    ensures Keeps(s, WithoutDates(s))
    ensures DateLength(Core(WithoutDates(s))) == 0
    decreases |s|
  {
    if DateLength(Core(s)) > 0 {
      OneDateKeeps(s);
      WithoutDatesKeeps(WithoutOneDate(s));
      KeepsTrans(s, WithoutOneDate(s), WithoutDates(s));
    }
  }

  predicate AllDigits(s: string) {
    forall n :: 0 <= n < |s| ==> '0' <= s[n] <= '9'
  }

  /** The dates are a dash with eight digits, or a dash with four, two and two digits between dashes. */
  lemma DateForms(date: string)
    ensures Date(date) <==>
      || (|date| == 9 && date == "-" + date[1..] && AllDigits(date[1..]))
      || (|date| == 11 && date == "-" + date[1..5] + "-" + date[6..8] + "-" + date[9..] &&
          AllDigits(date[1..5]) && AllDigits(date[6..8]) && AllDigits(date[9..]))
  {
    if |date| == 9 {
      var digits := date[1..];
      assert forall n :: 0 <= n < 8 ==> digits[n] == date[n + 1];
      assert AllDigits(digits) ==> forall n :: 1 <= n < 9 ==> IsDigit(date[n]) by {
        assert forall n :: 1 <= n < 9 ==> date[n] == digits[n - 1];
      }
      assert date[0] == '-' ==> date == "-" + digits;
    } else if |date| == 11 {
      DashedForm(date);
    }
  }

  lemma DigitsSlice(s: string, from: nat, to: nat)
    requires from <= to <= |s|
    ensures Digits(s, from, to) <==> AllDigits(s[from..to])
  {
    var slice := s[from..to];
    if AllDigits(slice) {
      assert forall n :: from <= n < to ==> s[n] == slice[n - from];
    }
  }

  lemma DashedForm(date: string)
    requires |date| == 11
    ensures date[0] == date[5] == date[8] == '-' <==>
      date == "-" + date[1..5] + "-" + date[6..8] + "-" + date[9..]
    ensures Digits(date, 1, 5) <==> AllDigits(date[1..5])
    ensures Digits(date, 6, 8) <==> AllDigits(date[6..8])
    ensures Digits(date, 9, 11) <==> AllDigits(date[9..])
  {
    DigitsSlice(date, 1, 5);
    DigitsSlice(date, 6, 8);
    DigitsSlice(date, 9, 11);
    assert date[9..] == date[9..11];
    var dashed := "-" + date[1..5] + "-" + date[6..8] + "-" + date[9..];
    assert dashed[0] == dashed[5] == dashed[8] == '-';
    assert forall n :: 0 <= n < 11 && n != 0 && n != 5 && n != 8 ==> dashed[n] == date[n];
  }

  /** A date before a final newline is taken off too, and the newline stays. */
  lemma DateBeforeNewline(s: string, date: string)
    requires Date(date)
    ensures WithoutDates(s + date + "\n") == WithoutDates(s + "\n")
  {
    var whole, dated := s + date + "\n", s + date;
    assert whole[..|whole| - 1] == dated && whole[|dated|..] == "\n";
    assert Core(whole) == dated;
    DateLast(s, date);
    assert dated[..|s|] == s;
    assert WithoutOneDate(whole) == s + "\n";
  }

  lemma DateLast(s: string, date: string)
    requires Date(date)
    ensures DateLength(s + date) == |date|
  {
    DateEnds(s, date);
    var whole := s + date;
    assert whole[|whole| - 1] == date[|date| - 1] && IsDigit(date[|date| - 1]);
    assert Core(whole) == whole;
  }

  lemma {:induction false} StripLeftKeeps(s: string, c: char)
    requires !Space(c)
    ensures c in StripLeft(s) <==> c in s
  {
    if s != "" && Space(s[0]) {
      StripLeftKeeps(s[1..], c);
      assert s == [s[0]] + s[1..];
    }
  }

  lemma {:induction false} StripRightKeeps(s: string, c: char)
    requires !Space(c)
    ensures c in StripRight(s) <==> c in s
  {
    if EndsInSpace(s) {
      StripRightKeeps(s[..|s| - 1], c);
      assert s == s[..|s| - 1] + [s[|s| - 1]];
    }
  }

  lemma LowerKeeps(s: string, c: char)
    requires c == '$' || c == '{'
    ensures c in Lower(s) <==> c in s
  {
    if c in s {
      var n :| 0 <= n < |s| && s[n] == c;
      assert Lower(s)[n] == c;
    }
    if c in Lower(s) {
      var n :| 0 <= n < |s| && Lower(s)[n] == c;
      assert s[n] == c;
    }
  }

  lemma NormalKeeps(s: string, c: char)
    requires c == '$' || c == '{'
    ensures c in Normal(s) <==> c in s
  {
    StripLeftKeeps(s, c);
    StripRightKeeps(StripLeft(s), c);
    LowerKeeps(StripRight(StripLeft(s)), c);
  }

  lemma DateIsPlain(date: string)
    requires Date(date)
    ensures Lower(date) == date && date[0] == '-' && !EndsInSpace(date) && '$' !in date && '{' !in date
  {
    assert forall n :: 0 <= n < |date| ==> date[n] == '-' || IsDigit(date[n]);
  }

  lemma NormalDated(name: string, date: string)
    requires !EndsInSpace(name) && Date(date)
    ensures Normal(name + date) == Normal(name) + date
  {
    DateIsPlain(date);
    StripLeftIsSuffix(name);
    StripLeftAppend(name, date);
    var trimmed := StripLeft(name);
    assert trimmed != "" ==> trimmed[|trimmed| - 1] == name[|name| - 1];
    assert (trimmed + date)[|trimmed + date| - 1] == date[|date| - 1];
    assert StripRight(trimmed) == trimmed && StripRight(trimmed + date) == trimmed + date;
    assert Lower(trimmed + date) == Lower(trimmed) + Lower(date);
  }

  lemma InEither(c: char, s: string, t: string)
    ensures c in s + t <==> c in s || c in t
  {
  }

  lemma DateLeavesUndated(name: string, date: string)
    requires Date(date)
    ensures Undated(name + date) == Undated(name)
  {
    DateIsPlain(date);
    DateEnds(name, date);
    assert WithoutDates(name + date) == WithoutDates(name);
    InEither('$', name, date);
    InEither('{', name, date);
    if name == "" {
      assert WithoutDates(name) == "";
    }
  }

  lemma DateLeavesBase(name: string, date: string)
    requires !EndsInSpace(name) && Date(date)
    ensures Base(Some(name + date)) == Base(Some(name))
  {
    NormalDated(name, date);
    DateLeavesUndated(Normal(name), date);
  }

  function Joined(dates: seq<string>): string {
    if dates == [] then "" else Joined(dates[..|dates| - 1]) + dates[|dates| - 1]
  }

  lemma DatedEndsInDigit(name: string, dates: seq<string>)
    requires !EndsInSpace(name) && forall date :: date in dates ==> Date(date)
    ensures !EndsInSpace(name + Joined(dates))
  {
    if dates != [] {
      var last := dates[|dates| - 1];
      assert last in dates;
      DateIsPlain(last);
      var whole := name + Joined(dates);
      assert whole[|whole| - 1] == last[|last| - 1];
    } else {
      assert name + "" == name;
    }
  }

  lemma {:induction false} DatesLeaveBase(name: string, dates: seq<string>)
    requires !EndsInSpace(name) && forall date :: date in dates ==> Date(date)
    ensures Base(Some(name + Joined(dates))) == Base(Some(name))
  {
    if dates == [] {
      assert name + Joined(dates) == name;
    } else {
      var init, last := dates[..|dates| - 1], dates[|dates| - 1];
      assert last in dates;
      assert name + Joined(dates) == name + Joined(init) + last;
      DatesLeaveBase(name, init);
      DatedEndsInDigit(name, init);
      DateLeavesBase(name + Joined(init), last);
    }
  }

  // Main results

  /** Any number of dates in either form at the end of a name do not change what it means. */
  lemma DatesDoNotMatter(name: string, dates: seq<string>)
    requires !EndsInSpace(name) && forall date :: date in dates ==> Date(date)
    ensures Canonical(Some(name + Joined(dates))) == Canonical(Some(name))
  {
    DatesLeaveBase(name, dates);
  }

  /** The two differ at most in the case of ASCII letters. */
  predicate SameButCase(a: string, b: string) {
    |a| == |b| &&
    forall n :: 0 <= n < |a| ==>
      || a[n] == b[n]
      || ('A' <= a[n] <= 'Z' && b[n] as int == a[n] as int + 32)
      || ('A' <= b[n] <= 'Z' && a[n] as int == b[n] as int + 32)
  }

  lemma NormalPadded(left: string, name: string, right: string)
    requires forall c :: c in left || c in right ==> Space(c)
    ensures Normal(left + name + right) == Normal(name)
  {
    PaddingLeft(left, name + right);
    ConcatAssoc(left, name, right);
    PaddingBoth(name, right);
  }

  lemma NormalOfLower(name: string)
    ensures Normal(name) == StripRight(StripLeft(Lower(name)))
  {
    StripLeftLower(name);
    StripRightLower(StripLeft(name));
  }

  /** Neither do case and white space around the name. */
  lemma SpellingDoesNotMatter(left: string, name: string, other: string, right: string)
    requires forall c :: c in left || c in right ==> c in WHITE_SPACE
    requires SameButCase(name, other)
    ensures Canonical(Some(left + other + right)) == Canonical(Some(name))
  {
    forall c | c in left || c in right
      ensures Space(c)
    {
      SpaceIsWhite(c);
    }
    NormalPadded(left, other, right);
    NormalOfLower(name);
    NormalOfLower(other);
    assert Lower(name) == Lower(other);
  }

  /**
  A name cannot be mapped exactly when there is none, it has a `$` or `{`, or nothing
  of it is left without dates.
  */
  lemma UnmappableIff(model: Option<string>)
    ensures Canonical(model) == None <==>
      model.None? || '$' in model.value || '{' in model.value || WithoutDates(Normal(model.value)) == ""
  {
    if model.Some? {
      NormalKeeps(model.value, '$');
      NormalKeeps(model.value, '{');
      UndatedIsEmptyIff(Normal(model.value));
    }
  }

  lemma UndatedIsEmptyIff(name: string)
    ensures Undated(name) == "" <==> '$' in name || '{' in name || WithoutDates(name) == ""
  {
    assert name == "" ==> WithoutDates(name) == "";
  }

  /** Every alias of the table stands for its canonical name, with any dates after it. */
  lemma ListedMeansCanonical(row: nat, alias: string, canonical: string, dates: seq<string>)
    requires Lists(row, alias, canonical) && forall date :: date in dates ==> Date(date)
    ensures Canonical(Some(alias + Joined(dates))) == Some(canonical)
  {
    ListedIsAlias(row, alias, canonical);
    ListedIsPlain(row, alias, canonical);
    AliasesArePlain(alias);
    DatesLeaveBase(alias, dates);
    AliasIsCanonical(alias);
  }

  lemma AliasIsCanonical(alias: string)
    requires AliasOf(alias).Some? && PlainText(alias)
    ensures Canonical(Some(alias)) == AliasOf(alias)
  {
    AliasesArePlain(alias);
    PlainEndHasNoDate(alias);
    assert !Space(alias[0]) && Lower(alias) == alias;
    TrimmedIsNormal(alias);
  }

  /** A trimmed small undated name that is no alias means itself. */
  lemma FixedName(name: string)
    requires Normal(name) == name && Mappable(name)
    requires DateLength(Core(name)) == 0 && AliasOf(name) == None
    ensures Canonical(Some(name)) == Some(name)
  {
  }

  lemma TargetIsFixed(alias: string)
    requires AliasOf(alias).Some?
    ensures Canonical(AliasOf(alias)) == AliasOf(alias)
  {
    AliasesArePlain(alias);
    var target := AliasOf(alias).value;
    PlainEndHasNoDate(target);
    assert !Space(target[0]) && Lower(target) == target;
    TrimmedIsNormal(target);
  }

  /** A canonical name is its own canonical name exactly when the undated name has no white space at its end. */
  lemma CanonicalIsIdempotentIff(model: Option<string>)
    requires Canonical(model).Some?
    ensures Canonical(Canonical(model)) == Canonical(model) <==> !EndsInSpace(Base(model))
  {
    var name := Normal(model.value);
    var base := WithoutDates(name);
    if AliasOf(base).Some? {
      TargetIsFixed(base);
      AliasesArePlain(base);
    } else if EndsInSpace(base) {
      SpacedIsNotFixed(base);
    } else {
      NormalIsTrimmed(model.value);
      WithoutDatesKeeps(name);
      assert Lower(base) == base by {
        forall n | 0 <= n < |base|
          ensures LowerChar(base[n]) == base[n]
        {
          assert base[n] in name;
        }
      }
      TrimmedIsNormal(base);
      FixedName(base);
    }
  }

  lemma SpacedIsNotFixed(base: string)
    requires EndsInSpace(base)
    ensures Canonical(Some(base)) != Some(base)
  {
    NormalShortens(base);
    var again := WithoutDates(Normal(base));
    WithoutDatesKeeps(Normal(base));
    if AliasOf(again).Some? {
      AliasesArePlain(again);
    }
  }

  lemma {:induction false} SpacelessIsTrimmed(s: string)
    requires forall c :: c in s ==> !Space(c)
    ensures Normal(s) == Lower(s)
  {
  }

  lemma SpacelessBase(model: string)
    requires forall c :: c in model ==> !Space(c)
    ensures !EndsInSpace(Base(Some(model)))
  {
    SpacelessIsTrimmed(model);
    SpacelessUndated(model, Lower(model));
  }

  lemma SpacelessUndated(model: string, small: string)
    requires small == Lower(model) && forall c :: c in model ==> !Space(c)
    ensures !EndsInSpace(Undated(small))
  {
    var base := WithoutDates(small);
    WithoutDatesKeeps(small);
    if EndsInSpace(base) {
      LowerKeepsSpace(model, base[|base| - 1]);
    }
  }

  lemma LowerKeepsSpace(s: string, c: char)
    requires c in Lower(s) && Space(c)
    ensures c in s
  {
    var n :| 0 <= n < |s| && Lower(s)[n] == c;
    assert s[n] == c;
  }

  /** Without white space in the name canonicalisation is idempotent. */
  lemma IdempotentWithoutSpace(model: string)
    requires forall c :: c in model ==> !Space(c)
    ensures Canonical(Canonical(Some(model))) == Canonical(Some(model))
  {
    if Canonical(Some(model)).Some? {
      SpacelessBase(model);
      CanonicalIsIdempotentIff(Some(model));
    }
  }

  lemma SpacedFoo()
    ensures Normal("foo ") == "foo"
    ensures Undated("foo") == "foo" && Undated("foo ") == "foo "
  {
    SpacelessIsTrimmed("foo");
    PaddingBoth("foo", " ");
    assert "foo" + " " == "foo ";
    assert Lower("foo") == "foo";
  }

  /** With a space before the date it is not: the canonical name changes when it is canonicalised again. */
  lemma NotIdempotent()
    ensures Canonical(Some("foo -20250101")) == Some("foo ")
    ensures Canonical(Some("foo ")) == Some("foo")
  {
    SpacedFoo();
    var date := "-20250101";
    var name := "foo " + date;
    assert Date(date) && name == "foo -20250101";
    TrimmedIsNormal(name);
    DateLeavesUndated("foo ", date);
    assert Base(Some("foo -20250101")) == "foo ";
    assert Base(Some("foo ")) == "foo";
  }
}
