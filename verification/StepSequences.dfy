/**
The rewrites of step sequences in `src/tianluo/config.py`: inserting the e2e
step, the merge pair and confirmations.
*/
module StepSequences {
  import opened Sequences

  datatype StepType =
    | DISCOVERY | ANALYZE | INVESTIGATE | PROJECT_SUMMARY | PLAN | PROPOSE | DESIGN | PLAN_TASKS
    | CONFIRM | IMPLEMENT | TEST | E2E | SELF_CHECK | ADJUDICATE | INVARIANT_CHECK | CHARTER_FRESHNESS
    | VERIFY_SPEC | UPDATE_SPEC | SPEC_GATE | VERSION_ANALYZE | COMMIT | SUMMARIZE
    | MERGE_INTEGRATE | VERSION_RECONCILE

  type Steps = seq<StepType>

  /** `items` put right after the first `anchor`; nothing happens without one. */
  function AfterFirst(steps: Steps, anchor: StepType, items: Steps): Steps {
    if steps == [] then []
    else if steps[0] == anchor then [anchor] + items + steps[1..]
    else [steps[0]] + AfterFirst(steps[1..], anchor, items)
  }

  /** The steps of a sequence that are not in `removed`. */
  function Without(steps: Steps, removed: set<StepType>): Steps {
    if steps == [] then []
    else (if steps[0] in removed then [] else [steps[0]]) + Without(steps[1..], removed)
  }

  function WithE2E(steps: Steps, enabled: bool): Steps {
    if E2E in steps || !enabled then steps else AfterFirst(steps, TEST, [E2E])
  }

  /** The merge-side steps a sequence lacks, in order. */
  function MissingMerge(steps: Steps): Steps {
    (if MERGE_INTEGRATE in steps then [] else [MERGE_INTEGRATE]) +
    (if VERSION_RECONCILE in steps then [] else [VERSION_RECONCILE])
  }

  function WithMerge(steps: Steps): Steps {
    if COMMIT in steps then AfterFirst(steps, COMMIT, MissingMerge(steps)) else steps + MissingMerge(steps)
  }

  function Confirmed(steps: Steps, configured: set<StepType>): Steps {
    if steps == [] then []
    else
      var last := steps[|steps| - 1];
      Confirmed(steps[..|steps| - 1], configured) + [last] + if last in configured then [CONFIRM] else []
  }

  // The source's list operations

  /** `list.index`, or the length. */
  function Index(steps: Steps, x: StepType): (at: nat)
    ensures at <= |steps| && (at < |steps| <==> x in steps)
    ensures at < |steps| ==> steps[at] == x
    ensures x !in steps[..at]
  {
    if steps == [] then 0 else if steps[0] == x then 0
    else
      assert forall y :: y in steps <==> y == steps[0] || y in steps[1..];
      1 + Index(steps[1..], x)
  }

  lemma InsertedBetween(head: Steps, anchor: StepType, tail: Steps, items: Steps)
    requires anchor !in head
    ensures AfterFirst(head + [anchor] + tail, anchor, items) == head + [anchor] + items + tail
  {
    ConcatAssoc(head, [anchor], tail);
    AnchorFoundAfter(head, [anchor] + tail, anchor, items);
    AnchorLeads(anchor, tail, items);
    ConcatAssoc(head, [anchor] + items, tail);
    ConcatAssoc(head, [anchor], items);
  }

  lemma AfterFirstIsSplice(steps: Steps, anchor: StepType, items: Steps)
    requires anchor in steps
    ensures var at := Index(steps, anchor) + 1;
            AfterFirst(steps, anchor, items) == steps[..at] + items + steps[at..]
  {
    var at := Index(steps, anchor);
    var head, tail := steps[..at], steps[at + 1..];
    InsertedBetween(head, anchor, tail, items);
    assert steps[..at + 1] == head + [anchor];
    assert steps == steps[..at + 1] + tail;
  }

  lemma AnchorLeads(anchor: StepType, tail: Steps, items: Steps)
    ensures AfterFirst([anchor] + tail, anchor, items) == [anchor] + items + tail
  {
    assert ([anchor] + tail)[1..] == tail;
  }

  method InsertE2EStep(steps: Steps, enabled: bool) returns (result: Steps)
    ensures result == WithE2E(steps, enabled)
    ensures !enabled || E2E in steps || TEST !in steps ==> result == steps
    ensures enabled && E2E !in steps && TEST in steps ==>
      var at := Index(steps, TEST) + 1; result == steps[..at] + [E2E] + steps[at..]
  {
    result := steps;
    if E2E in result || !enabled {
      return;
    }
    var at := Index(result, TEST);
    if at == |result| {
      AnchorAbsent(steps, TEST, [E2E]);
    } else {
      AfterFirstIsSplice(steps, TEST, [E2E]);
      result := result[..at + 1] + [E2E] + result[at + 1..];
    }
  }

  /** Integrate before reconcile, each unless it is there. */
  function MergePair(integrated: bool, reconciled: bool): Steps {
    match (integrated, reconciled)
    case (false, false) => [MERGE_INTEGRATE, VERSION_RECONCILE]
    case (false, true) => [MERGE_INTEGRATE]
    case (true, false) => [VERSION_RECONCILE]
    case (true, true) => []
  }

  lemma MergeSplices(steps: Steps)
    ensures var at := if COMMIT in steps then Index(steps, COMMIT) + 1 else |steps|;
            WithMerge(steps) == steps[..at] + MissingMerge(steps) + steps[at..]
  {
    if COMMIT in steps {
      AfterFirstIsSplice(steps, COMMIT, MissingMerge(steps));
    } else {
      AppendingSplices(steps, MissingMerge(steps));
    }
  }

  lemma AppendingSplices(steps: Steps, items: Steps)
    ensures steps[..|steps|] + items + steps[|steps|..] == steps + items
  {
    assert steps[..|steps|] == steps && steps[|steps|..] == [];
  }

  lemma MissingIsPair(steps: Steps)
    ensures MissingMerge(steps) == MergePair(MERGE_INTEGRATE in steps, VERSION_RECONCILE in steps)
  {
  }

  method AppendWorktreeMergeSteps(steps: Steps) returns (result: Steps)
    ensures result == WithMerge(steps)
    ensures var at := if COMMIT in steps then Index(steps, COMMIT) + 1 else |steps|;
            result == steps[..at] + MergePair(MERGE_INTEGRATE in steps, VERSION_RECONCILE in steps) + steps[at..]
  {
    MergeSplices(steps);
    MissingIsPair(steps);
    var mergeSteps := MissingMerge(steps);
    result := steps;
    if mergeSteps == [] {
      NothingInserted(steps, COMMIT);
      assert steps + [] == steps;
      return;
    }
    var at := Index(steps, COMMIT);
    if at == |steps| {
      result := result + mergeSteps;
    } else {
      result := result[..at + 1] + mergeSteps + result[at + 1..];
    }
  }

  method InsertConfirmationSteps(steps: Steps, configured: set<StepType>) returns (result: Steps)
    ensures result == Confirmed(steps, configured)
  {
    if forall step | step in steps :: step !in configured {
      NothingToConfirm(steps, configured);
      return steps;
    }
    result := [];
    for n := 0 to |steps|
      invariant result == Confirmed(steps[..n], configured)
    {
      assert steps[..n + 1][..n] == steps[..n];
      result := result + [steps[n]];
      if steps[n] in configured {
        result := result + [CONFIRM];
      }
    }
    assert steps[..|steps|] == steps;
  }

  lemma {:induction false} NothingToConfirm(steps: Steps, configured: set<StepType>)
    requires forall step | step in steps :: step !in configured
    ensures Confirmed(steps, configured) == steps
  {
    if steps != [] {
      NothingToConfirm(steps[..|steps| - 1], configured);
    }
  }

  // Inserting after an anchor

  lemma {:induction false} AfterFirstMembers(steps: Steps, anchor: StepType, items: Steps)
    ensures forall x :: x in AfterFirst(steps, anchor, items) <==> x in steps || (anchor in steps && x in items)
  {
    if steps != [] {
      AfterFirstMembers(steps[1..], anchor, items);
      assert steps == [steps[0]] + steps[1..];
    }
  }

  lemma {:induction false} AnchorAbsent(steps: Steps, anchor: StepType, items: Steps)
    requires anchor !in steps
    ensures AfterFirst(steps, anchor, items) == steps
  {
    if steps != [] {
      AnchorAbsent(steps[1..], anchor, items);
    }
  }

  lemma {:induction false} AnchorFoundBefore(a: Steps, b: Steps, anchor: StepType, items: Steps)
    requires anchor in a
    ensures AfterFirst(a + b, anchor, items) == AfterFirst(a, anchor, items) + b
  {
    var whole := a + b;
    assert whole[0] == a[0] && whole[1..] == a[1..] + b;
    if a[0] == anchor {
      assert [anchor] + items + (a[1..] + b) == [anchor] + items + a[1..] + b;
    } else {
      AnchorFoundBefore(a[1..], b, anchor, items);
      var tail := AfterFirst(a[1..], anchor, items);
      assert [a[0]] + (tail + b) == [a[0]] + tail + b;
    }
  }

  lemma {:induction false} AnchorFoundAfter(a: Steps, b: Steps, anchor: StepType, items: Steps)
    requires anchor !in a
    ensures AfterFirst(a + b, anchor, items) == a + AfterFirst(b, anchor, items)
  {
    if a == [] {
      assert a + b == b;
    } else {
      var whole := a + b;
      assert whole[0] == a[0] && whole[1..] == a[1..] + b;
      AnchorFoundAfter(a[1..], b, anchor, items);
      var tail := AfterFirst(b, anchor, items);
      assert [a[0]] + (a[1..] + tail) == a + tail;
    }
  }

  /** Inserting `x` after a leading `a` passes through the insertion after a later, different anchor. */
  lemma InsertionsCommuteAtAnchor(rest: Steps, a: StepType, x: Steps, b: StepType, y: Steps)
    requires a != b && b !in x
    ensures AfterFirst(AfterFirst([a] + rest, a, x), b, y) == AfterFirst(AfterFirst([a] + rest, b, y), a, x)
  {
    var steps := [a] + rest;
    assert steps[1..] == rest;
    var tail := AfterFirst(rest, b, y);
    AnchorFoundAfter([a] + x, rest, b, y);
    AnchorFoundAfter([a], rest, b, y);
    var moved := [a] + tail;
    assert moved[1..] == tail;
    assert AfterFirst(moved, a, x) == [a] + x + tail;
  }

  lemma AfterFirstSkips(first: StepType, rest: Steps, anchor: StepType, items: Steps)
    requires first != anchor
    ensures AfterFirst([first] + rest, anchor, items) == [first] + AfterFirst(rest, anchor, items)
  {
    assert ([first] + rest)[1..] == rest;
  }

  /** Insertions after different anchors, neither adding the other's anchor, commute. */
  lemma {:induction false} InsertionsCommute(steps: Steps, a: StepType, x: Steps, b: StepType, y: Steps)
    requires a != b && a !in y && b !in x
    ensures AfterFirst(AfterFirst(steps, a, x), b, y) == AfterFirst(AfterFirst(steps, b, y), a, x)
  {
    if steps != [] {
      var first, rest := steps[0], steps[1..];
      assert steps == [first] + rest;
      if first == a {
        InsertionsCommuteAtAnchor(rest, a, x, b, y);
      } else if first == b {
        InsertionsCommuteAtAnchor(rest, b, y, a, x);
      } else {
        var restA, restB := AfterFirst(rest, a, x), AfterFirst(rest, b, y);
        AfterFirstSkips(first, rest, a, x);
        AfterFirstSkips(first, rest, b, y);
        AfterFirstSkips(first, restA, b, y);
        AfterFirstSkips(first, restB, a, x);
        InsertionsCommute(rest, a, x, b, y);
      }
    }
  }

  lemma {:induction false} WithoutConcat(a: Steps, b: Steps, removed: set<StepType>)
    ensures Without(a + b, removed) == Without(a, removed) + Without(b, removed)
  {
    if a == [] {
      assert a + b == b;
    } else {
      assert (a + b)[1..] == a[1..] + b;
      WithoutConcat(a[1..], b, removed);
    }
  }

  lemma {:induction false} WithoutNone(steps: Steps, removed: set<StepType>)
    requires forall x :: x in steps ==> x !in removed
    ensures Without(steps, removed) == steps
  {
    if steps != [] {
      WithoutNone(steps[1..], removed);
    }
  }

  lemma {:induction false} WithoutAll(steps: Steps, removed: set<StepType>)
    requires forall x :: x in steps ==> x in removed
    ensures Without(steps, removed) == []
  {
    if steps != [] {
      WithoutAll(steps[1..], removed);
    }
  }

  lemma SpliceErases(head: Steps, items: Steps, tail: Steps, removed: set<StepType>)
    requires forall x :: x in head || x in tail ==> x !in removed
    requires forall x :: x in items ==> x in removed
    ensures Without(head + items + tail, removed) == head + tail
  {
    WithoutConcat(head + items, tail, removed);
    WithoutConcat(head, items, removed);
    WithoutNone(head, removed);
    WithoutNone(tail, removed);
    WithoutAll(items, removed);
    assert head + [] == head;
  }

  lemma InsertionErases(steps: Steps, anchor: StepType, items: Steps, removed: set<StepType>)
    requires forall x :: x in steps ==> x !in removed
    requires forall x :: x in items ==> x in removed
    ensures Without(AfterFirst(steps, anchor, items), removed) == steps
  {
    var at := Index(steps, anchor);
    if at == |steps| {
      AnchorAbsent(steps, anchor, items);
      WithoutNone(steps, removed);
    } else {
      AfterFirstIsSplice(steps, anchor, items);
      SpliceErases(steps[..at + 1], items, steps[at + 1..], removed);
      assert steps[..at + 1] + steps[at + 1..] == steps;
    }
  }

  // Main results

  /** Each of the two insertions applied again changes nothing. */
  lemma InsertionsAreIdempotent(steps: Steps, enabled: bool)
    ensures WithE2E(WithE2E(steps, enabled), enabled) == WithE2E(steps, enabled)
    ensures WithMerge(WithMerge(steps)) == WithMerge(steps)
  {
    AfterFirstMembers(steps, TEST, [E2E]);
    if TEST !in steps {
      AnchorAbsent(steps, TEST, [E2E]);
    }
    MergeIsComplete(steps);
    NothingInserted(WithMerge(steps), COMMIT);
  }

  /** After the merge insertion no merge step is missing. */
  lemma MergeIsComplete(steps: Steps)
    ensures MissingMerge(WithMerge(steps)) == []
  {
    AfterFirstMembers(steps, COMMIT, MissingMerge(steps));
    var merged := WithMerge(steps);
    assert MERGE_INTEGRATE in steps || MERGE_INTEGRATE in MissingMerge(steps);
    assert VERSION_RECONCILE in steps || VERSION_RECONCILE in MissingMerge(steps);
    assert MERGE_INTEGRATE in merged && VERSION_RECONCILE in merged;
  }

  lemma {:induction false} NothingInserted(steps: Steps, anchor: StepType)
    ensures AfterFirst(steps, anchor, []) == steps
  {
    if steps != [] {
      NothingInserted(steps[1..], anchor);
    }
  }

  /** The two insertions commute on every sequence, with or without TEST and COMMIT. */
  lemma InsertionsOfBothCommute(steps: Steps, enabled: bool)
    ensures WithMerge(WithE2E(steps, enabled)) == WithE2E(WithMerge(steps), enabled)
  {
    var missing, e2e := MissingMerge(steps), WithE2E(steps, enabled);
    AfterFirstMembers(steps, COMMIT, missing);
    AfterFirstMembers(steps, TEST, [E2E]);
    assert E2E in WithMerge(steps) <==> E2E in steps;
    if E2E !in steps && enabled {
      assert MissingMerge(e2e) == missing && (COMMIT in e2e <==> COMMIT in steps);
      InsertionsCommute(steps, TEST, [E2E], COMMIT, missing);
      if TEST in steps {
        AnchorFoundBefore(steps, missing, TEST, [E2E]);
      } else {
        AnchorAbsent(steps, TEST, [E2E]);
        AnchorAbsent(steps + missing, TEST, [E2E]);
      }
    }
  }

  /** Erasing what was newly inserted gives back the input. */
  lemma InsertionsErase(steps: Steps, enabled: bool)
    ensures E2E !in steps ==> Without(WithE2E(steps, enabled), {E2E}) == steps
    ensures Without(WithMerge(steps), set x | x in MissingMerge(steps)) == steps
  {
    if E2E !in steps {
      InsertionErases(steps, TEST, [E2E], {E2E});
      WithoutNone(steps, {E2E});
    }
    MergeErases(steps, MissingMerge(steps));
  }

  lemma MergeErases(steps: Steps, missing: Steps)
    requires forall x :: x in missing ==> x !in steps
    ensures Without(AfterFirst(steps, COMMIT, missing), set x | x in missing) == steps
    ensures Without(steps + missing, set x | x in missing) == steps
  {
    var removed := set x | x in missing;
    InsertionErases(steps, COMMIT, missing, removed);
    SpliceErases(steps, missing, [], removed);
    assert steps + missing + [] == steps + missing && steps + [] == steps;
  }

  /** `items` sit at `at` of `result`, which is otherwise `steps`. */
  ghost predicate InsertedAt(result: Steps, steps: Steps, at: nat, items: Steps)
    requires at <= |steps|
  {
    && |result| == |steps| + |items|
    && result[..at] == steps[..at]
    && result[at..at + |items|] == items
    && result[at + |items|..] == steps[at..]
  }

  lemma SpliceInserts(steps: Steps, at: nat, items: Steps)
    requires at <= |steps|
    ensures InsertedAt(steps[..at] + items + steps[at..], steps, at, items)
  {
    var head, tail := steps[..at], steps[at..];
    var result := head + items + tail;
    assert result[..at] == head;
    assert result[at..at + |items|] == items;
    assert result[at + |items|..] == tail;
  }

  lemma AfterFirstInserts(steps: Steps, anchor: StepType, items: Steps)
    requires anchor in steps
    ensures InsertedAt(AfterFirst(steps, anchor, items), steps, Index(steps, anchor) + 1, items)
  {
    AfterFirstIsSplice(steps, anchor, items);
    SpliceInserts(steps, Index(steps, anchor) + 1, items);
  }

  /** The e2e step lands right after the first TEST, and nowhere without one. */
  lemma E2ELands(steps: Steps)
    requires E2E !in steps
    ensures TEST in steps ==> InsertedAt(WithE2E(steps, true), steps, Index(steps, TEST) + 1, [E2E])
    ensures TEST !in steps ==> WithE2E(steps, true) == steps
  {
    if TEST in steps {
      AfterFirstInserts(steps, TEST, [E2E]);
    } else {
      AnchorAbsent(steps, TEST, [E2E]);
    }
  }

  /** The missing merge steps land right after the first COMMIT, or at the end. */
  lemma MergeLands(steps: Steps)
    ensures COMMIT in steps ==> InsertedAt(WithMerge(steps), steps, Index(steps, COMMIT) + 1, MissingMerge(steps))
    ensures COMMIT !in steps ==> InsertedAt(WithMerge(steps), steps, |steps|, MissingMerge(steps))
  {
    InsertionLands(steps, COMMIT, MissingMerge(steps));
  }

  lemma InsertionLands(steps: Steps, anchor: StepType, items: Steps)
    ensures anchor in steps ==> InsertedAt(AfterFirst(steps, anchor, items), steps, Index(steps, anchor) + 1, items)
    ensures InsertedAt(steps + items, steps, |steps|, items)
  {
    AppendingInserts(steps, items);
    if anchor in steps {
      AfterFirstInserts(steps, anchor, items);
    }
  }

  lemma AppendingInserts(steps: Steps, items: Steps)
    ensures InsertedAt(steps + items, steps, |steps|, items)
  {
    SpliceInserts(steps, |steps|, items);
    AppendingSplices(steps, items);
  }

  /** Step `n` is directly followed by a confirmation exactly when it is a configured step. */
  predicate ConfirmedAt(result: Steps, n: nat, configured: set<StepType>)
    requires n < |result|
  {
    result[n] != CONFIRM && result[n] in configured <==> n + 1 < |result| && result[n + 1] == CONFIRM
  }

  ghost predicate ConfirmedExactly(result: Steps, configured: set<StepType>) {
    forall n: nat :: n < |result| ==> ConfirmedAt(result, n, configured)
  }

  /** On any sequence each step is confirmed on its own. */
  lemma {:induction false} ConfirmedStepwise(a: Steps, b: Steps, step: StepType, configured: set<StepType>)
    ensures Confirmed(a + b, configured) == Confirmed(a, configured) + Confirmed(b, configured)
    ensures Confirmed([step], configured) == if step in configured then [step, CONFIRM] else [step]
  {
    assert [step][..0] == [];
    if b == [] {
      assert a + b == a;
    } else {
      var whole, init, last := a + b, b[..|b| - 1], b[|b| - 1];
      assert whole[..|whole| - 1] == a + init && whole[|whole| - 1] == last;
      ConfirmedStepwise(a, init, step, configured);
      var more := [last] + if last in configured then [CONFIRM] else [];
      assert Confirmed(whole, configured) == Confirmed(a + init, configured) + more;
      ConcatAssoc(Confirmed(a, configured), Confirmed(init, configured), more);
      assert Confirmed(b, configured) == Confirmed(init, configured) + more;
    }
  }

  lemma ConfirmedExactlyExtends(before: Steps, last: StepType, configured: set<StepType>)
    requires ConfirmedExactly(before, configured)
    requires last != CONFIRM
    ensures ConfirmedExactly(before + [last] + if last in configured then [CONFIRM] else [], configured)
  {
    var more := [last] + if last in configured then [CONFIRM] else [];
    var result := before + more;
    assert result == before + [last] + if last in configured then [CONFIRM] else [];
    forall n: nat | n < |result|
      ensures ConfirmedAt(result, n, configured)
    {
      if n < |before| {
        assert ConfirmedAt(before, n, configured);
        assert result[n] == before[n];
        assert result[n + 1] == if n + 1 < |before| then before[n + 1] else last;
      } else if n == |before| {
        assert result[n] == last;
      }
    }
  }

  lemma LastErases(last: StepType, configured: set<StepType>)
    requires last != CONFIRM
    ensures Without([last] + if last in configured then [CONFIRM] else [], {CONFIRM}) == [last]
  {
    if last in configured {
      SpliceErases([last], [CONFIRM], [], {CONFIRM});
      assert [last] + [CONFIRM] == [last] + [CONFIRM] + [];
    } else {
      WithoutNone([last], {CONFIRM});
    }
  }

  lemma {:induction false} ConfirmationsFollow(steps: Steps, configured: set<StepType>)
    requires CONFIRM !in steps
    ensures var result := Confirmed(steps, configured);
            && ConfirmedExactly(result, configured)
            && (result != [] ==> result[0] != CONFIRM)
            && Without(result, {CONFIRM}) == steps
  {
    if steps != [] {
      var init, last := steps[..|steps| - 1], steps[|steps| - 1];
      ConfirmationsFollow(init, configured);
      var before, more := Confirmed(init, configured), [last] + if last in configured then [CONFIRM] else [];
      assert last != CONFIRM;
      ConfirmedExactlyExtends(before, last, configured);
      assert Confirmed(steps, configured) == before + more;
      WithoutConcat(before, more, {CONFIRM});
      LastErases(last, configured);
    }
  }
}
