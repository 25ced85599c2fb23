/**
The price catalog of `src/tianluo/pricing.py` and its project overrides.
*/
module PricingCatalogs {
  import opened Options
  import opened PricingNames

  datatype Category = UNCACHED_INPUT | OUTPUT | CACHE_READ | CACHE_CREATION | CACHE_CREATION_5M | CACHE_CREATION_1H

  /** A price entry; a category that is absent has no known price. */
  type Prices = map<Category, real>

  type Entries = map<string, Prices>

  /** A configured value as the validation tells values apart. */
  datatype RawPrice = Boolean | Number(value: real) | NotFinite | NotANumber

  datatype RawTable = NotAMapping | Table(rows: seq<(string, RawPrice)>)

  /** One configured model: a raw name, or after canonicalisation a canonical one, with its table. */
  type Override = (Option<string>, RawTable)

  // Reading one override

  function ValidPrice(raw: RawPrice): Option<real> {
    if raw.Number? && raw.value >= 0.0 then Some(raw.value) else None
  }

  function CategoryNamed(key: string): Option<Category> {
    if key in ["uncached_input", "input"] then Some(UNCACHED_INPUT)
    else if key == "output" then Some(OUTPUT)
    else if key == "cache_read" then Some(CACHE_READ)
    else if key in ["cache_creation", "cache_write"] then Some(CACHE_CREATION)
    else if key == "cache_creation_5m" then Some(CACHE_CREATION_5M)
    else if key == "cache_creation_1h" then Some(CACHE_CREATION_1H)
    else None
  }

  /** The value a category is stored under, which is also its first key. */
  function KeyOf(category: Category): string {
    match category
    case UNCACHED_INPUT => "uncached_input"
    case OUTPUT => "output"
    case CACHE_READ => "cache_read"
    case CACHE_CREATION => "cache_creation"
    case CACHE_CREATION_5M => "cache_creation_5m"
    case CACHE_CREATION_1H => "cache_creation_1h"
  }

  /** A key names a category when it is its value, or one of the two friendly names. */
  lemma KeysOfCategories(key: string, category: Category)
    ensures CategoryNamed(key) == Some(category) <==>
      key == KeyOf(category) ||
      (key == "input" && category == UNCACHED_INPUT) || (key == "cache_write" && category == CACHE_CREATION)
  {
  }

  function CategoryOf(key: string): Option<Category> {
    CategoryNamed(Normal(key))
  }

  function WithRow(patch: Prices, row: (string, RawPrice)): Option<Prices> {
    if CategoryOf(row.0).None? then Some(patch)
    else if ValidPrice(row.1).None? then None
    else Some(patch[CategoryOf(row.0).value := ValidPrice(row.1).value])
  }

  /** The prices given by the first rows, the last one for a category winning; none if a known one is invalid. */
  function Patch(rows: seq<(string, RawPrice)>): Option<Prices> {
    if rows == [] then Some(map[])
    else
      var before := Patch(rows[..|rows| - 1]);
      if before.None? then None else WithRow(before.value, rows[|rows| - 1])
  }

  function Patched(entries: Entries, canonical: string, patch: Prices): Entries {
    if patch == map[] then entries
    else entries[canonical := (if canonical in entries then entries[canonical] else map[]) + patch]
  }

  function Canonicalised(overrides: seq<Override>): (keyed: seq<Override>)
    ensures |keyed| == |overrides|
    ensures forall n :: 0 <= n < |keyed| ==> keyed[n] == (Canonical(overrides[n].0), overrides[n].1)
  {
    seq(|overrides|, n requires 0 <= n < |overrides| => (Canonical(overrides[n].0), overrides[n].1))
  }

  /** One canonicalised override; none if it is refused. */
  function MergedOne(entries: Entries, override: Override): Option<Entries> {
    if override.0.None? then Some(entries)
    else if override.1.NotAMapping? || Patch(override.1.rows).None? then None
    else Some(Patched(entries, override.0.value, Patch(override.1.rows).value))
  }

  /** The entries after canonicalised overrides; none once one of them is refused. */
  function Merged(entries: Entries, overrides: seq<Override>): Option<Entries> {
    if overrides == [] then Some(entries)
    else
      var before := Merged(entries, overrides[..|overrides| - 1]);
      if before.None? then None else MergedOne(before.value, overrides[|overrides| - 1])
  }

  lemma {:induction false} PatchStaysRefused(rows: seq<(string, RawPrice)>, n: nat)
    requires n <= |rows| && Patch(rows[..n]).None?
    ensures Patch(rows).None?
    decreases |rows| - n
  {
    if n < |rows| {
      assert rows[..n + 1][..n] == rows[..n];
      PatchStaysRefused(rows, n + 1);
    } else {
      assert rows[..n] == rows;
    }
  }

  lemma {:induction false} MergedStaysRefused(entries: Entries, overrides: seq<Override>, n: nat)
    requires n <= |overrides| && Merged(entries, overrides[..n]).None?
    ensures Merged(entries, overrides).None?
    decreases |overrides| - n
  {
    if n < |overrides| {
      assert overrides[..n + 1][..n] == overrides[..n];
      MergedStaysRefused(entries, overrides, n + 1);
    } else {
      assert overrides[..n] == overrides;
    }
  }

  // The source's loops

  method ReadPatch(rows: seq<(string, RawPrice)>) returns (result: Option<Prices>)
    ensures result == Patch(rows)
  {
    var patch: Prices := map[];
    for n := 0 to |rows|
      invariant Patch(rows[..n]) == Some(patch)
    {
      assert rows[..n + 1][..n] == rows[..n];
      var (key, raw) := rows[n];
      var category := CategoryOf(key);
      if category.Some? {
        var price := ValidPrice(raw);
        if price.None? {
          PatchStaysRefused(rows, n + 1);
          return None;
        }
        patch := patch[category.value := price.value];
      }
    }
    assert rows[..|rows|] == rows;
    return Some(patch);
  }

  method ApplyOverride(entries: Entries, canonical: string, table: RawTable) returns (result: Option<Entries>)
    ensures result == MergedOne(entries, (Some(canonical), table))
  {
    if table.NotAMapping? {
      return None;
    }
    var patch := ReadPatch(table.rows);
    if patch.None? {
      return None;
    }
    var merged := entries;
    if patch.value != map[] {
      var base := if canonical in entries then entries[canonical] else map[];
      merged := entries[canonical := base + patch.value];
    }
    return Some(merged);
  }

  method WithOverrides(entries: Entries, overrides: seq<Override>) returns (result: Option<Entries>)
    ensures result == Merged(entries, Canonicalised(overrides))
  {
    ghost var keyed := Canonicalised(overrides);
    var merged := entries;
    for n := 0 to |overrides|
      invariant Merged(entries, keyed[..n]) == Some(merged)
    {
      MergedSnoc(entries, keyed, n);
      var canonical := CanonicalizePricingModel(overrides[n].0);
      assert keyed[n] == (canonical, overrides[n].1);
      if canonical.Some? {
        var next := ApplyOverride(merged, canonical.value, overrides[n].1);
        if next.None? {
          MergedStaysRefused(entries, keyed, n + 1);
          return None;
        }
        merged := next.value;
      }
    }
    assert keyed[..|overrides|] == keyed;
    return Some(merged);
  }

  lemma MergedSnoc(entries: Entries, overrides: seq<Override>, n: nat)
    requires n < |overrides| && Merged(entries, overrides[..n]).Some?
    ensures Merged(entries, overrides[..n + 1]) == MergedOne(Merged(entries, overrides[..n]).value, overrides[n])
  {
    assert overrides[..n + 1][..n] == overrides[..n];
  }

  method Get(entries: Entries, model: Option<string>) returns (prices: Option<Prices>)
    ensures prices == Entry(entries, Canonical(model))
  {
    var canonical := CanonicalizePricingModel(model);
    if canonical.Some? && canonical.value in entries {
      return Some(entries[canonical.value]);
    }
    return None;
  }

  function Entry(entries: Entries, canonical: Option<string>): Option<Prices> {
    if canonical.Some? && canonical.value in entries then Some(entries[canonical.value]) else None
  }

  function PriceFor(entries: Entries, canonical: Option<string>, category: Category): Option<real> {
    var entry := Entry(entries, canonical);
    if entry.Some? && category in entry.value then Some(entry.value[category]) else None
  }

  // What overrides mean

  /** Row `at` prices the category. */
  predicate Gives(rows: seq<(string, RawPrice)>, at: nat, category: Category) {
    at < |rows| && CategoryOf(rows[at].0) == Some(category)
  }

  ghost predicate LastGives(rows: seq<(string, RawPrice)>, at: nat, category: Category) {
    Gives(rows, at, category) && forall later :: at < later < |rows| ==> !Gives(rows, later, category)
  }

  ghost predicate Priced(rows: seq<(string, RawPrice)>, category: Category) {
    exists at: nat :: Gives(rows, at, category)
  }

  /** Every row with a known category holds a valid price. */
  ghost predicate Readable(rows: seq<(string, RawPrice)>) {
    forall at: nat, category :: Gives(rows, at, category) ==> rows[at].1.Number? && rows[at].1.value >= 0.0
  }

  /** All rows given for one model under any spelling, in order. */
  function RowsFor(overrides: seq<Override>, canonical: string): seq<(string, RawPrice)> {
    if overrides == [] then []
    else
      var last := overrides[|overrides| - 1];
      RowsFor(overrides[..|overrides| - 1], canonical) +
      if last.0 == Some(canonical) && last.1.Table? then last.1.rows else []
  }

  ghost predicate Acceptable(override: Override) {
    override.0.Some? ==> override.1.Table? && Readable(override.1.rows)
  }

  lemma GivesBefore(rows: seq<(string, RawPrice)>, n: nat, at: nat, category: Category)
    requires n <= |rows| && at < n
    ensures Gives(rows[..n], at, category) <==> Gives(rows, at, category)
  {
  }

  lemma {:induction false} PatchIffReadable(rows: seq<(string, RawPrice)>)
    ensures Patch(rows).Some? <==> Readable(rows)
  {
    if rows != [] {
      PatchIffReadable(rows[..|rows| - 1]);
      ReadableStep(rows);
    }
  }

  /** A patch holds exactly the categories given. */
  lemma {:induction false} PatchHoldsPriced(rows: seq<(string, RawPrice)>, category: Category)
    requires Patch(rows).Some?
    ensures category in Patch(rows).value <==> Priced(rows, category)
  {
    if rows != [] {
      PatchHoldsPriced(rows[..|rows| - 1], category);
      PricedStep(rows, category);
    }
  }

  /** For each it holds the last price given. */
  lemma {:induction false} PatchHoldsLast(rows: seq<(string, RawPrice)>, at: nat, category: Category)
    requires Patch(rows).Some? && LastGives(rows, at, category)
    ensures category in Patch(rows).value && rows[at].1 == Number(Patch(rows).value[category])
    ensures Patch(rows).value[category] >= 0.0
  {
    var n := |rows| - 1;
    if at < n {
      assert !Gives(rows, n, category);
      forall later | at <= later < n
        ensures Gives(rows[..n], later, category) <==> Gives(rows, later, category)
      {
        GivesBefore(rows, n, later, category);
      }
      PatchHoldsLast(rows[..n], at, category);
    }
  }

  lemma ReadableStep(rows: seq<(string, RawPrice)>)
    requires rows != []
    ensures var n := |rows| - 1;
            Readable(rows) <==> Readable(rows[..n]) && (CategoryOf(rows[n].0).Some? ==> ValidPrice(rows[n].1).Some?)
  {
    var n := |rows| - 1;
    forall at: nat, category | at < n
      ensures Gives(rows[..n], at, category) <==> Gives(rows, at, category)
    {
      GivesBefore(rows, n, at, category);
    }
    if CategoryOf(rows[n].0).Some? {
      assert Gives(rows, n, CategoryOf(rows[n].0).value);
    }
  }

  lemma PricedStep(rows: seq<(string, RawPrice)>, category: Category)
    requires rows != []
    ensures var n := |rows| - 1;
            Priced(rows, category) <==> Priced(rows[..n], category) || CategoryOf(rows[n].0) == Some(category)
  {
    var n := |rows| - 1;
    forall at: nat | at < n
      ensures Gives(rows[..n], at, category) <==> Gives(rows, at, category)
    {
      GivesBefore(rows, n, at, category);
    }
    if CategoryOf(rows[n].0) == Some(category) {
      assert Gives(rows, n, category);
    }
  }

  lemma WithRowAfter(first: Prices, second: Prices, row: (string, RawPrice))
    requires WithRow(second, row).Some?
    ensures WithRow(first + second, row) == Some(first + WithRow(second, row).value)
  {
    if CategoryOf(row.0).Some? {
      var category, price := CategoryOf(row.0).value, ValidPrice(row.1).value;
      assert (first + second)[category := price] == first + second[category := price];
    }
  }

  lemma {:induction false} PatchConcat(a: seq<(string, RawPrice)>, b: seq<(string, RawPrice)>)
    requires Patch(a).Some? && Patch(b).Some?
    ensures Patch(a + b) == Some(Patch(a).value + Patch(b).value)
  {
    if b == [] {
      assert a + b == a;
      assert Patch(a).value + map[] == Patch(a).value;
    } else {
      var n := |b| - 1;
      PatchConcat(a, b[..n]);
      var whole := a + b;
      assert whole[..|whole| - 1] == a + b[..n] && whole[|whole| - 1] == b[n];
      WithRowAfter(Patch(a).value, Patch(b[..n]).value, b[n]);
    }
  }

  /** Overrides are accepted exactly when every mappable one is a table of valid prices. */
  lemma {:induction false} AcceptedIff(entries: Entries, overrides: seq<Override>)
    ensures Merged(entries, overrides).Some? <==> forall n :: 0 <= n < |overrides| ==> Acceptable(overrides[n])
  {
    if overrides != [] {
      var n := |overrides| - 1;
      AcceptedIff(entries, overrides[..n]);
      assert forall k :: 0 <= k < n ==> overrides[..n][k] == overrides[k];
      if overrides[n].1.Table? {
        PatchIffReadable(overrides[n].1.rows);
      }
    }
  }

  function EntryWith(entry: Option<Prices>, patch: Prices): Option<Prices> {
    if patch == map[] then entry else Some((if entry.Some? then entry.value else map[]) + patch)
  }

  /** All overrides of one model act as one patch made of all its rows; a model without rows keeps its entry. */
  lemma {:induction false} OverridesAreOnePatch(entries: Entries, overrides: seq<Override>, canonical: string)
    requires Merged(entries, overrides).Some?
    ensures Patch(RowsFor(overrides, canonical)).Some?
    ensures Entry(Merged(entries, overrides).value, Some(canonical)) ==
            EntryWith(Entry(entries, Some(canonical)), Patch(RowsFor(overrides, canonical)).value)
  {
    if overrides != [] {
      var n := |overrides| - 1;
      var init, last := overrides[..n], overrides[n];
      OverridesAreOnePatch(entries, init, canonical);
      var before, merged := RowsFor(init, canonical), Merged(entries, init).value;
      if last.0 == Some(canonical) {
        PatchConcat(before, last.1.rows);
        PatchesCompose(Entry(entries, Some(canonical)), Patch(before).value, Patch(last.1.rows).value);
        PatchedEntry(merged, canonical, Patch(last.1.rows).value, canonical);
      } else {
        assert RowsFor(overrides, canonical) == before + [] == before;
        if last.0.Some? {
          PatchedEntry(merged, last.0.value, Patch(last.1.rows).value, canonical);
        }
      }
    }
  }

  lemma PatchedEntry(entries: Entries, patched: string, patch: Prices, canonical: string)
    ensures Entry(Patched(entries, patched, patch), Some(canonical)) ==
      if patched == canonical then EntryWith(Entry(entries, Some(canonical)), patch)
      else Entry(entries, Some(canonical))
  {
  }

  lemma PatchesCompose(entry: Option<Prices>, first: Prices, second: Prices)
    ensures EntryWith(EntryWith(entry, first), second) == EntryWith(entry, first + second)
  {
    assert map[] + second == second && first + map[] == first;
    if second != map[] {
      var category :| category in second;
      assert category in first + second;
    }
    if first != map[] && second != map[] {
      var base := if entry.Some? then entry.value else map[];
      assert base + first + second == base + (first + second);
    }
  }

  lemma LastKeyedWins(entries: Entries, overrides: seq<Override>, canonical: string, category: Category)
    requires Merged(entries, overrides).Some?
    ensures var rows := RowsFor(overrides, canonical);
            var price := PriceFor(Merged(entries, overrides).value, Some(canonical), category);
            && (!Priced(rows, category) ==> price == PriceFor(entries, Some(canonical), category))
            && (forall at: nat :: LastGives(rows, at, category) ==>
                  rows[at].1.Number? && price == Some(rows[at].1.value))
  {
    OverridesAreOnePatch(entries, overrides, canonical);
    var rows := RowsFor(overrides, canonical);
    PatchHoldsPriced(rows, category);
    forall at: nat | LastGives(rows, at, category)
      ensures category in Patch(rows).value && rows[at].1 == Number(Patch(rows).value[category])
    {
      PatchHoldsLast(rows, at, category);
    }
  }

  /**
  After accepted overrides any spelling of a model is priced at the last value
  given for it under any spelling, and otherwise as before.
  */
  lemma LastOverrideWins(entries: Entries, overrides: seq<Override>, model: Option<string>, category: Category)
    ensures var merged, canonical := Merged(entries, Canonicalised(overrides)), Canonical(model);
            merged.Some? && canonical.Some? ==>
              var rows := RowsFor(Canonicalised(overrides), canonical.value);
              var price := PriceFor(merged.value, canonical, category);
              && (!Priced(rows, category) ==> price == PriceFor(entries, canonical, category))
              && (forall at: nat :: LastGives(rows, at, category) ==>
                    rows[at].1.Number? && price == Some(rows[at].1.value))
  {
    var canonical := Canonical(model);
    if canonical.Some? && Merged(entries, Canonicalised(overrides)).Some? {
      LastKeyedWins(entries, Canonicalised(overrides), canonical.value, category);
    }
  }
}
