/**
Model-name canonicalisation of `src/tianluo/pricing.py`, on ASCII names.
*/
module PricingNames {
  import opened Options

  // Characters and trimming

  predicate Space(c: char) {
    c == ' ' || '\t' <= c <= '\r' || '\U{1C}' <= c <= '\U{1F}'
  }

  /** What `str.strip` takes off, as far as it is ASCII. */
  const WHITE_SPACE: string :=
    [' ', '\t', '\n', '\U{0B}', '\U{0C}', '\r', '\U{1C}', '\U{1D}', '\U{1E}', '\U{1F}']

  lemma SpaceIsWhite(c: char)
    ensures Space(c) <==> c in WHITE_SPACE
  {
  }

  predicate IsDigit(c: char) {
    '0' <= c <= '9'
  }

  function LowerChar(c: char): char {
    if 'A' <= c <= 'Z' then c - 'A' + 'a' else c
  }

  function Lower(s: string): (r: string)
    ensures |r| == |s| && forall n :: 0 <= n < |s| ==> r[n] == LowerChar(s[n])
  {
    seq(|s|, n requires 0 <= n < |s| => LowerChar(s[n]))
  }

  function StripLeft(s: string): string {
    if s != "" && Space(s[0]) then StripLeft(s[1..]) else s
  }

  function StripRight(s: string): string {
    if s != "" && Space(s[|s| - 1]) then StripRight(s[..|s| - 1]) else s
  }

  /** `s.strip().lower()` */
  function Normal(s: string): string {
    Lower(StripRight(StripLeft(s)))
  }

  predicate EndsInSpace(s: string) {
    s != "" && Space(s[|s| - 1])
  }

  // Date suffixes

  predicate Digits(s: string, from: nat, to: nat)
    requires to <= |s|
  {
    forall n :: from <= n < to ==> IsDigit(s[n])
  }

  /** A snapshot date as a suffix: `-dddddddd` or `-dddd-dd-dd`. */
  predicate Date(s: string) {
    || (|s| == 9 && s[0] == '-' && Digits(s, 1, 9))
    || (|s| == 11 && s[0] == s[5] == s[8] == '-' && Digits(s, 1, 5) && Digits(s, 6, 8) && Digits(s, 9, 11))
  }

  /** The length of the date `s` ends in, or 0. */
  function DateLength(s: string): (n: nat)
    ensures n <= |s| && (n == 0 || Date(s[|s| - n..]))
  {
    if |s| >= 9 && Date(s[|s| - 9..]) then 9 else if |s| >= 11 && Date(s[|s| - 11..]) then 11 else 0
  }

  /** Python's `$` also matches before one final newline: the part of `s` a date may end. */
  function Core(s: string): (r: string)
    ensures r <= s
  {
    if s != "" && s[|s| - 1] == '\n' then s[..|s| - 1] else s
  }

  function WithoutOneDate(s: string): (r: string)
    ensures |r| == |s| - DateLength(Core(s))
  {
    var core := Core(s);
    core[..|core| - DateLength(core)] + s[|core|..]
  }

  function WithoutDates(s: string): string
    decreases |s|
  {
    if DateLength(Core(s)) == 0 then s else WithoutDates(WithoutOneDate(s))
  }

  // The alias table

  function CurrentClaudeAlias(name: string): Option<string> {
    if name in ["opus-5", "claude-5-opus", "claude-opus-5-1"] then Some("claude-opus-5")
    else if name in ["sonnet-5", "claude-5-sonnet", "claude-sonnet-5-1"] then Some("claude-sonnet-5")
    else if name in ["haiku-4-5", "claude-5-haiku", "claude-haiku-4-5-1"] then Some("claude-haiku-4-5")
    else if name in ["fable-5", "claude-5-fable", "claude-fable-5-1"] then Some("claude-fable-5")
    else None
  }

  function EarlierClaudeAlias(name: string): Option<string> {
    if name in ["claude-opus-4-8-1", "claude-opus-4-7", "claude-opus-4-6"] then Some("claude-opus-4-8")
    else if name in ["claude-sonnet-4-6-1", "claude-sonnet-4-5"] then Some("claude-sonnet-4-6")
    else if name in ["claude-opus-4", "claude-3-opus", "claude-opus-4-0"] then Some("claude-opus-4-1")
    else if name in ["claude-3-5-sonnet", "claude-3-7-sonnet"] then Some("claude-sonnet-4")
    else None
  }

  function GptAlias(name: string): Option<string> {
    if name in ["gpt-5-1", "chatgpt-5"] then Some("gpt-5")
    else if name in ["gpt-5-mini-1", "chatgpt-5-mini"] then Some("gpt-5-mini")
    else if name in ["gpt-5-nano-1", "chatgpt-5-nano"] then Some("gpt-5-nano")
    else if name in ["gpt-4o-1", "chatgpt-4o-latest"] then Some("gpt-4o")
    else if name in ["gpt-4o-mini-1", "chatgpt-4o-mini"] then Some("gpt-4o-mini")
    else None
  }

  /** The canonical name an alias stands for. */
  function AliasOf(name: string): Option<string> {
    if CurrentClaudeAlias(name).Some? then CurrentClaudeAlias(name)
    else if EarlierClaudeAlias(name).Some? then EarlierClaudeAlias(name)
    else GptAlias(name)
  }

  /** The table as it is written: canonical names with their aliases. */
  const MODEL_ALIASES: seq<(string, seq<string>)> := [
    ("claude-opus-5", ["opus-5", "claude-5-opus", "claude-opus-5-1"]),
    ("claude-sonnet-5", ["sonnet-5", "claude-5-sonnet", "claude-sonnet-5-1"]),
    ("claude-haiku-4-5", ["haiku-4-5", "claude-5-haiku", "claude-haiku-4-5-1"]),
    ("claude-fable-5", ["fable-5", "claude-5-fable", "claude-fable-5-1"]),
    ("claude-opus-4-8", ["claude-opus-4-8-1", "claude-opus-4-7", "claude-opus-4-6"]),
    ("claude-sonnet-4-6", ["claude-sonnet-4-6-1", "claude-sonnet-4-5"]),
    ("claude-opus-4-1", ["claude-opus-4", "claude-3-opus", "claude-opus-4-0"]),
    ("claude-sonnet-4", ["claude-3-5-sonnet", "claude-3-7-sonnet"]),
    ("gpt-5", ["gpt-5-1", "chatgpt-5"]),
    ("gpt-5-mini", ["gpt-5-mini-1", "chatgpt-5-mini"]),
    ("gpt-5-nano", ["gpt-5-nano-1", "chatgpt-5-nano"]),
    ("gpt-4o", ["gpt-4o-1", "chatgpt-4o-latest"]),
    ("gpt-4o-mini", ["gpt-4o-mini-1", "chatgpt-4o-mini"])
  ]

  /** The alias belongs to the canonical name in row `row` of the table. */
  predicate Lists(row: nat, alias: string, canonical: string) {
    row < |MODEL_ALIASES| && MODEL_ALIASES[row].0 == canonical && alias in MODEL_ALIASES[row].1
  }

  // Canonicalisation

  predicate Mappable(name: string) {
    name != "" && '$' !in name && '{' !in name
  }

  function Resolved(base: string): Option<string> {
    if base == "" then None else if AliasOf(base).Some? then AliasOf(base) else Some(base)
  }

  /** The name with all dates taken off, or nothing if it cannot be mapped. */
  function Undated(name: string): string {
    if Mappable(name) then WithoutDates(name) else ""
  }

  function Base(model: Option<string>): string {
    if model.Some? then Undated(Normal(model.value)) else ""
  }

  function Canonical(model: Option<string>): Option<string> {
    Resolved(Base(model))
  }

  method CanonicalizePricingModel(model: Option<string>) returns (canonical: Option<string>)
    ensures canonical == Canonical(model)
  {
    if model.None? || model.value == "" {
      assert Normal("") == "";
      return None;
    }
    var name := Normal(model.value);
    if name == "" || '$' in name || '{' in name {
      return None;
    }
    if AliasOf(name).Some? {
      AliasesArePlain(name);
      PlainEndHasNoDate(name);
      return AliasOf(name);
    }
    var base := name;
    while DateLength(Core(base)) > 0
      invariant WithoutDates(base) == WithoutDates(name)
      invariant |base| == |name| ==> base == name
      invariant |base| <= |name|
      decreases |base|
    {
      base := WithoutOneDate(base);
    }
    if base == "" {
      return None;
    }
    if base != name {
      if AliasOf(base).Some? {
        return AliasOf(base);
      }
      return Some(base);
    }
    return Some(name);
  }

  // The names in the table

  /** Too few digits at the end for a date, and no space there. */
  predicate PlainEnd(name: string) {
    |name| >= 2 && !Space(name[|name| - 1]) && !(IsDigit(name[|name| - 2]) && IsDigit(name[|name| - 1]))
  }

  /** Only small letters, digits and dashes. */
  predicate PlainText(name: string) {
    forall n :: 0 <= n < |name| ==> name[n] == '-' || IsDigit(name[n]) || 'a' <= name[n] <= 'z'
  }

  lemma CurrentClaudeNames(name: string)
    requires CurrentClaudeAlias(name).Some?
    ensures PlainEnd(name)
    ensures PlainEnd(CurrentClaudeAlias(name).value) && PlainText(CurrentClaudeAlias(name).value)
  {
  }

  lemma CurrentClaudeIsFinal(name: string)
    requires CurrentClaudeAlias(name).Some?
    ensures AliasOf(CurrentClaudeAlias(name).value) == None
  {
  }

  lemma EarlierClaudeNames(name: string)
    requires EarlierClaudeAlias(name).Some?
    ensures PlainEnd(name)
    ensures PlainEnd(EarlierClaudeAlias(name).value) && PlainText(EarlierClaudeAlias(name).value)
  {
  }

  lemma EarlierClaudeIsFinal(name: string)
    requires EarlierClaudeAlias(name).Some?
    ensures AliasOf(EarlierClaudeAlias(name).value) == None
  {
  }

  lemma GptNames(name: string)
    requires GptAlias(name).Some?
    ensures PlainEnd(name)
    ensures PlainEnd(GptAlias(name).value) && PlainText(GptAlias(name).value)
  {
  }

  lemma GptIsFinal(name: string)
    requires GptAlias(name).Some?
    ensures AliasOf(GptAlias(name).value) == None
  {
  }

  /** Aliases have no date, and what they stand for is a canonical name as it is. */
  lemma AliasesArePlain(name: string)
    requires AliasOf(name).Some?
    ensures PlainEnd(name)
    ensures PlainEnd(AliasOf(name).value) && PlainText(AliasOf(name).value)
    ensures AliasOf(AliasOf(name).value) == None
  {
    if CurrentClaudeAlias(name).Some? {
      CurrentClaudeNames(name);
      CurrentClaudeIsFinal(name);
    } else if EarlierClaudeAlias(name).Some? {
      EarlierClaudeNames(name);
      EarlierClaudeIsFinal(name);
    } else {
      GptNames(name);
      GptIsFinal(name);
    }
  }

  lemma PlainEndHasNoDate(name: string)
    requires PlainEnd(name)
    ensures WithoutDates(name) == name
  {
    var last := |name| - 1;
    assert name[last] != '\n' && Core(name) == name;
    if |name| >= 9 {
      var end := name[|name| - 9..];
      assert end[7] == name[|name| - 2] && end[8] == name[|name| - 1];
    }
    if |name| >= 11 {
      var end := name[|name| - 11..];
      assert end[9] == name[|name| - 2] && end[10] == name[|name| - 1];
    }
  }

  /** The reverse lookup finds only what the table lists. */
  lemma AliasIsListed(name: string)
    requires AliasOf(name).Some?
    ensures exists row: nat :: Lists(row, name, AliasOf(name).value)
  {
    if CurrentClaudeAlias(name).Some? {
      assert Lists(0, name, AliasOf(name).value) || Lists(1, name, AliasOf(name).value) ||
             Lists(2, name, AliasOf(name).value) || Lists(3, name, AliasOf(name).value);
    } else if EarlierClaudeAlias(name).Some? {
      assert Lists(4, name, AliasOf(name).value) || Lists(5, name, AliasOf(name).value) ||
             Lists(6, name, AliasOf(name).value) || Lists(7, name, AliasOf(name).value);
    } else {
      assert Lists(8, name, AliasOf(name).value) || Lists(9, name, AliasOf(name).value) ||
             Lists(10, name, AliasOf(name).value) || Lists(11, name, AliasOf(name).value) ||
             Lists(12, name, AliasOf(name).value);
    }
  }

  /** And everything the table lists. */
  lemma ListedIsAlias(row: nat, alias: string, canonical: string)
    requires Lists(row, alias, canonical)
    ensures AliasOf(alias) == Some(canonical)
  {
  }

  lemma NewestClaudeIsPlain(row: nat, alias: string, canonical: string)
    requires Lists(row, alias, canonical) && 0 <= row < 2
    ensures PlainText(alias)
  {
  }

  lemma NewClaudeIsPlain(row: nat, alias: string, canonical: string)
    requires Lists(row, alias, canonical) && 2 <= row < 4
    ensures PlainText(alias)
  {
  }

  lemma LaterClaudeIsPlain(row: nat, alias: string, canonical: string)
    requires Lists(row, alias, canonical) && 4 <= row < 6
    ensures PlainText(alias)
  {
  }

  lemma OlderClaudeIsPlain(row: nat, alias: string, canonical: string)
    requires Lists(row, alias, canonical) && 6 <= row < 8
    ensures PlainText(alias)
  {
  }

  lemma GptFiveIsPlain(row: nat, alias: string, canonical: string)
    requires Lists(row, alias, canonical) && 8 <= row < 11
    ensures PlainText(alias)
  {
  }

  lemma GptFourIsPlain(row: nat, alias: string, canonical: string)
    requires Lists(row, alias, canonical) && 11 <= row < 13
    ensures PlainText(alias)
  {
  }

  /** Aliases have only small letters, digits and dashes. */
  lemma ListedIsPlain(row: nat, alias: string, canonical: string)
    requires Lists(row, alias, canonical)
    ensures PlainText(alias)
  {
    if row < 2 {
      NewestClaudeIsPlain(row, alias, canonical);
    } else if row < 4 {
      NewClaudeIsPlain(row, alias, canonical);
    } else if row < 6 {
      LaterClaudeIsPlain(row, alias, canonical);
    } else if row < 8 {
      OlderClaudeIsPlain(row, alias, canonical);
    } else if row < 11 {
      GptFiveIsPlain(row, alias, canonical);
    } else {
      GptFourIsPlain(row, alias, canonical);
    }
  }
}
