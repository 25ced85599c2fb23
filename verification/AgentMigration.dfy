/**
Migration of legacy command lists in `src/tianluo/config.py`: every command gets
a fresh agent name, and the chain of names resolves back to the commands.
*/
module AgentMigration {
  import opened Options
  import opened OrderedMaps
  import opened Sequences

  /** One entry of `claude_commands`: a string, a mapping that may lack `cmd`, or anything else. */
  datatype Entry = Plain(cmd: string) | Table(cmd': Option<string>, priority: Option<int>) | Unusable

  datatype Command = Command(cmd: string, priority: int)

  datatype AgentDef = AgentDef(name: string, agentType: string, cmd: string, priority: int, provider: Option<string>)

  type Registry = map<string, AgentDef>

  function NormalizedEntry(e: Entry): seq<Command> {
    match e
    case Plain(cmd) => [Command(cmd, 0)]
    case Table(Some(cmd), priority) => [Command(cmd, if priority.Some? then priority.value else 0)]
    case _ => []
  }

  function Normalized(entries: seq<Entry>): seq<Command> {
    if entries == [] then []
    else Normalized(entries[..|entries| - 1]) + NormalizedEntry(entries[|entries| - 1])
  }

  method NormalizeCommands(entries: seq<Entry>) returns (commands: seq<Command>)
    ensures commands == Normalized(entries)
  {
    commands := [];
    for n := 0 to |entries|
      invariant commands == Normalized(entries[..n])
    {
      assert entries[..n + 1][..n] == entries[..n];
      match entries[n]
      case Plain(cmd) => commands := commands + [Command(cmd, 0)];
      case Table(Some(cmd), priority) =>
        commands := commands + [Command(cmd, if priority.Some? then priority.value else 0)];
      case _ => assert commands + [] == commands;
    }
    assert entries[..|entries|] == entries;
  }

  lemma {:induction false} NormalizedConcat(a: seq<Entry>, b: seq<Entry>)
    ensures Normalized(a + b) == Normalized(a) + Normalized(b)
  {
    if b == [] {
      assert a + b == a;
    } else {
      var whole, init := a + b, b[..|b| - 1];
      assert whole[..|whole| - 1] == a + init && whole[|whole| - 1] == b[|b| - 1];
      NormalizedConcat(a, init);
      ConcatAssoc(Normalized(a), Normalized(init), NormalizedEntry(b[|b| - 1]));
    }
  }

  /** A string is a command of priority 0, a mapping without a priority too; what has no command is dropped. */
  lemma NormalizedOne(cmd: string, priority: int)
    ensures Normalized([Plain(cmd)]) == [Command(cmd, 0)]
    ensures Normalized([Table(Some(cmd), None)]) == [Command(cmd, 0)]
    ensures Normalized([Table(Some(cmd), Some(priority))]) == [Command(cmd, priority)]
    ensures Normalized([Table(None, Some(priority))]) == Normalized([Table(None, None)]) == Normalized([Unusable]) == []
  {
    assert Normalized([]) == [];
    OneEntry(Plain(cmd));
    OneEntry(Table(Some(cmd), None));
    OneEntry(Table(Some(cmd), Some(priority)));
    OneEntry(Table(None, Some(priority)));
    OneEntry(Table(None, None));
    OneEntry(Unusable);
  }

  lemma OneEntry(e: Entry)
    ensures Normalized([e]) == NormalizedEntry(e)
  {
    assert [e][..0] == [];
  }

  function AsEntries(commands: seq<Command>): seq<Entry> {
    seq(|commands|, n requires 0 <= n < |commands| => Table(Some(commands[n].cmd), Some(commands[n].priority)))
  }

  /** Normalised commands written back as mappings normalise to themselves. */
  lemma {:induction false} NormalizingUndoes(commands: seq<Command>)
    ensures Normalized(AsEntries(commands)) == commands
  {
    if commands != [] {
      var init, last := commands[..|commands| - 1], commands[|commands| - 1];
      NormalizingUndoes(init);
      assert AsEntries(commands)[..|commands| - 1] == AsEntries(init);
      assert commands == init + [last];
    }
  }

  function SlugChar(c: char): char {
    if 'a' <= c <= 'z' || 'A' <= c <= 'Z' || '0' <= c <= '9' || c == '-' || c == '_' then c else '_'
  }

  function Slugify(cmd: string): string {
    if cmd == "" then "agent" else seq(|cmd|, n requires 0 <= n < |cmd| => SlugChar(cmd[n]))
  }

  /** A name is its own slug exactly when it is not empty and has only letters, digits, dashes and underscores. */
  lemma SlugIsNameIff(cmd: string)
    ensures Slugify(cmd) == cmd <==>
      cmd != "" &&
      forall n :: 0 <= n < |cmd| ==>
        'a' <= cmd[n] <= 'z' || 'A' <= cmd[n] <= 'Z' || '0' <= cmd[n] <= '9' || cmd[n] == '-' || cmd[n] == '_'
    ensures Slugify("") == "agent" && Slugify(Slugify(cmd)) == Slugify(cmd)
    ensures cmd != "" ==> |Slugify(cmd)| == |cmd|
    ensures cmd != "" ==> forall n :: 0 <= n < |cmd| ==> Slugify(cmd)[n] == cmd[n] || Slugify(cmd)[n] == '_'
  {
    var slug := Slugify(cmd);
    assert forall n :: 0 <= n < |slug| ==> SlugChar(slug[n]) == slug[n];
    if slug == cmd {
      assert forall n :: 0 <= n < |cmd| ==> SlugChar(cmd[n]) == slug[n];
    }
  }

  function Candidate(base: string, i: nat): string {
    base + "_" + Decimal(i)
  }

  lemma CandidatesDiffer(base: string, i: nat, j: nat)
    requires Candidate(base, i) == Candidate(base, j)
    ensures i == j
  {
    assert Candidate(base, i)[|base| + 1..] == Decimal(i);
    assert Candidate(base, j)[|base| + 1..] == Decimal(j);
    DecimalInjective(i, j);
  }

  /** `name` is the base, or the first numbered variant, that is not taken. */
  ghost predicate IsFirstFree(base: string, existing: set<string>, name: string) {
    name !in existing &&
    if base !in existing then name == base
    else exists i: nat :: IsFirstNumber(base, existing, i) && name == Candidate(base, i)
  }

  ghost predicate IsFirstNumber(base: string, existing: set<string>, i: nat) {
    2 <= i && forall j: nat :: 2 <= j < i ==> Candidate(base, j) in existing
  }

  lemma FirstFreeIsUnique(base: string, existing: set<string>, a: string, b: string)
    requires IsFirstFree(base, existing, a) && IsFirstFree(base, existing, b)
    ensures a == b
  {
    if base in existing {
      var i: nat :| IsFirstNumber(base, existing, i) && a == Candidate(base, i);
      var j: nat :| IsFirstNumber(base, existing, j) && b == Candidate(base, j);
      assert !(i < j) && !(j < i);
    }
  }

  /** Exactly the base and the candidates before number `i` have been tried, and all were taken. */
  ghost predicate Searching(base: string, existing: set<string>, tried: set<string>, i: nat) {
    && 2 <= i && tried <= existing && |tried| == i - 1
    && (forall j: nat :: 2 <= j < i ==> Candidate(base, j) in tried)
    && (forall t :: t in tried ==> t == base || exists j: nat :: 2 <= j < i && t == Candidate(base, j))
  }

  lemma SearchOn(base: string, existing: set<string>, tried: set<string>, i: nat)
    requires Searching(base, existing, tried, i) && Candidate(base, i) in existing
    ensures Searching(base, existing, tried + {Candidate(base, i)}, i + 1)
  {
    var next := Candidate(base, i);
    if next in tried {
      assert |next| > |base|;
      var j: nat :| 2 <= j < i && next == Candidate(base, j);
      CandidatesDiffer(base, i, j);
    }
  }

  lemma SearchIsBounded(base: string, existing: set<string>, tried: set<string>, i: nat)
    requires Searching(base, existing, tried, i)
    ensures |existing - tried| == |existing| + 1 - i
  {
    assert existing == (existing - tried) + tried;
  }

  /**
  The search ends because each number tried takes another name out of the
  existing ones, so the number found is at most their count plus one.
  */
  method UniqueName(base: string, existing: set<string>) returns (name: string)
    ensures IsFirstFree(base, existing, name)
    ensures name == base || exists i: nat :: 2 <= i <= |existing| + 1 && name == Candidate(base, i)
    ensures name !in existing && (base !in existing ==> name == base)
    ensures base in existing ==>
      exists i: nat :: 2 <= i <= |existing| + 1 && name == base + "_" + Decimal(i) &&
        forall j: nat :: 2 <= j < i ==> base + "_" + Decimal(j) in existing
  {
    if base !in existing {
      return base;
    }
    var i: nat := 2;
    ghost var tried: set<string> := {base};
    while Candidate(base, i) in existing
      invariant Searching(base, existing, tried, i)
      decreases |existing| + 1 - i
    {
      SearchOn(base, existing, tried, i);
      tried := tried + {Candidate(base, i)};
      i := i + 1;
      SearchIsBounded(base, existing, tried, i);
    }
    SearchIsBounded(base, existing, tried, i);
    assert IsFirstNumber(base, existing, i);
    name := Candidate(base, i);
    assert forall j: nat :: 2 <= j < i ==> Candidate(base, j) == base + "_" + Decimal(j);
  }

  // The migration of one source

  function AgentFor(name: string, c: Command): AgentDef {
    AgentDef(name, "claude-code", c.cmd, c.priority, Some("anthropic"))
  }

  /** Each command sits in the registry under its own name, in the order of `names`, and nothing else does. */
  ghost predicate Holds(commands: seq<Command>, registry: Registry, names: seq<string>) {
    && |names| == |commands| && NoRepeats(names)
    && (forall n :: 0 <= n < |names| ==> names[n] in registry && registry[names[n]] == AgentFor(names[n], commands[n]))
    && (forall name :: name in registry ==> name in names)
  }

  /** Each name is the first free variant of its command's slug, given the names before it. */
  ghost predicate FreshlyNamed(commands: seq<Command>, names: seq<string>) {
    |names| == |commands| &&
    forall n :: 0 <= n < |names| ==>
      IsFirstFree(Slugify(commands[n].cmd), Taken(names[..n]), names[n])
  }

  function Taken(names: seq<string>): set<string> {
    set name | name in names
  }

  function RegistryToList(registry: Registry, names: seq<string>): seq<AgentDef>
    requires forall name :: name in names ==> name in registry
  {
    seq(|names|, n requires 0 <= n < |names| => registry[names[n]])
  }

  function AgentsToCommands(agents: seq<AgentDef>): seq<Command> {
    seq(|agents|, n requires 0 <= n < |agents| => Command(agents[n].cmd, agents[n].priority))
  }

  lemma HoldsOneMore(commands: seq<Command>, registry: Registry, names: seq<string>, name: string, c: Command)
    requires Holds(commands, registry, names) && name !in registry
    ensures Holds(commands + [c], registry[name := AgentFor(name, c)], names + [name])
  {
    assert forall n :: 0 <= n < |names| ==> names[n] in registry;
  }

  lemma HoldsMore(commands: seq<Command>, n: nat, registry: Registry, names: seq<string>, name: string)
    requires n < |commands| && Holds(commands[..n], registry, names) && FreshlyNamed(commands[..n], names)
    requires IsFirstFree(Slugify(commands[n].cmd), registry.Keys, name) && registry.Keys == Taken(names)
    ensures Holds(commands[..n + 1], registry[name := AgentFor(name, commands[n])], names + [name])
    ensures FreshlyNamed(commands[..n + 1], names + [name])
  {
    HoldsOneMore(commands[..n], registry, names, name, commands[n]);
    assert commands[..n + 1] == commands[..n] + [commands[n]];
    var names' := names + [name];
    forall m | 0 <= m < |names'|
      ensures IsFirstFree(Slugify(commands[..n + 1][m].cmd), Taken(names'[..m]), names'[m])
    {
      if m < n {
        assert names'[..m] == names[..m] && commands[..n + 1][m] == commands[..n][m];
      } else {
        assert names'[..n] == names;
      }
    }
  }

  /**
  Every command comes to sit under its own fresh name; resolving the chain of
  names and converting back gives the normalised commands, in the same order.
  */
  method MigrateClaudeCommands(entries: seq<Entry>) returns (registry: Registry, defaults: seq<string>)
    ensures Holds(Normalized(entries), registry, defaults)
    ensures FreshlyNamed(Normalized(entries), defaults)
    ensures AgentsToCommands(RegistryToList(registry, defaults)) == Normalized(entries)
    ensures forall name :: name in registry ==>
      registry[name].name == name && registry[name].agentType == "claude-code" &&
      registry[name].provider == Some("anthropic")
  {
    var commands := NormalizeCommands(entries);
    registry, defaults := map[], [];
    for n := 0 to |commands|
      invariant Holds(commands[..n], registry, defaults)
      invariant FreshlyNamed(commands[..n], defaults)
    {
      assert registry.Keys == Taken(defaults);
      var name := UniqueName(Slugify(commands[n].cmd), registry.Keys);
      HoldsMore(commands, n, registry, defaults, name);
      registry := registry[name := AgentFor(name, commands[n])];
      defaults := defaults + [name];
    }
    assert commands[..|commands|] == commands;
  }

  /** Names are generated, not chosen: the same commands always get the same names. */
  lemma {:induction false} NamesAreDetermined(commands: seq<Command>, a: seq<string>, b: seq<string>)
    requires FreshlyNamed(commands, a) && FreshlyNamed(commands, b)
    ensures a == b
  {
    if commands != [] {
      var last := |commands| - 1;
      assert forall n :: 0 <= n < last ==> a[..last][..n] == a[..n] && b[..last][..n] == b[..n];
      NamesAreDetermined(commands[..last], a[..last], b[..last]);
      FirstFreeIsUnique(Slugify(commands[last].cmd), Taken(a[..last]), a[last], b[last]);
      assert a == a[..last] + [a[last]] && b == b[..last] + [b[last]];
    }
  }

  // A migrated source merged into an earlier one

  /** Migrated entries never override a name that is already registered. */
  function Merged(earlier: Registry, migrated: Registry): Registry {
    migrated + earlier
  }

  /** A name the migration generated already means another command. */
  ghost predicate Shadowed(earlier: Registry, migrated: Registry, name: string)
    requires name in migrated
  {
    name in earlier &&
    (earlier[name].cmd != migrated[name].cmd || earlier[name].priority != migrated[name].priority)
  }

  /**
  After the merge the chain still gives the commands exactly when none of the
  generated names was already registered for a different command.
  */
  lemma MergedRoundTrips(earlier: Registry, entries: seq<Entry>, migrated: Registry, defaults: seq<string>)
    requires Holds(Normalized(entries), migrated, defaults)
    ensures AgentsToCommands(RegistryToList(Merged(earlier, migrated), defaults)) == Normalized(entries) <==>
      forall name :: name in migrated ==> !Shadowed(earlier, migrated, name)
  {
    var commands := Normalized(entries);
    var resolved := AgentsToCommands(RegistryToList(Merged(earlier, migrated), defaults));
    forall n | 0 <= n < |commands|
      ensures resolved[n] == commands[n] <==> !Shadowed(earlier, migrated, defaults[n])
    {
    }
    if forall name :: name in migrated ==> !Shadowed(earlier, migrated, name) {
      assert forall n :: 0 <= n < |commands| ==> resolved[n] == commands[n];
    }
    if resolved == commands {
      forall name | name in migrated
        ensures !Shadowed(earlier, migrated, name)
      {
        var n :| 0 <= n < |defaults| && defaults[n] == name;
        assert resolved[n] == commands[n];
      }
    }
  }

  /**
  A global list with the command "a b" and a project list with "a_b" make the
  same name, so the project's chain runs the global command.
  */
  lemma SlugsCollideAcrossSources()
    ensures Slugify("a b") == Slugify("a_b") == "a_b"
    ensures var earlier := map["a_b" := AgentFor("a_b", Command("a b", 0))];
            var migrated := map["a_b" := AgentFor("a_b", Command("a_b", 0))];
            && Holds(Normalized([Plain("a_b")]), migrated, ["a_b"])
            && AgentsToCommands(RegistryToList(Merged(earlier, migrated), ["a_b"])) == [Command("a b", 0)]
  {
    assert [Plain("a_b")][..0] == [];
    assert Normalized([Plain("a_b")]) == [Command("a_b", 0)];
    assert Slugify("a b")[1] == '_' && Slugify("a_b")[1] == '_';
  }
}
