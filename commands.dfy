/** classes/command.ts: the table of chat commands. Commands are keyed by
    their lowercased name; aliases map a lowercased alias to the primary
    name. Registration refuses a duplicate name or a conflicting alias, but
    what was registered before the conflict stays. */
module Commands {
  import opened Wrappers
  import opened Strings
  import opened Got

  /** What a command's `run` does with its arguments: completes or throws.
      What it sends is outside the model. */
  datatype RunOutcome = Completed | Threw

  datatype CommandModule = CommandModule(
    name: string,
    description: string,
    aliases: Option<seq<string>>,
    run: seq<string> -> RunOutcome)

  /** One exported value of the commands package, as `#isCommandModule`
      sees it. */
  datatype Export =
    | NonObject
    | NullValue
    | ObjectValue(hasName: bool, hasRun: bool, runIsFunction: bool, definition: CommandModule)

  /** `#isCommandModule`: a non-null object with a `name` and a `run` that
      is a function. */
  predicate IsCommandModule(e: Export) {
    e.ObjectValue? && e.hasName && e.hasRun && e.runIsFunction
  }

  function DuplicateNameMessage(name: string): string {
    "Duplicate command name registered: " + name
  }

  function AliasConflictMessage(alias: string, name: string): string {
    "Duplicate alias/command name conflict: " + alias + " (for command " + name + ")"
  }

  const RunFailedMessage: string := "An error occurred while running this command."

  function MissingMessage(name: string): string {
    "Command \"" + name + "\" does not exist."
  }

  /** The alias loop of `#add`: each alias is lowercased and refused when it
      is already a command name or an alias; the loop stops at the first
      refusal and keeps what it added before. */
  function AddAliases(commands: set<string>, aliases: map<string, string>, list: seq<string>, name: string)
    : (map<string, string>, Option<string>)
    decreases |list|
  {
    if list == [] then (aliases, None)
    else
      var a := Lower(list[0]);
      if a in commands || a in aliases then (aliases, Some(AliasConflictMessage(a, name)))
      else AddAliases(commands, aliases[a := name], list[1..], name)
  }

  /** No alias of `list` clashes with a command, an existing alias or an
      earlier alias of the list. */
  predicate AliasesFree(commands: set<string>, aliases: map<string, string>, list: seq<string>) {
    forall i :: 0 <= i < |list| ==>
      && Lower(list[i]) !in commands && Lower(list[i]) !in aliases
      && forall j :: 0 <= j < i ==> Lower(list[j]) != Lower(list[i])
  }

  /** The alias loop fails exactly when some alias clashes; it never removes
      or rebinds an existing alias, and every alias it adds names the
      command being registered. */
  lemma {:induction false} AddAliasesSpec(commands: set<string>, aliases: map<string, string>, list: seq<string>, name: string)
    ensures AddAliases(commands, aliases, list, name).1.None? <==> AliasesFree(commands, aliases, list)
    ensures var r := AddAliases(commands, aliases, list, name).0;
            && (forall a :: a in aliases ==> a in r && r[a] == aliases[a])
            && (forall a :: a in r && a !in aliases ==> r[a] == name)
    decreases |list|
  {
    if list != [] {
      var a := Lower(list[0]);
      if !(a in commands || a in aliases) {
        var rest := list[1..];
        AddAliasesSpec(commands, aliases[a := name], rest, name);
        if AliasesFree(commands, aliases[a := name], rest) {
          forall i | 0 <= i < |list|
            ensures Lower(list[i]) !in commands && Lower(list[i]) !in aliases
            ensures forall j :: 0 <= j < i ==> Lower(list[j]) != Lower(list[i])
          {
            if i > 0 {
              assert list[i] == rest[i - 1];
              forall j | 0 <= j < i ensures Lower(list[j]) != Lower(list[i]) {
                if j > 0 {
                  assert list[j] == rest[j - 1];
                }
              }
            }
          }
        }
      } else {
        assert !(Lower(list[0]) !in commands && Lower(list[0]) !in aliases);
      }
    }
  }

  /** No rollback: every alias before the first clash is registered for the
      command, whether or not a later alias clashes. */
  lemma {:induction false} AliasesBeforeClashKept(commands: set<string>, aliases: map<string, string>, list: seq<string>,
                                                  name: string, k: nat)
    requires k < |list| && AliasesFree(commands, aliases, list[..k + 1])
    ensures var r := AddAliases(commands, aliases, list, name).0;
            Lower(list[k]) in r && r[Lower(list[k])] == name
    decreases |list|
  {
    var a := Lower(list[0]);
    assert list[..k + 1][0] == list[0];
    if k == 0 {
      AddAliasesSpec(commands, aliases[a := name], list[1..], name);
    } else {
      var rest := list[1..];
      forall i | 0 <= i < |rest[..k]|
        ensures Lower(rest[..k][i]) !in commands && Lower(rest[..k][i]) !in aliases[a := name]
        ensures forall j :: 0 <= j < i ==> Lower(rest[..k][j]) != Lower(rest[..k][i])
      {
        assert rest[..k][i] == list[..k + 1][i + 1];
        assert list[..k + 1][0] == list[0];
        forall j | 0 <= j < i ensures Lower(rest[..k][j]) != Lower(rest[..k][i]) {
          assert rest[..k][j] == list[..k + 1][j + 1];
        }
      }
      assert rest[..k] == rest[..(k - 1) + 1];
      AliasesBeforeClashKept(commands, aliases[a := name], rest, name, k - 1);
      assert rest[k - 1] == list[k];
    }
  }

  /** A sequence without repeats has as many elements as its set. */
  lemma {:induction false} DistinctCard(s: seq<string>)
    requires Distinct(s)
    ensures |set x | x in s| == |s|
    decreases |s|
  {
    if s != [] {
      var front := s[..|s| - 1];
      assert Distinct(front);
      DistinctCard(front);
      assert (set x | x in s) == (set x | x in front) + {s[|s| - 1]};
      assert s[|s| - 1] !in front;
    }
  }

  /** The three tables of the registry, as a value. */
  datatype Table = Table(commands: map<string, CommandModule>, order: seq<string>, aliases: map<string, string>)

  /** What `#add` does to the tables: a duplicate name is refused with
      nothing changed; otherwise the command is registered and its aliases
      are added up to the first clash. */
  function AddTo(t: Table, m: CommandModule): (Table, Option<string>) {
    var name := Lower(m.name);
    if name in t.commands then (t, Some(DuplicateNameMessage(name)))
    else
      var list := if m.aliases.Some? then m.aliases.value else [];
      var r := AddAliases(t.commands.Keys + {name}, t.aliases, list, name);
      (Table(t.commands[name := m], t.order + [name], r.0), r.1)
  }

  /** What `importData` does to the tables: the exports are taken in order,
      those that are not command modules are passed over, and the first
      error of `#add` ends the import with what was registered so far. */
  function ImportFrom(t: Table, exports: seq<Export>): (Table, Option<string>)
    decreases |exports|
  {
    if exports == [] then (t, None)
    else if !IsCommandModule(exports[0]) then ImportFrom(t, exports[1..])
    else
      var a := AddTo(t, exports[0].definition);
      if a.1.Some? then a else ImportFrom(a.0, exports[1..])
  }

  /** `#add` never unregisters a command. */
  lemma AddToKeeps(t: Table, m: CommandModule)
    ensures t.commands.Keys <= AddTo(t, m).0.commands.Keys
    ensures AddTo(t, m).1.None? ==> Lower(m.name) in AddTo(t, m).0.commands
  {
  }

  /** An import never unregisters a command. */
  lemma {:induction false} ImportKeeps(t: Table, exports: seq<Export>)
    ensures t.commands.Keys <= ImportFrom(t, exports).0.commands.Keys
    decreases |exports|
  {
    if exports != [] {
      if !IsCommandModule(exports[0]) {
        ImportKeeps(t, exports[1..]);
      } else {
        var a := AddTo(t, exports[0].definition);
        AddToKeeps(t, exports[0].definition);
        if a.1.None? {
          ImportKeeps(a.0, exports[1..]);
        }
      }
    }
  }

  /** An import that reports no error has registered the name of every
      command module among the exports. */
  lemma {:induction false} ImportRegistersAll(t: Table, exports: seq<Export>, i: nat)
    requires i < |exports| && IsCommandModule(exports[i]) && ImportFrom(t, exports).1.None?
    ensures Lower(exports[i].definition.name) in ImportFrom(t, exports).0.commands
    decreases |exports|
  {
    if !IsCommandModule(exports[0]) {
      ImportRegistersAll(t, exports[1..], i - 1);
    } else {
      var a := AddTo(t, exports[0].definition);
      AddToKeeps(t, exports[0].definition);
      if i == 0 {
        ImportKeeps(a.0, exports[1..]);
      } else {
        ImportRegistersAll(a.0, exports[1..], i - 1);
      }
    }
  }

  /** An import that reports an error stopped at a command module whose
      `#add` failed: the modules before it were all added cleanly, and the
      result is that failed `#add`'s, error message included. */
  lemma {:induction false} ImportStopsAtFirstError(t: Table, exports: seq<Export>)
    requires ImportFrom(t, exports).1.Some?
    ensures exists k :: 0 <= k < |exports| && IsCommandModule(exports[k])
                        && ImportFrom(t, exports[..k]).1.None?
                        && ImportFrom(t, exports) == AddTo(ImportFrom(t, exports[..k]).0, exports[k].definition)
    decreases |exports|
  {
    var rest := exports[1..];
    if !IsCommandModule(exports[0]) {
      ImportStopsAtFirstError(t, rest);
      var k :| 0 <= k < |rest| && IsCommandModule(rest[k]) && ImportFrom(t, rest[..k]).1.None?
               && ImportFrom(t, rest) == AddTo(ImportFrom(t, rest[..k]).0, rest[k].definition);
      assert exports[..k + 1][1..] == rest[..k];
      assert exports[k + 1] == rest[k];
    } else {
      var a := AddTo(t, exports[0].definition);
      if a.1.Some? {
        assert exports[..0] == [];
      } else {
        ImportStopsAtFirstError(a.0, rest);
        var k :| 0 <= k < |rest| && IsCommandModule(rest[k]) && ImportFrom(a.0, rest[..k]).1.None?
                 && ImportFrom(a.0, rest) == AddTo(ImportFrom(a.0, rest[..k]).0, rest[k].definition);
        assert exports[..k + 1][0] == exports[0];
        assert exports[..k + 1][1..] == rest[..k];
        assert exports[k + 1] == rest[k];
      }
    }
  }

  class Commands {
    /** `#commands`, keyed by lowercased name. */
    var commands: map<string, CommandModule>
    /** The keys in insertion order, the order `values()` yields them in. */
    var order: seq<string>
    /** `#aliases`: lowercased alias to primary name. */
    var aliases: map<string, string>

    /** The registry's tables. */
    function State(): Table
      reads this
    {
      Table(commands, order, aliases)
    }

    ghost predicate Valid()
      reads this
    {
      && Distinct(order)
      && (forall k :: k in commands <==> k in order)
      && forall a :: a in aliases ==> aliases[a] in commands
    }

    constructor ()
      ensures Valid() && commands == map[] && order == [] && aliases == map[]
    {
      commands := map[];
      order := [];
      aliases := map[];
    }

    /** `#add`. A duplicate name is refused before anything changes; after
        the name is registered, an alias clash stops the loop and leaves the
        command and its earlier aliases in place. */
    method Add(m: CommandModule) returns (error: Option<string>)
      requires Valid()
      modifies this
      ensures Valid()
      ensures Lower(m.name) in old(commands) ==>
                error == Some(DuplicateNameMessage(Lower(m.name)))
                && commands == old(commands) && order == old(order) && aliases == old(aliases)
      ensures Lower(m.name) !in old(commands) ==>
                var list := if m.aliases.Some? then m.aliases.value else [];
                var r := AddAliases(old(commands).Keys + {Lower(m.name)}, old(aliases), list, Lower(m.name));
                && commands == old(commands)[Lower(m.name) := m] && order == old(order) + [Lower(m.name)]
                && aliases == r.0 && error == r.1
    {
      var name := Lower(m.name);
      if name in commands {
        return Some(DuplicateNameMessage(name));
      }
      commands := commands[name := m];
      order := order + [name];
      error := None;
      if m.aliases.Some? {
        var list := m.aliases.value;
        assert commands.Keys == old(commands).Keys + {name};
        assert list[0..] == list;
        var i := 0;
        while i < |list|
          invariant 0 <= i <= |list|
          invariant Valid()
          invariant commands == old(commands)[name := m] && order == old(order) + [name]
          invariant AddAliases(commands.Keys, aliases, list[i..], name)
                    == AddAliases(old(commands).Keys + {name}, old(aliases), list, name)
        {
          var alias := Lower(list[i]);
          assert list[i..][0] == list[i] && list[i..][1..] == list[i + 1..];
          if alias in commands || alias in aliases {
            return Some(AliasConflictMessage(alias, name));
          }
          aliases := aliases[alias := name];
          i := i + 1;
        }
      }
    }

    /** `get`: the lowercased name is looked up among the aliases first (an
        alias naming the empty command name is falsy and falls back to the
        name itself), then among the commands. */
    function Get(name: string): (r: Option<CommandModule>)
      reads this
      ensures var n := Lower(name);
              var primary := if n in aliases && aliases[n] != "" then aliases[n] else n;
              r.Some? <==> primary in commands
    {
      var nameLower := Lower(name);
      var primaryName := if nameLower in aliases && aliases[nameLower] != "" then aliases[nameLower] else nameLower;
      if primaryName in commands then Some(commands[primaryName]) else None
    }

    /** Names that differ only in ASCII case find the same command. */
    lemma GetCaseInsensitive(n1: string, n2: string)
      requires Lower(n1) == Lower(n2)
      ensures Get(n1) == Get(n2)
    {
    }

    /** A name that is both a command and an alias of another command
        resolves to the aliased command: the alias wins. */
    lemma AliasShadowsCommand(name: string)
      requires Valid()
      requires Lower(name) in commands && Lower(name) in aliases && aliases[Lower(name)] != ""
      ensures Get(name) == Some(commands[aliases[Lower(name)]])
    {
    }

    /** After a clean registration the command is found by its name and by
        every alias, in any case. */
    lemma FoundAfterAdd(m: CommandModule, alias: string)
      requires Valid() && m.name != ""
      requires Lower(m.name) in commands && commands[Lower(m.name)] == m
      requires Lower(alias) in aliases && aliases[Lower(alias)] == Lower(m.name)
      ensures Get(m.name) == Some(m) || Lower(m.name) in aliases
      ensures Get(alias) == Some(m)
    {
      assert Lower(m.name) != "";
    }

    /** `all`: every registered command once, in registration order; aliases
        are never listed. */
    function All(): (r: seq<CommandModule>)
      reads this
      requires Valid()
      ensures |r| == |order| && forall i :: 0 <= i < |order| ==> r[i] == commands[order[i]]
    {
      seq(|order|, i requires 0 <= i < |order| && order[i] in commands reads this => commands[order[i]])
    }

    /** As many commands are listed as there are registered names. */
    lemma AllCountsCommands()
      requires Valid()
      ensures |All()| == |commands|
    {
      DistinctCard(order);
      assert commands.Keys == set x | x in order;
    }

    /** `checkAndRun`: an unknown name gets the "does not exist" reply and
        runs nothing; a known command runs with the arguments, and a throw
        is answered with the generic error reply. `ran` is whether a command
        ran; `reply` is the ephemeral message sent, if any. */
    method CheckAndRun(name: string, args: seq<string>) returns (ran: bool, reply: Option<string>)
      ensures ran <==> Get(name).Some?
      ensures !ran ==> reply == Some(MissingMessage(name))
      ensures ran ==> reply == if Get(name).value.run(args) == Threw then Some(RunFailedMessage) else None
    {
      var command := Get(name);
      if command.None? {
        return false, Some(MissingMessage(name));
      }
      var outcome := command.value.run(args);
      if outcome == Threw {
        return true, Some(RunFailedMessage);
      }
      return true, None;
    }

    /** `importData`: add every export that looks like a command, in order;
        the first error thrown by `#add` ends the import. */
    method ImportData(exports: seq<Export>) returns (error: Option<string>)
      requires Valid()
      modifies this
      ensures Valid()
      ensures (State(), error) == ImportFrom(old(State()), exports)
      ensures old(commands).Keys <= commands.Keys
      ensures error.None? ==>
                forall i :: 0 <= i < |exports| && IsCommandModule(exports[i]) ==> Lower(exports[i].definition.name) in commands
    {
      var i := 0;
      while i < |exports|
        invariant 0 <= i <= |exports|
        invariant Valid()
        invariant ImportFrom(State(), exports[i..]) == ImportFrom(old(State()), exports)
      {
        assert exports[i..][0] == exports[i] && exports[i..][1..] == exports[i + 1..];
        if IsCommandModule(exports[i]) {
          ghost var before := State();
          error := Add(exports[i].definition);
          assert (State(), error) == AddTo(before, exports[i].definition);
          if error.Some? {
            ImportKeeps(old(State()), exports);
            return;
          }
        }
        i := i + 1;
      }
      error := None;
      ImportKeeps(old(State()), exports);
      forall j | 0 <= j < |exports| && IsCommandModule(exports[j])
        ensures Lower(exports[j].definition.name) in commands
      {
        ImportRegistersAll(old(State()), exports, j);
      }
    }
  }
}
