/// The serialisable description of a command tree (`CommandSpec`) and the
/// conversions between it and a command of the command library. A command
/// is a value here: its subcommands are those `Commands()` lists, in that
/// order, its local flags those `LocalNonPersistentFlags()` visits, and its
/// run functions are named by numbers.
module PluginCommand {
  import opened Wrappers
  import opened PluginFlag

  datatype Command = Command(
    use: string,
    aliases: seq<string>,
    suggestFor: seq<string>,
    short: string,
    long: string,
    example: string,
    deprecated: string,
    annotations: map<string, string>,
    version: string,
    traverseChildren: bool,
    hidden: bool,
    disableAutoGenTag: bool,
    disableFlagsInUseLine: bool,
    disableSuggestions: bool,
    suggestionsMinimumDistance: int,
    localFlags: seq<Flag>,
    persistentFlags: seq<Flag>,
    run: Option<nat>,
    runE: Option<nat>,
    commands: seq<Command>)

  datatype CommandSpec = CommandSpec(
    use: string,
    aliases: seq<string>,
    suggestFor: seq<string>,
    short: string,
    long: string,
    example: string,
    deprecated: string,
    annotations: map<string, string>,
    version: string,
    traverseChildren: bool,
    hidden: bool,
    disableAutoGenTag: bool,
    disableFlagsInUseLine: bool,
    disableSuggestions: bool,
    suggestionsMinimumDistance: int,
    localFlags: seq<FlagSpec>,
    persistentFlags: seq<FlagSpec>,
    runnable: bool,
    subCommands: seq<CommandSpec>)

  /// The hidden command that prints a plugin's description.
  const DiscoveryCommandName: string := "_plugin_commands"

  /// `Command.Name()`: the first word of `Use`.
  function Name(use: string): (r: string)
    ensures |r| <= |use| && r == use[..|r|] && ' ' !in r
    ensures |r| < |use| ==> use[|r|] == ' '
  {
    if use == [] || use[0] == ' ' then "" else [use[0]] + Name(use[1..])
  }

  /// Subcommands the description leaves out: the discovery command itself
  /// and the generated completion command.
  predicate Skipped(use: string) {
    Name(use) == DiscoveryCommandName || Name(use) == "completion"
  }

  /// `Command.Runnable()`.
  predicate Runnable(c: Command) {
    c.run.Some? || c.runE.Some?
  }

  /// The subcommands that are described, in order.
  function Kept(cs: seq<Command>): (r: seq<Command>)
    ensures forall x :: x in r <==> x in cs && !Skipped(x.use)
    ensures |r| <= |cs|
  {
    if cs == [] then []
    else if Skipped(cs[0].use) then Kept(cs[1..])
    else [cs[0]] + Kept(cs[1..])
  }

  /// The description of a command: every scalar field as it is, the specs
  /// of its flags, whether it runs, and the descriptions of its kept
  /// subcommands.
  function SpecOf(c: Command): CommandSpec
    decreases c, 1
  {
    SpecWith(c, SpecsOf(c.localFlags), SpecsOf(c.persistentFlags), SubSpecs(c))
  }

  /// The scalar fields of `c` and whether it runs, with the given flag
  /// specs and subcommand specs.
  function SpecWith(c: Command, local: seq<FlagSpec>, persistent: seq<FlagSpec>, subs: seq<CommandSpec>): CommandSpec
  {
    CommandSpec(c.use, c.aliases, c.suggestFor, c.short, c.long, c.example, c.deprecated, c.annotations,
                c.version, c.traverseChildren, c.hidden, c.disableAutoGenTag, c.disableFlagsInUseLine,
                c.disableSuggestions, c.suggestionsMinimumDistance, local, persistent, Runnable(c), subs)
  }

  /// The descriptions of the kept subcommands, in order.
  function SubSpecs(c: Command): (r: seq<CommandSpec>)
    ensures |r| == |Kept(c.commands)|
    decreases c, 0
  {
    var subs := Kept(c.commands);
    seq(|subs|, i requires 0 <= i < |subs| => assert subs[i] in c.commands; SpecOf(subs[i]))
  }

  /// `SpecFromCommand`.
  method SpecFromCommand(c: Command) returns (r: CommandSpec)
    ensures r == SpecOf(c)
    decreases c
  {
    var local := SpecsFromFlagset(c.localFlags);
    var persistent := SpecsFromFlagset(c.persistentFlags);
    var subs: seq<CommandSpec> := [];
    ghost var done: seq<Command> := [];
    for i := 0 to |c.commands|
      invariant done == Kept(c.commands[..i])
      invariant subs == SpecsOfCommands(done)
    {
      KeptStep(c.commands, i);
      var sub := c.commands[i];
      if Skipped(sub.use) {
        continue;
      }
      var spec := SpecFromCommand(sub);
      SpecsOfCommandsAppend(done, sub);
      subs := subs + [spec];
      done := done + [sub];
    }
    assert c.commands[..|c.commands|] == c.commands;
    FlagSpecsOf(c.localFlags, local);
    FlagSpecsOf(c.persistentFlags, persistent);
    r := SpecWith(c, local, persistent, subs);
  }

  /// The descriptions of a list of commands, one for one.
  function SpecsOfCommands(cs: seq<Command>): (r: seq<CommandSpec>)
    ensures |r| == |cs|
  {
    seq(|cs|, i requires 0 <= i < |cs| => SpecOf(cs[i]))
  }

  lemma SpecsOfCommandsAppend(cs: seq<Command>, c: Command)
    ensures SpecsOfCommands(cs + [c]) == SpecsOfCommands(cs) + [SpecOf(c)]
  {
  }

  lemma FlagSpecsOf(flags: seq<Flag>, specs: seq<FlagSpec>)
    requires |specs| == |flags| && forall i :: 0 <= i < |flags| ==> specs[i] == SpecFromFlag(flags[i])
    ensures specs == SpecsOf(flags)
  {
  }

  lemma KeptStep(cs: seq<Command>, i: nat)
    requires i < |cs|
    ensures Kept(cs[..i + 1]) == Kept(cs[..i]) + if Skipped(cs[i].use) then [] else [cs[i]]
  {
    assert cs[..i + 1] == cs[..i] + [cs[i]];
    KeptAppend(cs[..i], [cs[i]]);
  }

  lemma {:induction false} KeptAppend(a: seq<Command>, b: seq<Command>)
    ensures Kept(a + b) == Kept(a) + Kept(b)
  {
    if a != [] {
      assert (a + b)[1..] == a[1..] + b;
      KeptAppend(a[1..], b);
    } else {
      assert a + b == b;
    }
  }

  /// The command a spec describes, with `override` as the run function of
  /// every runnable command.
  function CommandOf(s: CommandSpec, override: nat): Command
    decreases s, 1
  {
    Command(s.use, s.aliases, s.suggestFor, s.short, s.long, s.example, s.deprecated, s.annotations,
            s.version, s.traverseChildren, s.hidden, s.disableAutoGenTag, s.disableFlagsInUseLine,
            s.disableSuggestions, s.suggestionsMinimumDistance,
            FlagsOf(s.localFlags), FlagsOf(s.persistentFlags), None,
            if s.runnable then Some(override) else None, SubCommandsOf(s, override))
  }

  /// The commands of the subcommand specs, in order.
  function SubCommandsOf(s: CommandSpec, override: nat): (r: seq<Command>)
    ensures |r| == |s.subCommands|
    decreases s, 0
  {
    seq(|s.subCommands|, i requires 0 <= i < |s.subCommands| => CommandOf(s.subCommands[i], override))
  }

  /// `CommandSpec.ToCommand`: a new command with the scalar fields, then
  /// each persistent flag, each local flag and each subcommand added in
  /// turn, and the run function set when the spec is runnable.
  method ToCommand(s: CommandSpec, override: nat) returns (c: Command)
    ensures c == CommandOf(s, override)
    decreases s
  {
    var persistent: seq<Flag> := [];
    for i := 0 to |s.persistentFlags|
      invariant persistent == FlagsOf(s.persistentFlags[..i])
    {
      persistent := persistent + [ToFlag(s.persistentFlags[i])];
    }
    var local: seq<Flag> := [];
    for i := 0 to |s.localFlags|
      invariant local == FlagsOf(s.localFlags[..i])
    {
      local := local + [ToFlag(s.localFlags[i])];
    }
    var subs: seq<Command> := [];
    for i := 0 to |s.subCommands|
      invariant |subs| == i
      invariant forall k :: 0 <= k < i ==> subs[k] == CommandOf(s.subCommands[k], override)
    {
      assert s.subCommands[i] in s.subCommands;
      var sub := ToCommand(s.subCommands[i], override);
      subs := subs + [sub];
    }
    assert s.persistentFlags[..|s.persistentFlags|] == s.persistentFlags;
    assert s.localFlags[..|s.localFlags|] == s.localFlags;
    c := Command(s.use, s.aliases, s.suggestFor, s.short, s.long, s.example, s.deprecated, s.annotations,
                 s.version, s.traverseChildren, s.hidden, s.disableAutoGenTag, s.disableFlagsInUseLine,
                 s.disableSuggestions, s.suggestionsMinimumDistance, local, persistent, None, None, subs);
    if s.runnable {
      c := c.(runE := Some(override));
    }
  }

  /// No spec in the tree uses a skipped name.
  predicate NothingSkipped(s: CommandSpec)
    decreases s
  {
    !Skipped(s.use) && forall i :: 0 <= i < |s.subCommands| ==> NothingSkipped(s.subCommands[i])
  }

  /// A description never holds the discovery or completion command, at any
  /// depth below the top.
  lemma {:induction false} SpecOmitsSkipped(c: Command)
    ensures forall i :: 0 <= i < |SpecOf(c).subCommands| ==> NothingSkipped(SpecOf(c).subCommands[i])
    decreases c
  {
    var subs := Kept(c.commands);
    forall i | 0 <= i < |subs|
      ensures NothingSkipped(SpecOf(subs[i]))
    {
      assert subs[i] in c.commands;
      SpecOmitsSkipped(subs[i]);
    }
  }

  /// A spec without skipped names at or below its top survives the trip
  /// through a command unchanged, whatever the run function is.
  lemma {:induction false} SpecRoundTrip(s: CommandSpec, override: nat)
    requires NothingSkipped(s)
    ensures SpecOf(CommandOf(s, override)) == s
    decreases s, 1
  {
    SubSpecsRoundTrip(s, override);
    SpecsRoundTrip(s.localFlags);
    SpecsRoundTrip(s.persistentFlags);
  }

  lemma {:induction false} SubSpecsRoundTrip(s: CommandSpec, override: nat)
    requires NothingSkipped(s)
    ensures SubSpecs(CommandOf(s, override)) == s.subCommands
    decreases s, 0
  {
    var subs := SubCommandsOf(s, override);
    assert CommandOf(s, override).commands == subs;
    forall i | 0 <= i < |subs|
      ensures !Skipped(subs[i].use)
    {
      assert subs[i] == CommandOf(s.subCommands[i], override);
      assert NothingSkipped(s.subCommands[i]);
    }
    KeptAll(subs);
    forall i | 0 <= i < |subs|
      ensures SpecOf(subs[i]) == s.subCommands[i]
    {
      assert s.subCommands[i] in s.subCommands;
      SpecRoundTrip(s.subCommands[i], override);
    }
  }

  lemma {:induction false} KeptAll(cs: seq<Command>)
    requires forall i :: 0 <= i < |cs| ==> !Skipped(cs[i].use)
    ensures Kept(cs) == cs
  {
    if cs != [] {
      KeptAll(cs[1..]);
    }
  }

  /// What the trip from a command through its description gives: no
  /// skipped subcommands, flags whose values are the typed placeholders,
  /// and `override` as the only run function, on exactly the runnable
  /// commands.
  function Normalised(c: Command, override: nat): Command
    decreases c, 1
  {
    c.(localFlags := Placeholders(c.localFlags),
       persistentFlags := Placeholders(c.persistentFlags),
       run := None,
       runE := if Runnable(c) then Some(override) else None,
       commands := NormalisedSubs(c, override))
  }

  /// The normalised kept subcommands, in order.
  function NormalisedSubs(c: Command, override: nat): (r: seq<Command>)
    ensures |r| == |Kept(c.commands)|
    decreases c, 0
  {
    var subs := Kept(c.commands);
    seq(|subs|, i requires 0 <= i < |subs| => assert subs[i] in c.commands; Normalised(subs[i], override))
  }

  /// The flags with placeholder values of the same types, as not parsed.
  function Placeholders(flags: seq<Flag>): (r: seq<Flag>)
    ensures |r| == |flags|
  {
    seq(|flags|, i requires 0 <= i < |flags| => flags[i].(value := TypedValue(ValueType(flags[i].value)), changed := false))
  }

  /// Flags to specs to flags gives the placeholders.
  lemma PlaceholdersRoundTrip(flags: seq<Flag>)
    ensures FlagsOf(SpecsOf(flags)) == Placeholders(flags)
  {
  }

  /// Command to description to command gives the normalised command.
  lemma {:induction false} CommandRoundTrip(c: Command, override: nat)
    ensures CommandOf(SpecOf(c), override) == Normalised(c, override)
    decreases c, 1
  {
    SubCommandsRoundTrip(c, override);
    PlaceholdersRoundTrip(c.localFlags);
    PlaceholdersRoundTrip(c.persistentFlags);
  }

  lemma {:induction false} SubCommandsRoundTrip(c: Command, override: nat)
    ensures SubCommandsOf(SpecOf(c), override) == NormalisedSubs(c, override)
    decreases c, 0
  {
    var subs := Kept(c.commands);
    var specs := SubSpecs(c);
    assert SpecOf(c).subCommands == specs;
    forall i | 0 <= i < |subs|
      ensures CommandOf(specs[i], override) == Normalised(subs[i], override)
    {
      assert subs[i] in c.commands;
      CommandRoundTrip(subs[i], override);
    }
  }
}
