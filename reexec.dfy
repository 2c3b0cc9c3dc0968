/// The symlink re-exec handler (`HandleExec`): a program installed under
/// names such as `dkp-create-cluster` works out, from the name it was
/// invoked by, the sub-commands to run, and re-executes itself as
/// `dkp create cluster ...`.
///
/// Only the derivation of the new argument list is modelled. Looking up the
/// running executable, resolving its symlinks and the `exec` system call are
/// not: the result is `None` where the handler returns false, and
/// `Some(argv)` for the argument list it hands to `exec` (after which it
/// returns true).
module SymlinkReexec {
  import opened Wrappers
  import opened Text

  /// `filepath.Base` on Unix, without its trailing separators.
  function TrimTrailingSlashes(s: string): (r: string)
    ensures |r| <= |s| && s[..|r|] == r
    ensures r == [] || r[|r| - 1] != '/'
    decreases |s|
  {
    if |s| > 0 && s[|s| - 1] == '/' then TrimTrailingSlashes(s[..|s| - 1]) else s
  }

  /// The text after the last separator.
  function LastElement(s: string): (r: string)
    ensures '/' !in r && |r| <= |s| && HasSuffix(s, r)
    ensures s != [] && s[|s| - 1] != '/' ==> r != []
    decreases |s|
  {
    if s == [] || s[|s| - 1] == '/' then []
    else
      var r := LastElement(s[..|s| - 1]) + [s[|s| - 1]];
      assert s[|s| - |r|..] == s[..|s| - 1][|s| - 1 - (|r| - 1)..] + [s[|s| - 1]];
      r
  }

  /// `filepath.Base`: the last element of a path, `"."` for the empty path
  /// and `"/"` for a path of separators only.
  function Base(path: string): (r: string)
    ensures r != ""
    ensures path != "" ==> |r| <= |path|
    ensures r == "/" || '/' !in r
  {
    if path == "" then "."
    else
      var t := TrimTrailingSlashes(path);
      if t == "" then "/" else LastElement(t)
  }

  /// The prefix the handler looks for: the given one, with a `-` appended
  /// unless it already ends in one.
  function NormalisedPrefix(prefixToStrip: string): (r: string)
    ensures HasSuffix(r, "-")
    ensures HasSuffix(prefixToStrip, "-") ==> r == prefixToStrip
    ensures !HasSuffix(prefixToStrip, "-") ==> r == prefixToStrip + "-"
  {
    if HasSuffix(prefixToStrip, "-") then prefixToStrip else prefixToStrip + "-"
  }

  /// The name the program is re-executed under: the normalised prefix
  /// without its one trailing `-`.
  function ReexecName(prefixToStrip: string): (r: string)
    ensures r + "-" == NormalisedPrefix(prefixToStrip)
  {
    TrimSuffix(NormalisedPrefix(prefixToStrip), "-")
  }

  /// A sub-command name as it appears in an executable name: `-` separates
  /// sub-commands, so a `-` inside one is spelt `_`.
  function SubcommandName(piece: string): string
  {
    ReplaceAll(piece, '_', '-')
  }

  /// The sub-commands named by the rest of the invoked name, in order.
  function Subcommands(rest: string): (r: seq<string>)
    ensures |r| == |Split(rest, '-')|
    ensures forall k :: 0 <= k < |r| ==> r[k] == SubcommandName(Split(rest, '-')[k])
  {
    var pieces := Split(rest, '-');
    seq(|pieces|, k requires 0 <= k < |pieces| => SubcommandName(pieces[k]))
  }

  /// What `HandleExec` does with `os.Args` (never empty for a running
  /// program): no re-exec unless the base name of `os.Args[0]` starts with
  /// the normalised prefix; otherwise the re-exec name, the sub-commands
  /// and every other argument, in that order.
  function ReexecArgv(prefixToStrip: string, osArgs: seq<string>): Option<seq<string>>
    requires |osArgs| >= 1
  {
    var prefix := NormalisedPrefix(prefixToStrip);
    var invoked := Base(osArgs[0]);
    if !HasPrefix(invoked, prefix) then None
    else Some([ReexecName(prefixToStrip)] + Subcommands(TrimPrefix(invoked, prefix)) + osArgs[1..])
  }

  /// `HandleExec` up to the `exec`: the same steps, with the argument list
  /// built piece by piece.
  method HandleExec(prefixToStrip: string, osArgs: seq<string>) returns (argv: Option<seq<string>>)
    requires |osArgs| >= 1
    ensures argv == ReexecArgv(prefixToStrip, osArgs)
  {
    var prefix := prefixToStrip;
    if !HasSuffix(prefix, "-") {
      prefix := prefix + "-";
    }
    var reexecedName := TrimSuffix(prefix, "-");
    var invoked := Base(osArgs[0]);
    if !HasPrefix(invoked, prefix) {
      return None;
    }
    invoked := TrimPrefix(invoked, prefix);
    var pieces := Split(invoked, '-');
    var args: seq<string> := [];
    for k := 0 to |pieces|
      invariant |args| == k
      invariant forall j :: 0 <= j < k ==> args[j] == SubcommandName(pieces[j])
    {
      args := args + [ReplaceAll(pieces[k], '_', '-')];
    }
    assert args == Subcommands(invoked);
    assert reexecedName == ReexecName(prefixToStrip);
    argv := Some([reexecedName] + (args + osArgs[1..]));
    assert [reexecedName] + (args + osArgs[1..]) == [reexecedName] + args + osArgs[1..];
  }

  /// The prefix is normalised once: a prefix that already ends in `-` is
  /// kept, and normalising again changes nothing.
  lemma NormalisedPrefixIdempotent(prefixToStrip: string)
    ensures NormalisedPrefix(NormalisedPrefix(prefixToStrip)) == NormalisedPrefix(prefixToStrip)
    ensures ReexecName(NormalisedPrefix(prefixToStrip)) == ReexecName(prefixToStrip)
  {
  }

  /// Exactly one `-` is dropped for the re-exec name: a prefix without one
  /// is the name itself, and `dkp--` re-executes as `dkp-`.
  lemma ReexecNameDropsOneDash(prefixToStrip: string)
    ensures !HasSuffix(prefixToStrip, "-") ==> ReexecName(prefixToStrip) == prefixToStrip
    ensures HasSuffix(prefixToStrip, "-") ==> ReexecName(prefixToStrip) == prefixToStrip[..|prefixToStrip| - 1]
  {
    var r := ReexecName(prefixToStrip);
    if HasSuffix(prefixToStrip, "-") {
      assert r + "-" == prefixToStrip;
      assert prefixToStrip[..|prefixToStrip| - 1] == (r + "-")[..|r|];
    } else {
      assert r + "-" == prefixToStrip + "-";
      assert r == (r + "-")[..|r|] == (prefixToStrip + "-")[..|prefixToStrip|];
    }
  }

  /// The handler re-executes exactly when the invoked base name starts with
  /// the normalised prefix, and the new argument list is the re-exec name,
  /// the sub-commands, then the original arguments unchanged.
  lemma ArgvLayout(prefixToStrip: string, osArgs: seq<string>)
    requires |osArgs| >= 1
    ensures ReexecArgv(prefixToStrip, osArgs).Some?
            <==> HasPrefix(Base(osArgs[0]), NormalisedPrefix(prefixToStrip))
    ensures ReexecArgv(prefixToStrip, osArgs).Some? ==>
              var argv := ReexecArgv(prefixToStrip, osArgs).value;
              var subs := Subcommands(Base(osArgs[0])[|NormalisedPrefix(prefixToStrip)|..]);
              |argv| == 1 + |subs| + |osArgs| - 1
              && argv[0] == ReexecName(prefixToStrip)
              && argv[1..1 + |subs|] == subs
              && argv[1 + |subs|..] == osArgs[1..]
  {
    if ReexecArgv(prefixToStrip, osArgs).Some? {
      var argv := ReexecArgv(prefixToStrip, osArgs).value;
      var subs := Subcommands(Base(osArgs[0])[|NormalisedPrefix(prefixToStrip)|..]);
      assert argv == [ReexecName(prefixToStrip)] + subs + osArgs[1..];
      assert argv[1..1 + |subs|] == subs;
      assert argv[1 + |subs|..] == osArgs[1..];
    }
  }

  /// The inverse of the name mangling: spelling each sub-command's `-` as
  /// `_` again and joining them with `-` gives back the rest of the invoked
  /// name, so the sub-commands lose nothing of it.
  function Unmangle(subs: seq<string>): string
  {
    Join(seq(|subs|, k requires 0 <= k < |subs| => ReplaceAll(subs[k], '-', '_')), '-')
  }

  lemma SubcommandsRoundTrip(rest: string)
    ensures Unmangle(Subcommands(rest)) == rest
    ensures forall k :: 0 <= k < |Subcommands(rest)| ==> '_' !in Subcommands(rest)[k]
  {
    var pieces := Split(rest, '-');
    var subs := Subcommands(rest);
    SplitPiecesHaveNoSeparator(rest, '-');
    forall k | 0 <= k < |subs|
      ensures ReplaceAll(subs[k], '-', '_') == pieces[k]
      ensures '_' !in subs[k]
    {
      assert '-' !in pieces[k];
      var back := ReplaceAll(subs[k], '-', '_');
      assert |back| == |pieces[k]|;
      forall c | 0 <= c < |back|
        ensures back[c] == pieces[k][c]
      {
        assert pieces[k][c] != '-';
      }
    }
    assert seq(|subs|, k requires 0 <= k < |subs| => ReplaceAll(subs[k], '-', '_')) == pieces;
    JoinSplit(rest, '-');
  }

  /// The re-executed process is invoked under the re-exec name, which never
  /// starts with the prefix, so it does not re-execute again.
  lemma ReexecutedProcessRunsDirectly(prefixToStrip: string, osArgs: seq<string>)
    requires |osArgs| >= 1
    requires ReexecArgv(prefixToStrip, osArgs).Some?
    ensures ReexecArgv(prefixToStrip, ReexecArgv(prefixToStrip, osArgs).value) == None
  {
    var name := ReexecName(prefixToStrip);
    var prefix := NormalisedPrefix(prefixToStrip);
    assert |prefix| == |name| + 1;
    if name == "" {
      assert prefix == "-";
      assert Base(name) == ".";
      assert Base(name)[..1] != prefix;
    }
  }

  /// The invocations in the handler's tests, by a path in some directory:
  /// `simple` and `simple_symlink` run directly, `simple-subcommand`
  /// re-executes as `simple subcommand` with the flags behind it.
  lemma DirectInvocations(dir: string, flags: seq<string>)
    ensures ReexecArgv("simple", [dir + "/" + "simple"] + flags) == None
    ensures ReexecArgv("simple", [dir + "/" + "simple_symlink"] + flags) == None
  {
    SimplePrefix();
    DirectNames();
    NotReexecuted("simple", dir, "simple", flags);
    NotReexecuted("simple", dir, "simple_symlink", flags);
  }

  lemma DirectNames()
    ensures '/' !in "simple" && !HasPrefix("simple", "simple-")
    ensures '/' !in "simple_symlink" && !HasPrefix("simple_symlink", "simple-")
  {
    assert "simple_symlink"[6] != "simple-"[6];
  }

  /// A program invoked by the path of a file whose name lacks the prefix.
  lemma NotReexecuted(prefixToStrip: string, dir: string, name: string, flags: seq<string>)
    requires name != "" && '/' !in name && !HasPrefix(name, NormalisedPrefix(prefixToStrip))
    ensures ReexecArgv(prefixToStrip, [dir + "/" + name] + flags) == None
  {
    BaseOfChild(dir, name);
  }

  lemma SubcommandInvocation(dir: string, flags: seq<string>)
    ensures ReexecArgv("simple", [dir + "/" + "simple-subcommand"] + flags)
            == Some(["simple"] + ["subcommand"] + flags)
  {
    SimplePrefix();
    SubcommandInvocationName();
    SubcommandOfName();
    SubcommandInvocationLayout(dir, flags);
  }

  lemma SubcommandInvocationLayout(dir: string, flags: seq<string>)
    ensures ReexecArgv("simple", [dir + "/" + "simple-subcommand"] + flags)
            == Some([ReexecName("simple")]
                    + Subcommands(TrimPrefix("simple-subcommand", NormalisedPrefix("simple"))) + flags)
  {
    SimplePrefix();
    SubcommandInvocationName();
    ArgvOfChild("simple", dir, "simple-subcommand", flags);
  }

  /// A program invoked by the path of a file whose name has the prefix.
  lemma ArgvOfChild(prefixToStrip: string, dir: string, name: string, flags: seq<string>)
    requires name != "" && '/' !in name && HasPrefix(name, NormalisedPrefix(prefixToStrip))
    ensures ReexecArgv(prefixToStrip, [dir + "/" + name] + flags)
            == Some([ReexecName(prefixToStrip)]
                    + Subcommands(TrimPrefix(name, NormalisedPrefix(prefixToStrip))) + flags)
  {
    BaseOfChild(dir, name);
    assert ([dir + "/" + name] + flags)[1..] == flags;
  }

  lemma SubcommandInvocationName()
    ensures HasPrefix("simple-subcommand", "simple-")
    ensures TrimPrefix("simple-subcommand", "simple-") == "subcommand"
  {
    assert "simple-subcommand" == "simple-" + "subcommand";
  }

  lemma SubcommandOfName()
    ensures Subcommands("subcommand") == ["subcommand"]
  {
    SingleSubcommand("subcommand");
  }

  /// A rest without `-` or `_` names one sub-command, itself.
  lemma SingleSubcommand(rest: string)
    requires '-' !in rest && '_' !in rest
    ensures Subcommands(rest) == [rest]
  {
    SplitWithoutSeparator(rest, '-');
    ReplaceAbsent(rest, '_', '-');
    var r := Subcommands(rest);
    assert |r| == 1 && r[0] == rest;
  }

  lemma SimplePrefix()
    ensures NormalisedPrefix("simple") == "simple-"
    ensures ReexecName("simple") == "simple"
  {
    assert "simple"[5] != '-';
    assert !HasSuffix("simple", "-");
    ReexecNameDropsOneDash("simple");
  }

  /// The base name of a file in a directory is the file's name.
  lemma BaseOfChild(dir: string, name: string)
    requires name != "" && '/' !in name
    ensures Base(dir + "/" + name) == name
  {
    var path := dir + "/" + name;
    assert TrimTrailingSlashes(path) == path;
    LastElementOfChild(dir + "/", name);
  }

  lemma {:induction false} LastElementOfChild(dir: string, name: string)
    requires dir != [] && dir[|dir| - 1] == '/' && '/' !in name
    ensures LastElement(dir + name) == name
    decreases |name|
  {
    if name == [] {
      assert dir + name == dir;
    } else {
      var s := dir + name;
      assert s[..|s| - 1] == dir + name[..|name| - 1];
      LastElementOfChild(dir, name[..|name| - 1]);
      assert name == name[..|name| - 1] + [name[|name| - 1]];
    }
  }
}
