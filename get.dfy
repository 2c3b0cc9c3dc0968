/// The `get` command for Kubernetes resources (`extensions/cmd/get`): the
/// shape of the command tree `NewCommand` builds, which request transforms
/// a query uses, the `Accept` header of the server-side table request, and
/// whether the retrieved objects are of more than one kind.
///
/// The Kubernetes client, the resource builder, the printers and the visit
/// of the results are not modelled. The command-line library's part is
/// reduced to what decides the outcome here: a first argument naming a
/// sub-command selects it, `NoArgs` rejects any remaining argument before
/// the command runs, and the command then runs with the remaining
/// arguments. Arguments are the positional ones, after flag parsing.
module GetCmd {
  import opened Wrappers
  import opened Text
  import opened GoFmt

  /// A resource's group, version and kind.
  datatype GroupVersionKind = GroupVersionKind(group: string, version: string, kind: string)

  /// The objects are of several kinds: at least two, and one differs from
  /// the first.
  predicate SeveralKinds(gvks: seq<GroupVersionKind>)
  {
    |gvks| >= 2 && exists k :: 0 <= k < |gvks| && gvks[k] != gvks[0]
  }

  /// `multipleGVKsRequested`, over the kinds of the retrieved infos: the
  /// search stops at the first info whose kind differs from the first one.
  method MultipleGVKsRequested(infos: seq<GroupVersionKind>) returns (r: bool)
    ensures r <==> SeveralKinds(infos)
  {
    if |infos| < 2 {
      return false;
    }
    var gvk := infos[0];
    for k := 0 to |infos|
      invariant forall j :: 0 <= j < k ==> infos[j] == gvk
    {
      if infos[k] != gvk {
        return true;
      }
    }
    return false;
  }

  /// Comparing with the first info is comparing any two: the answer is
  /// whether the infos are not all of one kind.
  lemma SeveralKindsAnyPair(gvks: seq<GroupVersionKind>)
    ensures SeveralKinds(gvks)
            <==> exists j, k :: 0 <= j < |gvks| && 0 <= k < |gvks| && gvks[j] != gvks[k]
  {
    if exists j, k :: 0 <= j < |gvks| && 0 <= k < |gvks| && gvks[j] != gvks[k] {
      var j, k :| 0 <= j < |gvks| && 0 <= k < |gvks| && gvks[j] != gvks[k];
      if gvks[j] == gvks[0] {
        assert gvks[k] != gvks[0];
      } else {
        assert gvks[j] != gvks[0];
      }
    }
  }

  /// The order of the infos does not matter.
  lemma SeveralKindsOrderFree(a: seq<GroupVersionKind>, b: seq<GroupVersionKind>)
    requires multiset(a) == multiset(b)
    ensures SeveralKinds(a) <==> SeveralKinds(b)
  {
    if SeveralKinds(a) {
      DifferentPairCarries(a, b);
    }
    if SeveralKinds(b) {
      DifferentPairCarries(b, a);
    }
  }

  lemma DifferentPairCarries(a: seq<GroupVersionKind>, b: seq<GroupVersionKind>)
    requires multiset(a) == multiset(b) && SeveralKinds(a)
    ensures SeveralKinds(b)
  {
    var k :| 0 <= k < |a| && a[k] != a[0];
    assert a[0] in multiset(b) && a[k] in multiset(b);
    var j0 :| 0 <= j0 < |b| && b[j0] == a[0];
    var j1 :| 0 <= j1 < |b| && b[j1] == a[k];
    SeveralKindsAnyPair(b);
  }

  /// The meta API group and version the server's `Table` kind belongs to.
  const MetaGroupName := "meta.k8s.io"
  const MetaVersion := "v1"

  /// The media type asking the server to render the objects as a table.
  function TableMediaType(version: string, group: string): string
  {
    "application/json;as=Table;v=" + version + ";g=" + group
  }

  /// The `Accept` header of `serverSideTableRequestTransformer`: the table
  /// first, plain JSON as the fallback.
  function AcceptHeader(): string
  {
    Join([TableMediaType(MetaVersion, MetaGroupName), "application/json"], ',')
  }

  /// The header's value, and the two media types it offers, in order of
  /// preference.
  lemma AcceptHeaderValue()
    ensures AcceptHeader() == "application/json;as=Table;v=v1;g=meta.k8s.io,application/json"
    ensures Split(AcceptHeader(), ',')
            == ["application/json;as=Table;v=v1;g=meta.k8s.io", "application/json"]
  {
    var table := "application/json;as=Table;v=v1;g=meta.k8s.io";
    var json := "application/json";
    TableMediaTypeValue();
    JoinTwo(table, json, ',');
    AcceptHeaderText();
    MediaTypesWithoutComma();
    SplitJoined(table, json, ',');
  }

  lemma AcceptHeaderText()
    ensures "application/json;as=Table;v=v1;g=meta.k8s.io" + [','] + "application/json"
            == "application/json;as=Table;v=v1;g=meta.k8s.io,application/json"
  {
  }

  lemma MediaTypesWithoutComma()
    ensures ',' !in "application/json;as=Table;v=v1;g=meta.k8s.io" && ',' !in "application/json"
  {
  }

  lemma TableMediaTypeValue()
    ensures TableMediaType(MetaVersion, MetaGroupName) == "application/json;as=Table;v=v1;g=meta.k8s.io"
  {
  }

  /// A request transform; the only one is the server-side table request.
  datatype RequestTransform = ServerSideTable

  /// The transforms a query uses: the table request for the `table` output
  /// format, none for any other.
  function RequestTransformers(outputFormat: string): (r: seq<RequestTransform>)
    ensures outputFormat == "table" ==> r == [ServerSideTable]
    ensures outputFormat != "table" ==> r == []
  {
    if outputFormat == "table" then [ServerSideTable] else []
  }

  /// Request headers, and what the transforms do to them in turn.
  type Headers = map<string, string>

  function Transformed(headers: Headers, ts: seq<RequestTransform>): Headers
    decreases |ts|
  {
    if ts == [] then headers
    else
      match ts[0]
      case ServerSideTable => Transformed(headers["Accept" := AcceptHeader()], ts[1..])
  }

  /// A query for the table output asks for a table, whatever `Accept` it
  /// had, and changes no other header; any other query's headers are left
  /// alone.
  lemma TableQueryAcceptsTable(outputFormat: string, headers: Headers)
    ensures var h := Transformed(headers, RequestTransformers(outputFormat));
            (outputFormat == "table" ==> "Accept" in h && h["Accept"] == AcceptHeader()
                                         && forall name :: name in headers && name != "Accept" ==> name in h && h[name] == headers[name])
            && (outputFormat != "table" ==> h == headers)
  {
    if outputFormat == "table" {
      assert RequestTransformers(outputFormat)[1..] == [];
    }
  }

  /// What a command does when it runs: `getRunEFn` with the resources it
  /// was made for, or the root's "unknown command" error.
  datatype Run = Query(resources: seq<string>) | UnknownCommand

  /// `cobra.NoArgs`, or no check on the arguments.
  datatype ArgsCheck = ArbitraryArgs | NoArgs

  /// The parts of a command that `NewCommand` decides; `printFlags` says
  /// whether the print options' flags were added to it.
  datatype GetCommand = GetCommand(
    use: string,
    args: ArgsCheck,
    run: Run,
    printFlags: bool,
    subcommands: seq<GetCommand>)

  /// The sub-command for one allowed resource.
  function ResourceCommand(resource: string): GetCommand
  {
    GetCommand(resource, ArbitraryArgs, Query([resource]), true, [])
  }

  /// The command `NewCommand` builds for the allowed resources: `get`, with
  /// one sub-command per resource in order; with no resources it runs the
  /// query itself, otherwise it takes no arguments and only errs.
  predicate BuiltFor(root: GetCommand, allowedResources: seq<string>)
  {
    && root.use == "get"
    && |root.subcommands| == |allowedResources|
    && (forall k :: 0 <= k < |allowedResources| ==> root.subcommands[k] == ResourceCommand(allowedResources[k]))
    && (allowedResources == [] ==> root.run == Query([]) && root.args == ArbitraryArgs && root.printFlags)
    && (allowedResources != [] ==> root.run == UnknownCommand && root.args == NoArgs && !root.printFlags)
  }

  /// `NewCommand`: the sub-commands are added one by one, then the root's
  /// run and argument check are chosen.
  method NewCommand(allowedResources: seq<string>) returns (root: GetCommand)
    ensures BuiltFor(root, allowedResources)
  {
    var subcommands: seq<GetCommand> := [];
    for k := 0 to |allowedResources|
      invariant |subcommands| == k
      invariant forall j :: 0 <= j < k ==> subcommands[j] == ResourceCommand(allowedResources[j])
    {
      subcommands := subcommands + [ResourceCommand(allowedResources[k])];
    }
    if |allowedResources| == 0 {
      root := GetCommand("get", ArbitraryArgs, Query([]), true, subcommands);
    } else {
      root := GetCommand("get", NoArgs, UnknownCommand, false, subcommands);
    }
  }

  /// The first sub-command with the given name.
  function FindSubcommand(subcommands: seq<GetCommand>, name: string): (r: Option<GetCommand>)
    ensures r.Some? ==> r.value in subcommands && r.value.use == name
    ensures r.None? ==> forall c :: c in subcommands ==> c.use != name
  {
    if subcommands == [] then None
    else if subcommands[0].use == name then Some(subcommands[0])
    else FindSubcommand(subcommands[1..], name)
  }

  /// How a `get` invocation ends: a query of the resource builder with the
  /// given arguments and request transforms, an argument rejected by
  /// `NoArgs`, an error returned by the command, a run-time panic, or the
  /// command's usage.
  datatype Outcome =
    | Queried(builderArgs: seq<string>, transforms: seq<RequestTransform>)
    | Rejected(arg: string)
    | Failed(message: string)
    | Panicked
    | ShowsUsage

  /// Running one command with its arguments, as written: the root's error
  /// reads `args[0]` even when there are no arguments, which panics.
  function RunAsWritten(c: GetCommand, args: seq<string>, outputFormat: string): Outcome
  {
    if c.args == NoArgs && args != [] then Rejected(args[0])
    else
      match c.run
      case Query(resources) => Queried(resources + args, RequestTransformers(outputFormat))
      case UnknownCommand =>
        if args == [] then Panicked else Failed("unknown command " + Quote(args[0]))
  }

  /// Running one command, with the root's missing argument answered by its
  /// usage instead of a panic.
  function RunCommand(c: GetCommand, args: seq<string>, outputFormat: string): (r: Outcome)
    ensures r != Panicked
    ensures args != [] || c.run.Query? ==> r == RunAsWritten(c, args, outputFormat)
  {
    if c.args == NoArgs && args != [] then Rejected(args[0])
    else
      match c.run
      case Query(resources) => Queried(resources + args, RequestTransformers(outputFormat))
      case UnknownCommand =>
        if args == [] then ShowsUsage else Failed("unknown command " + Quote(args[0]))
  }

  /// The command the arguments select, and the arguments it runs with.
  function Dispatch(root: GetCommand, args: seq<string>): (GetCommand, seq<string>)
  {
    if args == [] then (root, args)
    else
      match FindSubcommand(root.subcommands, args[0])
      case Some(c) => (c, args[1..])
      case None => (root, args)
  }

  function ExecuteAsWritten(root: GetCommand, args: seq<string>, outputFormat: string): Outcome
  {
    var (c, rest) := Dispatch(root, args);
    RunAsWritten(c, rest, outputFormat)
  }

  function Execute(root: GetCommand, args: seq<string>, outputFormat: string): Outcome
  {
    var (c, rest) := Dispatch(root, args);
    RunCommand(c, rest, outputFormat)
  }

  /// With no allowed resources, `get` queries whatever it is given, with
  /// the table request exactly for the table output.
  lemma UnrestrictedGetQueriesArguments(root: GetCommand, args: seq<string>, outputFormat: string)
    requires BuiltFor(root, [])
    ensures Execute(root, args, outputFormat) == Queried(args, RequestTransformers(outputFormat))
  {
    assert root.subcommands == [];
    assert [] + args == args;
  }

  /// Naming an allowed resource queries that resource, followed by the
  /// remaining arguments.
  lemma AllowedResourceQueried(root: GetCommand, allowedResources: seq<string>, resource: string,
                               args: seq<string>, outputFormat: string)
    requires BuiltFor(root, allowedResources) && resource in allowedResources
    ensures Execute(root, [resource] + args, outputFormat)
            == Queried([resource] + args, RequestTransformers(outputFormat))
  {
    var k :| 0 <= k < |allowedResources| && allowedResources[k] == resource;
    assert root.subcommands[k].use == resource;
    var found := FindSubcommand(root.subcommands, resource);
    assert found.Some?;
    var j :| 0 <= j < |root.subcommands| && root.subcommands[j] == found.value;
    assert found.value == ResourceCommand(allowedResources[j]);
    assert ([resource] + args)[1..] == args;
  }

  /// Anything else is rejected, without a query, when resources are
  /// restricted.
  lemma OtherArgumentRejected(root: GetCommand, allowedResources: seq<string>, args: seq<string>,
                              outputFormat: string)
    requires BuiltFor(root, allowedResources) && allowedResources != []
    requires args != [] && args[0] !in allowedResources
    ensures Execute(root, args, outputFormat) == Rejected(args[0])
    ensures ExecuteAsWritten(root, args, outputFormat) == Rejected(args[0])
  {
    OnlyAllowedFound(root, allowedResources, args[0]);
  }

  /// The sub-commands are named by the allowed resources only.
  lemma OnlyAllowedFound(root: GetCommand, allowedResources: seq<string>, name: string)
    requires BuiltFor(root, allowedResources) && name !in allowedResources
    ensures FindSubcommand(root.subcommands, name).None?
  {
    forall c | c in root.subcommands
      ensures c.use != name
    {
      var j :| 0 <= j < |root.subcommands| && root.subcommands[j] == c;
      assert c == ResourceCommand(allowedResources[j]);
    }
  }

  /// As written, a restricted `get` run without arguments panics: the
  /// argument check lets the empty list through and the root's error then
  /// reads its first element. The error message itself is never reached.
  lemma RestrictedGetWithoutArgumentsPanics(root: GetCommand, allowedResources: seq<string>,
                                            outputFormat: string)
    requires BuiltFor(root, allowedResources) && allowedResources != []
    ensures ExecuteAsWritten(root, [], outputFormat) == Panicked
    ensures forall args, message :: ExecuteAsWritten(root, args, outputFormat) != Failed(message)
  {
    forall args, message
      ensures ExecuteAsWritten(root, args, outputFormat) != Failed(message)
    {
      if args != [] {
        var found := FindSubcommand(root.subcommands, args[0]);
        if found.Some? {
          var j :| 0 <= j < |root.subcommands| && root.subcommands[j] == found.value;
          assert found.value == ResourceCommand(allowedResources[j]);
        }
      }
    }
  }

  /// Corrected, no invocation of any `get` command panics, and the
  /// restricted one shows its usage when run without arguments.
  lemma GetNeverPanics(root: GetCommand, allowedResources: seq<string>, args: seq<string>,
                       outputFormat: string)
    requires BuiltFor(root, allowedResources)
    ensures Execute(root, args, outputFormat) != Panicked
    ensures allowedResources != [] ==> Execute(root, [], outputFormat) == ShowsUsage
  {
  }
}
