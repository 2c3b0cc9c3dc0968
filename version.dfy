/// The `version` command: checking its `--output` option, ordering
/// component names, and what `Run` prints. The version getter and the
/// YAML and JSON marshallers are outside the model: their outcomes are
/// parameters.
module VersionCmd {
  import opened Wrappers
  import opened Text
  import opened GoFmt
  import opened Terminal

  datatype Version = Version(
    major: string,
    minor: string,
    gitVersion: string,
    gitCommit: string,
    gitTreeState: string,
    commitDate: string,
    goVersion: string,
    compiler: string,
    platform: string)

  /// The zero `Version`, which a missing map entry reads as.
  const ZeroVersion := Version("", "", "", "", "", "", "", "", "")

  const OutputError := "--output must be 'yaml' or 'json'"

  /// `options.Validate`: `None` is a nil error.
  function Validate(output: string): (r: Option<string>)
    ensures r.None? <==> output == "" || output == "yaml" || output == "json"
    ensures r.Some? ==> r.value == OutputError
  {
    if output != "" && output != "yaml" && output != "json" then Some(OutputError) else None
  }

  /// `a` strictly before `b` in Go's string order.
  predicate Before(a: string, b: string) {
    LessOrEqual(a, b) && a != b
  }

  predicate StrictlySorted(s: seq<string>) {
    forall i, j :: 0 <= i < j < |s| ==> Before(s[i], s[j])
  }

  /// `least` is in `keys` and no name there is smaller.
  predicate IsLeast(least: string, keys: set<string>) {
    least in keys && forall x :: x in keys ==> LessOrEqual(least, x)
  }

  /// The least of a non-empty set of names.
  ghost function Least(keys: set<string>): (r: string)
    requires keys != {}
    ensures r in keys && forall x :: x in keys ==> LessOrEqual(r, x)
  {
    LeastExists(keys);
    var least :| IsLeast(least, keys);
    least
  }

  /// The names of a set in ascending order.
  ghost function SortedKeys(keys: set<string>): (r: seq<string>)
    ensures StrictlySorted(r) && |r| == |keys|
    ensures forall k :: k in r <==> k in keys
    decreases keys
  {
    if keys == {} then []
    else
      var least := Least(keys);
      var rest := SortedKeys(keys - {least});
      PrependLeast(least, rest);
      [least] + rest
  }

  lemma PrependLeast(least: string, rest: seq<string>)
    requires StrictlySorted(rest) && least !in rest
    requires forall j :: 0 <= j < |rest| ==> LessOrEqual(least, rest[j])
    ensures StrictlySorted([least] + rest)
  {
  }

  /// Every finite non-empty set of names has a least one.
  lemma {:induction false} LeastExists(keys: set<string>)
    requires keys != {}
    ensures exists least :: IsLeast(least, keys)
    decreases keys
  {
    var k :| k in keys;
    if keys == {k} {
      LessOrEqualReflexive(k);
      assert IsLeast(k, keys);
    } else {
      LeastExists(keys - {k});
      var m :| IsLeast(m, keys - {k});
      LeastOfOneMore(m, k, keys);
    }
  }

  /// Adding a name to a set keeps its least name or makes the new one least.
  lemma LeastOfOneMore(m: string, k: string, keys: set<string>)
    requires k in keys && IsLeast(m, keys - {k})
    ensures IsLeast(m, keys) || IsLeast(k, keys)
  {
    LessOrEqualTotal(m, k);
    if !LessOrEqual(m, k) {
      forall x | x in keys ensures LessOrEqual(k, x) {
        if x != k {
          LessOrEqualTransitive(k, m, x);
        } else {
          LessOrEqualReflexive(k);
        }
      }
    }
  }

  lemma {:induction false} LessOrEqualReflexive(a: string)
    ensures LessOrEqual(a, a)
  {
    if a != [] {
      LessOrEqualReflexive(a[1..]);
    }
  }

  /// Two ascending lists of the same names are the same list.
  lemma {:induction false} SortedUnique(a: seq<string>, b: seq<string>)
    requires StrictlySorted(a) && StrictlySorted(b) && |a| == |b|
    requires forall k :: k in a <==> k in b
    ensures a == b
    decreases |a|
  {
    if a != [] && b != [] {
      assert a[0] in b && b[0] in a;
      if a[0] != b[0] {
        var i :| 0 <= i < |a| && a[i] == b[0];
        var j :| 0 <= j < |b| && b[j] == a[0];
        assert i > 0 && j > 0;
        assert Before(a[0], b[0]) && Before(b[0], a[0]);
        LessOrEqualAntisymmetric(a[0], b[0]);
      }
      forall k ensures k in a[1..] <==> k in b[1..] {
        if k in a[1..] {
          var i :| 1 <= i < |a| && a[i] == k;
          assert Before(a[0], k);
          assert k in a && k in b;
          var j :| 0 <= j < |b| && b[j] == k;
          assert j != 0;
          assert b[1..][j - 1] == k;
        }
        if k in b[1..] {
          var i :| 1 <= i < |b| && b[i] == k;
          assert Before(b[0], k);
          assert k in b && k in a;
          var j :| 0 <= j < |a| && a[j] == k;
          assert j != 0;
          assert a[1..][j - 1] == k;
        }
      }
      SortedUnique(a[1..], b[1..]);
      assert a == [a[0]] + a[1..] && b == [b[0]] + b[1..];
    }
  }

  /// Puts a new name into an ascending list.
  function Insert(s: seq<string>, x: string): (r: seq<string>)
    requires StrictlySorted(s) && x !in s
    ensures StrictlySorted(r) && |r| == |s| + 1
    ensures forall k :: k in r <==> k in s || k == x
  {
    if s == [] then [x]
    else if LessOrEqual(x, s[0]) then
      assert forall j :: 0 <= j < |s| ==> Before(x, s[j]) by {
        forall j | 0 <= j < |s| ensures Before(x, s[j]) {
          if j > 0 {
            LessOrEqualTransitive(x, s[0], s[j]);
          }
        }
      }
      [x] + s
    else
      var rest := Insert(s[1..], x);
      LessOrEqualTotal(x, s[0]);
      assert forall j :: 0 <= j < |rest| ==> Before(s[0], rest[j]) by {
        forall j | 0 <= j < |rest| ensures Before(s[0], rest[j]) {
          if rest[j] != x {
            assert rest[j] in s[1..];
          }
        }
      }
      [s[0]] + rest
  }

  /// `orderedKeys`: the names of the map, collected in the map's iteration
  /// order, then sorted.
  method OrderedKeys(versions: map<string, Version>) returns (keys: seq<string>)
    ensures keys == SortedKeys(versions.Keys)
  {
    var collected: seq<string> := [];
    var remaining := versions.Keys;
    while remaining != {}
      invariant forall k :: k in versions.Keys <==> k in collected || k in remaining
      invariant forall k :: k in collected ==> k !in remaining
      invariant forall i, j :: 0 <= i < j < |collected| ==> collected[i] != collected[j]
      invariant |collected| + |remaining| == |versions.Keys|
      decreases remaining
    {
      var key :| key in remaining;
      collected := collected + [key];
      remaining := remaining - {key};
    }
    keys := [];
    for i := 0 to |collected|
      invariant StrictlySorted(keys) && |keys| == i
      invariant forall k :: k in keys <==> k in collected[..i]
    {
      assert collected[i] !in collected[..i];
      keys := Insert(keys, collected[i]);
    }
    assert collected[..|collected|] == collected;
    SortedUnique(keys, SortedKeys(versions.Keys));
  }

  /// `%#v` of a `Version`.
  function GoSyntax(v: Version): string
  {
    "version.Version{Major:" + Quote(v.major) + ", Minor:" + Quote(v.minor)
    + ", GitVersion:" + Quote(v.gitVersion) + ", GitCommit:" + Quote(v.gitCommit)
    + ", GitTreeState:" + Quote(v.gitTreeState) + ", CommitDate:" + Quote(v.commitDate)
    + ", GoVersion:" + Quote(v.goVersion) + ", Compiler:" + Quote(v.compiler)
    + ", Platform:" + Quote(v.platform) + "}"
  }

  /// The line for the one version shown on its own.
  function SingleLine(long: bool, v: Version): string
  {
    if long then GoSyntax(v) + "\n" else v.gitVersion + "\n"
  }

  /// The line for a named component.
  function NamedLine(long: bool, name: string, v: Version): string
  {
    if long then name + ": " + GoSyntax(v) + "\n" else name + ": " + v.gitVersion + "\n"
  }

  /// The version shown when there are not several: the one under the empty
  /// name, or the zero version.
  function Selected(versions: map<string, Version>): Version
  {
    if "" in versions then versions[""] else ZeroVersion
  }

  function NotValidated(output: string): string
  {
    "VersionOptions were not validated: --output=" + Quote(output) + " should have been rejected"
  }

  /// What `Run` returns and writes, write by write.
  ghost function RunEffect(long: bool, output: string, versions: Result<map<string, Version>>,
                           marshalled: Result<string>): (Option<string>, seq<string>)
  {
    match versions
    case Err(e) => (Some(e), [])
    case Ok(m) =>
      if output == "" then
        if |m| > 1 then (None, ComponentLines(long, m))
        else (None, [SingleLine(long, Selected(m))])
      else if output == "yaml" || output == "json" then
        match marshalled
        case Err(e) => (Some(e), [])
        case Ok(text) => (None, [text + "\n"])
      else (Some(NotValidated(output)), [])
  }

  /// One line per component, in ascending order of the names.
  ghost function ComponentLines(long: bool, m: map<string, Version>): (r: seq<string>)
    ensures |r| == |m|
  {
    LinesFor(long, m, SortedKeys(m.Keys))
  }

  /// The lines for the given names, in their order.
  function LinesFor(long: bool, m: map<string, Version>, keys: seq<string>): (r: seq<string>)
    requires forall k :: k in keys ==> k in m
    ensures |r| == |keys|
  {
    seq(|keys|, i requires 0 <= i < |keys| => NamedLine(long, keys[i], m[keys[i]]))
  }

  /// The loop of `Run` over the ordered names.
  method PrintComponents(w: Writer, long: bool, m: map<string, Version>)
    modifies w
    ensures w.chunks == old(w.chunks) + ComponentLines(long, m)
  {
    var keys := OrderedKeys(m);
    WriteLines(w, long, m, keys);
  }

  /// One `name: version` line per name, in the order given.
  method WriteLines(w: Writer, long: bool, m: map<string, Version>, keys: seq<string>)
    requires forall k :: k in keys ==> k in m
    modifies w
    ensures w.chunks == old(w.chunks) + LinesFor(long, m, keys)
  {
    ghost var start := w.chunks;
    for i := 0 to |keys|
      invariant w.chunks == start + LinesFor(long, m, keys[..i])
    {
      var line := NamedLine(long, keys[i], m[keys[i]]);
      var _ := w.Write(line);
      LinesForStep(long, m, keys, i);
    }
    assert keys[..|keys|] == keys;
  }

  lemma LinesForStep(long: bool, m: map<string, Version>, keys: seq<string>, i: nat)
    requires forall k :: k in keys ==> k in m
    requires i < |keys|
    ensures LinesFor(long, m, keys[..i + 1])
            == LinesFor(long, m, keys[..i]) + [NamedLine(long, keys[i], m[keys[i]])]
  {
    assert keys[..i + 1] == keys[..i] + [keys[i]];
  }

  /// `options.Run`. `versions` is what the getter returns, and
  /// `marshalled` what the YAML or JSON marshaller returns for the value
  /// `Run` picks.
  method Run(w: Writer, long: bool, output: string, versions: Result<map<string, Version>>,
             marshalled: Result<string>) returns (err: Option<string>)
    modifies w
    ensures err == RunEffect(long, output, versions, marshalled).0
    ensures w.chunks == old(w.chunks) + RunEffect(long, output, versions, marshalled).1
  {
    if versions.Err? {
      return Some(versions.error);
    }
    var m := versions.value;
    ghost var effect := RunEffect(long, output, versions, marshalled);
    if output == "" {
      if |m| > 1 {
        assert effect == (None, ComponentLines(long, m));
        PrintComponents(w, long, m);
      } else {
        assert effect == (None, [SingleLine(long, Selected(m))]);
        var v := if "" in m then m[""] else ZeroVersion;
        var _ := w.Write(SingleLine(long, v));
      }
    } else if output == "yaml" || output == "json" {
      if marshalled.Err? {
        return Some(marshalled.error);
      }
      var _ := w.Write(marshalled.value + "\n");
    } else {
      return Some(NotValidated(output));
    }
    return None;
  }

  /// Several components print one line each, `name: gitVersion`, in
  /// ascending order of their names.
  lemma ComponentsInOrder(m: map<string, Version>, marshalled: Result<string>)
    requires |m| > 1
    ensures var lines := RunEffect(false, "", Ok(m), marshalled).1;
            |lines| == |m|
            && exists names: seq<string> ::
                 StrictlySorted(names) && (forall k :: k in names <==> k in m)
                 && |names| == |lines|
                 && forall i :: 0 <= i < |lines| ==> lines[i] == names[i] + ": " + m[names[i]].gitVersion + "\n"
  {
    var names := SortedKeys(m.Keys);
    assert forall k :: k in names <==> k in m;
  }

  /// A getter error is returned as it is and nothing is written.
  lemma GetterErrorPassesThrough(long: bool, output: string, e: string, marshalled: Result<string>)
    ensures RunEffect(long, output, Err(e), marshalled) == (Some(e), [])
  {
  }

  /// After `Validate` accepts the option, `Run` fails only when the getter
  /// or the marshaller does.
  lemma ValidatedRunFailsOnlyUpstream(long: bool, output: string, versions: Result<map<string, Version>>,
                                      marshalled: Result<string>)
    requires Validate(output).None?
    ensures RunEffect(long, output, versions, marshalled).0.Some? ==>
              versions.Err? || ((output == "yaml" || output == "json") && marshalled.Err?)
  {
  }

  /// A single component under a name other than the empty one is not
  /// looked up: the zero version's empty `GitVersion` is printed.
  lemma SingleNamedComponent(name: string, v: Version, marshalled: Result<string>)
    requires name != ""
    ensures RunEffect(false, "", Ok(map[name := v]), marshalled) == (None, ["\n"])
  {
    assert |map[name := v]| == 1;
    assert "" !in map[name := v];
    assert ZeroVersion.gitVersion + "\n" == "\n";
  }

  /// Without the `--long` option one version prints only its `GitVersion`.
  lemma ShortOutputIsGitVersion(m: map<string, Version>, marshalled: Result<string>)
    requires "" in m && |m| <= 1
    ensures RunEffect(false, "", Ok(m), marshalled) == (None, [m[""].gitVersion + "\n"])
  {
  }
}
