/// The serialisable description of a command-line flag (`FlagSpec`) and
/// the conversions between it and a flag of the flag library.
module PluginFlag {
  import opened Wrappers

  /// A flag's value: one of the flag library's own, known only by its
  /// `Type()` and `String()`, or the placeholder `typedFlagValue`, which
  /// knows nothing but its type.
  datatype FlagValue = Native(typeName: string, text: string) | TypedValue(typeName: string)

  /// `Value.Type()`.
  function ValueType(v: FlagValue): string
  {
    v.typeName
  }

  /// `Value.String()`: the placeholder's is always empty.
  function ValueString(v: FlagValue): string
  {
    match v
    case Native(_, text) => text
    case TypedValue(_) => ""
  }

  /// `typedFlagValue.Set`: accepted, with no effect; `None` is a nil
  /// error. The flag library's own values parse their input, which is not
  /// part of this model.
  function SetTyped(t: string, input: string): (r: (FlagValue, Option<string>))
    ensures r.1.None? && ValueType(r.0) == t && ValueString(r.0) == ""
  {
    (TypedValue(t), None)
  }

  /// A flag of the flag library, with the fields the conversions touch and
  /// `Changed`, which only parsing sets.
  datatype Flag = Flag(
    name: string,
    shorthand: string,
    usage: string,
    value: FlagValue,
    defValue: string,
    noOptDefVal: string,
    changed: bool,
    deprecated: string,
    hidden: bool,
    shorthandDeprecated: string,
    annotations: map<string, seq<string>>)

  datatype FlagSpec = FlagSpec(
    typeName: string,
    name: string,
    shorthand: string,
    usage: string,
    defaultValue: string,
    noOptDefaultValue: string,
    deprecated: string,
    hidden: bool,
    shorthandDeprecated: string,
    annotations: map<string, seq<string>>)

  /// `SpecFromFlag`: every described field as it is, and the value's type.
  function SpecFromFlag(f: Flag): FlagSpec
  {
    FlagSpec(ValueType(f.value), f.name, f.shorthand, f.usage, f.defValue, f.noOptDefVal,
             f.deprecated, f.hidden, f.shorthandDeprecated, f.annotations)
  }

  /// `FlagSpec.ToFlag`: a new, unparsed flag whose value is the placeholder
  /// of the spec's type.
  function ToFlag(s: FlagSpec): Flag
  {
    Flag(s.name, s.shorthand, s.usage, TypedValue(s.typeName), s.defaultValue, s.noOptDefaultValue,
         false, s.deprecated, s.hidden, s.shorthandDeprecated, s.annotations)
  }

  /// A spec survives the trip through a flag unchanged.
  lemma SpecRoundTrip(s: FlagSpec)
    ensures SpecFromFlag(ToFlag(s)) == s
  {
  }

  /// A flag that has not been parsed comes back from its spec equal in
  /// every field but the value, and the value has the same type.
  lemma FlagRoundTrip(f: Flag)
    ensures ValueType(ToFlag(SpecFromFlag(f)).value) == ValueType(f.value)
    ensures !f.changed <==> ToFlag(SpecFromFlag(f)) == f.(value := TypedValue(ValueType(f.value)))
  {
  }

  /// The specs of a list of flags, one for one.
  function SpecsOf(flags: seq<Flag>): (r: seq<FlagSpec>)
    ensures |r| == |flags|
  {
    seq(|flags|, i requires 0 <= i < |flags| => SpecFromFlag(flags[i]))
  }

  /// The flags of a list of specs, one for one.
  function FlagsOf(specs: seq<FlagSpec>): (r: seq<Flag>)
    ensures |r| == |specs|
  {
    seq(|specs|, i requires 0 <= i < |specs| => ToFlag(specs[i]))
  }

  /// `SpecsFromFlagset`: one spec per flag, in the order the flag set
  /// visits its flags (given here as the sequence `flags`).
  method SpecsFromFlagset(flags: seq<Flag>) returns (specs: seq<FlagSpec>)
    ensures |specs| == |flags|
    ensures forall i :: 0 <= i < |flags| ==> specs[i] == SpecFromFlag(flags[i])
  {
    specs := [];
    for i := 0 to |flags|
      invariant |specs| == i
      invariant forall k :: 0 <= k < i ==> specs[k] == SpecFromFlag(flags[k])
    {
      specs := specs + [SpecFromFlag(flags[i])];
    }
  }

  /// A list of specs survives the trip through flags unchanged.
  lemma SpecsRoundTrip(specs: seq<FlagSpec>)
    ensures SpecsOf(FlagsOf(specs)) == specs
  {
    forall i | 0 <= i < |specs|
      ensures SpecsOf(FlagsOf(specs))[i] == specs[i]
    {
      SpecRoundTrip(specs[i]);
    }
  }
}
