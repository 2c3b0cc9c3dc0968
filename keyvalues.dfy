/// The key/value suffix the renderers append to messages
/// (`formatKeysAndValues`). Keys and values are modelled as the strings
/// Go's `%s` and `%v` render them as.
module KeyValues {

  /// `strings.ContainsAny(value, " =")`.
  predicate NeedsQuotes(v: string) {
    ' ' in v || '=' in v
  }

  /// A value is put in double quotes, without any escaping, when it holds a
  /// space or an equals sign.
  function Quoted(v: string): string
  {
    if NeedsQuotes(v) then "\"" + v + "\"" else v
  }

  /// One pair: `" key=value"`.
  function PairText(key: string, value: string): string
  {
    " " + key + "=" + Quoted(value)
  }

  /// The complete pairs of `kv`, in order; a last key without a value
  /// adds nothing.
  function Pairs(kv: seq<string>): string
    decreases |kv|
  {
    if |kv| < 2 then "" else PairText(kv[0], kv[1]) + Pairs(kv[2..])
  }

  /// The suffix for a key/value list: nothing for an empty list, otherwise
  /// three spaces and then every complete pair.
  function FormatKV(kv: seq<string>): string
  {
    if kv == [] then "" else "   " + Pairs(kv)
  }

  /// `formatKeysAndValues`: the loop over the list, two entries at a time.
  method FormatKeysAndValues(kv: seq<string>) returns (result: string)
    ensures result == FormatKV(kv)
  {
    if |kv| == 0 {
      return "";
    }
    result := "   ";
    var i := 1;
    while i < |kv|
      invariant 1 <= i <= |kv| + 1 && (i - 1) % 2 == 0
      invariant result == "   " + Pairs(kv[..i - 1])
    {
      var key := kv[i - 1];
      var value := kv[i];
      if NeedsQuotes(value) {
        value := "\"" + value + "\"";
      }
      assert value == Quoted(kv[i]);
      var pair := " " + key + "=" + value;
      assert pair == PairText(kv[i - 1], kv[i]);
      PairsStep(kv, i);
      AppendAssociative("   ", Pairs(kv[..i - 1]), pair);
      result := result + pair;
      i := i + 2;
    }
    PairsAll(kv, i - 1);
  }

  lemma AppendAssociative(a: string, b: string, c: string)
    ensures a + (b + c) == a + b + c
  {
  }

  /// One more pair at the end of a prefix with whole pairs.
  lemma PairsStep(kv: seq<string>, i: nat)
    requires 1 <= i < |kv| && i % 2 == 1
    ensures Pairs(kv[..i + 1]) == Pairs(kv[..i - 1]) + PairText(kv[i - 1], kv[i])
  {
    PairsOne(kv[i - 1], kv[i]);
    PairsAppend(kv[..i - 1], [kv[i - 1], kv[i]]);
    assert kv[..i + 1] == kv[..i - 1] + [kv[i - 1], kv[i]];
  }

  /// A prefix that leaves out at most the last, unpaired key has every pair.
  lemma PairsAll(kv: seq<string>, j: nat)
    requires j % 2 == 0 && (j == |kv| || j + 1 == |kv|)
    ensures Pairs(kv[..j]) == Pairs(kv)
  {
    if j == |kv| {
      assert kv[..j] == kv;
    } else {
      assert kv == kv[..j] + [kv[j]];
      PairsAppend(kv[..j], [kv[j]]);
    }
  }

  lemma PairsOne(key: string, value: string)
    ensures Pairs([key, value]) == PairText(key, value)
  {
    assert [key, value][2..] == [];
  }

  /// Pairs of a concatenation, when the first list holds whole pairs only.
  lemma {:induction false} PairsAppend(a: seq<string>, b: seq<string>)
    requires |a| % 2 == 0
    ensures Pairs(a + b) == Pairs(a) + Pairs(b)
    decreases |a|
  {
    if a == [] {
      assert a + b == b;
    } else {
      assert (a + b)[2..] == a[2..] + b;
      PairsAppend(a[2..], b);
    }
  }

  /// Adding pairs to a non-empty list with whole pairs only extends its
  /// suffix with exactly the new pairs.
  lemma AppendPairs(a: seq<string>, b: seq<string>)
    requires a != [] && |a| % 2 == 0
    ensures FormatKV(a + b) == FormatKV(a) + Pairs(b)
  {
    PairsAppend(a, b);
  }

  /// A trailing key without a value changes nothing.
  lemma TrailingKeyDropped(kv: seq<string>, key: string)
    requires kv != [] && |kv| % 2 == 0
    ensures FormatKV(kv + [key]) == FormatKV(kv)
  {
    PairsAppend(kv, [key]);
  }

  /// The first pair follows four spaces: the three of the prefix and the
  /// one in front of every pair.
  lemma FirstPair(k: string, v: string, rest: seq<string>)
    ensures FormatKV([k, v] + rest) == "    " + k + "=" + Quoted(v) + Pairs(rest)
  {
    assert ([k, v] + rest)[2..] == rest;
  }

  /// A value changes exactly when it holds a space or an equals sign, and
  /// then only by the two quotes around it: nothing inside is escaped.
  lemma QuotedKeepsValue(v: string)
    ensures Quoted(v) == v <==> !(' ' in v || '=' in v)
    ensures Quoted(v) != v ==>
              |Quoted(v)| == |v| + 2 && Quoted(v)[0] == '"' && Quoted(v)[|v| + 1] == '"'
              && Quoted(v)[1..|v| + 1] == v
  {
  }
}
