/**
 * The configuration loader's dot-path lookup: `"a.b.c"` walks nested mappings one key at a
 * time and falls back to a default when a key is missing or a step lands on a non-mapping.
 */
module Config {
  import opened Wrappers
  import opened Types
  import Text

  /**
   * The value reached from `v` by looking up `keys` in turn, or None when some step has no
   * mapping to look into or the mapping lacks the key (Python's `KeyError`/`TypeError`).
   */
  function Lookup(v: Value, keys: seq<string>): Option<Value>
    decreases |keys|
  {
    if keys == [] then Some(v)
    else if v.VMap? && keys[0] in v.entries then Lookup(v.entries[keys[0]], keys[1..])
    else None
  }

  /** One step of the walk fails at `v` with key `k`. */
  predicate StepFails(v: Value, k: string) {
    !(v.VMap? && k in v.entries)
  }

  /** `_get_recursive(data, key_path, default)` as a value. */
  function Resolve(data: map<string, Value>, keyPath: string, default: Value): Value {
    match Lookup(VMap(data), Text.Split(keyPath, '.'))
    case Some(w) => w
    case None => default
  }

  /** `_get_recursive`: the loop over the split key path, leaving with the default on the first failed step. */
  method GetRecursive(data: map<string, Value>, keyPath: string, default: Value) returns (r: Value)
    ensures r == Resolve(data, keyPath, default)
  {
    var keys := Text.Split(keyPath, '.');
    var val := VMap(data);
    for i := 0 to |keys|
      invariant Lookup(VMap(data), keys) == Lookup(val, keys[i..])
    {
      assert keys[i..][1..] == keys[i + 1..];
      if !(val.VMap? && keys[i] in val.entries) {
        return default;
      }
      val := val.entries[keys[i]];
    }
    assert keys[|keys|..] == [];
    return val;
  }

  // ---------------------------------------------------------------------------------------
  // properties of the lookup

  /** Walking `a + b` is walking `a`, then `b` from where `a` ended. */
  lemma {:induction false} LookupAppend(v: Value, a: seq<string>, b: seq<string>)
    ensures Lookup(v, a + b) == (match Lookup(v, a) case Some(w) => Lookup(w, b) case None => None)
    decreases |a|
  {
    if a == [] {
      assert a + b == b;
    } else {
      assert (a + b)[0] == a[0] && (a + b)[1..] == a[1..] + b;
      if v.VMap? && a[0] in v.entries {
        LookupAppend(v.entries[a[0]], a[1..], b);
      }
    }
  }

  /**
   * When the walk reaches `w` after the first `i` keys and the next step fails there (a
   * missing key, or a number, string, list or None in place of a mapping), the default is
   * returned.
   */
  lemma FailedStepGivesDefault(data: map<string, Value>, keyPath: string, default: Value, i: nat, w: Value)
    requires i < |Text.Split(keyPath, '.')|
    requires Lookup(VMap(data), Text.Split(keyPath, '.')[..i]) == Some(w)
    requires StepFails(w, Text.Split(keyPath, '.')[i])
    ensures Resolve(data, keyPath, default) == default
  {
    var keys := Text.Split(keyPath, '.');
    assert keys == keys[..i] + keys[i..];
    LookupAppend(VMap(data), keys[..i], keys[i..]);
  }

  /**
   * When every step succeeds the nested value is returned as it is, even when it is None:
   * the default is only for failed steps.
   */
  lemma {:induction false} SuccessfulWalkIgnoresDefault(v: Value, keys: seq<string>)
    requires forall i :: 0 <= i < |keys| ==> Lookup(v, keys[..i]).Some? && !StepFails(Lookup(v, keys[..i]).value, keys[i])
    ensures Lookup(v, keys).Some?
    decreases |keys|
  {
    if keys != [] {
      assert keys[..0] == [];
      var u := v.entries[keys[0]];
      forall i | 0 <= i < |keys| - 1
        ensures Lookup(u, keys[1..][..i]).Some? && !StepFails(Lookup(u, keys[1..][..i]).value, keys[1..][i])
      {
        assert keys[..i + 1] == [keys[0]] + keys[1..][..i];
        assert keys[..i + 1][1..] == keys[1..][..i];
      }
      SuccessfulWalkIgnoresDefault(u, keys[1..]);
    }
  }

  /** A two-key path `"x.y"` splits into its two keys. */
  lemma SplitTwo(x: char, y: char)
    requires x != '.' && y != '.'
    ensures Text.Split([x, '.', y], '.') == [[x], [y]]
  {
    var s := [x, '.', y];
    assert s[1..] == ['.', y] && s[1..][1..] == [y] && [y][1..] == [];
    assert Text.Split([], '.') == [""];
    assert Text.Split([y], '.') == [[y] + ""] + [""][1..];
    assert [y] + "" == [y] && [""][1..] == [];
    assert Text.Split(['.', y], '.') == [""] + [[y]];
    assert Text.Split(s, '.') == [[x] + ""] + [[y]];
    assert [x] + "" == [x];
  }

  /** `"a.b"` on `{"a": {"b": None}}` gives None whatever the default. */
  lemma NestedNoneExample(default: Value)
    ensures Resolve(map["a" := VMap(map["b" := VNone])], "a.b", default) == VNone
  {
    var keys := Text.Split("a.b", '.');
    SplitTwo('a', 'b');
    assert ["a", "b"][1..] == ["b"] && ["b"][1..] == [];
  }

  /** `"a.c"` on the same data misses `c` and gives the default. */
  lemma MissingKeyExample(default: Value)
    ensures Resolve(map["a" := VMap(map["b" := VNone])], "a.c", default) == default
  {
    var keys := Text.Split("a.c", '.');
    SplitTwo('a', 'c');
    assert ["a", "c"][1..] == ["c"] && ["c"][1..] == [];
  }

  /** `"a.b"` where `a` holds a number: stepping into it gives the default. */
  lemma NonMappingExample(default: Value)
    ensures Resolve(map["a" := VInt(3)], "a.b", default) == default
  {
    var keys := Text.Split("a.b", '.');
    SplitTwo('a', 'b');
    assert ["a", "b"][1..] == ["b"];
  }

  /** `ConfigLoader`: the defaults and the prompts, each read with the same lookup. */
  class ConfigLoader {
    const config: map<string, Value>
    const prompts: map<string, Value>

    /** The two maps as loaded; reading the YAML files is not part of this model. */
    constructor(config: map<string, Value>, prompts: map<string, Value>)
      ensures this.config == config && this.prompts == prompts
    {
      this.config := config;
      this.prompts := prompts;
    }

    /** `get(key_path, default)`: a lookup in the configuration only. */
    method Get(keyPath: string, default: Value) returns (r: Value)
      ensures r == Resolve(config, keyPath, default)
    {
      r := GetRecursive(config, keyPath, default);
    }

    /** `get_prompt(key_path, default)`: the same lookup in the prompts only. */
    method GetPrompt(keyPath: string, default: Value) returns (r: Value)
      ensures r == Resolve(prompts, keyPath, default)
    {
      r := GetRecursive(prompts, keyPath, default);
    }
  }
}
