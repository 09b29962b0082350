/**
 * The configuration tree: the default configuration, the recursive merge of overrides into
 * it, dotted-key overrides, the decoding of typed override values, and the required-key and
 * range checks a merged configuration must pass. Trees are `Values.Value` dictionaries.
 */
module Config {
  import opened Wrappers
  import opened Values

  type Tree = map<string, Value>

  const SupportedBaud: set<int> := {512, 1200, 2400}

  const SystemDefaults: Tree := map[
    "frequency" := Float(929.6125),
    "transmit_power" := Int(10),
    "if_gain" := Int(40),
    "sample_rate" := Float(12.0),
    "database_path" := Str("pisag.db"),
    "log_level" := Str("INFO")]

  const PocsagDefaults: Tree := map[
    "baud_rate" := Int(1200),
    "deviation" := Float(4.5),
    "invert" := Bool(false)]

  const GrPocsagDefaults: Tree := map[
    "script_path" := Str("EXTERNAL/gr-pocsag-master/pocsag_sender.py"),
    "use_subprocess" := Bool(true),
    "dry_run" := Bool(false),
    "subric" := Int(0),
    "af_gain" := Int(190),
    "max_deviation" := Float(4500.0),
    "symrate" := Int(38400),
    "sample_rate" := Int(12000000)]

  const HackrfDefaults: Tree := map["device_index" := Int(0), "antenna_enable" := Bool(true)]

  const PluginDefaults: Tree := map[
    "pocsag_encoder" := Str("pisag.plugins.encoders.gr_pocsag.GrPocsagEncoder"),
    "sdr_interface" := Str("pisag.plugins.sdr.noop.NoopSDRInterface")]

  const WebDefaults: Tree := map["host" := Str("0.0.0.0"), "port" := Int(5000), "debug" := Bool(false)]

  /** The sections of `_DEFAULT_CONFIG`, each a dict of settings. */
  const DefaultSections: map<string, Tree> := map[
    "system" := SystemDefaults,
    "pocsag" := PocsagDefaults,
    "gr_pocsag" := GrPocsagDefaults,
    "hackrf" := HackrfDefaults,
    "plugins" := PluginDefaults,
    "web" := WebDefaults]

  /** `_DEFAULT_CONFIG`. */
  const DefaultConfig: Tree := map s | s in DefaultSections :: Dict(DefaultSections[s])

  const FrequencyError: Exception := ConfigurationError("Frequency must be between 1 and 6000 MHz for HackRF.")
  const PowerError: Exception := ConfigurationError("Transmit power must be between -10 and 15 dBm.")
  const SampleRateError: Exception := ConfigurationError("Sample rate must be between 2 and 30 MHz.")
  const BaudError: Exception := ConfigurationError("POCSAG baud rate must be one of (512, 1200, 2400).")

  // ---------------------------------------------------------------------------
  // Merging

  /**
   * `_deep_update(target, updates)`: a key whose old and new values are both dicts is merged
   * recursively; every other key of `updates` replaces the old value; the other keys of
   * `target` are kept.
   */
  function DeepUpdate(target: Tree, updates: Tree): (merged: Tree)
    ensures merged.Keys == target.Keys + updates.Keys
    decreases Dict(updates)
  {
    map k | k in target.Keys + updates.Keys ::
      if k in updates then
        if updates[k].Dict? && k in target && target[k].Dict? then Dict(DeepUpdate(target[k].fields, updates[k].fields))
        else updates[k]
      else target[k]
  }

  // ---------------------------------------------------------------------------
  // Dotted keys

  /** `s.split(sep)`: the pieces between separators, always at least one. */
  function Split(s: string, sep: char): (parts: seq<string>)
    ensures |parts| >= 1
  {
    if |s| == 0 then [""]
    else
      var init := Split(s[..|s| - 1], sep);
      var ch := s[|s| - 1];
      if ch == sep then init + [""] else init[..|init| - 1] + [init[|init| - 1] + [ch]]
  }

  /** `sep.join(parts)`. */
  function Join(parts: seq<string>, sep: char): string
    requires |parts| >= 1
  {
    if |parts| == 1 then parts[0] else Join(parts[..|parts| - 1], sep) + [sep] + parts[|parts| - 1]
  }

  /** The value found by walking `parts` through nested dicts, if every step exists. */
  function Lookup(tree: Tree, parts: seq<string>): Option<Value>
    requires |parts| >= 1
    decreases |parts|
  {
    if parts[0] !in tree then None
    else if |parts| == 1 then Some(tree[parts[0]])
    else match tree[parts[0]]
      case Dict(fields) => Lookup(fields, parts[1..])
      case _ => None
  }

  /** `value` under a chain of fresh one-key dicts, one per part. */
  function Nest(parts: seq<string>, value: Value): Value
    decreases |parts|
  {
    if |parts| == 0 then value else Dict(map[parts[0] := Nest(parts[1..], value)])
  }

  /**
   * The walk of `_apply_override`: `setdefault(part, {})` for every part but the last, then an
   * assignment. A non-dict met on the way has no `setdefault`; at the last step a list refuses
   * a string index and any other non-dict does not support item assignment.
   */
  function SetPath(tree: Tree, parts: seq<string>, value: Value): Result<Tree>
    requires |parts| >= 1
    decreases |parts|
  {
    if |parts| == 1 then Ok(tree[parts[0] := value])
    else
      var child := if parts[0] in tree then tree[parts[0]] else Dict(map[]);
      if !child.Dict? then
        if |parts| == 2 then
          if child.List? then Err(TypeError("list indices must be integers or slices, not str"))
          else Err(TypeError("'" + TypeName(child) + "' object does not support item assignment"))
        else Err(AttributeError("'" + TypeName(child) + "' object has no attribute 'setdefault'"))
      else
        match SetPath(child.fields, parts[1..], value)
        case Ok(fields) => Ok(tree[parts[0] := Dict(fields)])
        case Err(e) => Err(e)
  }

  /** Every proper prefix of the path is a dict or missing. */
  predicate Walkable(tree: Tree, parts: seq<string>)
    requires |parts| >= 1
    decreases |parts|
  {
    |parts| == 1 || parts[0] !in tree || (tree[parts[0]].Dict? && Walkable(tree[parts[0]].fields, parts[1..]))
  }

  /** `_apply_override(base, dotted_key, value)`. */
  function ApplyOverride(base: Tree, dottedKey: string, value: Value): Result<Tree>
  {
    SetPath(base, Split(dottedKey, '.'), value)
  }

  // ---------------------------------------------------------------------------
  // Typed values

  /** `value_type or "str"`: an absent or empty type name means `str`. */
  function TypeOrStr(valueType: Option<string>): string
  {
    match valueType
    case Some(t) => if t == "" then "str" else t
    case None => "str"
  }

  /** The raw strings a `bool` setting treats as true. */
  predicate TrueText(raw: string)
  {
    Lower(raw) in {"1", "true", "yes"}
  }

  /** `_deserialize_value(raw, value_type)`; `float()` and `json.loads` are given as `parseFloat` and `parseJson`. */
  function DeserializeValue(raw: string, valueType: Option<string>, parseFloat: string -> Result<real>,
                            parseJson: string -> Result<Value>): Result<Value>
  {
    var t := Lower(TypeOrStr(valueType));
    if t == "int" then
      match ParseInt(raw)
      case Ok(i) => Ok(Int(i))
      case Err(e) => Err(e)
    else if t == "float" then
      match parseFloat(raw)
      case Ok(r) => Ok(Float(r))
      case Err(e) => Err(e)
    else if t == "bool" then Ok(Bool(TrueText(raw)))
    else if t == "json" then parseJson(raw)
    else Ok(Str(raw))
  }

  // ---------------------------------------------------------------------------
  // Checks

  /** `v[key]` for a string key. */
  function Index(v: Value, key: string): Result<Value>
  {
    match v
    case Dict(fields) => if key in fields then Ok(fields[key]) else Err(KeyError(key))
    case Str(_) => Err(TypeError("string indices must be integers, not 'str'"))
    case List(_) => Err(TypeError("list indices must be integers or slices, not str"))
    case _ => Err(TypeError("'" + TypeName(v) + "' object is not subscriptable"))
  }

  /** `v.get(key, default)`: only a dict has `get`. */
  function Get(v: Value, key: string, default: Value): Result<Value>
  {
    match v
    case Dict(fields) => Ok(if key in fields then fields[key] else default)
    case _ => Err(AttributeError("'" + TypeName(v) + "' object has no attribute 'get'"))
  }

  /** `cfg[section][key]`. */
  function Setting(cfg: Tree, section: string, key: string): Result<Value>
  {
    var s :- Index(Dict(cfg), section);
    Index(s, key)
  }

  /** `float(v)`; the parse of a string is `parseFloat`. */
  function FloatOf(v: Value, parseFloat: string -> Result<real>): Result<real>
  {
    match v
    case Float(r) => Ok(r)
    case Int(i) => Ok(i as real)
    case Bool(b) => Ok(if b then 1.0 else 0.0)
    case Str(s) => parseFloat(s)
    case _ => Err(TypeError("float() argument must be a string or a real number, not '" + TypeName(v) + "'"))
  }

  function RealSetting(cfg: Tree, section: string, key: string, parseFloat: string -> Result<real>): Result<real>
  {
    var v :- Setting(cfg, section, key);
    FloatOf(v, parseFloat)
  }

  function IntSetting(cfg: Tree, section: string, key: string): Result<int>
  {
    var v :- Setting(cfg, section, key);
    IntOf(v)
  }

  predicate OccursAt(needle: string, haystack: string, i: nat)
  {
    i + |needle| <= |haystack| && haystack[i..i + |needle|] == needle
  }

  /** `needle in haystack` for strings. */
  predicate Substring(needle: string, haystack: string)
  {
    exists i :: 0 <= i <= |haystack| && OccursAt(needle, haystack, i)
  }

  /** `key in v`: a dict's keys, a string's substrings, a list's items; other values are not iterable. */
  function Contains(v: Value, key: string): Result<bool>
  {
    match v
    case Dict(fields) => Ok(key in fields)
    case Str(s) => Ok(Substring(key, s))
    case List(items) => Ok(Str(key) in items)
    case _ => Err(TypeError("argument of type '" + TypeName(v) + "' is not iterable"))
  }

  /** The `(section, key)` pairs `_require_keys` checks, in order. */
  const RequiredPaths: seq<(string, string)> :=
    [("system", "frequency"), ("system", "transmit_power"), ("system", "sample_rate"), ("pocsag", "baud_rate")]

  predicate Present(cfg: Tree, section: string, key: string)
  {
    section in cfg && cfg[section].Dict? && key in cfg[section].fields
  }

  function MissingKeyError(section: string, key: string): Exception
  {
    ConfigurationError("Missing required configuration key: " + section + "." + key)
  }

  /** The loop of `_require_keys` over `paths`: the first missing key raises. */
  function RequireFrom(cfg: Tree, paths: seq<(string, string)>): Outcome
  {
    if |paths| == 0 then Pass
    else
      var section := paths[0].0;
      var key := paths[0].1;
      if section !in cfg then Fail(MissingKeyError(section, key))
      else match Contains(cfg[section], key)
        case Err(e) => Fail(e)
        case Ok(found) => if !found then Fail(MissingKeyError(section, key)) else RequireFrom(cfg, paths[1..])
  }

  function RequireKeys(cfg: Tree): Outcome
  {
    RequireFrom(cfg, RequiredPaths)
  }

  /** `_validate`: frequency, power, sample rate, then baud rate; a missing or unconvertible value raises its own error. */
  function Validate(cfg: Tree, parseFloat: string -> Result<real>): Outcome
  {
    match RealSetting(cfg, "system", "frequency", parseFloat)
    case Err(e) => Fail(e)
    case Ok(freq) =>
      if !(1.0 <= freq <= 6000.0) then Fail(FrequencyError)
      else match RealSetting(cfg, "system", "transmit_power", parseFloat)
        case Err(e) => Fail(e)
        case Ok(power) =>
          if !(-10.0 <= power <= 15.0) then Fail(PowerError)
          else match RealSetting(cfg, "system", "sample_rate", parseFloat)
            case Err(e) => Fail(e)
            case Ok(rate) =>
              if !(2.0 <= rate <= 30.0) then Fail(SampleRateError)
              else match IntSetting(cfg, "pocsag", "baud_rate")
                case Err(e) => Fail(e)
                case Ok(baud) => if baud !in SupportedBaud then Fail(BaudError) else Pass
  }

  // ---------------------------------------------------------------------------
  // Properties of merging

  /** Keys `updates` does not mention keep their old value. */
  lemma DeepUpdateKeeps(target: Tree, updates: Tree, k: string)
    requires k in target && k !in updates
    ensures DeepUpdate(target, updates)[k] == target[k]
  {
  }

  /** A key of `updates` is replaced outright unless both sides are dicts, which are merged. */
  lemma DeepUpdateReplaces(target: Tree, updates: Tree, k: string)
    requires k in updates
    ensures k in target && target[k].Dict? && updates[k].Dict? ==>
      DeepUpdate(target, updates)[k] == Dict(DeepUpdate(target[k].fields, updates[k].fields))
    ensures !(k in target && target[k].Dict? && updates[k].Dict?) ==> DeepUpdate(target, updates)[k] == updates[k]
  {
  }

  /** Empty updates change nothing. */
  lemma DeepUpdateEmpty(target: Tree)
    ensures DeepUpdate(target, map[]) == target
  {
  }

  /** Merging a tree into itself changes nothing. */
  lemma {:induction false} DeepUpdateSelf(tree: Tree)
    ensures DeepUpdate(tree, tree) == tree
    decreases Dict(tree)
  {
    forall k | k in tree
      ensures DeepUpdate(tree, tree)[k] == tree[k]
    {
      if tree[k].Dict? {
        DeepUpdateSelf(tree[k].fields);
      }
    }
  }

  /** Applying the same updates twice is applying them once. */
  lemma {:induction false} DeepUpdateIdempotent(target: Tree, updates: Tree)
    ensures DeepUpdate(DeepUpdate(target, updates), updates) == DeepUpdate(target, updates)
    decreases Dict(updates)
  {
    var once := DeepUpdate(target, updates);
    forall k | k in once
      ensures DeepUpdate(once, updates)[k] == once[k]
    {
      if k in updates && updates[k].Dict? {
        if k in target && target[k].Dict? {
          DeepUpdateIdempotent(target[k].fields, updates[k].fields);
        } else {
          DeepUpdateSelf(updates[k].fields);
        }
      }
    }
  }

  // ---------------------------------------------------------------------------
  // Properties of dotted keys

  lemma {:induction false} SplitJoin(s: string, sep: char)
    ensures Join(Split(s, sep), sep) == s
    decreases |s|
  {
    if |s| > 0 {
      var init := s[..|s| - 1];
      var parts := Split(init, sep);
      SplitJoin(init, sep);
      if s[|s| - 1] != sep {
        var last := parts[|parts| - 1];
        var front := parts[..|parts| - 1];
        var parts' := Split(s, sep);
        assert parts'[..|parts'| - 1] == front;
        if |parts| == 1 {
          assert init == last;
        } else {
          assert Join(parts, sep) == Join(front, sep) + [sep] + last;
        }
      }
      assert init + [s[|s| - 1]] == s;
    }
  }

  /** No piece of a split contains the separator. */
  lemma {:induction false} SplitPieces(s: string, sep: char)
    ensures forall j :: 0 <= j < |Split(s, sep)| ==> !HasChar(Split(s, sep)[j], sep)
    decreases |s|
  {
    if |s| > 0 {
      SplitPieces(s[..|s| - 1], sep);
    }
  }

  /** A key without a separator splits into itself. */
  lemma {:induction false} SplitWhole(s: string, sep: char)
    requires !HasChar(s, sep)
    ensures Split(s, sep) == [s]
    decreases |s|
  {
    if |s| > 0 {
      var init := s[..|s| - 1];
      assert !HasChar(init, sep) by {
        forall i | 0 <= i < |init|
          ensures init[i] != sep
        {
          assert init[i] == s[i];
        }
      }
      SplitWhole(init, sep);
      assert init + [s[|s| - 1]] == s;
    }
  }

  /** Appending a character other than the separator extends the last piece. */
  lemma SplitSnoc(s: string, ch: char, sep: char)
    requires ch != sep
    ensures var parts := Split(s, sep);
      Split(s + [ch], sep) == parts[..|parts| - 1] + [parts[|parts| - 1] + [ch]]
  {
    var s' := s + [ch];
    assert s'[..|s'| - 1] == s;
  }

  /** Appending the pieces `A + [L]` with `u` glued to the last: a step of `SplitExtend`. */
  lemma ExtendLast(front: seq<string>, last: string, u: string, ch: char)
    ensures var parts := front + [last + u];
      parts[..|parts| - 1] + [parts[|parts| - 1] + [ch]] == front + [last + (u + [ch])]
  {
    var parts := front + [last + u];
    assert parts[..|parts| - 1] == front;
    assert (last + u) + [ch] == last + (u + [ch]);
  }

  /** One character more: the step of `SplitExtend`'s induction. */
  lemma SplitExtendStep(p: string, t: string, ch: char, sep: char, front: seq<string>, last: string)
    requires ch != sep
    requires Split(p + t, sep) == front + [last + t]
    ensures Split(p + (t + [ch]), sep) == front + [last + (t + [ch])]
  {
    SplitSnoc(p + t, ch, sep);
    ExtendLast(front, last, t, ch);
    assert (p + t) + [ch] == p + (t + [ch]);
  }

  /** Appending text without a separator extends the last piece. */
  lemma {:induction false} SplitExtend(p: string, t: string, sep: char)
    requires !HasChar(t, sep)
    ensures var parts := Split(p, sep);
      Split(p + t, sep) == parts[..|parts| - 1] + [parts[|parts| - 1] + t]
    decreases |t|
  {
    var parts := Split(p, sep);
    if |t| == 0 {
      assert p + t == p;
      assert parts[|parts| - 1] + t == parts[|parts| - 1];
      assert parts[..|parts| - 1] + [parts[|parts| - 1]] == parts;
    } else {
      var t' := t[..|t| - 1];
      assert t == t' + [t[|t| - 1]];
      assert !HasChar(t', sep) by {
        forall i | 0 <= i < |t'|
          ensures t'[i] != sep
        {
          assert t'[i] == t[i];
        }
      }
      SplitExtend(p, t', sep);
      SplitExtendStep(p, t', t[|t| - 1], sep, parts[..|parts| - 1], parts[|parts| - 1]);
    }
  }

  /** `"a.b".split(".") == ["a", "b"]` for pieces without a dot. */
  lemma SplitPair(a: string, b: string, sep: char)
    requires !HasChar(a, sep) && !HasChar(b, sep)
    ensures Split(a + [sep] + b, sep) == [a, b]
  {
    SplitWhole(a, sep);
    var a' := a + [sep];
    assert a'[..|a'| - 1] == a;
    assert Split(a', sep) == [a, ""];
    SplitExtend(a', b, sep);
    assert "" + b == b;
  }

  /** A walk over dicts or missing keys never fails, and one that meets another value always does. */
  lemma {:induction false} SetPathSucceeds(tree: Tree, parts: seq<string>, value: Value)
    requires |parts| >= 1
    ensures SetPath(tree, parts, value).Ok? <==> Walkable(tree, parts)
    decreases |parts|
  {
    if |parts| > 1 {
      if parts[0] in tree && tree[parts[0]].Dict? {
        SetPathSucceeds(tree[parts[0]].fields, parts[1..], value);
      } else if parts[0] !in tree {
        SetPathEmpty(parts[1..], value);
      }
    }
  }

  /** Walking an empty tree creates the whole chain of dicts. */
  lemma {:induction false} SetPathEmpty(parts: seq<string>, value: Value)
    requires |parts| >= 1
    ensures SetPath(map[], parts, value) == Ok(Nest(parts, value).fields)
    decreases |parts|
  {
    if |parts| > 1 {
      SetPathEmpty(parts[1..], value);
    }
  }

  /** Missing intermediate keys become fresh dicts holding the rest of the path. */
  lemma SetPathFresh(tree: Tree, parts: seq<string>, value: Value)
    requires |parts| >= 1 && parts[0] !in tree
    ensures SetPath(tree, parts, value) == Ok(tree[parts[0] := Nest(parts[1..], value)])
  {
    if |parts| > 1 {
      SetPathEmpty(parts[1..], value);
    }
  }

  /** After an override, walking the path yields the value. */
  lemma {:induction false} SetPathLookup(tree: Tree, parts: seq<string>, value: Value)
    requires |parts| >= 1 && SetPath(tree, parts, value).Ok?
    ensures Lookup(SetPath(tree, parts, value).value, parts) == Some(value)
    decreases |parts|
  {
    if |parts| > 1 {
      var child := if parts[0] in tree then tree[parts[0]] else Dict(map[]);
      SetPathLookup(child.fields, parts[1..], value);
    }
  }

  /** An override touches only the first key of its path, which it adds if missing. */
  lemma SetPathOthers(tree: Tree, parts: seq<string>, value: Value, k: string)
    requires |parts| >= 1 && SetPath(tree, parts, value).Ok?
    requires k in tree && k != parts[0]
    ensures k in SetPath(tree, parts, value).value && SetPath(tree, parts, value).value[k] == tree[k]
  {
  }

  /** Entries beside the overridden leaf, at any depth, are kept. */
  lemma {:induction false} SetPathSiblings(tree: Tree, parts: seq<string>, value: Value, other: seq<string>)
    requires 1 <= |parts| && 1 <= |other| && SetPath(tree, parts, value).Ok?
    requires Lookup(tree, other).Some?
    requires exists i :: 0 <= i < |parts| && i < |other| && parts[..i] == other[..i] && parts[i] != other[i]
    ensures Lookup(SetPath(tree, parts, value).value, other) == Lookup(tree, other)
    decreases |parts|
  {
    var i :| 0 <= i < |parts| && i < |other| && parts[..i] == other[..i] && parts[i] != other[i];
    if i > 0 {
      assert parts[0] == parts[..i][0] == other[..i][0] == other[0];
      assert parts[1..][..i - 1] == parts[..i][1..] && other[1..][..i - 1] == other[..i][1..];
      assert |parts| > 1;
      SetPathSiblings(tree[parts[0]].fields, parts[1..], value, other[1..]);
    }
  }

  /** `_apply_override` stores the value at its dotted path. */
  lemma ApplyOverrideLookup(base: Tree, dottedKey: string, value: Value)
    requires ApplyOverride(base, dottedKey, value).Ok?
    ensures Lookup(ApplyOverride(base, dottedKey, value).value, Split(dottedKey, '.')) == Some(value)
  {
    SetPathLookup(base, Split(dottedKey, '.'), value);
  }

  // ---------------------------------------------------------------------------
  // Properties of typed values

  /** The type name is case-insensitive. */
  lemma DeserializeCaseInsensitive(raw: string, valueType: string, parseFloat: string -> Result<real>,
                                   parseJson: string -> Result<Value>)
    ensures DeserializeValue(raw, Some(valueType), parseFloat, parseJson) == DeserializeValue(raw, Some(Lower(valueType)), parseFloat, parseJson)
  {
    LowerIdempotent(valueType);
  }

  /** A missing or empty type name, or an unknown one, gives back the raw string. */
  lemma DeserializeRaw(raw: string, valueType: Option<string>, parseFloat: string -> Result<real>,
                       parseJson: string -> Result<Value>)
    requires valueType.None? || valueType == Some("") || Lower(valueType.value) !in {"int", "float", "bool", "json"}
    ensures DeserializeValue(raw, valueType, parseFloat, parseJson) == Ok(Str(raw))
  {
    assert Lower("str") == "str";
  }

  /** A `bool` setting is true exactly for "1", "true" and "yes", in any case. */
  lemma DeserializeBool(raw: string, parseFloat: string -> Result<real>, parseJson: string -> Result<Value>)
    ensures DeserializeValue(raw, Some("Bool"), parseFloat, parseJson) == Ok(Bool(TrueText(raw)))
    ensures DeserializeValue("YES", Some("bool"), parseFloat, parseJson) == Ok(Bool(true))
  {
    assert Lower("Bool") == "bool";
    assert Lower("YES") == "yes";
  }

  /** An `int` setting stored as `str(n)` decodes to `n`. */
  lemma DeserializeInt(n: int, parseFloat: string -> Result<real>, parseJson: string -> Result<Value>)
    ensures DeserializeValue(IntText(n), Some("int"), parseFloat, parseJson) == Ok(Int(n))
  {
    IntTextRoundTrip(n);
    assert Lower("int") == "int";
  }

  // ---------------------------------------------------------------------------
  // Properties of the checks

  /** A tree whose every section is a dict. */
  predicate Sectioned(cfg: Tree)
  {
    forall s :: s in cfg ==> cfg[s].Dict?
  }

  /** One round of the `_require_keys` loop over a sectioned tree. */
  lemma RequireStep(cfg: Tree, paths: seq<(string, string)>, section: string, key: string, rest: seq<(string, string)>)
    requires Sectioned(cfg) && paths == [(section, key)] + rest
    ensures RequireFrom(cfg, paths) == if Present(cfg, section, key) then RequireFrom(cfg, rest) else Fail(MissingKeyError(section, key))
  {
    assert paths[0] == (section, key) && paths[1..] == rest;
  }

  /** For a tree whose sections are dicts, `_require_keys` passes exactly when all four keys are present. */
  lemma RequireKeysPasses(cfg: Tree)
    requires Sectioned(cfg)
    ensures RequireKeys(cfg) == Pass <==>
      Present(cfg, "system", "frequency") && Present(cfg, "system", "transmit_power")
      && Present(cfg, "system", "sample_rate") && Present(cfg, "pocsag", "baud_rate")
  {
    var p3: seq<(string, string)> := [("pocsag", "baud_rate")];
    var p2 := [("system", "sample_rate")] + p3;
    var p1 := [("system", "transmit_power")] + p2;
    assert RequiredPaths == [("system", "frequency")] + p1;
    RequireStep(cfg, RequiredPaths, "system", "frequency", p1);
    RequireStep(cfg, p1, "system", "transmit_power", p2);
    RequireStep(cfg, p2, "system", "sample_rate", p3);
    RequireStep(cfg, p3, "pocsag", "baud_rate", []);
  }

  /** Over a sectioned tree, every failure of the loop is a `ConfigurationError` naming a missing key. */
  lemma {:induction false} RequireFromErrors(cfg: Tree, paths: seq<(string, string)>)
    requires Sectioned(cfg) && RequireFrom(cfg, paths).Fail?
    ensures exists j :: (0 <= j < |paths| && !Present(cfg, paths[j].0, paths[j].1)
                         && RequireFrom(cfg, paths).error == MissingKeyError(paths[j].0, paths[j].1))
    decreases |paths|
  {
    if Present(cfg, paths[0].0, paths[0].1) {
      RequireFromErrors(cfg, paths[1..]);
      var j :| 0 <= j < |paths[1..]| && !Present(cfg, paths[1..][j].0, paths[1..][j].1)
        && RequireFrom(cfg, paths[1..]).error == MissingKeyError(paths[1..][j].0, paths[1..][j].1);
      assert paths[j + 1] == paths[1..][j];
    } else {
      assert !Present(cfg, paths[0].0, paths[0].1);
    }
  }

  /** A missing frequency is reported before any other missing key. */
  lemma FrequencyReportedFirst(cfg: Tree)
    requires "system" in cfg && cfg["system"].Dict? && "frequency" !in cfg["system"].fields
    ensures RequireKeys(cfg) == Fail(MissingKeyError("system", "frequency"))
  {
    assert RequiredPaths[0] == ("system", "frequency");
  }

  /** `_validate` accepts exactly the trees whose four settings convert and lie in range. */
  lemma ValidateAccepts(cfg: Tree, parseFloat: string -> Result<real>)
    ensures Validate(cfg, parseFloat) == Pass <==>
      && RealSetting(cfg, "system", "frequency", parseFloat).Ok?
      && 1.0 <= RealSetting(cfg, "system", "frequency", parseFloat).value <= 6000.0
      && RealSetting(cfg, "system", "transmit_power", parseFloat).Ok?
      && -10.0 <= RealSetting(cfg, "system", "transmit_power", parseFloat).value <= 15.0
      && RealSetting(cfg, "system", "sample_rate", parseFloat).Ok?
      && 2.0 <= RealSetting(cfg, "system", "sample_rate", parseFloat).value <= 30.0
      && IntSetting(cfg, "pocsag", "baud_rate").Ok?
      && IntSetting(cfg, "pocsag", "baud_rate").value in SupportedBaud
  {
  }

  /** The default configuration has every required key and passes validation. */
  lemma DefaultConfigValid(parseFloat: string -> Result<real>)
    ensures RequireKeys(DefaultConfig) == Pass
    ensures Validate(DefaultConfig, parseFloat) == Pass
  {
    DefaultSettings();
    DefaultSectioned();
    RequireKeysPasses(DefaultConfig);
  }

  lemma DefaultSectioned()
    ensures Sectioned(DefaultConfig)
    ensures Present(DefaultConfig, "system", "frequency") && Present(DefaultConfig, "system", "transmit_power")
    ensures Present(DefaultConfig, "system", "sample_rate") && Present(DefaultConfig, "pocsag", "baud_rate")
  {
    DefaultSystem();
    DefaultPocsag();
  }

  lemma DefaultSettings()
    ensures Setting(DefaultConfig, "system", "frequency") == Ok(Float(929.6125))
    ensures Setting(DefaultConfig, "system", "transmit_power") == Ok(Int(10))
    ensures Setting(DefaultConfig, "system", "sample_rate") == Ok(Float(12.0))
    ensures Setting(DefaultConfig, "pocsag", "baud_rate") == Ok(Int(1200))
  {
    DefaultSystem();
    DefaultPocsag();
  }

  lemma DefaultSystem()
    ensures "system" in DefaultConfig && DefaultConfig["system"] == Dict(SystemDefaults)
  {
    assert "system" in DefaultSections;
  }

  lemma DefaultPocsag()
    ensures "pocsag" in DefaultConfig && DefaultConfig["pocsag"] == Dict(PocsagDefaults)
  {
    assert "pocsag" in DefaultSections;
  }
}
