/**
 * The `system_config` table: one record per dotted key, holding a value as text together
 * with the name of its type. Records are objects updated in place; the table is a map from
 * key to record. `float()`, `str(float)` and `str` of other values are given as functions.
 */
module SystemConfig {
  import opened Wrappers
  import opened Values
  import Config

  /** The text `set_value` stores for `raw` under `valueType`, or the error `int()`/`float()` raises. */
  function StoredText(raw: Value, valueType: string, render: Value -> string, parseFloat: string -> Result<real>,
                      floatText: real -> string): Result<string>
  {
    if valueType == "int" then
      match IntOf(raw)
      case Ok(i) => Ok(IntText(i))
      case Err(e) => Err(e)
    else if valueType == "float" then
      match Config.FloatOf(raw, parseFloat)
      case Ok(r) => Ok(floatText(r))
      case Err(e) => Err(e)
    else if valueType == "bool" then Ok(if Truthy(raw) then "1" else "0")
    else Ok(Text(raw, render))
  }

  /** `get_typed_value` on a stored text and type name; there is no `json` branch and the type name is not lowercased. */
  function TypedValue(value: string, valueType: string, parseFloat: string -> Result<real>): Result<Value>
  {
    if valueType == "int" then
      match ParseInt(value)
      case Ok(i) => Ok(Int(i))
      case Err(e) => Err(e)
    else if valueType == "float" then
      match parseFloat(value)
      case Ok(r) => Ok(Float(r))
      case Err(e) => Err(e)
    else if valueType == "bool" then Ok(Bool(Config.TrueText(value)))
    else Ok(Str(value))
  }

  /** The key `set_config` stores under: the key itself when it is already dotted or there is no namespace. */
  function DottedKey(key: string, namespace: Option<string>): string
  {
    if HasChar(key, '.') || namespace.None? || namespace == Some("") then key
    else namespace.value + "." + key
  }

  class Record {
    const key: string
    var value: string
    var valueType: string

    constructor(key: string, valueType: string, value: string)
      ensures this.key == key && this.valueType == valueType && this.value == value
    {
      this.key := key;
      this.valueType := valueType;
      this.value := value;
    }

    /** `get_typed_value`. */
    function GetTypedValue(parseFloat: string -> Result<real>): Result<Value>
      reads this
    {
      TypedValue(value, valueType, parseFloat)
    }

    /**
     * `set_value`: the type name is assigned first, then the text; when `int()` or `float()`
     * raises, the new type name stays and the old text is kept.
     */
    method SetValue(raw: Value, valueType: string, render: Value -> string, parseFloat: string -> Result<real>,
                    floatText: real -> string)
      returns (r: Outcome)
      modifies this
      ensures this.valueType == valueType
      ensures StoredText(raw, valueType, render, parseFloat, floatText).Ok? ==>
        r == Pass && value == StoredText(raw, valueType, render, parseFloat, floatText).value
      ensures StoredText(raw, valueType, render, parseFloat, floatText).Err? ==>
        r == Fail(StoredText(raw, valueType, render, parseFloat, floatText).error) && value == old(value)
    {
      this.valueType := valueType;
      var text := StoredText(raw, valueType, render, parseFloat, floatText);
      if text.Err? {
        return Fail(text.error);
      }
      value := text.value;
      r := Pass;
    }
  }

  class Table {
    var records: map<string, Record>

    /** Every record is filed under its own key, so distinct keys hold distinct records. */
    predicate Valid()
      reads this, records.Values
    {
      forall k :: k in records ==> records[k].key == k
    }

    constructor()
      ensures records == map[] && Valid()
    {
      records := map[];
    }

    /**
     * `set_config`: find the record of the dotted key or create one holding `str(value)`,
     * then `set_value` it. Afterwards exactly one record has the key; no other record changes.
     */
    method SetConfig(key: string, value: Value, valueType: string, namespace: Option<string>,
                     render: Value -> string, parseFloat: string -> Result<real>, floatText: real -> string)
      returns (record: Record, r: Outcome)
      requires Valid()
      modifies this, records.Values
      ensures Valid()
      ensures records.Keys == old(records.Keys) + {DottedKey(key, namespace)}
      ensures DottedKey(key, namespace) in records && records[DottedKey(key, namespace)] == record
      ensures DottedKey(key, namespace) in old(records) ==> record == old(records[DottedKey(key, namespace)])
      ensures DottedKey(key, namespace) !in old(records) ==> fresh(record)
      ensures record.valueType == valueType
      ensures StoredText(value, valueType, render, parseFloat, floatText).Ok? ==>
        r == Pass && record.value == StoredText(value, valueType, render, parseFloat, floatText).value
      ensures StoredText(value, valueType, render, parseFloat, floatText).Err? ==>
        r == Fail(StoredText(value, valueType, render, parseFloat, floatText).error) &&
        record.value == (if DottedKey(key, namespace) in old(records)
                         then old(records[DottedKey(key, namespace)].value) else Text(value, render))
      ensures forall k :: k in old(records) && k != DottedKey(key, namespace) ==>
        records[k] == old(records[k]) && records[k].value == old(records[k].value) && records[k].valueType == old(records[k].valueType)
    {
      var dotted := DottedKey(key, namespace);
      if dotted in records {
        record := records[dotted];
      } else {
        record := new Record(dotted, valueType, Text(value, render));
        records := records[dotted := record];
      }
      r := record.SetValue(value, valueType, render, parseFloat, floatText);
    }
  }

  // ---------------------------------------------------------------------------
  // Properties

  /** A bool is stored as "1" or "0" and reads back as its truth value. */
  lemma BoolRoundTrip(raw: Value, render: Value -> string, parseFloat: string -> Result<real>, floatText: real -> string)
    ensures StoredText(raw, "bool", render, parseFloat, floatText).Ok?
    ensures TypedValue(StoredText(raw, "bool", render, parseFloat, floatText).value, "bool", parseFloat) == Ok(Bool(Truthy(raw)))
  {
    assert Lower("1") == "1";
    assert Lower("0") == "0";
  }

  /** An int is stored in decimal and reads back as the same int. */
  lemma IntRoundTrip(raw: Value, render: Value -> string, parseFloat: string -> Result<real>, floatText: real -> string)
    requires IntOf(raw).Ok?
    ensures StoredText(raw, "int", render, parseFloat, floatText).Ok?
    ensures TypedValue(StoredText(raw, "int", render, parseFloat, floatText).value, "int", parseFloat) == Ok(Int(IntOf(raw).value))
  {
    IntTextRoundTrip(IntOf(raw).value);
  }

  /** A float reads back as the same float whenever `float(str(x)) == x`. */
  lemma FloatRoundTrip(raw: Value, render: Value -> string, parseFloat: string -> Result<real>, floatText: real -> string)
    requires Config.FloatOf(raw, parseFloat).Ok?
    requires parseFloat(floatText(Config.FloatOf(raw, parseFloat).value)) == Ok(Config.FloatOf(raw, parseFloat).value)
    ensures TypedValue(StoredText(raw, "float", render, parseFloat, floatText).value, "float", parseFloat) == Ok(Float(Config.FloatOf(raw, parseFloat).value))
  {
  }

  /** Any other type name, `json` included, stores `str(raw)` and reads it back as that string. */
  lemma OtherRoundTrip(raw: Value, valueType: string, render: Value -> string, parseFloat: string -> Result<real>,
                       floatText: real -> string)
    requires valueType !in {"int", "float", "bool"}
    ensures StoredText(raw, valueType, render, parseFloat, floatText) == Ok(Text(raw, render))
    ensures TypedValue(Text(raw, render), valueType, parseFloat) == Ok(Str(Text(raw, render)))
  {
  }

  /** A string stored as `json` comes back as its text, unparsed. */
  lemma JsonStaysText(s: string, render: Value -> string, parseFloat: string -> Result<real>, floatText: real -> string)
    ensures TypedValue(StoredText(Str(s), "json", render, parseFloat, floatText).value, "json", parseFloat) == Ok(Str(s))
  {
  }

  /** A plain key in a plain namespace becomes `namespace.key`, which splits back into the two. */
  lemma NamespacedKey(key: string, ns: string)
    requires !HasChar(key, '.') && !HasChar(ns, '.') && ns != ""
    ensures DottedKey(key, Some(ns)) == ns + "." + key
    ensures Config.Split(DottedKey(key, Some(ns)), '.') == [ns, key]
  {
    Config.SplitPair(ns, key, '.');
  }

  /** A key that already has a dot, or has no namespace, is stored as given. */
  lemma PlainKey(key: string, namespace: Option<string>)
    requires HasChar(key, '.') || namespace.None? || namespace == Some("")
    ensures DottedKey(key, namespace) == key
  {
  }

  /** For the lowercase names `int`, `float`, `bool` and `str`, the loader's decoding agrees with `get_typed_value`. */
  lemma ReadersAgree(value: string, valueType: string, parseFloat: string -> Result<real>, parseJson: string -> Result<Value>)
    requires valueType in {"int", "float", "bool", "str"}
    ensures Config.DeserializeValue(value, Some(valueType), parseFloat, parseJson) == TypedValue(value, valueType, parseFloat)
  {
    assert Lower("int") == "int" && Lower("float") == "float" && Lower("bool") == "bool" && Lower("str") == "str";
  }

  /** The two readers part on `json` and on upper-case type names: "INT" is parsed by the loader but left as text here. */
  lemma ReadersDiffer(parseFloat: string -> Result<real>, parseJson: string -> Result<Value>)
    ensures Config.DeserializeValue("7", Some("INT"), parseFloat, parseJson) == Ok(Int(7))
    ensures TypedValue("7", "INT", parseFloat) == Ok(Str("7"))
  {
    assert Lower("INT") == "int";
    assert DigitsValue("7") == 7 by {
      assert "7"[..0] == "";
    }
  }

  /**
   * A bool setting written under a namespace lands, when the loader reads the table back,
   * at `[namespace][key]` of the override tree with its truth value.
   */
  lemma BoolSettingLands(base: Config.Tree, key: string, ns: string, raw: Value, render: Value -> string,
                         parseFloat: string -> Result<real>, floatText: real -> string, parseJson: string -> Result<Value>)
    requires !HasChar(key, '.') && !HasChar(ns, '.') && ns != ""
    requires ns !in base || base[ns].Dict?
    ensures var stored := StoredText(raw, "bool", render, parseFloat, floatText).value;
      var decoded := Config.DeserializeValue(stored, Some("bool"), parseFloat, parseJson);
      decoded == Ok(Bool(Truthy(raw)))
      && Config.ApplyOverride(base, DottedKey(key, Some(ns)), Bool(Truthy(raw))).Ok?
      && Config.Lookup(Config.ApplyOverride(base, DottedKey(key, Some(ns)), Bool(Truthy(raw))).value, [ns, key]) == Some(Bool(Truthy(raw)))
  {
    BoolRoundTrip(raw, render, parseFloat, floatText);
    ReadersAgree(StoredText(raw, "bool", render, parseFloat, floatText).value, "bool", parseFloat, parseJson);
    NamespacedKey(key, ns);
    var parts := [ns, key];
    Config.SetPathSucceeds(base, parts, Bool(Truthy(raw)));
    Config.SetPathLookup(base, parts, Bool(Truthy(raw)));
  }
}
