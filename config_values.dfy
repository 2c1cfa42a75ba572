/** The objects a DataTables configuration map holds: the values generators
    put under each parameter name and extensions merge into it. */
module ConfigValues {
  import W = Wrappers
  import opened JavaString
  import StringUtils

  datatype Value =
    | Null
    | Str(s: string)
    | Bool(b: bool)
    | Int(i: int)
    | Func(code: string)                 // JavascriptFunction
    | Snippet(js: string)                // JavascriptSnippet
    | StrBuilder(text: string)           // StringBuilder
    | List(items: seq<Value>)
    | Obj(entries: map<string, Value>)

  /** The text string concatenation gives a value: "null", the string itself,
      the boolean or the number in decimal. The toString of functions,
      snippets, lists and maps is supplied as `toText`. */
  function Stringify(v: Value, toText: Value -> string): string {
    match v
    case Null => "null"
    case Str(s) => s
    case Bool(b) => BoolToString(b)
    case Int(i) => IntToString(i)
    case StrBuilder(t) => t
    case _ => toText(v)
  }

  /** A java.util.Map<K, Object> that several objects share and update in
      place: the main DataTables configuration of a table, the options of a
      table configuration keyed by option name, or the legacy options keyed
      by token object. */
  class ConfigMap<K(==)> {
    var entries: map<K, Value>

    constructor (entries: map<K, Value>)
      ensures this.entries == entries
    {
      this.entries := entries;
    }
  }

  /** A java.util.Properties object several owners share: string keys to
      string values. */
  class PropertyMap {
    var entries: map<string, string>

    constructor (entries: map<string, string>)
      ensures this.entries == entries
    {
      this.entries := entries;
    }
  }

  /** A configuration map's entry for `key`, or null when it has none. */
  function Lookup<K>(config: map<K, Value>, key: K): Value {
    if key in config then config[key] else Null
  }

  // ---------------------------------------------------------------------
  // StringBuilder entries, as option and token appendIn write them

  /** A method that computed `outcome` from `before` reports its failure and
      leaves the map alone, or stores the new map. */
  predicate Done<K>(r: W.Result<()>, configs: ConfigMap<K>, before: map<K, Value>, outcome: W.Result<map<K, Value>>)
    reads configs
  {
    if outcome.Err? then r == W.Err(outcome.error) && configs.entries == before
    else r.Ok? && configs.entries == outcome.value
  }

  method Commit<K>(configs: ConfigMap<K>, outcome: W.Result<map<K, Value>>) returns (r: W.Result<()>)
    modifies configs
    ensures Done(r, configs, old(configs.entries), outcome)
  {
    if outcome.Err? {
      return W.Err(outcome.error);
    }
    configs.entries := outcome.value;
    r := W.Ok(());
  }

  /** The map after appendIn(String): an existing builder is extended, a
      missing or null entry becomes a builder holding the value, and any
      other value fails the cast to StringBuilder. */
  function Appended<K>(entries: map<K, Value>, key: K, s: string): W.Result<map<K, Value>> {
    match Lookup(entries, key)
    case Null => W.Ok(entries[key := StrBuilder(s)])
    case StrBuilder(t) => W.Ok(entries[key := StrBuilder(t + s)])
    case _ => W.Err(W.ClassCast("StringBuilder"))
  }

  /** The map after appendIn(char): the existing value is cast and extended,
      so a missing entry is dereferenced. */
  function CharAppended<K>(entries: map<K, Value>, key: K, c: char): W.Result<map<K, Value>> {
    match Lookup(entries, key)
    case Null => W.Err(W.NullPointer("StringBuilder"))
    case StrBuilder(t) => W.Ok(entries[key := StrBuilder(t + [c])])
    case _ => W.Err(W.ClassCast("StringBuilder"))
  }

  /** doAppendIn: a blank value is ignored, any other is appended. */
  function ColumnAppended<K>(entries: map<K, Value>, key: K, s: string): W.Result<map<K, Value>> {
    if StringUtils.Blank(W.Some(s)) then W.Ok(entries) else Appended(entries, key, s)
  }

  /** The text a builder entry holds, None when there is no builder. */
  function BuilderText<K>(entries: map<K, Value>, key: K): W.Option<string> {
    match Lookup(entries, key)
    case StrBuilder(t) => W.Some(t)
    case _ => W.None
  }

  /** appendIn(String) creates a builder holding the value when there is
      none, extends an existing one, and touches no other entry. */
  lemma AppendedBuilds<K>(entries: map<K, Value>, key: K, s: string)
    ensures var r := Appended(entries, key, s);
            r.Ok? <==> BuilderText(entries, key).Some? || Lookup(entries, key) == Null
    ensures var r := Appended(entries, key, s);
            r.Ok? ==> BuilderText(r.value, key) == W.Some(BuilderText(entries, key).GetOr("") + s) &&
                      forall k :: k != key ==> Lookup(r.value, k) == Lookup(entries, k)
  {
    match Lookup(entries, key)
    case Null =>
      assert "" + s == s;
    case StrBuilder(t) =>
    case _ =>
  }

  /** Two appends in a row are one append of the concatenation. */
  lemma AppendedTwice<K>(entries: map<K, Value>, key: K, s: string, t: string)
    requires Appended(entries, key, s).Ok?
    ensures Appended(Appended(entries, key, s).value, key, t) == Appended(entries, key, s + t)
  {
    var m := Appended(entries, key, s).value;
    match Lookup(entries, key)
    case Null =>
      assert m == entries[key := StrBuilder(s)];
      assert m[key := StrBuilder(s + t)] == entries[key := StrBuilder(s + t)];
    case StrBuilder(x) =>
      assert m == entries[key := StrBuilder(x + s)];
      assert x + s + t == x + (s + t);
      assert m[key := StrBuilder(x + s + t)] == entries[key := StrBuilder(x + (s + t))];
    case _ =>
  }

  /** A column append ignores a blank value and otherwise behaves as the
      table append. */
  lemma ColumnAppendedIgnoresBlank<K>(entries: map<K, Value>, key: K, s: string)
    ensures StringUtils.Blank(W.Some(s)) ==> ColumnAppended(entries, key, s) == W.Ok(entries)
    ensures ColumnAppended(entries, key, "") == W.Ok(entries)
    ensures ColumnAppended(entries, key, " ") == W.Ok(entries)
    ensures StringUtils.NotBlank(W.Some(s)) ==> ColumnAppended(entries, key, s) == Appended(entries, key, s)
  {
    assert IsWhitespace(" "[0]);
  }

  /** appendIn(char) needs an existing builder, which it extends by one
      character. */
  lemma CharAppendedNeedsBuilder<K>(entries: map<K, Value>, key: K, c: char)
    ensures CharAppended(entries, key, c).Ok? <==> BuilderText(entries, key).Some?
    ensures BuilderText(entries, key).Some? ==>
              BuilderText(CharAppended(entries, key, c).value, key) == W.Some(BuilderText(entries, key).value + [c])
    ensures Lookup(entries, key) == Null ==> CharAppended(entries, key, c) == W.Err(W.NullPointer("StringBuilder"))
  {
  }
}
