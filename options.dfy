/** option/Option and option/DatatableOptions: the options a table or column
    can be configured with, their ordering by precedence, their identity by
    name, the ways a value is read from and written to a configuration map,
    and the registry that finds an option by its name.

    Because equals and hashCode depend on the name alone, a
    Map<Option<?>, Object> holds at most one entry per option name; such a
    map is modelled as a ConfigMap keyed by the option's name. */
module Options {
  import W = Wrappers
  import opened JavaString
  import opened ConfigValues
  import StringUtils
  import ExportPatterns

  class Option {
    const name: string
    const precedence: int
    /** The name the user wrote, recorded when an export pattern matched it. */
    var userName: W.Option<string>

    /** Option(name, processor, precedence); the processor is not modelled
        here but by the processor modules. */
    constructor (name: string, precedence: int)
      ensures this.name == name && this.precedence == precedence && userName.None?
    {
      this.name := name;
      this.precedence := precedence;
      userName := W.None;
    }

    /** compareTo: after null, then by precedence only. */
    function CompareTo(o: Option?): (r: int)
      ensures -1 <= r <= 1
      ensures o == null ==> r == 1
      ensures o != null ==> (r < 0 <==> precedence < o.precedence) && (r == 0 <==> precedence == o.precedence)
    {
      if o == null then 1
      else if precedence < o.precedence then -1
      else if precedence > o.precedence then 1
      else 0
    }

    /** equals: the same object or an option with the same name. */
    predicate Equals(o: Option?) {
      o != null && (o == this || name == o.name)
    }

    /** hashCode: 31 * 1 + name.hashCode(), in 32-bit arithmetic. */
    function HashCode(): int {
      Int32(31 + StringHash(name))
    }

    /** valueFrom(TableConfiguration), valueFrom(ColumnConfiguration) and
        valueFrom(HtmlTable): null when the map is null or holds no entry
        for this option. */
    function ValueFrom(configs: ConfigMap?<string>): Value
      reads configs
    {
      if configs == null then Null else Lookup(configs.entries, name)
    }

    /** setIn: the entry is overwritten; a null map is dereferenced. */
    method SetIn(configs: ConfigMap?<string>, v: Value) returns (r: W.Result<()>)
      modifies configs
      ensures configs == null ==> r == W.Err(W.NullPointer("configurations"))
      ensures configs != null ==> r.Ok? && configs.entries == old(configs.entries)[name := v]
      ensures configs != null ==> ValueFrom(configs) == v
    {
      if configs == null {
        return W.Err(W.NullPointer("configurations"));
      }
      configs.entries := configs.entries[name := v];
      r := W.Ok(());
    }

    /** appendIn(TableConfiguration, String). */
    method AppendIn(configs: ConfigMap?<string>, s: string) returns (r: W.Result<()>)
      modifies configs
      ensures configs == null ==> r == W.Err(W.NullPointer("configurations"))
      ensures configs != null ==> Done(r, configs, old(configs.entries), Appended(old(configs.entries), name, s))
    {
      if configs == null {
        return W.Err(W.NullPointer("configurations"));
      }
      r := Commit(configs, Appended(configs.entries, name, s));
    }

    /** appendIn(TableConfiguration, char). */
    method AppendCharIn(configs: ConfigMap?<string>, c: char) returns (r: W.Result<()>)
      modifies configs
      ensures configs == null ==> r == W.Err(W.NullPointer("configurations"))
      ensures configs != null ==> Done(r, configs, old(configs.entries), CharAppended(old(configs.entries), name, c))
    {
      if configs == null {
        return W.Err(W.NullPointer("configurations"));
      }
      r := Commit(configs, CharAppended(configs.entries, name, c));
    }

    /** appendIn(ColumnConfiguration, String) and, with a one-character
        string, appendIn(ColumnConfiguration, char): doAppendIn. */
    method AppendInColumn(configs: ConfigMap?<string>, s: string) returns (r: W.Result<()>)
      modifies configs
      ensures configs == null ==> r == W.Err(W.NullPointer("configurations"))
      ensures configs != null ==> Done(r, configs, old(configs.entries), ColumnAppended(old(configs.entries), name, s))
    {
      if configs == null {
        return W.Err(W.NullPointer("configurations"));
      }
      r := Commit(configs, ColumnAppended(configs.entries, name, s));
    }
  }

  // ---------------------------------------------------------------------
  // Properties of Option

  /** compareTo orders by precedence: it is antisymmetric and transitive. */
  lemma CompareToIsAnOrder(a: Option, b: Option, c: Option)
    ensures a.CompareTo(b) == -b.CompareTo(a)
    ensures a.CompareTo(b) <= 0 && b.CompareTo(c) <= 0 ==> a.CompareTo(c) <= 0
    ensures a.CompareTo(a) == 0
  {
  }

  /** compareTo is not consistent with equals: two options of the same
      precedence compare as 0 whatever their names. */
  lemma CompareToIgnoresName(a: Option, b: Option)
    requires a.precedence == b.precedence && a.name != b.name
    ensures a.CompareTo(b) == 0 && !a.Equals(b)
  {
  }

  /** equals is an equivalence on names, and equal options hash alike, so a
      hash map keyed by options holds one entry per name. */
  lemma EqualsByName(a: Option, b: Option, c: Option)
    ensures a.Equals(b) <==> a.name == b.name
    ensures a.Equals(b) ==> a.HashCode() == b.HashCode()
    ensures a.Equals(b) == b.Equals(a)
    ensures a.Equals(b) && b.Equals(c) ==> a.Equals(c)
    ensures !a.Equals(null)
  {
  }

  // ---------------------------------------------------------------------
  // DatatableOptions

  /** name.trim().toLowerCase(): the key of the registry. */
  function Normalized(name: string): string {
    ToLower(Trim(name))
  }

  /** The registry the static initialiser builds from the declared option
      fields, in declaration order: each option under its normalised name,
      a later field replacing an earlier one with the same key. */
  function Registered(fields: seq<Option>): map<string, Option> {
    if |fields| == 0 then map[]
    else
      var last := fields[|fields| - 1];
      Registered(fields[..|fields| - 1])[Normalized(last.name) := last]
  }

  /** The registry holds exactly the normalised names of the fields, and
      each key leads to a field of that normalised name. */
  lemma RegisteredKeys(fields: seq<Option>)
    ensures forall i :: 0 <= i < |fields| ==> Normalized(fields[i].name) in Registered(fields)
    ensures forall k :: k in Registered(fields) ==>
              Registered(fields)[k] in fields && Normalized(Registered(fields)[k].name) == k
  {
    RegisteredNames(fields);
    RegisteredFields(fields);
  }

  /** Every field is registered under its normalised name. */
  lemma {:induction false} RegisteredNames(fields: seq<Option>)
    ensures forall i :: 0 <= i < |fields| ==> Normalized(fields[i].name) in Registered(fields)
  {
    if |fields| > 0 {
      var init := fields[..|fields| - 1];
      RegisteredNames(init);
      forall i | 0 <= i < |fields| - 1
        ensures Normalized(fields[i].name) in Registered(init)
      {
        assert fields[i] == init[i];
      }
    }
  }

  /** Every key leads to one of the fields, of that normalised name. */
  lemma {:induction false} RegisteredFields(fields: seq<Option>)
    ensures forall k :: k in Registered(fields) ==>
              Registered(fields)[k] in fields && Normalized(Registered(fields)[k].name) == k
  {
    if |fields| > 0 {
      var init, last := fields[..|fields| - 1], fields[|fields| - 1];
      RegisteredFields(init);
      var m, n := Registered(init), Normalized(last.name);
      var r := m[n := last];
      assert Registered(fields) == r;
      forall k | k in r
        ensures r[k] in fields && Normalized(r[k].name) == k
      {
        if k != n {
          var j :| 0 <= j < |init| && init[j] == m[k];
          assert fields[j] == r[k];
        }
      }
    }
  }

  /** The loop of the static initialiser. */
  method Register(fields: seq<Option>) returns (byName: map<string, Option>)
    ensures byName == Registered(fields)
  {
    byName := map[];
    var i := 0;
    while i < |fields|
      invariant 0 <= i <= |fields|
      invariant byName == Registered(fields[..i])
    {
      assert fields[..i + 1][..i] == fields[..i];
      byName := byName[Normalized(fields[i].name) := fields[i]];
      i := i + 1;
    }
    assert fields[..i] == fields;
  }

  /** The order in which findByName tries the export patterns. */
  const ExportSearchOrder: seq<ExportPatterns.Token> :=
    [ExportPatterns.CLASS, ExportPatterns.FILENAME, ExportPatterns.LABEL, ExportPatterns.MIMETYPE]

  /** The first token of `order` whose pattern is found in `name`. */
  function FirstMatch(name: string, order: seq<ExportPatterns.Token>): (r: W.Option<ExportPatterns.Token>)
    ensures r.Some? ==> r.value in order && ExportPatterns.Find(name, r.value).Some?
    ensures r.None? ==> forall t :: t in order ==> ExportPatterns.Find(name, t).None?
  {
    if |order| == 0 then W.None
    else if ExportPatterns.Find(name, order[0]).Some? then W.Some(order[0])
    else FirstMatch(name, order[1..])
  }

  /** When exactly one token's pattern is found, that token is the first
      match of any order that lists it. */
  lemma {:induction false} FirstMatchIs(name: string, order: seq<ExportPatterns.Token>, t: ExportPatterns.Token)
    requires t in order
    requires forall u :: ExportPatterns.Find(name, u).Some? <==> u == t
    ensures FirstMatch(name, order) == W.Some(t)
  {
    if order[0] != t {
      FirstMatchIs(name, order[1..], t);
    }
  }

  /** What findByName finds. */
  datatype Found = Registry(key: string) | ExportOption(token: ExportPatterns.Token) | NotFound

  function Resolve(byName: map<string, Option>, name: string): Found {
    if Normalized(name) in byName then Registry(Normalized(name))
    else if Contains(name, "export") then
      match FirstMatch(name, ExportSearchOrder)
      case Some(t) => ExportOption(t)
      case None => NotFound
    else NotFound
  }

  class DatatableOptions {
    /** The declared Option fields, in declaration order. */
    const fields: seq<Option>
    const exportClass: Option
    const exportFileName: Option
    const exportLabel: Option
    const exportMimeType: Option
    var optionsByName: map<string, Option>

    function ExportOptionOf(t: ExportPatterns.Token): Option {
      match t
      case CLASS => exportClass
      case FILENAME => exportFileName
      case LABEL => exportLabel
      case MIMETYPE => exportMimeType
    }

    /** The static initialiser: every declared field is registered under its
        normalised name. */
    constructor (fields: seq<Option>, exportClass: Option, exportFileName: Option, exportLabel: Option,
                 exportMimeType: Option)
      ensures this.fields == fields && optionsByName == Registered(fields)
      ensures this.exportClass == exportClass && this.exportFileName == exportFileName
      ensures this.exportLabel == exportLabel && this.exportMimeType == exportMimeType
    {
      this.fields := fields;
      this.exportClass, this.exportFileName := exportClass, exportFileName;
      this.exportLabel, this.exportMimeType := exportLabel, exportMimeType;
      var byName := Register(fields);
      optionsByName := byName;
    }

    /** findByName: the registered option under the normalised name; else,
        for a name containing "export", the shared export option whose
        pattern matches first, with the name recorded as its user name;
        else null. */
    method FindByName(optionName: string) returns (o: Option?)
      modifies exportClass, exportFileName, exportLabel, exportMimeType
      ensures Resolve(optionsByName, optionName).Registry? ==>
                o == optionsByName[Normalized(optionName)] &&
                unchanged(exportClass, exportFileName, exportLabel, exportMimeType)
      ensures Resolve(optionsByName, optionName).ExportOption? ==>
                var e := ExportOptionOf(Resolve(optionsByName, optionName).token);
                o == e && e.userName == W.Some(optionName) &&
                forall t :: ExportOptionOf(t) != e ==> unchanged(ExportOptionOf(t))
      ensures Resolve(optionsByName, optionName).NotFound? ==>
                o == null && unchanged(exportClass, exportFileName, exportLabel, exportMimeType)
    {
      var key := Normalized(optionName);
      if key in optionsByName {
        return optionsByName[key];
      }
      if Contains(optionName, "export") {
        var m := SearchExport(optionName);
        if m.Some? {
          o := ExportOptionOf(m.value);
          o.userName := W.Some(optionName);
          return;
        }
      }
      return null;
    }
  }

  /** The loop over the export patterns shared by findByName and
      findByPropertyName: the first token, in search order, whose pattern
      is found in the name. */
  method SearchExport(name: string) returns (m: W.Option<ExportPatterns.Token>)
    ensures m == FirstMatch(name, ExportSearchOrder)
  {
    var i := 0;
    while i < |ExportSearchOrder|
      invariant 0 <= i <= |ExportSearchOrder|
      invariant FirstMatch(name, ExportSearchOrder) == FirstMatch(name, ExportSearchOrder[i..])
    {
      var t := ExportSearchOrder[i];
      if ExportPatterns.Find(name, t).Some? {
        return W.Some(t);
      }
      assert ExportSearchOrder[i..][1..] == ExportSearchOrder[i + 1..];
      i := i + 1;
    }
    return W.None;
  }

  /** Every declared field is found by its own name. */
  lemma FieldsFoundByName(fields: seq<Option>, i: int)
    requires 0 <= i < |fields|
    ensures Resolve(Registered(fields), fields[i].name) == Registry(Normalized(fields[i].name))
    ensures Normalized(Registered(fields)[Normalized(fields[i].name)].name) == Normalized(fields[i].name)
  {
    RegisteredKeys(fields);
  }

  /** A key of the documented form `export.<format><suffix>` holds "export"
      and its first matching pattern is the one of its suffix. */
  lemma ExportKeyMatches(f: string, t: ExportPatterns.Token)
    requires ExportPatterns.PlainFormat(f)
    ensures var key := ExportPatterns.Prefix + f + ExportPatterns.Suffix(t);
            Contains(key, "export") && FirstMatch(key, ExportSearchOrder) == W.Some(t)
  {
    var key := ExportPatterns.Prefix + f + ExportPatterns.Suffix(t);
    assert key[..6] == "export";
    assert StartsWith(key, "export");
    forall u
      ensures ExportPatterns.Find(key, u) == if u == t then W.Some(f) else W.None
    {
      ExportPatterns.FormatOfKey(f, t, u);
    }
    FirstMatchIs(key, ExportSearchOrder, t);
  }

  /** An unregistered key of the documented form `export.<format>.<field>`
      finds the export option of that field. */
  lemma ExportKeyFound(byName: map<string, Option>, f: string, t: ExportPatterns.Token)
    requires ExportPatterns.PlainFormat(f)
    requires Normalized(ExportPatterns.Prefix + f + ExportPatterns.Suffix(t)) !in byName
    ensures Resolve(byName, ExportPatterns.Prefix + f + ExportPatterns.Suffix(t)) == ExportOption(t)
  {
    ExportKeyMatches(f, t);
  }
}
