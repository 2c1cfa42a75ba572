/** configuration/ConfigToken and configuration/TableConfig: the tokens of the
    legacy configuration, the registry that finds a token from a property
    name, and the two steps that fill a table's token map.

    ConfigToken does not override equals, so a Map<ConfigToken<?>, Object>
    tells tokens apart by identity: it is a ConfigMap keyed by the token
    objects themselves. */
module ConfigTokens {
  import W = Wrappers
  import opened JavaString
  import opened ConfigValues
  import StringUtils
  import ExportPatterns
  import Options

  class ConfigToken {
    var propertyName: string

    /** ConfigToken(propertyName, processor); the processor is not modelled
        here but by the processor modules. */
    constructor (propertyName: string)
      ensures this.propertyName == propertyName
    {
      this.propertyName := propertyName;
    }

    method SetPropertyName(propertyName: string)
      modifies this
      ensures this.propertyName == propertyName
    {
      this.propertyName := propertyName;
    }

    /** valueFrom(TableConfiguration) and valueFrom(HtmlTable): null when the
        table has no configuration map or no entry for this very token. */
    function ValueFrom(configs: ConfigMap?<ConfigToken>): Value
      reads configs
    {
      if configs == null then Null else Lookup(configs.entries, this)
    }

    /** setIn: the entry of this token is overwritten; a missing map is
        dereferenced. */
    method SetIn(configs: ConfigMap?<ConfigToken>, v: Value) returns (r: W.Result<()>)
      modifies configs
      ensures configs == null ==> r == W.Err(W.NullPointer("configurations"))
      ensures configs != null ==> r.Ok? && configs.entries == old(configs.entries)[this := v]
      ensures configs != null ==> ValueFrom(configs) == v
    {
      if configs == null {
        return W.Err(W.NullPointer("configurations"));
      }
      configs.entries := configs.entries[this := v];
      r := W.Ok(());
    }

    /** appendIn(TableConfiguration, String). */
    method AppendIn(configs: ConfigMap?<ConfigToken>, s: string) returns (r: W.Result<()>)
      modifies configs
      ensures configs == null ==> r == W.Err(W.NullPointer("configurations"))
      ensures configs != null ==> Done(r, configs, old(configs.entries), Appended(old(configs.entries), this, s))
    {
      if configs == null {
        return W.Err(W.NullPointer("configurations"));
      }
      r := Commit(configs, Appended(configs.entries, this, s));
    }

    /** appendIn(TableConfiguration, char): the existing value is cast and
        extended, so a missing one is dereferenced. */
    method AppendCharIn(configs: ConfigMap?<ConfigToken>, c: char) returns (r: W.Result<()>)
      modifies configs
      ensures configs == null ==> r == W.Err(W.NullPointer("configurations"))
      ensures configs != null ==> Done(r, configs, old(configs.entries), CharAppended(old(configs.entries), this, c))
    {
      if configs == null {
        return W.Err(W.NullPointer("configurations"));
      }
      r := Commit(configs, CharAppended(configs.entries, this, c));
    }

    /** appendIn(ColumnConfiguration, String) and appendIn(ColumnConfiguration,
        char), both through doAppendIn: a blank value is ignored. */
    method AppendInColumn(configs: ConfigMap<ConfigToken>, s: string) returns (r: W.Result<()>)
      modifies configs
      ensures Done(r, configs, old(configs.entries), ColumnAppended(old(configs.entries), this, s))
    {
      r := Commit(configs, ColumnAppended(configs.entries, this, s));
    }
  }

  /** Two tokens are two keys even when they carry the same property name,
      and renaming a token moves none of the entries. */
  lemma TokensAreKeysByIdentity(a: ConfigToken, b: ConfigToken, entries: map<ConfigToken, Value>, v: Value)
    requires a != b
    ensures Lookup(entries[a := v], b) == Lookup(entries, b)
    ensures Lookup(entries[a := v], a) == v
  {
  }

  // ---------------------------------------------------------------------
  // TableConfig: the registry

  /** One `internalConf.put` of the static initialiser: the property name the
      token was declared with, and whether the key is that name formalised
      (trimmed and lower-cased) or the name as it is (the three main.* keys). */
  datatype Registration = Registration(name: string, formalized: bool, token: ConfigToken)

  function KeyOf(r: Registration): string {
    if r.formalized then Options.Normalized(r.name) else r.name
  }

  /** The registry after the registrations, in order. */
  function RegisteredTokens(regs: seq<Registration>): map<string, ConfigToken> {
    if |regs| == 0 then map[]
    else
      var last := regs[|regs| - 1];
      RegisteredTokens(regs[..|regs| - 1])[KeyOf(last) := last.token]
  }

  /** Every registration's key is in the registry and leads to one of the
      registered tokens. */
  lemma {:induction false} RegisteredTokenKeys(regs: seq<Registration>)
    ensures forall i :: 0 <= i < |regs| ==> KeyOf(regs[i]) in RegisteredTokens(regs)
    ensures forall k :: k in RegisteredTokens(regs) ==>
              exists i :: 0 <= i < |regs| && KeyOf(regs[i]) == k && regs[i].token == RegisteredTokens(regs)[k]
  {
    if |regs| > 0 {
      var init := regs[..|regs| - 1];
      RegisteredTokenKeys(init);
      forall i | 0 <= i < |regs| - 1
        ensures KeyOf(regs[i]) in RegisteredTokens(regs)
      {
        assert regs[i] == init[i];
      }
      forall k | k in RegisteredTokens(regs)
        ensures exists i :: 0 <= i < |regs| && KeyOf(regs[i]) == k && regs[i].token == RegisteredTokens(regs)[k]
      {
        if k != KeyOf(regs[|regs| - 1]) {
          var j :| 0 <= j < |init| && KeyOf(init[j]) == k && init[j].token == RegisteredTokens(init)[k];
          assert regs[j] == init[j];
        }
      }
    }
  }

  /** What findByPropertyName finds. */
  datatype Found = Registered(key: string) | ExportToken(token: ExportPatterns.Token) | NotFound

  /** findByPropertyName as written: the name is looked up as it is, then the
      export patterns are tried in the order class, fileName, label,
      mimeType. */
  function Locate(internalConf: map<string, ConfigToken>, name: string): (r: Found)
    ensures r.Registered? <==> name in internalConf
    ensures r.Registered? ==> r.key == name
  {
    if name in internalConf then Registered(name)
    else if Contains(name, "export") then
      match Options.FirstMatch(name, Options.ExportSearchOrder)
      case Some(t) => ExportToken(t)
      case None => NotFound
    else NotFound
  }

  /** findByPropertyName as evidently intended: the name is formalised as
      the registry keys are, as DatatableOptions.findByName does. */
  function LocateIntended(internalConf: map<string, ConfigToken>, name: string): (r: Found)
    ensures r.Registered? <==> Options.Normalized(name) in internalConf
    ensures r.Registered? ==> r.key == Options.Normalized(name)
  {
    if Options.Normalized(name) in internalConf then Registered(Options.Normalized(name))
    else if Contains(name, "export") then
      match Options.FirstMatch(name, Options.ExportSearchOrder)
      case Some(t) => ExportToken(t)
      case None => NotFound
    else NotFound
  }

  class TableConfig {
    const registrations: seq<Registration>
    const exportClass: ConfigToken
    const exportFileName: ConfigToken
    const exportLabel: ConfigToken
    const exportMimeType: ConfigToken
    var internalConf: map<string, ConfigToken>

    function ExportTokenOf(t: ExportPatterns.Token): ConfigToken {
      match t
      case CLASS => exportClass
      case FILENAME => exportFileName
      case LABEL => exportLabel
      case MIMETYPE => exportMimeType
    }

    /** The static initialiser. */
    constructor (registrations: seq<Registration>, exportClass: ConfigToken, exportFileName: ConfigToken,
                 exportLabel: ConfigToken, exportMimeType: ConfigToken)
      ensures this.registrations == registrations && internalConf == RegisteredTokens(registrations)
      ensures this.exportClass == exportClass && this.exportFileName == exportFileName
      ensures this.exportLabel == exportLabel && this.exportMimeType == exportMimeType
    {
      this.registrations := registrations;
      this.exportClass, this.exportFileName := exportClass, exportFileName;
      this.exportLabel, this.exportMimeType := exportLabel, exportMimeType;
      var conf := RegisterTokens(registrations);
      internalConf := conf;
    }

    /** findByPropertyName: the token registered under the name; else the
        shared export token whose pattern is found first, renamed to the
        name; else null. */
    method FindByPropertyName(propertyName: string) returns (t: ConfigToken?)
      modifies exportClass, exportFileName, exportLabel, exportMimeType
      ensures Locate(internalConf, propertyName).Registered? ==>
                t == internalConf[propertyName] &&
                unchanged(exportClass, exportFileName, exportLabel, exportMimeType)
      ensures Locate(internalConf, propertyName).ExportToken? ==>
                var e := ExportTokenOf(Locate(internalConf, propertyName).token);
                t == e && e.propertyName == propertyName &&
                forall u :: ExportTokenOf(u) != e ==> unchanged(ExportTokenOf(u))
      ensures Locate(internalConf, propertyName).NotFound? ==>
                t == null && unchanged(exportClass, exportFileName, exportLabel, exportMimeType)
    {
      if propertyName in internalConf {
        return internalConf[propertyName];
      }
      if Contains(propertyName, "export") {
        var m := Options.SearchExport(propertyName);
        if m.Some? {
          t := ExportTokenOf(m.value);
          t.SetPropertyName(propertyName);
          return;
        }
      }
      return null;
    }
  }

  /** The loop of the static initialiser. */
  method RegisterTokens(regs: seq<Registration>) returns (conf: map<string, ConfigToken>)
    ensures conf == RegisteredTokens(regs)
  {
    conf := map[];
    var i := 0;
    while i < |regs|
      invariant 0 <= i <= |regs|
      invariant conf == RegisteredTokens(regs[..i])
    {
      assert regs[..i + 1][..i] == regs[..i];
      conf := conf[KeyOf(regs[i]) := regs[i].token];
      i := i + 1;
    }
    assert regs[..i] == regs;
  }

  /** A string lacking one of the characters of `sub` does not contain it. */
  lemma {:induction false} MissingCharNotContained(s: string, sub: string, k: nat)
    requires k < |sub| && forall i :: 0 <= i < |s| ==> s[i] != sub[k]
    ensures !Contains(s, sub)
    decreases |s|
  {
    assert !StartsWith(s, sub) by {
      if |sub| <= |s| {
        assert s[..|sub|][k] == s[k] != sub[k];
      }
    }
    if |s| > 0 {
      assert forall i :: 0 <= i < |s[1..]| ==> s[1..][i] == s[i + 1];
      MissingCharNotContained(s[1..], sub, k);
    }
  }

  /** As written, a property declared with upper-case letters and registered
      under its formalised key is not found under its own documented name:
      findByPropertyName("feature.paginationType") yields null. */
  lemma DocumentedNameNotFound(t: ConfigToken)
    ensures var regs := [Registration("feature.paginationType", true, t)];
            KeyOf(regs[0]) == "feature.paginationtype" &&
            Locate(RegisteredTokens(regs), "feature.paginationType") == NotFound
  {
    var name := "feature.paginationType";
    var regs := [Registration(name, true, t)];
    PaginationTypeKey();
    SingleRegistration(regs[0]);
    NoExportInPaginationType();
  }

  lemma SingleRegistration(r: Registration)
    ensures RegisteredTokens([r]) == map[KeyOf(r) := r.token]
  {
    assert [r][..0] == [];
  }

  lemma NoExportInPaginationType()
    ensures !Contains("feature.paginationType", "export")
  {
    MissingCharNotContained("feature.paginationType", "export", 1);
  }

  lemma PaginationTypeKey()
    ensures Options.Normalized("feature.paginationType") == "feature.paginationtype"
    ensures "feature.paginationType" != "feature.paginationtype"
  {
    var name := "feature.paginationType";
    assert TrimStart(name) == name;
    assert TrimEnd(name) == name;
    assert ToLowerChar(name[18]) == 't';
    assert ToLower(name) == "feature.paginationtype";
  }

  /** As intended, every registered property is found under the name it was
      declared with, whatever the case and surrounding blanks the user
      writes, provided the raw (main.*) names are already formal. */
  lemma EveryDeclaredNameFound(regs: seq<Registration>, i: int, written: string)
    requires 0 <= i < |regs|
    requires forall j :: 0 <= j < |regs| && !regs[j].formalized ==> Options.Normalized(regs[j].name) == regs[j].name
    requires Options.Normalized(written) == Options.Normalized(regs[i].name)
    ensures LocateIntended(RegisteredTokens(regs), written) == Registered(KeyOf(regs[i]))
  {
    RegisteredTokenKeys(regs);
  }

  /** As written, a name is found exactly when it is a key of the registry;
      the registered keys themselves are always found. */
  lemma KeysFoundAsWritten(regs: seq<Registration>, i: int)
    requires 0 <= i < |regs|
    ensures Locate(RegisteredTokens(regs), KeyOf(regs[i])) == Registered(KeyOf(regs[i]))
  {
    RegisteredTokenKeys(regs);
  }

  /** A key of the documented form `export.<format><suffix>` that is not a
      registry key finds the export token of that suffix, both as written
      and as intended. */
  lemma ExportPropertyFound(conf: map<string, ConfigToken>, f: string, t: ExportPatterns.Token)
    requires ExportPatterns.PlainFormat(f)
    requires ExportPatterns.Prefix + f + ExportPatterns.Suffix(t) !in conf
    requires Options.Normalized(ExportPatterns.Prefix + f + ExportPatterns.Suffix(t)) !in conf
    ensures Locate(conf, ExportPatterns.Prefix + f + ExportPatterns.Suffix(t)) == ExportToken(t)
    ensures LocateIntended(conf, ExportPatterns.Prefix + f + ExportPatterns.Suffix(t)) == ExportToken(t)
  {
    Options.ExportKeyMatches(f, t);
  }

  // ---------------------------------------------------------------------
  // TableConfig: applyConfiguration and processConfiguration

  /** The token map after applyConfiguration: each staging entry whose
      String.valueOf is not blank replaces the table's entry. */
  function Applied(configs: map<ConfigToken, Value>, staging: map<ConfigToken, Value>, toText: Value -> string): (r: map<ConfigToken, Value>)
    ensures r.Keys == configs.Keys + set k | k in staging && StringUtils.NotBlank(W.Some(Stringify(staging[k], toText)))
    ensures forall k :: k in staging && StringUtils.NotBlank(W.Some(Stringify(staging[k], toText))) ==> r[k] == staging[k]
    ensures forall k :: k in configs && (k !in staging || StringUtils.Blank(W.Some(Stringify(staging[k], toText)))) ==> r[k] == configs[k]
  {
    map k | k in configs.Keys + staging.Keys && (k in configs || StringUtils.NotBlank(W.Some(Stringify(staging[k], toText)))) ::
      if k in staging && StringUtils.NotBlank(W.Some(Stringify(staging[k], toText))) then staging[k] else configs[k]
  }

  /** applyConfiguration: copies the non-blank staging entries into the
      table's map, one entry at a time, and returns the staging map. */
  method ApplyConfiguration(staging: map<ConfigToken, Value>, configs: ConfigMap<ConfigToken>, toText: Value -> string)
    returns (r: map<ConfigToken, Value>)
    modifies configs
    ensures r == staging
    ensures configs.entries == Applied(old(configs.entries), staging, toText)
  {
    var pending := staging.Keys;
    ghost var done: map<ConfigToken, Value> := map[];
    while pending != {}
      invariant pending !! done.Keys && pending + done.Keys == staging.Keys
      invariant forall k :: k in done ==> done[k] == staging[k]
      invariant configs.entries == Applied(old(configs.entries), done, toText)
      decreases pending
    {
      var k :| k in pending;
      AppliedStep(old(configs.entries), done, k, staging[k], toText);
      if StringUtils.NotBlank(W.Some(Stringify(staging[k], toText))) {
        configs.entries := configs.entries[k := staging[k]];
      }
      pending, done := pending - {k}, done[k := staging[k]];
    }
    assert done == staging;
    r := staging;
  }

  /** Applying one more staging entry is one more update of the map, or
      none when the entry is blank. */
  lemma AppliedStep(configs: map<ConfigToken, Value>, staging: map<ConfigToken, Value>, k: ConfigToken, v: Value, toText: Value -> string)
    requires k !in staging
    ensures Applied(configs, staging[k := v], toText) ==
            if StringUtils.NotBlank(W.Some(Stringify(v, toText))) then Applied(configs, staging, toText)[k := v]
            else Applied(configs, staging, toText)
  {
    if StringUtils.NotBlank(W.Some(Stringify(v, toText))) {
      AppliedKept(configs, staging, k, v, toText);
    } else {
      AppliedSkipped(configs, staging, k, v, toText);
    }
  }

  lemma AppliedKept(configs: map<ConfigToken, Value>, staging: map<ConfigToken, Value>, k: ConfigToken, v: Value, toText: Value -> string)
    requires k !in staging && StringUtils.NotBlank(W.Some(Stringify(v, toText)))
    ensures Applied(configs, staging[k := v], toText) == Applied(configs, staging, toText)[k := v]
  {
    var a, c := Applied(configs, staging[k := v], toText), Applied(configs, staging, toText)[k := v];
    assert a.Keys == c.Keys;
    forall j | j in a
      ensures a[j] == c[j]
    {
    }
  }

  lemma AppliedSkipped(configs: map<ConfigToken, Value>, staging: map<ConfigToken, Value>, k: ConfigToken, v: Value, toText: Value -> string)
    requires k !in staging && StringUtils.Blank(W.Some(Stringify(v, toText)))
    ensures Applied(configs, staging[k := v], toText) == Applied(configs, staging, toText)
  {
    var a, c := Applied(configs, staging[k := v], toText), Applied(configs, staging, toText);
    assert a.Keys == c.Keys;
    forall j | j in a
      ensures a[j] == c[j]
    {
    }
  }

  /** A staging entry holding null is copied: String.valueOf gives "null". */
  lemma NullStagingIsCopied(configs: map<ConfigToken, Value>, staging: map<ConfigToken, Value>, k: ConfigToken, toText: Value -> string)
    requires k in staging && staging[k] == Null
    ensures k in Applied(configs, staging, toText) && Applied(configs, staging, toText)[k] == Null
  {
    assert !IsWhitespace("null"[0]);
  }

  /** What the processors do to the table configuration besides
      replacing their entry: the staging map they add entries to, the
      extensions they register and the asset scopes they add. */
  datatype TableEffects = TableEffects(staging: map<ConfigToken, Value>, extensions: set<string>, scopes: seq<string>)

  /** The loop of processConfiguration over the keys `order`: each entry in
      turn replaced by what its token's processor makes of it, the
      processor also changing the table's effects; the first exception
      stops the loop, with the entries processed so far replaced. */
  function Steps(entries: map<ConfigToken, Value>, order: seq<ConfigToken>, effects: TableEffects,
                 process: (ConfigToken, Value, TableEffects) -> W.Result<(Value, TableEffects)>)
    : (r: (map<ConfigToken, Value>, TableEffects, W.Result<()>))
    requires forall k :: k in order ==> k in entries
    ensures r.0.Keys == entries.Keys
  {
    if |order| == 0 then (entries, effects, W.Ok(()))
    else
      var (m, e, res) := Steps(entries, order[..|order| - 1], effects, process);
      var k := order[|order| - 1];
      if res.Err? then (m, e, res)
      else match process(k, entries[k], e)
        case Err(x) => (m, e, W.Err(x))
        case Ok((v, e')) => (m[k := v], e', W.Ok(()))
  }

  /** processConfiguration: the loop, then the staging map the processors
      filled merged over the token map; an exception escapes before the
      merge. */
  function Processed(entries: map<ConfigToken, Value>, order: seq<ConfigToken>, effects: TableEffects,
                     process: (ConfigToken, Value, TableEffects) -> W.Result<(Value, TableEffects)>)
    : (r: W.Result<(map<ConfigToken, Value>, TableEffects)>)
    requires forall k :: k in order ==> k in entries
    ensures r.Ok? ==> r.value.0.Keys == entries.Keys + r.value.1.staging.Keys
    ensures r.Ok? ==> forall k :: k in r.value.1.staging ==> r.value.0[k] == r.value.1.staging[k]
  {
    var (m, e, res) := Steps(entries, order, effects, process);
    if res.Err? then W.Err(res.error) else W.Ok((m + e.staging, e))
  }

  /** When no processor throws, every visited entry holds what its
      processor made of it, given the effects of the processors before it,
      and every other entry is kept. */
  lemma StepsReplaceEach(entries: map<ConfigToken, Value>, order: seq<ConfigToken>, effects: TableEffects,
                         process: (ConfigToken, Value, TableEffects) -> W.Result<(Value, TableEffects)>)
    requires forall i, j :: 0 <= i < j < |order| ==> order[i] != order[j]
    requires forall k :: k in order ==> k in entries
    ensures var (m, e, res) := Steps(entries, order, effects, process);
            res.Ok? ==> forall k :: k in entries ==>
              m[k] == if k in order then Entry(entries, order, effects, process, k) else entries[k]
  {
    if |order| > 0 {
      var front := order[..|order| - 1];
      StepsReplaceEach(entries, front, effects, process);
      var (m, e, res) := Steps(entries, front, effects, process);
      var last := order[|order| - 1];
      assert last !in front;
      if res.Ok? {
        forall k | k in front
          ensures Entry(entries, order, effects, process, k) == Entry(entries, front, effects, process, k)
        {
          EntryOfPrefix(entries, order, effects, process, k);
        }
      }
    }
  }

  /** processConfiguration succeeds exactly when no processor throws; then
      each staged token holds its staged value and every other token what
      its processor made of it. */
  lemma ProcessedMeaning(entries: map<ConfigToken, Value>, order: seq<ConfigToken>, effects: TableEffects,
                         process: (ConfigToken, Value, TableEffects) -> W.Result<(Value, TableEffects)>)
    requires forall i, j :: 0 <= i < j < |order| ==> order[i] != order[j]
    requires forall k :: k in entries <==> k in order
    ensures Processed(entries, order, effects, process).Ok? <==> Steps(entries, order, effects, process).2.Ok?
    ensures Processed(entries, order, effects, process).Ok? ==>
              var (m, e) := Processed(entries, order, effects, process).value;
              forall k :: k in m ==>
                m[k] == if k in e.staging then e.staging[k] else Entry(entries, order, effects, process, k)
  {
    StepsReplaceEach(entries, order, effects, process);
  }

  /** The value the processor of `k` produced in the loop over `order`,
      given every processor up to it succeeded. */
  function Entry(entries: map<ConfigToken, Value>, order: seq<ConfigToken>, effects: TableEffects,
                 process: (ConfigToken, Value, TableEffects) -> W.Result<(Value, TableEffects)>, k: ConfigToken): Value
    requires forall j :: j in order ==> j in entries
    requires k in order
  {
    var i := IndexOf(order, k);
    var before := Steps(entries, order[..i], effects, process);
    match process(k, entries[k], before.1)
    case Ok((v, _)) => v
    case Err(_) => entries[k]
  }

  function IndexOf(order: seq<ConfigToken>, k: ConfigToken): (i: nat)
    requires k in order
    ensures i < |order| && order[i] == k && k !in order[..i]
  {
    if order[0] == k then 0 else 1 + IndexOf(order[1..], k)
  }

  lemma EntryOfPrefix(entries: map<ConfigToken, Value>, order: seq<ConfigToken>, effects: TableEffects,
                      process: (ConfigToken, Value, TableEffects) -> W.Result<(Value, TableEffects)>, k: ConfigToken)
    requires forall j :: j in order ==> j in entries
    requires |order| > 0 && k in order[..|order| - 1]
    ensures Entry(entries, order, effects, process, k) == Entry(entries, order[..|order| - 1], effects, process, k)
  {
    var front := order[..|order| - 1];
    var i := IndexOf(order, k);
    var i' := IndexOf(front, k);
    IndexUnique(order, k, i, i');
    assert order[..i] == front[..i];
  }

  lemma IndexUnique(order: seq<ConfigToken>, k: ConfigToken, i: nat, j: nat)
    requires i < |order| && order[i] == k && k !in order[..i]
    requires j < |order| && order[j] == k && k !in order[..j]
    ensures i == j
  {
  }

  /** An exception in one processor fails the whole processing: once the
      loop over a prefix of the keys fails, so does the loop over the
      whole order, with the same exception and the same partial state. */
  lemma FailureSticks(entries: map<ConfigToken, Value>, order: seq<ConfigToken>, n: nat, effects: TableEffects,
                      process: (ConfigToken, Value, TableEffects) -> W.Result<(Value, TableEffects)>)
    requires forall k :: k in order ==> k in entries
    requires n <= |order| && Steps(entries, order[..n], effects, process).2.Err?
    ensures Steps(entries, order, effects, process) == Steps(entries, order[..n], effects, process)
    ensures Processed(entries, order, effects, process).Err?
    decreases |order| - n
  {
    if n < |order| {
      var m := n + 1;
      assert order[..m][..m - 1] == order[..n];
      FailureSticks(entries, order, m, effects, process);
    } else {
      assert order[..n] == order;
    }
  }

  /** processConfiguration: with a map, its entries are processed in the
      iteration order `order`; on success the staging map the processors
      filled is merged over them, and an exception escapes leaving the
      entries processed before it replaced and the staging map unmerged;
      without a map nothing happens. The table's effects are returned. */
  method ProcessConfiguration(configs: ConfigMap?<ConfigToken>, order: seq<ConfigToken>, effects: TableEffects,
                              process: (ConfigToken, Value, TableEffects) -> W.Result<(Value, TableEffects)>)
    returns (r: W.Result<TableEffects>)
    requires configs != null ==> forall i, j :: 0 <= i < j < |order| ==> order[i] != order[j]
    requires configs != null ==> forall k :: k in configs.entries <==> k in order
    modifies configs
    ensures configs == null ==> r == W.Ok(effects)
    ensures configs != null ==>
              var (m, e, res) := Steps(old(configs.entries), order, effects, process);
              match Processed(old(configs.entries), order, effects, process)
              case Ok((merged, e')) => r == W.Ok(e') && configs.entries == merged
              case Err(x) => r == W.Err(x) && configs.entries == m
  {
    if configs == null {
      return W.Ok(effects);
    }
    ghost var original := configs.entries;
    var e := effects;
    var i := 0;
    while i < |order|
      invariant 0 <= i <= |order|
      invariant (configs.entries, e, W.Ok(())) == Steps(original, order[..i], effects, process)
      invariant forall k :: k in order[i..] ==> configs.entries[k] == original[k]
    {
      var k := order[i];
      assert order[..i + 1][..i] == order[..i];
      var res := process(k, configs.entries[k], e);
      if res.Err? {
        FailureSticks(original, order, i + 1, effects, process);
        return W.Err(res.error);
      }
      forall j | j in order[i + 1..]
        ensures j != k && j in order[i..]
      {
        var t :| i + 1 <= t < |order| && order[t] == j;
      }
      configs.entries := configs.entries[k := res.value.0];
      e := res.value.1;
      i := i + 1;
    }
    assert order[..i] == order;
    configs.entries := configs.entries + e.staging;
    r := W.Ok(e);
  }
}
