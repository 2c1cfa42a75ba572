/** option/TableConfiguration: the mutable configuration of one table. Its
    options map is shared with the configuration it was cloned from, and so
    are the lazily created collections clone copies by reference; these are
    objects here, so that the sharing is part of the model. */
module TableConfigurations {
  import opened Wrappers
  import opened JavaString
  import opened ConfigValues
  import Options
  import ExportConfs
  import Html
  import UrlUtils

  /** option/CallbackType. */
  datatype CallbackType =
    | CREATEDROW | DRAW | FOOTER | FORMAT | HEADER | INFO | INIT | PREDRAW | ROW
    | STATESAVE | STATESAVEPARAMS | STATELOAD | STATELOADPARAMS | STATELOADED

  /** getName(): the DataTables option the callback is configured under. */
  function CallbackName(t: CallbackType): string {
    match t
    case CREATEDROW => "createdRow"
    case DRAW => "drawCallback"
    case FOOTER => "footerCallback"
    case FORMAT => "formatNumber"
    case HEADER => "headerCallback"
    case INFO => "infoCallback"
    case INIT => "initComplete"
    case PREDRAW => "preDrawCallback"
    case ROW => "rowCallback"
    case STATESAVE => "stateSaveCallback"
    case STATESAVEPARAMS => "stateSaveParams"
    case STATELOAD => "stateLoadCallback"
    case STATELOADPARAMS => "stateLoadParams"
    case STATELOADED => "stateLoaded"
  }

  /** Whether the callback's function must return a value. */
  predicate HasReturn(t: CallbackType) {
    t in {FORMAT, INFO, PREDRAW, STATESAVEPARAMS, STATELOADPARAMS}
  }

  /** The names of the arguments DataTables passes to the callback. */
  function Args(t: CallbackType): seq<string> {
    match t
    case CREATEDROW => ["nRow", "aData", "iDataIndex"]
    case DRAW => ["oSettings"]
    case FOOTER => ["nFoot", "aData", "iStart", "iEnd", "aiDisplay"]
    case FORMAT => ["iIn"]
    case HEADER => ["nHead", "aData", "iStart", "iEnd", "aiDisplay"]
    case INFO => ["oSettings", "iStart", "iEnd", "iMax", "iTotal", "sPre"]
    case INIT => ["oSettings", "json"]
    case PREDRAW => ["oSettings"]
    case ROW => ["nRow", "aData", "iDisplayIndex", "iDisplayIndexFull"]
    case STATESAVE => ["oSettings", "oData"]
    case STATESAVEPARAMS => ["oSettings"]
    case STATELOAD => ["oSettings", "oData"]
    case STATELOADPARAMS => ["oSettings"]
    case STATELOADED => ["oSettings", "oData"]
  }

  /** A callback: its type and the text of its function. */
  datatype Callback = Callback(kind: CallbackType, code: string)

  /** A java.util.Set created on first use and shared by reference. */
  class SetRef<T(==)> {
    var elems: set<T>

    constructor ()
      ensures elems == {}
    {
      elems := {};
    }
  }

  /** A java.util.List created on first use and shared by reference. */
  class ListRef<T> {
    var items: seq<T>

    constructor ()
      ensures items == []
    {
      items := [];
    }
  }

  /** The LinkedHashMap of export configurations: formats in insertion
      order, each with its configuration. */
  class ExportMap {
    var formats: seq<string>
    var confs: map<string, ExportConfs.ExportConf>

    ghost predicate Valid()
      reads this
    {
      (forall i, j :: 0 <= i < j < |formats| ==> formats[i] != formats[j]) &&
      (forall f :: f in confs <==> f in formats)
    }

    constructor ()
      ensures Valid() && formats == [] && confs == map[]
    {
      formats, confs := [], map[];
    }

    /** put: a new format goes last, an existing one keeps its place. */
    method Put(format: string, conf: ExportConfs.ExportConf)
      requires Valid()
      modifies this
      ensures Valid() && confs == old(confs)[format := conf]
      ensures formats == if format in old(confs) then old(formats) else old(formats) + [format]
    {
      if format !in confs {
        formats := formats + [format];
      }
      confs := confs[format := conf];
    }

    /** values(), in insertion order. */
    function Values(): (r: seq<ExportConfs.ExportConf>)
      requires Valid()
      reads this
      ensures |r| == |formats| && forall i :: 0 <= i < |r| ==> r[i] == confs[formats[i]]
    {
      ConfsOf(formats, confs)
    }
  }

  function ConfsOf(formats: seq<string>, confs: map<string, ExportConfs.ExportConf>): (r: seq<ExportConfs.ExportConf>)
    requires forall f :: f in formats ==> f in confs
    ensures |r| == |formats| && forall i :: 0 <= i < |r| ==> r[i] == confs[formats[i]]
  {
    if |formats| == 0 then [] else ConfsOf(formats[..|formats| - 1], confs) + [confs[formats[|formats| - 1]]]
  }

  const CssClassName: string := "css.class"
  const CssStyleName: string := "css.style"

  class TableConfiguration {
    const tableId: string
    /** The user's options; null when none were given. */
    const configurations: ConfigMap?<string>
    const request: UrlUtils.ServletRequest
    var staging: map<string, Value>
    var extraJs: SetRef?<string>
    var callbacks: ListRef?<Callback>
    var extraHtmls: ListRef?<string>
    var exportConfiguration: ExportMap
    var exporting: Option<bool>
    var isExportable: bool
    var currentExportFormat: Option<string>
    /** The i18n messages; a fresh empty set at construction. */
    var messages: PropertyMap?
    /** The names of the extensions registered for the table. */
    var internalExtensions: SetRef?<string>

    /** TableConfiguration(tableId, userConf, messageResolver, request). */
    constructor (tableId: string, userConf: ConfigMap?<string>, request: UrlUtils.ServletRequest)
      ensures this.tableId == tableId && configurations == userConf && this.request == request
      ensures staging == map[] && fresh(exportConfiguration) && exportConfiguration.Valid()
      ensures exportConfiguration.formats == [] && exportConfiguration.confs == map[]
      ensures extraJs == null && callbacks == null && extraHtmls == null && internalExtensions == null
      ensures exporting.None? && !isExportable && currentExportFormat.None?
      ensures messages != null && fresh(messages) && messages.entries == map[]
    {
      this.tableId, configurations, this.request := tableId, userConf, request;
      staging := map[];
      exportConfiguration := new ExportMap();
      extraJs, callbacks, extraHtmls, internalExtensions := null, null, null, null;
      exporting, isExportable, currentExportFormat := None, false, None;
      messages := new PropertyMap(map[]);
    }

    /** registerExtension: the set is created on first use. */
    method RegisterExtension(name: string)
      modifies this, internalExtensions
      ensures internalExtensions != null
      ensures old(internalExtensions) != null ==> internalExtensions == old(internalExtensions)
      ensures old(internalExtensions) == null ==> fresh(internalExtensions)
      ensures internalExtensions.elems == (if old(internalExtensions) == null then {} else old(internalExtensions.elems)) + {name}
      ensures unchanged(this`extraJs, this`callbacks, this`extraHtmls, this`staging, this`exportConfiguration)
      ensures unchanged(this`isExportable, this`exporting, this`currentExportFormat, this`messages)
    {
      if internalExtensions == null {
        internalExtensions := new SetRef<string>();
      }
      internalExtensions.elems := internalExtensions.elems + {name};
    }

    /** addExtraJs: the set is created on first use. */
    method AddExtraJs(bundle: string)
      modifies this, extraJs
      ensures extraJs != null
      ensures old(extraJs) != null ==> extraJs == old(extraJs)
      ensures old(extraJs) == null ==> fresh(extraJs)
      ensures extraJs.elems == (if old(extraJs) == null then {} else old(extraJs.elems)) + {bundle}
      ensures unchanged(this`internalExtensions, this`callbacks, this`extraHtmls, this`staging)
      ensures unchanged(this`exportConfiguration, this`exporting, this`isExportable, this`currentExportFormat, this`messages)
    {
      if extraJs == null {
        extraJs := new SetRef<string>();
      }
      extraJs.elems := extraJs.elems + {bundle};
    }

    /** registerCallback: the list is created on first use, the callback
        goes last. */
    method RegisterCallback(c: Callback)
      modifies this, callbacks
      ensures callbacks != null
      ensures old(callbacks) != null ==> callbacks == old(callbacks)
      ensures old(callbacks) == null ==> fresh(callbacks)
      ensures callbacks.items == (if old(callbacks) == null then [] else old(callbacks.items)) + [c]
      ensures unchanged(this`internalExtensions, this`extraJs, this`extraHtmls, this`staging)
      ensures unchanged(this`exportConfiguration, this`exporting, this`isExportable, this`currentExportFormat, this`messages)
    {
      if callbacks == null {
        callbacks := new ListRef<Callback>();
      }
      callbacks.items := callbacks.items + [c];
    }

    /** addExtraHtmlSnippet: the list is created on first use. */
    method AddExtraHtmlSnippet(html: string)
      modifies this, extraHtmls
      ensures extraHtmls != null
      ensures old(extraHtmls) != null ==> extraHtmls == old(extraHtmls)
      ensures old(extraHtmls) == null ==> fresh(extraHtmls)
      ensures extraHtmls.items == (if old(extraHtmls) == null then [] else old(extraHtmls.items)) + [html]
      ensures unchanged(this`internalExtensions, this`extraJs, this`callbacks, this`staging)
      ensures unchanged(this`exportConfiguration, this`exporting, this`isExportable, this`currentExportFormat, this`messages)
    {
      if extraHtmls == null {
        extraHtmls := new ListRef<string>();
      }
      extraHtmls.items := extraHtmls.items + [html];
    }

    /** hasCallback: false without a list, otherwise whether some callback
        has the type. */
    method HasCallback(t: CallbackType) returns (b: bool)
      ensures b <==> callbacks != null && exists i :: 0 <= i < |callbacks.items| && callbacks.items[i].kind == t
    {
      if callbacks == null {
        return false;
      }
      var cs := callbacks.items;
      var i := 0;
      while i < |cs|
        invariant 0 <= i <= |cs|
        invariant forall k :: 0 <= k < i ==> cs[k].kind != t
      {
        if cs[i].kind == t {
          return true;
        }
        i := i + 1;
      }
      return false;
    }

    /** getCallback: the first callback of the type, null if none; the list
        is dereferenced. */
    method GetCallback(t: CallbackType) returns (r: Result<Option<Callback>>)
      ensures callbacks == null ==> r == Err(NullPointer("callbacks"))
      ensures callbacks != null ==> r == Ok(FirstOfType(callbacks.items, t))
    {
      if callbacks == null {
        return Err(NullPointer("callbacks"));
      }
      var cs := callbacks.items;
      var i := 0;
      while i < |cs|
        invariant 0 <= i <= |cs|
        invariant FirstOfType(cs, t) == FirstOfType(cs[i..], t)
      {
        if cs[i].kind == t {
          return Ok(Some(cs[i]));
        }
        assert cs[i..][1..] == cs[i + 1..];
        i := i + 1;
      }
      return Ok(None);
    }

    /** addCssClass: the value joins the classes already set, after a
        space. */
    method AddCssClass(value: string) returns (r: Result<()>)
      modifies configurations
      ensures configurations == null ==> r == Err(NullPointer("configurations"))
      ensures configurations != null ==>
                Done(r, configurations, old(configurations.entries),
                             CssAdded(old(configurations.entries), CssClassName, Html.ClassSeparator, value))
    {
      r := AddCss(configurations, CssClassName, Html.ClassSeparator, value);
    }

    /** addCssStyle: the value joins the styles already set, after a `;`. */
    method AddCssStyle(value: string) returns (r: Result<()>)
      modifies configurations
      ensures configurations == null ==> r == Err(NullPointer("configurations"))
      ensures configurations != null ==>
                Done(r, configurations, old(configurations.entries),
                             CssAdded(old(configurations.entries), CssStyleName, Html.CssSeparator, value))
    {
      r := AddCss(configurations, CssStyleName, Html.CssSeparator, value);
    }

    /** addOption: only the options map is written. */
    method AddOption(name: string, v: Value) returns (r: Result<()>)
      modifies configurations
      ensures configurations == null ==> r == Err(NullPointer("configurations"))
      ensures configurations != null ==> r.Ok? && configurations.entries == old(configurations.entries)[name := v]
    {
      if configurations == null {
        return Err(NullPointer("configurations"));
      }
      configurations.entries := configurations.entries[name := v];
      r := Ok(());
    }

    /** set: registers the configuration of an export format. */
    method SetExportConf(format: string, conf: ExportConfs.ExportConf)
      requires exportConfiguration.Valid()
      modifies exportConfiguration
      ensures exportConfiguration.Valid()
      ensures exportConfiguration.confs == old(exportConfiguration.confs)[format := conf]
      ensures exportConfiguration.formats == if format in old(exportConfiguration.confs)
                                             then old(exportConfiguration.formats)
                                             else old(exportConfiguration.formats) + [format]
    {
      exportConfiguration.Put(format, conf);
    }

    /** getExportConf: the configuration of a format, null when none. */
    function GetExportConf(format: string): (r: ExportConfs.ExportConf?)
      reads this, exportConfiguration
      ensures r != null <==> format in exportConfiguration.confs
      ensures r != null ==> r == exportConfiguration.confs[format]
    {
      if format in exportConfiguration.confs then exportConfiguration.confs[format] else null
    }

    /** getMessage: the message under a key, None when missing; the
        messages are dereferenced. */
    function GetMessage(key: string): (r: Result<Option<string>>)
      reads this, messages
      ensures messages == null <==> r.Err?
      ensures messages != null ==> (r.value.Some? <==> key in messages.entries)
      ensures messages != null && key in messages.entries ==> r.value.value == messages.entries[key]
    {
      if messages == null then Err(NullPointer("messages"))
      else if key in messages.entries then Ok(Some(messages.entries[key]))
      else Ok(None)
    }

    /** addStagingConf: only the staging map is written. */
    method AddStagingConf(name: string, v: Value)
      modifies this
      ensures staging == old(staging)[name := v]
      ensures unchanged(this`extraJs, this`callbacks, this`extraHtmls, this`exportConfiguration, this`internalExtensions)
      ensures unchanged(this`exporting, this`isExportable, this`messages, this`currentExportFormat)
    {
      staging := staging[name := v];
    }
  }

  /** The first callback of type t. */
  function FirstOfType(cs: seq<Callback>, t: CallbackType): (r: Option<Callback>)
    ensures r.Some? <==> exists i :: 0 <= i < |cs| && cs[i].kind == t
    ensures r.Some? ==> r.value.kind == t &&
                        exists i :: 0 <= i < |cs| && cs[i] == r.value && forall k :: 0 <= k < i ==> cs[k].kind != t
  {
    if |cs| == 0 then None
    else if cs[0].kind == t then Some(cs[0])
    else
      var r := FirstOfType(cs[1..], t);
      assert forall i :: 0 <= i < |cs| - 1 ==> cs[1..][i] == cs[i + 1];
      r
  }

  /** The options map after addCssClass/addCssStyle: a missing entry is set
      to an empty builder, an existing one gets the separator; then the value
      is appended. */
  function CssAdded(entries: map<string, Value>, name: string, separator: char, value: string): Result<map<string, Value>> {
    if Lookup(entries, name) == Null then Appended(entries[name := StrBuilder("")], name, value)
    else
      match CharAppended(entries, name, separator)
      case Err(e) => Err(e)
      case Ok(m) => Appended(m, name, value)
  }

  method AddCss(configs: ConfigMap?<string>, name: string, separator: char, value: string) returns (r: Result<()>)
    modifies configs
    ensures configs == null ==> r == Err(NullPointer("configurations"))
    ensures configs != null ==> Done(r, configs, old(configs.entries), CssAdded(old(configs.entries), name, separator, value))
  {
    if configs == null {
      return Err(NullPointer("configurations"));
    }
    r := Commit(configs, CssAdded(configs.entries, name, separator, value));
  }

  /** clone: a new configuration over the same options map, sharing the
      extra JavaScript, callbacks, HTML snippets, exporting flag and
      messages, with its own staging map and export map. */
  method Clone(original: TableConfiguration) returns (c: TableConfiguration)
    ensures fresh(c) && fresh(c.exportConfiguration)
    ensures c.tableId == original.tableId && c.configurations == original.configurations
    ensures c.request == original.request
    ensures c.extraJs == original.extraJs && c.callbacks == original.callbacks
    ensures c.extraHtmls == original.extraHtmls && c.exporting == original.exporting
    ensures c.messages == original.messages
    ensures c.staging == map[] && c.exportConfiguration.formats == [] && c.exportConfiguration.Valid()
    ensures c.internalExtensions == null && !c.isExportable
  {
    c := new TableConfiguration(original.tableId, original.configurations, original.request);
    c.messages := original.messages;
    c.extraJs := original.extraJs;
    c.callbacks := original.callbacks;
    c.extraHtmls := original.extraHtmls;
    c.exporting := original.exporting;
  }

  /** Adding a CSS value to a missing entry or to a builder never fails and
      yields the previous text, the separator and the value. */
  lemma CssAddedJoins(entries: map<string, Value>, name: string, separator: char, value: string)
    requires Lookup(entries, name) == Null || BuilderText(entries, name).Some?
    ensures CssAdded(entries, name, separator, value).Ok?
    ensures var m := CssAdded(entries, name, separator, value).value;
            BuilderText(m, name) == Html.Appended(BuilderText(entries, name), separator, value) &&
            forall k :: k != name ==> Lookup(m, k) == Lookup(entries, k)
  {
    if Lookup(entries, name) == Null {
      assert "" + value == value;
    }
  }

  /** The options map after adding each of `values` in turn. */
  function CssAddedAll(entries: map<string, Value>, name: string, separator: char, values: seq<string>): Result<map<string, Value>> {
    if |values| == 0 then Ok(entries)
    else
      match CssAddedAll(entries, name, separator, values[..|values| - 1])
      case Err(e) => Err(e)
      case Ok(m) => CssAdded(m, name, separator, values[|values| - 1])
  }

  /** Adding class after class to a table without classes builds the
      classes joined by the separator, as HtmlTag does. */
  lemma {:induction false} CssAddedAllAccumulates(entries: map<string, Value>, name: string, separator: char, values: seq<string>)
    requires Lookup(entries, name) == Null
    ensures CssAddedAll(entries, name, separator, values).Ok?
    ensures BuilderText(CssAddedAll(entries, name, separator, values).value, name) == Html.Accumulated(values, separator)
  {
    if |values| > 0 {
      var init := values[..|values| - 1];
      CssAddedAllAccumulates(entries, name, separator, init);
      var m := CssAddedAll(entries, name, separator, init).value;
      if |init| == 0 {
        assert m == entries;
      }
      CssAddedJoins(m, name, separator, values[|values| - 1]);
    }
  }

  /** So the classes added to a table are its class attribute, and split on
      the space they give the classes back. */
  lemma CssClassesJoined(entries: map<string, Value>, values: seq<string>)
    requires Lookup(entries, CssClassName) == Null && |values| > 0
    requires forall i :: 0 <= i < |values| ==> Html.ClassSeparator !in values[i]
    ensures CssAddedAll(entries, CssClassName, Html.ClassSeparator, values).Ok?
    ensures var t := BuilderText(CssAddedAll(entries, CssClassName, Html.ClassSeparator, values).value, CssClassName);
            t.Some? && Pieces(t.value, Html.ClassSeparator) == values
  {
    CssAddedAllAccumulates(entries, CssClassName, Html.ClassSeparator, values);
    Html.AccumulatedJoins(values, Html.ClassSeparator);
  }

  /** A clone writes options into the map its original reads: an option
      added through one is seen by the other. */
  method CloneSharesOptions(original: TableConfiguration, name: string, v: Value) returns (c: TableConfiguration)
    requires original.configurations != null
    modifies original.configurations
    ensures c.configurations == original.configurations
    ensures Lookup(original.configurations.entries, name) == v
  {
    c := Clone(original);
    var r := c.AddOption(name, v);
  }
}
