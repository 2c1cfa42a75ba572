/** configuration/TableConfiguration and model/TableProperties: the legacy
    per-table configuration object with its group cache, and the properties
    wrapper it replaced. Both answer which class exports a format, with
    different fallbacks. */
module LegacyConfiguration {
  import opened Wrappers
  import opened JavaString
  import opened ConfigValues
  import StringUtils
  import TC = TableConfigurations

  /** The formats of the export subsystem: the five the legacy classes name,
      and two more (named like the matching display types) standing for the
      constants their switch statements leave to the default branch. */
  datatype ExportType = CSV | XML | XLS | XLSX | PDF | RTF | JSON

  /** The formats that have an export class setting. */
  const ClassTypes: set<ExportType> := {CSV, PDF, XLS, XLSX, XML}

  /** ExportType.valueOf: the exact constant name, None (an
      IllegalArgumentException) for anything else. */
  function ExportTypeValueOf(s: string): (r: Option<ExportType>)
    ensures r.Some? ==> TypeName(r.value) == s
  {
    if s == "CSV" then Some(CSV)
    else if s == "XML" then Some(XML)
    else if s == "XLS" then Some(XLS)
    else if s == "XLSX" then Some(XLSX)
    else if s == "PDF" then Some(PDF)
    else if s == "RTF" then Some(RTF)
    else if s == "JSON" then Some(JSON)
    else None
  }

  function TypeName(t: ExportType): string {
    match t
    case CSV => "CSV"
    case XML => "XML"
    case XLS => "XLS"
    case XLSX => "XLSX"
    case PDF => "PDF"
    case RTF => "RTF"
    case JSON => "JSON"
  }

  /** valueOf undoes name(). */
  lemma ValueOfName(t: ExportType)
    ensures ExportTypeValueOf(TypeName(t)) == Some(t)
  {
  }

  const DefaultGroupName: string := "global"

  class TableConfiguration {
    /** exportCsvClass, exportPdfClass, ...: the class configured for a
        format; no entry is null. */
    var exportClass: map<ExportType, string>
    /** exportDefaultCsvClass, ...: the class used when none is configured. */
    var exportDefaultClass: map<ExportType, string>
    var isExportable: bool
    var internalPlugins: TC.SetRef?<string>
    var internalFeatures: TC.SetRef?<string>
    var extraFiles: TC.ListRef?<string>
    var extraConfs: TC.ListRef?<string>
    var extraCallbacks: TC.ListRef?<TC.Callback>

    /** The private constructor: the export classes are those the
        configuration loader produced for the group. */
    constructor (exportClass: map<ExportType, string>, exportDefaultClass: map<ExportType, string>)
      ensures this.exportClass == exportClass && this.exportDefaultClass == exportDefaultClass
      ensures !isExportable && internalPlugins == null && internalFeatures == null
      ensures extraFiles == null && extraConfs == null && extraCallbacks == null
    {
      this.exportClass, this.exportDefaultClass := exportClass, exportDefaultClass;
      isExportable := false;
      internalPlugins, internalFeatures := null, null;
      extraFiles, extraConfs, extraCallbacks := null, null, null;
    }

    /** The same object state: what a field-by-field clone produces. */
    predicate SameFields(o: TableConfiguration)
      reads this, o
    {
      exportClass == o.exportClass && exportDefaultClass == o.exportDefaultClass &&
      isExportable == o.isExportable && internalPlugins == o.internalPlugins &&
      internalFeatures == o.internalFeatures && extraFiles == o.extraFiles &&
      extraConfs == o.extraConfs && extraCallbacks == o.extraCallbacks
    }

    /** clone (Object.clone): a new object with every field copied, so the
        collections are shared with the original. */
    method Clone() returns (c: TableConfiguration)
      ensures fresh(c) && c.SameFields(this)
    {
      c := new TableConfiguration(exportClass, exportDefaultClass);
      c.isExportable := isExportable;
      c.internalPlugins, c.internalFeatures := internalPlugins, internalFeatures;
      c.extraFiles, c.extraConfs, c.extraCallbacks := extraFiles, extraConfs, extraCallbacks;
    }

    /** getExportClass: the configured class unless it is blank, then the
        default; null for a format without a class setting. */
    function GetExportClass(t: ExportType): (r: Option<string>)
      reads this
      ensures t !in ClassTypes ==> r.None?
      ensures t in ClassTypes && t in exportClass && StringUtils.NotBlank(Some(exportClass[t])) ==> r == Some(exportClass[t])
      ensures t in ClassTypes && (t !in exportClass || StringUtils.Blank(Some(exportClass[t]))) ==>
                r == (if t in exportDefaultClass then Some(exportDefaultClass[t]) else None)
    {
      if t !in ClassTypes then None
      else if t in exportClass && StringUtils.NotBlank(Some(exportClass[t])) then Some(exportClass[t])
      else if t in exportDefaultClass then Some(exportDefaultClass[t])
      else None
    }

    /** isValidProperty: the lookup through ConfConstants is commented out,
        so no property is valid. */
    predicate IsValidProperty(property: string) {
      false
    }

    /** registerPlugin: the set is created on first use. */
    method RegisterPlugin(plugin: string)
      modifies this, internalPlugins
      ensures internalPlugins != null && (old(internalPlugins) == null ==> fresh(internalPlugins))
      ensures old(internalPlugins) != null ==> internalPlugins == old(internalPlugins)
      ensures internalPlugins.elems == (if old(internalPlugins) == null then {} else old(internalPlugins.elems)) + {plugin}
      ensures unchanged(this`internalFeatures, this`extraFiles, this`extraConfs, this`extraCallbacks)
      ensures unchanged(this`exportClass, this`exportDefaultClass, this`isExportable)
    {
      if internalPlugins == null {
        internalPlugins := new TC.SetRef<string>();
      }
      internalPlugins.elems := internalPlugins.elems + {plugin};
    }

    /** registerFeature: the set is created on first use. */
    method RegisterFeature(feature: string)
      modifies this, internalFeatures
      ensures internalFeatures != null && (old(internalFeatures) == null ==> fresh(internalFeatures))
      ensures old(internalFeatures) != null ==> internalFeatures == old(internalFeatures)
      ensures internalFeatures.elems == (if old(internalFeatures) == null then {} else old(internalFeatures.elems)) + {feature}
      ensures unchanged(this`internalPlugins, this`extraFiles, this`extraConfs, this`extraCallbacks)
      ensures unchanged(this`exportClass, this`exportDefaultClass, this`isExportable)
    {
      if internalFeatures == null {
        internalFeatures := new TC.SetRef<string>();
      }
      internalFeatures.elems := internalFeatures.elems + {feature};
    }

    /** addExtraFile: the list is created on first use. */
    method AddExtraFile(file: string)
      modifies this, extraFiles
      ensures extraFiles != null && (old(extraFiles) == null ==> fresh(extraFiles))
      ensures old(extraFiles) != null ==> extraFiles == old(extraFiles)
      ensures extraFiles.items == (if old(extraFiles) == null then [] else old(extraFiles.items)) + [file]
      ensures unchanged(this`internalPlugins, this`internalFeatures, this`extraConfs, this`extraCallbacks)
      ensures unchanged(this`exportClass, this`exportDefaultClass, this`isExportable)
    {
      if extraFiles == null {
        extraFiles := new TC.ListRef<string>();
      }
      extraFiles.items := extraFiles.items + [file];
    }

    /** addExtraConf: the list is created on first use. */
    method AddExtraConf(conf: string)
      modifies this, extraConfs
      ensures extraConfs != null && (old(extraConfs) == null ==> fresh(extraConfs))
      ensures old(extraConfs) != null ==> extraConfs == old(extraConfs)
      ensures extraConfs.items == (if old(extraConfs) == null then [] else old(extraConfs.items)) + [conf]
      ensures unchanged(this`internalPlugins, this`internalFeatures, this`extraFiles, this`extraCallbacks)
      ensures unchanged(this`exportClass, this`exportDefaultClass, this`isExportable)
    {
      if extraConfs == null {
        extraConfs := new TC.ListRef<string>();
      }
      extraConfs.items := extraConfs.items + [conf];
    }

    /** registerCallback: the list is created on first use. */
    method RegisterCallback(c: TC.Callback)
      modifies this, extraCallbacks
      ensures extraCallbacks != null && (old(extraCallbacks) == null ==> fresh(extraCallbacks))
      ensures old(extraCallbacks) != null ==> extraCallbacks == old(extraCallbacks)
      ensures extraCallbacks.items == (if old(extraCallbacks) == null then [] else old(extraCallbacks.items)) + [c]
      ensures unchanged(this`internalPlugins, this`internalFeatures, this`extraFiles, this`extraConfs)
      ensures unchanged(this`exportClass, this`exportDefaultClass, this`isExportable)
    {
      if extraCallbacks == null {
        extraCallbacks := new TC.ListRef<TC.Callback>();
      }
      extraCallbacks.items := extraCallbacks.items + [c];
    }

    /** hasCallback: false without a list. */
    method HasCallback(t: TC.CallbackType) returns (b: bool)
      ensures b <==> extraCallbacks != null && TC.FirstOfType(extraCallbacks.items, t).Some?
    {
      if extraCallbacks == null {
        return false;
      }
      var cs := extraCallbacks.items;
      var i := 0;
      while i < |cs|
        invariant 0 <= i <= |cs|
        invariant forall k :: 0 <= k < i ==> cs[k].kind != t
      {
        if cs[i].kind == t {
          return true;
        }
        i := i + 1;
      }
      return false;
    }

    /** getCallback: the first callback of the type; the list is
        dereferenced. */
    method GetCallback(t: TC.CallbackType) returns (r: Result<Option<TC.Callback>>)
      ensures extraCallbacks == null ==> r == Err(NullPointer("extraCallbacks"))
      ensures extraCallbacks != null ==> r == Ok(TC.FirstOfType(extraCallbacks.items, t))
    {
      if extraCallbacks == null {
        return Err(NullPointer("extraCallbacks"));
      }
      var cs := extraCallbacks.items;
      var i := 0;
      while i < |cs|
        invariant 0 <= i <= |cs|
        invariant TC.FirstOfType(cs, t) == TC.FirstOfType(cs[i..], t)
      {
        if cs[i].kind == t {
          return Ok(Some(cs[i]));
        }
        assert cs[i..][1..] == cs[i + 1..];
        i := i + 1;
      }
      return Ok(None);
    }
  }

  /** The group getInstance uses: the default one for a null or empty name. */
  function GroupOf(groupName: Option<string>): (g: string)
    ensures groupName.None? || groupName.value == "" ==> g == DefaultGroupName
    ensures groupName.Some? && groupName.value != "" ==> g == groupName.value
    ensures |g| > 0
  {
    if groupName.None? || groupName.value == "" then DefaultGroupName else groupName.value
  }

  /** The static cache of getInstance: one configuration per group. */
  class ConfigurationCache {
    var configurations: map<string, TableConfiguration>

    constructor ()
      ensures configurations == map[]
    {
      configurations := map[];
    }

    /** getInstance(request, groupName): the group's configuration is built
        once, from the classes the loader gives for it, and kept; every call
        returns a fresh clone of the kept one. */
    method GetInstance(groupName: Option<string>, exportClass: map<ExportType, string>,
                       exportDefaultClass: map<ExportType, string>) returns (c: TableConfiguration)
      modifies this
      ensures var g := GroupOf(groupName);
              g in configurations && fresh(c) && c.SameFields(configurations[g]) &&
              (g in old(configurations) ==> configurations == old(configurations)) &&
              (g !in old(configurations) ==>
                 fresh(configurations[g]) && configurations == old(configurations)[g := configurations[g]] &&
                 configurations[g].exportClass == exportClass &&
                 configurations[g].exportDefaultClass == exportDefaultClass)
    {
      var g := GroupOf(groupName);
      if g !in configurations {
        var conf := new TableConfiguration(exportClass, exportDefaultClass);
        configurations := configurations[g := conf];
      }
      c := configurations[g].Clone();
    }
  }

  // ---------------------------------------------------------------------
  // TableProperties

  /** The ConfConstants keys TableProperties knows of. */
  datatype ConfKey =
    | COMPRESSOR_CLASS | COMPRESSOR_ENABLE | COMPRESSOR_MODE | COMPRESSOR_MUNGE
    | COMPRESSOR_PRESERVE_SEMI | COMPRESSOR_DISABLE_OPTI | AGGREGATOR_ENABLE | AGGREGATOR_MODE
    | DATASOURCE_CLASS | EXPORT_TYPES
    | EXPORT_XLS_DEFAULT_CLASS | EXPORT_XLSX_DEFAULT_CLASS | EXPORT_PDF_DEFAULT_CLASS
    | EXPORT_CSV_DEFAULT_CLASS | EXPORT_XML_DEFAULT_CLASS
    | EXPORT_CSV_CLASS | EXPORT_XML_CLASS | EXPORT_XLS_CLASS | EXPORT_XLSX_CLASS | EXPORT_PDF_CLASS

  /** The keys isValidProperty accepts, in its order. */
  const ValidKeys: seq<ConfKey> := [
    COMPRESSOR_CLASS, COMPRESSOR_ENABLE, COMPRESSOR_MODE, COMPRESSOR_MUNGE, COMPRESSOR_PRESERVE_SEMI,
    COMPRESSOR_DISABLE_OPTI, AGGREGATOR_ENABLE, AGGREGATOR_MODE, DATASOURCE_CLASS, EXPORT_TYPES,
    EXPORT_XLS_DEFAULT_CLASS, EXPORT_XLSX_DEFAULT_CLASS, EXPORT_PDF_DEFAULT_CLASS,
    EXPORT_CSV_CLASS, EXPORT_XML_CLASS, EXPORT_XLS_CLASS, EXPORT_XLSX_CLASS, EXPORT_PDF_CLASS]

  /** The key of each format's class, and of its default class. */
  function ClassKey(t: ExportType): ConfKey
    requires t in ClassTypes
  {
    match t
    case CSV => EXPORT_CSV_CLASS
    case PDF => EXPORT_PDF_CLASS
    case XLS => EXPORT_XLS_CLASS
    case XLSX => EXPORT_XLSX_CLASS
    case XML => EXPORT_XML_CLASS
  }

  function DefaultClassKey(t: ExportType): ConfKey
    requires t in ClassTypes
  {
    match t
    case CSV => EXPORT_CSV_DEFAULT_CLASS
    case PDF => EXPORT_PDF_DEFAULT_CLASS
    case XLS => EXPORT_XLS_DEFAULT_CLASS
    case XLSX => EXPORT_XLSX_DEFAULT_CLASS
    case XML => EXPORT_XML_DEFAULT_CLASS
  }

  /** The key strings, taken as distinct. */
  ghost predicate Injective(names: ConfKey -> string) {
    forall a, b :: names(a) == names(b) ==> a == b
  }

  class TableProperties {
    /** The properties file; null until initProperties. */
    var propertiesResource: PropertyMap?
    /** The text of each ConfConstants key. */
    const names: ConfKey -> string

    constructor (names: ConfKey -> string)
      ensures this.names == names && propertiesResource == null
    {
      this.names := names;
      propertiesResource := null;
    }

    method InitProperties(properties: PropertyMap?)
      modifies this
      ensures propertiesResource == properties
    {
      propertiesResource := properties;
    }

    /** setProperty: the key is overwritten, for this table and every other
        holder of the same properties. */
    method SetProperty(key: string, value: string) returns (r: Result<()>)
      modifies propertiesResource
      ensures propertiesResource == null ==> r == Err(NullPointer("propertiesResource"))
      ensures propertiesResource != null ==>
                r.Ok? && propertiesResource.entries == old(propertiesResource.entries)[key := value]
    {
      if propertiesResource == null {
        return Err(NullPointer("propertiesResource"));
      }
      propertiesResource.entries := propertiesResource.entries[key := value];
      r := Ok(());
    }

    /** getProperty: the value, None (null) when the key is missing. */
    function GetProperty(key: string): (r: Result<Option<string>>)
      reads this, propertiesResource
      ensures r.Err? <==> propertiesResource == null
      ensures r.Ok? ==> (r.value.Some? <==> key in propertiesResource.entries)
      ensures r.Ok? && r.value.Some? ==> r.value.value == propertiesResource.entries[key]
    {
      if propertiesResource == null then Err(NullPointer("propertiesResource"))
      else if key in propertiesResource.entries then Ok(Some(propertiesResource.entries[key]))
      else Ok(None)
    }

    /** The boolean getters (isCompressorEnable, getCompressorMunge, ...):
        Boolean.parseBoolean of the property. */
    function GetFlag(k: ConfKey): (r: Result<bool>)
      reads this, propertiesResource
      ensures r.Ok? <==> propertiesResource != null
      ensures r.Ok? && names(k) !in propertiesResource.entries ==> !r.value
      ensures r.Ok? && names(k) in propertiesResource.entries ==>
                (r.value <==> EqualsIgnoreCase(propertiesResource.entries[names(k)], "true"))
    {
      match GetProperty(names(k))
      case Err(e) => Err(e)
      case Ok(v) => Ok(ParseBoolean(v))
    }

    /** isValidProperty: one of the 18 keys of the properties file. */
    predicate IsValidProperty(property: string) {
      exists i :: 0 <= i < |ValidKeys| && names(ValidKeys[i]) == property
    }

    /** getExportClass: the configured class unless it is missing (a blank
        one is kept), then the default; null for a format without a class
        setting. */
    function GetExportClass(t: ExportType): (r: Result<Option<string>>)
      reads this, propertiesResource
      ensures t !in ClassTypes ==> r == Ok(None)
      ensures t in ClassTypes ==>
                r == match GetProperty(names(ClassKey(t)))
                     case Err(e) => Err(e)
                     case Ok(None) => GetProperty(names(DefaultClassKey(t)))
                     case Ok(Some(c)) => Ok(Some(c))
    {
      if t !in ClassTypes then Ok(None)
      else
        match GetProperty(names(ClassKey(t)))
        case Err(e) => Err(e)
        case Ok(None) => GetProperty(names(DefaultClassKey(t)))
        case Ok(Some(c)) => Ok(Some(c))
    }

    /** getExportTypes: the property split on `,`, each piece turned into a
        format in order; a missing property is dereferenced and an unknown
        piece is an IllegalArgumentException. */
    method GetExportTypes() returns (r: Result<seq<ExportType>>)
      ensures r == ExportTypesOf(GetProperty(names(EXPORT_TYPES)))
    {
      var p := GetProperty(names(EXPORT_TYPES));
      if p.Err? {
        return Err(p.error);
      }
      if p.value.None? {
        return Err(NullPointer("exportTypes"));
      }
      var pieces := Split(p.value.value, ',');
      var types: seq<ExportType> := [];
      var i := 0;
      while i < |pieces|
        invariant 0 <= i <= |pieces|
        invariant ValuesOf(pieces[..i]) == Some(types)
      {
        var t := ExportTypeValueOf(pieces[i]);
        if t.None? {
          ValuesOfFails(pieces, i);
          return Err(IllegalArgument("No enum constant"));
        }
        assert pieces[..i + 1][..i] == pieces[..i];
        types := types + [t.value];
        i := i + 1;
      }
      assert pieces[..i] == pieces;
      r := Ok(types);
    }
  }

  /** The formats named by the pieces, None when one is unknown. */
  function ValuesOf(pieces: seq<string>): (r: Option<seq<ExportType>>)
    ensures r.Some? ==> |r.value| == |pieces| &&
                        forall i :: 0 <= i < |pieces| ==> ExportTypeValueOf(pieces[i]) == Some(r.value[i])
    ensures r.None? <==> exists i :: 0 <= i < |pieces| && ExportTypeValueOf(pieces[i]).None?
  {
    if |pieces| == 0 then Some([])
    else
      var init := ValuesOf(pieces[..|pieces| - 1]);
      var last := ExportTypeValueOf(pieces[|pieces| - 1]);
      if init.None? then
        assert forall i :: 0 <= i < |pieces| - 1 ==> pieces[..|pieces| - 1][i] == pieces[i];
        None
      else if last.None? then None
      else
        assert forall i :: 0 <= i < |pieces| - 1 ==> pieces[..|pieces| - 1][i] == pieces[i];
        Some(init.value + [last.value])
  }

  lemma ValuesOfFails(pieces: seq<string>, i: int)
    requires 0 <= i < |pieces| && ExportTypeValueOf(pieces[i]).None?
    ensures forall j :: i < j <= |pieces| ==> ValuesOf(pieces[..j]).None?
  {
    forall j | i < j <= |pieces|
      ensures ValuesOf(pieces[..j]).None?
    {
      assert pieces[..j][i] == pieces[i];
    }
  }

  function ExportTypesOf(p: Result<Option<string>>): Result<seq<ExportType>> {
    match p
    case Err(e) => Err(e)
    case Ok(None) => Err(NullPointer("exportTypes"))
    case Ok(Some(s)) =>
      match ValuesOf(Split(s, ','))
      case None => Err(IllegalArgument("No enum constant"))
      case Some(ts) => Ok(ts)
  }

  /** A list of format names written with commas gives the formats back in
      order. */
  lemma {:induction false} ExportTypesRoundTrip(ts: seq<ExportType>)
    requires |ts| > 0
    ensures ValuesOf(Split(StringUtils.Joined(StringUtils.Wrap(Names(ts)), ","), ',')) == Some(ts)
  {
    var names := Names(ts);
    NamesHaveNoComma(ts);
    StringUtils.JoinedThenPieces(names, ',');
    var s := StringUtils.Joined(StringUtils.Wrap(names), ",");
    assert Pieces(s, ',') == names;
    if ',' in s {
      NoEmptyName(ts);
      DropNothing(names);
    } else {
      assert |names| == 1 by {
        if |names| > 1 {
          CommaBetween(ts);
        }
      }
    }
    ValuesOfNames(ts);
  }

  function Names(ts: seq<ExportType>): (r: seq<string>)
    ensures |r| == |ts| && forall i :: 0 <= i < |ts| ==> r[i] == TypeName(ts[i])
  {
    if |ts| == 0 then [] else Names(ts[..|ts| - 1]) + [TypeName(ts[|ts| - 1])]
  }

  lemma NamesHaveNoComma(ts: seq<ExportType>)
    ensures forall i :: 0 <= i < |ts| ==> ',' !in Names(ts)[i]
  {
  }

  lemma NoEmptyName(ts: seq<ExportType>)
    ensures forall i :: 0 <= i < |ts| ==> Names(ts)[i] != ""
  {
  }

  lemma DropNothing(p: seq<string>)
    requires |p| > 0 && p[|p| - 1] != ""
    ensures DropTrailingEmpty(p) == p
  {
  }

  lemma CommaBetween(ts: seq<ExportType>)
    requires |ts| > 1
    ensures ',' in StringUtils.Joined(StringUtils.Wrap(Names(ts)), ",")
  {
    var names := Names(ts);
    NamesHaveNoComma(ts);
    StringUtils.JoinedThenPieces(names, ',');
    var s := StringUtils.Joined(StringUtils.Wrap(names), ",");
    if ',' !in s {
      StringUtils.PiecesOfPlain(s, ',');
    }
  }

  /** One more piece: its format joins the others, or it is unknown. */
  lemma ValuesOfSnoc(pieces: seq<string>, x: string)
    ensures ValuesOf(pieces + [x]) ==
            if ValuesOf(pieces).Some? && ExportTypeValueOf(x).Some? then Some(ValuesOf(pieces).value + [ExportTypeValueOf(x).value])
            else None
  {
    assert (pieces + [x])[..|pieces|] == pieces;
  }

  lemma {:induction false} ValuesOfNames(ts: seq<ExportType>)
    ensures ValuesOf(Names(ts)) == Some(ts)
  {
    if |ts| > 0 {
      var init := ts[..|ts| - 1];
      ValuesOfNames(init);
      ValueOfName(ts[|ts| - 1]);
      ValuesOfSnoc(Names(init), TypeName(ts[|ts| - 1]));
      assert ts == init + [ts[|ts| - 1]];
    }
  }

  // ---------------------------------------------------------------------
  // The two getExportClass

  /** The two versions agree except on a configured class that is blank:
      TableProperties returns it, TableConfiguration falls back to the
      default. */
  lemma ExportClassFallbacks(props: TableProperties, conf: TableConfiguration, t: ExportType)
    requires props.propertiesResource != null && t in ClassTypes
    requires var e := props.propertiesResource.entries;
             (forall u :: u in ClassTypes ==>
                (u in conf.exportClass <==> props.names(ClassKey(u)) in e) &&
                (u in conf.exportClass ==> conf.exportClass[u] == e[props.names(ClassKey(u))]) &&
                (u in conf.exportDefaultClass <==> props.names(DefaultClassKey(u)) in e) &&
                (u in conf.exportDefaultClass ==> conf.exportDefaultClass[u] == e[props.names(DefaultClassKey(u))]))
    ensures t in conf.exportClass && StringUtils.Blank(Some(conf.exportClass[t])) ==>
              props.GetExportClass(t) == Ok(Some(conf.exportClass[t])) &&
              conf.GetExportClass(t) == (if t in conf.exportDefaultClass then Some(conf.exportDefaultClass[t]) else None)
    ensures !(t in conf.exportClass && StringUtils.Blank(Some(conf.exportClass[t]))) ==>
              props.GetExportClass(t) == Ok(conf.GetExportClass(t))
  {
  }

  /** The legacy configuration refuses every key, even those the
      properties file defines. */
  lemma ValidityDiffers(props: TableProperties, conf: TableConfiguration)
    ensures forall i :: 0 <= i < |ValidKeys| ==>
              props.IsValidProperty(props.names(ValidKeys[i])) && !conf.IsValidProperty(props.names(ValidKeys[i]))
  {
  }

  /** isValidProperty accepts the three default-class keys of XLS, XLSX and
      PDF but not those of CSV and XML, which getExportClass reads all the
      same. */
  lemma DefaultClassKeysNotAllValid(props: TableProperties)
    requires Injective(props.names)
    ensures props.IsValidProperty(props.names(EXPORT_PDF_DEFAULT_CLASS))
    ensures !props.IsValidProperty(props.names(EXPORT_CSV_DEFAULT_CLASS))
    ensures !props.IsValidProperty(props.names(EXPORT_XML_DEFAULT_CLASS))
  {
    assert ValidKeys[12] == EXPORT_PDF_DEFAULT_CLASS;
  }
}
