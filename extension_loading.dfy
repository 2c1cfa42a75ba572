/** extension/ExtensionProcessor and extension/ExtensionLoader: how the
    extensions of a table reach the main JavaScript file, the DataTables
    configuration map and the web resources. Both classes inject an
    extension into the main file and merge its parameters the same way;
    those steps are written once here and used by both. */
module ExtensionLoading {
  import opened Wrappers
  import opened ConfigValues
  import opened Extensions
  import JavaString
  import Javascript

  type Sections = map<Javascript.Section, string>

  /** A section of the main file after the extension's text, when there is
      one, is appended to it. */
  function Carried(b: Sections, s: Javascript.Section, text: Option<string>): Option<string> {
    if text.None? then Javascript.Get(b, s) else Javascript.Extended(Javascript.Get(b, s), text.value)
  }

  /** One conditional append of injectIntoMainJsFile. */
  function AppendedTo(b: Sections, s: Javascript.Section, text: Option<string>): (r: Sections)
    ensures Javascript.Get(r, s) == Carried(b, s, text)
    ensures forall t :: t != s ==> Javascript.Get(r, t) == Javascript.Get(b, t)
  {
    if text.None? then b else b[s := Javascript.Extended(Javascript.Get(b, s), text.value).value]
  }

  /** The JSON of the extension's custom configuration generator, if any. */
  function GeneratedConf(e: Extension): Option<string>
    reads e
  {
    if e.configGenerator.Some? then Some(e.configGenerator.value.json) else None
  }

  /** injectIntoMainJsFile as written: beforeAll, afterStartDocumentReady,
      beforeEndDocumentReady and afterAll go to the same sections, the
      extra function to dataTablesExtra and the generated configuration to
      dataTablesExtraConf. beforeStartDocumentReady is never read. */
  function Injected(b: Sections, e: Extension): Sections
    reads e
  {
    var b1 := AppendedTo(b, Javascript.BeforeAll, e.Buffer(BeforeAll));
    var b2 := AppendedTo(b1, Javascript.AfterStartDocumentReady, e.Buffer(AfterStartDocumentReady));
    var b3 := AppendedTo(b2, Javascript.BeforeEndDocumentReady, e.Buffer(BeforeEndDocumentReady));
    var b4 := AppendedTo(b3, Javascript.AfterAll, e.Buffer(AfterAll));
    var b5 := AppendedTo(b4, Javascript.DataTablesExtra, e.extraFunction);
    AppendedTo(b5, Javascript.DataTablesExtraConf, GeneratedConf(e))
  }

  /** Each set extension section is appended to the matching main-file
      section and a null one adds nothing; the main file's own
      beforeStartDocumentReady and configuration are left alone. */
  lemma InjectedSections(b: Sections, e: Extension)
    ensures Javascript.Get(Injected(b, e), Javascript.BeforeAll) == Carried(b, Javascript.BeforeAll, e.Buffer(BeforeAll))
    ensures Javascript.Get(Injected(b, e), Javascript.AfterStartDocumentReady)
            == Carried(b, Javascript.AfterStartDocumentReady, e.Buffer(AfterStartDocumentReady))
    ensures Javascript.Get(Injected(b, e), Javascript.BeforeEndDocumentReady)
            == Carried(b, Javascript.BeforeEndDocumentReady, e.Buffer(BeforeEndDocumentReady))
    ensures Javascript.Get(Injected(b, e), Javascript.AfterAll) == Carried(b, Javascript.AfterAll, e.Buffer(AfterAll))
    ensures Javascript.Get(Injected(b, e), Javascript.DataTablesExtra) == Carried(b, Javascript.DataTablesExtra, e.extraFunction)
    ensures Javascript.Get(Injected(b, e), Javascript.DataTablesExtraConf) == Carried(b, Javascript.DataTablesExtraConf, GeneratedConf(e))
    ensures Javascript.Get(Injected(b, e), Javascript.BeforeStartDocumentReady) == Javascript.Get(b, Javascript.BeforeStartDocumentReady)
    ensures Javascript.Get(Injected(b, e), Javascript.DataTablesConf) == Javascript.Get(b, Javascript.DataTablesConf)
  {
  }

  /** An extension whose only content is beforeStartDocumentReady text
      leaves the main file exactly as it was: the text is lost. */
  lemma BeforeStartTextLost(b: Sections, e: Extension)
    requires e.Buffer(BeforeStartDocumentReady).Some?
    requires e.buffers.Keys == {BeforeStartDocumentReady}
    requires e.extraFunction.None? && e.configGenerator.None?
    ensures Injected(b, e) == b
  {
    assert BeforeAll !in e.buffers && AfterStartDocumentReady !in e.buffers;
    assert BeforeEndDocumentReady !in e.buffers && AfterAll !in e.buffers;
  }

  /** The main-file section each extension section belongs to. */
  function MainSection(s: ExtSection): (t: Javascript.Section)
    ensures t != Javascript.DataTablesConf && t != Javascript.DataTablesExtra && t != Javascript.DataTablesExtraConf
  {
    match s
    case BeforeAll => Javascript.BeforeAll
    case BeforeStartDocumentReady => Javascript.BeforeStartDocumentReady
    case AfterStartDocumentReady => Javascript.AfterStartDocumentReady
    case BeforeEndDocumentReady => Javascript.BeforeEndDocumentReady
    case AfterAll => Javascript.AfterAll
  }

  /** injectIntoMainJsFile as evidently intended: beforeStartDocumentReady
      is carried over like the other four sections. */
  function InjectedIntended(b: Sections, e: Extension): Sections
    reads e
  {
    AppendedTo(Injected(b, e), Javascript.BeforeStartDocumentReady, e.Buffer(BeforeStartDocumentReady))
  }

  /** Every section of the extension reaches its own main-file section. */
  lemma InjectedIntendedCarriesEverySection(b: Sections, e: Extension, s: ExtSection)
    ensures Javascript.Get(InjectedIntended(b, e), MainSection(s)) == Carried(b, MainSection(s), e.Buffer(s))
  {
    InjectedSections(b, e);
  }

  /** processJavascriptFunction: OVERRIDE stores the new value; the other
      modes join the codes with the new code on the APPEND side and the
      existing one on the other. */
  method ProcessJavascriptFunction(config: ConfigMap<string>, p: Parameter, toText: Value -> string) returns (r: Result<()>)
    requires p.name in config.entries && config.entries[p.name].Func?
    modifies config
    ensures var expected := MergeParameter(old(config.entries), p, toText);
      (r.Ok? <==> expected.Ok?) && (r.Ok? ==> config.entries == expected.value) && (r.Err? ==> r.error == expected.error)
  {
    var existing := config.entries[p.name].code;
    if p.mode == OVERRIDE {
      config.entries := config.entries[p.name := p.value];
      return Ok(());
    }
    if p.value.Null? {
      return Err(NullPointer(p.name));
    }
    if !p.value.Func? {
      return Err(ClassCast(p.name));
    }
    var incoming := p.value.code;
    var newValue;
    match p.mode {
      case APPEND => newValue := incoming + existing;
      case PREPEND => newValue := existing + incoming;
      case APPEND_WITH_SPACE => newValue := incoming + " " + existing;
      case PREPEND_WITH_SPACE => newValue := existing + " " + incoming;
    }
    config.entries := config.entries[p.name := Func(newValue)];
    r := Ok(());
  }

  /** processJavascriptSnippet: as for functions, on the snippet's code. */
  method ProcessJavascriptSnippet(config: ConfigMap<string>, p: Parameter, toText: Value -> string) returns (r: Result<()>)
    requires p.name in config.entries && config.entries[p.name].Snippet?
    modifies config
    ensures var expected := MergeParameter(old(config.entries), p, toText);
      (r.Ok? <==> expected.Ok?) && (r.Ok? ==> config.entries == expected.value) && (r.Err? ==> r.error == expected.error)
  {
    var existing := config.entries[p.name].js;
    if p.mode == OVERRIDE {
      config.entries := config.entries[p.name := p.value];
      return Ok(());
    }
    if p.value.Null? {
      return Err(NullPointer(p.name));
    }
    if !p.value.Snippet? {
      return Err(ClassCast(p.name));
    }
    var incoming := p.value.js;
    var newValue;
    match p.mode {
      case APPEND => newValue := incoming + existing;
      case PREPEND => newValue := existing + incoming;
      case APPEND_WITH_SPACE => newValue := incoming + " " + existing;
      case PREPEND_WITH_SPACE => newValue := existing + " " + incoming;
    }
    config.entries := config.entries[p.name := Snippet(newValue)];
    r := Ok(());
  }

  /** processString: OVERRIDE stores the new value; the other modes cast the
      existing value to String and concatenate the texts, the new one on the
      side the mode names. */
  method ProcessString(config: ConfigMap<string>, p: Parameter, toText: Value -> string) returns (r: Result<()>)
    requires p.name in config.entries && !config.entries[p.name].Func? && !config.entries[p.name].Snippet?
    modifies config
    ensures var expected := MergeParameter(old(config.entries), p, toText);
      (r.Ok? <==> expected.Ok?) && (r.Ok? ==> config.entries == expected.value) && (r.Err? ==> r.error == expected.error)
  {
    if p.mode == OVERRIDE {
      config.entries := config.entries[p.name := p.value];
      return Ok(());
    }
    var current := config.entries[p.name];
    if !(current.Str? || current.Null?) {
      return Err(ClassCast(p.name));
    }
    var value := Stringify(current, toText);
    var incoming := Stringify(p.value, toText);
    match p.mode {
      case APPEND => value := value + incoming;
      case PREPEND => value := incoming + value;
      case APPEND_WITH_SPACE => value := value + " " + incoming;
      case PREPEND_WITH_SPACE => value := incoming + " " + value;
    }
    config.entries := config.entries[p.name := Str(value)];
    r := Ok(());
  }

  /** One parameter of injectIntoMainConfiguration: an absent name is put
      as it is; a present one goes to the function, snippet or string
      merge by the kind of the value it holds. */
  method MergeInto(config: ConfigMap<string>, p: Parameter, toText: Value -> string) returns (r: Result<()>)
    modifies config
    ensures var expected := MergeParameter(old(config.entries), p, toText);
      (r.Ok? <==> expected.Ok?) && (r.Ok? ==> config.entries == expected.value)
  {
    if p.name in config.entries {
      if config.entries[p.name].Func? {
        r := ProcessJavascriptFunction(config, p, toText);
      } else if config.entries[p.name].Snippet? {
        r := ProcessJavascriptSnippet(config, p, toText);
      } else {
        r := ProcessString(config, p, toText);
      }
    } else {
      config.entries := config.entries[p.name := p.value];
      r := Ok(());
    }
  }

  /** injectIntoMainConfiguration: the extension's parameters merged in
      list order; the first failure ends the merge with its exception. */
  method InjectIntoMainConfiguration(config: ConfigMap<string>, e: Extension, toText: Value -> string) returns (r: Result<()>)
    modifies config
    ensures var expected := MergeAll(old(config.entries), e.confs.GetOr([]), toText);
      (r.Ok? <==> expected.Ok?) && (r.Ok? ==> config.entries == expected.value)
  {
    if e.confs.None? {
      return Ok(());
    }
    var ps := e.confs.value;
    ghost var c0 := config.entries;
    var i := 0;
    while i < |ps|
      invariant 0 <= i <= |ps|
      invariant MergeAll(c0, ps[..i], toText) == Ok(config.entries)
    {
      assert ps[..i + 1][..i] == ps[..i];
      var res := MergeInto(config, ps[i], toText);
      if res.Err? {
        assert ps[..i + 1] + ps[i + 1..] == ps;
        MergeAllFailureSticks(c0, ps[..i + 1], ps[i + 1..], toText);
        return res;
      }
      i := i + 1;
    }
    assert ps[..i] == ps;
    r := Ok(());
  }

  /** One `if (section != null) mainJsFile.appendTo...(section)`. */
  method AppendIfSet(mainJsFile: Javascript.JsResource, s: Javascript.Section, text: Option<string>)
    modifies mainJsFile
    ensures mainJsFile.buffers == AppendedTo(old(mainJsFile.buffers), s, text)
    ensures unchanged(mainJsFile`name, mainJsFile`content, mainJsFile`tableId, mainJsFile`resourceType)
  {
    if text.Some? {
      mainJsFile.AppendTo(s, text.value);
    }
  }

  /** injectIntoMainJsFile: the appends, in the order of Injected. */
  method InjectIntoMainJsFile(mainJsFile: Javascript.JsResource, e: Extension)
    modifies mainJsFile
    ensures mainJsFile.buffers == Injected(old(mainJsFile.buffers), e)
    ensures unchanged(mainJsFile`name, mainJsFile`content, mainJsFile`tableId, mainJsFile`resourceType)
  {
    AppendIfSet(mainJsFile, Javascript.BeforeAll, e.Buffer(BeforeAll));
    AppendIfSet(mainJsFile, Javascript.AfterStartDocumentReady, e.Buffer(AfterStartDocumentReady));
    AppendIfSet(mainJsFile, Javascript.BeforeEndDocumentReady, e.Buffer(BeforeEndDocumentReady));
    AppendIfSet(mainJsFile, Javascript.AfterAll, e.Buffer(AfterAll));
    AppendIfSet(mainJsFile, Javascript.DataTablesExtra, e.extraFunction);
    AppendIfSet(mainJsFile, Javascript.DataTablesExtraConf, GeneratedConf(e));
  }

  // ---------------------------------------------------------------------
  // ExtensionProcessor

  /** The main file's sections and the configuration map. */
  datatype Assembly = Assembly(sections: Sections, config: map<string, Value>)

  /** process(extension): a null extension is skipped; otherwise the
      extension is injected into the main file and its parameters merged. */
  function ProcessStep(a: Assembly, e: Extension?, toText: Value -> string): Result<Assembly>
    reads e
  {
    if e == null then Ok(a)
    else
      match MergeAll(a.config, e.confs.GetOr([]), toText)
      case Err(x) => Err(x)
      case Ok(c) => Ok(Assembly(Injected(a.sections, e), c))
  }

  /** process(extensions): the extensions in iteration order. */
  function ProcessSteps(a: Assembly, es: seq<Extension?>, toText: Value -> string): Result<Assembly>
    reads es
  {
    if |es| == 0 then Ok(a)
    else
      match ProcessSteps(a, es[..|es| - 1], toText)
      case Err(x) => Err(x)
      case Ok(a') => ProcessStep(a', es[|es| - 1], toText)
  }

  /** A failure stops the processing of every longer list. */
  lemma {:induction false} ProcessFailureSticks(a: Assembly, es: seq<Extension?>, k: nat, toText: Value -> string)
    requires k <= |es| && ProcessSteps(a, es[..k], toText).Err?
    ensures ProcessSteps(a, es, toText).Err?
  {
    if k < |es| {
      assert es[..|es| - 1][..k] == es[..k];
      ProcessFailureSticks(a, es[..|es| - 1], k, toText);
    } else {
      assert es[..k] == es;
    }
  }

  /** The parameters of the non-null extensions, in processing order. */
  function AllConfs(es: seq<Extension?>): seq<Parameter>
    reads es
  {
    if |es| == 0 then []
    else AllConfs(es[..|es| - 1]) + (if es[|es| - 1] == null then [] else es[|es| - 1].confs.GetOr([]))
  }

  /** Across extensions the parameters still apply one after the other: the
      configuration after processing is the merge of all their parameters in
      order, and null extensions change nothing. */
  lemma {:induction false} ProcessedConfig(a: Assembly, es: seq<Extension?>, toText: Value -> string)
    ensures ProcessSteps(a, es, toText).Ok? <==> MergeAll(a.config, AllConfs(es), toText).Ok?
    ensures ProcessSteps(a, es, toText).Ok? ==> ProcessSteps(a, es, toText).value.config == MergeAll(a.config, AllConfs(es), toText).value
    ensures (forall i :: 0 <= i < |es| ==> es[i] == null) ==> ProcessSteps(a, es, toText) == Ok(a)
  {
    if |es| > 0 {
      var init := es[..|es| - 1];
      var e := es[|es| - 1];
      ProcessedConfig(a, init, toText);
      var tail := if e == null then [] else e.confs.GetOr([]);
      MergeAllConcat(a.config, AllConfs(init), tail, toText);
      if e == null {
        assert AllConfs(init) + [] == AllConfs(init);
      }
    }
  }

  class ExtensionProcessor {
    const mainJsFile: Javascript.JsResource
    const mainConfig: ConfigMap<string>
    const toText: Value -> string

    constructor (mainJsFile: Javascript.JsResource, mainConfig: ConfigMap<string>, toText: Value -> string)
      ensures this.mainJsFile == mainJsFile && this.mainConfig == mainConfig && this.toText == toText
    {
      this.mainJsFile, this.mainConfig, this.toText := mainJsFile, mainConfig, toText;
    }

    function State(): Assembly
      reads mainJsFile, mainConfig
    {
      Assembly(mainJsFile.buffers, mainConfig.entries)
    }

    /** process(extensions): nothing for a null or empty collection, else
        each extension in turn; an exception ends the processing. */
    method Process(extensions: Option<seq<Extension?>>) returns (r: Result<()>)
      modifies mainJsFile, mainConfig
      ensures var expected := ProcessSteps(old(State()), extensions.GetOr([]), toText);
        (r.Ok? <==> expected.Ok?) && (r.Ok? ==> State() == expected.value)
      ensures extensions.None? || extensions.value == [] ==> r.Ok? && State() == old(State())
      ensures unchanged(mainJsFile`name, mainJsFile`content, mainJsFile`tableId, mainJsFile`resourceType)
    {
      if extensions.None? || |extensions.value| == 0 {
        return Ok(());
      }
      var es := extensions.value;
      ghost var a0 := State();
      var i := 0;
      while i < |es|
        invariant 0 <= i <= |es|
        invariant ProcessSteps(a0, es[..i], toText) == Ok(State())
        invariant unchanged(mainJsFile`name, mainJsFile`content, mainJsFile`tableId, mainJsFile`resourceType)
      {
        assert es[..i + 1][..i] == es[..i];
        var res := ProcessOne(es[i]);
        if res.Err? {
          ProcessFailureSticks(a0, es, i + 1, toText);
          return res;
        }
        i := i + 1;
      }
      assert es[..i] == es;
      r := Ok(());
    }

    /** process(extension), after the extension's own setup. */
    method ProcessOne(e: Extension?) returns (r: Result<()>)
      modifies mainJsFile, mainConfig
      ensures var expected := ProcessStep(old(State()), e, toText);
        (r.Ok? <==> expected.Ok?) && (r.Ok? ==> State() == expected.value)
      ensures unchanged(mainJsFile`name, mainJsFile`content, mainJsFile`tableId, mainJsFile`resourceType)
    {
      if e == null {
        return Ok(());
      }
      InjectIntoMainJsFile(mainJsFile, e);
      r := InjectIntoMainConfiguration(mainConfig, e, toText);
    }
  }

  // ---------------------------------------------------------------------
  // ExtensionLoader

  /** The JsResource of type EXTENSION the loader builds from an extension's
      scripts: its name and the merged text. */
  datatype Script = Script(name: string, content: string)

  /** asset/WebResources: the scripts and stylesheets to serve, by name. */
  class WebResources {
    var javascripts: map<string, Script>
    var stylesheets: map<string, CssResource>

    constructor ()
      ensures javascripts == map[] && stylesheets == map[]
    {
      javascripts, stylesheets := map[], map[];
    }
  }

  /** What the loader depends on but does not compute: the table's random
      id, the stylesheet name prefix of the plugin resources and the text
      of a classpath resource. */
  datatype Environment = Environment(randomId: string, cssPrefix: string, fileContent: Option<string> -> string, toText: Value -> string)

  /** The name of an extension's merged script. */
  function ScriptName(name: string, appendRandom: bool, randomId: string): string {
    if appendRandom then JavaString.ToLower(name) + "-" + randomId + ".js" else JavaString.ToLower(name) + ".js"
  }

  /** The name of an extension's merged stylesheet. */
  function SheetName(prefix: string, name: string, appendRandom: bool, randomId: string): string {
    if appendRandom then prefix + JavaString.ToLower(name) + "-" + randomId + ".css"
    else prefix + JavaString.ToLower(name) + ".css"
  }

  /** The script is named after the lower-cased extension name, with the
      random id after a dash when asked for, and ends in `.js`; the sheet
      name is the same shape after the prefix, ending in `.css`. */
  lemma ResourceNames(prefix: string, name: string, appendRandom: bool, randomId: string)
    ensures var lower := JavaString.ToLower(name);
      ScriptName(name, appendRandom, randomId) == lower + (if appendRandom then "-" + randomId else "") + ".js"
    ensures var lower := JavaString.ToLower(name);
      SheetName(prefix, name, appendRandom, randomId) == prefix + lower + (if appendRandom then "-" + randomId else "") + ".css"
    ensures JavaString.StartsWith(ScriptName(name, appendRandom, randomId), JavaString.ToLower(name))
    ensures JavaString.EndsWith(ScriptName(name, appendRandom, randomId), ".js")
    ensures JavaString.EndsWith(SheetName(prefix, name, appendRandom, randomId), ".css")
    ensures |ScriptName(name, false, randomId)| == |name| + 3
  {
    var lower := JavaString.ToLower(name);
    var mid := if appendRandom then "-" + randomId else "";
    JavaString.AppendAssoc(lower, mid, ".js");
    JavaString.PrefixOf(lower, mid + ".js");
    JavaString.SuffixOf(lower + mid, ".js");
    JavaString.AppendAssoc(prefix + lower, mid, ".css");
    JavaString.SuffixOf(prefix + lower + mid, ".css");
    if appendRandom {
      JavaString.AppendAssoc(lower, "-", randomId);
      JavaString.AppendAssoc(prefix + lower, "-", randomId);
    }
  }

  /** The scripts' texts, in list order. */
  function ScriptTexts(rs: seq<Javascript.JsResource>, fileContent: Option<string> -> string): string {
    if |rs| == 0 then "" else ScriptTexts(rs[..|rs| - 1], fileContent) + fileContent(rs[|rs| - 1].location)
  }

  /** The texts of the stylesheets that are not EXTERNAL, in list order. */
  function SheetTexts(cs: seq<CssResource>, fileContent: Option<string> -> string): string {
    if |cs| == 0 then ""
    else
      var last := cs[|cs| - 1];
      SheetTexts(cs[..|cs| - 1], fileContent) + (if last.kind == Javascript.EXTERNAL then "" else fileContent(last.location))
  }

  /** The stylesheets that are not EXTERNAL. */
  function Internal(cs: seq<CssResource>): (r: seq<CssResource>)
    ensures forall i :: 0 <= i < |r| ==> r[i].kind != Javascript.EXTERNAL
    ensures forall c :: c in r <==> c in cs && c.kind != Javascript.EXTERNAL
  {
    if |cs| == 0 then []
    else
      var last := cs[|cs| - 1];
      Internal(cs[..|cs| - 1]) + (if last.kind == Javascript.EXTERNAL then [] else [last])
  }

  /** The text of every stylesheet of a list, in order. */
  function AllSheetTexts(cs: seq<CssResource>, fileContent: Option<string> -> string): string {
    if |cs| == 0 then "" else AllSheetTexts(cs[..|cs| - 1], fileContent) + fileContent(cs[|cs| - 1].location)
  }

  /** The merged stylesheet holds exactly the texts of the non-EXTERNAL
      sheets, in order. */
  lemma {:induction false} SheetTextsSkipExternal(cs: seq<CssResource>, fileContent: Option<string> -> string)
    ensures SheetTexts(cs, fileContent) == AllSheetTexts(Internal(cs), fileContent)
  {
    if |cs| > 0 {
      var init := cs[..|cs| - 1];
      var last := cs[|cs| - 1];
      SheetTextsSkipExternal(init, fileContent);
      if last.kind == Javascript.EXTERNAL {
        assert Internal(cs) == Internal(init) + [];
        assert Internal(cs) == Internal(init);
      } else {
        assert Internal(cs)[..|Internal(cs)| - 1] == Internal(init);
      }
    }
  }

  /** loadJsResources: nothing without scripts; else one script named after
      the extension holding the texts of all its scripts. Unboxing a null
      appendRandomNumber or lower-casing a null name fails. */
  function LoadedScripts(scripts: map<string, Script>, e: Extension, env: Environment): Result<map<string, Script>>
    reads e
  {
    if e.jsResources.None? || |e.jsResources.value| == 0 then Ok(scripts)
    else if e.appendRandomNumber.None? then Err(NullPointer("appendRandomNumber"))
    else if e.name.None? then Err(NullPointer("name"))
    else
      var name := ScriptName(e.name.value, e.appendRandomNumber.value, env.randomId);
      Ok(scripts[name := Script(name, ScriptTexts(e.jsResources.value, env.fileContent))])
  }

  /** loadCssResources: nothing without stylesheets; else one sheet of type
      EXTENSION holding the texts of the non-EXTERNAL ones. */
  function LoadedSheets(sheets: map<string, CssResource>, e: Extension, env: Environment): Result<map<string, CssResource>>
    reads e
  {
    if e.cssResources.None? || |e.cssResources.value| == 0 then Ok(sheets)
    else if e.appendRandomNumber.None? then Err(NullPointer("appendRandomNumber"))
    else if e.name.None? then Err(NullPointer("name"))
    else
      var name := SheetName(env.cssPrefix, e.name.value, e.appendRandomNumber.value, env.randomId);
      Ok(sheets[name := CssResource(name, None, Javascript.EXTENSION, Some(SheetTexts(e.cssResources.value, env.fileContent)))])
  }

  /** loadExternalCssResources: each EXTERNAL sheet put under its own name,
      in list order. */
  function Registered(sheets: map<string, CssResource>, cs: seq<CssResource>): map<string, CssResource> {
    if |cs| == 0 then sheets
    else
      var last := cs[|cs| - 1];
      var before := Registered(sheets, cs[..|cs| - 1]);
      if last.kind == Javascript.EXTERNAL then before[last.name := last] else before
  }

  /** No EXTERNAL sheet after position i carries the name `n`. */
  predicate NotRenamedAfter(cs: seq<CssResource>, i: int, n: string) {
    forall j :: 0 <= j < |cs| && i < j && cs[j].kind == Javascript.EXTERNAL ==> cs[j].name != n
  }

  /** An EXTERNAL sheet is registered unchanged unless a later EXTERNAL sheet
      has the same name; names of no EXTERNAL sheet keep their entry. */
  lemma {:induction false} RegisteredExternal(sheets: map<string, CssResource>, cs: seq<CssResource>)
    ensures forall i :: 0 <= i < |cs| && cs[i].kind == Javascript.EXTERNAL && NotRenamedAfter(cs, i, cs[i].name) ==>
              cs[i].name in Registered(sheets, cs) && Registered(sheets, cs)[cs[i].name] == cs[i]
    ensures forall n :: NotRenamedAfter(cs, -1, n) ==>
              (n in Registered(sheets, cs) <==> n in sheets) && (n in sheets ==> Registered(sheets, cs)[n] == sheets[n])
  {
    if |cs| > 0 {
      var init := cs[..|cs| - 1];
      RegisteredExternal(sheets, init);
      forall i | 0 <= i < |cs| - 1
        ensures init[i] == cs[i]
      {
      }
    }
  }

  /** All the web resources and the main file and configuration. */
  datatype Loaded = Loaded(assembly: Assembly, scripts: map<string, Script>, sheets: map<string, CssResource>)

  /** The body of load for one extension, after its setup: scripts,
      stylesheets, external stylesheets, the main file, the configuration. */
  function LoadStep(st: Loaded, e: Extension, env: Environment): Result<Loaded>
    reads e
  {
    match LoadedScripts(st.scripts, e, env)
    case Err(x) => Err(x)
    case Ok(scripts) =>
      match LoadedSheets(st.sheets, e, env)
      case Err(x) => Err(x)
      case Ok(sheets) =>
        match MergeAll(st.assembly.config, e.confs.GetOr([]), env.toText)
        case Err(x) => Err(x)
        case Ok(config) =>
          Ok(Loaded(Assembly(Injected(st.assembly.sections, e), config), scripts,
                    Registered(sheets, e.cssResources.GetOr([]))))
  }

  /** load: the extensions in iteration order. */
  function LoadSteps(st: Loaded, es: seq<Extension>, env: Environment): Result<Loaded>
    reads es
  {
    if |es| == 0 then Ok(st)
    else
      match LoadSteps(st, es[..|es| - 1], env)
      case Err(x) => Err(x)
      case Ok(st') => LoadStep(st', es[|es| - 1], env)
  }

  lemma LoadStepsExtend(st: Loaded, es: seq<Extension>, i: nat, env: Environment)
    requires i < |es| && LoadSteps(st, es[..i], env).Ok?
    ensures LoadSteps(st, es[..i + 1], env) == LoadStep(LoadSteps(st, es[..i], env).value, es[i], env)
  {
    assert es[..i + 1][..i] == es[..i];
  }

  lemma {:induction false} LoadFailureSticks(st: Loaded, es: seq<Extension>, k: nat, env: Environment)
    requires k <= |es| && LoadSteps(st, es[..k], env).Err?
    ensures LoadSteps(st, es, env).Err?
  {
    if k < |es| {
      assert es[..|es| - 1][..k] == es[..k];
      LoadFailureSticks(st, es[..|es| - 1], k, env);
    } else {
      assert es[..k] == es;
    }
  }

  /** The loader merges parameters exactly as the processor: for
      extensions without resources, loading and processing agree on the
      main file and the configuration. */
  lemma {:induction false} LoadAgreesWithProcess(st: Loaded, es: seq<Extension>, env: Environment)
    requires forall i :: 0 <= i < |es| ==> es[i].jsResources.GetOr([]) == [] && es[i].cssResources.GetOr([]) == []
    ensures LoadSteps(st, es, env).Ok? <==> ProcessSteps(st.assembly, es, env.toText).Ok?
    ensures LoadSteps(st, es, env).Ok? ==> LoadSteps(st, es, env).value.assembly == ProcessSteps(st.assembly, es, env.toText).value
    ensures LoadSteps(st, es, env).Ok? ==> LoadSteps(st, es, env).value.scripts == st.scripts
    ensures LoadSteps(st, es, env).Ok? ==> LoadSteps(st, es, env).value.sheets == st.sheets
  {
    if |es| > 0 {
      var init := es[..|es| - 1];
      LoadAgreesWithProcess(st, init, env);
      var es' : seq<Extension?> := es;
      assert es'[..|es'| - 1] == init;
    }
  }

  class ExtensionLoader {
    const mainJsFile: Javascript.JsResource
    const mainConfig: ConfigMap<string>
    const webResources: WebResources
    const env: Environment

    constructor (mainJsFile: Javascript.JsResource, mainConfig: ConfigMap<string>, webResources: WebResources, env: Environment)
      ensures this.mainJsFile == mainJsFile && this.mainConfig == mainConfig
      ensures this.webResources == webResources && this.env == env
    {
      this.mainJsFile, this.mainConfig, this.webResources, this.env := mainJsFile, mainConfig, webResources, env;
    }

    function State(): Loaded
      reads mainJsFile, mainConfig, webResources
    {
      Loaded(Assembly(mainJsFile.buffers, mainConfig.entries), webResources.javascripts, webResources.stylesheets)
    }

    /** load: nothing for a null or empty set, else every extension in
        turn; an exception ends the loading. */
    method Load(extensions: Option<seq<Extension>>) returns (r: Result<()>)
      modifies mainJsFile, mainConfig, webResources
      ensures var expected := LoadSteps(old(State()), extensions.GetOr([]), env);
        (r.Ok? <==> expected.Ok?) && (r.Ok? ==> State() == expected.value)
      ensures extensions.None? || extensions.value == [] ==> r.Ok? && State() == old(State())
      ensures unchanged(mainJsFile`name, mainJsFile`content, mainJsFile`tableId, mainJsFile`resourceType)
    {
      if extensions.None? || |extensions.value| == 0 {
        return Ok(());
      }
      var es := extensions.value;
      ghost var st0 := State();
      var i := 0;
      while i < |es|
        invariant 0 <= i <= |es|
        invariant LoadSteps(st0, es[..i], env) == Ok(State())
        invariant unchanged(mainJsFile`name, mainJsFile`content, mainJsFile`tableId, mainJsFile`resourceType)
      {
        var res := LoadNext(st0, es, i);
        if res.Err? {
          return res;
        }
        i := i + 1;
      }
      assert es[..i] == es;
      r := Ok(());
    }

    /** One turn of the loop of load: the extension at `i` loaded after
        those before it. */
    method LoadNext(ghost st0: Loaded, es: seq<Extension>, i: nat) returns (r: Result<()>)
      requires i < |es| && LoadSteps(st0, es[..i], env) == Ok(State())
      modifies mainJsFile, mainConfig, webResources
      ensures r.Ok? ==> LoadSteps(st0, es[..i + 1], env) == Ok(State())
      ensures r.Err? ==> LoadSteps(st0, es, env).Err?
      ensures unchanged(mainJsFile`name, mainJsFile`content, mainJsFile`tableId, mainJsFile`resourceType)
    {
      LoadStepsExtend(st0, es, i, env);
      r := LoadOne(es[i]);
      LoadStepsExtend(st0, es, i, env);
      if r.Err? {
        LoadFailureSticks(st0, es, i + 1, env);
      }
    }

    /** The body of the loop of load, after the extension's setup. */
    method LoadOne(e: Extension) returns (r: Result<()>)
      modifies mainJsFile, mainConfig, webResources
      ensures var expected := LoadStep(old(State()), e, env);
        (r.Ok? <==> expected.Ok?) && (r.Ok? ==> State() == expected.value)
      ensures unchanged(mainJsFile`name, mainJsFile`content, mainJsFile`tableId, mainJsFile`resourceType)
    {
      r := LoadJsResources(e);
      if r.Err? {
        return;
      }
      r := LoadCssResources(e);
      if r.Err? {
        return;
      }
      LoadExternalCssResources(e);
      InjectIntoMainJsFile(mainJsFile, e);
      r := InjectIntoMainConfiguration(mainConfig, e, env.toText);
    }

    /** loadJsResources. */
    method LoadJsResources(e: Extension) returns (r: Result<()>)
      modifies webResources
      ensures var expected := LoadedScripts(old(webResources.javascripts), e, env);
        (r.Ok? <==> expected.Ok?) && (r.Ok? ==> webResources.javascripts == expected.value)
      ensures unchanged(webResources`stylesheets)
    {
      if e.jsResources.Some? && |e.jsResources.value| > 0 {
        if e.appendRandomNumber.None? {
          return Err(NullPointer("appendRandomNumber"));
        }
        if e.name.None? {
          return Err(NullPointer("name"));
        }
        var resourceName := if e.appendRandomNumber.value
          then JavaString.ToLower(e.name.value) + "-" + env.randomId + ".js"
          else JavaString.ToLower(e.name.value) + ".js";
        var rs := e.jsResources.value;
        var jsContent := "";
        var i := 0;
        while i < |rs|
          invariant 0 <= i <= |rs|
          invariant jsContent == ScriptTexts(rs[..i], env.fileContent)
        {
          assert rs[..i + 1][..i] == rs[..i];
          jsContent := jsContent + env.fileContent(rs[i].location);
          i := i + 1;
        }
        assert rs[..i] == rs;
        webResources.javascripts := webResources.javascripts[resourceName := Script(resourceName, jsContent)];
      }
      r := Ok(());
    }

    /** loadCssResources. */
    method LoadCssResources(e: Extension) returns (r: Result<()>)
      modifies webResources
      ensures var expected := LoadedSheets(old(webResources.stylesheets), e, env);
        (r.Ok? <==> expected.Ok?) && (r.Ok? ==> webResources.stylesheets == expected.value)
      ensures unchanged(webResources`javascripts)
    {
      if e.cssResources.Some? && |e.cssResources.value| > 0 {
        if e.appendRandomNumber.None? {
          return Err(NullPointer("appendRandomNumber"));
        }
        if e.name.None? {
          return Err(NullPointer("name"));
        }
        var resourceName := if e.appendRandomNumber.value
          then env.cssPrefix + JavaString.ToLower(e.name.value) + "-" + env.randomId + ".css"
          else env.cssPrefix + JavaString.ToLower(e.name.value) + ".css";
        var cs := e.cssResources.value;
        var cssContent := "";
        var i := 0;
        while i < |cs|
          invariant 0 <= i <= |cs|
          invariant cssContent == SheetTexts(cs[..i], env.fileContent)
        {
          assert cs[..i + 1][..i] == cs[..i];
          if cs[i].kind != Javascript.EXTERNAL {
            cssContent := cssContent + env.fileContent(cs[i].location);
          }
          i := i + 1;
        }
        assert cs[..i] == cs;
        webResources.stylesheets := webResources.stylesheets[resourceName := CssResource(resourceName, None, Javascript.EXTENSION, Some(cssContent))];
      }
      r := Ok(());
    }

    /** loadExternalCssResources. */
    method LoadExternalCssResources(e: Extension)
      modifies webResources
      ensures webResources.stylesheets == Registered(old(webResources.stylesheets), e.cssResources.GetOr([]))
      ensures unchanged(webResources`javascripts)
    {
      if e.cssResources.Some? {
        var cs := e.cssResources.value;
        ghost var s0 := webResources.stylesheets;
        var i := 0;
        while i < |cs|
          invariant 0 <= i <= |cs|
          invariant webResources.stylesheets == Registered(s0, cs[..i])
          invariant unchanged(webResources`javascripts)
        {
          assert cs[..i + 1][..i] == cs[..i];
          if cs[i].kind == Javascript.EXTERNAL {
            webResources.stylesheets := webResources.stylesheets[cs[i].name := cs[i]];
          }
          i := i + 1;
        }
        assert cs[..i] == cs;
      }
    }
  }
}
