/** extension/AbstractExtension and the merge of extension parameters into
    the DataTables configuration shared by ExtensionProcessor and
    ExtensionLoader. */
module Extensions {
  import opened Wrappers
  import opened ConfigValues
  import Javascript

  /** Parameter.Mode: how a parameter meets a value already configured. */
  datatype Mode = OVERRIDE | APPEND | PREPEND | APPEND_WITH_SPACE | PREPEND_WITH_SPACE

  /** asset/Parameter: a class without equals or hashCode, so two
      parameters are equal only when they are the same object. */
  class Parameter {
    const name: string
    const value: Value
    const mode: Mode

    /** Parameter(name, value, mode). */
    constructor (name: string, value: Value, mode: Mode)
      ensures this.name == name && this.value == value && this.mode == mode
    {
      this.name, this.value, this.mode := name, value, mode;
    }

    /** Parameter(name, value): a parameter that overrides. */
    constructor Overriding(name: string, value: Value)
      ensures this.name == name && this.value == value && mode == OVERRIDE
    {
      this.name, this.value, mode := name, value, OVERRIDE;
    }
  }

  /** A stylesheet an extension declares: its name, where its text is found
      and its type; only EXTERNAL sheets are served as they are. */
  datatype CssResource = CssResource(name: string, location: Option<string>, kind: Javascript.ResourceType, content: Option<string>)

  /** A custom configuration generator. It is compared by identity; the JSON
      text of the configuration it generates is `json`. */
  class ConfigGenerator {
    const json: string

    constructor (json: string)
      ensures this.json == json
    {
      this.json := json;
    }
  }

  /** The five StringBuilder fields of an extension. */
  datatype ExtSection = BeforeAll | BeforeStartDocumentReady | AfterStartDocumentReady | BeforeEndDocumentReady | AfterAll

  /** AbstractExtension. `kind` is the concrete class (getClass()); a section
      absent from `buffers` is a null builder; the lists are null until the
      first add. */
  class Extension {
    const kind: string
    var name: Option<string>
    var buffers: map<ExtSection, string>
    var jsResources: Option<seq<Javascript.JsResource>>
    var cssResources: Option<seq<CssResource>>
    var confs: Option<seq<Parameter>>
    var configGenerator: Option<ConfigGenerator>
    var appendRandomNumber: Option<bool>
    var extraFunction: Option<string>

    /** AbstractExtension(): the name is what the subclass's getName()
        returns; everything else is null except appendRandomNumber. */
    constructor (kind: string, name: Option<string>)
      ensures this.kind == kind && this.name == name && buffers == map[]
      ensures jsResources.None? && cssResources.None? && confs.None? && configGenerator.None?
      ensures appendRandomNumber == Some(false) && extraFunction.None?
    {
      this.kind, this.name := kind, name;
      buffers := map[];
      jsResources, cssResources, confs, configGenerator := None, None, None, None;
      appendRandomNumber, extraFunction := Some(false), None;
    }

    function Buffer(s: ExtSection): Option<string>
      reads this
    {
      Javascript.Get(buffers, s)
    }

    /** appendToBeforeAll and the other appendTo* methods: the builder is
        created on first use, then the text is appended; nothing else
        changes. */
    method AppendTo(s: ExtSection, text: string)
      modifies this
      ensures Buffer(s) == Javascript.Extended(old(Buffer(s)), text)
      ensures buffers == old(buffers)[s := Javascript.Extended(old(Buffer(s)), text).value]
      ensures unchanged(this`name, this`jsResources, this`cssResources, this`confs)
      ensures unchanged(this`configGenerator, this`appendRandomNumber, this`extraFunction)
    {
      if s !in buffers {
        buffers := buffers[s := ""];
      }
      buffers := buffers[s := buffers[s] + text];
    }

    /** addJsResource: the list is created on first use; the resource goes at
        the end. */
    method AddJsResource(r: Javascript.JsResource)
      modifies this
      ensures jsResources == Some(old(jsResources).GetOr([]) + [r])
      ensures unchanged(this`name, this`buffers, this`cssResources, this`confs)
      ensures unchanged(this`configGenerator, this`appendRandomNumber, this`extraFunction)
    {
      if jsResources.None? {
        jsResources := Some([]);
      }
      jsResources := Some(jsResources.value + [r]);
    }

    /** addCssResource. */
    method AddCssResource(c: CssResource)
      modifies this
      ensures cssResources == Some(old(cssResources).GetOr([]) + [c])
      ensures unchanged(this`name, this`buffers, this`jsResources, this`confs)
      ensures unchanged(this`configGenerator, this`appendRandomNumber, this`extraFunction)
    {
      if cssResources.None? {
        cssResources := Some([]);
      }
      cssResources := Some(cssResources.value + [c]);
    }

    /** addParameter. */
    method AddParameter(p: Parameter)
      modifies this
      ensures confs == Some(old(confs).GetOr([]) + [p])
      ensures unchanged(this`name, this`buffers, this`jsResources, this`cssResources)
      ensures unchanged(this`configGenerator, this`appendRandomNumber, this`extraFunction)
    {
      if confs.None? {
        confs := Some([]);
      }
      confs := Some(confs.value + [p]);
    }
  }

  /** The asset scopes the current request asks for (the request's asset
      context, which addScope adds to). */
  class AssetScopes {
    var names: set<string>

    constructor (names: set<string>)
      ensures this.names == names
    {
      this.names := names;
    }

    /** addScope: the scope is asked for, whatever was asked before. */
    method AddScope(name: string)
      modifies this
      ensures names == old(names) + {name}
    {
      names := names + {name};
    }
  }

  /** Appending to a section of a fresh extension text by text leaves the
      section null until the first append and then holds the texts in order;
      no other section is created. */
  method AppendAll(e: Extension, s: ExtSection, texts: seq<string>)
    modifies e
    ensures e.Buffer(s) == Javascript.ExtendedAll(old(e.Buffer(s)), texts)
    ensures forall other :: other != s ==> e.Buffer(other) == old(e.Buffer(other))
    ensures old(e.buffers) == map[] ==> e.Buffer(s) == (if |texts| == 0 then None else Some(Javascript.Concat(texts)))
    ensures unchanged(e`name, e`jsResources, e`cssResources, e`confs)
    ensures unchanged(e`configGenerator, e`appendRandomNumber, e`extraFunction)
  {
    var i := 0;
    while i < |texts|
      invariant 0 <= i <= |texts|
      invariant e.Buffer(s) == Javascript.ExtendedAll(old(e.Buffer(s)), texts[..i])
      invariant forall other :: other != s ==> e.Buffer(other) == old(e.Buffer(other))
      invariant unchanged(e`name, e`jsResources, e`cssResources, e`confs)
      invariant unchanged(e`configGenerator, e`appendRandomNumber, e`extraFunction)
    {
      assert texts[..i + 1][..i] == texts[..i];
      e.AppendTo(s, texts[i]);
      i := i + 1;
    }
    assert texts[..i] == texts;
    if old(e.buffers) == map[] {
      Javascript.LazyBufferConcat(texts);
    }
  }

  // ---------------------------------------------------------------------
  // equals and hashCode

  /** One of the twelve fields equals compares and hashCode hashes. A
      StringBuilder does not override equals, so a builder is identified by
      the extension that owns it; `owner` is None for a null builder. */
  datatype Component =
    | Builder(owner: Option<Extension>, section: ExtSection)
    | Flag(flag: Option<bool>)
    | Generator(generator: Option<ConfigGenerator>)
    | Params(params: Option<seq<Parameter>>)
    | Styles(styles: Option<seq<CssResource>>)
    | Scripts(scripts: Option<seq<Javascript.JsResource>>)
    | Text(text: Option<string>)

  function BuilderOf(e: Extension, s: ExtSection): Component
    reads e
  {
    Builder(if s in e.buffers then Some(e) else None, s)
  }

  /** The fields, in the order hashCode combines them. */
  function Components(e: Extension): (cs: seq<Component>)
    reads e
    ensures |cs| == 12
  {
    [ BuilderOf(e, AfterAll), BuilderOf(e, AfterStartDocumentReady), Flag(e.appendRandomNumber),
      BuilderOf(e, BeforeAll), BuilderOf(e, BeforeEndDocumentReady), BuilderOf(e, BeforeStartDocumentReady),
      Generator(e.configGenerator), Params(e.confs), Styles(e.cssResources), Text(e.extraFunction),
      Scripts(e.jsResources), Text(e.name) ]
  }

  predicate IsNull(c: Component) {
    match c
    case Builder(owner, _) => owner.None?
    case Flag(x) => x.None?
    case Generator(x) => x.None?
    case Params(x) => x.None?
    case Styles(x) => x.None?
    case Scripts(x) => x.None?
    case Text(x) => x.None?
  }

  /** `result = 31 * result + hash(field)` from 1, a null field hashing to 0;
      `hash` is the hashCode of a non-null field. */
  function CombinedHash(cs: seq<Component>, hash: Component -> int): int {
    if |cs| == 0 then 1
    else
      var last := cs[|cs| - 1];
      JavaString.Int32(31 * CombinedHash(cs[..|cs| - 1], hash) + (if IsNull(last) then 0 else hash(last)))
  }

  /** hashCode. */
  function HashCode(e: Extension, hash: Component -> int): (h: int)
    reads e
    ensures -0x8000_0000 <= h < 0x8000_0000
  {
    CombinedHash(Components(e), hash)
  }

  /** equals: the same object, or an object of the same class whose twelve
      fields are pairwise equal. Two distinct extensions never share a
      builder, so their builders are equal only when both are null. */
  predicate Equals(a: Extension, b: Extension?)
    reads a, b
  {
    if b == null then false
    else if a == b then true
    else if a.kind != b.kind then false
    else
      (AfterAll !in a.buffers && AfterAll !in b.buffers)
      && (AfterStartDocumentReady !in a.buffers && AfterStartDocumentReady !in b.buffers)
      && a.appendRandomNumber == b.appendRandomNumber
      && (BeforeAll !in a.buffers && BeforeAll !in b.buffers)
      && (BeforeEndDocumentReady !in a.buffers && BeforeEndDocumentReady !in b.buffers)
      && (BeforeStartDocumentReady !in a.buffers && BeforeStartDocumentReady !in b.buffers)
      && a.configGenerator == b.configGenerator
      && a.confs == b.confs
      && a.cssResources == b.cssResources
      && a.extraFunction == b.extraFunction
      && a.jsResources == b.jsResources
      && a.name == b.name
  }

  lemma EverySection(s: ExtSection)
    ensures s in {AfterAll, AfterStartDocumentReady, BeforeAll, BeforeEndDocumentReady, BeforeStartDocumentReady}
  {
  }

  /** equals holds exactly when the objects are the same, or of the same
      class with the same hashed fields; two distinct extensions holding any
      section text are never equal. */
  lemma EqualsComparesHashedFields(a: Extension, b: Extension)
    ensures Equals(a, b) <==> a == b || (a.kind == b.kind && Components(a) == Components(b))
    ensures a != b && a.buffers != map[] ==> !Equals(a, b)
    ensures Equals(a, b) <==> Equals(b, a)
  {
    if a != b && a.kind == b.kind {
      var ca, cb := Components(a), Components(b);
      if ca == cb {
        forall s
          ensures s !in a.buffers && s !in b.buffers
        {
          EverySection(s);
          if s == AfterAll { assert ca[0] == cb[0]; }
          else if s == AfterStartDocumentReady { assert ca[1] == cb[1]; }
          else if s == BeforeAll { assert ca[3] == cb[3]; }
          else if s == BeforeEndDocumentReady { assert ca[4] == cb[4]; }
          else { assert ca[5] == cb[5]; }
        }
        assert ca[2] == cb[2] && ca[6] == cb[6] && ca[7] == cb[7] && ca[8] == cb[8];
        assert ca[9] == cb[9] && ca[10] == cb[10] && ca[11] == cb[11];
      }
    }
    if a != b && a.buffers != map[] {
      var s :| s in a.buffers;
      EverySection(s);
    }
  }

  /** Two extensions of one class, each given its own parameter with the
      same name, value and mode, are not equal: List.equals compares the
      parameters with Object.equals. */
  method SameValuedParametersDiffer() returns (equal: bool)
    ensures !equal
  {
    var a := new Extension("Feature", Some("x"));
    var b := new Extension("Feature", Some("x"));
    var p := new Parameter("sDom", Str("S"), APPEND);
    var q := new Parameter("sDom", Str("S"), APPEND);
    a.AddParameter(p);
    b.AddParameter(q);
    assert a.confs.value[0] != b.confs.value[0];
    equal := Equals(a, b);
  }

  /** Equal extensions have equal hash codes, whatever the hashes of the
      individual fields. */
  lemma EqualsHashEqually(a: Extension, b: Extension, hash: Component -> int)
    requires Equals(a, b)
    ensures HashCode(a, hash) == HashCode(b, hash)
  {
    EqualsComparesHashedFields(a, b);
  }

  // ---------------------------------------------------------------------
  // Merging parameters into the configuration

  /** How a mode joins two texts: APPEND puts `second` after `first`, PREPEND
      before it, and the WITH_SPACE variants put one space between them.
      Strings are joined as (existing, new), JavaScript functions and
      snippets as (new, existing). */
  function Joined(mode: Mode, first: string, second: string): (r: string)
    requires mode != OVERRIDE
    ensures |r| == |first| + |second| + (if mode == APPEND_WITH_SPACE || mode == PREPEND_WITH_SPACE then 1 else 0)
  {
    match mode
    case APPEND => first + second
    case PREPEND => second + first
    case APPEND_WITH_SPACE => first + " " + second
    case PREPEND_WITH_SPACE => second + " " + first
  }

  /** APPEND and PREPEND are mirror images, and each puts the one text
      before or after the other. */
  lemma JoinedModes(first: string, second: string)
    ensures Joined(APPEND, first, second) == Joined(PREPEND, second, first)
    ensures Joined(APPEND_WITH_SPACE, first, second) == Joined(PREPEND_WITH_SPACE, second, first)
    ensures Joined(APPEND, first, second)[..|first|] == first
    ensures Joined(APPEND, first, second)[|first|..] == second
    ensures Joined(APPEND_WITH_SPACE, first, second)[..|first|] == first
    ensures Joined(APPEND_WITH_SPACE, first, second)[|first|] == ' '
    ensures Joined(APPEND_WITH_SPACE, first, second)[|first| + 1..] == second
  {
    assert Joined(APPEND_WITH_SPACE, first, second) == first + (" " + second);
  }

  /** Whether a parameter in a joining mode can be merged into the existing
      value: a function needs a function, a snippet a snippet, and anything
      else must be a string (or null) to be cast to String. */
  predicate Mergeable(existing: Value, incoming: Value) {
    if existing.Func? then incoming.Func?
    else if existing.Snippet? then incoming.Snippet?
    else existing.Str? || existing.Null?
  }

  /** The exception a failing merge raises: a null new function or snippet
      is dereferenced, any other mismatch fails a cast. */
  function MergeFailure(name: string, existing: Value, incoming: Value): Exception {
    if (existing.Func? || existing.Snippet?) && incoming.Null? then NullPointer(name) else ClassCast(name)
  }

  /** injectIntoMainConfiguration for one parameter, with processString,
      processJavascriptFunction and processJavascriptSnippet. */
  function MergeParameter(config: map<string, Value>, p: Parameter, toText: Value -> string): (r: Result<map<string, Value>>)
    ensures p.name !in config || p.mode == OVERRIDE ==> r == Ok(config[p.name := p.value])
    ensures r.Err? <==> p.name in config && p.mode != OVERRIDE && !Mergeable(config[p.name], p.value)
    ensures r.Ok? ==> r.value.Keys == config.Keys + {p.name}
    ensures r.Ok? ==> forall k :: k in config && k != p.name ==> r.value[k] == config[k]
  {
    if p.name !in config || p.mode == OVERRIDE then Ok(config[p.name := p.value])
    else
      var existing := config[p.name];
      if !Mergeable(existing, p.value) then Err(MergeFailure(p.name, existing, p.value))
      else if existing.Func? then Ok(config[p.name := Func(Joined(p.mode, p.value.code, existing.code))])
      else if existing.Snippet? then Ok(config[p.name := Snippet(Joined(p.mode, p.value.js, existing.js))])
      else Ok(config[p.name := Str(Joined(p.mode, Stringify(existing, toText), Stringify(p.value, toText)))])
  }

  /** The joining modes on a key already present: a string (or null) becomes
      the string with the new value's text on the side the mode names, a
      function or snippet keeps its kind with the new code on the opposite
      side; a null new function or snippet is dereferenced. */
  lemma MergeJoins(config: map<string, Value>, p: Parameter, toText: Value -> string)
    requires p.name in config && p.mode != OVERRIDE
    ensures var existing := config[p.name];
      existing.Str? ==>
        MergeParameter(config, p, toText) == Ok(config[p.name := Str(Joined(p.mode, existing.s, Stringify(p.value, toText)))])
    ensures var existing := config[p.name];
      existing.Null? ==>
        MergeParameter(config, p, toText) == Ok(config[p.name := Str(Joined(p.mode, "null", Stringify(p.value, toText)))])
    ensures var existing := config[p.name];
      existing.Func? && p.value.Func? ==>
        MergeParameter(config, p, toText) == Ok(config[p.name := Func(Joined(p.mode, p.value.code, existing.code))])
    ensures var existing := config[p.name];
      existing.Snippet? && p.value.Snippet? ==>
        MergeParameter(config, p, toText) == Ok(config[p.name := Snippet(Joined(p.mode, p.value.js, existing.js))])
    ensures var existing := config[p.name];
      (existing.Func? || existing.Snippet?) && p.value.Null? ==>
        MergeParameter(config, p, toText) == Err(NullPointer(p.name))
  {
  }

  /** injectIntoMainConfiguration: the parameters in list order, each seeing
      the result of the ones before it; the first failing one stops the
      merge. */
  function MergeAll(config: map<string, Value>, ps: seq<Parameter>, toText: Value -> string): Result<map<string, Value>> {
    if |ps| == 0 then Ok(config)
    else
      match MergeAll(config, ps[..|ps| - 1], toText)
      case Err(e) => Err(e)
      case Ok(c) => MergeParameter(c, ps[|ps| - 1], toText)
  }

  function Names(ps: seq<Parameter>): set<string> {
    set i | 0 <= i < |ps| :: ps[i].name
  }

  /** A merge that succeeds adds exactly the parameters' names and leaves
      every key no parameter names as it was. */
  lemma {:induction false} MergeAllKeys(config: map<string, Value>, ps: seq<Parameter>, toText: Value -> string)
    requires MergeAll(config, ps, toText).Ok?
    ensures MergeAll(config, ps, toText).value.Keys == config.Keys + Names(ps)
    ensures forall k :: k in config && k !in Names(ps) ==> MergeAll(config, ps, toText).value[k] == config[k]
  {
    if |ps| > 0 {
      var init := ps[..|ps| - 1];
      MergeAllKeys(config, init, toText);
      assert Names(ps) == Names(init) + {ps[|ps| - 1].name} by {
        forall n | n in Names(ps) ensures n in Names(init) + {ps[|ps| - 1].name} {
          var i :| 0 <= i < |ps| && ps[i].name == n;
          if i < |ps| - 1 { assert init[i] == ps[i]; }
        }
      }
    }
  }

  /** Merging a list and then another is merging their concatenation. */
  lemma {:induction false} MergeAllConcat(config: map<string, Value>, ps: seq<Parameter>, qs: seq<Parameter>, toText: Value -> string)
    ensures MergeAll(config, ps + qs, toText)
            == match MergeAll(config, ps, toText)
               case Err(e) => Err(e)
               case Ok(c) => MergeAll(c, qs, toText)
  {
    if |qs| == 0 {
      assert ps + qs == ps;
    } else {
      assert (ps + qs)[..|ps + qs| - 1] == ps + qs[..|qs| - 1];
      MergeAllConcat(config, ps, qs[..|qs| - 1], toText);
    }
  }

  /** A failing parameter fails every longer list. */
  lemma MergeAllFailureSticks(config: map<string, Value>, ps: seq<Parameter>, qs: seq<Parameter>, toText: Value -> string)
    requires MergeAll(config, ps, toText).Err?
    ensures MergeAll(config, ps + qs, toText) == MergeAll(config, ps, toText)
  {
    MergeAllConcat(config, ps, qs, toText);
  }

  /** The new values of a list of parameters, joined in list order. */
  function StringTexts(ps: seq<Parameter>, toText: Value -> string): string {
    if |ps| == 0 then "" else StringTexts(ps[..|ps| - 1], toText) + Stringify(ps[|ps| - 1].value, toText)
  }

  /** The codes of a list of function parameters, the last one first. */
  function CodesLastFirst(ps: seq<Parameter>): string
    requires forall i :: 0 <= i < |ps| ==> ps[i].value.Func?
  {
    if |ps| == 0 then "" else ps[|ps| - 1].value.code + CodesLastFirst(ps[..|ps| - 1])
  }

  /** Successive APPENDs to a string extend it with each new text in list
      order. */
  lemma {:induction false} StringAppendsInOrder(config: map<string, Value>, name: string, ps: seq<Parameter>, toText: Value -> string)
    requires name in config && config[name].Str?
    requires forall i :: 0 <= i < |ps| ==> ps[i].name == name && ps[i].mode == APPEND
    ensures MergeAll(config, ps, toText) == Ok(config[name := Str(config[name].s + StringTexts(ps, toText))])
  {
    if |ps| > 0 {
      var init := ps[..|ps| - 1];
      StringAppendsInOrder(config, name, init, toText);
      var c := config[name := Str(config[name].s + StringTexts(init, toText))];
      var last := ps[|ps| - 1];
      assert MergeAll(config, ps, toText) == MergeParameter(c, last, toText);
      MergeJoins(c, last, toText);
      JavaString.AppendAssoc(config[name].s, StringTexts(init, toText), Stringify(last.value, toText));
      assert c[name := Str(c[name].s + Stringify(last.value, toText))]
          == config[name := Str(config[name].s + StringTexts(ps, toText))];
    } else {
      assert config[name].s + "" == config[name].s;
      assert config[name := Str(config[name].s + "")] == config;
    }
  }

  /** Successive APPENDs to a function put each new code in front, so the
      last appended code comes first: the opposite of strings. */
  lemma {:induction false} FunctionAppendsReversed(config: map<string, Value>, name: string, ps: seq<Parameter>, toText: Value -> string)
    requires name in config && config[name].Func?
    requires forall i :: 0 <= i < |ps| ==> ps[i].name == name && ps[i].mode == APPEND && ps[i].value.Func?
    ensures MergeAll(config, ps, toText) == Ok(config[name := Func(CodesLastFirst(ps) + config[name].code)])
  {
    if |ps| > 0 {
      var init := ps[..|ps| - 1];
      FunctionAppendsReversed(config, name, init, toText);
      var c := config[name := Func(CodesLastFirst(init) + config[name].code)];
      var last := ps[|ps| - 1];
      assert MergeAll(config, ps, toText) == MergeParameter(c, last, toText);
      MergeJoins(c, last, toText);
      JavaString.AppendAssoc(last.value.code, CodesLastFirst(init), config[name].code);
      assert c[name := Func(last.value.code + c[name].code)]
          == config[name := Func(CodesLastFirst(ps) + config[name].code)];
    } else {
      assert "" + config[name].code == config[name].code;
      assert config[name := Func("" + config[name].code)] == config;
    }
  }

  /** The last OVERRIDE of a key decides its value when no later parameter
      names that key. */
  lemma LastOverrideWins(config: map<string, Value>, ps: seq<Parameter>, p: Parameter, qs: seq<Parameter>, toText: Value -> string)
    requires p.mode == OVERRIDE && p.name !in Names(qs)
    requires MergeAll(config, ps + [p] + qs, toText).Ok?
    ensures p.name in MergeAll(config, ps + [p] + qs, toText).value
    ensures MergeAll(config, ps + [p] + qs, toText).value[p.name] == p.value
  {
    MergeAllConcat(config, ps + [p], qs, toText);
    MergeAllConcat(config, ps, [p], toText);
    assert [p][..0] == [];
    var c := MergeAll(config, ps + [p], toText).value;
    MergeAllKeys(c, qs, toText);
  }
}
