/** The JavaScript assembly: JsResource with its lazily created section
    buffers and the text of the main file, the StandardJavascriptGenerator
    that gathers several resources into one document-ready block, and the
    jQuery generator that fills the placeholders of an asset buffer. */
module Javascript {
  import opened Wrappers
  import opened JavaString
  import StringUtils

  /** JsResource.INDENTATION. */
  const Indentation: string := "   "

  /** String.valueOf / StringBuilder.append of a possibly null value. */
  function Text(x: Option<string>): string {
    StringUtils.ValueOf(x)
  }

  /** A StringBuilder that is created on first use: absent until the first
      append, then the text appended so far. */
  function Extended(buffer: Option<string>, s: string): Option<string> {
    Some(buffer.GetOr("") + s)
  }

  function Concat(ss: seq<string>): string {
    if |ss| == 0 then "" else Concat(ss[..|ss| - 1]) + ss[|ss| - 1]
  }

  /** The buffer after appending each of `ss` in turn. */
  function ExtendedAll(buffer: Option<string>, ss: seq<string>): Option<string> {
    if |ss| == 0 then buffer else Extended(ExtendedAll(buffer, ss[..|ss| - 1]), ss[|ss| - 1])
  }

  /** A lazily created buffer stays null until something is appended and then
      holds the appended strings in order. */
  lemma {:induction false} LazyBufferConcat(ss: seq<string>)
    ensures ExtendedAll(None, ss) == if |ss| == 0 then None else Some(Concat(ss))
  {
    if |ss| > 1 {
      LazyBufferConcat(ss[..|ss| - 1]);
    } else if |ss| == 1 {
      assert ss[..0] == [];
      assert Concat(ss) == "" + ss[0];
    }
  }

  /** Appending two lists of texts in turn is appending their
      concatenation. */
  lemma {:induction false} ExtendedAllConcat(buffer: Option<string>, xs: seq<string>, ys: seq<string>)
    ensures ExtendedAll(buffer, xs + ys) == ExtendedAll(ExtendedAll(buffer, xs), ys)
  {
    if |ys| == 0 {
      assert xs + ys == xs;
    } else {
      assert (xs + ys)[..|xs + ys| - 1] == xs + ys[..|ys| - 1];
      ExtendedAllConcat(buffer, xs, ys[..|ys| - 1]);
    }
  }

  /** Appending one more text. */
  lemma ExtendedAllSnoc(buffer: Option<string>, xs: seq<string>, x: string)
    ensures ExtendedAll(buffer, xs + [x]) == Extended(ExtendedAll(buffer, xs), x)
  {
    assert (xs + [x])[..|xs|] == xs;
  }

  /** The kinds of resource; only MAIN has an assembled content, and
      EXTERNAL marks a stylesheet served from elsewhere. */
  datatype ResourceType = MAIN | EXTENSION | PLUGIN | AGGREGATE | MINIMIFIED | EXTERNAL

  /** The eight StringBuilder fields of a JsResource. */
  datatype Section =
    | BeforeAll | BeforeStartDocumentReady | AfterStartDocumentReady | BeforeEndDocumentReady
    | AfterAll | DataTablesConf | DataTablesExtra | DataTablesExtraConf

  /** A buffer of a section map: null while the section was never appended to. */
  function Get<K>(buffers: map<K, string>, k: K): Option<string> {
    if k in buffers then Some(buffers[k]) else None
  }

  /** The chained call after the DataTables initialisation: nothing without
      an extra, else `.extra(conf)`, with empty parentheses when no extra
      configuration is set. */
  function ExtraCall(extra: Option<string>, extraConf: Option<string>): string {
    if extra.None? then "" else "." + extra.value + "(" + extraConf.GetOr("") + ")"
  }

  lemma ExtraCallShape(extra: Option<string>, extraConf: Option<string>)
    ensures extra.None? <==> ExtraCall(extra, extraConf) == ""
    ensures extra.Some? && extraConf.None? ==> ExtraCall(extra, extraConf) == "." + extra.value + "()"
    ensures extra.Some? ==>
              StartsWith(ExtraCall(extra, extraConf), "." + extra.value + "(") && EndsWith(ExtraCall(extra, extraConf), ")")
  {
    if extra.Some? {
      var e := "." + extra.value + "(";
      var x := ExtraCall(extra, extraConf);
      assert x == e + extraConf.GetOr("") + ")";
      assert x[..|e|] == e;
    }
  }

  /** A section wrapped in its prefix and suffix when present, nothing
      when the buffer is null. */
  function OptionalPart(buffers: map<Section, string>, s: Section, prefix: string, suffix: string): string {
    if s in buffers then prefix + buffers[s] + suffix else ""
  }

  /** The two variables of the main file. */
  function Declarations(id: string, conf: string): string {
    ("var oTable_" + id + ";\n") + ("var oTable_" + id + "_params = " + conf + ";\n")
  }

  /** `.dataTable(oTable_<id>_params)`, the extra call and the semicolon:
      the tail shared by every initialisation the generators write. */
  function DataTableCall(id: string, extra: Option<string>, extraConf: Option<string>): string {
    ".dataTable(oTable_" + id + "_params)" + ExtraCall(extra, extraConf) + ";"
  }

  /** The initialisation statement of the main file. */
  function InitStatement(id: string, extra: Option<string>, extraConf: Option<string>): string {
    "oTable_" + id + " = $('#" + id + "')" + DataTableCall(id, extra, extraConf)
  }

  const ReadyOpen: string := "$(document).ready(function(){\n"
  const ReadyClose: string := "\n});"

  /** What getContent assembles for a MAIN resource: beforeAll, the body
      and the ready block, then afterAll. */
  function MainContent(id: string, b: map<Section, string>): string {
    OptionalPart(b, BeforeAll, "", ";\n") + MainBody(id, b) + ReadyClose + OptionalPart(b, AfterAll, "\n", "")
  }

  /** The variables, beforeStartDocumentReady and the open ready block. */
  function MainBody(id: string, b: map<Section, string>): string {
    Declarations(id, Text(Get(b, DataTablesConf))) + OptionalPart(b, BeforeStartDocumentReady, "", "")
    + ReadyOpen + ReadyBody(id, b)
  }

  /** Inside the ready block: afterStartDocumentReady, the initialisation,
      beforeEndDocumentReady. */
  function ReadyBody(id: string, b: map<Section, string>): string {
    OptionalPart(b, AfterStartDocumentReady, "\n" + Indentation, "")
    + Indentation + InitStatement(id, Get(b, DataTablesExtra), Get(b, DataTablesExtraConf))
    + OptionalPart(b, BeforeEndDocumentReady, "\n" + Indentation, "")
  }

  /** The length a section adds: its text and its fixed wrapping when set,
      nothing when null. */
  function PartLength(b: map<Section, string>, s: Section, wrapping: nat): nat {
    if s in b then wrapping + |b[s]| else 0
  }

  /** asset/JsResource. The eight section builders are a map from section to
      text; a section absent from the map is a null builder. */
  class JsResource {
    var name: Option<string>
    var content: Option<string>
    const location: Option<string>
    var tableId: Option<string>
    var resourceType: Option<ResourceType>
    var buffers: map<Section, string>

    /** JsResource(type, name). */
    constructor (t: ResourceType, name: string)
      ensures resourceType == Some(t) && this.name == Some(name) && buffers == map[]
      ensures content.None? && location.None? && tableId.None?
    {
      resourceType, this.name := Some(t), Some(name);
      content, location, tableId := None, None, None;
      buffers := map[];
    }

    /** JsResource(type, name, location): a resource read from `location`. */
    constructor WithLocation(t: ResourceType, name: string, location: Option<string>)
      ensures resourceType == Some(t) && this.name == Some(name) && this.location == location
      ensures buffers == map[] && content.None? && tableId.None?
    {
      resourceType, this.name, this.location := Some(t), Some(name), location;
      content, tableId := None, None;
      buffers := map[];
    }

    function Buffer(s: Section): Option<string>
      reads this
    {
      Get(buffers, s)
    }

    /** appendToBeforeAll, appendToDataTablesConf and the other appendTo*
        methods: create the builder on first use, then append; no other
        section and no other field changes. */
    method AppendTo(s: Section, text: string)
      modifies this
      ensures Buffer(s) == Extended(old(Buffer(s)), text)
      ensures forall other :: other != s ==> Buffer(other) == old(Buffer(other))
      ensures buffers == old(buffers)[s := Extended(old(Buffer(s)), text).value]
      ensures unchanged(this`name, this`content, this`tableId, this`resourceType)
    {
      if s !in buffers {
        buffers := buffers[s := ""];
      }
      buffers := buffers[s := buffers[s] + text];
    }

    /** getContent: the assembled main file for MAIN, the stored content for
        every other type; a null type fails in the switch. */
    function GetContent(): (r: Result<string>)
      reads this
      ensures resourceType.None? <==> r.Err?
      ensures r.Err? ==> r.error.NullPointer?
    {
      match resourceType
      case None => Err(NullPointer("type"))
      case Some(MAIN) => Ok(MainContent(Text(tableId), buffers))
      case Some(_) => Ok(Text(content))
    }
  }

  /** For any type but MAIN the content is exactly the stored content
      (or "null"). */
  lemma NonMainContent(r: JsResource)
    requires r.resourceType.Some? && r.resourceType.value != MAIN
    ensures r.GetContent() == Ok(Text(r.content))
    ensures r.content.Some? ==> r.GetContent() == Ok(r.content.value)
  {
  }

  /** The main file begins with beforeAll and `;\n` when that buffer is set,
      with the first variable otherwise. */
  lemma MainStarts(id: string, b: map<Section, string>)
    ensures BeforeAll in b ==> StartsWith(MainContent(id, b), b[BeforeAll] + ";\n")
    ensures BeforeAll !in b ==> StartsWith(MainContent(id, b), "var oTable_" + id + ";\n")
  {
    var head := OptionalPart(b, BeforeAll, "", ";\n");
    var body := MainBody(id, b);
    var tail := OptionalPart(b, AfterAll, "\n", "");
    if BeforeAll in b {
      assert head == b[BeforeAll] + ";\n";
      PrefixOf(head, body);
    } else {
      FirstDeclaration(id, b);
      assert head + body == body;
    }
    PrefixExtend(head + body, ReadyClose, head + body);
    PrefixExtend(head + body + ReadyClose, tail, head + body);
  }

  /** Without beforeAll, the body starts with the first variable. */
  lemma FirstDeclaration(id: string, b: map<Section, string>)
    ensures StartsWith(MainBody(id, b), "var oTable_" + id + ";\n")
  {
    var first := "var oTable_" + id + ";\n";
    var decl := Declarations(id, Text(Get(b, DataTablesConf)));
    PrefixOf(first, decl[|first|..]);
    assert decl == first + decl[|first|..];
    PrefixExtend(decl, OptionalPart(b, BeforeStartDocumentReady, "", ""), first);
    PrefixExtend(decl + OptionalPart(b, BeforeStartDocumentReady, "", ""), ReadyOpen, first);
    PrefixExtend(decl + OptionalPart(b, BeforeStartDocumentReady, "", "") + ReadyOpen, ReadyBody(id, b), first);
  }

  /** The main file ends with the closing of the ready block, followed only
      by afterAll when that buffer is set. */
  lemma MainEnds(id: string, b: map<Section, string>)
    ensures AfterAll in b ==> EndsWith(MainContent(id, b), "\n" + b[AfterAll])
    ensures AfterAll !in b ==> EndsWith(MainContent(id, b), ReadyClose)
  {
    var head := OptionalPart(b, BeforeAll, "", ";\n");
    var body := MainBody(id, b);
    var tail := OptionalPart(b, AfterAll, "\n", "");
    if AfterAll in b {
      assert tail == "\n" + b[AfterAll];
      SuffixOf(head + body + ReadyClose, tail);
    } else {
      SuffixOf(head + body, ReadyClose);
      assert head + body + ReadyClose + tail == head + body + ReadyClose;
    }
  }

  /** Each optional section adds its text and its fixed wrapping when set
      and nothing when null; the variables, the ready block and the
      initialisation are always there. */
  lemma MainLength(id: string, b: map<Section, string>)
    ensures |MainContent(id, b)|
            == |Declarations(id, Text(Get(b, DataTablesConf)))| + |ReadyOpen| + |Indentation|
               + |InitStatement(id, Get(b, DataTablesExtra), Get(b, DataTablesExtraConf))| + |ReadyClose|
               + PartLength(b, BeforeAll, 2) + PartLength(b, BeforeStartDocumentReady, 0)
               + PartLength(b, AfterStartDocumentReady, 4) + PartLength(b, BeforeEndDocumentReady, 4)
               + PartLength(b, AfterAll, 1)
  {
  }

  /** The initialisation statement selects the table by its id and ends
      with the extra call and a semicolon. */
  lemma InitStatementShape(id: string, extra: Option<string>, extraConf: Option<string>)
    ensures StartsWith(InitStatement(id, extra, extraConf), "oTable_" + id + " = $('#" + id + "')")
    ensures EndsWith(InitStatement(id, extra, extraConf), ExtraCall(extra, extraConf) + ";")
  {
    var pre := "oTable_" + id + " = $('#" + id + "')";
    PrefixOf(pre, DataTableCall(id, extra, extraConf));
    CallEnds(id, extra, extraConf);
    SuffixExtend(pre, DataTableCall(id, extra, extraConf), ExtraCall(extra, extraConf) + ";");
  }

  lemma CallEnds(id: string, extra: Option<string>, extraConf: Option<string>)
    ensures EndsWith(DataTableCall(id, extra, extraConf), ExtraCall(extra, extraConf) + ";")
  {
    var a := ".dataTable(oTable_" + id + "_params)";
    var x := ExtraCall(extra, extraConf);
    AppendAssoc(a, x, ";");
    SuffixOf(a, x + ";");
  }

  // ---------------------------------------------------------------------
  // StandardJavascriptGenerator

  /** The eight StringBuilder fields of the generator. */
  datatype GenSection =
    | GBeforeAll | GVariables | GBeforeStartDocumentReady | GDocumentReady
    | GAfterStartDocumentReady | GBeforeEndDocumentReady | GAfterEndDocumentReady | GAfterAll

  /** What addResource reads from a resource. */
  datatype ResourceView = ResourceView(
    tableId: string, conf: string, extra: Option<string>, extraConf: Option<string>,
    beforeAll: Option<string>, beforeStart: Option<string>, afterStart: Option<string>,
    beforeEnd: Option<string>, afterAll: Option<string>)

  function ViewOf(r: JsResource): ResourceView
    reads r
  {
    ResourceView(Text(r.tableId), Text(r.Buffer(DataTablesConf)), r.Buffer(DataTablesExtra), r.Buffer(DataTablesExtraConf),
                 r.Buffer(BeforeAll), r.Buffer(BeforeStartDocumentReady), r.Buffer(AfterStartDocumentReady),
                 r.Buffer(BeforeEndDocumentReady), r.Buffer(AfterAll))
  }

  /** The two variable declarations one resource adds. */
  function VariablesOf(v: ResourceView, newline: string): string {
    "var oTable_" + v.tableId + " = $('#" + v.tableId + "');" + newline
    + "var oTable_" + v.tableId + "_params = " + v.conf + newline
  }

  /** The initialisation statement one resource adds to the ready block. */
  function ReadyCallOf(v: ResourceView, indentation: string, newline: string): string {
    indentation + ComponentCall(v.tableId, v.extra, v.extraConf) + newline
  }

  /** `oTable_<id>.dataTable(oTable_<id>_params)`, the extra call and `;`. */
  function ComponentCall(id: string, extra: Option<string>, extraConf: Option<string>): string {
    "oTable_" + id + DataTableCall(id, extra, extraConf)
  }

  function Indented(x: Option<string>, indentation: string): string {
    if x.None? then "" else indentation + x.value
  }

  /** What one resource adds to a section of the generator. */
  function PieceOf(s: GenSection, v: ResourceView, indentation: string, newline: string): string {
    match s
    case GBeforeAll => v.beforeAll.GetOr("")
    case GVariables => VariablesOf(v, newline)
    case GBeforeStartDocumentReady => v.beforeStart.GetOr("")
    case GDocumentReady => ReadyCallOf(v, indentation, newline)
    case GAfterStartDocumentReady => Indented(v.afterStart, indentation)
    case GBeforeEndDocumentReady => Indented(v.beforeEnd, indentation)
    case GAfterEndDocumentReady => ""
    case GAfterAll => v.afterAll.GetOr("")
  }

  /** A section after the given resources were added, in order. */
  function SectionText(s: GenSection, vs: seq<ResourceView>, indentation: string, newline: string): string {
    if |vs| == 0 then ""
    else SectionText(s, vs[..|vs| - 1], indentation, newline) + PieceOf(s, vs[|vs| - 1], indentation, newline)
  }

  function Line(b: map<GenSection, string>, s: GenSection, newline: string): string {
    if s in b then b[s] + newline else ""
  }

  /** The document getContent writes for the given section buffers: the
      part before the ready block, the ready block, the part after it. */
  function GeneratedContent(b: map<GenSection, string>, newline: string): string {
    GeneratedHead(b, newline) + GeneratedReady(b, newline) + GeneratedTail(b, newline)
  }

  /** beforeAll, the variables (printed even when null) and
      beforeStartDocumentReady. */
  function GeneratedHead(b: map<GenSection, string>, newline: string): string {
    Line(b, GBeforeAll, newline) + Text(Get(b, GVariables)) + newline + Line(b, GBeforeStartDocumentReady, newline)
  }

  function GeneratedReady(b: map<GenSection, string>, newline: string): string {
    "$(document).ready(function(){" + Line(b, GAfterStartDocumentReady, newline)
    + (if GDocumentReady in b then b[GDocumentReady] else "")
    + Line(b, GBeforeEndDocumentReady, newline) + "});" + newline
  }

  function GeneratedTail(b: map<GenSection, string>, newline: string): string {
    Line(b, GAfterEndDocumentReady, newline) + Line(b, GAfterAll, newline)
  }

  /** What one addResource call does to the section buffers: every section
      but afterEndDocumentReady is created if needed and receives the
      resource's piece. */
  function WithResource(b: map<GenSection, string>, v: ResourceView, indentation: string, newline: string): map<GenSection, string> {
    var b1 := AppendPiece(b, GBeforeAll, v, indentation, newline);
    var b2 := AppendPiece(b1, GVariables, v, indentation, newline);
    var b3 := AppendPiece(b2, GBeforeStartDocumentReady, v, indentation, newline);
    var b4 := AppendPiece(b3, GDocumentReady, v, indentation, newline);
    var b5 := AppendPiece(b4, GAfterStartDocumentReady, v, indentation, newline);
    var b6 := AppendPiece(b5, GBeforeEndDocumentReady, v, indentation, newline);
    AppendPiece(b6, GAfterAll, v, indentation, newline)
  }

  lemma WithResourceSections(b: map<GenSection, string>, v: ResourceView, indentation: string, newline: string)
    ensures var w := WithResource(b, v, indentation, newline);
            (GAfterEndDocumentReady in w <==> GAfterEndDocumentReady in b)
            && forall s :: s != GAfterEndDocumentReady ==>
                 s in w && w[s] == Get(b, s).GetOr("") + PieceOf(s, v, indentation, newline)
  {
    var w := WithResource(b, v, indentation, newline);
    forall s | s != GAfterEndDocumentReady
      ensures s in w && w[s] == Get(b, s).GetOr("") + PieceOf(s, v, indentation, newline)
    {
      match s
      case GBeforeAll =>
      case GVariables =>
      case GBeforeStartDocumentReady =>
      case GDocumentReady =>
      case GAfterStartDocumentReady =>
      case GBeforeEndDocumentReady =>
      case GAfterAll =>
    }
  }

  /** One private appendTo* helper: create the section if needed, then
      append the resource's piece. */
  function AppendPiece(b: map<GenSection, string>, s: GenSection, v: ResourceView, indentation: string, newline: string): map<GenSection, string> {
    b[s := Get(b, s).GetOr("") + PieceOf(s, v, indentation, newline)]
  }

  /** The section buffers after the given resources were added: every
      section but afterEndDocumentReady holds their pieces in order, and
      nothing exists before the first resource. */
  ghost predicate Gathered(b: map<GenSection, string>, vs: seq<ResourceView>, indentation: string, newline: string) {
    GAfterEndDocumentReady !in b
    && (|vs| == 0 ==> b == map[])
    && (|vs| > 0 ==> forall s :: s != GAfterEndDocumentReady ==>
          s in b && b[s] == SectionText(s, vs, indentation, newline))
  }

  /** addResource keeps the buffers in step with the resources added. */
  lemma GatheredStep(b: map<GenSection, string>, vs: seq<ResourceView>, v: ResourceView, indentation: string, newline: string)
    requires Gathered(b, vs, indentation, newline)
    ensures Gathered(WithResource(b, v, indentation, newline), vs + [v], indentation, newline)
  {
    WithResourceSections(b, v, indentation, newline);
    var w := WithResource(b, v, indentation, newline);
    assert (vs + [v])[..|vs|] == vs;
    forall s | s != GAfterEndDocumentReady
      ensures s in w && w[s] == SectionText(s, vs + [v], indentation, newline)
    {
      if |vs| == 0 {
        assert Get(b, s) == None;
      }
    }
  }

  /** generator/javascript/StandardJavascriptGenerator. The indentation and
      newline constants of its interface are given at construction. */
  class StandardJavascriptGenerator {
    const indentation: string
    const newline: string
    var buffers: map<GenSection, string>
    /** The resources added so far, as addResource read them. */
    ghost var added: seq<ResourceView>

    /** Every section except afterEndDocumentReady holds the pieces of the
        added resources in order; afterEndDocumentReady is never written. */
    ghost predicate Valid()
      reads this
    {
      Gathered(buffers, added, indentation, newline)
    }

    constructor (indentation: string, newline: string)
      ensures Valid() && added == [] && this.indentation == indentation && this.newline == newline
    {
      this.indentation, this.newline := indentation, newline;
      buffers := map[];
      added := [];
    }

    /** addResource: through its private appendTo* helpers, every section
        but afterEndDocumentReady receives what the resource contributes. */
    method AddResource(r: JsResource)
      requires Valid()
      modifies this
      ensures Valid() && added == old(added) + [old(ViewOf(r))]
      ensures buffers == WithResource(old(buffers), old(ViewOf(r)), indentation, newline)
    {
      var v := ViewOf(r);
      GatheredStep(buffers, added, v, indentation, newline);
      buffers := WithResource(buffers, v, indentation, newline);
      added := added + [v];
    }

    /** getContent: with no resource added, the empty document; otherwise
        it starts with beforeAll and the variables and ends with afterAll,
        each followed by a newline. */
    function GetContent(): (c: string)
      reads this
      ensures Valid() && added == [] ==> c == "null" + newline + "$(document).ready(function(){" + "});" + newline
      ensures Valid() && added != [] ==>
                StartsWith(c, buffers[GBeforeAll] + newline + Text(Get(buffers, GVariables)) + newline)
                && EndsWith(c, buffers[GAfterAll] + newline)
    {
      EmptyGeneratorContent(newline);
      if GBeforeAll in buffers && GAfterAll in buffers then
        ContentOrder(buffers, newline);
        GeneratedContent(buffers, newline)
      else
        GeneratedContent(buffers, newline)
    }
  }

  /** Each added resource extends the variables by exactly its two
      declarations and the ready block by exactly its initialisation, after
      those of the resources added before it. */
  lemma AddedResourcePieces(vs: seq<ResourceView>, v: ResourceView, indentation: string, newline: string)
    ensures SectionText(GVariables, vs + [v], indentation, newline)
            == SectionText(GVariables, vs, indentation, newline) + VariablesOf(v, newline)
    ensures SectionText(GDocumentReady, vs + [v], indentation, newline)
            == SectionText(GDocumentReady, vs, indentation, newline) + ReadyCallOf(v, indentation, newline)
    ensures SectionText(GAfterEndDocumentReady, vs + [v], indentation, newline) == ""
  {
    assert (vs + [v])[..|vs|] == vs;
    AfterEndEmpty(vs, indentation, newline);
  }

  lemma {:induction false} AfterEndEmpty(vs: seq<ResourceView>, indentation: string, newline: string)
    ensures SectionText(GAfterEndDocumentReady, vs, indentation, newline) == ""
  {
    if |vs| > 0 {
      AfterEndEmpty(vs[..|vs| - 1], indentation, newline);
    }
  }

  /** A resource whose sections are all null still contributes its two
      variables and its initialisation, and only those. */
  lemma {:induction false} BareResourceSections(vs: seq<ResourceView>, s: GenSection, indentation: string, newline: string)
    requires forall i :: 0 <= i < |vs| ==>
               vs[i].beforeAll.None? && vs[i].beforeStart.None? && vs[i].afterStart.None? && vs[i].beforeEnd.None? && vs[i].afterAll.None?
    requires s != GVariables && s != GDocumentReady
    ensures SectionText(s, vs, indentation, newline) == ""
  {
    if |vs| > 0 {
      BareResourceSections(vs[..|vs| - 1], s, indentation, newline);
    }
  }

  /** A generator without resources still writes the variables buffer,
      which is null and therefore printed as "null", and the empty ready
      block. */
  lemma EmptyGeneratorContent(newline: string)
    ensures GeneratedContent(map[], newline) == "null" + newline + "$(document).ready(function(){" + "});" + newline
  {
  }

  /** The content starts with the beforeAll section when some resource set
      one and ends with the afterAll section when some resource set one;
      the variables always precede the ready block. */
  lemma ContentOrder(b: map<GenSection, string>, newline: string)
    requires GBeforeAll in b && GAfterAll in b
    ensures StartsWith(GeneratedContent(b, newline), b[GBeforeAll] + newline + Text(Get(b, GVariables)) + newline)
    ensures EndsWith(GeneratedContent(b, newline), b[GAfterAll] + newline)
  {
    var pre := b[GBeforeAll] + newline + Text(Get(b, GVariables)) + newline;
    var head := GeneratedHead(b, newline);
    PrefixOf(pre, Line(b, GBeforeStartDocumentReady, newline));
    PrefixExtend(head, GeneratedReady(b, newline), pre);
    PrefixExtend(head + GeneratedReady(b, newline), GeneratedTail(b, newline), pre);
    SuffixOf(Line(b, GAfterEndDocumentReady, newline), b[GAfterAll] + newline);
    SuffixExtend(head + GeneratedReady(b, newline), GeneratedTail(b, newline), b[GAfterAll] + newline);
  }

  // ---------------------------------------------------------------------
  // DatatableJQueryJavascriptGenerator

  /** The values of a DatatableAssetBuffer the generator reads. */
  datatype AssetBuffer = AssetBuffer(
    processedId: string, originalId: string, dataTablesConf: Option<string>,
    dataTablesExtra: Option<string>, dataTablesExtraConf: Option<string>,
    beforeAll: Option<string>, beforeStartDocumentReady: Option<string>, afterStartDocumentReady: Option<string>,
    beforeEndDocumentReady: Option<string>, afterAll: Option<string>)

  /** getComponentConf: the call on the processed id and the extra call. */
  function ComponentConf(dab: AssetBuffer): string {
    ComponentCall(dab.processedId, dab.dataTablesExtra, dab.dataTablesExtraConf)
  }

  /** getVariables: the names use the processed id, the jQuery selector the
      original id. */
  function JQueryVariables(dab: AssetBuffer): string {
    "var oTable_" + dab.processedId + "=$('#" + dab.originalId + "');"
    + "var oTable_" + dab.processedId + "_params=" + Text(dab.dataTablesConf) + ";"
  }

  lemma ComponentConfShape(dab: AssetBuffer)
    ensures StartsWith(ComponentConf(dab), "oTable_" + dab.processedId + ".dataTable(oTable_" + dab.processedId + "_params)")
    ensures dab.dataTablesExtra.None? ==>
              ComponentConf(dab) == "oTable_" + dab.processedId + ".dataTable(oTable_" + dab.processedId + "_params);"
    ensures dab.dataTablesExtra.Some? && dab.dataTablesExtraConf.None? ==>
              EndsWith(ComponentConf(dab), "." + dab.dataTablesExtra.value + "();")
  {
    var pre := "oTable_" + dab.processedId + ".dataTable(oTable_" + dab.processedId + "_params)";
    var x := ExtraCall(dab.dataTablesExtra, dab.dataTablesExtraConf);
    assert ComponentConf(dab) == pre + (x + ";");
    PrefixOf(pre, x + ";");
    if dab.dataTablesExtra.Some? && dab.dataTablesExtraConf.None? {
      assert x + ";" == "." + dab.dataTablesExtra.value + "();";
      SuffixOf(pre, x + ";");
    }
  }

  /** The jQuery generator and the standard one write the same call for a
      table: the ready-block line of a resource is its component conf,
      indented and followed by a newline. */
  lemma SameComponentCall(v: ResourceView, dab: AssetBuffer, indentation: string, newline: string)
    requires dab.processedId == v.tableId && dab.dataTablesExtra == v.extra && dab.dataTablesExtraConf == v.extraConf
    ensures PieceOf(GDocumentReady, v, indentation, newline) == indentation + ComponentConf(dab) + newline
  {
  }

  lemma JQueryVariablesShape(dab: AssetBuffer)
    ensures StartsWith(JQueryVariables(dab), "var oTable_" + dab.processedId + "=$('#" + dab.originalId + "');")
    ensures EndsWith(JQueryVariables(dab), "_params=" + Text(dab.dataTablesConf) + ";")
  {
    var a := "var oTable_" + dab.processedId + "=$('#" + dab.originalId + "');";
    var b := "var oTable_" + dab.processedId;
    var c := "_params=" + Text(dab.dataTablesConf) + ";";
    assert JQueryVariables(dab) == a + (b + c);
    PrefixOf(a, b + c);
    SuffixOf(a + b, c);
  }

  /** The placeholders of the asset buffer. */
  datatype Placeholder =
    | BEFORE_ALL | BEFORE_START_DOCUMENT_READY | COMPONENT_CONFIGURATION | AFTER_START_DOCUMENT_READY
    | BEFORE_END_DOCUMENT_READY | AFTER_ALL

  /** The generator records what fillBuffer hands to appendToPlaceholder; the
      placeholder buffers themselves belong to the asset framework, which is
      not part of this model. */
  class DatatableJQueryJavascriptGenerator {
    var appended: seq<(Placeholder, Option<string>)>

    constructor ()
      ensures appended == []
    {
      appended := [];
    }

    /** fillBuffer: beforeAll and then the variables go to BEFORE_ALL, the
        other placeholders follow in fixed order. */
    method FillBuffer(dab: AssetBuffer)
      modifies this
      ensures appended == old(appended) + FillCalls(dab)
    {
      appended := appended + [(BEFORE_ALL, dab.beforeAll)];
      appended := appended + [(BEFORE_ALL, Some(JQueryVariables(dab)))];
      appended := appended + [(BEFORE_START_DOCUMENT_READY, dab.beforeStartDocumentReady)];
      appended := appended + [(COMPONENT_CONFIGURATION, Some(ComponentConf(dab)))];
      appended := appended + [(AFTER_START_DOCUMENT_READY, dab.afterStartDocumentReady)];
      appended := appended + [(BEFORE_END_DOCUMENT_READY, dab.beforeEndDocumentReady)];
      appended := appended + [(AFTER_ALL, dab.afterAll)];
    }
  }

  /** The appends fillBuffer makes, in order. */
  function FillCalls(dab: AssetBuffer): (r: seq<(Placeholder, Option<string>)>)
    ensures |r| == 7 && r[0].0 == BEFORE_ALL && r[1].0 == BEFORE_ALL
    ensures r[1].1 == Some(JQueryVariables(dab)) && r[3] == (COMPONENT_CONFIGURATION, Some(ComponentConf(dab)))
    ensures forall i, j :: 1 <= i < j < |r| ==> r[i].0 != r[j].0
  {
    [(BEFORE_ALL, dab.beforeAll), (BEFORE_ALL, Some(JQueryVariables(dab))),
     (BEFORE_START_DOCUMENT_READY, dab.beforeStartDocumentReady), (COMPONENT_CONFIGURATION, Some(ComponentConf(dab))),
     (AFTER_START_DOCUMENT_READY, dab.afterStartDocumentReady), (BEFORE_END_DOCUMENT_READY, dab.beforeEndDocumentReady),
     (AFTER_ALL, dab.afterAll)]
  }
}
