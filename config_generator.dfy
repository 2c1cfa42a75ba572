/** The two DataTables configuration generators: generator/
    DatatableConfigGenerator and the older generator/configuration/
    DatatablesGenerator. Both fill one map in seven steps (columns and
    initial sort, i18n, features, scrolling, miscellaneous, AJAX,
    callbacks); they differ in where `processing` is written, in the blank
    check on messages and in the AJAX keys the older one still writes. */
module ConfigGenerators {
  import opened Wrappers
  import opened StringUtils
  import opened ConfigValues
  import opened GeneratedConfs
  import Html
  import TC = TableConfigurations
  import InitialSorts
  import I18nConfs

  /** Which of the two generators. */
  datatype Generation = Current | Legacy

  /** The options of one column of the last header row, as the generators
      read them (null is None). `sortDirections` holds the values of the
      Direction constants. */
  datatype ColumnOptions = ColumnOptions(
    displayTypes: seq<Html.DisplayType>,
    name: Option<string>, sortable: Option<bool>, searchable: Option<bool>, visible: Option<bool>,
    property: Option<string>, renderFunction: Option<string>, defaultValue: Option<string>,
    cssCellClass: Option<string>, sortDirections: Option<seq<string>>, sortType: Option<string>,
    sortInitDirection: Option<string>, sortInitOrder: Option<int>)

  /** The table options the generators read. `messages` are the entries of
      the message Properties in the order its entry set lists them (null is
      empty), `callbacks` the registered callbacks (null is empty) and
      `pagingType` the text of the paging type. */
  datatype TableOptions = TableOptions(
    filterable: Option<bool>, info: Option<bool>, pageable: Option<bool>, sortable: Option<bool>, processing: Option<bool>,
    scrollY: Option<string>, scrollCollapse: Option<bool>, scrollX: Option<string>, scrollXInner: Option<string>,
    dom: Option<string>, autoWidth: Option<bool>, lengthMenu: Option<string>, stripeClasses: Option<string>,
    displayLength: Option<int>, lengthChange: Option<bool>, pagingType: Option<string>, stateSave: Option<bool>, jqueryUi: Option<bool>,
    serverSide: Option<bool>, deferRender: Option<bool>,
    ajaxSource: Option<string>, serverData: Option<string>, serverParam: Option<string>, serverMethod: Option<string>,
    messages: seq<(string, string)>, callbacks: seq<TC.Callback>)

  function Flag(b: Option<bool>): Value {
    if b.Some? then Bool(b.value) else Null
  }

  function Number(n: Option<int>): Value {
    if n.Some? then Int(n.value) else Null
  }

  function Strings(s: seq<string>): (r: seq<Value>)
    ensures |r| == |s| && forall i :: 0 <= i < |s| ==> r[i] == Str(s[i])
  {
    seq(|s|, i requires 0 <= i < |s| => Str(s[i]))
  }

  // ---- Columns ----

  /** The puts of one column's map, in source order. */
  function ColumnPuts(c: ColumnOptions, ajaxSource: Option<string>): (r: seq<Put<Value>>)
    ensures DistinctKeys(r)
  {
    [ Put(NotBlank(c.name), Name, Str(Text(c.name))),
      Put(c.sortable.Some?, Orderable, Flag(c.sortable)),
      Put(c.searchable.Some?, Searchable, Flag(c.searchable)),
      Put(c.visible.Some?, Visible, Flag(c.visible)),
      Put(NotBlank(c.property), Data, Str(Text(c.property))),
      Put(NotBlank(c.renderFunction), Render, Snippet(Text(c.renderFunction))),
      Put(true, DefaultContent, Str(Text(c.defaultValue))),
      Put(NotBlank(ajaxSource) && NotBlank(c.cssCellClass), ClassName, Str(Text(c.cssCellClass))),
      Put(c.sortDirections.Some?, AsSorting, List(Strings(if c.sortDirections.Some? then c.sortDirections.value else []))),
      Put(NotBlank(c.sortType), Type, Str(Text(c.sortType))) ]
  }

  /** The map of one column. */
  function ColumnMap(c: ColumnOptions, ajaxSource: Option<string>): map<Param, Value> {
    Apply(map[], ColumnPuts(c, ajaxSource))
  }

  /** A column's map: the default content is always there ("" without a
      default value); the cell class only with an AJAX source and a cell
      class that is not blank; the sort directions as their values; every
      other parameter exactly when its option is set (not blank, for
      texts). */
  lemma ColumnEntries(c: ColumnOptions, ajaxSource: Option<string>)
    ensures At(ColumnMap(c, ajaxSource), Name) == if NotBlank(c.name) then Some(Str(c.name.value)) else None
    ensures At(ColumnMap(c, ajaxSource), Orderable) == if c.sortable.Some? then Some(Bool(c.sortable.value)) else None
    ensures At(ColumnMap(c, ajaxSource), Searchable) == if c.searchable.Some? then Some(Bool(c.searchable.value)) else None
    ensures At(ColumnMap(c, ajaxSource), Visible) == if c.visible.Some? then Some(Bool(c.visible.value)) else None
    ensures At(ColumnMap(c, ajaxSource), Data) == if NotBlank(c.property) then Some(Str(c.property.value)) else None
    ensures At(ColumnMap(c, ajaxSource), Render) == if NotBlank(c.renderFunction) then Some(Snippet(c.renderFunction.value)) else None
    ensures At(ColumnMap(c, ajaxSource), DefaultContent) == Some(Str(if c.defaultValue.Some? then c.defaultValue.value else ""))
    ensures At(ColumnMap(c, ajaxSource), ClassName)
              == if NotBlank(ajaxSource) && NotBlank(c.cssCellClass) then Some(Str(c.cssCellClass.value)) else None
    ensures At(ColumnMap(c, ajaxSource), AsSorting).Some? <==> c.sortDirections.Some?
    ensures c.sortDirections.Some? ==>
              var v := At(ColumnMap(c, ajaxSource), AsSorting).value;
              v.List? && |v.items| == |c.sortDirections.value|
              && forall i :: 0 <= i < |v.items| ==> v.items[i] == Str(c.sortDirections.value[i])
    ensures At(ColumnMap(c, ajaxSource), Type) == if NotBlank(c.sortType) then Some(Str(c.sortType.value)) else None
  {
    var ps := ColumnPuts(c, ajaxSource);
    ApplyAt(map[], ps, 0);
    ApplyAt(map[], ps, 1);
    ApplyAt(map[], ps, 2);
    ApplyAt(map[], ps, 3);
    ApplyAt(map[], ps, 4);
    ApplyAt(map[], ps, 5);
    ApplyAt(map[], ps, 6);
    ApplyAt(map[], ps, 7);
    ApplyAt(map[], ps, 8);
    ApplyAt(map[], ps, 9);
  }

  /** Keeps the columns of the HTML table (display type ALL or HTML), in
      order: both the aoColumns loop and getColumns(ALL, HTML). */
  function Shown(cols: seq<ColumnOptions>): (r: seq<ColumnOptions>)
    ensures |r| <= |cols|
    ensures forall i :: 0 <= i < |r| ==> r[i] in cols && InHtml(r[i].displayTypes)
    ensures forall i :: 0 <= i < |cols| && InHtml(cols[i].displayTypes) ==> cols[i] in r
    decreases |cols|
  {
    if cols == [] then []
    else
      var last := cols[|cols| - 1];
      Shown(cols[..|cols| - 1]) + if InHtml(last.displayTypes) then [last] else []
  }

  /** The column maps the loop collects. */
  function ColumnMaps(cols: seq<ColumnOptions>, ajaxSource: Option<string>): seq<map<Param, Value>>
    decreases |cols|
  {
    if cols == [] then []
    else
      var last := cols[|cols| - 1];
      ColumnMaps(cols[..|cols| - 1], ajaxSource) + if InHtml(last.displayTypes) then [ColumnMap(last, ajaxSource)] else []
  }

  /** One map per shown column, in order. */
  lemma {:induction false} ColumnMapsShown(cols: seq<ColumnOptions>, ajaxSource: Option<string>)
    ensures |ColumnMaps(cols, ajaxSource)| == |Shown(cols)|
    ensures forall i :: 0 <= i < |Shown(cols)| ==> ColumnMaps(cols, ajaxSource)[i] == ColumnMap(Shown(cols)[i], ajaxSource)
    decreases |cols|
  {
    if cols != [] {
      var init, last := cols[..|cols| - 1], cols[|cols| - 1];
      ColumnMapsShown(init, ajaxSource);
      var ms, sh := ColumnMaps(init, ajaxSource), Shown(init);
      if InHtml(last.displayTypes) {
        assert ColumnMaps(cols, ajaxSource) == ms + [ColumnMap(last, ajaxSource)];
        assert Shown(cols) == sh + [last];
      } else {
        assert ColumnMaps(cols, ajaxSource) == ms;
        assert Shown(cols) == sh;
      }
    }
  }

  /** The aoColumns loop over the last header row. */
  method GenerateColumns(cols: seq<ColumnOptions>, ajaxSource: Option<string>) returns (maps: seq<map<Param, Value>>)
    ensures maps == ColumnMaps(cols, ajaxSource)
  {
    maps := [];
    var n := 0;
    while n < |cols|
      invariant 0 <= n <= |cols|
      invariant maps == ColumnMaps(cols[..n], ajaxSource)
    {
      assert cols[..n + 1][..n] == cols[..n];
      if InHtml(cols[n].displayTypes) {
        maps := maps + [ColumnMap(cols[n], ajaxSource)];
      }
      n := n + 1;
    }
    assert cols[..n] == cols;
  }

  // ---- Initial sort ----

  /** The initial-sort options of the shown columns. */
  function SortInits(shown: seq<ColumnOptions>): (r: seq<InitialSorts.SortInit>)
    ensures |r| == |shown|
    ensures forall i :: 0 <= i < |r| ==> r[i] == InitialSorts.SortInit(shown[i].sortInitDirection, shown[i].sortInitOrder)
  {
    seq(|shown|, i requires 0 <= i < |shown| => InitialSorts.SortInit(shown[i].sortInitDirection, shown[i].sortInitOrder))
  }

  /** The aaSorting list: one `[columnIndex, direction]` pair per TreeMap
      entry, in ascending key order. */
  function Sorting(t: InitialSorts.TreeMap): (r: seq<Value>)
    ensures |r| == |t|
    ensures forall i :: 0 <= i < |t| ==> r[i] == List([Int(t[i].1.index), Str(t[i].1.direction)])
  {
    seq(|t|, i requires 0 <= i < |t| => List([Int(t[i].1.index), Str(t[i].1.direction)]))
  }

  /** The loop over the TreeMap's entry set. */
  method SortingContent(t: InitialSorts.TreeMap) returns (r: seq<Value>)
    ensures r == Sorting(t)
  {
    r := [];
    var n := 0;
    while n < |t|
      invariant 0 <= n <= |t|
      invariant r == Sorting(t[..n])
    {
      r := r + [List([Int(t[n].1.index), Str(t[n].1.direction)])];
      n := n + 1;
    }
    assert t[..n] == t;
  }

  // ---- The main map ----

  /** The step a parameter of the main map belongs to. */
  function Home(p: Param, g: Generation): int {
    match p
    case Columns | Order => 0
    case Language => 1
    case Searching | Info | Paging | Ordering => 2
    case Processing => if g == Current then 2 else 5
    case ScrollY | ScrollCollapse | ScrollX | ScrollXInner => 3
    case Dom | AutoWidth | DisplayLength | LengthChange | PagingType | StateSave | JQueryUI | LengthMenu | StripeClasses => 4
    case ServerSide | DeferRender | AjaxSource | ServerData | ServerParams | ServerMethod => 5
    case _ => 6
  }

  function ColumnSection(maps: seq<map<Param, Value>>, sorting: seq<Value>): (r: seq<Put<Entry>>)
    ensures DistinctKeys(r) && forall i :: 0 <= i < |r| ==> Home(r[i].key, Current) == 0 == Home(r[i].key, Legacy)
  {
    [ Put(true, Columns, Maps(maps)),
      Put(|sorting| > 0, Order, Plain(List(sorting))) ]
  }

  function I18nSection(language: Option<map<string, Value>>): (r: seq<Put<Entry>>)
    ensures DistinctKeys(r) && forall i :: 0 <= i < |r| ==> Home(r[i].key, Current) == 1 == Home(r[i].key, Legacy)
  {
    [ Put(language.Some?, Language, Plain(Obj(if language.Some? then language.value else map[]))) ]
  }

  function FeatureSection(g: Generation, t: TableOptions): (r: seq<Put<Entry>>)
    ensures DistinctKeys(r) && forall i :: 0 <= i < |r| ==> Home(r[i].key, g) == 2
  {
    [ Put(t.filterable.Some?, Searching, Plain(Flag(t.filterable))),
      Put(t.info.Some?, Info, Plain(Flag(t.info))),
      Put(t.pageable.Some?, Paging, Plain(Flag(t.pageable))),
      Put(t.sortable.Some?, Ordering, Plain(Flag(t.sortable))) ]
    + if g == Current then [Put(t.processing.Some?, Processing, Plain(Flag(t.processing)))] else []
  }

  function ScrollingSection(t: TableOptions): (r: seq<Put<Entry>>)
    ensures DistinctKeys(r) && forall i :: 0 <= i < |r| ==> Home(r[i].key, Current) == 3 == Home(r[i].key, Legacy)
  {
    [ Put(NotBlank(t.scrollY), ScrollY, Plain(Str(Text(t.scrollY)))),
      Put(t.scrollCollapse.Some?, ScrollCollapse, Plain(Flag(t.scrollCollapse))),
      Put(NotBlank(t.scrollX), ScrollX, Plain(Str(Text(t.scrollX)))),
      Put(NotBlank(t.scrollXInner), ScrollXInner, Plain(Str(Text(t.scrollXInner)))) ]
  }

  function MiscSection(t: TableOptions): (r: seq<Put<Entry>>)
    ensures DistinctKeys(r) && forall i :: 0 <= i < |r| ==> Home(r[i].key, Current) == 4 == Home(r[i].key, Legacy)
  {
    [ Put(NotBlank(t.dom), Dom, Plain(Str(Text(t.dom)))),
      Put(t.autoWidth.Some?, AutoWidth, Plain(Flag(t.autoWidth))),
      Put(t.displayLength.Some?, DisplayLength, Plain(Number(t.displayLength))),
      Put(t.lengthChange.Some?, LengthChange, Plain(Flag(t.lengthChange))),
      Put(t.pagingType.Some?, PagingType, Plain(Str(Text(t.pagingType)))),
      Put(t.stateSave.Some?, StateSave, Plain(Flag(t.stateSave))),
      Put(t.jqueryUi.Some?, JQueryUI, Plain(Flag(t.jqueryUi))),
      Put(NotBlank(t.lengthMenu), LengthMenu, Plain(Snippet(Text(t.lengthMenu)))),
      Put(NotBlank(t.stripeClasses), StripeClasses, Plain(Snippet(Text(t.stripeClasses)))) ]
  }

  /** The current generator writes serverSide and deferRender only (its
      other AJAX keys are commented out). */
  function CurrentAjax(t: TableOptions): (r: seq<Put<Entry>>)
    ensures DistinctKeys(r) && forall i :: 0 <= i < |r| ==> Home(r[i].key, Current) == 5
  {
    [ Put(t.serverSide.Some?, ServerSide, Plain(Flag(t.serverSide))),
      Put(t.deferRender.Some?, DeferRender, Plain(Flag(t.deferRender))) ]
  }

  /** The older generator writes processing and deferRender, then, under
      serverSide, the AJAX source, server data, server params and server
      method. */
  function LegacyAjax(t: TableOptions): (r: seq<Put<Entry>>)
    ensures Keys(r) == [Processing, DeferRender, ServerSide, AjaxSource, ServerData, ServerParams, ServerMethod]
  {
    [ Put(t.processing.Some?, Processing, Plain(Flag(t.processing))),
      Put(t.deferRender.Some?, DeferRender, Plain(Flag(t.deferRender))),
      Put(t.serverSide.Some?, ServerSide, Plain(Flag(t.serverSide))),
      Put(t.serverSide.Some? && NotBlank(t.ajaxSource), AjaxSource, Plain(Str(Text(t.ajaxSource)))),
      Put(t.serverSide.Some? && NotBlank(t.serverData), ServerData, Plain(Snippet(Text(t.serverData)))),
      Put(t.serverSide.Some? && NotBlank(t.serverParam), ServerParams, Plain(Snippet(Text(t.serverParam)))),
      Put(t.serverSide.Some? && NotBlank(t.serverMethod), ServerMethod, Plain(Str(Text(t.serverMethod)))) ]
  }

  function AjaxSection(g: Generation, t: TableOptions): (r: seq<Put<Entry>>)
    ensures DistinctKeys(r) && forall i :: 0 <= i < |r| ==> Home(r[i].key, g) == 5
  {
    if g == Current then CurrentAjax(t)
    else
      var r := LegacyAjax(t);
      DistinctByKeys(r, [Processing, DeferRender, ServerSide, AjaxSource, ServerData, ServerParams, ServerMethod]);
      r
  }

  /** The six steps before the callbacks. */
  function Sections(g: Generation, maps: seq<map<Param, Value>>, sorting: seq<Value>,
                    language: Option<map<string, Value>>, t: TableOptions): seq<seq<Put<Entry>>>
  {
    [ColumnSection(maps, sorting), I18nSection(language), FeatureSection(g, t),
     ScrollingSection(t), MiscSection(t), AjaxSection(g, t)]
  }

  lemma SectionsHomed(g: Generation, maps: seq<map<Param, Value>>, sorting: seq<Value>,
                      language: Option<map<string, Value>>, t: TableOptions)
    ensures Homed(Sections(g, maps, sorting, language, t), p => Home(p, g))
  {
    var secs: seq<seq<Put<Entry>>> := Sections(g, maps, sorting, language, t);
    forall j, i | 0 <= j < |secs| && 0 <= i < |secs[j]| ensures Home(secs[j][i].key, g) == j {
      if j == 0 {
      } else if j == 1 {
      } else if j == 2 {
      } else if j == 3 {
      } else if j == 4 {
      } else {
      }
    }
  }

  lemma SectionsDistinct(g: Generation, maps: seq<map<Param, Value>>, sorting: seq<Value>,
                         language: Option<map<string, Value>>, t: TableOptions, s: nat)
    requires s < 6
    ensures DistinctKeys(Sections(g, maps, sorting, language, t)[s])
  {
    var secs := Sections(g, maps, sorting, language, t);
    if s == 0 {
      assert secs[0] == ColumnSection(maps, sorting);
    } else if s == 1 {
      assert secs[1] == I18nSection(language);
    } else if s == 2 {
      assert secs[2] == FeatureSection(g, t);
    } else if s == 3 {
      assert secs[3] == ScrollingSection(t);
    } else if s == 4 {
      assert secs[4] == MiscSection(t);
    } else {
      assert secs[5] == AjaxSection(g, t);
    }
  }

  /** The main map, given what the loops produced. */
  function Assemble(g: Generation, maps: seq<map<Param, Value>>, sorting: seq<Value>,
                    language: Option<map<string, Value>>, t: TableOptions): Conf
  {
    Apply(Apply(map[], Flatten(Sections(g, maps, sorting, language, t))), CallbackPuts(t.callbacks, false))
  }

  /** The main map a generator returns for the header columns `cols`, the
      options `t` and the message constants `cat`. */
  function Config(g: Generation, cols: seq<ColumnOptions>, t: TableOptions, cat: I18nConfs.Catalogue): Conf {
    Assemble(g, ColumnMaps(cols, t.ajaxSource), Sorting(InitialSorts.Tree(SortInits(Shown(cols)))),
             I18nConfs.Language(t.messages, cat, g == Legacy), t)
  }

  /** generateConfig. */
  method GenerateConfig(g: Generation, cols: seq<ColumnOptions>, t: TableOptions, cat: I18nConfs.Catalogue)
    returns (mainConf: Conf)
    ensures mainConf == Config(g, cols, t, cat)
  {
    var maps := GenerateColumns(cols, t.ajaxSource);
    var tree := InitialSorts.SortedColumnMap(SortInits(Shown(cols)));
    var sorting := SortingContent(tree);
    var language := I18nConfs.GenerateLanguage(t.messages, cat, g == Legacy);
    mainConf := Apply(map[], Flatten(Sections(g, maps, sorting, language, t)));
    mainConf := PutCallbacks(mainConf, t.callbacks, false);
  }

  // ---- What the main map holds ----

  /** A parameter of one of the six steps is decided by its put alone. */
  lemma EntryOf(g: Generation, maps: seq<map<Param, Value>>, sorting: seq<Value>,
                language: Option<map<string, Value>>, t: TableOptions, s: nat, i: nat)
    requires s < 6 && i < |Sections(g, maps, sorting, language, t)[s]|
    ensures var p := Sections(g, maps, sorting, language, t)[s][i];
      At(Assemble(g, maps, sorting, language, t), p.key) == if p.on then Some(p.val) else None
  {
    var secs: seq<seq<Put<Entry>>> := Sections(g, maps, sorting, language, t);
    SectionsHomed(g, maps, sorting, language, t);
    SectionsDistinct(g, maps, sorting, language, t, s);
    SectionAt(map[], secs, p => Home(p, g), s, i);
    assert !secs[s][i].key.Callback? by {
      assert Home(secs[s][i].key, g) == s;
    }
    CallbacksKeepOthers(Apply(map[], Flatten(secs)), t.callbacks, false, secs[s][i].key);
  }

  /** The columns entry is always written, one map per shown column. */
  lemma ColumnsEntry(g: Generation, cols: seq<ColumnOptions>, t: TableOptions, cat: I18nConfs.Catalogue)
    ensures At(Config(g, cols, t, cat), Columns) == Some(Maps(ColumnMaps(cols, t.ajaxSource)))
  {
    var sorting := Sorting(InitialSorts.Tree(SortInits(Shown(cols))));
    var language := I18nConfs.Language(t.messages, cat, g == Legacy);
    EntryOf(g, ColumnMaps(cols, t.ajaxSource), sorting, language, t, 0, 0);
  }

  /** The initial sort is written exactly when the TreeMap is not empty,
      as the list of its pairs. */
  lemma OrderEntry(g: Generation, cols: seq<ColumnOptions>, t: TableOptions, cat: I18nConfs.Catalogue)
    ensures var tree := InitialSorts.Tree(SortInits(Shown(cols)));
      At(Config(g, cols, t, cat), Order) == if tree != [] then Some(Plain(List(Sorting(tree)))) else None
  {
    var sorting := Sorting(InitialSorts.Tree(SortInits(Shown(cols))));
    var language := I18nConfs.Language(t.messages, cat, g == Legacy);
    EntryOf(g, ColumnMaps(cols, t.ajaxSource), sorting, language, t, 0, 1);
  }

  /** The initial sort is written exactly when a shown column has an
      initial direction, and each of its pairs names a shown column with
      the direction that column has. */
  lemma OrderNamesShownColumns(g: Generation, cols: seq<ColumnOptions>, t: TableOptions, cat: I18nConfs.Catalogue)
    ensures At(Config(g, cols, t, cat), Order).Some? <==>
              exists i :: 0 <= i < |Shown(cols)| && NotBlank(Shown(cols)[i].sortInitDirection)
    ensures var tree := InitialSorts.Tree(SortInits(Shown(cols)));
      forall i :: 0 <= i < |tree| ==> InitialSorts.DirectedAt(SortInits(Shown(cols)), tree[i].1)
  {
    var shown := Shown(cols);
    var inits := SortInits(shown);
    OrderEntry(g, cols, t, cat);
    InitialSorts.TreeEmptyIffNoDirection(inits);
    InitialSorts.TreeEntriesDirected(inits);
    if exists i :: 0 <= i < |shown| && NotBlank(shown[i].sortInitDirection) {
      var i :| 0 <= i < |shown| && NotBlank(shown[i].sortInitDirection);
      assert inits[i].direction == shown[i].sortInitDirection;
    }
  }

  /** The language entry is written exactly when some message is taken
      (a known message key, and, for the older generator, a value that is
      not blank). */
  lemma LanguageEntry(g: Generation, cols: seq<ColumnOptions>, t: TableOptions, cat: I18nConfs.Catalogue)
    ensures At(Config(g, cols, t, cat), Language).Some? <==> I18nConfs.AnyMatched(t.messages, cat, g == Legacy)
    ensures At(Config(g, cols, t, cat), Language).Some? ==>
              At(Config(g, cols, t, cat), Language)
                == Some(Plain(Obj(I18nConfs.LanguageMap(I18nConfs.Grouped(t.messages, cat, g == Legacy), cat))))
  {
    var language := I18nConfs.Language(t.messages, cat, g == Legacy);
    EntryOf(g, ColumnMaps(cols, t.ajaxSource), Sorting(InitialSorts.Tree(SortInits(Shown(cols)))), language, t, 1, 0);
    I18nConfs.LanguageIffMatched(t.messages, cat, g == Legacy);
  }

  /** The entry an optional flag gives. */
  function FlagEntry(b: Option<bool>): Option<Entry> {
    if b.Some? then Some(Plain(Bool(b.value))) else None
  }

  /** The entry an optional text gives: only a text that is not blank. */
  function TextEntry(s: Option<string>): Option<Entry> {
    if NotBlank(s) then Some(Plain(Str(s.value))) else None
  }

  /** The entry an optional snippet gives: only one that is not blank. */
  function SnippetEntry(s: Option<string>): Option<Entry> {
    if NotBlank(s) then Some(Plain(Snippet(s.value))) else None
  }

  /** Searching, info, paging and ordering follow their options; so does
      processing, which the current generator writes with the features and
      the older one with the AJAX options. */
  lemma FeatureEntries(g: Generation, maps: seq<map<Param, Value>>, sorting: seq<Value>,
    language: Option<map<string, Value>>, t: TableOptions)
    ensures At(Assemble(g, maps, sorting, language, t), Searching) == FlagEntry(t.filterable)
    ensures At(Assemble(g, maps, sorting, language, t), Info) == FlagEntry(t.info)
    ensures At(Assemble(g, maps, sorting, language, t), Paging) == FlagEntry(t.pageable)
    ensures At(Assemble(g, maps, sorting, language, t), Ordering) == FlagEntry(t.sortable)
    ensures At(Assemble(g, maps, sorting, language, t), Processing) == FlagEntry(t.processing)
  {
    EntryOf(g, maps, sorting, language, t, 2, 0);
    EntryOf(g, maps, sorting, language, t, 2, 1);
    EntryOf(g, maps, sorting, language, t, 2, 2);
    EntryOf(g, maps, sorting, language, t, 2, 3);
    if g == Current {
      EntryOf(g, maps, sorting, language, t, 2, 4);
    } else {
      EntryOf(g, maps, sorting, language, t, 5, 0);
    }
  }

  /** The scrolling options: texts when not blank, the collapse flag when
      set. */
  lemma ScrollingEntries(g: Generation, maps: seq<map<Param, Value>>, sorting: seq<Value>,
    language: Option<map<string, Value>>, t: TableOptions)
    ensures At(Assemble(g, maps, sorting, language, t), ScrollY) == TextEntry(t.scrollY)
    ensures At(Assemble(g, maps, sorting, language, t), ScrollCollapse) == FlagEntry(t.scrollCollapse)
    ensures At(Assemble(g, maps, sorting, language, t), ScrollX) == TextEntry(t.scrollX)
    ensures At(Assemble(g, maps, sorting, language, t), ScrollXInner) == TextEntry(t.scrollXInner)
  {
    EntryOf(g, maps, sorting, language, t, 3, 0);
    EntryOf(g, maps, sorting, language, t, 3, 1);
    EntryOf(g, maps, sorting, language, t, 3, 2);
    EntryOf(g, maps, sorting, language, t, 3, 3);
  }

  /** The miscellaneous options: the DOM when not blank, the flags and the
      display length when set, the paging type as its text, the length menu
      and stripe classes as snippets when not blank. */
  lemma MiscEntries(g: Generation, maps: seq<map<Param, Value>>, sorting: seq<Value>,
    language: Option<map<string, Value>>, t: TableOptions)
    ensures At(Assemble(g, maps, sorting, language, t), Dom) == TextEntry(t.dom)
    ensures At(Assemble(g, maps, sorting, language, t), AutoWidth) == FlagEntry(t.autoWidth)
    ensures At(Assemble(g, maps, sorting, language, t), DisplayLength) == if t.displayLength.Some? then Some(Plain(Int(t.displayLength.value))) else None
    ensures At(Assemble(g, maps, sorting, language, t), LengthChange) == FlagEntry(t.lengthChange)
    ensures At(Assemble(g, maps, sorting, language, t), PagingType) == if t.pagingType.Some? then Some(Plain(Str(t.pagingType.value))) else None
    ensures At(Assemble(g, maps, sorting, language, t), StateSave) == FlagEntry(t.stateSave)
    ensures At(Assemble(g, maps, sorting, language, t), JQueryUI) == FlagEntry(t.jqueryUi)
    ensures At(Assemble(g, maps, sorting, language, t), LengthMenu) == SnippetEntry(t.lengthMenu)
    ensures At(Assemble(g, maps, sorting, language, t), StripeClasses) == SnippetEntry(t.stripeClasses)
  {
    EntryOf(g, maps, sorting, language, t, 4, 0);
    EntryOf(g, maps, sorting, language, t, 4, 1);
    EntryOf(g, maps, sorting, language, t, 4, 2);
    EntryOf(g, maps, sorting, language, t, 4, 3);
    EntryOf(g, maps, sorting, language, t, 4, 4);
    EntryOf(g, maps, sorting, language, t, 4, 5);
    EntryOf(g, maps, sorting, language, t, 4, 6);
    EntryOf(g, maps, sorting, language, t, 4, 7);
    EntryOf(g, maps, sorting, language, t, 4, 8);
  }

  /** Server side follows its option in both generators. */
  lemma ServerSideEntry(g: Generation, maps: seq<map<Param, Value>>, sorting: seq<Value>,
    language: Option<map<string, Value>>, t: TableOptions)
    ensures At(Assemble(g, maps, sorting, language, t), ServerSide) == FlagEntry(t.serverSide)
  {
    EntryOf(g, maps, sorting, language, t, 5, if g == Current then 0 else 2);
  }

  /** Defer render follows its option in both generators. */
  lemma DeferRenderEntry(g: Generation, maps: seq<map<Param, Value>>, sorting: seq<Value>,
    language: Option<map<string, Value>>, t: TableOptions)
    ensures At(Assemble(g, maps, sorting, language, t), DeferRender) == FlagEntry(t.deferRender)
  {
    EntryOf(g, maps, sorting, language, t, 5, 1);
  }

  /** The older generator sends the AJAX source, server data, server params
      and server method only for a table with the server-side option set;
      the current one never sends them. */
  lemma AjaxServerKeys(g: Generation, maps: seq<map<Param, Value>>, sorting: seq<Value>,
    language: Option<map<string, Value>>, t: TableOptions)
    ensures At(Assemble(g, maps, sorting, language, t), AjaxSource) == if g == Legacy && t.serverSide.Some? then TextEntry(t.ajaxSource) else None
    ensures At(Assemble(g, maps, sorting, language, t), ServerData) == if g == Legacy && t.serverSide.Some? then SnippetEntry(t.serverData) else None
    ensures At(Assemble(g, maps, sorting, language, t), ServerParams) == if g == Legacy && t.serverSide.Some? then SnippetEntry(t.serverParam) else None
    ensures At(Assemble(g, maps, sorting, language, t), ServerMethod) == if g == Legacy && t.serverSide.Some? then TextEntry(t.serverMethod) else None
  {
    if g == Legacy {
      EntryOf(g, maps, sorting, language, t, 5, 3);
      EntryOf(g, maps, sorting, language, t, 5, 4);
      EntryOf(g, maps, sorting, language, t, 5, 5);
      EntryOf(g, maps, sorting, language, t, 5, 6);
    } else {
      CurrentOmits(maps, sorting, language, t, AjaxSource);
      CurrentOmits(maps, sorting, language, t, ServerData);
      CurrentOmits(maps, sorting, language, t, ServerParams);
      CurrentOmits(maps, sorting, language, t, ServerMethod);
    }
  }

  /** The current generator's steps never write the older AJAX keys. */
  lemma CurrentOmits(maps: seq<map<Param, Value>>, sorting: seq<Value>, language: Option<map<string, Value>>,
                     t: TableOptions, k: Param)
    requires k in {AjaxSource, ServerData, ServerParams, ServerMethod}
    ensures At(Assemble(Current, maps, sorting, language, t), k) == None
  {
    var secs: seq<seq<Put<Entry>>> := Sections(Current, maps, sorting, language, t);
    SectionsHomed(Current, maps, sorting, language, t);
    forall j, i | 0 <= j < |secs| && 0 <= i < |secs[j]| ensures secs[j][i].key != k {
      if j < 5 {
        assert Home(secs[j][i].key, Current) == j;
      } else {
        assert secs[j] == CurrentAjax(t);
      }
    }
    Unwritten(map[], secs, k);
    CallbacksKeepOthers(Apply(map[], Flatten(secs)), t.callbacks, false, k);
  }

  /** A callback type is configured exactly when a callback of that type is
      registered, with the function of the last one. */
  lemma CallbackEntry(g: Generation, maps: seq<map<Param, Value>>, sorting: seq<Value>,
    language: Option<map<string, Value>>, t: TableOptions, k: TC.CallbackType)
    ensures At(Assemble(g, maps, sorting, language, t), Callback(k))
              == if LastCode(t.callbacks, k).Some? then Some(Plain(Func(LastCode(t.callbacks, k).value))) else None
  {
    StepsOmitCallbacks(g, maps, sorting, language, t, k);
    CallbacksApplied(Apply(map[], Flatten(Sections(g, maps, sorting, language, t))), t.callbacks, false, k);
  }

  /** The six steps before the callback loop never write a callback. */
  lemma StepsOmitCallbacks(g: Generation, maps: seq<map<Param, Value>>, sorting: seq<Value>,
                           language: Option<map<string, Value>>, t: TableOptions, k: TC.CallbackType)
    ensures At(Apply(map[], Flatten(Sections(g, maps, sorting, language, t))), Callback(k)) == None
  {
    var secs: seq<seq<Put<Entry>>> := Sections(g, maps, sorting, language, t);
    SectionsHomed(g, maps, sorting, language, t);
    forall j, i | 0 <= j < |secs| && 0 <= i < |secs[j]| ensures secs[j][i].key != Callback(k) {
      assert Home(secs[j][i].key, g) == j;
    }
    Unwritten(map[], secs, Callback(k));
  }
}
