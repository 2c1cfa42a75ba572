/** The oldest configuration generator, generator/MainGenerator: one map
    per HTML column, the initial sort as `[index, direction]` pairs, the
    table options, the callbacks as snippets, and a fixed DOM. */
module MainGenerators {
  import opened Wrappers
  import opened JavaString
  import opened StringUtils
  import opened ConfigValues
  import opened GeneratedConfs
  import Html
  import TC = TableConfigurations

  /** A column of the last header row as this generator reads it: the
      sortable and searchable flags (null is None) and the texts. */
  datatype HeaderColumn = HeaderColumn(
    displayTypes: seq<Html.DisplayType>, sortable: Option<bool>, searchable: Option<bool>,
    property: Option<string>, renderFunction: Option<string>, defaultValue: Option<string>,
    sortDirection: Option<string>, sortInit: Option<string>)

  /** The table options it reads. `paginationType` is the text of the
      pagination type; `callbacks` the registered callbacks (null is
      empty). */
  datatype TableOptions = TableOptions(
    labels: Option<string>, autoWidth: Option<bool>, deferRender: Option<bool>, filterable: Option<bool>,
    info: Option<bool>, paginate: Option<bool>, displayLength: Option<int>, lengthChange: Option<bool>,
    paginationType: Option<string>, sort: Option<bool>, stateSave: Option<bool>, jqueryUi: Option<bool>,
    lengthMenu: Option<string>, stripeClasses: Option<string>, processing: Option<bool>, serverSide: Option<bool>,
    datasourceUrl: Option<string>, serverData: Option<string>, serverParam: Option<string>, serverMethod: Option<string>,
    callbacks: seq<TC.Callback>)

  /** DT_URL: the language entry's only key. */
  const UrlKey := "sUrl"

  /** The DOM this generator always sends. */
  const FixedDom := "lfrtip"

  /** A Boolean option as put: null stays null. */
  function Flag(b: Option<bool>): Value {
    if b.Some? then Bool(b.value) else Null
  }

  function Strings(s: seq<string>): (r: seq<Value>)
    ensures |r| == |s| && forall i :: 0 <= i < |s| ==> r[i] == Str(s[i])
  {
    seq(|s|, i requires 0 <= i < |s| => Str(s[i]))
  }

  // ---- Columns ----

  /** The sort directions of a column: trimmed, lower-cased, split on ','. */
  function Directions(s: string): seq<string> {
    Split(ToLower(Trim(s)), ',')
  }

  /** No direction holds a comma or an upper-case ASCII letter, and a text
      without a comma is one direction. */
  lemma DirectionsNormalised(s: string)
    ensures forall i :: 0 <= i < |Directions(s)| ==> ',' !in Directions(s)[i]
    ensures forall i, j :: 0 <= i < |Directions(s)| && 0 <= j < |Directions(s)[i]| ==> !('A' <= Directions(s)[i][j] <= 'Z')
    ensures ',' !in s ==> Directions(s) == [ToLower(Trim(s))]
  {
    var t := ToLower(Trim(s));
    assert forall ch :: ch in t ==> !('A' <= ch <= 'Z');
    var ds := Directions(s);
    if ',' in t {
      PiecesAvoidSeparator(t, ',');
      PiecesChars(t, ',');
      assert ds == Pieces(t, ',')[..|ds|];
      forall i | 0 <= i < |ds| ensures ',' !in ds[i] && forall j :: 0 <= j < |ds[i]| ==> !('A' <= ds[i][j] <= 'Z') {
        assert ds[i] == Pieces(t, ',')[i];
      }
    }
    if ',' !in s {
      assert forall ch :: ch in Trim(s) ==> ch in s;
      assert forall j :: 0 <= j < |t| ==> t[j] == ToLowerChar(Trim(s)[j]);
      assert ',' !in t;
    }
  }

  /** The puts of one column's map, in source order. */
  function ColumnPuts(c: HeaderColumn): (r: seq<Put<Value>>)
    ensures DistinctKeys(r)
  {
    [ Put(true, Orderable, Flag(c.sortable)),
      Put(true, Searchable, Flag(c.searchable)),
      Put(NotBlank(c.property), Data, Str(Text(c.property))),
      Put(NotBlank(c.renderFunction), Render, Snippet(Text(c.renderFunction))),
      Put(c.defaultValue.Some?, DefaultContent, Str(Text(c.defaultValue))),
      Put(NotBlank(c.sortDirection), AsSorting, List(Strings(Directions(Text(c.sortDirection))))) ]
  }

  /** The map of one column. */
  function ColumnMap(c: HeaderColumn): map<Param, Value> {
    Apply(map[], ColumnPuts(c))
  }

  /** A column's map: sortable and searchable are always there (null when
      unset), the default content whenever a default value is set, the data
      property and renderer when not blank, and the sort directions, as
      normalised, when the direction text is not blank. */
  lemma ColumnEntries(c: HeaderColumn)
    ensures At(ColumnMap(c), Orderable) == Some(if c.sortable.Some? then Bool(c.sortable.value) else Null)
    ensures At(ColumnMap(c), Searchable) == Some(if c.searchable.Some? then Bool(c.searchable.value) else Null)
    ensures At(ColumnMap(c), Data) == if NotBlank(c.property) then Some(Str(c.property.value)) else None
    ensures At(ColumnMap(c), Render) == if NotBlank(c.renderFunction) then Some(Snippet(c.renderFunction.value)) else None
    ensures At(ColumnMap(c), DefaultContent) == if c.defaultValue.Some? then Some(Str(c.defaultValue.value)) else None
    ensures At(ColumnMap(c), AsSorting) == if NotBlank(c.sortDirection) then Some(List(Strings(Directions(c.sortDirection.value)))) else None
  {
    var ps := ColumnPuts(c);
    ApplyAt(map[], ps, 0);
    ApplyAt(map[], ps, 1);
    ApplyAt(map[], ps, 2);
    ApplyAt(map[], ps, 3);
    ApplyAt(map[], ps, 4);
    ApplyAt(map[], ps, 5);
  }

  /** A column's map holds nothing but those six parameters. */
  lemma ColumnKeys(c: HeaderColumn)
    ensures ColumnMap(c).Keys <= {Orderable, Searchable, Data, Render, DefaultContent, AsSorting}
  {
    var ps := ColumnPuts(c);
    forall k | k in ColumnMap(c) ensures k in {Orderable, Searchable, Data, Render, DefaultContent, AsSorting} {
      if k !in {Orderable, Searchable, Data, Render, DefaultContent, AsSorting} {
        ApplyUntouched(map[], ps, k);
      }
    }
  }

  /** The columns whose display types contain HTML, in order (ALL alone is
      not enough here). */
  function HtmlColumns(cols: seq<HeaderColumn>): (r: seq<HeaderColumn>)
    ensures |r| <= |cols|
    ensures forall i :: 0 <= i < |r| ==> r[i] in cols && Html.HTML in r[i].displayTypes
    ensures forall i :: 0 <= i < |cols| && Html.HTML in cols[i].displayTypes ==> cols[i] in r
    decreases |cols|
  {
    if cols == [] then []
    else
      var last := cols[|cols| - 1];
      HtmlColumns(cols[..|cols| - 1]) + if Html.HTML in last.displayTypes then [last] else []
  }

  /** The column maps the loop collects. */
  function ColumnMaps(cols: seq<HeaderColumn>): seq<map<Param, Value>>
    decreases |cols|
  {
    if cols == [] then []
    else
      var last := cols[|cols| - 1];
      ColumnMaps(cols[..|cols| - 1]) + if Html.HTML in last.displayTypes then [ColumnMap(last)] else []
  }

  /** One map per HTML column, in order. */
  lemma {:induction false} ColumnMapsHtml(cols: seq<HeaderColumn>)
    ensures |ColumnMaps(cols)| == |HtmlColumns(cols)|
    ensures forall i :: 0 <= i < |HtmlColumns(cols)| ==> ColumnMaps(cols)[i] == ColumnMap(HtmlColumns(cols)[i])
    decreases |cols|
  {
    if cols != [] {
      var init, last := cols[..|cols| - 1], cols[|cols| - 1];
      ColumnMapsHtml(init);
      var ms, sh := ColumnMaps(init), HtmlColumns(init);
      if Html.HTML in last.displayTypes {
        assert ColumnMaps(cols) == ms + [ColumnMap(last)];
        assert HtmlColumns(cols) == sh + [last];
        forall i | 0 <= i < |sh| + 1 ensures ColumnMaps(cols)[i] == ColumnMap(HtmlColumns(cols)[i]) {
          if i < |sh| {
            assert ColumnMaps(cols)[i] == ms[i] && HtmlColumns(cols)[i] == sh[i];
          }
        }
      } else {
        assert ColumnMaps(cols) == ms;
        assert HtmlColumns(cols) == sh;
      }
    }
  }

  /** The aoColumns loop over the last header row. */
  method GenerateColumns(cols: seq<HeaderColumn>) returns (maps: seq<map<Param, Value>>)
    ensures maps == ColumnMaps(cols)
  {
    maps := [];
    var n := 0;
    while n < |cols|
      invariant 0 <= n <= |cols|
      invariant maps == ColumnMaps(cols[..n])
    {
      assert cols[..n + 1][..n] == cols[..n];
      if Html.HTML in cols[n].displayTypes {
        maps := maps + [ColumnMap(cols[n])];
      }
      n := n + 1;
    }
    assert cols[..n] == cols;
  }

  // ---- Initial sort ----

  /** The column has an initial direction. */
  predicate HasSortInit(c: HeaderColumn) {
    NotBlank(c.sortInit)
  }

  /** The positions, among all header columns, of the columns with an
      initial direction, in increasing order. */
  function SortedIndices(cols: seq<HeaderColumn>): seq<nat> {
    Positions(cols, HasSortInit)
  }

  /** The pair sent for the column at position `i`. */
  function SortPair(cols: seq<HeaderColumn>, i: nat): Value
    requires i < |cols|
  {
    List([Int(i), Str(Text(cols[i].sortInit))])
  }

  /** The aaSorting list: one `[index, direction]` pair per column with an
      initial direction, in column order, the index counting every header
      column. */
  function Sorting(cols: seq<HeaderColumn>): (r: seq<Value>)
    ensures |r| == |SortedIndices(cols)|
    ensures forall k :: 0 <= k < |r| ==> r[k] == SortPair(cols, SortedIndices(cols)[k])
  {
    var ix := SortedIndices(cols);
    seq(|ix|, k requires 0 <= k < |ix| => SortPair(cols, ix[k]))
  }

  /** The sort-init loop, with its column index. */
  method SortingContent(cols: seq<HeaderColumn>) returns (r: seq<Value>)
    ensures r == Sorting(cols)
  {
    r := [];
    var columnIndex := 0;
    while columnIndex < |cols|
      invariant 0 <= columnIndex <= |cols|
      invariant |r| == |SortedIndices(cols[..columnIndex])|
      invariant forall k :: 0 <= k < |r| ==> r[k] == SortPair(cols, SortedIndices(cols[..columnIndex])[k])
    {
      var prefix := cols[..columnIndex + 1];
      assert prefix[..columnIndex] == cols[..columnIndex];
      assert prefix[columnIndex] == cols[columnIndex];
      if NotBlank(cols[columnIndex].sortInit) {
        r := r + [List([Int(columnIndex), Str(cols[columnIndex].sortInit.value)])];
      }
      columnIndex := columnIndex + 1;
    }
    assert cols[..columnIndex] == cols;
  }

  /** `v` is the pair of the column at position `i`, which has an initial
      direction. */
  predicate PairOf(cols: seq<HeaderColumn>, i: int, v: Value) {
    0 <= i < |cols| && NotBlank(cols[i].sortInit) && v == List([Int(i), Str(cols[i].sortInit.value)])
  }

  /** Each pair names a column by its position among all header columns
      (the increasing positions SortedIndices lists), with that column's
      initial direction; every column with an initial
      direction has one; the list is empty exactly when no column has
      one. */
  lemma SortingPairs(cols: seq<HeaderColumn>)
    ensures forall k :: 0 <= k < |Sorting(cols)| ==> PairOf(cols, SortedIndices(cols)[k], Sorting(cols)[k])
    ensures forall i :: 0 <= i < |cols| && NotBlank(cols[i].sortInit) ==> List([Int(i), Str(cols[i].sortInit.value)]) in Sorting(cols)
    ensures |Sorting(cols)| == 0 <==> forall i :: 0 <= i < |cols| ==> !NotBlank(cols[i].sortInit)
  {
    var ix := SortedIndices(cols);
    var r := Sorting(cols);
    forall k | 0 <= k < |r| ensures PairOf(cols, ix[k], r[k]) {
      assert r[k] == SortPair(cols, ix[k]);
    }
    forall i | 0 <= i < |cols| && NotBlank(cols[i].sortInit) ensures List([Int(i), Str(cols[i].sortInit.value)]) in r {
      var k :| 0 <= k < |ix| && ix[k] == i;
      assert r[k] == SortPair(cols, i);
    }
    if |r| > 0 {
      assert NotBlank(cols[ix[0]].sortInit);
    }
  }

  // ---- The main map ----

  /** The step a parameter of the main map belongs to. */
  function Home(p: Param): int {
    match p
    case Columns | Order => 0
    case Language => 1
    case AutoWidth | DeferRender | Searching | Info | Paging | DisplayLength => 2
    case LengthChange | PagingType | Ordering | StateSave | JQueryUI | LengthMenu | StripeClasses => 3
    case Processing | ServerSide | AjaxSource | ServerData | ServerParams | ServerMethod => 4
    case _ => 5
  }

  function ColumnSection(maps: seq<map<Param, Value>>, sorting: seq<Value>): (r: seq<Put<Entry>>)
    ensures DistinctKeys(r) && forall i :: 0 <= i < |r| ==> Home(r[i].key) == 0
  {
    [ Put(true, Columns, Maps(maps)),
      Put(|sorting| > 0, Order, Plain(List(sorting))) ]
  }

  function LabelSection(t: TableOptions): (r: seq<Put<Entry>>)
    ensures DistinctKeys(r) && forall i :: 0 <= i < |r| ==> Home(r[i].key) == 1
  {
    [ Put(t.labels.Some?, Language, Plain(Obj(map[UrlKey := Str(Text(t.labels))]))) ]
  }

  function FlagSection(t: TableOptions): (r: seq<Put<Entry>>)
    ensures DistinctKeys(r) && forall i :: 0 <= i < |r| ==> Home(r[i].key) == 2
  {
    [ Put(t.autoWidth.Some?, AutoWidth, Plain(Flag(t.autoWidth))),
      Put(t.deferRender.Some?, DeferRender, Plain(Flag(t.deferRender))),
      Put(t.filterable.Some?, Searching, Plain(Flag(t.filterable))),
      Put(t.info.Some?, Info, Plain(Flag(t.info))),
      Put(t.paginate.Some?, Paging, Plain(Flag(t.paginate))),
      Put(t.displayLength.Some?, DisplayLength, Plain(if t.displayLength.Some? then Int(t.displayLength.value) else Null)) ]
  }

  function DisplaySection(t: TableOptions): (r: seq<Put<Entry>>)
    ensures DistinctKeys(r) && forall i :: 0 <= i < |r| ==> Home(r[i].key) == 3
  {
    [ Put(t.lengthChange.Some?, LengthChange, Plain(Flag(t.lengthChange))),
      Put(t.paginationType.Some?, PagingType, Plain(Str(Text(t.paginationType)))),
      Put(t.sort.Some?, Ordering, Plain(Flag(t.sort))),
      Put(t.stateSave.Some?, StateSave, Plain(Flag(t.stateSave))),
      Put(t.jqueryUi.Some?, JQueryUI, Plain(Flag(t.jqueryUi))),
      Put(NotBlank(t.lengthMenu), LengthMenu, Plain(Snippet(Text(t.lengthMenu)))),
      Put(NotBlank(t.stripeClasses), StripeClasses, Plain(Snippet(Text(t.stripeClasses)))) ]
  }

  /** Processing, then server side and, under it, the AJAX source, server
      data, server params and server method. */
  function AjaxSection(t: TableOptions): (r: seq<Put<Entry>>)
    ensures Keys(r) == [Processing, ServerSide, AjaxSource, ServerData, ServerParams, ServerMethod]
  {
    [ Put(t.processing.Some?, Processing, Plain(Flag(t.processing))),
      Put(t.serverSide.Some?, ServerSide, Plain(Flag(t.serverSide))),
      Put(t.serverSide.Some? && NotBlank(t.datasourceUrl), AjaxSource, Plain(Str(Text(t.datasourceUrl)))),
      Put(t.serverSide.Some? && NotBlank(t.serverData), ServerData, Plain(Snippet(Text(t.serverData)))),
      Put(t.serverSide.Some? && NotBlank(t.serverParam), ServerParams, Plain(Snippet(Text(t.serverParam)))),
      Put(t.serverSide.Some? && NotBlank(t.serverMethod), ServerMethod, Plain(Str(Text(t.serverMethod)))) ]
  }

  /** The steps before the callbacks. */
  function Sections(maps: seq<map<Param, Value>>, sorting: seq<Value>, t: TableOptions): seq<seq<Put<Entry>>> {
    [ColumnSection(maps, sorting), LabelSection(t), FlagSection(t), DisplaySection(t), AjaxSection(t)]
  }

  lemma SectionsHomed(maps: seq<map<Param, Value>>, sorting: seq<Value>, t: TableOptions)
    ensures Homed(Sections(maps, sorting, t), Home)
  {
    var secs: seq<seq<Put<Entry>>> := Sections(maps, sorting, t);
    forall j, i | 0 <= j < |secs| && 0 <= i < |secs[j]| ensures Home(secs[j][i].key) == j {
      if j == 0 {
      } else if j == 1 {
      } else if j == 2 {
      } else if j == 3 {
      } else {
        assert Keys(secs[4])[i] == secs[j][i].key;
      }
    }
  }

  lemma SectionsDistinct(maps: seq<map<Param, Value>>, sorting: seq<Value>, t: TableOptions, s: nat)
    requires s < 5
    ensures DistinctKeys(Sections(maps, sorting, t)[s])
  {
    var secs := Sections(maps, sorting, t);
    if s == 0 {
      assert secs[0] == ColumnSection(maps, sorting);
    } else if s == 1 {
      assert secs[1] == LabelSection(t);
    } else if s == 2 {
      assert secs[2] == FlagSection(t);
    } else if s == 3 {
      assert secs[3] == DisplaySection(t);
    } else {
      assert secs[4] == AjaxSection(t);
      DistinctByKeys(secs[4], [Processing, ServerSide, AjaxSource, ServerData, ServerParams, ServerMethod]);
    }
  }

  /** The main map, given what the loops produced: the steps, the
      callbacks as snippets, then the fixed DOM. */
  function Assemble(maps: seq<map<Param, Value>>, sorting: seq<Value>, t: TableOptions): (r: Conf)
    ensures At(r, Dom) == Some(Plain(Str(FixedDom)))
  {
    var m := Apply(Apply(map[], Flatten(Sections(maps, sorting, t))), CallbackPuts(t.callbacks, true));
    ApplyLast(m, [Put(true, Dom, Plain(Str(FixedDom)))], 0);
    Apply(m, [Put(true, Dom, Plain(Str(FixedDom)))])
  }

  /** The main map generateConfig returns for the header columns `cols`
      and the options `t`. */
  function Config(cols: seq<HeaderColumn>, t: TableOptions): Conf {
    Assemble(ColumnMaps(cols), Sorting(cols), t)
  }

  /** generateConfig. */
  method GenerateConfig(cols: seq<HeaderColumn>, t: TableOptions) returns (mainConf: Conf)
    ensures mainConf == Config(cols, t)
  {
    var maps := GenerateColumns(cols);
    var sorting := SortingContent(cols);
    mainConf := Apply(map[], Flatten(Sections(maps, sorting, t)));
    mainConf := PutCallbacks(mainConf, t.callbacks, true);
    assert Apply(mainConf, [Put(true, Dom, Plain(Str(FixedDom)))]) == mainConf[Dom := Plain(Str(FixedDom))] by {
      assert [Put(true, Dom, Plain(Str(FixedDom)))][1..] == [];
    }
    mainConf := mainConf[Dom := Plain(Str(FixedDom))];
  }

  // ---- What the main map holds ----

  /** A parameter of one of the steps is decided by its put alone. */
  lemma EntryOf(maps: seq<map<Param, Value>>, sorting: seq<Value>, t: TableOptions, s: nat, i: nat)
    requires s < 5 && i < |Sections(maps, sorting, t)[s]|
    ensures var p := Sections(maps, sorting, t)[s][i];
      At(Assemble(maps, sorting, t), p.key) == if p.on then Some(p.val) else None
  {
    var secs: seq<seq<Put<Entry>>> := Sections(maps, sorting, t);
    SectionsHomed(maps, sorting, t);
    SectionsDistinct(maps, sorting, t, s);
    SectionAt(map[], secs, Home, s, i);
    TailKeeps(Apply(map[], Flatten(secs)), t.callbacks, secs[s][i].key);
  }

  /** The callbacks and the DOM put leave every parameter of a step as it
      was. */
  lemma TailKeeps(m: Conf, cbs: seq<TC.Callback>, k: Param)
    requires Home(k) < 5
    ensures At(Apply(Apply(m, CallbackPuts(cbs, true)), [Put(true, Dom, Plain(Str(FixedDom)))]), k) == At(m, k)
  {
    CallbacksKeepOthers(m, cbs, true, k);
    ApplyUntouched(Apply(m, CallbackPuts(cbs, true)), [Put(true, Dom, Plain(Str(FixedDom)))], k);
  }

  /** The columns entry is always written, one map per HTML column. */
  lemma ColumnsEntry(cols: seq<HeaderColumn>, t: TableOptions)
    ensures At(Config(cols, t), Columns) == Some(Maps(ColumnMaps(cols)))
  {
    EntryOf(ColumnMaps(cols), Sorting(cols), t, 0, 0);
  }

  /** The initial sort is written exactly when some header column has an
      initial direction, as the list of pairs. */
  lemma OrderEntry(cols: seq<HeaderColumn>, t: TableOptions)
    ensures At(Config(cols, t), Order) == if |Sorting(cols)| > 0 then Some(Plain(List(Sorting(cols)))) else None
    ensures At(Config(cols, t), Order).Some? <==> exists i :: 0 <= i < |cols| && NotBlank(cols[i].sortInit)
  {
    EntryOf(ColumnMaps(cols), Sorting(cols), t, 0, 1);
    SortingPairs(cols);
  }

  /** The language entry points DataTables at the labels URL, when one is
      set. */
  lemma LanguageEntry(maps: seq<map<Param, Value>>, sorting: seq<Value>, t: TableOptions)
    ensures At(Assemble(maps, sorting, t), Language)
              == if t.labels.Some? then Some(Plain(Obj(map[UrlKey := Str(t.labels.value)]))) else None
  {
    EntryOf(maps, sorting, t, 1, 0);
  }

  /** The entry an optional flag gives. */
  function FlagEntry(b: Option<bool>): Option<Entry> {
    if b.Some? then Some(Plain(Bool(b.value))) else None
  }

  /** The entry an optional text gives: only a text that is not blank. */
  function TextEntry(s: Option<string>): Option<Entry> {
    if NotBlank(s) then Some(Plain(Str(s.value))) else None
  }

  /** The entry an optional snippet gives: only one that is not blank. */
  function SnippetEntry(s: Option<string>): Option<Entry> {
    if NotBlank(s) then Some(Plain(Snippet(s.value))) else None
  }

  /** Auto width, defer render, filtering, info, pagination and display
      length follow their options. */
  lemma FlagEntries(maps: seq<map<Param, Value>>, sorting: seq<Value>, t: TableOptions)
    ensures At(Assemble(maps, sorting, t), AutoWidth) == FlagEntry(t.autoWidth)
    ensures At(Assemble(maps, sorting, t), DeferRender) == FlagEntry(t.deferRender)
    ensures At(Assemble(maps, sorting, t), Searching) == FlagEntry(t.filterable)
    ensures At(Assemble(maps, sorting, t), Info) == FlagEntry(t.info)
    ensures At(Assemble(maps, sorting, t), Paging) == FlagEntry(t.paginate)
    ensures At(Assemble(maps, sorting, t), DisplayLength) == if t.displayLength.Some? then Some(Plain(Int(t.displayLength.value))) else None
  {
    EntryOf(maps, sorting, t, 2, 0);
    EntryOf(maps, sorting, t, 2, 1);
    EntryOf(maps, sorting, t, 2, 2);
    EntryOf(maps, sorting, t, 2, 3);
    EntryOf(maps, sorting, t, 2, 4);
    EntryOf(maps, sorting, t, 2, 5);
  }

  /** Length change, pagination type, sorting, state saving and jQuery UI
      follow their options; the length menu and stripe classes are sent as
      snippets when not blank. */
  lemma DisplayEntries(maps: seq<map<Param, Value>>, sorting: seq<Value>, t: TableOptions)
    ensures At(Assemble(maps, sorting, t), LengthChange) == FlagEntry(t.lengthChange)
    ensures At(Assemble(maps, sorting, t), PagingType) == if t.paginationType.Some? then Some(Plain(Str(t.paginationType.value))) else None
    ensures At(Assemble(maps, sorting, t), Ordering) == FlagEntry(t.sort)
    ensures At(Assemble(maps, sorting, t), StateSave) == FlagEntry(t.stateSave)
    ensures At(Assemble(maps, sorting, t), JQueryUI) == FlagEntry(t.jqueryUi)
    ensures At(Assemble(maps, sorting, t), LengthMenu) == SnippetEntry(t.lengthMenu)
    ensures At(Assemble(maps, sorting, t), StripeClasses) == SnippetEntry(t.stripeClasses)
  {
    EntryOf(maps, sorting, t, 3, 0);
    EntryOf(maps, sorting, t, 3, 1);
    EntryOf(maps, sorting, t, 3, 2);
    EntryOf(maps, sorting, t, 3, 3);
    EntryOf(maps, sorting, t, 3, 4);
    EntryOf(maps, sorting, t, 3, 5);
    EntryOf(maps, sorting, t, 3, 6);
  }

  /** Processing and server side follow their options; the AJAX source,
      server data, server params and server method are sent only for a
      table with the server-side option set, and only when not blank. */
  lemma AjaxEntries(maps: seq<map<Param, Value>>, sorting: seq<Value>, t: TableOptions)
    ensures At(Assemble(maps, sorting, t), Processing) == FlagEntry(t.processing)
    ensures At(Assemble(maps, sorting, t), ServerSide) == FlagEntry(t.serverSide)
    ensures At(Assemble(maps, sorting, t), AjaxSource) == if t.serverSide.Some? then TextEntry(t.datasourceUrl) else None
    ensures At(Assemble(maps, sorting, t), ServerData) == if t.serverSide.Some? then SnippetEntry(t.serverData) else None
    ensures At(Assemble(maps, sorting, t), ServerParams) == if t.serverSide.Some? then SnippetEntry(t.serverParam) else None
    ensures At(Assemble(maps, sorting, t), ServerMethod) == if t.serverSide.Some? then TextEntry(t.serverMethod) else None
  {
    EntryOf(maps, sorting, t, 4, 0);
    EntryOf(maps, sorting, t, 4, 1);
    EntryOf(maps, sorting, t, 4, 2);
    EntryOf(maps, sorting, t, 4, 3);
    EntryOf(maps, sorting, t, 4, 4);
    EntryOf(maps, sorting, t, 4, 5);
  }

  /** A callback type is configured exactly when a callback of that type is
      registered, as a snippet of the last one's code. */
  lemma CallbackEntry(maps: seq<map<Param, Value>>, sorting: seq<Value>, t: TableOptions, k: TC.CallbackType)
    ensures At(Assemble(maps, sorting, t), Callback(k))
              == if LastCode(t.callbacks, k).Some? then Some(Plain(Snippet(LastCode(t.callbacks, k).value))) else None
  {
    StepsOmitCallbacks(maps, sorting, t, k);
    var m := Apply(map[], Flatten(Sections(maps, sorting, t)));
    CallbacksApplied(m, t.callbacks, true, k);
    ApplyUntouched(Apply(m, CallbackPuts(t.callbacks, true)), [Put(true, Dom, Plain(Str(FixedDom)))], Callback(k));
  }

  /** The steps before the callback loop never write a callback. */
  lemma StepsOmitCallbacks(maps: seq<map<Param, Value>>, sorting: seq<Value>, t: TableOptions, k: TC.CallbackType)
    ensures At(Apply(map[], Flatten(Sections(maps, sorting, t))), Callback(k)) == None
  {
    var secs: seq<seq<Put<Entry>>> := Sections(maps, sorting, t);
    SectionsHomed(maps, sorting, t);
    forall j, i | 0 <= j < |secs| && 0 <= i < |secs[j]| ensures secs[j][i].key != Callback(k) {
      assert Home(secs[j][i].key) == j;
    }
    Unwritten(map[], secs, Callback(k));
  }
}
