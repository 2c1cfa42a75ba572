/** The column filtering generators: generator/configuration/
    ColumnFilteringGenerator and the older generator/ColumnFilteringGenerator
    build one map per shown column for the column filtering extension;
    YadcfConfigGenerator builds one YADCF entry per filterable column. */
module FilteringGenerators {
  import opened Wrappers
  import opened StringUtils
  import opened ConfigValues
  import opened GeneratedConfs
  import Html

  /** The filtering options of one column of the last header row (null is
      None). */
  datatype FilterColumn = FilterColumn(
    displayTypes: seq<Html.DisplayType>, filterable: Option<bool>, filterType: Option<Html.FilterType>,
    selector: Option<string>, filterValues: Option<string>, filterLength: Option<int>)

  /** The column has filtering switched on and a filter type. */
  predicate Filtering(c: FilterColumn) {
    c.filterable == Some(true) && c.filterType.Some?
  }

  // ---- configuration/ColumnFilteringGenerator ----

  /** The name the switch sends for each filter type. */
  function TypeName(ft: Html.FilterType): string {
    match ft
    case INPUT => "text"
    case NUMBER => "number"
    case SELECT => "select"
    case NUMBER_RANGE => "number-range"
  }

  /** The filter type a name stands for, if any. */
  function TypeOfName(s: string): Option<Html.FilterType> {
    if s == "text" then Some(Html.INPUT)
    else if s == "number" then Some(Html.NUMBER)
    else if s == "select" then Some(Html.SELECT)
    else if s == "number-range" then Some(Html.NUMBER_RANGE)
    else None
  }

  /** Each filter type has its own name, none of them "null". */
  lemma TypeNameRoundTrip(ft: Html.FilterType)
    ensures TypeOfName(TypeName(ft)) == Some(ft)
    ensures TypeName(ft) != "null"
  {
    match ft
    case INPUT => assert TypeName(ft) == "text";
    case NUMBER => assert TypeName(ft) == "number";
    case SELECT => assert TypeName(ft) == "select";
    case NUMBER_RANGE => assert TypeName(ft) == "number-range";
  }

  /** Every name a filter type stands for is that type's name. */
  lemma TypeOfNameRoundTrip(s: string)
    ensures TypeOfName(s).Some? ==> TypeName(TypeOfName(s).value) == s
  {
  }

  /** The type sent for a column: the filter type's name when filtering is
      on and a type is set, "null" otherwise. */
  function FilterTypeValue(c: FilterColumn): string {
    if Filtering(c) then TypeName(c.filterType.value) else "null"
  }

  /** The type sent says whether the column is filtered, and how. */
  lemma FilterTypeValueMeaning(c: FilterColumn)
    ensures FilterTypeValue(c) == "null" <==> !Filtering(c)
    ensures Filtering(c) ==> TypeOfName(FilterTypeValue(c)) == c.filterType
  {
    if Filtering(c) {
      TypeNameRoundTrip(c.filterType.value);
    }
  }

  /** The puts of one column's map, in source order. */
  function ColumnPuts(c: FilterColumn): (r: seq<Put<Value>>)
    ensures DistinctKeys(r)
  {
    [ Put(true, Type, Str(FilterTypeValue(c))),
      Put(NotBlank(c.selector), Selector, Str(Text(c.selector))),
      Put(NotBlank(c.filterValues), Values, Snippet(Text(c.filterValues))),
      Put(c.filterLength.Some?, FilterLength, if c.filterLength.Some? then Int(c.filterLength.value) else Null) ]
  }

  function FilterMap(c: FilterColumn): map<Param, Value> {
    Apply(map[], ColumnPuts(c))
  }

  /** A column's map: the type always; the selector and the values (as a
      snippet) when not blank; the length when set. */
  lemma FilterEntries(c: FilterColumn)
    ensures At(FilterMap(c), Type) == Some(Str(FilterTypeValue(c)))
    ensures At(FilterMap(c), Selector) == if NotBlank(c.selector) then Some(Str(c.selector.value)) else None
    ensures At(FilterMap(c), Values) == if NotBlank(c.filterValues) then Some(Snippet(c.filterValues.value)) else None
    ensures At(FilterMap(c), FilterLength) == if c.filterLength.Some? then Some(Int(c.filterLength.value)) else None
  {
    var ps := ColumnPuts(c);
    ApplyAt(map[], ps, 0);
    ApplyAt(map[], ps, 1);
    ApplyAt(map[], ps, 2);
    ApplyAt(map[], ps, 3);
  }

  /** A column's map holds nothing but those four parameters. */
  lemma FilterKeys(c: FilterColumn)
    ensures FilterMap(c).Keys <= {Type, Selector, Values, FilterLength}
  {
    var ps := ColumnPuts(c);
    forall k | k in FilterMap(c) ensures k in {Type, Selector, Values, FilterLength} {
      if k !in {Type, Selector, Values, FilterLength} {
        ApplyUntouched(map[], ps, k);
      }
    }
  }

  /** The column is part of the HTML table (display type ALL or HTML). */
  predicate Shown(c: FilterColumn) {
    InHtml(c.displayTypes)
  }

  /** The maps the column loop collects: one per shown column, in order. */
  function FilterMaps(cols: seq<FilterColumn>): seq<map<Param, Value>> {
    var ix := Positions(cols, Shown);
    seq(|ix|, k requires 0 <= k < |ix| => FilterMap(cols[ix[k]]))
  }

  /** The column loop. */
  method GenerateFilterMaps(cols: seq<FilterColumn>) returns (maps: seq<map<Param, Value>>)
    ensures |maps| == |Positions(cols, Shown)|
    ensures forall k :: 0 <= k < |maps| ==> maps[k] == FilterMap(cols[Positions(cols, Shown)[k]])
  {
    maps := [];
    var n := 0;
    while n < |cols|
      invariant 0 <= n <= |cols|
      invariant |maps| == |Positions(cols[..n], Shown)|
      invariant forall k :: 0 <= k < |maps| ==> maps[k] == FilterMap(cols[Positions(cols[..n], Shown)[k]])
    {
      var prefix := cols[..n + 1];
      assert prefix[..n] == cols[..n];
      assert prefix[n] == cols[n];
      if InHtml(cols[n].displayTypes) {
        maps := maps + [FilterMap(cols[n])];
      }
      n := n + 1;
    }
    assert cols[..n] == cols;
  }

  /** The map generateConfig returns: the placeholder's name when one is
      configured, then the column maps. */
  function FilteringConf(placeholder: Option<string>, cols: seq<FilterColumn>): Conf {
    var m: Conf := if placeholder.Some? then map[Placeholder := Plain(Str(placeholder.value))] else map[];
    m[Columns := Maps(FilterMaps(cols))]
  }

  /** The maps of the loop are FilterMaps. */
  lemma FilterMapsAre(cols: seq<FilterColumn>, maps: seq<map<Param, Value>>)
    requires |maps| == |Positions(cols, Shown)|
    requires forall k :: 0 <= k < |maps| ==> maps[k] == FilterMap(cols[Positions(cols, Shown)[k]])
    ensures maps == FilterMaps(cols)
  {
  }

  /** generateConfig. */
  method GenerateConfig(placeholder: Option<string>, cols: seq<FilterColumn>) returns (conf: Conf)
    ensures conf == FilteringConf(placeholder, cols)
  {
    conf := map[];
    if placeholder.Some? {
      conf := conf[Placeholder := Plain(Str(placeholder.value))];
    }
    var maps := GenerateFilterMaps(cols);
    FilterMapsAre(cols, maps);
    conf := conf[Columns := Maps(maps)];
  }

  /** The columns entry is always there, with one map per shown column;
      the placeholder entry exactly when a placeholder is configured; and
      nothing else. */
  lemma FilteringConfEntries(placeholder: Option<string>, cols: seq<FilterColumn>)
    ensures At(FilteringConf(placeholder, cols), Columns) == Some(Maps(FilterMaps(cols)))
    ensures |FilterMaps(cols)| == |Positions(cols, Shown)|
    ensures At(FilteringConf(placeholder, cols), Placeholder)
              == if placeholder.Some? then Some(Plain(Str(placeholder.value))) else None
    ensures FilteringConf(placeholder, cols).Keys == if placeholder.Some? then {Placeholder, Columns} else {Columns}
  {
  }

  // ---- generator/ColumnFilteringGenerator ----

  /** The older switch: NUMBER_RANGE falls to the default, "text". */
  function LegacyTypeName(ft: Html.FilterType): string {
    match ft
    case INPUT => "text"
    case NUMBER => "number"
    case SELECT => "select"
    case _ => "text"
  }

  /** The older names agree with the newer ones except for NUMBER_RANGE,
      which is sent as a text filter. */
  lemma LegacyTypeNames(ft: Html.FilterType)
    ensures LegacyTypeName(ft) == if ft == Html.NUMBER_RANGE then "text" else TypeName(ft)
    ensures ft != Html.NUMBER_RANGE ==> TypeOfName(LegacyTypeName(ft)) == Some(ft)
  {
    if ft != Html.NUMBER_RANGE {
      TypeNameRoundTrip(ft);
    }
  }

  /** A column's map in the older generator: only the type. */
  function LegacyFilterMap(c: FilterColumn): map<Param, Value> {
    map[Type := Str(if Filtering(c) then LegacyTypeName(c.filterType.value) else "null")]
  }

  /** The older generator keeps the columns whose display types contain
      HTML. */
  predicate HtmlShown(c: FilterColumn) {
    Html.HTML in c.displayTypes
  }

  /** The older generateConfig: the loop over the HTML columns, then the
      map with the columns entry only. */
  method GenerateLegacyConfig(cols: seq<FilterColumn>) returns (conf: Conf)
    ensures conf.Keys == {Columns} && conf[Columns].Maps?
    ensures |conf[Columns].maps| == |Positions(cols, HtmlShown)|
    ensures forall k :: 0 <= k < |conf[Columns].maps| ==> conf[Columns].maps[k] == LegacyFilterMap(cols[Positions(cols, HtmlShown)[k]])
  {
    var maps: seq<map<Param, Value>> := [];
    var n := 0;
    while n < |cols|
      invariant 0 <= n <= |cols|
      invariant |maps| == |Positions(cols[..n], HtmlShown)|
      invariant forall k :: 0 <= k < |maps| ==> maps[k] == LegacyFilterMap(cols[Positions(cols[..n], HtmlShown)[k]])
    {
      var prefix := cols[..n + 1];
      assert prefix[..n] == cols[..n];
      assert prefix[n] == cols[n];
      if Html.HTML in cols[n].displayTypes {
        var tmp: map<Param, Value> := map[];
        if cols[n].filterable.Some? && cols[n].filterable.value && cols[n].filterType.Some? {
          tmp := tmp[Type := Str(LegacyTypeName(cols[n].filterType.value))];
        } else {
          tmp := tmp[Type := Str("null")];
        }
        maps := maps + [tmp];
      }
      n := n + 1;
    }
    assert cols[..n] == cols;
    conf := map[Columns := Maps(maps)];
  }

  // ---- YadcfConfigGenerator ----

  /** The filter_type sent: "select" for SELECT, "text" for INPUT or no
      type; the switch has no case for the other types, which send none. */
  function YadcfType(ft: Option<Html.FilterType>): Option<string> {
    if ft.None? then Some("text")
    else match ft.value
      case INPUT => Some("text")
      case SELECT => Some("select")
      case _ => None
  }

  /** The column gets an entry: shown, with filtering switched on. */
  predicate YadcfFiltered(c: FilterColumn) {
    InHtml(c.displayTypes) && c.filterable == Some(true)
  }

  /** The puts of the entry of the column at position `index`, given the
      table's filter selector and filter delay. */
  function YadcfPuts(c: FilterColumn, index: int, filterSelector: Option<string>, filterDelay: Option<int>): seq<Put<Value>> {
    var ft := YadcfType(c.filterType);
    [ Put(true, ColumnNumber, Int(index)),
      Put(ft.Some?, FilterType, Str(if ft.Some? then ft.value else "")),
      Put(NotBlank(c.selector), FilterContainerId, Str(Text(c.selector))),
      Put(NotBlank(c.filterValues), Data, Snippet(Text(c.filterValues))),
      Put(NotBlank(filterSelector), ExternallyTriggered, Bool(true)),
      Put(filterDelay.Some?, FilterDelay, if filterDelay.Some? then Int(filterDelay.value) else Null) ]
  }

  /** The entry of the column at position `i` among all header columns. */
  function YadcfEntry(cols: seq<FilterColumn>, i: nat, filterSelector: Option<string>, filterDelay: Option<int>): map<Param, Value>
    requires i < |cols|
  {
    Apply(map[], YadcfPuts(cols[i], i, filterSelector, filterDelay))
  }

  /** generateConfig: the loop with its column index, which counts every
      header column; entry `k` is the entry of the `k`-th shown column with
      filtering on. */
  method GenerateYadcf(cols: seq<FilterColumn>, filterSelector: Option<string>, filterDelay: Option<int>)
    returns (retval: seq<map<Param, Value>>)
    ensures |retval| == |Positions(cols, YadcfFiltered)|
    ensures forall k :: 0 <= k < |retval| ==>
              retval[k] == YadcfEntry(cols, Positions(cols, YadcfFiltered)[k], filterSelector, filterDelay)
  {
    retval := [];
    var columnIndex := 0;
    while columnIndex < |cols|
      invariant 0 <= columnIndex <= |cols|
      invariant |retval| == |Positions(cols[..columnIndex], YadcfFiltered)|
      invariant forall k :: 0 <= k < |retval| ==>
        retval[k] == YadcfEntry(cols, Positions(cols[..columnIndex], YadcfFiltered)[k], filterSelector, filterDelay)
    {
      var prefix := cols[..columnIndex + 1];
      assert prefix[..columnIndex] == cols[..columnIndex];
      assert prefix[columnIndex] == cols[columnIndex];
      var c := cols[columnIndex];
      if InHtml(c.displayTypes) && c.filterable == Some(true) {
        retval := retval + [YadcfEntry(cols, columnIndex, filterSelector, filterDelay)];
      }
      columnIndex := columnIndex + 1;
    }
    assert cols[..columnIndex] == cols;
  }

  /** The entry of the column at position `i` among all header columns:
      its column_number is `i`, its filter_type follows YadcfType, the
      selector and values are sent as container id and data when not
      blank, externally_triggered exactly when the table has a filter
      selector and filter_delay exactly when it has a delay. */
  lemma YadcfEntryContents(cols: seq<FilterColumn>, filterSelector: Option<string>, filterDelay: Option<int>, i: nat)
    requires i < |cols|
    ensures var e := YadcfEntry(cols, i, filterSelector, filterDelay);
      At(e, ColumnNumber) == Some(Int(i))
      && At(e, FilterType) == (if YadcfType(cols[i].filterType).Some? then Some(Str(YadcfType(cols[i].filterType).value)) else None)
      && At(e, FilterContainerId) == (if NotBlank(cols[i].selector) then Some(Str(cols[i].selector.value)) else None)
      && At(e, Data) == (if NotBlank(cols[i].filterValues) then Some(Snippet(cols[i].filterValues.value)) else None)
      && At(e, ExternallyTriggered) == (if NotBlank(filterSelector) then Some(Bool(true)) else None)
      && At(e, FilterDelay) == (if filterDelay.Some? then Some(Int(filterDelay.value)) else None)
  {
    var ps := YadcfPuts(cols[i], i, filterSelector, filterDelay);
    assert Keys(ps) == [ColumnNumber, FilterType, FilterContainerId, Data, ExternallyTriggered, FilterDelay];
    DistinctByKeys(ps, [ColumnNumber, FilterType, FilterContainerId, Data, ExternallyTriggered, FilterDelay]);
    ApplyAt(map[], ps, 0);
    ApplyAt(map[], ps, 1);
    ApplyAt(map[], ps, 2);
    ApplyAt(map[], ps, 3);
    ApplyAt(map[], ps, 4);
    ApplyAt(map[], ps, 5);
  }
}
