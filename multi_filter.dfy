/** extension/feature/MultiFilterFeature: one button filters on every
    column filter at once, another clears them. */
module MultiFilter {
  import opened Wrappers
  import opened JavaString
  import StringUtils
  import Javascript
  import Extensions

  /** The scope the feature's assets belong to (DDL_DT_MULTIFILTER). */
  const Scope: string := "ddl-dt-multifilter"

  const NoButton: string :=
    "A filter button must be set in order to make the multi-filter work." +
    " Please use the filterButton/dt:filterButton (JSP/Thymeleaf) table attribute."
  const NoName: string :=
    "All columns must have a name in order to make the multi-filter work." +
    " Please use the name/dt:name (JSP/Thymeleaf) column attribute to assign a name to each column."

  /** checkConfiguration: the filter button's selector must not be blank,
      then every column of the last header row must have a non-blank name.
      `names` are the columns' NAME options in order. */
  method CheckConfiguration(filterSelector: Option<string>, names: seq<Option<string>>) returns (r: Result<()>)
    ensures r.Ok? <==> StringUtils.NotBlank(filterSelector) && forall i :: 0 <= i < |names| ==> StringUtils.NotBlank(names[i])
    ensures !StringUtils.NotBlank(filterSelector) ==> r == Err(ExtensionLoading(NoButton))
    ensures StringUtils.NotBlank(filterSelector) && r.Err? ==> r == Err(ExtensionLoading(NoName))
  {
    if !StringUtils.NotBlank(filterSelector) {
      return Err(ExtensionLoading(NoButton));
    }
    var withoutName: set<Option<string>> := {};
    var i := 0;
    while i < |names|
      invariant 0 <= i <= |names|
      invariant withoutName == {} <==> forall j :: 0 <= j < i ==> StringUtils.NotBlank(names[j])
    {
      if !StringUtils.NotBlank(names[i]) {
        withoutName := withoutName + {names[i]};
      }
      i := i + 1;
    }
    if withoutName != {} {
      return Err(ExtensionLoading(NoName));
    }
    return Ok(());
  }

  /** The selectors of the columns' filter containers, without the blank
      ones (each column's SELECTOR option, in order). */
  method ColumnSelectors(selectors: seq<Option<string>>) returns (s: set<string>)
    ensures forall x :: x in s <==> exists i :: 0 <= i < |selectors| && selectors[i] == Some(x) && StringUtils.NotBlank(Some(x))
  {
    s := {};
    var i := 0;
    while i < |selectors|
      invariant 0 <= i <= |selectors|
      invariant forall x :: x in s <==> exists j :: 0 <= j < i && selectors[j] == Some(x) && StringUtils.NotBlank(Some(x))
    {
      if StringUtils.NotBlank(selectors[i]) {
        s := s + {selectors[i].value};
      }
      i := i + 1;
    }
  }

  /** `$('<selector>').click(`: the start of a handler bound to a button. */
  function Click(selector: string): string {
    "$('" + selector + "').click("
  }

  const FilterStart: string := "function() {\n   var filterParams = {};\n"
  /** The rest of the `$.each` over the column selectors, after the array. */
  const EachSelectorFilter: string :=
    ", function(i, selector){\n" +
    "      $(selector + ' .dandelion_column_filter').each(function (index) {\n" +
    "         if(!$(this).hasClass('search_init') && $(this).val() != ''){\n" +
    "            filterParams[$(this).attr('data-column-name')] = $(this).val();\n" +
    "         }\n" +
    "      });\n" +
    "   });\n"
  /** The rest of the walk over the table's filters, after the table id. */
  const EachTableFilter: string :=
    " .dandelion_column_filter').each(function (index) {;\n" +
    "      if(!$(this).hasClass('search_init') && $(this).val() != ''){\n" +
    "         filterParams[$(this).attr('data-column-name')] = $(this).val();\n" +
    "      }\n" +
    "   });\n"
  const EachSelectorClear: string :=
    ", function(i, selector){\n" +
    "      $(selector + ' .dandelion_column_filter').each(function (index) {\n" +
    "         $(this).val('');\n" +
    "         $(this).trigger('blur');\n" +
    "      });\n" +
    "   });\n"
  const EachTableClear: string :=
    " .dandelion_column_filter').each(function (index) {;\n" +
    "      $(this).val('');\n" +
    "      $(this).trigger('blur');\n" +
    "   });\n"

  /** The statement that filters the table on the collected values. */
  function MultiFilterCall(tableId: string): string {
    "   oTable_" + tableId + ".fnMultiFilter( filterParams );\n"
  }

  /** The statement that clears every column filter of the table. */
  function FilterClearCall(tableId: string): string {
    "   oTable_" + tableId + ".fnFilterClear();\n"
  }

  /** The handler of the filter button. With the NONE placeholder it reads
      the filters found under the column selectors (`arr` is their
      JavaScript array), otherwise the filters inside the table. The text
      is built on `new StringBuilder(NEWLINE)`, which sets a capacity and
      holds nothing, so no newline comes first; only the second form lacks
      the final newline. */
  function FilterHandler(filterSelector: string, tableId: string, placeholderNone: bool, arr: string): string {
    Click(filterSelector) + FilterBody(tableId, placeholderNone, arr)
  }

  function FilterBody(tableId: string, placeholderNone: bool, arr: string): string {
    var collect := if placeholderNone then "   $.each(" + arr + EachSelectorFilter
                   else "   $('#" + tableId + EachTableFilter;
    (FilterStart + collect) + MultiFilterCall(tableId) + (if placeholderNone then "});\n" else "});")
  }

  /** The handler of the clear button: it clears the table's filter and
      empties the filters found under the column selectors (NONE
      placeholder) or inside the table, in that order or the reverse. */
  function ClearHandler(clearSelector: string, tableId: string, placeholderNone: bool, arr: string): string {
    Click(clearSelector) + ClearBody(tableId, placeholderNone, arr)
  }

  function ClearBody(tableId: string, placeholderNone: bool, arr: string): string {
    if placeholderNone then
      "function() {\n" + FilterClearCall(tableId) + ("   $.each(" + arr + EachSelectorClear + "});\n")
    else
      ("function() {\n" + ("   $('#" + tableId + EachTableClear)) + FilterClearCall(tableId) + "});\n"
  }

  /** Each handler is bound to its button and calls the table's filter or
      clear function. */
  lemma HandlersTargetTheirButton(filterSelector: string, clearSelector: string, tableId: string, placeholderNone: bool, arr: string)
    ensures StartsWith(FilterHandler(filterSelector, tableId, placeholderNone, arr), Click(filterSelector))
    ensures StartsWith(ClearHandler(clearSelector, tableId, placeholderNone, arr), Click(clearSelector))
    ensures Contains(FilterHandler(filterSelector, tableId, placeholderNone, arr), MultiFilterCall(tableId))
    ensures Contains(ClearHandler(clearSelector, tableId, placeholderNone, arr), FilterClearCall(tableId))
  {
    PrefixOf(Click(filterSelector), FilterBody(tableId, placeholderNone, arr));
    PrefixOf(Click(clearSelector), ClearBody(tableId, placeholderNone, arr));
    FilterBodyCalls(tableId, placeholderNone, arr);
    ClearBodyCalls(tableId, placeholderNone, arr);
    ContainsPrepend(Click(filterSelector), FilterBody(tableId, placeholderNone, arr), MultiFilterCall(tableId));
    ContainsPrepend(Click(clearSelector), ClearBody(tableId, placeholderNone, arr), FilterClearCall(tableId));
  }

  lemma FilterBodyCalls(tableId: string, placeholderNone: bool, arr: string)
    ensures Contains(FilterBody(tableId, placeholderNone, arr), MultiFilterCall(tableId))
  {
    var collect := if placeholderNone then "   $.each(" + arr + EachSelectorFilter
                   else "   $('#" + tableId + EachTableFilter;
    ContainsAt(FilterStart + collect, MultiFilterCall(tableId), if placeholderNone then "});\n" else "});");
  }

  lemma ClearBodyCalls(tableId: string, placeholderNone: bool, arr: string)
    ensures Contains(ClearBody(tableId, placeholderNone, arr), FilterClearCall(tableId))
  {
    if placeholderNone {
      ContainsAt("function() {\n", FilterClearCall(tableId), "   $.each(" + arr + EachSelectorClear + "});\n");
    } else {
      ContainsAt("function() {\n" + ("   $('#" + tableId + EachTableClear), FilterClearCall(tableId), "});\n");
    }
  }

  /** The handlers the feature appends: the filter handler, then the clear
      handler when a clear button is set. */
  function Handlers(tableId: string, filterSelector: string, clearSelector: Option<string>, placeholderNone: bool,
                    arr: string): (hs: seq<string>)
    ensures |hs| == if StringUtils.NotBlank(clearSelector) then 2 else 1
    ensures hs[0] == FilterHandler(filterSelector, tableId, placeholderNone, arr)
  {
    [FilterHandler(filterSelector, tableId, placeholderNone, arr)] +
    if StringUtils.NotBlank(clearSelector) then [ClearHandler(clearSelector.value, tableId, placeholderNone, arr)] else []
  }

  /** The non-blank column selectors. */
  function Selected(selectors: seq<Option<string>>): set<string> {
    set i | 0 <= i < |selectors| && StringUtils.NotBlank(selectors[i]) :: selectors[i].value
  }

  /** setup: a configuration checkConfiguration refuses changes nothing.
      Otherwise the feature's scope is asked for and the handlers go, in
      order, at the end of the before-end-of-document-ready section. With
      the NONE placeholder the handlers use the arr (`toArray`,
      JavascriptUtils.toArray) of the selected column selectors. */
  method Setup(ext: Extensions.Extension, scopes: Extensions.AssetScopes, tableId: string,
               filterSelector: Option<string>, clearSelector: Option<string>, placeholderNone: bool,
               names: seq<Option<string>>, selectors: seq<Option<string>>, toArray: set<string> -> string)
    returns (r: Result<()>)
    modifies ext, scopes
    ensures r.Ok? <==> StringUtils.NotBlank(filterSelector) && forall i :: 0 <= i < |names| ==> StringUtils.NotBlank(names[i])
    ensures r.Err? ==> unchanged(ext, scopes)
    ensures r.Ok? ==>
              scopes.names == old(scopes.names) + {Scope} &&
              var arr := if placeholderNone then toArray(Selected(selectors)) else "";
              ext.Buffer(Extensions.BeforeEndDocumentReady) ==
                Javascript.ExtendedAll(old(ext.Buffer(Extensions.BeforeEndDocumentReady)),
                                       Handlers(tableId, filterSelector.value, clearSelector, placeholderNone, arr)) &&
              forall s :: s != Extensions.BeforeEndDocumentReady ==> ext.Buffer(s) == old(ext.Buffer(s))
  {
    r := CheckConfiguration(filterSelector, names);
    if r.Err? {
      return;
    }
    scopes.AddScope(Scope);
    var arr := "";
    if placeholderNone {
      var found := ColumnSelectors(selectors);
      assert found == Selected(selectors);
      arr := toArray(found);
    }
    var hs := Handlers(tableId, filterSelector.value, clearSelector, placeholderNone, arr);
    Extensions.AppendAll(ext, Extensions.BeforeEndDocumentReady, hs);
  }

  /** As written, both handlers start with their button's selector and not
      with a newline: NEWLINE is a char, and new StringBuilder(char) only
      sets the builder's capacity. */
  lemma FilterHandlerNoLeadingNewline(filterSelector: string, clearSelector: string, tableId: string,
                                      placeholderNone: bool, arr: string)
    ensures FilterHandler(filterSelector, tableId, placeholderNone, arr)[0] == '$'
    ensures ClearHandler(clearSelector, tableId, placeholderNone, arr)[0] == '$'
  {
  }

  /** The filter handler as meant: a builder holding NEWLINE, then the
      statement. */
  function FilterHandlerIntended(filterSelector: string, tableId: string, placeholderNone: bool, arr: string): (h: string)
    ensures |h| > 0 && h[0] == '\n' && h[1..] == FilterHandler(filterSelector, tableId, placeholderNone, arr)
  {
    "\n" + FilterHandler(filterSelector, tableId, placeholderNone, arr)
  }

  /** The clear handler as meant, likewise. */
  function ClearHandlerIntended(clearSelector: string, tableId: string, placeholderNone: bool, arr: string): (h: string)
    ensures |h| > 0 && h[0] == '\n' && h[1..] == ClearHandler(clearSelector, tableId, placeholderNone, arr)
  {
    "\n" + ClearHandler(clearSelector, tableId, placeholderNone, arr)
  }

  /** The handlers as meant: each is the written one on a line of its own. */
  function HandlersIntended(tableId: string, filterSelector: string, clearSelector: Option<string>, placeholderNone: bool,
                            arr: string): (hs: seq<string>)
    ensures var written := Handlers(tableId, filterSelector, clearSelector, placeholderNone, arr);
            |hs| == |written| && forall i :: 0 <= i < |hs| ==> hs[i] == "\n" + written[i]
  {
    [FilterHandlerIntended(filterSelector, tableId, placeholderNone, arr)] +
    if StringUtils.NotBlank(clearSelector) then [ClearHandlerIntended(clearSelector.value, tableId, placeholderNone, arr)] else []
  }

  /** As written, without the NONE placeholder the filter handler ends with
      "});" and the clear handler follows on the same line; as meant, the
      clear handler starts on a new line. */
  lemma ClearHandlerSharesLine(tableId: string, filterSelector: string, clearSelector: string, arr: string)
    requires StringUtils.NotBlank(Some(clearSelector))
    ensures var written := Handlers(tableId, filterSelector, Some(clearSelector), false, arr);
            var joined := written[0] + written[1];
            joined[|written[0]| - 1] == ';' && joined[|written[0]|] == '$'
    ensures var meant := HandlersIntended(tableId, filterSelector, Some(clearSelector), false, arr);
            (meant[0] + meant[1])[|meant[0]|] == '\n'
  {
  }
}
