# A Dafny model of the Dandelion-Datatables core

This project models the core of Dandelion-Datatables, a Java library that
renders HTML tables and configures the DataTables jQuery plugin for them.
The model covers these parts of the library:

- **Server-side requests.** The request parser (`DatatablesCriterias`) reads
  the paging, search and per-column parameters of a draw. The URL helpers
  (`UrlUtils`) build the current URI and the export URLs.
- **Table markup.** The HTML objects (`HtmlTag`, `HtmlColumn`, `HtmlRow`,
  `HtmlTable`) serialise a table; the table's class and style are options of
  its table configuration. The older `model/HtmlColumn` is covered too.
- **JavaScript assembly.** This covers `JsResource`,
  `StandardJavascriptGenerator` and the jQuery generator. It also covers how
  the extension processor and the extension loader inject extensions into the
  main file. Extension parameters are merged into the configuration map with
  the OVERRIDE, APPEND and PREPEND modes and their WITH_SPACE variants.
- **Configuration.** This covers the two generations of it:
  - the option registry (`Option`, `DatatableOptions`) and its processors;
  - the per-table configuration (`option/TableConfiguration`);
  - the configuration loader and its groups;
  - the legacy tokens (`ConfigToken`, `TableConfig`);
  - the legacy processors (`AbstractConfigurationProcessor`);
  - the legacy `TableConfiguration` and `TableProperties`.
- **Features and plugins.** The model covers the export links and
  configurations (`ExportFeature`, `ExportConf`), the multi-filter feature and
  the FixedHeader plugin.
- **Configuration generators.** This covers `DatatableConfigGenerator`,
  `DatatablesGenerator`, `MainGenerator`, the two column-filtering generators
  and the YADCF generator. It includes the initial sort, which is collected in
  a `TreeMap` keyed by sort order, and the i18n message grouping.
- **Pagination.** The `bootstrap_four_button` pagination control computes
  its page window.

**How Java is modelled**

- Java `null` is `Option.None`.
- An exception is a `Result.Err` that names the exception.
- Objects the code updates in place are classes. Their `seq`/`map` fields are
  reassigned by methods with `modifies` clauses.
- Configuration maps are `ConfigMap` objects, so aliasing between a table and
  its clone stays visible.
- Each loop of the source is a method. Its loop invariants prove it against a
  specification function, and lemmas state the properties of that function.
- The parts of `java.lang.String`, `Integer` and `Boolean` that the code
  relies on are written out in `JavaString`:
  - `split` drops trailing empty strings;
  - `parseInt` enforces the 32-bit range;
  - `trim` strips characters up to `' '`;
  - `toLowerCase` is modelled for ASCII only.

**Where code and tests disagree**

The model follows the code. In each case below, the code and its unit tests
disagree:

- `MainGeneratorTest.java` expects a configurable `dom` and callbacks sent as
  `JavascriptFunction`s. `MainGenerator.java:200-206` sends callbacks as
  snippets and always writes `"lfrtip"`.
- `DatatablesCriteriasTest.java:92-102` expects one column definition for a
  request with only `columns[0][data]`. The code counts none (Criterias.SingleColumnIsDropped
  under "Findings").
- `HtmlRowTest.java:57-60` expects `addColumn("ColumnContent")` to render a
  `td`. A column built that way has the display type ALL only, and `HtmlRow`
  renders only columns whose types contain HTML (Html.DefaultColumnsShown
  under "Findings").
- `DatatablesCriteriasTest.java:169` expects the first column definition to be
  sorted. `DatatablesCriterias.java:203-221` never calls `ColumnDef.setSorted`,
  so every definition stays unsorted (Criterias.SortedFlagNeverSet).

## Model

| member | source | states |
|---|---|---|
| Pagination.CeilDiv | datatables-core/src/main/resources/datatables/features/paginationType/bootstrap_four_button.js:9-10 | the result is the ceiling of a / b: the least q with a <= q * b for a positive divisor (and the mirrored bound for a negative one) |
| Pagination.FnPagingInfo | datatables-core/src/main/resources/datatables/features/paginationType/bootstrap_four_button.js:2-12 | start and length are copied from the settings; the current page is ceil(start / length) and the page count ceil(filtered records / length), each stated as its two bounds |
| Pagination.WindowProperties | datatables-core/src/main/resources/datatables/features/paginationType/bootstrap_four_button.js:45-59 | fewer than 5 pages: the window is exactly 1..totalPages; otherwise 5 consecutive numbers inside 1..totalPages, starting at 1 when page <= 2, ending at totalPages when page >= totalPages - 2, else starting at page - 1; the current page (page + 1) is always inside the window |
| Pagination.PageItems | datatables-core/src/main/resources/datatables/features/paginationType/bootstrap_four_button.js:66-68 | one item per number from..to, the k-th numbered from + k, active exactly when its number is page + 1 |
| Pagination.UpdatedProperties | datatables-core/src/main/resources/datatables/features/paginationType/bootstrap_four_button.js:61-93 | after an update the four navigation items stay at the ends with their labels; First/Previous are disabled iff page is 0, Next/Last iff on the last page or there are no pages; between them are the window's numbers in order, exactly the current one active; updating again changes nothing |
| Pagination.PagingList.constructor | datatables-core/src/main/resources/datatables/features/paginationType/bootstrap_four_button.js:26-33 | the list holds the four disabled navigation items labelled «First, ‹Previous, Next›, Last» from the language settings |
| Pagination.PagingList.Update | datatables-core/src/main/resources/datatables/features/paginationType/bootstrap_four_button.js:62-92 | removing the middle items, inserting each page item before the second-to-last one and setting the flags leaves exactly Updated(old items, info) |
| Pagination.UpdateTwice | datatables-core/src/main/resources/datatables/features/paginationType/bootstrap_four_button.js:61-93 | updating a list twice with the same paging information gives the same list as updating it once |
| Pagination.FnUpdate | datatables-core/src/main/resources/datatables/features/paginationType/bootstrap_four_button.js:41-94 | every paging list of the table is updated from fnPagingInfo of the settings (a list given twice ends as after one update) |
| Pagination.PageClick | datatables-core/src/main/resources/datatables/features/paginationType/bootstrap_four_button.js:70-74 | clicking page item j sets the display start to (j - 1) * length and changes nothing else |
| Pagination.PageClickSelectsPage | datatables-core/src/main/resources/datatables/features/paginationType/bootstrap_four_button.js:72 | after clicking item j the current page is j - 1, so the next update marks item j active |
| Pagination.HostPageChange | datatables-core/src/main/resources/datatables/features/paginationType/bootstrap_four_button.js:21 | the host library's page change for the four button actions moves only the display start, and reports a change exactly when the start moved |
| Pagination.NavClick | datatables-core/src/main/resources/datatables/features/paginationType/bootstrap_four_button.js:19-24 | a click changes only the display start and redraws exactly when the start moved; on the first record First and Previous change nothing, and Next changes nothing when no record follows the current page |
| Pagination.NavClickFollowsDisabledFlags | datatables-core/src/main/resources/datatables/features/paginationType/bootstrap_four_button.js:2-24 | on a page-aligned start, clicking First or Previous redraws exactly when those items are not disabled, and Next or Last exactly when theirs are not; the new page is the first, the one before (not below 0), the one after (not past the last) or the last, and the table redraws exactly when the page changes
| Criterias.GroupsFrom | datatables-core/src/main/java/com/github/dandelion/datatables/core/ajax/DatatablesCriterias.java:66 | every group the pattern columns[(digits)] captures is a run of ASCII digits |
| Criterias.AllGroups | datatables-core/src/main/java/com/github/dandelion/datatables/core/ajax/DatatablesCriterias.java:228-231 | the groups of all parameter names are runs of ASCII digits |
| Criterias.MaxParsed | datatables-core/src/main/java/com/github/dandelion/datatables/core/ajax/DatatablesCriterias.java:231-236 | a successful result is never below the starting value |
| Criterias.MaxParsedMeaning | datatables-core/src/main/java/com/github/dandelion/datatables/core/ajax/DatatablesCriterias.java:231-236 | the search fails exactly when some group does not parse, with that group's NumberFormatException; otherwise it yields the largest of the start value and every parsed group, and that largest value is the start or one of the groups |
| Criterias.ColumnNumberMeaning | datatables-core/src/main/java/com/github/dandelion/datatables/core/ajax/DatatablesCriterias.java:225-243 | the count fails exactly when a group does not parse ("columns[]" or an index beyond 32 bits); a positive count is the largest index plus one, above every index; a count of 0 means every index found is 0 |
| Criterias.IntendedColumnNumber | datatables-core/src/main/java/com/github/dandelion/datatables/core/ajax/DatatablesCriterias.java:239-242 | the intended count fails exactly when the written one does, is positive exactly when some index was found, bounds every index and is the largest plus one; it differs from the written count only by giving 1 where that gives 0 |
| Criterias.SingleColumnIsDropped | datatables-core/src/main/java/com/github/dandelion/datatables/core/ajax/DatatablesCriterias.java:239-242 | with only columns[0][data] the written count is 0 and the intended one is 1 |
| Criterias.FindFromGroups | datatables-core/src/main/java/com/github/dandelion/datatables/core/ajax/DatatablesCriterias.java:230-236 | scanning one name with Matcher.find step by step gives the same result as folding over its groups |
| Criterias.ScanNamesGroups | datatables-core/src/main/java/com/github/dandelion/datatables/core/ajax/DatatablesCriterias.java:228-237 | scanning every name in enumeration order equals folding over all their groups |
| Criterias.GetColumnNumber | datatables-core/src/main/java/com/github/dandelion/datatables/core/ajax/DatatablesCriterias.java:225-243 | the loop over names and matches returns exactly the column count of the parameter names |
| Criterias.SplitSearch | datatables-core/src/main/java/com/github/dandelion/datatables/core/ajax/DatatablesCriterias.java:179-197 | the intended split agrees with the split as written wherever that succeeds |
| Criterias.SplitSearchFailure | datatables-core/src/main/java/com/github/dandelion/datatables/core/ajax/DatatablesCriterias.java:181-186 | the split as written fails exactly on terms of two or more "~" only |
| Criterias.LeadingTildeSplit | datatables-core/src/main/java/com/github/dandelion/datatables/core/ajax/DatatablesCriterias.java:181-186 | after a leading "~" the split has a second piece exactly when some character is not "~" |
| Criterias.DoubleTildeFails | datatables-core/src/main/java/com/github/dandelion/datatables/core/ajax/DatatablesCriterias.java:185-186 | "~~" raises ArrayIndexOutOfBoundsException(1) as written; the intended split treats it as "~" (an empty search) |
| Criterias.SplitSearchIntended | datatables-core/src/main/java/com/github/dandelion/datatables/core/ajax/DatatablesCriterias.java:179-197 | the intended split never fails, agrees with the written one where that succeeds, and maps every all-"~" term to the empty search |
| Criterias.SplitPlainTerm | datatables-core/src/main/java/com/github/dandelion/datatables/core/ajax/DatatablesCriterias.java:195-196 | a term without "~" is a plain search |
| Criterias.SplitLowerBound | datatables-core/src/main/java/com/github/dandelion/datatables/core/ajax/DatatablesCriterias.java:188-189 | "from~" sets only the lower bound |
| Criterias.SplitUpperBound | datatables-core/src/main/java/com/github/dandelion/datatables/core/ajax/DatatablesCriterias.java:185-186 | "~to" sets only the upper bound |
| Criterias.SplitRange | datatables-core/src/main/java/com/github/dandelion/datatables/core/ajax/DatatablesCriterias.java:191-193 | "from~to" sets both bounds |
| Criterias.Columns | datatables-core/src/main/java/com/github/dandelion/datatables/core/ajax/DatatablesCriterias.java:168-201 | a successful result has one definition per index 0..n-1, the i-th being column i's definition |
| Criterias.ColumnDefinition | datatables-core/src/main/java/com/github/dandelion/datatables/core/ajax/DatatablesCriterias.java:170-200 | column i takes its name from [data], its flags from Boolean.parseBoolean of [searchable] and [orderable], its regex from [search][regex]; it is filtered exactly when the term is not blank, and then carries the split of the term; it fails exactly on a term of two or more "~" |
| Criterias.TildeOnlyColumn | datatables-core/src/main/java/com/github/dandelion/datatables/core/ajax/DatatablesCriterias.java:179-184 | a column searched with "~" is filtered, yet its empty search value does not count as filtered for hasOneFilteredColumn |
| Criterias.SortingFacts | datatables-core/src/main/java/com/github/dandelion/datatables/core/ajax/DatatablesCriterias.java:206-220 | sorting only changes directions: each column's direction is the one the last order entry naming it gives; the sorting list holds the requested indexes in order, each a valid column |
| Criterias.SortStepFacts | datatables-core/src/main/java/com/github/dandelion/datatables/core/ajax/DatatablesCriterias.java:207-219 | one order entry changes only the direction of the column it names (when a valid direction is given) and appends its index to the sorting list |
| Criterias.GetFromRequest | datatables-core/src/main/java/com/github/dandelion/datatables/core/ajax/DatatablesCriterias.java:149-223 | the method returns exactly FromRequest(request) |
| Criterias.BuildColumnDefs | datatables-core/src/main/java/com/github/dandelion/datatables/core/ajax/DatatablesCriterias.java:166-201 | the first loop yields exactly Columns(request, columnNumber), stopping at the first failing column |
| Criterias.BuildSorting | datatables-core/src/main/java/com/github/dandelion/datatables/core/ajax/DatatablesCriterias.java:204-220 | the second loop yields exactly Sorting(request, columnNumber, defs), stopping at the first failure |
| Criterias.ParseIntParameter | datatables-core/src/main/java/com/github/dandelion/datatables/core/ajax/DatatablesCriterias.java:161-163 | a blank parameter gives -1, any other is Integer.parseInt of it |
| Criterias.CriteriasOfRequest | datatables-core/src/main/java/com/github/dandelion/datatables/core/ajax/DatatablesCriterias.java:149-223 | a null request is an IllegalArgumentException; a parsed result carries the global search, draw/start/length as parsed, one definition per column in index order with the direction of the last order entry naming it, and the requested sort indexes in order |
| Criterias.EmptyRequest | datatables-core/src/main/java/com/github/dandelion/datatables/core/ajax/DatatablesCriterias.java:149-223 | a request without parameters gives no search, -1 for draw, start and length, and no columns |
| Criterias.BlankParameterIsMinusOne | datatables-core/src/main/java/com/github/dandelion/datatables/core/ajax/DatatablesCriterias.java:161-163 | a blank paging parameter gives -1 |
| Criterias.HasOneFilterableColumn | datatables-core/src/main/java/com/github/dandelion/datatables/core/ajax/DatatablesCriterias.java:111-118 | true exactly when some column definition is filterable |
| Criterias.HasOneFilteredColumn | datatables-core/src/main/java/com/github/dandelion/datatables/core/ajax/DatatablesCriterias.java:123-131 | true exactly when some column has a non-blank search, lower bound or upper bound |
| Criterias.SortedColumnOfRequest | datatables-core/src/main/java/com/github/dandelion/datatables/core/ajax/DatatablesCriterias.java:136-138 | the parsed criteria have a sorted column exactly when some order[i] below the column count names a column |
| Criterias.SortedFlagNeverSet | datatables-core/src/main/java/com/github/dandelion/datatables/core/ajax/DatatablesCriterias.java:203-221 | every column definition getFromRequest returns has its sorted flag false |
| StringUtils.IsBlank | datatables-core/src/main/java/com/github/dandelion/datatables/core/util/StringUtils.java:30-41 | true exactly for null, the empty string, or a string whose every character is whitespace |
| StringUtils.IsNotBlank | datatables-core/src/main/java/com/github/dandelion/datatables/core/util/StringUtils.java:62-64 | true exactly for a non-null string with some non-whitespace character |
| StringUtils.HasLengthVersusBlank | datatables-core/src/main/java/com/github/dandelion/datatables/core/util/StringUtils.java:264-277 | a string without length is blank, a non-blank one has length, and " " has length yet is blank |
| StringUtils.Capitalize | datatables-core/src/main/java/com/github/dandelion/datatables/core/util/StringUtils.java:91-100 | null stays null; the length is kept, the first character is upper-cased and the rest is unchanged |
| StringUtils.Uncapitalize | datatables-core/src/main/java/com/github/dandelion/datatables/core/util/StringUtils.java:128-139 | null stays null; the length is kept, the first character is lower-cased and the rest is unchanged |
| StringUtils.CapitalizeLaws | datatables-core/src/main/java/com/github/dandelion/datatables/core/util/StringUtils.java:91-139 | capitalize and uncapitalize are idempotent, uncapitalize undoes capitalize on a string starting in lower case, and "" is a fixed point of both |
| StringUtils.Join | datatables-core/src/main/java/com/github/dandelion/datatables/core/util/StringUtils.java:144-169 | both joins return the elements (null as "null") in order with the separator between each pair |
| StringUtils.JoinedLength | datatables-core/src/main/java/com/github/dandelion/datatables/core/util/StringUtils.java:144-155 | the joined text has the elements' total length plus n - 1 separators |
| StringUtils.JoinedThenPieces | datatables-core/src/main/java/com/github/dandelion/datatables/core/util/StringUtils.java:144-155 | with a one-character separator no element contains, splitting the joined text on it gives the elements back |
| StringUtils.ContainsAny | datatables-core/src/main/java/com/github/dandelion/datatables/core/util/StringUtils.java:213-225 | a null string raises NullPointerException; otherwise true exactly when some character of the string is among the search characters |
| StringUtils.WithoutWhitespace | datatables-core/src/main/java/com/github/dandelion/datatables/core/util/StringUtils.java:234-249 | the result is no longer than the input and holds no whitespace |
| StringUtils.WithoutWhitespaceIdempotent | datatables-core/src/main/java/com/github/dandelion/datatables/core/util/StringUtils.java:234-249 | removing whitespace twice is removing it once |
| StringUtils.TrimAllWhitespace | datatables-core/src/main/java/com/github/dandelion/datatables/core/util/StringUtils.java:234-249 | null and "" come back unchanged; any other string loses exactly its whitespace characters, the others keeping their order |
| UrlUtils.Separator | datatables-core/src/main/java/com/github/dandelion/datatables/core/util/UrlUtils.java:139-143 | "?" exactly when the URL has no "?" yet, otherwise "&" |
| UrlUtils.WithParameter | datatables-core/src/main/java/com/github/dandelion/datatables/core/util/UrlUtils.java:138-146 | the URL is kept as a prefix, followed by the separator, the name, "=" and the encoded value; the result contains "?" |
| UrlUtils.UrlBuilder.constructor | datatables-core/src/main/java/com/github/dandelion/datatables/core/util/UrlUtils.java:67 | a builder starts with the given text |
| UrlUtils.UrlBuilder.AddParameter | datatables-core/src/main/java/com/github/dandelion/datatables/core/util/UrlUtils.java:138-146 | the builder's text becomes WithParameter of its old text |
| UrlUtils.CurrentPath | datatables-core/src/main/java/com/github/dandelion/datatables/core/util/UrlUtils.java:70-76 | the forward URI attribute, else the include URI attribute, else the request URI |
| UrlUtils.CurrentQuery | datatables-core/src/main/java/com/github/dandelion/datatables/core/util/UrlUtils.java:79-83 | "?" and the forward query string attribute, else "?" and the request's query string, else nothing |
| UrlUtils.GetCurrentUri | datatables-core/src/main/java/com/github/dandelion/datatables/core/util/UrlUtils.java:65-86 | a fresh builder holding the path and then the query |
| UrlUtils.CurrentUriShape | datatables-core/src/main/java/com/github/dandelion/datatables/core/util/UrlUtils.java:65-86 | without attributes or query the current URI is the request URI; with any query it carries "?", so later parameters are joined with "&" |
| UrlUtils.ProcessedUrl | datatables-core/src/main/java/com/github/dandelion/datatables/core/util/UrlUtils.java:88-104 | a context-relative URL gets the context path in front, a server-relative one loses its "~", anything else is kept (before encodeURL) |
| UrlUtils.UrlKinds | datatables-core/src/main/java/com/github/dandelion/datatables/core/util/UrlUtils.java:110-120 | no URL is both context- and server-relative; a "//" URL is absolute and kept; a server-relative URL loses one character |
| UrlUtils.AbsoluteIgnoresCase | datatables-core/src/main/java/com/github/dandelion/datatables/core/util/UrlUtils.java:110-112 | whether a URL is absolute does not depend on the case of its letters |
| UrlUtils.GetExportUrl | datatables-core/src/main/java/com/github/dandelion/datatables/core/util/UrlUtils.java:122-130 | the current URI with the export type, table id and asset-filter state added, passed through encodeURL when there is a response |
| UrlUtils.ExportUrlOrder | datatables-core/src/main/java/com/github/dandelion/datatables/core/util/UrlUtils.java:122-130 | the three parameters follow the current URI in order, the first joined with "?" unless the URI has a query, the others with "&" |
| UrlUtils.CustomExportUrl | datatables-core/src/main/java/com/github/dandelion/datatables/core/util/UrlUtils.java:132-136 | the custom URL stays a prefix and gains a "?"; without an existing query it is the URL, "?" and the asset-filter state |
| UrlUtils.TableBeingExportedIgnoresCase | datatables-core/src/main/java/com/github/dandelion/datatables/core/util/UrlUtils.java:162-166 | the answer ignores the case of the table id, is true when the export-id attribute equals the id and false without that attribute |
| Html.WriteAttributeShape | datatables-core/src/main/java/com/github/dandelion/datatables/core/html/HtmlTag.java:91-101 | a null value writes nothing; otherwise exactly a space, the name, '="', the value and a closing quote, so the value can be read back |
| Html.AttributeOrder | datatables-core/src/main/java/com/github/dandelion/datatables/core/html/HtmlTag.java:83-89 | absent attributes are skipped and present ones keep the order id, class, style |
| Html.Appended | datatables-core/src/main/java/com/github/dandelion/datatables/core/html/HtmlTag.java:139-155 | the first value is stored as it is, a later one after the separator; the buffer always ends with the value added |
| Html.AccumulatedJoins | datatables-core/src/main/java/com/github/dandelion/datatables/core/html/HtmlTag.java:139-155 | adding values one by one leaves nothing only for no values, otherwise their join with the separator; when no value holds the separator, splitting the buffer gives the values back |
| Html.HtmlColumn.constructor | datatables-core/src/main/java/com/github/dandelion/datatables/core/html/HtmlColumn.java:73-76 | a body cell with the defaults of init(), no attributes or content, enabled for ALL |
| Html.HtmlColumn.OfDisplayType | datatables-core/src/main/java/com/github/dandelion/datatables/core/html/HtmlColumn.java:78-83 | a body cell with the defaults, enabled for exactly the given display type |
| Html.HtmlColumn.WithContent | datatables-core/src/main/java/com/github/dandelion/datatables/core/html/HtmlColumn.java:85-99 | a cell of the given kind (th for a header, td otherwise) with the defaults, enabled for ALL, holding the content when it is not null |
| Html.HtmlColumn.GetCssCellClass | datatables-core/src/main/java/com/github/dandelion/datatables/core/html/HtmlColumn.java:145-147 | as written the getter answers the header class cssClass |
| Html.HtmlColumn.GetCssCellClassIntended | datatables-core/src/main/java/com/github/dandelion/datatables/core/html/HtmlColumn.java:145-147 | the getter the name promises answers the body-cell class |
| Html.HtmlColumn.AddCssClass | datatables-core/src/main/java/com/github/dandelion/datatables/core/html/HtmlTag.java:139-146 | the header class buffer gets the value appended after a space (or holds it alone); nothing else changes |
| Html.HtmlColumn.AddCssStyle | datatables-core/src/main/java/com/github/dandelion/datatables/core/html/HtmlTag.java:148-155 | the header style buffer gets the value appended after ';' (or holds it alone); nothing else changes |
| Html.HtmlColumn.AddCssCellClass | datatables-core/src/main/java/com/github/dandelion/datatables/core/html/HtmlColumn.java:161-168 | the cell class buffer gets the value appended after a space (or holds it alone); nothing else changes |
| Html.HtmlColumn.AddCssCellStyle | datatables-core/src/main/java/com/github/dandelion/datatables/core/html/HtmlColumn.java:170-177 | the cell style buffer gets the value appended after ';' (or holds it alone); nothing else changes |
| Html.CellMarkup | datatables-core/src/main/java/com/github/dandelion/datatables/core/html/HtmlColumn.java:119-131 | a header cell is a th styled by cssClass/cssStyle, a body cell a td styled by its cell class and style, each regardless of the other pair |
| Html.CellClassGetterMismatch | datatables-core/src/main/java/com/github/dandelion/datatables/core/html/HtmlColumn.java:145-147 | on a fresh cell given the cell class "a", the getter as written answers null while the intended one answers "a" |
| Html.HtmlColumnsOf | datatables-core/src/main/java/com/github/dandelion/datatables/core/html/HtmlRow.java:74-78 | the selected columns are exactly those of the row enabled for HTML |
| Html.ColumnsHtmlFilters | datatables-core/src/main/java/com/github/dandelion/datatables/core/html/HtmlRow.java:72-80 | a row renders exactly the markups of its HTML-enabled columns, in insertion order |
| Html.DefaultColumnsShown | datatables-core/src/main/java/com/github/dandelion/datatables/core/html/HtmlRow.java:72-80 | columns built with the default display type [ALL] are all rendered by the intended rendering, and none as written |
| Html.HeaderColumnsOf | datatables-core/src/main/java/com/github/dandelion/datatables/core/html/HtmlRow.java:119-127 | the selected columns are exactly the header columns of the row |
| Html.HtmlRow.constructor | datatables-core/src/main/java/com/github/dandelion/datatables/core/html/HtmlRow.java:51-53 | a tr without id, class, style or columns |
| Html.HtmlRow.WithId | datatables-core/src/main/java/com/github/dandelion/datatables/core/html/HtmlRow.java:55-58 | a tr with the given id and no columns |
| Html.HtmlRow.GetHtmlColumns | datatables-core/src/main/java/com/github/dandelion/datatables/core/html/HtmlRow.java:72-80 | the loop returns the markups of the HTML-enabled columns in order |
| Html.HtmlRow.ToHtml | datatables-core/src/main/java/com/github/dandelion/datatables/core/html/HtmlRow.java:64-70 | opening tag, the shown columns, closing tag |
| Html.HtmlRow.LastColumn | datatables-core/src/main/java/com/github/dandelion/datatables/core/html/HtmlRow.java:136-138 | fails exactly on a row without columns, otherwise a column of the row |
| Html.HtmlRow.AddColumn | datatables-core/src/main/java/com/github/dandelion/datatables/core/html/HtmlRow.java:90-104 | the given column is appended and returned and becomes the last column; the row's own attributes are unchanged |
| Html.HtmlRow.AddColumnWithContent | datatables-core/src/main/java/com/github/dandelion/datatables/core/html/HtmlRow.java:95-110 | a new column of the requested kind holding the content, with the defaults, is appended, returned and becomes the last column |
| Html.HtmlRow.AddColumns | datatables-core/src/main/java/com/github/dandelion/datatables/core/html/HtmlRow.java:112-134 | one new column per content, in argument order, after the existing columns, which are kept; the row itself is returned |
| Html.HtmlRow.GetHeaderColumns | datatables-core/src/main/java/com/github/dandelion/datatables/core/html/HtmlRow.java:119-127 | the loop returns exactly the header columns, in order |
| Html.ProcessId | datatables-core/src/main/java/com/github/dandelion/datatables/core/html/HtmlTable.java:242-244 | only ASCII letters, digits and spaces remain, and every such character of the id is kept |
| Html.ProcessIdKeepsClean | datatables-core/src/main/java/com/github/dandelion/datatables/core/html/HtmlTable.java:242-244 | an id made only of allowed characters is kept |
| Html.ProcessIdIdempotent | datatables-core/src/main/java/com/github/dandelion/datatables/core/html/HtmlTable.java:242-244 | processing an id twice is processing it once |
| Html.RowsHtmlAppend | datatables-core/src/main/java/com/github/dandelion/datatables/core/html/HtmlTable.java:102-104 | the markup of appended row lists is the concatenation of their markups |
| Html.NonEmptyRowsHtml | datatables-core/src/main/java/com/github/dandelion/datatables/core/html/HtmlTable.java:111-117 | nothing exactly when there are no rows |
| Html.RowsMarkup | datatables-core/src/main/java/com/github/dandelion/datatables/core/html/HtmlTable.java:102-130 | the loop over rows returns every row's markup, in order |
| HtmlTables.HtmlTable.constructor | datatables-core/src/main/java/com/github/dandelion/datatables/core/html/HtmlTable.java:76-83 | a table tag whose id is the processed id and whose original id is kept, with no caption or rows, holding the table configuration built for it |
| HtmlTables.HtmlTable.ToHtml | datatables-core/src/main/java/com/github/dandelion/datatables/core/html/HtmlTable.java:85-140 | the opening tag with the id and the configuration's CSS class and style options, the caption, a thead holding every head row, a tbody and a tfoot only when they have rows, and the closing tag |
| HtmlTables.ConfiguredClassWritten | datatables-core/src/main/java/com/github/dandelion/datatables/core/html/HtmlTable.java:134-140 | the markup starts with the opening tag; with a CSS class option its attributes start with the id and then that option's text as the class, without one there is no class attribute |
| HtmlTables.HtmlTable.AddHeaderRow | datatables-core/src/main/java/com/github/dandelion/datatables/core/html/HtmlTable.java:158-162 | a fresh empty row appended to the head, which becomes the last head row; body, foot, attributes and configuration unchanged |
| HtmlTables.HtmlTable.AddRow | datatables-core/src/main/java/com/github/dandelion/datatables/core/html/HtmlTable.java:164-180 | a fresh row with the given id appended to the body, which becomes the last body row; head, foot, attributes and configuration unchanged |
| HtmlTables.HtmlTable.AddFooterRow | datatables-core/src/main/java/com/github/dandelion/datatables/core/html/HtmlTable.java:170-174 | a fresh empty row appended to the foot, which becomes the last foot row |
| HtmlTables.HtmlTable.AddRows | datatables-core/src/main/java/com/github/dandelion/datatables/core/html/HtmlTable.java:182-187 | the given rows are appended to the body in order and the table is returned |
| HtmlTables.HtmlTable.LastOf | datatables-core/src/main/java/com/github/dandelion/datatables/core/html/HtmlTable.java:189-203 | fails exactly on an empty list (LinkedList.getLast), otherwise its last row |
| HtmlTables.HtmlTable.FirstHeaderRow | datatables-core/src/main/java/com/github/dandelion/datatables/core/html/HtmlTable.java:193-195 | fails exactly on an empty head, otherwise its first row |
| HtmlTables.HtmlTable.AddCssClass | datatables-core/src/main/java/com/github/dandelion/datatables/core/html/HtmlTable.java:216-224 | the configuration's CSS class option gets the value, after a space when it was already set; a missing options map is dereferenced, and an entry that is not a builder fails the cast; no other option changes |
| HtmlTables.HtmlTable.AddCssStyle | datatables-core/src/main/java/com/github/dandelion/datatables/core/html/HtmlTable.java:205-214 | the configuration's CSS style option gets the value, after ';' when it was already set, failing like AddCssClass |
| HtmlTables.AddedClassJoinsConfigured | datatables-core/src/main/java/com/github/dandelion/datatables/core/html/HtmlTable.java:216-224 | a class option the group configured as a builder (or left unset) is kept: the written class is the old text, a space and the value, and every other option stays |
| HtmlTables.AddedClassOnTextFails | datatables-core/src/main/java/com/github/dandelion/datatables/core/html/HtmlTable.java:216-224 | a class option holding plain text makes addCssClass fail with a ClassCastException |
| Html.TableSections | datatables-core/src/main/java/com/github/dandelion/datatables/core/html/HtmlTable.java:85-132 | the markup starts with opening tag, caption and thead and ends with the closing tag; without body and foot rows it is exactly those; a tbody appears when there are body rows and a tfoot right before the closing tag when there are foot rows |
| LegacyModel.DefaultsEnableEveryFormat | datatables-core/src/main/java/com/github/dandelion/datatables/core/model/HtmlColumn.java:91-107 | a column with the init() defaults, which every constructor gives, is enabled for every display type and lists each of them once |
| LegacyModel.HtmlColumn.constructor | datatables-core/src/main/java/com/github/dandelion/datatables/core/model/HtmlColumn.java:72-75 | a body cell with the init defaults, no styles and no content |
| LegacyModel.HtmlColumn.Header | datatables-core/src/main/java/com/github/dandelion/datatables/core/model/HtmlColumn.java:77-80 | a cell of the given kind with the init defaults |
| LegacyModel.HtmlColumn.WithContent | datatables-core/src/main/java/com/github/dandelion/datatables/core/model/HtmlColumn.java:82-86 | a cell of the given kind with the init defaults holding the content |
| LegacyModel.HtmlColumn.Init | datatables-core/src/main/java/com/github/dandelion/datatables/core/model/HtmlColumn.java:91-108 | sortable, not filterable, searchable, INPUT filter type, and every display type appended in declaration order; nothing else changes |
| LegacyModel.HtmlColumn.ToHtml | datatables-core/src/main/java/com/github/dandelion/datatables/core/model/HtmlColumn.java:114-157 | the field-by-field appends produce exactly the cell's markup |
| LegacyModel.HtmlColumn.SetCssCellClass | datatables-core/src/main/java/com/github/dandelion/datatables/core/model/HtmlColumn.java:176-179 | sets the cell class, changes nothing else and returns the same column |
| LegacyModel.HtmlColumn.SetCssCellStyle | datatables-core/src/main/java/com/github/dandelion/datatables/core/model/HtmlColumn.java:181-184 | sets the cell style, changes nothing else and returns the same column |
| LegacyModel.LegacyMarkup | datatables-core/src/main/java/com/github/dandelion/datatables/core/model/HtmlColumn.java:114-157 | a header is a th with cssClass/cssStyle, a body cell a td with its cell class and style; absent content and attributes leave no trace; the content sits right before the closing tag |
| LegacyModel.AgreesWithCurrentColumn | datatables-core/src/main/java/com/github/dandelion/datatables/core/model/HtmlColumn.java:114-157 | a legacy cell renders exactly like a current-package cell without id that has the same kind, classes, styles and content |
| Javascript.LazyBufferConcat | datatables-core/src/main/java/com/github/dandelion/datatables/core/asset/JsResource.java:242-247 | a lazily created buffer stays null until something is appended and then holds the appended texts in order |
| Javascript.ExtendedAllConcat | datatables-core/src/main/java/com/github/dandelion/datatables/core/asset/JsResource.java:242-247 | appending two lists of texts in turn is appending their concatenation |
| Javascript.ExtraCallShape | datatables-core/src/main/java/com/github/dandelion/datatables/core/asset/JsResource.java:175-183 | no extra: nothing; an extra without configuration: ".extra()"; otherwise ".extra(" ... ")" |
| Javascript.JsResource.constructor | datatables-core/src/main/java/com/github/dandelion/datatables/core/asset/JsResource.java:115-118 | a resource of the given type and name with every section null |
| Javascript.JsResource.WithLocation | datatables-core/src/main/java/com/github/dandelion/datatables/core/asset/JsResource.java:120-124 | the same, read from the given location |
| Javascript.JsResource.AppendTo | datatables-core/src/main/java/com/github/dandelion/datatables/core/asset/JsResource.java:242-332 | the appended section is created on first use and extended by the text; no other section or field changes |
| Javascript.JsResource.GetContent | datatables-core/src/main/java/com/github/dandelion/datatables/core/asset/JsResource.java:133-224 | a null type fails with NullPointerException in the switch, every other type yields content |
| Javascript.NonMainContent | datatables-core/src/main/java/com/github/dandelion/datatables/core/asset/JsResource.java:202-220 | for any type other than MAIN the content is exactly the stored content ("null" when unset) |
| Javascript.MainStarts | datatables-core/src/main/java/com/github/dandelion/datatables/core/asset/JsResource.java:139-147 | the main file starts with beforeAll and ";\n" when set, otherwise with "var oTable_<id>;\n" |
| Javascript.FirstDeclaration | datatables-core/src/main/java/com/github/dandelion/datatables/core/asset/JsResource.java:145-147 | the body of the main file starts with the first variable declaration |
| Javascript.MainEnds | datatables-core/src/main/java/com/github/dandelion/datatables/core/asset/JsResource.java:193-199 | the main file ends with the closing of the ready block, followed only by a newline and afterAll when set |
| Javascript.MainLength | datatables-core/src/main/java/com/github/dandelion/datatables/core/asset/JsResource.java:137-200 | each optional section adds exactly its text and its fixed wrapping when set and nothing when null; declarations, the ready block and the initialisation are always there |
| Javascript.InitStatementShape | datatables-core/src/main/java/com/github/dandelion/datatables/core/asset/JsResource.java:167-184 | the initialisation selects the table by its id and ends with the extra call and a semicolon |
| Javascript.WithResourceSections | datatables-core/src/main/java/com/github/dandelion/datatables/core/generator/javascript/StandardJavascriptGenerator.java:62-70 | one addResource call leaves afterEndDocumentReady as it was and extends every other section by exactly the resource's piece |
| Javascript.GatheredStep | datatables-core/src/main/java/com/github/dandelion/datatables/core/generator/javascript/StandardJavascriptGenerator.java:62-160 | adding a resource keeps every section equal to the pieces of the added resources, in order |
| Javascript.StandardJavascriptGenerator.constructor | datatables-core/src/main/java/com/github/dandelion/datatables/core/generator/javascript/StandardJavascriptGenerator.java:48-57 | a generator with no resource and every section null |
| Javascript.StandardJavascriptGenerator.AddResource | datatables-core/src/main/java/com/github/dandelion/datatables/core/generator/javascript/StandardJavascriptGenerator.java:62-160 | the sections become WithResource of the old ones, so they keep holding the pieces of all added resources in order |
| Javascript.AddedResourcePieces | datatables-core/src/main/java/com/github/dandelion/datatables/core/generator/javascript/StandardJavascriptGenerator.java:102-147 | each added resource extends the variables by exactly its two declarations and the ready block by exactly its initialisation; afterEndDocumentReady stays empty |
| Javascript.BareResourceSections | datatables-core/src/main/java/com/github/dandelion/datatables/core/generator/javascript/StandardJavascriptGenerator.java:72-160 | resources whose sections are all null contribute only variables and initialisations |
| Javascript.StandardJavascriptGenerator.GetContent | datatables-core/src/main/java/com/github/dandelion/datatables/core/generator/javascript/StandardJavascriptGenerator.java:163-199 | with no resource added the content is "null", a newline and the empty ready block; otherwise it starts with beforeAll and the variables and ends with afterAll, each followed by a newline |
| Javascript.EmptyGeneratorContent | datatables-core/src/main/java/com/github/dandelion/datatables/core/generator/javascript/StandardJavascriptGenerator.java:163-197 | with no resource the content is "null", a newline and the empty ready block |
| Javascript.ContentOrder | datatables-core/src/main/java/com/github/dandelion/datatables/core/generator/javascript/StandardJavascriptGenerator.java:163-197 | the content starts with beforeAll, a newline and the variables, and ends with afterAll and a newline |
| Javascript.ComponentConfShape | datatables-core/src/main/java/com/github/dandelion/datatables/core/generator/DatatableJQueryJavascriptGenerator.java:61-85 | "oTable_<id>.dataTable(oTable_<id>_params)" on the processed id, then the extra call when there is one, then ";" |
| Javascript.SameComponentCall | datatables-core/src/main/java/com/github/dandelion/datatables/core/generator/DatatableJQueryJavascriptGenerator.java:61-85 | the jQuery generator and the standard one write the same call for a table |
| Javascript.JQueryVariablesShape | datatables-core/src/main/java/com/github/dandelion/datatables/core/generator/DatatableJQueryJavascriptGenerator.java:87-98 | the names use the processed id and the jQuery selector the original id; the configuration ends the second variable |
| Javascript.DatatableJQueryJavascriptGenerator.constructor | datatables-core/src/main/java/com/github/dandelion/datatables/core/generator/DatatableJQueryJavascriptGenerator.java:43 | no placeholder appended yet |
| Javascript.DatatableJQueryJavascriptGenerator.FillBuffer | datatables-core/src/main/java/com/github/dandelion/datatables/core/generator/DatatableJQueryJavascriptGenerator.java:48-59 | exactly the seven appends FillCalls lists are recorded, after the earlier ones |
| Javascript.FillCalls | datatables-core/src/main/java/com/github/dandelion/datatables/core/generator/DatatableJQueryJavascriptGenerator.java:48-59 | seven appends: beforeAll then the variables to BEFORE_ALL, the component configuration fourth, and no other placeholder used twice |
| ConfigValues.AppendedBuilds | datatables-core/src/main/java/com/github/dandelion/datatables/core/option/Option.java:190-199 | appendIn(String) succeeds exactly on a builder or a missing/null entry; it then holds the old text (or nothing) followed by the value, and no other entry changes |
| ConfigValues.AppendedTwice | datatables-core/src/main/java/com/github/dandelion/datatables/core/option/Option.java:190-199 | two appends in a row are one append of the concatenation |
| ConfigValues.ColumnAppendedIgnoresBlank | datatables-core/src/main/java/com/github/dandelion/datatables/core/option/Option.java:214-224 | the column append ignores a blank value ("" and " " included) and otherwise appends like the table append |
| ConfigValues.CharAppendedNeedsBuilder | datatables-core/src/main/java/com/github/dandelion/datatables/core/option/Option.java:201-204 | appendIn(char) succeeds exactly on an existing builder, which it extends by the character; a missing entry is dereferenced |
| Extensions.Extension.constructor | datatables-core/src/main/java/com/github/dandelion/datatables/core/extension/AbstractExtension.java:61-67 | a new extension has its class and name, null buffers, lists, generator and function, and appendRandomNumber false |
| Extensions.Extension.AppendTo | datatables-core/src/main/java/com/github/dandelion/datatables/core/extension/AbstractExtension.java:157-190 | the section's builder is created on first use and extended by the text; nothing else changes |
| Extensions.Extension.AddJsResource | datatables-core/src/main/java/com/github/dandelion/datatables/core/extension/AbstractExtension.java:116-121 | the list is created on first use and the resource goes at its end; nothing else changes |
| Extensions.Extension.AddCssResource | datatables-core/src/main/java/com/github/dandelion/datatables/core/extension/AbstractExtension.java:123-128 | the list is created on first use and the stylesheet goes at its end; nothing else changes |
| Extensions.Extension.AddParameter | datatables-core/src/main/java/com/github/dandelion/datatables/core/extension/AbstractExtension.java:130-135 | the list is created on first use and the parameter goes at its end; nothing else changes |
| Extensions.AssetScopes.AddScope | datatables-core/src/main/java/com/github/dandelion/datatables/core/extension/AbstractExtension.java:137-139 | the scope is added to those the request asks for |
| Extensions.AppendAll | datatables-core/src/main/java/com/github/dandelion/datatables/core/extension/AbstractExtension.java:157-190 | appending texts one by one leaves the section null until the first and then holds them in order; other sections are unchanged |
| Extensions.Components | datatables-core/src/main/java/com/github/dandelion/datatables/core/extension/AbstractExtension.java:201-216 | the twelve fields hashCode combines |
| Extensions.HashCode | datatables-core/src/main/java/com/github/dandelion/datatables/core/extension/AbstractExtension.java:201-216 | the 31-based combination of the fields' hashes, null as 0, stays a 32-bit int |
| Extensions.EqualsComparesHashedFields | datatables-core/src/main/java/com/github/dandelion/datatables/core/extension/AbstractExtension.java:219-263 | equals holds exactly for the same object or one of the same class with pairwise equal fields, parameters (which do not override equals) compared as objects; it is symmetric; distinct extensions holding any section text are never equal |
| Extensions.SameValuedParametersDiffer | datatables-core/src/main/java/com/github/dandelion/datatables/core/extension/AbstractExtension.java:219-263 | two extensions of one class, each given its own parameter with the same name, value and mode, are not equal |
| Extensions.Parameter.constructor | datatables-core/src/main/java/com/github/dandelion/datatables/core/asset/Parameter.java:99-103 | a parameter holds the given name, value and mode |
| Extensions.Parameter.Overriding | datatables-core/src/main/java/com/github/dandelion/datatables/core/asset/Parameter.java:95-97 | a parameter with the given name and value that overrides |
| Extensions.EqualsHashEqually | datatables-core/src/main/java/com/github/dandelion/datatables/core/extension/AbstractExtension.java:201-263 | equal extensions have equal hash codes, whatever the hashes of the fields |
| Extensions.Joined | datatables-core/src/main/java/com/github/dandelion/datatables/core/extension/ExtensionProcessor.java:178-293 | a joined text has the length of both parts, plus one for the WITH_SPACE modes |
| Extensions.JoinedModes | datatables-core/src/main/java/com/github/dandelion/datatables/core/extension/ExtensionProcessor.java:257-293 | APPEND and PREPEND are mirror images; APPEND puts the first text then the second, APPEND_WITH_SPACE with one space between |
| Extensions.MergeParameter | datatables-core/src/main/java/com/github/dandelion/datatables/core/extension/ExtensionProcessor.java:150-175 | a new key or an OVERRIDE stores the value; a merge fails exactly when a joining mode meets a value it cannot be cast with; a success keeps every other entry and adds only the parameter's name |
| Extensions.MergeJoins | datatables-core/src/main/java/com/github/dandelion/datatables/core/extension/ExtensionProcessor.java:178-293 | on an existing string or null the new text goes on the side the mode names; an existing function or snippet keeps its kind with the new code on the opposite side; a null new function or snippet is dereferenced |
| Extensions.MergeAllKeys | datatables-core/src/main/java/com/github/dandelion/datatables/core/extension/ExtensionProcessor.java:150-175 | a successful merge adds exactly the parameters' names and leaves every other key as it was |
| Extensions.MergeAllConcat | datatables-core/src/main/java/com/github/dandelion/datatables/core/extension/ExtensionProcessor.java:155-174 | merging one list and then another is merging their concatenation |
| Extensions.MergeAllFailureSticks | datatables-core/src/main/java/com/github/dandelion/datatables/core/extension/ExtensionProcessor.java:155-174 | a failing parameter fails every longer list with the same exception |
| Extensions.StringAppendsInOrder | datatables-core/src/main/java/com/github/dandelion/datatables/core/extension/ExtensionProcessor.java:257-270 | successive APPENDs to a string extend it with each new text in list order |
| Extensions.FunctionAppendsReversed | datatables-core/src/main/java/com/github/dandelion/datatables/core/extension/ExtensionProcessor.java:178-193 | successive APPENDs to a function put each new code in front, so the last one comes first |
| Extensions.LastOverrideWins | datatables-core/src/main/java/com/github/dandelion/datatables/core/extension/ExtensionProcessor.java:150-175 | the last OVERRIDE of a key decides its value when no later parameter names it |
| ExtensionLoading.InjectedSections | datatables-core/src/main/java/com/github/dandelion/datatables/core/extension/ExtensionProcessor.java:105-144 | each non-null extension section (beforeAll, afterStartDocumentReady, beforeEndDocumentReady, afterAll), the extra function and the generated configuration is appended to its main-file section, a null one adds nothing, and beforeStartDocumentReady and the main configuration section are left alone |
| ExtensionLoading.BeforeStartTextLost | datatables-core/src/main/java/com/github/dandelion/datatables/core/extension/ExtensionProcessor.java:105-120 | an extension holding only beforeStartDocumentReady text leaves the main file unchanged |
| ExtensionLoading.InjectedIntendedCarriesEverySection | datatables-core/src/main/java/com/github/dandelion/datatables/core/extension/ExtensionProcessor.java:105-120 | with beforeStartDocumentReady carried too, every extension section reaches its own main-file section |
| ExtensionLoading.ProcessJavascriptFunction | datatables-core/src/main/java/com/github/dandelion/datatables/core/extension/ExtensionProcessor.java:178-215 | on an existing function the merge equals MergeParameter: same success, same new map, same exception |
| ExtensionLoading.ProcessJavascriptSnippet | datatables-core/src/main/java/com/github/dandelion/datatables/core/extension/ExtensionProcessor.java:217-255 | on an existing snippet the merge equals MergeParameter: same success, same new map, same exception |
| ExtensionLoading.ProcessString | datatables-core/src/main/java/com/github/dandelion/datatables/core/extension/ExtensionProcessor.java:257-293 | on any other existing value the merge equals MergeParameter: same success, same new map, same exception |
| ExtensionLoading.MergeInto | datatables-core/src/main/java/com/github/dandelion/datatables/core/extension/ExtensionProcessor.java:155-174 | one parameter of injectIntoMainConfiguration: absent names are put, present ones dispatched by the kind of value; the result is MergeParameter |
| ExtensionLoading.InjectIntoMainConfiguration | datatables-core/src/main/java/com/github/dandelion/datatables/core/extension/ExtensionProcessor.java:150-176 | a null parameter list does nothing; otherwise the map becomes MergeAll of the parameters in list order, and it fails exactly when that does |
| ExtensionLoading.AppendIfSet | datatables-core/src/main/java/com/github/dandelion/datatables/core/extension/ExtensionProcessor.java:108-110 | a set text is appended to the one section named; the other sections and the resource's other fields are unchanged |
| ExtensionLoading.InjectIntoMainJsFile | datatables-core/src/main/java/com/github/dandelion/datatables/core/extension/ExtensionProcessor.java:105-144 | the main file's sections become Injected of the old ones; its name, content, table id and type are unchanged |
| ExtensionLoading.ProcessFailureSticks | datatables-core/src/main/java/com/github/dandelion/datatables/core/extension/ExtensionProcessor.java:82-88 | an exception from one extension ends the processing of every longer collection with an exception |
| ExtensionLoading.ProcessedConfig | datatables-core/src/main/java/com/github/dandelion/datatables/core/extension/ExtensionProcessor.java:82-103 | processing extensions in turn merges all their parameters in order into the configuration; null extensions change nothing |
| ExtensionLoading.ExtensionProcessor.constructor | datatables-core/src/main/java/com/github/dandelion/datatables/core/extension/ExtensionProcessor.java:75-79 | the processor holds the given main file and configuration |
| ExtensionLoading.ExtensionProcessor.Process | datatables-core/src/main/java/com/github/dandelion/datatables/core/extension/ExtensionProcessor.java:82-88 | nothing for a null or empty collection; else the state after processing is ProcessSteps of the old state, failing exactly when it does |
| ExtensionLoading.ExtensionProcessor.ProcessOne | datatables-core/src/main/java/com/github/dandelion/datatables/core/extension/ExtensionProcessor.java:90-103 | a null extension is skipped; otherwise main file and configuration become ProcessStep of the old state |
| ExtensionLoading.ResourceNames | datatables-core/src/main/java/com/github/dandelion/datatables/core/extension/ExtensionLoader.java:150-151 | the script name is the lower-cased extension name, "-" and the random id when asked for, then ".js"; the sheet name has the plugin prefix in front and ends in ".css" |
| ExtensionLoading.Internal | datatables-core/src/main/java/com/github/dandelion/datatables/core/extension/ExtensionLoader.java:218-224 | the kept stylesheets are exactly those of the list that are not EXTERNAL |
| ExtensionLoading.SheetTextsSkipExternal | datatables-core/src/main/java/com/github/dandelion/datatables/core/extension/ExtensionLoader.java:216-227 | the merged stylesheet is the text of every non-EXTERNAL sheet, in list order |
| ExtensionLoading.RegisteredExternal | datatables-core/src/main/java/com/github/dandelion/datatables/core/extension/ExtensionLoader.java:174-193 | each EXTERNAL sheet is registered under its name unless a later EXTERNAL sheet shares it; names of no EXTERNAL sheet keep their entry |
| ExtensionLoading.LoadFailureSticks | datatables-core/src/main/java/com/github/dandelion/datatables/core/extension/ExtensionLoader.java:106-133 | an exception from one extension ends the loading of every longer collection with an exception |
| ExtensionLoading.LoadAgreesWithProcess | datatables-core/src/main/java/com/github/dandelion/datatables/core/extension/ExtensionLoader.java:236-420 | for extensions without scripts or stylesheets, loading changes the main file and configuration exactly as ExtensionProcessor does, and no web resource |
| ExtensionLoading.ExtensionLoader.constructor | datatables-core/src/main/java/com/github/dandelion/datatables/core/extension/ExtensionLoader.java:89-95 | the loader holds the given main file, configuration and web resources |
| ExtensionLoading.ExtensionLoader.Load | datatables-core/src/main/java/com/github/dandelion/datatables/core/extension/ExtensionLoader.java:106-133 | nothing for a null or empty set; else the state after loading is LoadSteps of the old state, failing exactly when it does |
| ExtensionLoading.ExtensionLoader.LoadNext | datatables-core/src/main/java/com/github/dandelion/datatables/core/extension/ExtensionLoader.java:112-130 | one turn of the loop extends the loaded prefix by one extension, and a failure fails the whole load |
| ExtensionLoading.ExtensionLoader.LoadOne | datatables-core/src/main/java/com/github/dandelion/datatables/core/extension/ExtensionLoader.java:114-129 | scripts, stylesheets, external stylesheets, main file and configuration become LoadStep of the old state |
| ExtensionLoading.ExtensionLoader.LoadJsResources | datatables-core/src/main/java/com/github/dandelion/datatables/core/extension/ExtensionLoader.java:142-167 | the scripts map becomes LoadedScripts: unchanged without scripts, else one script named after the extension holding all its texts; stylesheets unchanged |
| ExtensionLoading.ExtensionLoader.LoadCssResources | datatables-core/src/main/java/com/github/dandelion/datatables/core/extension/ExtensionLoader.java:201-229 | the stylesheets map becomes LoadedSheets: unchanged without sheets, else one sheet holding the non-EXTERNAL texts; scripts unchanged |
| ExtensionLoading.ExtensionLoader.LoadExternalCssResources | datatables-core/src/main/java/com/github/dandelion/datatables/core/extension/ExtensionLoader.java:174-193 | the stylesheets map becomes Registered of the EXTERNAL sheets; scripts unchanged |
| ExportConfs.ExportConf.constructor | datatables-core/src/main/java/com/github/dandelion/datatables/core/export/ExportConf.java:50-71 | a new configuration (reconstructed on a string format) has its type and url, file name "export", the type upper-cased as label, header included, area ALL, no auto-size, not custom, GET, and no style, class, export class or mime type |
| ExportConfs.EqualsOnlyByType | datatables-core/src/main/java/com/github/dandelion/datatables/core/export/ExportConf.java:152-172 | two configurations are equal exactly when their types are; equal ones hash alike; equals is symmetric and false for null |
| ExportConfs.EqualsIsEquivalence | datatables-core/src/main/java/com/github/dandelion/datatables/core/export/ExportConf.java:160-172 | equals is reflexive and transitive |
| ExportPatterns.Suffix | datatables-core/src/main/java/com/github/dandelion/datatables/core/option/processor/export/ExportFormatProcessor.java:62-65 | each closing literal starts with a dot, is longer than the dot and holds no other dot |
| ExportPatterns.GroupEnd | datatables-core/src/main/java/com/github/dandelion/datatables/core/option/processor/export/ExportFormatProcessor.java:62-72 | the reluctant group ends at the first position where the suffix follows, growing only over non-line-terminator characters |
| ExportPatterns.FindFrom | datatables-core/src/main/java/com/github/dandelion/datatables/core/option/processor/export/ExportFormatProcessor.java:100-101 | a match found lies at or after the scan start and the pattern matches there |
| ExportPatterns.FindFromLeftmost | datatables-core/src/main/java/com/github/dandelion/datatables/core/option/processor/export/ExportFormatProcessor.java:100-101 | the match found is the leftmost one |
| ExportPatterns.FormatOfKey | datatables-core/src/main/java/com/github/dandelion/datatables/core/option/processor/export/ExportFormatProcessor.java:62-103 | a key "export." + format + suffix whose format holds no dot yields that format for its own pattern and matches no other pattern |
| FixedHeader.Edge | datatables-core/src/main/java/com/github/dandelion/datatables/core/extension/plugin/FixedHeaderPlugin.java:90-106 | the edge is bottom, right or left exactly when the position is non-blank and lower-cases to that word, and top otherwise |
| FixedHeader.SpecificConfiguration | datatables-core/src/main/java/com/github/dandelion/datatables/core/extension/plugin/FixedHeaderPlugin.java:81-114 | the configuration sets the edge to true, holds no other key but offsetTop, and holds offsetTop with the offset exactly when one is set |
| FixedHeader.ConfigurationSize | datatables-core/src/main/java/com/github/dandelion/datatables/core/extension/plugin/FixedHeaderPlugin.java:81-114 | the configuration has one key, or two with an offset |
| FixedHeader.Statement | datatables-core/src/main/java/com/github/dandelion/datatables/core/extension/plugin/FixedHeaderPlugin.java:69 | the statement starts with the plugin built on oTable_ and the table id and ends with the JSON and ");" |
| FixedHeader.Setup | datatables-core/src/main/java/com/github/dandelion/datatables/core/extension/plugin/FixedHeaderPlugin.java:62-70 | the statement is appended to the before-end-of-document-ready section and no other section changes |
| MultiFilter.CheckConfiguration | datatables-core/src/main/java/com/github/dandelion/datatables/core/extension/feature/MultiFilterFeature.java:144-168 | success exactly when the filter selector and every header column's name are non-blank; a blank selector is reported first, then a missing name |
| MultiFilter.ColumnSelectors | datatables-core/src/main/java/com/github/dandelion/datatables/core/extension/feature/MultiFilterFeature.java:82-88 | the set holds exactly the non-blank column selectors |
| MultiFilter.HandlersTargetTheirButton | datatables-core/src/main/java/com/github/dandelion/datatables/core/extension/feature/MultiFilterFeature.java:90-138 | the filter handler starts with the click binding of the filter button and calls the table's fnMultiFilter; the clear handler starts with the binding of the clear button and calls fnFilterClear |
| MultiFilter.Handlers | datatables-core/src/main/java/com/github/dandelion/datatables/core/extension/feature/MultiFilterFeature.java:115-141 | two handlers when a clear selector is set, else one, the filter handler first |
| MultiFilter.Setup | datatables-core/src/main/java/com/github/dandelion/datatables/core/extension/feature/MultiFilterFeature.java:67-142 | a refused configuration changes nothing; otherwise the multi-filter scope is added and the handlers are appended in order to the before-end-of-document-ready section, no other section changing |
| MultiFilter.FilterHandlerNoLeadingNewline | datatables-core/src/main/java/com/github/dandelion/datatables/core/extension/feature/MultiFilterFeature.java:90-131 | the filter handler and the clear handler as written both start with their selector's "$", not with a newline |
| MultiFilter.FilterHandlerIntended | datatables-core/src/main/java/com/github/dandelion/datatables/core/extension/feature/MultiFilterFeature.java:90-105 | the intended filter handler is a newline followed by the written handler |
| MultiFilter.ClearHandlerIntended | datatables-core/src/main/java/com/github/dandelion/datatables/core/extension/feature/MultiFilterFeature.java:117-141 | the intended clear handler is a newline followed by the written handler |
| MultiFilter.HandlersIntended | datatables-core/src/main/java/com/github/dandelion/datatables/core/extension/feature/MultiFilterFeature.java:90-141 | the intended handlers are the written ones, in order, each after a newline |
| MultiFilter.ClearHandlerSharesLine | datatables-core/src/main/java/com/github/dandelion/datatables/core/extension/feature/MultiFilterFeature.java:90-141 | as written the clear handler's "$" follows the filter handler's closing ";" on the same line; as intended a newline comes between them |
| ExportFeatures.ViewsOf | datatables-core/src/main/java/com/github/dandelion/datatables/core/extension/feature/ExportFeature.java:142 | one view per export configuration, in order |
| ExportFeatures.LinkStyleShape | datatables-core/src/main/java/com/github/dandelion/datatables/core/extension/feature/ExportFeature.java:150-156 | every link style ends with the left margin; a configured style is followed by ";;margin-left:2px;" |
| ExportFeatures.TakeStyle | datatables-core/src/main/java/com/github/dandelion/datatables/core/extension/feature/ExportFeature.java:150-156 | the link reads the configuration's current style, and a set style is lengthened in the configuration itself, since the link shares its builder |
| ExportFeatures.LengthenedGrows | datatables-core/src/main/java/com/github/dandelion/datatables/core/html/HtmlTag.java:135-155 | each link adds ";;margin-left:2px;" (18 characters) to a set style and keeps the old style as a prefix; a missing style stays missing |
| ExportFeatures.SecondLinkLengthened | datatables-core/src/main/java/com/github/dandelion/datatables/core/extension/feature/ExportFeature.java:150-156 | a style s gives the first link s + ";;margin-left:2px;" and the second s + ";;margin-left:2px;;;margin-left:2px;" |
| ExportFeatures.DivLengthens | datatables-core/src/main/java/com/github/dandelion/datatables/core/extension/feature/ExportFeature.java:142-156 | a div without failure over distinct configurations lengthens each one's style exactly once |
| ExportFeatures.DivAged | datatables-core/src/main/java/com/github/dandelion/datatables/core/extension/feature/ExportFeature.java:142-245 | a div whose configurations were each linked k times before is the div of the configurations read with their styles lengthened k times |
| ExportFeatures.SetupLengthens | datatables-core/src/main/java/com/github/dandelion/datatables/core/extension/feature/ExportFeature.java:77-156 | for distinct configurations that all have what their links need, position k shows every link styled as after k earlier links, and each configuration ends lengthened once per position |
| ExportFeatures.TwoPositions | datatables-core/src/main/java/com/github/dandelion/datatables/core/extension/feature/ExportFeature.java:77-156 | one configuration styled s and two positions: the first div's link has s + ";;margin-left:2px;", the second's s + ";;margin-left:2px;;;margin-left:2px;", which the configuration keeps |
| ExportFeatures.LinkOf | datatables-core/src/main/java/com/github/dandelion/datatables/core/extension/feature/ExportFeature.java:144-242 | a link fails exactly for a custom GET configuration without a url, with a null dereference; otherwise a custom link calls its launcher and has one, another links to the url, and class, label and style come from the configuration |
| ExportFeatures.DivFails | datatables-core/src/main/java/com/github/dandelion/datatables/core/extension/feature/ExportFeature.java:136-248 | the div fails exactly when some configuration is a custom GET without a url, and then with a null dereference of the url |
| ExportFeatures.DivLaunchers | datatables-core/src/main/java/com/github/dandelion/datatables/core/extension/feature/ExportFeature.java:158-238 | a div without failure has one launcher per custom configuration |
| ExportFeatures.PositionStyles | datatables-core/src/main/java/com/github/dandelion/datatables/core/extension/feature/ExportFeature.java:83-123 | right positions float right, left ones float left with a right margin, middle ones float left with a left margin |
| ExportFeatures.SetupRepeats | datatables-core/src/main/java/com/github/dandelion/datatables/core/extension/feature/ExportFeature.java:78-124 | when no configuration is a custom GET without a url, setup fails nowhere and appends one launcher per custom configuration at every position |
| ExportFeatures.OnePosition | datatables-core/src/main/java/com/github/dandelion/datatables/core/extension/feature/ExportFeature.java:78-124 | a single position yields exactly the placement of its styled div, built from the configurations as they were |
| ExportFeatures.BuildDiv | datatables-core/src/main/java/com/github/dandelion/datatables/core/extension/feature/ExportFeature.java:129-249 | the loop over the configurations yields the content, launchers and failure of Div, and leaves each configuration's style lengthened as Div says, the failing configuration included |
| ExportFeatures.InitExportDiv | datatables-core/src/main/java/com/github/dandelion/datatables/core/extension/feature/ExportFeature.java:129-249 | the div's failure, content and lengthened styles are Div's, and its launchers are appended in order to the before-all section, no other section changing |
| ExportFeatures.DivStep | datatables-core/src/main/java/com/github/dandelion/datatables/core/extension/feature/ExportFeature.java:142-245 | one more configuration has its style lengthened, and adds its link markup and launcher to the div or makes its exception the div's failure |
| ExportFeatures.DivStops | datatables-core/src/main/java/com/github/dandelion/datatables/core/extension/feature/ExportFeature.java:142-245 | once a prefix of the configurations fails, the div is that failure |
| ExportFeatures.SetupStops | datatables-core/src/main/java/com/github/dandelion/datatables/core/extension/feature/ExportFeature.java:78-124 | once a prefix of the positions fails, setup is that failure |
| ExportFeatures.AddExportScope | datatables-core/src/main/java/com/github/dandelion/datatables/core/extension/feature/ExportFeature.java:71-75 | the export scope is added exactly when some configuration uses POST |
| ExportFeatures.PlaceLinks | datatables-core/src/main/java/com/github/dandelion/datatables/core/extension/feature/ExportFeature.java:77-124 | the loop over the positions yields the placements, launchers, failure and configuration styles of SetupOf, each div built from the styles the earlier divs left in the configurations |
| ExportFeatures.SetupStep | datatables-core/src/main/java/com/github/dandelion/datatables/core/extension/feature/ExportFeature.java:78-124 | one more position builds its div from the styles the earlier positions left, adds its launchers and, unless the div fails, its placement |
| ExportFeatures.Setup | datatables-core/src/main/java/com/github/dandelion/datatables/core/extension/feature/ExportFeature.java:68-127 | the scope when a configuration uses POST, the launchers appended per position to the before-all section, the placement statements or the first failure as result, and each configuration left with the style its links lengthened |
| ExportFeatures.GetLauncherUnbalanced | datatables-core/src/main/java/com/github/dandelion/datatables/core/extension/feature/ExportFeature.java:171-203 | a GET launcher with a server parameter function closes one more parenthesis than it opens |
| ExportFeatures.GetLauncherBalancedWithoutServerParam | datatables-core/src/main/java/com/github/dandelion/datatables/core/extension/feature/ExportFeature.java:183-200 | without a server parameter function the GET launcher's parentheses balance |
| ExportFeatures.GetLauncherIntended | datatables-core/src/main/java/com/github/dandelion/datatables/core/extension/feature/ExportFeature.java:171-203 | the intended GET launcher writes the same text as the code when no server parameter function is set |
| ExportFeatures.GetLauncherIntendedBalanced | datatables-core/src/main/java/com/github/dandelion/datatables/core/extension/feature/ExportFeature.java:171-203 | the intended GET launcher balances its parentheses with or without a server parameter function |
| ExportFeatures.OtherLauncherBalanced | datatables-core/src/main/java/com/github/dandelion/datatables/core/extension/feature/ExportFeature.java:206-236 | the POST, PUT and DELETE launchers balance their parentheses |
| LegacyConfiguration.ValueOfName | datatables-core/src/main/java/com/github/dandelion/datatables/core/model/TableProperties.java:200-202 | ExportType.valueOf of a format's name gives that format back |
| LegacyConfiguration.TableConfiguration.constructor | datatables-core/src/main/java/com/github/dandelion/datatables/core/configuration/TableConfiguration.java:232-251 | a new configuration holds the group's export classes, is not exportable and has no plugin, feature, file, conf or callback collection yet |
| LegacyConfiguration.TableConfiguration.Clone | datatables-core/src/main/java/com/github/dandelion/datatables/core/configuration/TableConfiguration.java:257-266 | the clone is a new object whose every field equals the original's, so the collections are shared |
| LegacyConfiguration.TableConfiguration.GetExportClass | datatables-core/src/main/java/com/github/dandelion/datatables/core/configuration/TableConfiguration.java:325-367 | null for a format without a class setting; the configured class when it is not blank; otherwise the default class |
| LegacyConfiguration.TableConfiguration.RegisterPlugin | datatables-core/src/main/java/com/github/dandelion/datatables/core/configuration/TableConfiguration.java:615-627 | the set is created when null and then holds the plugin besides its old members; the other collections are unchanged |
| LegacyConfiguration.TableConfiguration.RegisterFeature | datatables-core/src/main/java/com/github/dandelion/datatables/core/configuration/TableConfiguration.java:629-635 | the set is created when null and then holds the feature besides its old members; the other collections are unchanged |
| LegacyConfiguration.TableConfiguration.AddExtraFile | datatables-core/src/main/java/com/github/dandelion/datatables/core/configuration/TableConfiguration.java:641-647 | the list is created when null and the file goes at its end; the other collections are unchanged |
| LegacyConfiguration.TableConfiguration.AddExtraConf | datatables-core/src/main/java/com/github/dandelion/datatables/core/configuration/TableConfiguration.java:653-659 | the list is created when null and the conf goes at its end; the other collections are unchanged |
| LegacyConfiguration.TableConfiguration.RegisterCallback | datatables-core/src/main/java/com/github/dandelion/datatables/core/configuration/TableConfiguration.java:723-729 | the list is created when null and the callback goes at its end; the other collections are unchanged |
| LegacyConfiguration.TableConfiguration.HasCallback | datatables-core/src/main/java/com/github/dandelion/datatables/core/configuration/TableConfiguration.java:731-740 | true exactly when a list exists and holds a callback of the type |
| LegacyConfiguration.TableConfiguration.GetCallback | datatables-core/src/main/java/com/github/dandelion/datatables/core/configuration/TableConfiguration.java:742-749 | the first callback of the type; a missing list is dereferenced |
| LegacyConfiguration.GroupOf | datatables-core/src/main/java/com/github/dandelion/datatables/core/configuration/TableConfiguration.java:203-207 | a null or empty group name means the default group; any other name is itself |
| LegacyConfiguration.ConfigurationCache.GetInstance | datatables-core/src/main/java/com/github/dandelion/datatables/core/configuration/TableConfiguration.java:201-220 | the group's configuration is built on first request from the loader's classes and kept; every call returns a new clone of the kept one, and the cache changes only by that first entry |
| LegacyConfiguration.TableProperties.InitProperties | datatables-core/src/main/java/com/github/dandelion/datatables/core/model/TableProperties.java:54-56 | the properties given become the resource |
| LegacyConfiguration.TableProperties.SetProperty | datatables-core/src/main/java/com/github/dandelion/datatables/core/model/TableProperties.java:67-70 | the key is overwritten in the shared properties; a missing resource is dereferenced |
| LegacyConfiguration.TableProperties.GetProperty | datatables-core/src/main/java/com/github/dandelion/datatables/core/model/TableProperties.java:78-81 | the value when the key is present, null otherwise; a missing resource is dereferenced |
| LegacyConfiguration.TableProperties.GetFlag | datatables-core/src/main/java/com/github/dandelion/datatables/core/model/TableProperties.java:130-176 | a boolean getter is true exactly when the property equals "true" ignoring case, false when absent |
| LegacyConfiguration.TableProperties.GetExportClass | datatables-core/src/main/java/com/github/dandelion/datatables/core/model/TableProperties.java:212-250 | the configured class unless it is missing (a blank one is kept), else the default; null for a format without a class setting |
| LegacyConfiguration.TableProperties.GetExportTypes | datatables-core/src/main/java/com/github/dandelion/datatables/core/model/TableProperties.java:194-205 | the property split on commas, each piece turned into a format in order; a missing property or an unknown piece fails |
| LegacyConfiguration.ValuesOf | datatables-core/src/main/java/com/github/dandelion/datatables/core/model/TableProperties.java:200-202 | the formats have one entry per piece and are the pieces' valueOf, and it fails exactly when a piece names no format |
| LegacyConfiguration.ValuesOfFails | datatables-core/src/main/java/com/github/dandelion/datatables/core/model/TableProperties.java:200-202 | an unknown piece fails every longer prefix |
| LegacyConfiguration.ExportTypesRoundTrip | datatables-core/src/main/java/com/github/dandelion/datatables/core/model/TableProperties.java:194-205 | splitting the comma-joined names of a non-empty list of formats gives the list back |
| LegacyConfiguration.ExportClassFallbacks | datatables-core/src/main/java/com/github/dandelion/datatables/core/configuration/TableConfiguration.java:325-367 | on the same settings both versions agree except on a blank configured class, which TableProperties returns and TableConfiguration replaces by the default |
| LegacyConfiguration.ValidityDiffers | datatables-core/src/main/java/com/github/dandelion/datatables/core/configuration/TableConfiguration.java:279-300 | TableProperties accepts every key of the properties file while TableConfiguration refuses them all |
| LegacyConfiguration.DefaultClassKeysNotAllValid | datatables-core/src/main/java/com/github/dandelion/datatables/core/model/TableProperties.java:90-112 | isValidProperty accepts the PDF default-class key but not the CSV and XML ones, though getExportClass reads them |
| OptionProcessors.ValueAsString | datatables-core/src/main/java/com/github/dandelion/datatables/core/option/processor/OptionProcessingContext.java:112 | null exactly for a null value, otherwise a text already trimmed |
| OptionProcessors.EnabledFormats | datatables-core/src/main/java/com/github/dandelion/datatables/core/option/processor/export/ExportEnabledFormatProcessor.java:64-68 | one format per comma-separated piece, each lower-cased then trimmed |
| OptionProcessors.AddedLaws | datatables-core/src/main/java/com/github/dandelion/datatables/core/option/processor/export/ExportEnabledFormatProcessor.java:67-88 | a format is added exactly when it is listed and has no configuration yet, and none is added twice |
| OptionProcessors.AddedAgainIsEmpty | datatables-core/src/main/java/com/github/dandelion/datatables/core/option/processor/export/ExportEnabledFormatProcessor.java:74 | listing only formats that already have a configuration adds nothing |
| OptionProcessors.AddedConfs | datatables-core/src/main/java/com/github/dandelion/datatables/core/option/processor/export/ExportEnabledFormatProcessor.java:67-88 | the loop keeps every existing configuration, and each listed format without one gets a new configuration with its export url, added at the end |
| OptionProcessors.AddedConf | datatables-core/src/main/java/com/github/dandelion/datatables/core/option/processor/export/ExportEnabledFormatProcessor.java:70-87 | one turn: an existing format changes nothing; a new one gets a fresh configuration with its export url at the end |
| OptionProcessors.AddFormats | datatables-core/src/main/java/com/github/dandelion/datatables/core/option/processor/export/ExportEnabledFormatProcessor.java:67-88 | the export map stays valid, keeps its configurations and gains one new configuration per new listed format, in order |
| OptionProcessors.ExportEnabledFormats | datatables-core/src/main/java/com/github/dandelion/datatables/core/option/processor/export/ExportEnabledFormatProcessor.java:55-95 | a blank value changes nothing; otherwise the table becomes exportable, the formats are added and the export feature registered; the entry's value becomes null |
| OptionProcessors.FormatOf | datatables-core/src/main/java/com/github/dandelion/datatables/core/option/processor/export/ExportFormatProcessor.java:97-106 | the format found is the group of the first pattern, in iteration order, that matches the user name, and none is found exactly when no pattern matches |
| OptionProcessors.FormatOfKey | datatables-core/src/main/java/com/github/dandelion/datatables/core/option/processor/export/ExportFormatProcessor.java:97-106 | a documented key export.format.field yields that format and field whatever the order the patterns are tried in |
| OptionProcessors.SetField | datatables-core/src/main/java/com/github/dandelion/datatables/core/option/processor/export/ExportFormatProcessor.java:124-137 | the field the pattern names is set to the value and the others are kept |
| OptionProcessors.ConfOf | datatables-core/src/main/java/com/github/dandelion/datatables/core/option/processor/export/ExportFormatProcessor.java:111-122 | an existing configuration is returned unchanged; otherwise a new one with the defaults is put at the end |
| OptionProcessors.SetOn | datatables-core/src/main/java/com/github/dandelion/datatables/core/option/processor/export/ExportFormatProcessor.java:124-137 | the configuration's settable fields become SetField of the old ones; the other fields are unchanged |
| OptionProcessors.ExportFormat | datatables-core/src/main/java/com/github/dandelion/datatables/core/option/processor/export/ExportFormatProcessor.java:89-146 | a blank value changes nothing; a missing user name is dereferenced; a key naming no format is an unknown-format error; otherwise that format's configuration, created if absent, has the named field set to the value |
| OptionProcessors.PaginationTypeOption | datatables-core/src/main/java/com/github/dandelion/datatables/core/option/processor/feature/FeaturePaginationTypeProcessor.java:51-107 | the entry becomes the type read leniently, or null, and the seven featured types register their extension; an unknown name registers nothing |
| Options.Option.constructor | datatables-core/src/main/java/com/github/dandelion/datatables/core/option/Option.java:104-108 | a new option has its name and precedence and no user name |
| Options.Option.CompareTo | datatables-core/src/main/java/com/github/dandelion/datatables/core/option/Option.java:251-269 | 1 against null; otherwise negative, zero or positive exactly as the precedences compare |
| Options.Option.SetIn | datatables-core/src/main/java/com/github/dandelion/datatables/core/option/Option.java:182-188 | the option's entry is overwritten and then read back; a null map is dereferenced |
| Options.Option.AppendIn | datatables-core/src/main/java/com/github/dandelion/datatables/core/option/Option.java:190-199 | the entry becomes Appended of the old map (builder extended or created); a null map is dereferenced |
| Options.Option.AppendCharIn | datatables-core/src/main/java/com/github/dandelion/datatables/core/option/Option.java:201-204 | the entry becomes CharAppended of the old map; a null map is dereferenced |
| Options.Option.AppendInColumn | datatables-core/src/main/java/com/github/dandelion/datatables/core/option/Option.java:206-224 | the entry becomes ColumnAppended of the old map (blank values ignored); a null map is dereferenced |
| Options.CompareToIsAnOrder | datatables-core/src/main/java/com/github/dandelion/datatables/core/option/Option.java:251-269 | compareTo is antisymmetric, transitive and zero on itself |
| Options.CompareToIgnoresName | datatables-core/src/main/java/com/github/dandelion/datatables/core/option/Option.java:251-296 | two options of equal precedence and different names compare as 0 yet are not equal |
| Options.EqualsByName | datatables-core/src/main/java/com/github/dandelion/datatables/core/option/Option.java:271-296 | options are equal exactly when their names are; equals is symmetric, transitive and false for null; equal options hash alike |
| Options.RegisteredKeys | datatables-core/src/main/java/com/github/dandelion/datatables/core/option/DatatableOptions.java:322-341 | every field is registered under its trimmed lower-cased name, and each key leads to a field of that normalised name |
| Options.RegisteredNames | datatables-core/src/main/java/com/github/dandelion/datatables/core/option/DatatableOptions.java:329-339 | every field is registered under its normalised name |
| Options.RegisteredFields | datatables-core/src/main/java/com/github/dandelion/datatables/core/option/DatatableOptions.java:329-339 | every key leads to one of the fields, of that normalised name |
| Options.Register | datatables-core/src/main/java/com/github/dandelion/datatables/core/option/DatatableOptions.java:322-341 | the loop over the declared fields builds the registry Registered |
| Options.FirstMatch | datatables-core/src/main/java/com/github/dandelion/datatables/core/option/DatatableOptions.java:277-311 | the token found is one of the order whose pattern is found in the name, and none is found exactly when no pattern is |
| Options.FirstMatchIs | datatables-core/src/main/java/com/github/dandelion/datatables/core/option/DatatableOptions.java:277-311 | when exactly one pattern is found in the name, its token is the first match of any order that lists it |
| Options.DatatableOptions.constructor | datatables-core/src/main/java/com/github/dandelion/datatables/core/option/DatatableOptions.java:322-341 | the registry holds every declared field under its normalised name |
| Options.DatatableOptions.FindByName | datatables-core/src/main/java/com/github/dandelion/datatables/core/option/DatatableOptions.java:271-314 | a registered normalised name gives its option; else a name containing "export" gives the shared export option of the first matching pattern, recording the name as its user name; else null |
| Options.SearchExport | datatables-core/src/main/java/com/github/dandelion/datatables/core/option/DatatableOptions.java:282-311 | the pattern loop yields the first matching token in search order |
| Options.FieldsFoundByName | datatables-core/src/main/java/com/github/dandelion/datatables/core/option/DatatableOptions.java:271-276 | every declared field is found by its own name |
| Options.ExportKeyMatches | datatables-core/src/main/java/com/github/dandelion/datatables/core/option/DatatableOptions.java:277-311 | a key export.format.field contains "export" and its first matching pattern is its field's |
| Options.ExportKeyFound | datatables-core/src/main/java/com/github/dandelion/datatables/core/option/DatatableOptions.java:271-314 | an unregistered key export.format.field finds the export option of its field |
| PaginationTypes.ValueOf | datatables-core/src/main/java/com/github/dandelion/datatables/core/processor/feature/FeaturePaginationTypeProcessor.java:51 | a type found has exactly the name asked for; no type is found exactly when no constant has that name |
| PaginationTypes.StrictAgreesWithLenient | datatables-core/src/main/java/com/github/dandelion/datatables/core/processor/feature/FeaturePaginationTypeProcessor.java:47-88 | the legacy processor reads the same type as the option processor wherever it accepts the value, and refuses exactly the non-blank values the option processor reads as no type |
| PaginationTypes.ValueOfUpperName | datatables-core/src/main/java/com/github/dandelion/datatables/core/option/processor/feature/FeaturePaginationTypeProcessor.java:57-62 | a type's name written in any case is read back as that type once upper-cased |
| PaginationTypes.LowerCaseBootstrap | datatables-core/src/main/java/com/github/dandelion/datatables/core/option/processor/feature/FeaturePaginationTypeProcessor.java:62 | "bootstrap" is read as BOOTSTRAP |
| ConfigurationProcessors.TrimEach | datatables-core/src/main/java/com/github/dandelion/datatables/core/processor/AbstractConfigurationProcessor.java:170-173 | the loop over the comma-separated scopes adds each one trimmed, in order |
| ConfigurationProcessors.AfterHashIsSubstring | datatables-core/src/main/java/com/github/dandelion/datatables/core/processor/AbstractConfigurationProcessor.java:180 | the text after the first hash is the substring from one past indexOf("#") |
| ConfigurationProcessors.ConfigurationProcessor.constructor | datatables-core/src/main/java/com/github/dandelion/datatables/core/processor/AbstractConfigurationProcessor.java:90-92 | a new processor has its scope flag and no table, column or scope yet |
| ConfigurationProcessors.ConfigurationProcessor.Process | datatables-core/src/main/java/com/github/dandelion/datatables/core/processor/AbstractConfigurationProcessor.java:97-112 | the table is recorded, the value is stringified and trimmed, and the scopes are processed only when the processor accepts them |
| ConfigurationProcessors.ConfigurationProcessor.ProcessColumn | datatables-core/src/main/java/com/github/dandelion/datatables/core/processor/AbstractConfigurationProcessor.java:117-137 | as the table overload, with the column and its staging map recorded |
| ConfigurationProcessors.ConfigurationProcessor.Start | datatables-core/src/main/java/com/github/dandelion/datatables/core/processor/AbstractConfigurationProcessor.java:98-110 | the entry and stringified value are recorded and the scopes processed when accepted |
| ConfigurationProcessors.ConfigurationProcessor.ProcessScope | datatables-core/src/main/java/com/github/dandelion/datatables/core/processor/AbstractConfigurationProcessor.java:157-184 | no hash: nothing changes; a leading hash or other than two parts: a wrong-format error; otherwise the trimmed scopes are added in order and value and entry are cut after the hash |
| ConfigurationProcessors.ConfigurationProcessor.AddTableEntry | datatables-core/src/main/java/com/github/dandelion/datatables/core/processor/AbstractConfigurationProcessor.java:232-234 | the token goes to the table's staging map and nothing else changes; a missing table is dereferenced |
| ConfigurationProcessors.ConfigurationProcessor.IsTableEntryPresent | datatables-core/src/main/java/com/github/dandelion/datatables/core/processor/AbstractConfigurationProcessor.java:247-249 | true exactly when the token is in the table's token map, the staging map not consulted |
| ConfigurationProcessors.ConfigurationProcessor.AddColumnEntry | datatables-core/src/main/java/com/github/dandelion/datatables/core/processor/AbstractConfigurationProcessor.java:271-273 | the token goes to the column's staging map and nothing else changes; a missing column is dereferenced |
| ConfigurationProcessors.ConfigurationProcessor.IsColumnEntryPresent | datatables-core/src/main/java/com/github/dandelion/datatables/core/processor/AbstractConfigurationProcessor.java:286-288 | true when the token is in the column's map, else whether it is in the recorded staging map |
| ConfigurationProcessors.ConfigurationProcessor.ProcessPaginationType | datatables-core/src/main/java/com/github/dandelion/datatables/core/processor/feature/FeaturePaginationTypeProcessor.java:47-88 | the entry becomes the type read strictly or null for a blank value; an unknown name is an error naming the value; the seven featured types register their extension |
| ConfigurationProcessors.ScopeRoundTrip | datatables-core/src/main/java/com/github/dandelion/datatables/core/processor/AbstractConfigurationProcessor.java:157-184 | "scope1,scope2#object" adds the named scopes in order and leaves the object as both the value and the entry |
| ConfigurationProcessors.LeadingHashRefused | datatables-core/src/main/java/com/github/dandelion/datatables/core/processor/AbstractConfigurationProcessor.java:163-167 | a value starting with a hash is refused with the wrong-format error |
| ConfigurationProcessors.TrailingHashEmptiesEntry | datatables-core/src/main/java/com/github/dandelion/datatables/core/processor/AbstractConfigurationProcessor.java:162-181 | "a#b#" adds scope a but leaves "b#" as the value and "" as the entry |
| ConfigurationProcessors.ScopeIntendedEntryIsValue | datatables-core/src/main/java/com/github/dandelion/datatables/core/processor/AbstractConfigurationProcessor.java:180-181 | cleaned as intended the entry always equals the value, and both cleanings agree when the object holds no further hash |
| TableConfigurations.TableConfiguration.constructor | datatables-core/src/main/java/com/github/dandelion/datatables/core/option/TableConfiguration.java:91-100 | a new configuration holds the table id, the user's options map and the request, with an empty staging map and an empty ordered export map, no extra collections, not exportable and empty messages |
| TableConfigurations.TableConfiguration.RegisterExtension | datatables-core/src/main/java/com/github/dandelion/datatables/core/option/TableConfiguration.java:143-149 | the set is created when null and gains the extension; no other collection or flag changes |
| TableConfigurations.TableConfiguration.AddExtraJs | datatables-core/src/main/java/com/github/dandelion/datatables/core/option/TableConfiguration.java:155-161 | the set is created when null and gains the bundle; the other collections are unchanged |
| TableConfigurations.TableConfiguration.RegisterCallback | datatables-core/src/main/java/com/github/dandelion/datatables/core/option/TableConfiguration.java:184-190 | the list is created when null and the callback goes last; the other collections are unchanged |
| TableConfigurations.TableConfiguration.AddExtraHtmlSnippet | datatables-core/src/main/java/com/github/dandelion/datatables/core/option/TableConfiguration.java:295-300 | the list is created when null and the snippet goes last; the other collections are unchanged |
| TableConfigurations.TableConfiguration.HasCallback | datatables-core/src/main/java/com/github/dandelion/datatables/core/option/TableConfiguration.java:192-201 | true exactly when a list exists and some callback in it has the type |
| TableConfigurations.TableConfiguration.GetCallback | datatables-core/src/main/java/com/github/dandelion/datatables/core/option/TableConfiguration.java:203-210 | the first callback of the type, null when none; a missing list is dereferenced |
| TableConfigurations.TableConfiguration.AddCssClass | datatables-core/src/main/java/com/github/dandelion/datatables/core/option/TableConfiguration.java:248-257 | the class joins the classes already set after a space, an absent entry starting a new builder; a null map is dereferenced |
| TableConfigurations.TableConfiguration.AddCssStyle | datatables-core/src/main/java/com/github/dandelion/datatables/core/option/TableConfiguration.java:236-246 | the style joins the styles already set after a ";", an absent entry starting a new builder; a null map is dereferenced |
| TableConfigurations.TableConfiguration.AddOption | datatables-core/src/main/java/com/github/dandelion/datatables/core/option/TableConfiguration.java:314-316 | only the option's entry of the options map is written |
| TableConfigurations.TableConfiguration.SetExportConf | datatables-core/src/main/java/com/github/dandelion/datatables/core/option/TableConfiguration.java:121-123 | the format's configuration is stored; a new format goes last in the ordered map, an existing one keeps its place |
| TableConfigurations.TableConfiguration.GetExportConf | datatables-core/src/main/java/com/github/dandelion/datatables/core/option/TableConfiguration.java:267-269 | the format's configuration, null exactly when there is none |
| TableConfigurations.TableConfiguration.GetMessage | datatables-core/src/main/java/com/github/dandelion/datatables/core/option/TableConfiguration.java:283-285 | the message under the key, null when missing |
| TableConfigurations.TableConfiguration.AddStagingConf | datatables-core/src/main/java/com/github/dandelion/datatables/core/option/TableConfiguration.java:322-324 | only the staging map is written |
| TableConfigurations.FirstOfType | datatables-core/src/main/java/com/github/dandelion/datatables/core/option/TableConfiguration.java:203-210 | found exactly when some callback has the type, and then it is the earliest such callback |
| TableConfigurations.AddCss | datatables-core/src/main/java/com/github/dandelion/datatables/core/option/TableConfiguration.java:236-257 | the options map becomes CssAdded of the old one; a null map is dereferenced |
| TableConfigurations.Clone | datatables-core/src/main/java/com/github/dandelion/datatables/core/option/TableConfiguration.java:110-119 | the clone is new, shares the options map, request, extra JavaScript, callbacks, HTML snippets, exporting flag and messages, and starts with its own empty staging and export maps, no extensions and not exportable |
| TableConfigurations.CssAddedJoins | datatables-core/src/main/java/com/github/dandelion/datatables/core/option/TableConfiguration.java:236-257 | adding to a missing entry or a builder never fails and yields the old text, the separator and the value, other entries unchanged |
| TableConfigurations.CssAddedAllAccumulates | datatables-core/src/main/java/com/github/dandelion/datatables/core/option/TableConfiguration.java:248-257 | classes added one after another to a table without classes build the classes joined by the separator, as HtmlTag does |
| TableConfigurations.CssClassesJoined | datatables-core/src/main/java/com/github/dandelion/datatables/core/option/TableConfiguration.java:248-257 | split on the space, the class attribute built by successive additions gives the classes back |
| TableConfigurations.CloneSharesOptions | datatables-core/src/main/java/com/github/dandelion/datatables/core/option/TableConfiguration.java:110-112 | an option added through a clone is seen by its original |
| ConfigTokens.ConfigToken.constructor | datatables-core/src/main/java/com/github/dandelion/datatables/core/configuration/ConfigToken.java:54-57 | a new token has its property name |
| ConfigTokens.ConfigToken.SetPropertyName | datatables-core/src/main/java/com/github/dandelion/datatables/core/configuration/ConfigToken.java:63-65 | the token's property name becomes the given one |
| ConfigTokens.ConfigToken.SetIn | datatables-core/src/main/java/com/github/dandelion/datatables/core/configuration/ConfigToken.java:101-107 | this token's entry is overwritten and then read back; a missing map is dereferenced |
| ConfigTokens.ConfigToken.AppendIn | datatables-core/src/main/java/com/github/dandelion/datatables/core/configuration/ConfigToken.java:109-118 | the entry becomes Appended of the old map; a missing map is dereferenced |
| ConfigTokens.ConfigToken.AppendCharIn | datatables-core/src/main/java/com/github/dandelion/datatables/core/configuration/ConfigToken.java:124-127 | the entry becomes CharAppended of the old map: an existing builder is extended, a missing one dereferenced |
| ConfigTokens.ConfigToken.AppendInColumn | datatables-core/src/main/java/com/github/dandelion/datatables/core/configuration/ConfigToken.java:129-147 | the entry becomes ColumnAppended of the old map: a blank value is ignored |
| ConfigTokens.TokensAreKeysByIdentity | datatables-core/src/main/java/com/github/dandelion/datatables/core/configuration/ConfigToken.java:72-107 | writing one token's entry leaves every other token's entry alone, even one with the same property name |
| ConfigTokens.RegisteredTokenKeys | datatables-core/src/main/java/com/github/dandelion/datatables/core/configuration/TableConfig.java:229-302 | every registration's key is in the registry and each key leads to a token registered under it |
| ConfigTokens.LocateIntended | datatables-core/src/main/java/com/github/dandelion/datatables/core/configuration/TableConfig.java:304-312 | as intended, a name is found in the registry exactly when its formalised form is a key, and then under that key |
| ConfigTokens.TableConfig.constructor | datatables-core/src/main/java/com/github/dandelion/datatables/core/configuration/TableConfig.java:229-302 | the registry is RegisteredTokens of the registrations in order |
| ConfigTokens.TableConfig.FindByPropertyName | datatables-core/src/main/java/com/github/dandelion/datatables/core/configuration/TableConfig.java:308-344 | the token registered under the name as written; else a name containing "export" gives the shared export token of the first matching pattern, renamed to the name; else null |
| ConfigTokens.RegisterTokens | datatables-core/src/main/java/com/github/dandelion/datatables/core/configuration/TableConfig.java:229-302 | the static initialiser's puts build RegisteredTokens |
| ConfigTokens.DocumentedNameNotFound | datatables-core/src/main/java/com/github/dandelion/datatables/core/configuration/TableConfig.java:308-344 | "feature.paginationType" is registered under "feature.paginationtype" and findByPropertyName("feature.paginationType") yields null |
| ConfigTokens.EveryDeclaredNameFound | datatables-core/src/main/java/com/github/dandelion/datatables/core/configuration/TableConfig.java:229-312 | with the lookup formalising the name, every registered property is found under its declared name in any case and with surrounding blanks |
| ConfigTokens.KeysFoundAsWritten | datatables-core/src/main/java/com/github/dandelion/datatables/core/configuration/TableConfig.java:308-312 | as written, every registry key is itself found |
| ConfigTokens.ExportPropertyFound | datatables-core/src/main/java/com/github/dandelion/datatables/core/configuration/TableConfig.java:313-341 | a key export.format.field that is not a registry key finds its field's export token, as written and as intended |
| ConfigTokens.Applied | datatables-core/src/main/java/com/github/dandelion/datatables/core/configuration/TableConfig.java:358-368 | the map gains every staging entry whose text is not blank, which replaces the table's entry, and keeps its other entries |
| ConfigTokens.ApplyConfiguration | datatables-core/src/main/java/com/github/dandelion/datatables/core/configuration/TableConfig.java:358-368 | the staging map is returned and the table's map becomes Applied |
| ConfigTokens.AppliedStep | datatables-core/src/main/java/com/github/dandelion/datatables/core/configuration/TableConfig.java:360-364 | one more staging entry is one more update, or none when its text is blank |
| ConfigTokens.NullStagingIsCopied | datatables-core/src/main/java/com/github/dandelion/datatables/core/configuration/TableConfig.java:361 | a null staging entry is copied, its text being "null" |
| ConfigTokens.Processed | datatables-core/src/main/java/com/github/dandelion/datatables/core/configuration/TableConfig.java:387-401 | fails with the first processor failure; otherwise the keys are the table's plus the staging ones, a staged value wins and every other entry is what the processors left |
| ConfigTokens.StepsReplaceEach | datatables-core/src/main/java/com/github/dandelion/datatables/core/configuration/TableConfig.java:387-401 | when every processor succeeds, each visited token's entry is what its processor made of it given the effects (staging writes, registered extensions, scopes) of the tokens before it, and unvisited entries are kept |
| ConfigTokens.ProcessedMeaning | datatables-core/src/main/java/com/github/dandelion/datatables/core/configuration/TableConfig.java:387-401 | processing succeeds exactly when every step does, and then each token holds its staged value if one was staged, else what its processor made of it |
| ConfigTokens.FailureSticks | datatables-core/src/main/java/com/github/dandelion/datatables/core/configuration/TableConfig.java:387-401 | once a processor fails, the later tokens are not processed and the whole run fails with that exception |
| ConfigTokens.ProcessConfiguration | datatables-core/src/main/java/com/github/dandelion/datatables/core/configuration/TableConfig.java:387-401 | without a map nothing happens; with one, the map becomes the processed entries merged with the staging map and the table's effects are returned, or on an exception the map keeps the entries processed so far and the exception is returned
| ConfigLoading.FirstDot | datatables-core/src/main/java/com/github/dandelion/datatables/core/config/ConfigLoader.java:224 | the position of the first dot, or the length when there is none |
| ConfigLoading.GroupOfKey | datatables-core/src/main/java/com/github/dandelion/datatables/core/config/ConfigLoader.java:224 | substring(0, indexOf(".")) fails exactly for a key without a dot, and otherwise gives the dot-free group the key starts with |
| ConfigLoading.StrippedParts | datatables-core/src/main/java/com/github/dandelion/datatables/core/config/ConfigLoader.java:303-331 | a key is its group, a dot and its stripped form; a key without a dot is kept whole |
| ConfigLoading.ResolvedGroups | datatables-core/src/main/java/com/github/dandelion/datatables/core/config/ConfigLoader.java:213-237 | fails exactly when a key naming a group has no dot; otherwise holds the default group, the group of every such key and nothing else |
| ConfigLoading.Kept | datatables-core/src/main/java/com/github/dandelion/datatables/core/config/ConfigLoader.java:299-333 | a copy loop takes exactly the entries its filter keeps, with their values |
| ConfigLoading.Overlay | datatables-core/src/main/java/com/github/dandelion/datatables/core/config/ConfigLoader.java:299-333 | the loop puts every kept entry under its stripped key over the base: the result has the base keys and the stripped ones, a stripped key holds the value of an entry stripped to it, the other keys their base value |
| ConfigLoading.OverlayWins | datatables-core/src/main/java/com/github/dandelion/datatables/core/config/ConfigLoader.java:326-333 | a user entry whose stripped key no other entry shares sets that key |
| ConfigLoading.FoundSettings | datatables-core/src/main/java/com/github/dandelion/datatables/core/config/ConfigLoader.java:339-345 | the settings some key finds, each key with the setting it finds |
| ConfigLoading.Collect | datatables-core/src/main/java/com/github/dandelion/datatables/core/config/ConfigLoader.java:337-356 | each found setting holds the value of one of the keys that find it, and the unknown keys are exactly those finding nothing, resolver keys aside |
| ConfigLoading.ResolveGroup | datatables-core/src/main/java/com/github/dandelion/datatables/core/config/ConfigLoader.java:323-358 | a group's properties are the global ones overlaid with its user keys; its options map the settings those keys find to their values; its unknown keys are recorded |
| ConfigLoading.ConfsOf | datatables-core/src/main/java/com/github/dandelion/datatables/core/config/ConfigLoader.java:358 | one options map per group |
| ConfigLoading.ConfigureGroups | datatables-core/src/main/java/com/github/dandelion/datatables/core/config/ConfigLoader.java:323-359 | every group is resolved, and the loop reports a failure exactly when some group has an unknown key |
| ConfigLoading.ConfigLoader.ResolveGroups | datatables-core/src/main/java/com/github/dandelion/datatables/core/config/ConfigLoader.java:213-237 | without user properties only the default group; otherwise ResolvedGroups of the user keys, which are recorded on success |
| ConfigLoading.ConfigLoader.ResolveConfigurations | datatables-core/src/main/java/com/github/dandelion/datatables/core/config/ConfigLoader.java:287-383 | missing properties or groups are dereferenced; otherwise the global properties are the stripped defaults overlaid with the user's global keys, every group is resolved and stored, and it fails exactly when some key is unknown |
| ConfigLoading.GroupKeysIntended | datatables-core/src/main/java/com/github/dandelion/datatables/core/config/ConfigLoader.java:328-333 | with the filter startsWith(g + "."), a key is taken for group g exactly when resolveGroups reads g from it |
| ConfigLoading.TwoGroupsResolved | datatables-core/src/main/java/com/github/dandelion/datatables/core/config/ConfigLoader.java:213-237 | user keys group1.a and group10.b resolve to the groups group1, group10 and global |
| ConfigLoading.ResolvedWhenDotted | datatables-core/src/main/java/com/github/dandelion/datatables/core/config/ConfigLoader.java:213-237 | when every user key has a dot the groups are the keys' prefixes and the default group |
| ConfigLoading.LongerGroupKeysTaken | datatables-core/src/main/java/com/github/dandelion/datatables/core/config/ConfigLoader.java:328-333 | as written, the properties of group1 also receive group10's key b with its value |
| ConfigLoading.ExportKeysCollide | datatables-core/src/main/java/com/github/dandelion/datatables/core/config/ConfigLoader.java:339-345 | as written, two export-class keys of different formats find one shared option and the group keeps only one of the two values |
| ConfigLoading.SharedExportKey | datatables-core/src/main/java/com/github/dandelion/datatables/core/config/ConfigLoader.java:342-344 | two keys finding the one export option leave a single entry holding one of their values |
| ConfigLoading.ExportKeysKept | datatables-core/src/main/java/com/github/dandelion/datatables/core/config/ConfigLoader.java:342-344 | keyed by the name the export key was found under, every export key keeps its own value |
| I18nConfs.Find | datatables-core/src/main/java/com/github/dandelion/datatables/core/generator/DatatableConfigGenerator.java:325-326 | the constant found has the entry's key as its property name; none is found only when no constant has that property name |
| I18nConfs.FindMessage | datatables-core/src/main/java/com/github/dandelion/datatables/core/generator/configuration/DatatablesGenerator.java:323-325 | the inner loop over the constants yields the first constant whose property name is the key, and nothing when the older generator's value is blank |
| I18nConfs.GenerateLanguage | datatables-core/src/main/java/com/github/dandelion/datatables/core/generator/DatatableConfigGenerator.java:318-353 | the loop over the message entries and the sub-map and language insertions produce exactly the specified language map, or nothing |
| I18nConfs.GroupsEmptyIffNoMatch | datatables-core/src/main/java/com/github/dandelion/datatables/core/generator/DatatableConfigGenerator.java:324-339 | the three maps stay empty exactly when no message entry matches a constant |
| I18nConfs.InsertKeepsSize | datatables-core/src/main/java/com/github/dandelion/datatables/core/generator/DatatableConfigGenerator.java:327-335 | inserting a matched message never shrinks the maps and leaves them non-empty |
| I18nConfs.LanguageIffMatched | datatables-core/src/main/java/com/github/dandelion/datatables/core/generator/DatatableConfigGenerator.java:350-352 | the language entry is written exactly when some message is taken; under the older generator's blank check, all-blank values write nothing |
| I18nConfs.MessagesPlaced | datatables-core/src/main/java/com/github/dandelion/datatables/core/generator/DatatableConfigGenerator.java:327-335 | every taken message lands, under its real name, in the paginate map when its key contains "paginate", else the aria map when it contains "aria", else the top-level map |
| I18nConfs.MessagesSourced | datatables-core/src/main/java/com/github/dandelion/datatables/core/generator/DatatableConfigGenerator.java:327-335 | every entry of each map comes from a taken message whose key selects that map, and holds that message's value |
| InitialSorts.Put | datatables-core/src/main/java/com/github/dandelion/datatables/core/generator/DatatableConfigGenerator.java:286 | TreeMap.put keeps the keys ascending, the result is non-empty and holds only the new pair and old pairs |
| InitialSorts.PutIsUpdate | datatables-core/src/main/java/com/github/dandelion/datatables/core/generator/DatatableConfigGenerator.java:286 | put is a map update: the key gets the new value, every other key keeps its value, and the size grows by one only for a new key |
| InitialSorts.GetAbsentBelow | datatables-core/src/main/java/com/github/dandelion/datatables/core/generator/DatatableConfigGenerator.java:296 | in an ascending TreeMap, a key below the first key is absent |
| InitialSorts.PutAbove | datatables-core/src/main/java/com/github/dandelion/datatables/core/generator/DatatableConfigGenerator.java:291 | a key above every present key is appended at the end |
| InitialSorts.Tree | datatables-core/src/main/java/com/github/dandelion/datatables/core/generator/DatatableConfigGenerator.java:278-293 | the TreeMap built by the column loop has ascending keys |
| InitialSorts.SortedColumnMap | datatables-core/src/main/java/com/github/dandelion/datatables/core/generator/DatatableConfigGenerator.java:275-293 | the column loop builds exactly the specified TreeMap, with an ordered column under its order and a direction-only column under the current key count |
| InitialSorts.Values | datatables-core/src/main/java/com/github/dandelion/datatables/core/generator/DatatableConfigGenerator.java:296-302 | the sort list has one pair per TreeMap entry |
| InitialSorts.TreeWithoutOrders | datatables-core/src/main/java/com/github/dandelion/datatables/core/generator/DatatableConfigGenerator.java:288-292 | with no sort orders, every column with a direction is listed in column order under the keys 0, 1, ... |
| InitialSorts.TreeEmptyIffNoDirection | datatables-core/src/main/java/com/github/dandelion/datatables/core/generator/DatatableConfigGenerator.java:304-306 | the order entry is absent exactly when no column has a non-blank initial direction |
| InitialSorts.TreeEntriesDirected | datatables-core/src/main/java/com/github/dandelion/datatables/core/generator/DatatableConfigGenerator.java:283-291 | every listed pair names a column index whose column has that initial direction |
| InitialSorts.ExplicitOrdersReorder | datatables-core/src/main/java/com/github/dandelion/datatables/core/generator/DatatableConfigGenerator.java:283-287 | sort orders reorder the list: a first column with order 1 and a second with order 0 come out second column first |
| InitialSorts.UnorderedReplacesOrdered | datatables-core/src/main/java/com/github/dandelion/datatables/core/generator/DatatableConfigGenerator.java:288-292 | a direction-only column goes under the key count, which can be a key an ordered column already holds, and that column's initial sort is lost |
| ConfigGenerators.ColumnEntries | datatables-core/src/main/java/com/github/dandelion/datatables/core/generator/DatatableConfigGenerator.java:199-265 | a column map has the name, data, renderer and sort type exactly when not blank, the flags exactly when set, a default content always ("" when unset), the cell class only when the table has a non-blank ajax source, and the sort directions as their values |
| ConfigGenerators.Shown | datatables-core/src/main/java/com/github/dandelion/datatables/core/generator/DatatableConfigGenerator.java:192-196 | the kept columns are exactly the columns whose display types include ALL or HTML |
| ConfigGenerators.ColumnMapsShown | datatables-core/src/main/java/com/github/dandelion/datatables/core/generator/DatatableConfigGenerator.java:192-268 | the loop collects one map per shown column, in column order |
| ConfigGenerators.GenerateColumns | datatables-core/src/main/java/com/github/dandelion/datatables/core/generator/DatatableConfigGenerator.java:186-271 | the aoColumns loop yields exactly the specified column maps |
| ConfigGenerators.SortingContent | datatables-core/src/main/java/com/github/dandelion/datatables/core/generator/DatatableConfigGenerator.java:296-302 | the loop over the TreeMap's entries yields one [index, direction] pair per entry, in ascending key order |
| ConfigGenerators.GenerateConfig | datatables-core/src/main/java/com/github/dandelion/datatables/core/generator/DatatableConfigGenerator.java:77-96 | generateConfig runs the column, i18n, feature, scrolling, misc, ajax and callback steps in that order and returns the specified main map |
| ConfigGenerators.ColumnsEntry | datatables-core/src/main/java/com/github/dandelion/datatables/core/generator/DatatableConfigGenerator.java:270 | the columns entry is always present, with one map per shown column |
| ConfigGenerators.OrderEntry | datatables-core/src/main/java/com/github/dandelion/datatables/core/generator/DatatableConfigGenerator.java:304-306 | the initial sort is written exactly when the TreeMap is not empty, as the list of its pairs |
| ConfigGenerators.OrderNamesShownColumns | datatables-core/src/main/java/com/github/dandelion/datatables/core/generator/DatatableConfigGenerator.java:273-306 | the initial sort is present exactly when a shown column has a non-blank initial direction, and each pair names a shown column with its own direction |
| ConfigGenerators.LanguageEntry | datatables-core/src/main/java/com/github/dandelion/datatables/core/generator/DatatableConfigGenerator.java:318-353 | the language entry is present exactly when some message is taken (for the older generator, also non-blank), and holds the grouped language map |
| ConfigGenerators.FeatureEntries | datatables-core/src/main/java/com/github/dandelion/datatables/core/generator/DatatableConfigGenerator.java:118-142 | searching, info, paging, ordering and processing appear exactly when their options are set, with their values |
| ConfigGenerators.ScrollingEntries | datatables-core/src/main/java/com/github/dandelion/datatables/core/generator/DatatableConfigGenerator.java:98-116 | scrollY, scrollX and scrollXInner appear exactly when not blank, and scrollCollapse exactly when set |
| ConfigGenerators.MiscEntries | datatables-core/src/main/java/com/github/dandelion/datatables/core/generator/DatatableConfigGenerator.java:144-184 | the DOM appears when not blank, the flags and display length when set, the paging type as its text, and the length menu and stripe classes as snippets when not blank |
| ConfigGenerators.ServerSideEntry | datatables-core/src/main/java/com/github/dandelion/datatables/core/generator/DatatableConfigGenerator.java:368-378 | serverSide appears exactly when its option is set, in both generators |
| ConfigGenerators.DeferRenderEntry | datatables-core/src/main/java/com/github/dandelion/datatables/core/generator/DatatableConfigGenerator.java:395-397 | deferRender appears exactly when its option is set, in both generators |
| ConfigGenerators.AjaxServerKeys | datatables-core/src/main/java/com/github/dandelion/datatables/core/generator/configuration/DatatablesGenerator.java:373-395 | the older generator writes the ajax source, server data, server params and server method only when serverSide is set and the value is not blank; the current generator never writes them |
| ConfigGenerators.CurrentOmits | datatables-core/src/main/java/com/github/dandelion/datatables/core/generator/DatatableConfigGenerator.java:368-393 | the current generator's steps never write the older ajax keys |
| ConfigGenerators.CallbackEntry | datatables-core/src/main/java/com/github/dandelion/datatables/core/generator/DatatableConfigGenerator.java:400-406 | a callback type's key is present exactly when a callback of that type is registered, and holds the function of the last one registered |
| GeneratedConfs.PutCallbacks | datatables-core/src/main/java/com/github/dandelion/datatables/core/generator/DatatableConfigGenerator.java:400-406 | the callback loop puts each callback, in order, under its type's name |
| GeneratedConfs.CallbacksKeepOthers | datatables-core/src/main/java/com/github/dandelion/datatables/core/generator/DatatableConfigGenerator.java:400-406 | the callback loop leaves every non-callback entry as it was |
| GeneratedConfs.CallbacksApplied | datatables-core/src/main/java/com/github/dandelion/datatables/core/generator/MainGenerator.java:200-204 | after the callback loop, each callback type holds the function of the last callback of that type, and types with no callback are unchanged |
| MainGenerators.DirectionsNormalised | datatables-core/src/main/java/com/github/dandelion/datatables/core/generator/MainGenerator.java:102-106 | the sort directions contain no comma and no upper-case ASCII letter, and a text without a comma gives the single trimmed, lower-cased direction |
| MainGenerators.ColumnEntries | datatables-core/src/main/java/com/github/dandelion/datatables/core/generator/MainGenerator.java:80-106 | sortable and searchable are always in a column map (null when unset), the default content whenever a default value is set, the data and renderer when not blank, and the normalised sort directions when the direction text is not blank |
| MainGenerators.ColumnKeys | datatables-core/src/main/java/com/github/dandelion/datatables/core/generator/MainGenerator.java:80-106 | a column map holds no parameter beyond those six |
| MainGenerators.HtmlColumns | datatables-core/src/main/java/com/github/dandelion/datatables/core/generator/MainGenerator.java:77-79 | the kept columns are exactly those whose display types contain HTML, and ALL alone is not enough |
| MainGenerators.ColumnMapsHtml | datatables-core/src/main/java/com/github/dandelion/datatables/core/generator/MainGenerator.java:77-110 | the loop collects one map per HTML column, in order |
| MainGenerators.GenerateColumns | datatables-core/src/main/java/com/github/dandelion/datatables/core/generator/MainGenerator.java:74-111 | the aoColumns loop yields exactly the specified column maps |
| MainGenerators.SortingContent | datatables-core/src/main/java/com/github/dandelion/datatables/core/generator/MainGenerator.java:113-128 | the sort-init loop yields one [index, direction] pair per column with a non-blank initial direction, in column order, with the index counting every header column |
| MainGenerators.SortingPairs | datatables-core/src/main/java/com/github/dandelion/datatables/core/generator/MainGenerator.java:117-128 | each pair names a column by its position among all header columns with that column's initial direction; every such column has a pair; the list is empty exactly when no column has one |
| MainGenerators.Assemble | datatables-core/src/main/java/com/github/dandelion/datatables/core/generator/MainGenerator.java:206 | the dom entry is always "lfrtip" |
| MainGenerators.GenerateConfig | datatables-core/src/main/java/com/github/dandelion/datatables/core/generator/MainGenerator.java:67-211 | generateConfig returns the specified main map |
| MainGenerators.ColumnsEntry | datatables-core/src/main/java/com/github/dandelion/datatables/core/generator/MainGenerator.java:111 | the columns entry is always present, with one map per HTML column |
| MainGenerators.OrderEntry | datatables-core/src/main/java/com/github/dandelion/datatables/core/generator/MainGenerator.java:129-131 | the initial sort is present exactly when some header column has a non-blank initial direction, and holds the list of pairs |
| MainGenerators.LanguageEntry | datatables-core/src/main/java/com/github/dandelion/datatables/core/generator/MainGenerator.java:133-137 | the language entry is present exactly when labels are set, and holds the labels under the url key |
| MainGenerators.FlagEntries | datatables-core/src/main/java/com/github/dandelion/datatables/core/generator/MainGenerator.java:138-155 | auto width, defer render, filtering, info, pagination and display length appear exactly when their options are set |
| MainGenerators.DisplayEntries | datatables-core/src/main/java/com/github/dandelion/datatables/core/generator/MainGenerator.java:156-176 | length change, pagination type, sorting, state saving and jQuery UI appear exactly when set; the length menu and stripe classes appear as snippets when not blank |
| MainGenerators.AjaxEntries | datatables-core/src/main/java/com/github/dandelion/datatables/core/generator/MainGenerator.java:179-197 | processing and server side appear when set; the ajax source, server data, server params and server method appear only when server side is set and the value is not blank |
| MainGenerators.CallbackEntry | datatables-core/src/main/java/com/github/dandelion/datatables/core/generator/MainGenerator.java:200-204 | a callback type's key is present exactly when such a callback is registered, and holds a snippet of the last one's code |
| FilteringGenerators.TypeNameRoundTrip | datatables-core/src/main/java/com/github/dandelion/datatables/core/generator/configuration/ColumnFilteringGenerator.java:92-105 | each filter type is sent under its own name, which reads back as that type and is never "null" |
| FilteringGenerators.TypeOfNameRoundTrip | datatables-core/src/main/java/com/github/dandelion/datatables/core/generator/configuration/ColumnFilteringGenerator.java:92-105 | every name that stands for a filter type is that type's name |
| FilteringGenerators.FilterTypeValueMeaning | datatables-core/src/main/java/com/github/dandelion/datatables/core/generator/configuration/ColumnFilteringGenerator.java:88-109 | the type sent is "null" exactly when filtering is off or no type is set, and otherwise names the column's filter type |
| FilteringGenerators.FilterEntries | datatables-core/src/main/java/com/github/dandelion/datatables/core/generator/configuration/ColumnFilteringGenerator.java:84-124 | a column map always has the type, has the selector and the values (as a snippet) when not blank, and the length when set |
| FilteringGenerators.FilterKeys | datatables-core/src/main/java/com/github/dandelion/datatables/core/generator/configuration/ColumnFilteringGenerator.java:84-124 | a column map holds no parameter beyond those four |
| FilteringGenerators.GenerateFilterMaps | datatables-core/src/main/java/com/github/dandelion/datatables/core/generator/configuration/ColumnFilteringGenerator.java:80-127 | the column loop yields one map per ALL/HTML column, in column order, and no map for other columns |
| FilteringGenerators.FilterMapsAre | datatables-core/src/main/java/com/github/dandelion/datatables/core/generator/configuration/ColumnFilteringGenerator.java:80-127 | the maps the loop yields are exactly the per-column filter maps of the shown columns |
| FilteringGenerators.GenerateConfig | datatables-core/src/main/java/com/github/dandelion/datatables/core/generator/configuration/ColumnFilteringGenerator.java:65-133 | generateConfig returns the placeholder's name when one is configured, then the columns entry |
| FilteringGenerators.FilteringConfEntries | datatables-core/src/main/java/com/github/dandelion/datatables/core/generator/configuration/ColumnFilteringGenerator.java:72-128 | the columns entry is always present with one map per shown column, the placeholder entry exactly when configured, and there is nothing else |
| FilteringGenerators.LegacyTypeNames | datatables-core/src/main/java/com/github/dandelion/datatables/core/generator/ColumnFilteringGenerator.java:80-93 | the older switch agrees with the newer names except NUMBER_RANGE, which falls to the default "text" |
| FilteringGenerators.GenerateLegacyConfig | datatables-core/src/main/java/com/github/dandelion/datatables/core/generator/ColumnFilteringGenerator.java:63-107 | the older generator returns only the columns entry, with one type-only map per column whose display types contain HTML, in order |
| FilteringGenerators.GenerateYadcf | datatables-core/src/main/java/com/github/dandelion/datatables/core/generator/YadcfConfigGenerator.java:60-129 | the loop yields one entry per shown column with filtering on, in column order, each the entry of that column's position among all header columns |
| FilteringGenerators.YadcfEntryContents | datatables-core/src/main/java/com/github/dandelion/datatables/core/generator/YadcfConfigGenerator.java:78-120 | an entry's column_number is the column's position among all header columns; filter_type is "select" for SELECT, "text" for INPUT or no type, and absent for other types; container id and data appear when not blank, externally_triggered when the table has a filter selector, and filter_delay when set |

## Left out

- Iteration order of HashMap, HashSet, Properties and TreeMap entry sets: it is a parameter (the sequence the loop visits) wherever the result depends on it. TreeMap order is modelled, because it is ascending by key.
- Classes that are not part of this model become parameters or plain strings, and their constants are given by the caller. This covers: the FilterPlaceholder, ReservedFormat, Direction, PagingType and PaginationType enums, DTMessages, the missing DTConstants and ExportConstants fields, the JavascriptGenerator INDENTATION and NEWLINE constants, WebResources, and the contents of resource files.
- URL encoding, `encodeURL`, random ids, compression and classpath loading are not modelled; encoding is an uninterpreted function passed in by the caller. The same goes for reading the default, user and auto configuration files (loadDefaultConfiguration, loadUserConfiguration, loadAutoConfiguration) and the exclusion of the standalone bundle.
- JSON serialisation of the generated maps (JSONValue.toJSONString, toArray) is not modelled; the model stops at the maps themselves.
- Extension `setup()` bodies of subclasses and custom export formats are subclass or user code; only the feature and plugin setups listed in the table are modelled.
- HtmlRow.getColumns(formats) is not a member of its own. The generators' selection of the ALL or HTML columns (ConfigGenerators.Shown, FilteringGenerators.GenerateFilterMaps) stands for its call with ALL and HTML.
- HtmlHyperlink and HtmlDiv are not modelled as classes. ExportFeatures.LinkOf gives a link's class, style, target and label, and its markup is the `linkHtml` parameter; the div's markup is ExportFeatures.DivHtml, written as the tags of the html package render.
- ExportFeatures.Setup returns the placement text instead of registering it with addCallback(INIT, …, APPEND); addCallback and addBundle of the extension classes (used by the themes) are not modelled.
- The DisplayType and ExportType enums are not part of this model and are reconstructed. DisplayType holds the constants the source names (ALL, HTML, CSV, XML, XLS, XLSX, PDF, and RTF and JSON in MainGeneratorTest.java:46-47). ExportType holds the five formats the legacy classes name, plus RTF and JSON standing for the constants left to the default branch of getExportClass (TableConfiguration.java:360, TableProperties.java:247).
- ProcessorUtils bundle handling is not modelled; enum values stored in a configuration are kept as their names.
- ConfigurationProcessors.ConfigurationProcessor.Process: the value's `String.valueOf` text is a parameter (`text`) instead of being computed from the value.
- Values put into a configuration are snapshots: a StringBuilder or YADCF map that the source keeps mutating after the put is modelled with its final content.
- Floating point, logging, concurrency and the state a Java object is left in when an exception escapes halfway through a method are not modelled.
- The text of the message listing unknown keys in ConfigLoader is not modelled; only the fact that loading fails is.
- JavaString: `toLowerCase`, `toUpperCase` and `equalsIgnoreCase` are modelled on ASCII letters only, and `split` only for a one-character pattern that is not a regular-expression metacharacter.
- ExportConfs.ExportConf.constructor: ExportConf.java is the older version, built from an ExportType (lines 50-59). The model follows the string-format version that ExportFeature and the processors use (`new ExportConf(format)` at ExportFormatProcessor.java:120, ExportEnabledFormatProcessor.java:84 and ExportFeatureTest.java:27), with the defaults init() sets at ExportConf.java:64-71. The HTTP method, export class and mime type of that version have no field in ExportConf.java; they start as GET and unset. ExportConfs.ExportConf.HashCode hashes the format string, as the string version would, whereas ExportConf.java:153-158 hashes an enum constant, whose hash is an identity hash.
- ConfigTokens.ProcessConfiguration: each token's processor is a parameter returning the new entry and the table's effects (staging writes, registered extensions, scopes) or an exception; the legacy processors of ConfigurationProcessors are not plugged into it, and the reflective lookup of a processor class is not modelled.
- Pagination.HostPageChange: the host library's page change is reconstructed for the four button actions only; numeric page actions, the page event and the redraw itself are not modelled. A zero display length is outside the model: the host computes the last-page start as parseInt of a division by 0, a NaN start that counts as a move, while the model keeps the start.
- Criterias.ParseIntParameter: JavaString.ParseInt accepts ASCII decimal digits only, while Integer.parseInt also accepts the other Unicode decimal digits (Character.digit); a draw, start, length or order parameter written with such digits fails in the model but parses in the source.
- Extensions.Equals: CssResource is not part of this model and is a value, so stylesheet lists are compared by their contents; whether CssResource overrides equals is not known here.
- Extensions.Parameter: the setters of Parameter are not modelled, so a parameter's name, value and mode are fixed at construction.

## Findings

| source | as written | input that shows it | evidently intended | confidence | as-written member | corrected member |
|---|---|---|---|---|---|---|
| datatables-core/src/main/java/com/github/dandelion/datatables/core/ajax/DatatablesCriterias.java:239-242 | the column count is incremented only when it is not 0, so a request whose largest column index is 0 counts no column | only `columns[0][data]` present: count 0 | the largest index plus one (1 here) | not executed | Criterias.SingleColumnIsDropped | Criterias.IntendedColumnNumber |
| datatables-core/src/main/java/com/github/dandelion/datatables/core/ajax/DatatablesCriterias.java:181-186 | a search term starting with "~" reads `split("~")[1]`; for "~~" split drops every empty piece and returns an empty array | search term "~~": ArrayIndexOutOfBoundsException | "~~" treated as an empty range, like "~" | not executed | Criterias.DoubleTildeFails | Criterias.SplitSearchIntended |
| datatables-core/src/main/java/com/github/dandelion/datatables/core/html/HtmlRow.java:72-80 | a row renders only the columns whose display types contain HTML, while a column built without a display type gets [ALL] (HtmlColumn.java:115) | a row with one column built by addColumn("x"): renders no cell | ALL counts as HTML, so every column built this way is rendered | not executed | Html.DefaultColumnsShown | Html.ColumnsHtmlIntended |
| datatables-core/src/main/java/com/github/dandelion/datatables/core/html/HtmlColumn.java:145-147 | getCssCellClass returns the header class cssClass | a fresh cell given the cell class "a": the getter answers null | the getter answers cssCellClass | not executed | Html.CellClassGetterMismatch | Html.HtmlColumn.GetCssCellClassIntended |
| datatables-core/src/main/java/com/github/dandelion/datatables/core/extension/ExtensionProcessor.java:105-120 | the beforeStartDocumentReady section of an extension is never injected into the main file | an extension holding only beforeStartDocumentReady text: main file unchanged | every section of the extension is carried into the main file | not executed | ExtensionLoading.BeforeStartTextLost | ExtensionLoading.InjectedIntendedCarriesEverySection |
| datatables-core/src/main/java/com/github/dandelion/datatables/core/configuration/TableConfig.java:308-312 | findByPropertyName compares the raw name with the formalised (lower-cased) registry keys | "feature.paginationType": not found | the name is formalised before the lookup | not executed | ConfigTokens.DocumentedNameNotFound | ConfigTokens.EveryDeclaredNameFound |
| datatables-core/src/main/java/com/github/dandelion/datatables/core/config/ConfigLoader.java:328-333 | a group's keys are selected with startsWith(group), without the dot | groups "group1" and "group10": group1 also receives group10's keys | startsWith(group + ".") | not executed | ConfigLoading.LongerGroupKeysTaken | ConfigLoading.GroupKeysIntended |
| datatables-core/src/main/java/com/github/dandelion/datatables/core/config/ConfigLoader.java:339-345 | export keys are stored under the option findByName returns, which is one shared option for every export format | two export-class keys of different formats: one value overwrites the other | each export key keeps its own value | not executed | ConfigLoading.ExportKeysCollide | ConfigLoading.ExportKeysKept |
| datatables-core/src/main/java/com/github/dandelion/datatables/core/processor/AbstractConfigurationProcessor.java:180-181 | after the scope is cut at the first "#", the value is "b#" but the entry is cut a second time at the next "#" | value "a#b#": scope a, value "b#", entry "" | the entry equals the value after the first "#" | not executed | ConfigurationProcessors.TrailingHashEmptiesEntry | ConfigurationProcessors.ScopeIntendedEntryIsValue |
| datatables-core/src/main/java/com/github/dandelion/datatables/core/extension/feature/MultiFilterFeature.java:90-131 | NEWLINE is a char, so new StringBuilder(NEWLINE) only sets the builder's capacity: neither the filter handlers nor the clear handlers start with the newline their builder was meant to hold | a clear selector without the NONE placeholder: the clear handler's "$(" follows the filter handler's "});" on the same line | each handler starts with a newline | not executed | MultiFilter.FilterHandlerNoLeadingNewline, MultiFilter.ClearHandlerSharesLine | MultiFilter.HandlersIntended |
| datatables-core/src/main/java/com/github/dandelion/datatables/core/extension/feature/ExportFeature.java:171-203 | the GET launcher with a server-parameter function closes one parenthesis more than it opens | a GET export with a server parameter function: unbalanced script | balanced parentheses | not executed | ExportFeatures.GetLauncherUnbalanced | ExportFeatures.GetLauncherIntendedBalanced |
