/** The html package: tags with id, class and style attributes, table cells
    (`td`/`th`), rows and tables, and their serialisation to markup.
    Columns and rows are objects: a row keeps references to its columns and
    a table to its rows, as the LinkedLists of the original do. */
module Html {
  import opened Wrappers
  import opened JavaString
  import StringUtils

  /** Separator between two values of a class attribute. */
  const ClassSeparator: char := ' '
  /** Separator between two values of a style attribute. */
  const CssSeparator: char := ';'

  /** The output formats a column can be shown in. */
  datatype DisplayType = ALL | HTML | CSV | XML | XLS | XLSX | PDF | RTF | JSON

  /** The kinds of column filter. */
  datatype FilterType = INPUT | SELECT | NUMBER | NUMBER_RANGE

  /** HtmlTag.writeAttribute: nothing for a null value, otherwise a space,
      the name, `="`, the value and a closing quote. */
  function WriteAttribute(name: string, data: Option<string>): string {
    if data.None? then "" else " " + name + "=\"" + data.value + "\""
  }

  /** An attribute is written only when it has a value, and the value can
      be read back from between the opening `="` and the closing quote. */
  lemma WriteAttributeShape(name: string, data: Option<string>)
    ensures data.None? <==> WriteAttribute(name, data) == ""
    ensures data.Some? ==> |WriteAttribute(name, data)| == |name| + |data.value| + 4
    ensures data.Some? ==> var r := WriteAttribute(name, data);
              r[..|name| + 3] == " " + name + "=\"" && r[|name| + 3..|r| - 1] == data.value && r[|r| - 1] == '"'
  {
    if data.Some? {
      var r := WriteAttribute(name, data);
      assert r[..|name| + 3] == " " + name + "=\"";
      assert r[|name| + 3..|r| - 1] == data.value;
    }
  }

  /** HtmlTag.getHtmlAttributes: id, then class, then style. */
  function Attributes(id: Option<string>, cssClass: Option<string>, cssStyle: Option<string>): string {
    WriteAttribute("id", id) + WriteAttribute("class", cssClass) + WriteAttribute("style", cssStyle)
  }

  /** Attributes that are absent are skipped, and the ones present keep the
      order id, class, style. */
  lemma AttributeOrder(id: Option<string>, cssClass: Option<string>, cssStyle: Option<string>)
    ensures id.None? && cssClass.None? && cssStyle.None? ==> Attributes(id, cssClass, cssStyle) == ""
    ensures id.Some? ==> StartsWith(Attributes(id, cssClass, cssStyle), " id=\"")
    ensures id.None? && cssClass.Some? ==> StartsWith(Attributes(id, cssClass, cssStyle), " class=\"")
    ensures id.None? && cssClass.None? && cssStyle.Some? ==>
              Attributes(id, cssClass, cssStyle) == WriteAttribute("style", cssStyle)
    ensures cssStyle.Some? ==> EndsWith(Attributes(id, cssClass, cssStyle), WriteAttribute("style", cssStyle))
  {
    var a := Attributes(id, cssClass, cssStyle);
    if id.Some? {
      assert a[..5] == WriteAttribute("id", id)[..5];
    } else if cssClass.Some? {
      assert a[..8] == WriteAttribute("class", cssClass)[..8];
    }
  }

  function OpeningTag(tag: string, attributes: string): string {
    "<" + tag + attributes + ">"
  }

  function ClosingTag(tag: string): string {
    "</" + tag + ">"
  }

  /** The buffer after addCssClass/addCssStyle and their cell variants: the
      first value is stored as it is, a later one follows the separator. */
  function Appended(buffer: Option<string>, separator: char, value: string): (r: Option<string>)
    ensures r.Some? && EndsWith(r.value, value)
    ensures buffer.None? ==> r.value == value
    ensures buffer.Some? ==> r.value == buffer.value + [separator] + value
  {
    if buffer.None? then Some(value) else Some(buffer.value + [separator] + value)
  }

  /** The buffer after adding each of `values` in turn to an absent one. */
  function Accumulated(values: seq<string>, separator: char): Option<string> {
    if |values| == 0 then None
    else Appended(Accumulated(values[..|values| - 1], separator), separator, values[|values| - 1])
  }

  /** Adding values one by one builds their join with the separator, and when
      no value holds the separator, splitting the buffer on it gives the
      values back. */
  lemma {:induction false} AccumulatedJoins(values: seq<string>, separator: char)
    ensures |values| == 0 <==> Accumulated(values, separator).None?
    ensures |values| > 0 ==>
              Accumulated(values, separator) == Some(StringUtils.Joined(StringUtils.Wrap(values), [separator]))
    ensures |values| > 0 && (forall i :: 0 <= i < |values| ==> separator !in values[i]) ==>
              Pieces(Accumulated(values, separator).value, separator) == values
  {
    if |values| > 0 {
      AccumulatedIsJoined(values, separator);
      if forall i :: 0 <= i < |values| ==> separator !in values[i] {
        StringUtils.JoinedThenPieces(values, separator);
      }
    }
  }

  lemma {:induction false} AccumulatedIsJoined(values: seq<string>, separator: char)
    requires |values| > 0
    ensures Accumulated(values, separator) == Some(StringUtils.Joined(StringUtils.Wrap(values), [separator]))
  {
    var w := StringUtils.Wrap(values);
    var last := values[|values| - 1];
    assert w[|w| - 1] == Some(last);
    if |values| > 1 {
      var init := values[..|values| - 1];
      AccumulatedIsJoined(init, separator);
      assert w[..|w| - 1] == StringUtils.Wrap(init);
      assert StringUtils.Joined(w, [separator])
             == StringUtils.Joined(StringUtils.Wrap(init), [separator]) + [separator] + last;
    }
  }


  /** The markup of a tag with content: opening tag, content, closing tag. */
  function ElementHtml(tag: string, attributes: string, content: Option<string>): string {
    OpeningTag(tag, attributes) + content.GetOr("") + ClosingTag(tag)
  }

  function CellTag(isHeader: bool): string {
    if isHeader then "th" else "td"
  }

  /** html/HtmlColumn: a `th` or `td` cell. A header takes its class and
      style from cssClass/cssStyle, a body cell from cssCellClass and
      cssCellStyle. */
  class HtmlColumn {
    var tag: string
    var id: Option<string>
    var cssClass: Option<string>
    var cssStyle: Option<string>
    var content: Option<string>
    var isHeaderColumn: bool
    var cssCellClass: Option<string>
    var cssCellStyle: Option<string>
    var sortable: bool
    var filterable: bool
    var searchable: bool
    var filterType: Option<FilterType>
    var enabledDisplayTypes: seq<DisplayType>

    /** The tag follows the header flag. */
    predicate Valid()
      reads this
    {
      tag == CellTag(isHeaderColumn)
    }

    /** The values init() sets. */
    predicate HasDefaults()
      reads this
    {
      sortable && !filterable && searchable && filterType == Some(INPUT)
    }

    /** No attribute and no content yet. */
    predicate Bare()
      reads this
    {
      id.None? && cssClass.None? && cssStyle.None? && cssCellClass.None? && cssCellStyle.None?
    }

    /** HtmlColumn(): a body cell enabled for ALL. */
    constructor ()
      ensures Valid() && HasDefaults() && Bare() && content.None?
      ensures !isHeaderColumn && enabledDisplayTypes == [ALL]
    {
      sortable, filterable, searchable, filterType := true, false, true, Some(INPUT);
      enabledDisplayTypes := [ALL];
      isHeaderColumn, tag := false, "td";
      id, cssClass, cssStyle, cssCellClass, cssCellStyle, content := None, None, None, None, None, None;
    }

    /** HtmlColumn(DisplayType): a body cell enabled for that type only. */
    constructor OfDisplayType(displayType: DisplayType)
      ensures Valid() && HasDefaults() && Bare() && content.None?
      ensures !isHeaderColumn && enabledDisplayTypes == [displayType]
    {
      sortable, filterable, searchable, filterType := true, false, true, Some(INPUT);
      enabledDisplayTypes := [ALL];
      enabledDisplayTypes := [];
      enabledDisplayTypes := enabledDisplayTypes + [displayType];
      isHeaderColumn, tag := false, "td";
      id, cssClass, cssStyle, cssCellClass, cssCellStyle, content := None, None, None, None, None, None;
    }

    /** HtmlColumn(Boolean isHeader, String content): a null content leaves
        the content unset. */
    constructor WithContent(isHeader: bool, content: Option<string>)
      ensures Valid() && HasDefaults() && Bare() && this.content == content
      ensures isHeaderColumn == isHeader && enabledDisplayTypes == [ALL]
    {
      sortable, filterable, searchable, filterType := true, false, true, Some(INPUT);
      enabledDisplayTypes := [ALL];
      isHeaderColumn := isHeader;
      tag := if isHeader then "th" else "td";
      id, cssClass, cssStyle, cssCellClass, cssCellStyle := None, None, None, None, None;
      this.content := None;
      if content.Some? {
        this.content := content;
      }
    }

    /** getHtmlAttributes: the id, then the class and style that belong to
        the kind of cell. */
    function HtmlAttributes(): string
      reads this
    {
      if isHeaderColumn then Attributes(id, cssClass, cssStyle)
      else Attributes(id, cssCellClass, cssCellStyle)
    }

    /** The cell's markup. */
    function Html(): string
      reads this
    {
      ElementHtml(tag, HtmlAttributes(), content)
    }

    /** getCssCellClass as written: it hands back the header class. */
    function GetCssCellClass(): (r: Option<string>)
      reads this
      ensures r == cssClass
    {
      cssClass
    }

    /** The getter the name promises: the body-cell class. */
    function GetCssCellClassIntended(): (r: Option<string>)
      reads this
      ensures r == cssCellClass
    {
      cssCellClass
    }

    method AddCssClass(value: string)
      modifies this
      ensures cssClass == Appended(old(cssClass), ClassSeparator, value)
      ensures cssStyle == old(cssStyle) && cssCellClass == old(cssCellClass) && cssCellStyle == old(cssCellStyle)
      ensures unchanged(this`tag, this`id, this`content, this`isHeaderColumn, this`enabledDisplayTypes)
    {
      var buffer: string;
      if cssClass.None? {
        buffer := "";
      } else {
        buffer := cssClass.value + [ClassSeparator];
      }
      assert "" + value == value;
      cssClass := Some(buffer + value);
    }

    method AddCssStyle(value: string)
      modifies this
      ensures cssStyle == Appended(old(cssStyle), CssSeparator, value)
      ensures cssClass == old(cssClass) && cssCellClass == old(cssCellClass) && cssCellStyle == old(cssCellStyle)
      ensures unchanged(this`tag, this`id, this`content, this`isHeaderColumn, this`enabledDisplayTypes)
    {
      var buffer: string;
      if cssStyle.None? {
        buffer := "";
      } else {
        buffer := cssStyle.value + [CssSeparator];
      }
      assert "" + value == value;
      cssStyle := Some(buffer + value);
    }

    method AddCssCellClass(value: string)
      modifies this
      ensures cssCellClass == Appended(old(cssCellClass), ClassSeparator, value)
      ensures cssClass == old(cssClass) && cssStyle == old(cssStyle) && cssCellStyle == old(cssCellStyle)
      ensures unchanged(this`tag, this`id, this`content, this`isHeaderColumn, this`enabledDisplayTypes)
    {
      var buffer: string;
      if cssCellClass.None? {
        buffer := "";
      } else {
        buffer := cssCellClass.value + [ClassSeparator];
      }
      assert "" + value == value;
      cssCellClass := Some(buffer + value);
    }

    method AddCssCellStyle(value: string)
      modifies this
      ensures cssCellStyle == Appended(old(cssCellStyle), CssSeparator, value)
      ensures cssClass == old(cssClass) && cssStyle == old(cssStyle) && cssCellClass == old(cssCellClass)
      ensures unchanged(this`tag, this`id, this`content, this`isHeaderColumn, this`enabledDisplayTypes)
    {
      var buffer: string;
      if cssCellStyle.None? {
        buffer := "";
      } else {
        buffer := cssCellStyle.value + [CssSeparator];
      }
      assert "" + value == value;
      cssCellStyle := Some(buffer + value);
    }
  }

  /** A header cell is a `th` styled by cssClass/cssStyle whatever its cell
      classes are, and a body cell a `td` styled by its cell classes whatever
      its header classes are. */
  lemma CellMarkup(c: HtmlColumn)
    requires c.Valid()
    ensures c.isHeaderColumn ==> c.Html() == ElementHtml("th", Attributes(c.id, c.cssClass, c.cssStyle), c.content)
    ensures !c.isHeaderColumn ==> c.Html() == ElementHtml("td", Attributes(c.id, c.cssCellClass, c.cssCellStyle), c.content)
    ensures StartsWith(c.Html(), "<" + CellTag(c.isHeaderColumn))
  {
    var h := c.Html();
    var t := CellTag(c.isHeaderColumn);
    assert h[..|t| + 1] == "<" + t;
  }

  /** getCssCellClass does not return what addCssCellClass built: on a fresh
      cell given the class "a" it answers null. */
  method CellClassGetterMismatch() returns (c: HtmlColumn)
    ensures c.GetCssCellClass() == None
    ensures c.GetCssCellClassIntended() == Some("a")
  {
    c := new HtmlColumn();
    c.AddCssCellClass("a");
  }

  /** The markup of the columns a row shows, in order: as written, only
      columns enabled for HTML are rendered. */
  function ColumnsHtml(cols: seq<HtmlColumn>): string
    reads cols
  {
    if |cols| == 0 then ""
    else
      var last := cols[|cols| - 1];
      ColumnsHtml(cols[..|cols| - 1]) + (if HTML in last.enabledDisplayTypes then last.Html() else "")
  }

  /** The columns with HTML among their display types, in order. */
  function HtmlColumnsOf(cols: seq<HtmlColumn>): (r: seq<HtmlColumn>)
    reads cols
    ensures |r| <= |cols|
    ensures forall i :: 0 <= i < |r| ==> r[i] in cols && HTML in r[i].enabledDisplayTypes
    ensures forall i :: 0 <= i < |cols| && HTML in cols[i].enabledDisplayTypes ==> cols[i] in r
  {
    if |cols| == 0 then []
    else
      var last := cols[|cols| - 1];
      HtmlColumnsOf(cols[..|cols| - 1]) + (if HTML in last.enabledDisplayTypes then [last] else [])
  }

  /** The markups of the given columns, concatenated. */
  function Concatenated(cols: seq<HtmlColumn>): string
    reads cols
  {
    if |cols| == 0 then "" else Concatenated(cols[..|cols| - 1]) + cols[|cols| - 1].Html()
  }

  lemma {:induction false} ConcatenatedAppend(a: seq<HtmlColumn>, b: seq<HtmlColumn>)
    ensures Concatenated(a + b) == Concatenated(a) + Concatenated(b)
    decreases |b|
  {
    if |b| > 0 {
      var init := b[..|b| - 1];
      var last := b[|b| - 1];
      var ab := a + b;
      assert ab[..|ab| - 1] == a + init;
      assert ab[|ab| - 1] == last;
      ConcatenatedAppend(a, init);
      var x, y, z := Concatenated(a), Concatenated(init), last.Html();
      assert Concatenated(ab) == Concatenated(a + init) + z;
      assert Concatenated(b) == y + z;
      AppendAssoc(x, y, z);
    } else {
      assert a + b == a;
    }
  }

  /** A row renders exactly the markups of its HTML-enabled columns, in
      insertion order. */
  lemma {:induction false} ColumnsHtmlFilters(cols: seq<HtmlColumn>)
    ensures ColumnsHtml(cols) == Concatenated(HtmlColumnsOf(cols))
  {
    if |cols| > 0 {
      var init := cols[..|cols| - 1];
      var last := cols[|cols| - 1];
      var tail := if HTML in last.enabledDisplayTypes then [last] else [];
      ColumnsHtmlFilters(init);
      assert HtmlColumnsOf(cols) == HtmlColumnsOf(init) + tail;
      ConcatenatedAppend(HtmlColumnsOf(init), tail);
      assert Concatenated(tail) == (if HTML in last.enabledDisplayTypes then last.Html() else "") by {
        assert [last][..0] == [];
      }
      assert ColumnsHtml(cols) == ColumnsHtml(init) + (if HTML in last.enabledDisplayTypes then last.Html() else "");
    }
  }


  /** The rendering the default display type evidently calls for: a column
      enabled for ALL is shown as well. */
  function ColumnsHtmlIntended(cols: seq<HtmlColumn>): string
    reads cols
  {
    if |cols| == 0 then ""
    else
      var last := cols[|cols| - 1];
      ColumnsHtmlIntended(cols[..|cols| - 1])
        + (if ALL in last.enabledDisplayTypes || HTML in last.enabledDisplayTypes then last.Html() else "")
  }

  /** With the intended rendering, a row of columns built with the default
      display type shows every one of them; as written it shows none. */
  lemma {:induction false} DefaultColumnsShown(cols: seq<HtmlColumn>)
    requires forall i :: 0 <= i < |cols| ==> cols[i].enabledDisplayTypes == [ALL]
    ensures ColumnsHtmlIntended(cols) == Concatenated(cols)
    ensures ColumnsHtml(cols) == ""
  {
    if |cols| > 0 {
      DefaultColumnsShown(cols[..|cols| - 1]);
      assert HTML !in cols[|cols| - 1].enabledDisplayTypes;
    }
  }

  /** The columns that are headers, in order. */
  function HeaderColumnsOf(cols: seq<HtmlColumn>): (r: seq<HtmlColumn>)
    reads cols
    ensures |r| <= |cols|
    ensures forall i :: 0 <= i < |r| ==> r[i] in cols && r[i].isHeaderColumn
    ensures forall i :: 0 <= i < |cols| && cols[i].isHeaderColumn ==> cols[i] in r
  {
    if |cols| == 0 then []
    else
      var last := cols[|cols| - 1];
      HeaderColumnsOf(cols[..|cols| - 1]) + (if last.isHeaderColumn then [last] else [])
  }

  /** html/HtmlRow: a `tr` holding its columns in insertion order. */
  class HtmlRow {
    var tag: string
    var id: Option<string>
    var cssClass: Option<string>
    var cssStyle: Option<string>
    var columns: seq<HtmlColumn>

    constructor ()
      ensures tag == "tr" && id.None? && cssClass.None? && cssStyle.None? && columns == []
    {
      tag, id, cssClass, cssStyle, columns := "tr", None, None, None, [];
    }

    constructor WithId(id: Option<string>)
      ensures tag == "tr" && this.id == id && cssClass.None? && cssStyle.None? && columns == []
    {
      tag, this.id, cssClass, cssStyle, columns := "tr", id, None, None, [];
    }

    /** The row's markup: opening tag, the shown columns, closing tag. */
    function Html(): string
      reads this, columns
    {
      ElementHtml(tag, Attributes(id, cssClass, cssStyle), Some(ColumnsHtml(columns)))
    }

    /** getHtmlColumns: one pass over the columns. */
    method GetHtmlColumns() returns (html: string)
      ensures html == ColumnsHtml(columns)
    {
      html := "";
      var i := 0;
      while i < |columns|
        invariant 0 <= i <= |columns|
        invariant html == ColumnsHtml(columns[..i])
      {
        assert columns[..i + 1][..i] == columns[..i];
        if HTML in columns[i].enabledDisplayTypes {
          html := html + columns[i].Html();
        }
        i := i + 1;
      }
      assert columns[..i] == columns;
    }

    /** toHtml. */
    method ToHtml() returns (html: string)
      ensures html == Html()
    {
      html := OpeningTag(tag, Attributes(id, cssClass, cssStyle));
      var cols := GetHtmlColumns();
      html := html + cols;
      html := html + ClosingTag(tag);
    }

    /** getLastColumn: LinkedList.getLast, which throws on an empty list. */
    function LastColumn(): (r: Result<HtmlColumn>)
      reads this
      ensures r.Err? <==> |columns| == 0
      ensures r.Ok? ==> r.value in columns
    {
      if |columns| == 0 then Err(NoSuchElement) else Ok(columns[|columns| - 1])
    }

    /** addHeaderColumn(HtmlColumn) and addColumn(HtmlColumn): append the
        given column and return it. */
    method AddColumn(column: HtmlColumn) returns (r: HtmlColumn)
      modifies this
      ensures r == column && columns == old(columns) + [column]
      ensures LastColumn() == Ok(column)
      ensures tag == old(tag) && id == old(id) && cssClass == old(cssClass) && cssStyle == old(cssStyle)
    {
      columns := columns + [column];
      r := column;
    }

    /** addHeaderColumn(String) (isHeader true) and addColumn(String)
        (isHeader false): a new column holding the content, appended and
        returned. */
    method AddColumnWithContent(isHeader: bool, content: Option<string>) returns (r: HtmlColumn)
      modifies this
      ensures fresh(r) && columns == old(columns) + [r]
      ensures r.isHeaderColumn == isHeader && r.content == content && r.Valid() && r.HasDefaults() && r.Bare()
      ensures r.enabledDisplayTypes == [ALL]
      ensures LastColumn() == Ok(r)
      ensures tag == old(tag) && id == old(id) && cssClass == old(cssClass) && cssStyle == old(cssStyle)
    {
      r := new HtmlColumn.WithContent(isHeader, content);
      columns := columns + [r];
    }

    /** addHeaderColumns(String...) (isHeader true) and addColumns(String...)
        (isHeader false): one new column per content, in argument order. */
    method AddColumns(isHeader: bool, contents: seq<Option<string>>) returns (self: HtmlRow)
      modifies this
      ensures self == this
      ensures |columns| == |old(columns)| + |contents| && columns[..|old(columns)|] == old(columns)
      ensures forall i :: 0 <= i < |contents| ==>
                fresh(columns[|old(columns)| + i]) && columns[|old(columns)| + i].content == contents[i]
                && columns[|old(columns)| + i].isHeaderColumn == isHeader
      ensures tag == old(tag) && id == old(id) && cssClass == old(cssClass) && cssStyle == old(cssStyle)
    {
      ghost var added: seq<HtmlColumn> := [];
      var k := 0;
      while k < |contents|
        invariant 0 <= k <= |contents| && |added| == k
        invariant columns == old(columns) + added
        invariant forall i :: 0 <= i < k ==>
                    fresh(added[i]) && added[i].content == contents[i] && added[i].isHeaderColumn == isHeader
        invariant tag == old(tag) && id == old(id) && cssClass == old(cssClass) && cssStyle == old(cssStyle)
      {
        var c := AddColumnWithContent(isHeader, contents[k]);
        added := added + [c];
        k := k + 1;
      }
      self := this;
    }

    /** getHeaderColumns: a new list of the header columns, in order. */
    method GetHeaderColumns() returns (r: seq<HtmlColumn>)
      ensures r == HeaderColumnsOf(columns)
    {
      r := [];
      var i := 0;
      while i < |columns|
        invariant 0 <= i <= |columns|
        invariant r == HeaderColumnsOf(columns[..i])
      {
        assert columns[..i + 1][..i] == columns[..i];
        if columns[i].isHeaderColumn {
          r := r + [columns[i]];
        }
        i := i + 1;
      }
      assert columns[..i] == columns;
    }
  }

  /** HtmlTable.processId: every character other than an ASCII letter, a
      digit or a space is removed. */
  function ProcessId(id: string): (r: string)
    ensures |r| <= |id|
    ensures forall i :: 0 <= i < |r| ==> IsAsciiLetterOrDigit(r[i]) || r[i] == ' '
    ensures forall i :: 0 <= i < |id| && (IsAsciiLetterOrDigit(id[i]) || id[i] == ' ') ==> id[i] in r
  {
    if |id| == 0 then ""
    else
      var c := id[|id| - 1];
      ProcessId(id[..|id| - 1]) + (if IsAsciiLetterOrDigit(c) || c == ' ' then [c] else [])
  }

  /** An id made only of allowed characters is kept, so processing is
      idempotent. */
  lemma {:induction false} ProcessIdKeepsClean(id: string)
    requires forall i :: 0 <= i < |id| ==> IsAsciiLetterOrDigit(id[i]) || id[i] == ' '
    ensures ProcessId(id) == id
  {
    if |id| > 0 {
      ProcessIdKeepsClean(id[..|id| - 1]);
    }
  }

  lemma ProcessIdIdempotent(id: string)
    ensures ProcessId(ProcessId(id)) == ProcessId(id)
  {
    ProcessIdKeepsClean(ProcessId(id));
  }

  /** The columns of all the given rows: what their markup depends on. */
  function Cells(rows: seq<HtmlRow>): set<HtmlColumn>
    reads rows
  {
    set r, c | r in rows && c in r.columns :: c
  }

  /** The markups of the rows, concatenated in order. */
  function RowsHtml(rows: seq<HtmlRow>): string
    reads rows, Cells(rows)
  {
    if |rows| == 0 then ""
    else
      assert Cells(rows[..|rows| - 1]) <= Cells(rows);
      assert forall c :: c in rows[|rows| - 1].columns ==> c in Cells(rows);
      RowsHtml(rows[..|rows| - 1]) + rows[|rows| - 1].Html()
  }

  /** Appending rows appends their markup. */
  lemma {:induction false} RowsHtmlAppend(a: seq<HtmlRow>, b: seq<HtmlRow>)
    ensures RowsHtml(a + b) == RowsHtml(a) + RowsHtml(b)
    decreases |b|
  {
    if |b| > 0 {
      var init := b[..|b| - 1];
      var last := b[|b| - 1];
      var ab := a + b;
      assert ab[..|ab| - 1] == a + init;
      assert ab[|ab| - 1] == last;
      RowsHtmlAppend(a, init);
      var x, y, z := RowsHtml(a), RowsHtml(init), last.Html();
      assert RowsHtml(ab) == RowsHtml(a + init) + z;
      assert RowsHtml(b) == y + z;
      AppendAssoc(x, y, z);
    } else {
      assert a + b == a;
    }
  }

  lemma RowsHtmlSnoc(rows: seq<HtmlRow>, i: nat)
    requires i < |rows|
    ensures RowsHtml(rows[..i + 1]) == RowsHtml(rows[..i]) + rows[i].Html()
  {
    assert rows[..i + 1][..i] == rows[..i];
  }

  /** The rows' markup, or nothing for an empty list. */
  function NonEmptyRowsHtml(rows: seq<HtmlRow>): (r: Option<string>)
    reads rows, Cells(rows)
    ensures r.None? <==> |rows| == 0
  {
    if |rows| == 0 then None else Some(RowsHtml(rows))
  }

  /** getHtmlHeader: the caption, then the always-present thead. */
  function HeaderSection(caption: Option<string>, headRows: string): string {
    caption.GetOr("") + "<thead>" + headRows + "</thead>"
  }

  /** getHtmlBody and getHtmlFooter: the section only when there are rows. */
  function OptionalSection(open: string, rows: Option<string>, close: string): string {
    if rows.Some? then open + rows.value + close else ""
  }

  /** How the parts of a table's markup are put together. */
  function TableMarkup(opening: string, caption: Option<string>, headRows: string, bodyRows: Option<string>,
                       footRows: Option<string>, closing: string): string
  {
    opening + HeaderSection(caption, headRows) + OptionalSection("<tbody>", bodyRows, "</tbody>")
    + OptionalSection("<tfoot>", footRows, "</tfoot>") + closing
  }

  /** The loop of getHtmlHeader, getHtmlBody and getHtmlFooter: each row's
      markup in turn. */
  method RowsMarkup(rows: seq<HtmlRow>) returns (s: string)
    ensures s == RowsHtml(rows)
  {
    s := "";
    var i := 0;
    while i < |rows|
      invariant 0 <= i <= |rows|
      invariant s == RowsHtml(rows[..i])
    {
      RowsHtmlSnoc(rows, i);
      s := s + rows[i].Html();
      i := i + 1;
    }
    assert rows[..i] == rows;
  }

  /** The rows' markup depends only on the rows and their columns. */
  twostate lemma {:induction false} RowsHtmlUnchanged(rows: seq<HtmlRow>)
    requires forall r :: r in rows ==> unchanged(r)
    requires forall c :: c in old(Cells(rows)) ==> unchanged(c)
    ensures RowsHtml(rows) == old(RowsHtml(rows))
  {
    if |rows| > 0 {
      var init := rows[..|rows| - 1];
      var last := rows[|rows| - 1];
      assert forall r :: r in init ==> r in rows;
      assert old(Cells(init)) <= old(Cells(rows));
      RowsHtmlUnchanged(init);
      assert last in rows;
      assert last.columns == old(last.columns);
      assert forall c :: c in last.columns ==> c in old(Cells(rows));
      ColumnsHtmlUnchanged(last.columns);
    }
  }

  twostate lemma {:induction false} ColumnsHtmlUnchanged(cols: seq<HtmlColumn>)
    requires forall c :: c in cols ==> unchanged(c)
    ensures ColumnsHtml(cols) == old(ColumnsHtml(cols))
  {
    if |cols| > 0 {
      var init := cols[..|cols| - 1];
      assert forall c :: c in init ==> c in cols;
      assert forall c :: c in init ==> unchanged(c);
      ColumnsHtmlUnchanged(init);
      var last := cols[|cols| - 1];
      assert last in cols;
      assert last.enabledDisplayTypes == old(last.enabledDisplayTypes);
      assert last.Html() == old(last.Html());
    }
  }

  /** The sections of a table's markup in order: the opening tag, caption
      and thead come first and the closing tag last; the tbody and tfoot
      sections appear exactly when they have rows. */
  lemma TableSections(opening: string, caption: Option<string>, headRows: string, bodyRows: Option<string>,
                      footRows: Option<string>, closing: string)
    ensures StartsWith(TableMarkup(opening, caption, headRows, bodyRows, footRows, closing),
                       opening + caption.GetOr("") + "<thead>" + headRows + "</thead>")
    ensures EndsWith(TableMarkup(opening, caption, headRows, bodyRows, footRows, closing), closing)
    ensures bodyRows.None? && footRows.None? ==>
              TableMarkup(opening, caption, headRows, bodyRows, footRows, closing)
                == opening + caption.GetOr("") + "<thead>" + headRows + "</thead>" + closing
    ensures bodyRows.Some? ==>
              Contains(TableMarkup(opening, caption, headRows, bodyRows, footRows, closing),
                       "<tbody>" + bodyRows.value + "</tbody>")
    ensures footRows.Some? ==>
              EndsWith(TableMarkup(opening, caption, headRows, bodyRows, footRows, closing),
                       "<tfoot>" + footRows.value + "</tfoot>" + closing)
  {
    var pre := opening + HeaderSection(caption, headRows);
    var b := OptionalSection("<tbody>", bodyRows, "</tbody>");
    var f := OptionalSection("<tfoot>", footRows, "</tfoot>");
    assert TableMarkup(opening, caption, headRows, bodyRows, footRows, closing) == pre + b + f + closing;
    FourParts(pre, b, f, closing);
  }

  lemma FourParts(a: string, b: string, c: string, d: string)
    ensures StartsWith(a + b + c + d, a) && EndsWith(a + b + c + d, d) && EndsWith(a + b + c + d, c + d)
    ensures Contains(a + b + c + d, b)
    ensures b == "" && c == "" ==> a + b + c + d == a + d
  {
    var m := a + b + c + d;
    assert m[..|a|] == a;
    assert m[|m| - |d|..] == d;
    assert m[|m| - |c + d|..] == c + d;
    ContainsAt(a, b, c + d);
    assert a + b + (c + d) == m;
  }

}
