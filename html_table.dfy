/** html/HtmlTable: a table with separate lists of head, body and foot rows,
    and the table configuration built for it. The table's class and style
    are not fields of the table: they are the CSS_CLASS and CSS_STYLE
    options of that configuration, which the opening tag reads and
    addCssClass/addCssStyle write. */
module HtmlTables {
  import opened Wrappers
  import opened JavaString
  import opened ConfigValues
  import opened Html
  import TC = TableConfigurations

  /** Option.valueFrom(TableConfiguration): null when the configuration has
      no options map or the map has no entry for the option. */
  function OptionValue(conf: TC.TableConfiguration, name: string): Value
    reads conf, conf.configurations
  {
    if conf.configurations == null then Null else Lookup(conf.configurations.entries, name)
  }

  /** What writeAttribute writes for an option's value: nothing for null,
      otherwise the value's toString (`toText` for functions, snippets,
      lists and maps). */
  function AttributeText(v: Value, toText: Value -> string): Option<string> {
    if v == Null then None else Some(Stringify(v, toText))
  }

  class HtmlTable {
    var tag: string
    var id: string
    var originalId: string
    /** The caption's markup, when there is a caption. */
    var caption: Option<string>
    var head: seq<HtmlRow>
    var body: seq<HtmlRow>
    var foot: seq<HtmlRow>
    var tableConfiguration: TC.TableConfiguration

    /** HtmlTable(id, request, response, groupName, dynamicAttributes):
        `conf` is the configuration TableConfigurationFactory.newInstance
        builds for the table from its group's options. */
    constructor (id: string, conf: TC.TableConfiguration)
      ensures tag == "table" && originalId == id && this.id == ProcessId(id)
      ensures caption.None? && head == [] && body == [] && foot == []
      ensures tableConfiguration == conf
    {
      tag, originalId, this.id := "table", id, ProcessId(id);
      caption, head, body, foot := None, [], [], [];
      tableConfiguration := conf;
    }

    /** The class attribute: the configuration's CSS_CLASS option. */
    function CssClass(toText: Value -> string): Option<string>
      reads this, tableConfiguration, tableConfiguration.configurations
    {
      AttributeText(OptionValue(tableConfiguration, TC.CssClassName), toText)
    }

    /** The style attribute: the configuration's CSS_STYLE option. */
    function CssStyle(toText: Value -> string): Option<string>
      reads this, tableConfiguration, tableConfiguration.configurations
    {
      AttributeText(OptionValue(tableConfiguration, TC.CssStyleName), toText)
    }

    /** The table's markup; the body and foot sections are left out when
        they have no rows. */
    function Html(toText: Value -> string): string
      reads this, head, body, foot, Cells(head), Cells(body), Cells(foot)
      reads tableConfiguration, tableConfiguration.configurations
    {
      TableMarkup(OpeningTag(tag, Attributes(Some(id), CssClass(toText), CssStyle(toText))), caption, RowsHtml(head),
                  NonEmptyRowsHtml(body), NonEmptyRowsHtml(foot), ClosingTag(tag))
    }

    /** toHtml with getHtmlHeader, getHtmlBody and getHtmlFooter: the
        opening tag, the caption and a thead holding every head row, a tbody
        and a tfoot only when they have rows, then the closing tag. */
    method ToHtml(toText: Value -> string) returns (html: string)
      ensures html == Html(toText)
    {
      var headRows := RowsMarkup(head);
      label headDone:
      var header := caption.GetOr("") + "<thead>" + headRows + "</thead>";
      var bodyHtml := "";
      if |body| > 0 {
        var bodyRows := RowsMarkup(body);
        bodyHtml := "<tbody>" + bodyRows + "</tbody>";
      }
      label bodyDone:
      var footHtml := "";
      if |foot| > 0 {
        var footRows := RowsMarkup(foot);
        footHtml := "<tfoot>" + footRows + "</tfoot>";
      }
      RowsHtmlUnchanged@headDone(head);
      RowsHtmlUnchanged@bodyDone(body);
      html := OpeningTag(tag, Attributes(Some(id), CssClass(toText), CssStyle(toText))) + header + bodyHtml + footHtml + ClosingTag(tag);
    }

    /** addHeaderRow: a new row at the end of the head. */
    method AddHeaderRow() returns (row: HtmlRow)
      modifies this
      ensures fresh(row) && row.columns == [] && row.id.None?
      ensures head == old(head) + [row] && body == old(body) && foot == old(foot)
      ensures LastHeaderRow() == Ok(row)
      ensures unchanged(this`tag, this`id, this`originalId, this`caption, this`tableConfiguration)
    {
      row := new HtmlRow();
      head := head + [row];
    }

    /** addRow and addRow(String rowId): a new row at the end of the body. */
    method AddRow(rowId: Option<string>) returns (row: HtmlRow)
      modifies this
      ensures fresh(row) && row.columns == [] && row.id == rowId
      ensures body == old(body) + [row] && head == old(head) && foot == old(foot)
      ensures LastBodyRow() == Ok(row)
      ensures unchanged(this`tag, this`id, this`originalId, this`caption, this`tableConfiguration)
    {
      row := new HtmlRow.WithId(rowId);
      body := body + [row];
    }

    /** addFooterRow: a new row at the end of the foot. */
    method AddFooterRow() returns (row: HtmlRow)
      modifies this
      ensures fresh(row) && row.columns == [] && row.id.None?
      ensures foot == old(foot) + [row] && head == old(head) && body == old(body)
      ensures LastFooterRow() == Ok(row)
      ensures unchanged(this`tag, this`id, this`originalId, this`caption, this`tableConfiguration)
    {
      row := new HtmlRow();
      foot := foot + [row];
    }

    /** addRows: the given rows at the end of the body, in order. */
    method AddRows(rows: seq<HtmlRow>) returns (self: HtmlTable)
      modifies this
      ensures self == this
      ensures body == old(body) + rows && head == old(head) && foot == old(foot)
      ensures unchanged(this`tag, this`id, this`originalId, this`caption, this`tableConfiguration)
    {
      var i := 0;
      while i < |rows|
        invariant 0 <= i <= |rows|
        invariant body == old(body) + rows[..i] && head == old(head) && foot == old(foot)
        invariant unchanged(this`tag, this`id, this`originalId, this`caption, this`tableConfiguration)
      {
        assert rows[..i + 1] == rows[..i] + [rows[i]];
        body := body + [rows[i]];
        i := i + 1;
      }
      assert rows[..i] == rows;
      self := this;
    }

    function LastOf(rows: seq<HtmlRow>): (r: Result<HtmlRow>)
      ensures r.Err? <==> |rows| == 0
      ensures r.Ok? ==> r.value == rows[|rows| - 1]
    {
      if |rows| == 0 then Err(NoSuchElement) else Ok(rows[|rows| - 1])
    }

    function LastHeaderRow(): Result<HtmlRow>
      reads this
    {
      LastOf(head)
    }

    function FirstHeaderRow(): (r: Result<HtmlRow>)
      reads this
      ensures r.Err? <==> |head| == 0
      ensures r.Ok? ==> r.value == head[0]
    {
      if |head| == 0 then Err(NoSuchElement) else Ok(head[0])
    }

    function LastBodyRow(): Result<HtmlRow>
      reads this
    {
      LastOf(body)
    }

    function LastFooterRow(): Result<HtmlRow>
      reads this
    {
      LastOf(foot)
    }

    /** addCssClass: the CSS_CLASS option of the table's configuration is
        set to an empty builder when it is null, otherwise the separator is
        appended to it; then the value is appended. It fails as the option's
        setIn and appendIn do: without an options map, or on an entry that
        is not a builder. */
    method AddCssClass(value: string) returns (r: Result<()>)
      modifies tableConfiguration.configurations
      ensures tableConfiguration.configurations == null ==> r == Err(NullPointer("configurations"))
      ensures tableConfiguration.configurations != null ==>
                Done(r, tableConfiguration.configurations, old(tableConfiguration.configurations.entries),
                     TC.CssAdded(old(tableConfiguration.configurations.entries), TC.CssClassName, ClassSeparator, value))
    {
      r := tableConfiguration.AddCssClass(value);
    }

    /** addCssStyle: the same on CSS_STYLE, with `;` between values. */
    method AddCssStyle(value: string) returns (r: Result<()>)
      modifies tableConfiguration.configurations
      ensures tableConfiguration.configurations == null ==> r == Err(NullPointer("configurations"))
      ensures tableConfiguration.configurations != null ==>
                Done(r, tableConfiguration.configurations, old(tableConfiguration.configurations.entries),
                     TC.CssAdded(old(tableConfiguration.configurations.entries), TC.CssStyleName, CssSeparator, value))
    {
      r := tableConfiguration.AddCssStyle(value);
    }
  }

  /** The opening tag of a table reads its class from the configuration:
      with a CSS_CLASS entry the tag is the id, then that entry's text as
      the class; without one there is no class attribute at all. */
  lemma ConfiguredClassWritten(t: HtmlTable, toText: Value -> string)
    ensures var v := OptionValue(t.tableConfiguration, TC.CssClassName);
            var attrs := Attributes(Some(t.id), t.CssClass(toText), t.CssStyle(toText));
            && StartsWith(t.Html(toText), "<" + t.tag + attrs + ">")
            && (v != Null ==>
                  StartsWith(attrs, " id=\"" + t.id + "\" class=\"" + Stringify(v, toText) + "\""))
            && (v == Null ==> attrs == WriteAttribute("id", Some(t.id)) + WriteAttribute("style", t.CssStyle(toText)))
  {
    var v := OptionValue(t.tableConfiguration, TC.CssClassName);
    OpeningFirst(OpeningTag(t.tag, Attributes(Some(t.id), t.CssClass(toText), t.CssStyle(toText))), t.caption,
                 RowsHtml(t.head), NonEmptyRowsHtml(t.body), NonEmptyRowsHtml(t.foot), ClosingTag(t.tag));
    if v != Null {
      assert t.CssClass(toText) == Some(Stringify(v, toText));
      ClassAfterId(t.id, Stringify(v, toText), t.CssStyle(toText));
    } else {
      assert t.CssClass(toText) == None;
      NoClassAttribute(t.id, t.CssStyle(toText));
    }
  }

  lemma NoClassAttribute(id: string, style: Option<string>)
    ensures Attributes(Some(id), None, style) == WriteAttribute("id", Some(id)) + WriteAttribute("style", style)
  {
    assert WriteAttribute("class", None) == "";
  }

  lemma OpeningFirst(opening: string, caption: Option<string>, headRows: string, bodyRows: Option<string>,
                     footRows: Option<string>, closing: string)
    ensures StartsWith(TableMarkup(opening, caption, headRows, bodyRows, footRows, closing), opening)
  {
    var rest := HeaderSection(caption, headRows) + OptionalSection("<tbody>", bodyRows, "</tbody>")
                + OptionalSection("<tfoot>", footRows, "</tfoot>") + closing;
    assert TableMarkup(opening, caption, headRows, bodyRows, footRows, closing) == opening + rest;
    PrefixOf(opening, rest);
  }

  lemma ClassAfterId(id: string, cls: string, style: Option<string>)
    ensures StartsWith(Attributes(Some(id), Some(cls), style), " id=\"" + id + "\" class=\"" + cls + "\"")
  {
    var front := " id=\"" + id + "\" class=\"" + cls + "\"";
    assert WriteAttribute("id", Some(id)) + WriteAttribute("class", Some(cls)) == front;
    PrefixOf(front, WriteAttribute("style", style));
  }

  /** So a class the group configured is kept by addCssClass: a table
      whose CSS_CLASS entry is a builder (or null) gets the value after the
      existing text and a space, and every other option stays. */
  lemma AddedClassJoinsConfigured(entries: map<string, Value>, value: string, toText: Value -> string)
    requires Lookup(entries, TC.CssClassName) == Null || Lookup(entries, TC.CssClassName).StrBuilder?
    ensures TC.CssAdded(entries, TC.CssClassName, ClassSeparator, value).Ok?
    ensures var m := TC.CssAdded(entries, TC.CssClassName, ClassSeparator, value).value;
            AttributeText(Lookup(m, TC.CssClassName), toText)
              == Html.Appended(AttributeText(Lookup(entries, TC.CssClassName), toText), ClassSeparator, value)
            && forall k :: k != TC.CssClassName ==> Lookup(m, k) == Lookup(entries, k)
  {
    TC.CssAddedJoins(entries, TC.CssClassName, ClassSeparator, value);
  }

  /** A class the group configured as plain text is not a builder, and
      addCssClass then fails with a ClassCastException, leaving the option
      as it was. */
  lemma AddedClassOnTextFails(entries: map<string, Value>, value: string)
    requires Lookup(entries, TC.CssClassName).Str?
    ensures TC.CssAdded(entries, TC.CssClassName, ClassSeparator, value) == Err(ClassCast("StringBuilder"))
  {
  }
}
