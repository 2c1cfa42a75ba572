/** model/HtmlColumn: the older cell class. It has no id attribute, enables
    every display type at construction and writes its markup field by
    field into a fresh buffer. */
module LegacyModel {
  import opened Wrappers
  import opened JavaString
  import opened Html

  /** DisplayType.values(), in declaration order. */
  const AllDisplayTypes: seq<DisplayType> := [ALL, HTML, CSV, XML, XLS, XLSX, PDF, RTF, JSON]

  /** Every display type occurs in the list, exactly once. */
  lemma AllDisplayTypesListed(d: DisplayType)
    ensures d in AllDisplayTypes
    ensures forall i, j :: 0 <= i < j < |AllDisplayTypes| ==> AllDisplayTypes[i] != AllDisplayTypes[j]
  {
    match d
    case ALL => assert AllDisplayTypes[0] == d;
    case HTML => assert AllDisplayTypes[1] == d;
    case CSV => assert AllDisplayTypes[2] == d;
    case XML => assert AllDisplayTypes[3] == d;
    case XLS => assert AllDisplayTypes[4] == d;
    case XLSX => assert AllDisplayTypes[5] == d;
    case PDF => assert AllDisplayTypes[6] == d;
    case RTF => assert AllDisplayTypes[7] == d;
    case JSON => assert AllDisplayTypes[8] == d;
  }

  /** A column with the init() defaults (every constructor's) is enabled
      for every display type, and lists each of them once. */
  lemma DefaultsEnableEveryFormat(c: HtmlColumn, d: DisplayType)
    requires c.HasDefaults()
    ensures d in c.enabledDisplayTypes
    ensures forall i, j :: 0 <= i < j < |c.enabledDisplayTypes| ==> c.enabledDisplayTypes[i] != c.enabledDisplayTypes[j]
  {
    AllDisplayTypesListed(d);
  }

  class HtmlColumn {
    var isHeaderColumn: bool
    var cssClass: Option<string>
    var cssStyle: Option<string>
    var cssCellClass: Option<string>
    var cssCellStyle: Option<string>
    var content: Option<string>
    var sortable: bool
    var filterable: bool
    var searchable: bool
    var filterType: FilterType
    var enabledDisplayTypes: seq<DisplayType>

    /** The values init() sets. */
    predicate HasDefaults()
      reads this
    {
      sortable && !filterable && searchable && filterType == INPUT && enabledDisplayTypes == AllDisplayTypes
    }

    predicate Unstyled()
      reads this
    {
      cssClass.None? && cssStyle.None? && cssCellClass.None? && cssCellStyle.None?
    }

    /** HtmlColumn(): a body cell. */
    constructor ()
      ensures HasDefaults() && Unstyled() && !isHeaderColumn && content.None?
    {
      isHeaderColumn, content := false, None;
      cssClass, cssStyle, cssCellClass, cssCellStyle := None, None, None, None;
      sortable, filterable, searchable, filterType := false, false, false, INPUT;
      enabledDisplayTypes := [];
      new;
      Init();
    }

    /** HtmlColumn(Boolean isHeader). */
    constructor Header(isHeader: bool)
      ensures HasDefaults() && Unstyled() && isHeaderColumn == isHeader && content.None?
    {
      isHeaderColumn, content := false, None;
      cssClass, cssStyle, cssCellClass, cssCellStyle := None, None, None, None;
      sortable, filterable, searchable, filterType := false, false, false, INPUT;
      enabledDisplayTypes := [];
      new;
      Init();
      isHeaderColumn := isHeader;
    }

    /** HtmlColumn(Boolean isHeader, String content). */
    constructor WithContent(isHeader: bool, content: Option<string>)
      ensures HasDefaults() && Unstyled() && isHeaderColumn == isHeader && this.content == content
    {
      isHeaderColumn, this.content := false, None;
      cssClass, cssStyle, cssCellClass, cssCellStyle := None, None, None, None;
      sortable, filterable, searchable, filterType := false, false, false, INPUT;
      enabledDisplayTypes := [];
      new;
      Init();
      isHeaderColumn := isHeader;
      this.content := content;
    }

    /** init: the flag defaults, and every display type added to the list in
        declaration order. */
    method Init()
      modifies this
      ensures sortable && !filterable && searchable && filterType == INPUT
      ensures enabledDisplayTypes == old(enabledDisplayTypes) + AllDisplayTypes
      ensures unchanged(this`isHeaderColumn, this`content, this`cssClass, this`cssStyle, this`cssCellClass, this`cssCellStyle)
    {
      sortable := true;
      filterable := false;
      searchable := true;
      filterType := INPUT;
      var i := 0;
      while i < |AllDisplayTypes|
        invariant 0 <= i <= |AllDisplayTypes|
        invariant enabledDisplayTypes == old(enabledDisplayTypes) + AllDisplayTypes[..i]
        invariant sortable && !filterable && searchable && filterType == INPUT
        invariant unchanged(this`isHeaderColumn, this`content, this`cssClass, this`cssStyle, this`cssCellClass, this`cssCellStyle)
      {
        enabledDisplayTypes := enabledDisplayTypes + [AllDisplayTypes[i]];
        i := i + 1;
      }
    }

    /** The class and style the cell is rendered with. */
    function RenderedClass(): Option<string>
      reads this
    {
      if isHeaderColumn then cssClass else cssCellClass
    }

    function RenderedStyle(): Option<string>
      reads this
    {
      if isHeaderColumn then cssStyle else cssCellStyle
    }

    /** The markup toHtml produces: the cell element with the class and
        style of its kind and no id. */
    function Html(): string
      reads this
    {
      ElementHtml(CellTag(isHeaderColumn), Attributes(None, RenderedClass(), RenderedStyle()), content)
    }

    /** toHtml: appends tag, attributes, content and closing tag one by one.
        A header takes cssClass/cssStyle and a body cell its cell class and
        style; the appends are the same for both kinds. */
    method ToHtml() returns (html: string)
      ensures html == Html()
    {
      var tag := CellTag(isHeaderColumn);
      var cls, sty := RenderedClass(), RenderedStyle();
      if isHeaderColumn {
        html := "<th";
      } else {
        html := "<td";
      }
      assert html == "<" + tag;
      var before := html;
      if cls.Some? {
        html := html + " class=\"" + cls.value + "\"";
      }
      AttributeText(html, before, "class", cls);
      assert html == "<" + tag + WriteAttribute("class", cls);
      before := html;
      if sty.Some? {
        html := html + " style=\"" + sty.value + "\"";
      }
      AttributeText(html, before, "style", sty);
      assert html == "<" + tag + WriteAttribute("class", cls) + WriteAttribute("style", sty);
      before := html;
      html := html + ">";
      if content.Some? {
        html := html + content.value;
      }
      assert html == before + ">" + content.GetOr("");
      assert html == "<" + tag + WriteAttribute("class", cls) + WriteAttribute("style", sty) + ">" + content.GetOr("");
      before := html;
      if isHeaderColumn {
        html := html + "</th>";
      } else {
        html := html + "</td>";
      }
      assert html == before + ClosingTag(tag);
      ElementParts(tag, cls, sty, content);
    }

    /** setCssCellClass: returns the same column, for chaining. */
    method SetCssCellClass(value: Option<string>) returns (self: HtmlColumn)
      modifies this
      ensures self == this && cssCellClass == value
      ensures unchanged(this`isHeaderColumn, this`content, this`cssClass, this`cssStyle, this`cssCellStyle)
      ensures unchanged(this`enabledDisplayTypes, this`sortable, this`filterable, this`searchable, this`filterType)
    {
      cssCellClass := value;
      return this;
    }

    /** setCssCellStyle: returns the same column, for chaining. */
    method SetCssCellStyle(value: Option<string>) returns (self: HtmlColumn)
      modifies this
      ensures self == this && cssCellStyle == value
      ensures unchanged(this`isHeaderColumn, this`content, this`cssClass, this`cssStyle, this`cssCellClass)
      ensures unchanged(this`enabledDisplayTypes, this`sortable, this`filterable, this`searchable, this`filterType)
    {
      cssCellStyle := value;
      return this;
    }
  }

  /** What the field-by-field appends of toHtml add to the buffer for one
      attribute. */
  lemma AttributeText(html: string, before: string, name: string, value: Option<string>)
    requires value.None? ==> html == before
    requires value.Some? ==> html == before + " " + name + "=\"" + value.value + "\""
    ensures html == before + WriteAttribute(name, value)
  {
  }

  lemma ElementParts(tag: string, cls: Option<string>, sty: Option<string>, content: Option<string>)
    ensures ElementHtml(tag, Attributes(None, cls, sty), content)
            == "<" + tag + WriteAttribute("class", cls) + WriteAttribute("style", sty) + ">" + content.GetOr("") + ClosingTag(tag)
  {
  }

  /** The legacy markup: a header is `<th` with cssClass/cssStyle, a body cell
      `<td` with the cell class and style; an absent content or attribute
      leaves no trace; the element is closed by the matching tag. */
  lemma LegacyMarkup(c: HtmlColumn)
    ensures c.isHeaderColumn ==> StartsWith(c.Html(), "<th") && EndsWith(c.Html(), "</th>")
    ensures !c.isHeaderColumn ==> StartsWith(c.Html(), "<td") && EndsWith(c.Html(), "</td>")
    ensures c.isHeaderColumn && c.cssClass.None? && c.cssStyle.None? && c.content.None? ==> c.Html() == "<th></th>"
    ensures !c.isHeaderColumn && c.cssCellClass.None? && c.cssCellStyle.None? && c.content.None? ==> c.Html() == "<td></td>"
    ensures c.content.Some? ==> Contains(c.Html(), ">" + c.content.value + "</" + CellTag(c.isHeaderColumn) + ">")
  {
    var t, a := CellTag(c.isHeaderColumn), Attributes(None, c.RenderedClass(), c.RenderedStyle());
    assert c.Html() == ElementHtml(t, a, c.content);
    ElementShape(t, a, c.content);
    if c.RenderedClass().None? && c.RenderedStyle().None? {
      assert a == "";
    }
  }

  lemma ElementShape(t: string, a: string, content: Option<string>)
    requires |t| == 2
    ensures StartsWith(ElementHtml(t, a, content), "<" + t)
    ensures EndsWith(ElementHtml(t, a, content), "</" + t + ">")
    ensures a == "" && content.None? ==> ElementHtml(t, a, content) == "<" + t + "></" + t + ">"
    ensures content.Some? ==> Contains(ElementHtml(t, a, content), ">" + content.value + "</" + t + ">")
  {
    var h := ElementHtml(t, a, content);
    assert h == "<" + t + a + ">" + content.GetOr("") + "</" + t + ">";
    assert h[..3] == "<" + t;
    assert h[|h| - 5..] == "</" + t + ">";
    if content.Some? {
      var pre := "<" + t + a;
      var sub := ">" + content.value + "</" + t + ">";
      assert h == pre + sub + "";
      ContainsAt(pre, sub, "");
    }
  }

  /** A legacy column renders exactly like a current-package column without
      id that holds the same header flag, classes, styles and content. */
  lemma AgreesWithCurrentColumn(legacy: HtmlColumn, current: Html.HtmlColumn)
    requires current.Valid() && current.id.None?
    requires legacy.isHeaderColumn == current.isHeaderColumn && legacy.content == current.content
    requires legacy.cssClass == current.cssClass && legacy.cssStyle == current.cssStyle
    requires legacy.cssCellClass == current.cssCellClass && legacy.cssCellStyle == current.cssCellStyle
    ensures legacy.Html() == current.Html()
  {
    CellMarkup(current);
  }
}
