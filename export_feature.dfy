/** extension/feature/ExportFeature: the export links of a table, wrapped
    in one div per link position, and the functions that launch a custom
    export. */
module ExportFeatures {
  import opened Wrappers
  import opened JavaString
  import StringUtils
  import Javascript
  import Extensions
  import Html
  import ExportConfs
  import TC = TableConfigurations
  import opened Parens

  /** The scope of the assets a POST export needs (DDL_DT_EXPORT). */
  const Scope: string := "ddl-dt-export"
  /** The class of the div wrapping the links. */
  const DivClass: string := "dandelion_dataTables_export"

  /** ExportLinkPosition. */
  datatype Position = TOP_LEFT | TOP_MIDDLE | TOP_RIGHT | BOTTOM_LEFT | BOTTOM_MIDDLE | BOTTOM_RIGHT

  /** What setup reads of an export configuration. */
  datatype View = View(conf: ExportConfs.ExportConf, format: string, cssClass: Option<string>, cssStyle: Option<string>, url: Option<string>,
                       custom: bool, httpMethod: ExportConfs.HttpMethod, labelText: string)

  function ViewOf(c: ExportConfs.ExportConf): View
    reads c
  {
    View(c, c.format, c.cssClass, c.cssStyle, c.url, c.custom, c.httpMethod, c.labelText)
  }

  function ViewsOf(cs: seq<ExportConfs.ExportConf>): (vs: seq<View>)
    reads set i | 0 <= i < |cs| :: cs[i]
    ensures |vs| == |cs| && forall i :: 0 <= i < |cs| ==> vs[i] == ViewOf(cs[i])
  {
    if |cs| == 0 then [] else ViewsOf(cs[..|cs| - 1]) + [ViewOf(cs[|cs| - 1])]
  }

  /** HttpMethod's name. */
  function MethodName(m: ExportConfs.HttpMethod): string {
    match m
    case GET => "GET"
    case POST => "POST"
    case PUT => "PUT"
    case DELETE => "DELETE"
  }

  // ---------------------------------------------------------------------
  // One link

  /** The style of a link: the configuration's style and a left margin,
      each added with HtmlTag.addCssStyle, which puts a `;` between two
      values; so a configured style is followed by `;;margin-left:2px;`. */
  function LinkStyle(cssStyle: Option<string>): string {
    if cssStyle.None? then Html.Appended(None, Html.CssSeparator, "margin-left:2px;").value
    else Html.Appended(cssStyle, Html.CssSeparator, ";margin-left:2px;").value
  }

  /** Every link ends with the margin; a configured style comes first,
      followed by two semicolons. */
  lemma LinkStyleShape(cssStyle: Option<string>)
    ensures EndsWith(LinkStyle(cssStyle), "margin-left:2px;")
    ensures cssStyle.None? ==> LinkStyle(cssStyle) == "margin-left:2px;"
    ensures cssStyle.Some? ==> LinkStyle(cssStyle) == cssStyle.value + ";;margin-left:2px;"
  {
    var st := LinkStyle(cssStyle);
    if cssStyle.Some? {
      assert st == cssStyle.value + ";" + ";margin-left:2px;";
      assert st == cssStyle.value + ";;" + "margin-left:2px;";
      SuffixOf(cssStyle.value + ";;", "margin-left:2px;");
    } else {
      SuffixOf("", "margin-left:2px;");
    }
  }

  /** The name of the function launching the export of a format. */
  function LaunchName(tableId: string, format: string): string {
    "ddl_dt_launch_export_" + tableId + "_" + format
  }

  function TableVar(tableId: string): string {
    "oTable_" + tableId
  }

  /** The request parameters of the table, without the closing parenthesis
      of the call. Literal pieces holding a parenthesis are kept apart from
      the rest of the text. */
  function AjaxOpen(t: string): string {
    t + ".oApi._fnAjaxParameters" + "(" + t + ".fnSettings" + "()"
  }

  /** The complete request parameters call. */
  function AjaxParameters(t: string): string {
    AjaxOpen(t) + ")"
  }

  /** With a server parameter function set: the request parameters, passed
      through that function. */
  function ServerParamPrelude(t: string, serverParam: string): string {
    "var aoData = " + AjaxParameters(t) + ";" + serverParam + "(" + "aoData" + ");"
  }

  /** The start of every launcher: its name, and the prelude when a server
      parameter function is set. */
  function LauncherHead(tableId: string, format: string, serverParam: Option<string>): string {
    var prelude := if StringUtils.NotBlank(serverParam) then ServerParamPrelude(TableVar(tableId), serverParam.value) else "";
    "function " + LaunchName(tableId, format) + "(){" + prelude
  }

  /** The assignment of the window location up to the parameters: the url
      followed by `&` when it already has a query, `?` otherwise. */
  function Location(url: string): string {
    "window.location='" + url + (if '?' in url then "&" else "?") + "' + $.param" + "("
  }

  /** The GET launcher. As written, the parameters are `aoData` or the call
      without its closing parenthesis, and `$.param(` is closed by `))`. */
  function GetLauncher(tableId: string, format: string, url: string, serverParam: Option<string>): string {
    var params := if StringUtils.NotBlank(serverParam) then "aoData" else AjaxOpen(TableVar(tableId));
    LauncherHead(tableId, format, serverParam) + Location(url) + params + "))" + ";}" + "\n"
  }

  /** The POST, PUT or DELETE launcher: a download of the url with the
      parameters and the method. A missing url is written "null". */
  function OtherLauncher(tableId: string, format: string, url: Option<string>, m: ExportConfs.HttpMethod,
                         serverParam: Option<string>): string {
    var params := if StringUtils.NotBlank(serverParam) then "aoData" else AjaxParameters(TableVar(tableId));
    LauncherHead(tableId, format, serverParam) + "$.download" + "('" + Javascript.Text(url) + "',$.param" + "(" +
    params + ")" + ",'" + MethodName(m) + "');" + "}" + "\n"
  }

  /** Where a link leads: an address, or a call of its launcher. */
  datatype Target = Href(url: Option<string>) | Onclick(call: string)

  /** An HtmlHyperlink: class, style, target and label. */
  datatype Link = Link(cssClass: Option<string>, cssStyle: string, target: Target, text: string)

  /** The link of a configuration and, for a custom url, its launcher. A GET
      launcher needs the url: without one it is dereferenced. */
  function LinkOf(tableId: string, v: View, serverParam: Option<string>): (r: Result<(Link, Option<string>)>)
    ensures r.Err? <==> MissingUrl(v)
    ensures r.Err? ==> r.error == NullPointer("url")
    ensures r.Ok? ==> r.value.0.target == (if v.custom then Onclick(LaunchName(tableId, v.format) + "();") else Href(v.url))
    ensures r.Ok? ==> (r.value.1.Some? <==> v.custom)
    ensures r.Ok? ==> r.value.0.cssClass == v.cssClass && r.value.0.text == v.labelText && r.value.0.cssStyle == LinkStyle(v.cssStyle)
  {
    var style := LinkStyle(v.cssStyle);
    if !v.custom then Ok((Link(v.cssClass, style, Href(v.url), v.labelText), None))
    else if v.httpMethod == ExportConfs.GET then
      if v.url.None? then Err(NullPointer("url"))
      else Ok((Link(v.cssClass, style, Onclick(LaunchName(tableId, v.format) + "();"), v.labelText),
               Some(GetLauncher(tableId, v.format, v.url.value, serverParam))))
    else Ok((Link(v.cssClass, style, Onclick(LaunchName(tableId, v.format) + "();"), v.labelText),
             Some(OtherLauncher(tableId, v.format, v.url, v.httpMethod, serverParam))))
  }

  // ---------------------------------------------------------------------
  // The styles the links leave in the configurations

  /** The style of each configuration a link has been given so far, by
      object. A link takes its configuration's style builder itself
      (HtmlTag.setCssStyle keeps the reference), so the link's addCssStyle
      lengthens the configuration's style too. */
  type Styles = map<ExportConfs.ExportConf, Option<string>>

  /** The style of a view's configuration now: the one given by an earlier
      link, else the one the view was read with. */
  function StyleNow(st: Styles, v: View): Option<string> {
    if v.conf in st then st[v.conf] else v.cssStyle
  }

  /** The style a link leaves in its configuration: a set style becomes the
      link's style; a missing one stays missing, since the link then builds
      a builder of its own. */
  function Lengthened(cssStyle: Option<string>): Option<string> {
    if cssStyle.None? then None else Some(LinkStyle(cssStyle))
  }

  /** The style after `k` links have lengthened it. */
  function LengthenedTimes(k: nat, cssStyle: Option<string>): Option<string> {
    if k == 0 then cssStyle else Lengthened(LengthenedTimes(k - 1, cssStyle))
  }

  /** Each link adds `;;margin-left:2px;` to a set style and leaves a
      missing one missing, so the k-th link of a configuration is styled
      by its style followed by k + 1 margins. */
  lemma {:induction false} LengthenedGrows(k: nat, cssStyle: Option<string>)
    ensures cssStyle.None? ==> LengthenedTimes(k, cssStyle).None? && LinkStyle(LengthenedTimes(k, cssStyle)) == "margin-left:2px;"
    ensures cssStyle.Some? ==> LengthenedTimes(k, cssStyle).Some? &&
                               |LengthenedTimes(k, cssStyle).value| == |cssStyle.value| + 18 * k &&
                               StartsWith(LengthenedTimes(k, cssStyle).value, cssStyle.value)
  {
    LinkStyleShape(None);
    if k > 0 {
      LengthenedGrows(k - 1, cssStyle);
      if cssStyle.Some? {
        var prev := LengthenedTimes(k - 1, cssStyle).value;
        LinkStyleShape(Some(prev));
        PrefixExtend(prev, ";;margin-left:2px;", cssStyle.value);
      }
    }
  }

  /** The links of the first two positions: the second one carries the
      margin twice. */
  lemma SecondLinkLengthened(s: string)
    ensures LinkStyle(LengthenedTimes(0, Some(s))) == s + ";;margin-left:2px;"
    ensures LinkStyle(LengthenedTimes(1, Some(s))) == s + ";;margin-left:2px;;;margin-left:2px;"
  {
    var once := s + ";;margin-left:2px;";
    LinkStyleShape(Some(s));
    assert LengthenedTimes(1, Some(s)) == Some(once);
    LinkStyleShape(Some(once));
    assert once + ";;margin-left:2px;" == s + ";;margin-left:2px;;;margin-left:2px;";
  }

  // ---------------------------------------------------------------------
  // The wrapping div

  /** What initExportDiv produces: the div's content (the links' markup),
      the launchers appended so far, the exception that stopped it and the
      styles its links left in the configurations. */
  datatype Built = Built(content: string, launchers: seq<string>, failure: Option<Exception>, styles: Styles)

  /** initExportDiv over the configurations in order, from the styles `st`;
      `linkHtml` is HtmlHyperlink.toHtml. A link lengthens its
      configuration's style before a missing url stops the div. */
  function Div(tableId: string, vs: seq<View>, st: Styles, serverParam: Option<string>, linkHtml: Link -> string): Built {
    if |vs| == 0 then Built("", [], None, st)
    else
      var b := Div(tableId, vs[..|vs| - 1], st, serverParam, linkHtml);
      if b.failure.Some? then b
      else
        var v := vs[|vs| - 1];
        var now := v.(cssStyle := StyleNow(b.styles, v));
        var styles := b.styles[v.conf := Lengthened(now.cssStyle)];
        match LinkOf(tableId, now, serverParam)
        case Err(e) => Built(b.content, b.launchers, Some(e), styles)
        case Ok((link, launcher)) =>
          Built(b.content + linkHtml(link), b.launchers + (if launcher.Some? then [launcher.value] else []), None, styles)
  }

  /** The number of configurations with a custom url. */
  function CustomCount(vs: seq<View>): nat {
    if |vs| == 0 then 0 else CustomCount(vs[..|vs| - 1]) + if vs[|vs| - 1].custom then 1 else 0
  }

  /** A custom GET configuration without a url: its launcher cannot be
      written. */
  predicate MissingUrl(v: View) {
    v.custom && v.httpMethod == ExportConfs.GET && v.url.None?
  }

  /** No configuration is a custom GET without a url. */
  predicate AllHaveUrl(vs: seq<View>) {
    forall i :: 0 <= i < |vs| ==> !MissingUrl(vs[i])
  }

  /** Every view reads a configuration of its own. */
  predicate DistinctConfs(vs: seq<View>) {
    forall i, j :: 0 <= i < j < |vs| ==> vs[i].conf != vs[j].conf
  }

  /** The configurations the views were read from. */
  function Confs(vs: seq<View>): (cs: seq<ExportConfs.ExportConf>)
    ensures |cs| == |vs| && forall i :: 0 <= i < |vs| ==> cs[i] == vs[i].conf
  {
    if |vs| == 0 then [] else Confs(vs[..|vs| - 1]) + [vs[|vs| - 1].conf]
  }

  /** The failure of a div is the failure of its first links, or else that
      of its last one. */
  lemma DivFailureStep(tableId: string, vs: seq<View>, st: Styles, serverParam: Option<string>, linkHtml: Link -> string)
    requires |vs| > 0
    ensures var before := Div(tableId, vs[..|vs| - 1], st, serverParam, linkHtml).failure;
            var r := LinkOf(tableId, vs[|vs| - 1], serverParam);
            Div(tableId, vs, st, serverParam, linkHtml).failure ==
              if before.Some? then before else if r.Err? then Some(r.error) else None
  {
  }

  /** The div fails exactly when one of its configurations is a custom GET
      without a url, and then with a null dereference of the url. */
  lemma {:induction false} DivFails(tableId: string, vs: seq<View>, st: Styles, serverParam: Option<string>, linkHtml: Link -> string)
    ensures var b := Div(tableId, vs, st, serverParam, linkHtml);
            (b.failure.None? <==> AllHaveUrl(vs)) &&
            (b.failure.Some? ==> b.failure == Some(NullPointer("url")))
  {
    if |vs| > 0 {
      var init := vs[..|vs| - 1];
      DivFails(tableId, init, st, serverParam, linkHtml);
      DivFailureStep(tableId, vs, st, serverParam, linkHtml);
      assert AllHaveUrl(vs) <==> AllHaveUrl(init) && !MissingUrl(vs[|vs| - 1]) by {
        assert forall i :: 0 <= i < |init| ==> init[i] == vs[i];
      }
    }
  }

  /** Without a failure, the div holds one launcher per configuration with
      a custom url. */
  lemma {:induction false} DivLaunchers(tableId: string, vs: seq<View>, st: Styles, serverParam: Option<string>, linkHtml: Link -> string)
    ensures var b := Div(tableId, vs, st, serverParam, linkHtml);
            b.failure.None? ==> |b.launchers| == CustomCount(vs)
  {
    if |vs| > 0 {
      DivLaunchers(tableId, vs[..|vs| - 1], st, serverParam, linkHtml);
    }
  }

  /** A div leaves the style of every configuration it does not link
      alone. */
  lemma {:induction false} DivKeepsOthers(tableId: string, vs: seq<View>, st: Styles, serverParam: Option<string>,
                                          linkHtml: Link -> string, w: View)
    requires forall i :: 0 <= i < |vs| ==> vs[i].conf != w.conf
    ensures StyleNow(Div(tableId, vs, st, serverParam, linkHtml).styles, w) == StyleNow(st, w)
  {
    if |vs| > 0 {
      DivKeepsOthers(tableId, vs[..|vs| - 1], st, serverParam, linkHtml, w);
    }
  }

  /** The views with their styles lengthened `k` times. */
  function Aged(vs: seq<View>, k: nat): (r: seq<View>)
    ensures |r| == |vs| && forall i :: 0 <= i < |vs| ==> r[i] == vs[i].(cssStyle := LengthenedTimes(k, vs[i].cssStyle))
  {
    if |vs| == 0 then [] else Aged(vs[..|vs| - 1], k) + [vs[|vs| - 1].(cssStyle := LengthenedTimes(k, vs[|vs| - 1].cssStyle))]
  }

  /** A div without failure lengthens the style of each of its (distinct)
      configurations once. */
  lemma {:induction false} DivLengthens(tableId: string, vs: seq<View>, st: Styles, serverParam: Option<string>,
                                        linkHtml: Link -> string)
    requires DistinctConfs(vs) && AllHaveUrl(vs)
    ensures var d := Div(tableId, vs, st, serverParam, linkHtml);
            forall i :: 0 <= i < |vs| ==> StyleNow(d.styles, vs[i]) == Lengthened(StyleNow(st, vs[i]))
  {
    if |vs| > 0 {
      var n := |vs| - 1;
      var init := vs[..n];
      var v := vs[n];
      assert DistinctConfs(init) && AllHaveUrl(init);
      DivLengthens(tableId, init, st, serverParam, linkHtml);
      DivKeepsOthers(tableId, init, st, serverParam, linkHtml, v);
      DivFails(tableId, init, st, serverParam, linkHtml);
      DivLast(tableId, vs, st, serverParam, linkHtml);
      var b := Div(tableId, init, st, serverParam, linkHtml);
      var d := Div(tableId, vs, st, serverParam, linkHtml);
      forall i | 0 <= i < n ensures StyleNow(d.styles, vs[i]) == Lengthened(StyleNow(st, vs[i])) {
        assert vs[i].conf != v.conf && init[i] == vs[i];
      }
    }
  }

  /** When every configuration has been linked `k` times before, the div
      is the div of the views read with those lengthened styles. */
  lemma {:induction false} DivAged(tableId: string, vs: seq<View>, st: Styles, k: nat, serverParam: Option<string>,
                                   linkHtml: Link -> string)
    requires DistinctConfs(vs) && AllHaveUrl(vs)
    requires forall i :: 0 <= i < |vs| ==> StyleNow(st, vs[i]) == LengthenedTimes(k, vs[i].cssStyle)
    ensures var d := Div(tableId, vs, st, serverParam, linkHtml);
            var a := Div(tableId, Aged(vs, k), map[], serverParam, linkHtml);
            d.failure.None? && a.failure.None? && d.content == a.content && d.launchers == a.launchers
  {
    if |vs| > 0 {
      var n := |vs| - 1;
      var init := vs[..n];
      var v := vs[n];
      var avs := Aged(vs, k);
      assert avs[..n] == Aged(init, k);
      assert DistinctConfs(init) && AllHaveUrl(init);
      assert forall i :: 0 <= i < |init| ==> init[i] == vs[i];
      DivAged(tableId, init, st, k, serverParam, linkHtml);
      var b := Div(tableId, init, st, serverParam, linkHtml);
      var ab := Div(tableId, avs[..n], map[], serverParam, linkHtml);
      DivKeepsOthers(tableId, init, st, serverParam, linkHtml, v);
      DivKeepsOthers(tableId, avs[..n], map[], serverParam, linkHtml, avs[n]);
      var now := v.(cssStyle := StyleNow(b.styles, v));
      assert now == avs[n].(cssStyle := StyleNow(ab.styles, avs[n]));
      assert !MissingUrl(now);
      DivStep(tableId, vs, st, serverParam, linkHtml, n);
      DivStep(tableId, avs, map[], serverParam, linkHtml, n);
      assert vs[..n + 1] == vs;
      assert avs[..n + 1] == avs;
    }
  }

  /** The div of one position: its class, the position's style and the
      links (HtmlDiv renders like the tags of the html package). */
  function DivHtml(style: string, content: string): string {
    Html.ElementHtml("div", Html.Attributes(None, Some(DivClass), Some(style)), Some(content))
  }

  /** The style of the div at a position. */
  function PositionStyle(p: Position): string {
    match p
    case BOTTOM_LEFT => "float:left;margin-right:10px;"
    case TOP_LEFT => "float:left;margin-right:10px;"
    case BOTTOM_MIDDLE => "float:left;margin-left:10px;"
    case TOP_MIDDLE => "float:left;margin-left:10px;"
    case BOTTOM_RIGHT => "float:right;"
    case TOP_RIGHT => "float:right;"
  }

  /** The jQuery statements placing a div: after the table (bottom left and
      right, which also unclear the info block), at the end of the wrapper
      (bottom middle), at its start (top left and right), or before the
      scrolling block when scrollY is set and before the table otherwise
      (top middle). */
  function Placement(p: Position, tableId: string, div: string, scrollY: Option<string>): string {
    match p
    case BOTTOM_LEFT => "$('#" + tableId + "').after('" + div + "');" + "$('#" + tableId + "_info').css('clear', 'none');"
    case BOTTOM_MIDDLE => "$('#" + tableId + "_wrapper').append('" + div + "');"
    case BOTTOM_RIGHT => "$('#" + tableId + "').after('" + div + "');" + "$('#" + tableId + "_info').css('clear', 'none');"
    case TOP_LEFT => "$('#" + tableId + "_wrapper').prepend('" + div + "');"
    case TOP_MIDDLE =>
      if StringUtils.NotBlank(scrollY) then "$('div.dataTables_scroll').before('" + div + "');"
      else "$('#" + tableId + "').before('" + div + "');"
    case TOP_RIGHT => "$('#" + tableId + "_wrapper').prepend('" + div + "');"
  }

  /** The side a position's div floats to matches its name. */
  lemma PositionStyles(p: Position)
    ensures (p == BOTTOM_RIGHT || p == TOP_RIGHT) <==> PositionStyle(p) == "float:right;"
    ensures (p == BOTTOM_LEFT || p == TOP_LEFT) <==> StartsWith(PositionStyle(p), "float:left;margin-right")
    ensures (p == BOTTOM_MIDDLE || p == TOP_MIDDLE) <==> StartsWith(PositionStyle(p), "float:left;margin-left")
  {
    var l := "float:left;margin-right";
    var m := "float:left;margin-left";
    assert PositionStyle(BOTTOM_LEFT)[..|l|] == l;
    assert PositionStyle(BOTTOM_MIDDLE)[..|m|] == m;
    assert PositionStyle(BOTTOM_MIDDLE)[18] != l[18];
    assert PositionStyle(BOTTOM_LEFT)[18] != m[18];
  }

  // ---------------------------------------------------------------------
  // setup

  /** What setup produces: the placement statements (the INIT callback), the
      launchers appended to the before-all section, the exception that
      stopped it and the styles the links left in the configurations. */
  datatype Outcome = Outcome(links: string, launchers: seq<string>, failure: Option<Exception>, styles: Styles)

  /** setup over the link positions in order: each position builds its own
      div, so the launchers are appended once per position, and each div
      starts from the styles the earlier divs left. */
  function SetupOf(tableId: string, ps: seq<Position>, vs: seq<View>, serverParam: Option<string>,
                   scrollY: Option<string>, linkHtml: Link -> string): Outcome {
    if |ps| == 0 then Outcome("", [], None, map[])
    else
      var o := SetupOf(tableId, ps[..|ps| - 1], vs, serverParam, scrollY, linkHtml);
      if o.failure.Some? then o
      else
        var p := ps[|ps| - 1];
        var d := Div(tableId, vs, o.styles, serverParam, linkHtml);
        if d.failure.Some? then Outcome(o.links, o.launchers + d.launchers, d.failure, d.styles)
        else Outcome(o.links + Placement(p, tableId, DivHtml(PositionStyle(p), d.content), scrollY),
                     o.launchers + d.launchers, None, d.styles)
  }

  /** Without a failing configuration, every position gets its div and the
      launchers of the custom configurations are repeated once per
      position. */
  lemma {:induction false} SetupRepeats(tableId: string, ps: seq<Position>, vs: seq<View>, serverParam: Option<string>,
                                        scrollY: Option<string>, linkHtml: Link -> string)
    requires AllHaveUrl(vs)
    ensures var o := SetupOf(tableId, ps, vs, serverParam, scrollY, linkHtml);
            o.failure.None? && |o.launchers| == |ps| * CustomCount(vs)
  {
    if |ps| > 0 {
      var o := SetupOf(tableId, ps[..|ps| - 1], vs, serverParam, scrollY, linkHtml);
      SetupRepeats(tableId, ps[..|ps| - 1], vs, serverParam, scrollY, linkHtml);
      DivFails(tableId, vs, o.styles, serverParam, linkHtml);
      DivLaunchers(tableId, vs, o.styles, serverParam, linkHtml);
      var k := CustomCount(vs);
      assert (|ps| - 1) * k + k == |ps| * k;
    }
  }

  /** A single position gives exactly its placement of the div. */
  lemma OnePosition(tableId: string, p: Position, vs: seq<View>, serverParam: Option<string>,
                    scrollY: Option<string>, linkHtml: Link -> string)
    requires Div(tableId, vs, map[], serverParam, linkHtml).failure.None?
    ensures SetupOf(tableId, [p], vs, serverParam, scrollY, linkHtml).links ==
            Placement(p, tableId, DivHtml(PositionStyle(p), Div(tableId, vs, map[], serverParam, linkHtml).content), scrollY)
  {
    assert [p][..0] == [];
    assert SetupOf(tableId, [], vs, serverParam, scrollY, linkHtml) == Outcome("", [], None, map[]);
    var placed := Placement(p, tableId, DivHtml(PositionStyle(p), Div(tableId, vs, map[], serverParam, linkHtml).content), scrollY);
    assert "" + placed == placed;
  }

  /** The placements setup writes, position k showing the links of the
      configurations read with their styles lengthened k times. */
  function AgedLinks(tableId: string, ps: seq<Position>, vs: seq<View>, serverParam: Option<string>,
                     scrollY: Option<string>, linkHtml: Link -> string): string {
    if |ps| == 0 then ""
    else
      var k := |ps| - 1;
      AgedLinks(tableId, ps[..k], vs, serverParam, scrollY, linkHtml) +
      Placement(ps[k], tableId, DivHtml(PositionStyle(ps[k]), Div(tableId, Aged(vs, k), map[], serverParam, linkHtml).content), scrollY)
  }

  /** For configurations that are distinct objects and all have what their
      links need, position k shows every link styled as after k earlier
      links of its configuration, and each configuration's style ends
      lengthened once per position. */
  lemma {:induction false} SetupLengthens(tableId: string, ps: seq<Position>, vs: seq<View>, serverParam: Option<string>,
                                          scrollY: Option<string>, linkHtml: Link -> string)
    requires DistinctConfs(vs) && AllHaveUrl(vs)
    ensures var o := SetupOf(tableId, ps, vs, serverParam, scrollY, linkHtml);
            o.failure.None? && o.links == AgedLinks(tableId, ps, vs, serverParam, scrollY, linkHtml) &&
            forall i :: 0 <= i < |vs| ==> StyleNow(o.styles, vs[i]) == LengthenedTimes(|ps|, vs[i].cssStyle)
  {
    if |ps| > 0 {
      var k := |ps| - 1;
      SetupLengthens(tableId, ps[..k], vs, serverParam, scrollY, linkHtml);
      var o := SetupOf(tableId, ps[..k], vs, serverParam, scrollY, linkHtml);
      DivAged(tableId, vs, o.styles, k, serverParam, linkHtml);
      DivLengthens(tableId, vs, o.styles, serverParam, linkHtml);
    } else {
      forall i | 0 <= i < |vs| ensures StyleNow(map[], vs[i]) == LengthenedTimes(0, vs[i].cssStyle) {
      }
    }
  }

  /** The div of a single configuration is its link. */
  lemma SingleDiv(tableId: string, w: View, serverParam: Option<string>, linkHtml: Link -> string)
    requires !MissingUrl(w)
    ensures Div(tableId, [w], map[], serverParam, linkHtml).content == linkHtml(LinkOf(tableId, w, serverParam).value.0)
  {
    assert [w][..0] == [];
    assert StyleNow(map[], w) == w.cssStyle;
    assert w.(cssStyle := w.cssStyle) == w;
  }

  /** A link read with another style differs only in its style. */
  lemma LinkRestyled(tableId: string, v: View, x: Option<string>, serverParam: Option<string>)
    requires !MissingUrl(v)
    ensures LinkOf(tableId, v.(cssStyle := x), serverParam).value.0 == LinkOf(tableId, v, serverParam).value.0.(cssStyle := LinkStyle(x))
  {
  }

  /** The placements of two positions. */
  lemma AgedLinksTwo(tableId: string, p: Position, q: Position, vs: seq<View>, serverParam: Option<string>,
                     scrollY: Option<string>, linkHtml: Link -> string)
    ensures AgedLinks(tableId, [p, q], vs, serverParam, scrollY, linkHtml) ==
            Placement(p, tableId, DivHtml(PositionStyle(p), Div(tableId, Aged(vs, 0), map[], serverParam, linkHtml).content), scrollY) +
            Placement(q, tableId, DivHtml(PositionStyle(q), Div(tableId, Aged(vs, 1), map[], serverParam, linkHtml).content), scrollY)
  {
    assert [p, q][..1] == [p] && [p][..0] == [];
    var first := Placement(p, tableId, DivHtml(PositionStyle(p), Div(tableId, Aged(vs, 0), map[], serverParam, linkHtml).content), scrollY);
    assert AgedLinks(tableId, [p], vs, serverParam, scrollY, linkHtml) == "" + first;
    assert "" + first == first;
  }

  /** One configuration styled `s` and two positions: the first div's link
      carries the margin once, the second's twice, and the configuration
      keeps the doubled style. */
  lemma TwoPositions(tableId: string, p: Position, q: Position, v: View, s: string, serverParam: Option<string>,
                     scrollY: Option<string>, linkHtml: Link -> string)
    requires v.cssStyle == Some(s) && !MissingUrl(v)
    ensures var link := LinkOf(tableId, v, serverParam).value.0;
            var o := SetupOf(tableId, [p, q], [v], serverParam, scrollY, linkHtml);
            link.cssStyle == s + ";;margin-left:2px;" && o.failure.None? &&
            o.links == Placement(p, tableId, DivHtml(PositionStyle(p), linkHtml(link)), scrollY) +
                       Placement(q, tableId, DivHtml(PositionStyle(q), linkHtml(link.(cssStyle := s + ";;margin-left:2px;;;margin-left:2px;"))), scrollY) &&
            StyleNow(o.styles, v) == Some(s + ";;margin-left:2px;;;margin-left:2px;")
  {
    var link := LinkOf(tableId, v, serverParam).value.0;
    SecondLinkLengthened(s);
    SetupLengthens(tableId, [p, q], [v], serverParam, scrollY, linkHtml);
    var a0 := Aged([v], 0);
    var a1 := Aged([v], 1);
    assert a0 == [v.(cssStyle := LengthenedTimes(0, Some(s)))] && a1 == [v.(cssStyle := LengthenedTimes(1, Some(s)))];
    SingleDiv(tableId, a0[0], serverParam, linkHtml);
    SingleDiv(tableId, a1[0], serverParam, linkHtml);
    LinkRestyled(tableId, v, LengthenedTimes(0, Some(s)), serverParam);
    LinkRestyled(tableId, v, LengthenedTimes(1, Some(s)), serverParam);
    assert a0[0] == v && link.(cssStyle := LinkStyle(Some(s))) == link;
    AgedLinksTwo(tableId, p, q, [v], serverParam, scrollY, linkHtml);
    assert LengthenedTimes(2, Some(s)) == Lengthened(LengthenedTimes(1, Some(s)));
  }

  /** A link takes its configuration's style builder and adds the margin
      to it: the view as the link reads it, and the styles with the
      configuration's new one. */
  method TakeStyle(vs: seq<View>, i: nat, ghost styles: Styles) returns (now: View, ghost after: Styles)
    requires i < |vs| && forall j :: 0 <= j < |vs| ==> vs[j].conf.cssStyle == StyleNow(styles, vs[j])
    modifies vs[i].conf`cssStyle
    ensures now == vs[i].(cssStyle := StyleNow(styles, vs[i]))
    ensures after == styles[vs[i].conf := Lengthened(now.cssStyle)]
    ensures forall j :: 0 <= j < |vs| ==> vs[j].conf.cssStyle == StyleNow(after, vs[j])
  {
    var c := vs[i].conf;
    now := vs[i].(cssStyle := c.cssStyle);
    c.cssStyle := Lengthened(now.cssStyle);
    after := styles[c := c.cssStyle];
  }

  /** The loop of initExportDiv: the links of the configurations in order
      and the launchers of the custom ones, stopping at the first failing
      configuration; each link lengthens its configuration's style. */
  method BuildDiv(tableId: string, vs: seq<View>, ghost st: Styles, serverParam: Option<string>, linkHtml: Link -> string)
    returns (content: string, launchers: seq<string>, failure: Option<Exception>, ghost styles: Styles)
    requires forall i :: 0 <= i < |vs| ==> vs[i].conf.cssStyle == StyleNow(st, vs[i])
    modifies Confs(vs)`cssStyle
    ensures Built(content, launchers, failure, styles) == Div(tableId, vs, st, serverParam, linkHtml)
    ensures forall i :: 0 <= i < |vs| ==> vs[i].conf.cssStyle == StyleNow(styles, vs[i])
  {
    content, launchers, failure, styles := "", [], None, st;
    var i := 0;
    while i < |vs|
      invariant 0 <= i <= |vs|
      invariant Div(tableId, vs[..i], st, serverParam, linkHtml) == Built(content, launchers, None, styles)
      invariant forall j :: 0 <= j < |vs| ==> vs[j].conf.cssStyle == StyleNow(styles, vs[j])
    {
      DivStep(tableId, vs, st, serverParam, linkHtml, i);
      var now;
      now, styles := TakeStyle(vs, i, styles);
      var r := LinkOf(tableId, now, serverParam);
      ghost var d := Div(tableId, vs[..i + 1], st, serverParam, linkHtml);
      assert d.styles == styles;
      if r.Err? {
        assert d == Built(content, launchers, Some(r.error), styles);
        DivStops(tableId, vs, st, serverParam, linkHtml, i + 1);
        return content, launchers, Some(r.error), styles;
      }
      var (link, launcher) := r.value;
      content := content + linkHtml(link);
      if launcher.Some? {
        launchers := launchers + [launcher.value];
      }
      assert d == Built(content, launchers, None, styles);
      i := i + 1;
    }
    assert vs[..i] == vs;
  }

  /** initExportDiv: the div's links; the launcher of each custom
      configuration is appended to the before-all section, those met before
      a failing configuration included. */
  method InitExportDiv(ext: Extensions.Extension, tableId: string, vs: seq<View>, ghost st: Styles,
                       serverParam: Option<string>, linkHtml: Link -> string)
    returns (content: string, failure: Option<Exception>, ghost styles: Styles)
    requires forall i :: 0 <= i < |vs| ==> vs[i].conf.cssStyle == StyleNow(st, vs[i])
    modifies ext, Confs(vs)`cssStyle
    ensures var b := Div(tableId, vs, st, serverParam, linkHtml);
            failure == b.failure && (failure.None? ==> content == b.content) && styles == b.styles &&
            ext.Buffer(Extensions.BeforeAll) == Javascript.ExtendedAll(old(ext.Buffer(Extensions.BeforeAll)), b.launchers)
    ensures forall s :: s != Extensions.BeforeAll ==> ext.Buffer(s) == old(ext.Buffer(s))
    ensures forall i :: 0 <= i < |vs| ==> vs[i].conf.cssStyle == StyleNow(styles, vs[i])
  {
    var launchers;
    content, launchers, failure, styles := BuildDiv(tableId, vs, st, serverParam, linkHtml);
    Extensions.AppendAll(ext, Extensions.BeforeAll, launchers);
  }

  /** One more configuration: its style is lengthened, and its link and
      launcher join the div, or its exception becomes the div's failure. */
  lemma DivStep(tableId: string, vs: seq<View>, st: Styles, serverParam: Option<string>, linkHtml: Link -> string, i: nat)
    requires i < |vs| && Div(tableId, vs[..i], st, serverParam, linkHtml).failure.None?
    ensures var b := Div(tableId, vs[..i], st, serverParam, linkHtml);
            var d := Div(tableId, vs[..i + 1], st, serverParam, linkHtml);
            var now := vs[i].(cssStyle := StyleNow(b.styles, vs[i]));
            var r := LinkOf(tableId, now, serverParam);
            d.styles == b.styles[vs[i].conf := Lengthened(now.cssStyle)] &&
            (r.Err? ==> d == Built(b.content, b.launchers, Some(r.error), d.styles)) &&
            (r.Ok? ==> d.failure.None? && d.content == b.content + linkHtml(r.value.0) &&
                       d.launchers == b.launchers + (if r.value.1.Some? then [r.value.1.value] else []))
  {
    var ws := vs[..i + 1];
    assert |ws| == i + 1 && ws[..i] == vs[..i] && ws[i] == vs[i];
    DivLast(tableId, ws, st, serverParam, linkHtml);
  }

  /** The same step, stated for the last configuration of a sequence. */
  lemma DivLast(tableId: string, ws: seq<View>, st: Styles, serverParam: Option<string>, linkHtml: Link -> string)
    requires |ws| > 0 && Div(tableId, ws[..|ws| - 1], st, serverParam, linkHtml).failure.None?
    ensures var b := Div(tableId, ws[..|ws| - 1], st, serverParam, linkHtml);
            var d := Div(tableId, ws, st, serverParam, linkHtml);
            var v := ws[|ws| - 1];
            var now := v.(cssStyle := StyleNow(b.styles, v));
            var r := LinkOf(tableId, now, serverParam);
            d.styles == b.styles[v.conf := Lengthened(now.cssStyle)] &&
            (r.Err? ==> d == Built(b.content, b.launchers, Some(r.error), d.styles)) &&
            (r.Ok? ==> d.failure.None? && d.content == b.content + linkHtml(r.value.0) &&
                       d.launchers == b.launchers + (if r.value.1.Some? then [r.value.1.value] else []))
  {
  }


  /** Once a prefix of the configurations fails, the div is that failure. */
  lemma {:induction false} DivStops(tableId: string, vs: seq<View>, st: Styles, serverParam: Option<string>,
                                    linkHtml: Link -> string, k: nat)
    requires k <= |vs| && Div(tableId, vs[..k], st, serverParam, linkHtml).failure.Some?
    ensures Div(tableId, vs, st, serverParam, linkHtml) == Div(tableId, vs[..k], st, serverParam, linkHtml)
    decreases |vs| - k
  {
    if k < |vs| {
      assert vs[..k + 1][..k] == vs[..k];
      DivStops(tableId, vs, st, serverParam, linkHtml, k + 1);
    } else {
      assert vs[..k] == vs;
    }
  }

  /** Once a prefix of the positions fails, setup is that failure. */
  lemma {:induction false} SetupStops(tableId: string, ps: seq<Position>, vs: seq<View>, serverParam: Option<string>,
                                      scrollY: Option<string>, linkHtml: Link -> string, k: nat)
    requires k <= |ps| && SetupOf(tableId, ps[..k], vs, serverParam, scrollY, linkHtml).failure.Some?
    ensures SetupOf(tableId, ps, vs, serverParam, scrollY, linkHtml) == SetupOf(tableId, ps[..k], vs, serverParam, scrollY, linkHtml)
    decreases |ps| - k
  {
    if k < |ps| {
      assert ps[..k + 1][..k] == ps[..k];
      SetupStops(tableId, ps, vs, serverParam, scrollY, linkHtml, k + 1);
    } else {
      assert ps[..k] == ps;
    }
  }

  /** Some configuration exports with POST. */
  predicate SomePost(vs: seq<View>) {
    exists i :: 0 <= i < |vs| && vs[i].httpMethod == ExportConfs.POST
  }

  /** The scope loop: the export scope is asked for iff a configuration
      uses POST. */
  method AddExportScope(scopes: Extensions.AssetScopes, vs: seq<View>)
    modifies scopes
    ensures scopes.names == old(scopes.names) + (if SomePost(vs) then {Scope} else {})
  {
    var i := 0;
    while i < |vs|
      invariant 0 <= i <= |vs|
      invariant scopes.names == old(scopes.names) + (if SomePost(vs[..i]) then {Scope} else {})
    {
      assert forall j :: 0 <= j < i ==> vs[..i + 1][j] == vs[..i][j];
      if vs[i].httpMethod == ExportConfs.POST {
        scopes.AddScope(Scope);
        assert vs[..i + 1][i] == vs[i];
      }
      i := i + 1;
    }
    assert vs[..i] == vs;
  }

  /** The positions loop of setup: for each link position (`ps`, the
      iteration order of the positions set) the div of the configurations,
      placed by its statement, until a configuration fails. The views are
      read from the configurations, and each div lengthens their styles. */
  method PlaceLinks(tableId: string, ps: seq<Position>, vs: seq<View>, serverParam: Option<string>,
                    scrollY: Option<string>, linkHtml: Link -> string)
    returns (links: string, launchers: seq<string>, failure: Option<Exception>, ghost styles: Styles)
    requires forall i :: 0 <= i < |vs| ==> vs[i].conf.cssStyle == vs[i].cssStyle
    modifies Confs(vs)`cssStyle
    ensures Outcome(links, launchers, failure, styles) == SetupOf(tableId, ps, vs, serverParam, scrollY, linkHtml)
    ensures forall i :: 0 <= i < |vs| ==> vs[i].conf.cssStyle == StyleNow(styles, vs[i])
  {
    links, launchers, failure, styles := "", [], None, map[];
    var k := 0;
    while k < |ps|
      invariant 0 <= k <= |ps|
      invariant SetupOf(tableId, ps[..k], vs, serverParam, scrollY, linkHtml) == Outcome(links, launchers, None, styles)
      invariant forall i :: 0 <= i < |vs| ==> vs[i].conf.cssStyle == StyleNow(styles, vs[i])
    {
      ghost var before := styles;
      var content, divLaunchers, divFailure;
      content, divLaunchers, divFailure, styles := BuildDiv(tableId, vs, before, serverParam, linkHtml);
      var placed := Placement(ps[k], tableId, DivHtml(PositionStyle(ps[k]), content), scrollY);
      SetupStep(tableId, ps, vs, serverParam, scrollY, linkHtml, k, Built(content, divLaunchers, divFailure, styles), placed);
      launchers := launchers + divLaunchers;
      if divFailure.Some? {
        SetupStops(tableId, ps, vs, serverParam, scrollY, linkHtml, k + 1);
        return links, launchers, divFailure, styles;
      }
      links := links + placed;
      k := k + 1;
    }
    assert ps[..k] == ps;
  }

  /** One more position: its div, built from the styles the earlier ones
      left, placed unless the div fails. */
  lemma SetupStep(tableId: string, ps: seq<Position>, vs: seq<View>, serverParam: Option<string>,
                  scrollY: Option<string>, linkHtml: Link -> string, k: nat, d: Built, placed: string)
    requires k < |ps| && SetupOf(tableId, ps[..k], vs, serverParam, scrollY, linkHtml).failure.None?
    requires d == Div(tableId, vs, SetupOf(tableId, ps[..k], vs, serverParam, scrollY, linkHtml).styles, serverParam, linkHtml)
    requires placed == Placement(ps[k], tableId, DivHtml(PositionStyle(ps[k]), d.content), scrollY)
    ensures var o := SetupOf(tableId, ps[..k], vs, serverParam, scrollY, linkHtml);
            SetupOf(tableId, ps[..k + 1], vs, serverParam, scrollY, linkHtml) ==
            if d.failure.Some? then Outcome(o.links, o.launchers + d.launchers, d.failure, d.styles)
            else Outcome(o.links + placed, o.launchers + d.launchers, None, d.styles)
  {
    assert ps[..k + 1][..k] == ps[..k];
  }

  /** setup: the export scope when a configuration uses POST, then the links
      at every position. The statements it answers are what setup adds as
      an INIT callback in APPEND mode; the configurations keep the styles
      their links lengthened. */
  method Setup(ext: Extensions.Extension, scopes: Extensions.AssetScopes, em: TC.ExportMap, tableId: string,
               ps: seq<Position>, serverParam: Option<string>, scrollY: Option<string>, linkHtml: Link -> string)
    returns (r: Result<string>, ghost o: Outcome)
    requires em.Valid()
    modifies ext, scopes, em.Values()`cssStyle
    ensures scopes.names == old(scopes.names) + (if SomePost(old(ViewsOf(em.Values()))) then {Scope} else {})
    ensures o == SetupOf(tableId, ps, old(ViewsOf(em.Values())), serverParam, scrollY, linkHtml)
    ensures r == (if o.failure.Some? then Err(o.failure.value) else Ok(o.links))
    ensures ext.Buffer(Extensions.BeforeAll) == Javascript.ExtendedAll(old(ext.Buffer(Extensions.BeforeAll)), o.launchers)
    ensures forall s :: s != Extensions.BeforeAll ==> ext.Buffer(s) == old(ext.Buffer(s))
    ensures forall i :: 0 <= i < |em.Values()| ==> em.Values()[i].cssStyle == StyleNow(o.styles, old(ViewsOf(em.Values()))[i])
  {
    var cs := em.Values();
    var vs := ViewsOf(cs);
    assert Confs(vs) == cs;
    AddExportScope(scopes, vs);
    var links, launchers, failure;
    ghost var styles;
    links, launchers, failure, styles := PlaceLinks(tableId, ps, vs, serverParam, scrollY, linkHtml);
    o := Outcome(links, launchers, failure, styles);
    Extensions.AppendAll(ext, Extensions.BeforeAll, launchers);
    r := if failure.Some? then Err(failure.value) else Ok(links);
  }

  // ---------------------------------------------------------------------
  // The parentheses of a GET launcher

  /** The literal words of the launchers hold no parenthesis. */
  lemma WordsBalanced()
    ensures Balance("function ") == 0 && Balance("var aoData = ") == 0 && Balance("aoData") == 0
  {
    NoParensBalanced("function ");
    NoParensBalanced("var aoData = ");
    NoParensBalanced("aoData");
  }

  lemma NameWordsBalanced()
    ensures Balance("oTable_") == 0 && Balance("ddl_dt_launch_export_") == 0
  {
    NoParensBalanced("oTable_");
    NoParensBalanced("ddl_dt_launch_export_");
  }

  lemma CallWordsBalanced()
    ensures Balance(".oApi._fnAjaxParameters") == 0 && Balance(".fnSettings") == 0
  {
    NoParensBalanced(".oApi._fnAjaxParameters");
    NoParensBalanced(".fnSettings");
  }

  lemma UrlWordsBalanced()
    ensures Balance("window.location='") == 0 && Balance("' + $.param") == 0
    ensures Balance("$.download") == 0 && Balance("',$.param") == 0
  {
    NoParensBalanced("window.location='");
    NoParensBalanced("' + $.param");
    NoParensBalanced("$.download");
    NoParensBalanced("',$.param");
  }

  lemma MarksBalanced()
    ensures Balance("(") == 1 && Balance("()") == 0 && Balance(")") == -1 && Balance("))") == -2
    ensures Balance("(){") == 0 && Balance(";") == 0 && Balance(");") == -1 && Balance(";}") == 0
    ensures Balance("('") == 1 && Balance(",'") == 0 && Balance("');") == -1 && Balance("}") == 0
    ensures Balance("\n") == 0 && Balance("&") == 0 && Balance("?") == 0 && Balance("_") == 0
  {
  }

  lemma MethodNameBalanced(m: ExportConfs.HttpMethod)
    ensures Balance(MethodName(m)) == 0
  {
    NoParensBalanced(MethodName(m));
  }

  lemma NamesBalanced(tableId: string, format: string)
    requires NoParens(tableId) && NoParens(format)
    ensures Balance(TableVar(tableId)) == 0 && Balance(LaunchName(tableId, format)) == 0
  {
    NameWordsBalanced();
    MarksBalanced();
    NoParensBalanced(tableId);
    NoParensBalanced(format);
    BalanceConcat("oTable_", tableId);
    BalanceConcat("ddl_dt_launch_export_", tableId);
    BalanceConcat("ddl_dt_launch_export_" + tableId, "_");
    BalanceConcat("ddl_dt_launch_export_" + tableId + "_", format);
  }

  /** The parameters call is balanced; without its last parenthesis it
      leaves one open. */
  lemma AjaxBalanced(t: string)
    requires Balance(t) == 0
    ensures Balance(AjaxOpen(t)) == 1 && Balance(AjaxParameters(t)) == 0
  {
    CallWordsBalanced();
    MarksBalanced();
    BalanceConcat(t, ".oApi._fnAjaxParameters");
    BalanceConcat(t + ".oApi._fnAjaxParameters", "(");
    BalanceConcat(t + ".oApi._fnAjaxParameters" + "(", t);
    BalanceConcat(t + ".oApi._fnAjaxParameters" + "(" + t, ".fnSettings");
    BalanceConcat(t + ".oApi._fnAjaxParameters" + "(" + t + ".fnSettings", "()");
    BalanceConcat(AjaxOpen(t), ")");
  }

  lemma PreludeBalanced(t: string, serverParam: string)
    requires Balance(t) == 0 && NoParens(serverParam)
    ensures Balance(ServerParamPrelude(t, serverParam)) == 0
  {
    WordsBalanced();
    MarksBalanced();
    AjaxBalanced(t);
    NoParensBalanced(serverParam);
    var a := AjaxParameters(t);
    BalanceConcat("var aoData = ", a);
    BalanceConcat("var aoData = " + a, ";");
    BalanceConcat("var aoData = " + a + ";", serverParam);
    BalanceConcat("var aoData = " + a + ";" + serverParam, "(");
    BalanceConcat("var aoData = " + a + ";" + serverParam + "(", "aoData");
    BalanceConcat("var aoData = " + a + ";" + serverParam + "(" + "aoData", ");");
  }

  /** The start of a launcher is balanced. */
  lemma HeadBalanced(tableId: string, format: string, serverParam: Option<string>)
    requires NoParens(tableId) && NoParens(format)
    requires serverParam.Some? ==> NoParens(serverParam.value)
    ensures Balance(LauncherHead(tableId, format, serverParam)) == 0
  {
    WordsBalanced();
    MarksBalanced();
    NamesBalanced(tableId, format);
    var prelude := if StringUtils.NotBlank(serverParam) then ServerParamPrelude(TableVar(tableId), serverParam.value) else "";
    if StringUtils.NotBlank(serverParam) {
      PreludeBalanced(TableVar(tableId), serverParam.value);
    } else {
      NoParensBalanced("");
    }
    var n := LaunchName(tableId, format);
    BalanceConcat("function ", n);
    BalanceConcat("function " + n, "(){");
    BalanceConcat("function " + n + "(){", prelude);
  }

  lemma LocationBalanced(url: string)
    requires NoParens(url)
    ensures Balance(Location(url)) == 1
  {
    UrlWordsBalanced();
    MarksBalanced();
    NoParensBalanced(url);
    var sep := if '?' in url then "&" else "?";
    BalanceConcat("window.location='", url);
    BalanceConcat("window.location='" + url, sep);
    BalanceConcat("window.location='" + url + sep, "' + $.param");
    BalanceConcat("window.location='" + url + sep + "' + $.param", "(");
  }

  /** The balance of a GET launcher around its parameters `params`, closed
      by `close`. */
  lemma GetShapeBalance(head: string, loc: string, params: string, close: string)
    ensures Balance(head + loc + params + close + ";}" + "\n") ==
            Balance(head) + Balance(loc) + Balance(params) + Balance(close)
  {
    MarksBalanced();
    BalanceConcat(head, loc);
    BalanceConcat(head + loc, params);
    BalanceConcat(head + loc + params, close);
    BalanceConcat(head + loc + params + close, ";}");
    BalanceConcat(head + loc + params + close + ";}", "\n");
  }

  /** As written, a GET launcher built with a server parameter function
      closes one parenthesis more than it opens, whatever the table, format,
      url and function names (when they hold none). */
  lemma GetLauncherUnbalanced(tableId: string, format: string, url: string, serverParam: string)
    requires NoParens(tableId) && NoParens(format) && NoParens(url) && NoParens(serverParam)
    requires StringUtils.NotBlank(Some(serverParam))
    ensures Balance(GetLauncher(tableId, format, url, Some(serverParam))) == -1
  {
    WordsBalanced();
    MarksBalanced();
    HeadBalanced(tableId, format, Some(serverParam));
    LocationBalanced(url);
    GetShapeBalance(LauncherHead(tableId, format, Some(serverParam)), Location(url), "aoData", "))");
  }

  /** Without a server parameter function the GET launcher is balanced. */
  lemma GetLauncherBalancedWithoutServerParam(tableId: string, format: string, url: string, serverParam: Option<string>)
    requires NoParens(tableId) && NoParens(format) && NoParens(url)
    requires !StringUtils.NotBlank(serverParam)
    ensures Balance(GetLauncher(tableId, format, url, serverParam)) == 0
  {
    MarksBalanced();
    NamesBalanced(tableId, format);
    AjaxBalanced(TableVar(tableId));
    HeadBalanced(tableId, format, serverParam);
    LocationBalanced(url);
    GetShapeBalance(LauncherHead(tableId, format, serverParam), Location(url), AjaxOpen(TableVar(tableId)), "))");
  }

  /** The GET launcher as meant: the complete parameters call in both cases,
      as in the other launchers, and `$.param(` closed once. It writes the
      same text when no server parameter function is set. */
  function GetLauncherIntended(tableId: string, format: string, url: string, serverParam: Option<string>): (s: string)
    ensures !StringUtils.NotBlank(serverParam) ==> s == GetLauncher(tableId, format, url, serverParam)
  {
    var params := if StringUtils.NotBlank(serverParam) then "aoData" else AjaxParameters(TableVar(tableId));
    LauncherHead(tableId, format, serverParam) + Location(url) + params + ")" + ";}" + "\n"
  }

  /** The intended GET launcher is balanced, with or without a server
      parameter function. */
  lemma GetLauncherIntendedBalanced(tableId: string, format: string, url: string, serverParam: Option<string>)
    requires NoParens(tableId) && NoParens(format) && NoParens(url)
    requires serverParam.Some? ==> NoParens(serverParam.value)
    ensures Balance(GetLauncherIntended(tableId, format, url, serverParam)) == 0
  {
    WordsBalanced();
    MarksBalanced();
    NamesBalanced(tableId, format);
    AjaxBalanced(TableVar(tableId));
    HeadBalanced(tableId, format, serverParam);
    LocationBalanced(url);
    var params := if StringUtils.NotBlank(serverParam) then "aoData" else AjaxParameters(TableVar(tableId));
    GetShapeBalance(LauncherHead(tableId, format, serverParam), Location(url), params, ")");
  }

  /** The POST, PUT and DELETE launchers are balanced. */
  lemma OtherLauncherBalanced(tableId: string, format: string, url: string, m: ExportConfs.HttpMethod, serverParam: Option<string>)
    requires NoParens(tableId) && NoParens(format) && NoParens(url)
    requires serverParam.Some? ==> NoParens(serverParam.value)
    ensures Balance(OtherLauncher(tableId, format, Some(url), m, serverParam)) == 0
  {
    WordsBalanced();
    UrlWordsBalanced();
    MarksBalanced();
    MethodNameBalanced(m);
    NamesBalanced(tableId, format);
    AjaxBalanced(TableVar(tableId));
    HeadBalanced(tableId, format, serverParam);
    NoParensBalanced(url);
    var params := if StringUtils.NotBlank(serverParam) then "aoData" else AjaxParameters(TableVar(tableId));
    var h := LauncherHead(tableId, format, serverParam);
    var u := Javascript.Text(Some(url));
    assert u == url;
    BalanceConcat(h, "$.download");
    BalanceConcat(h + "$.download", "('");
    BalanceConcat(h + "$.download" + "('", u);
    BalanceConcat(h + "$.download" + "('" + u, "',$.param");
    BalanceConcat(h + "$.download" + "('" + u + "',$.param", "(");
    var d := h + "$.download" + "('" + u + "',$.param" + "(";
    BalanceConcat(d, params);
    BalanceConcat(d + params, ")");
    BalanceConcat(d + params + ")", ",'");
    BalanceConcat(d + params + ")" + ",'", MethodName(m));
    BalanceConcat(d + params + ")" + ",'" + MethodName(m), "');");
    BalanceConcat(d + params + ")" + ",'" + MethodName(m) + "');", "}");
    BalanceConcat(d + params + ")" + ",'" + MethodName(m) + "');" + "}", "\n");
  }
}
