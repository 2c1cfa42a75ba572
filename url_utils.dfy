/** util/UrlUtils: the current URI of a request, the query-parameter
    appender, URL classification and the export URLs. The servlet request is
    a value; `URLEncoder.encode` and `HttpServletResponse.encodeURL` are
    uninterpreted functions passed in by the caller (a missing response is
    `None`). */
module UrlUtils {
  import opened Wrappers
  import opened JavaString

  const ForwardRequestUri := "javax.servlet.forward.request_uri"
  const ForwardQueryString := "javax.servlet.forward.query_string"
  const IncludeRequestUri := "javax.servlet.include.request_uri"

  /** What the code reads from an HttpServletRequest: its attributes (by
      their toString), the request URI, the query string and the context
      path. */
  datatype ServletRequest = ServletRequest(
    attributes: map<string, string>,
    requestUri: string,
    queryString: Option<string>,
    contextPath: string)

  /** The names of the export request parameters (their values live in
      ExportConstants and AssetFilter, which are not part of this model). */
  datatype ExportParamNames = ExportParamNames(exportType: string, exportId: string, assetFilterState: string)

  /** The character addParameter puts before `name=value`. */
  function Separator(url: string): (c: char)
    ensures c == '?' <==> '?' !in url
    ensures c == '?' || c == '&'
  {
    if '?' in url then '&' else '?'
  }

  /** The builder's text after one addParameter call. */
  function WithParameter(url: string, name: string, value: string, encode: string -> string): (r: string)
    ensures |r| == |url| + 2 + |name| + |encode(value)|
    ensures r[..|url|] == url
    ensures r[|url|] == Separator(url)
    ensures r[|url| + 1..] == name + "=" + encode(value)
    ensures '?' in r
  {
    var r := url + [Separator(url)] + name + "=" + encode(value);
    assert r[|url|] == Separator(url);
    r
  }

  /** A StringBuilder holding a URL under construction. */
  class UrlBuilder {
    var text: string

    constructor(initial: string)
      ensures text == initial
    {
      text := initial;
    }

    /** addParameter: `?` before the first parameter, `&` before the others,
        then `name=` and the encoded String.valueOf(value). */
    method AddParameter(name: string, value: string, encode: string -> string)
      modifies this
      ensures text == WithParameter(old(text), name, value, encode)
    {
      if '?' !in text {
        text := text + "?";
      } else {
        text := text + "&";
      }
      text := text + name + "=" + encode(value);
    }
  }

  /** The path part of the current URI: the forward URI attribute, else the
      include URI attribute, else the request URI. */
  function CurrentPath(req: ServletRequest): (r: string)
    ensures ForwardRequestUri in req.attributes ==> r == req.attributes[ForwardRequestUri]
    ensures ForwardRequestUri !in req.attributes && IncludeRequestUri in req.attributes ==>
              r == req.attributes[IncludeRequestUri]
    ensures ForwardRequestUri !in req.attributes && IncludeRequestUri !in req.attributes ==>
              r == req.requestUri
  {
    if ForwardRequestUri in req.attributes then req.attributes[ForwardRequestUri]
    else if IncludeRequestUri in req.attributes then req.attributes[IncludeRequestUri]
    else req.requestUri
  }

  /** The query part: "?" and the forward query string attribute, else "?"
      and the request's own query string, else nothing. */
  function CurrentQuery(req: ServletRequest): (r: string)
    ensures ForwardQueryString in req.attributes ==> r == "?" + req.attributes[ForwardQueryString]
    ensures ForwardQueryString !in req.attributes && req.queryString.Some? ==> r == "?" + req.queryString.value
    ensures ForwardQueryString !in req.attributes && req.queryString.None? ==> r == ""
  {
    if ForwardQueryString in req.attributes then "?" + req.attributes[ForwardQueryString]
    else if req.queryString.Some? then "?" + req.queryString.value
    else ""
  }

  function CurrentUri(req: ServletRequest): string {
    CurrentPath(req) + CurrentQuery(req)
  }

  /** getCurrentUri: a new builder holding the path and then the query. */
  method GetCurrentUri(req: ServletRequest) returns (b: UrlBuilder)
    ensures fresh(b)
    ensures b.text == CurrentUri(req)
  {
    b := new UrlBuilder("");
    if ForwardRequestUri in req.attributes {
      b.text := b.text + req.attributes[ForwardRequestUri];
    } else if IncludeRequestUri in req.attributes {
      b.text := b.text + req.attributes[IncludeRequestUri];
    } else {
      b.text := b.text + req.requestUri;
    }
    if ForwardQueryString in req.attributes {
      b.text := b.text + "?" + req.attributes[ForwardQueryString];
    } else if req.queryString.Some? {
      b.text := b.text + "?" + req.queryString.value;
    }
  }

  /** A request with neither forward nor include attributes and no query
      string yields its plain request URI, and any query present makes the
      current URI carry a `?`, so later parameters are joined with `&`. */
  lemma CurrentUriShape(req: ServletRequest)
    ensures ForwardRequestUri !in req.attributes && IncludeRequestUri !in req.attributes
            && ForwardQueryString !in req.attributes && req.queryString.None? ==>
              CurrentUri(req) == req.requestUri
    ensures ForwardQueryString in req.attributes || req.queryString.Some? ==>
              '?' in CurrentUri(req) && Separator(CurrentUri(req)) == '&'
  {
    if ForwardQueryString in req.attributes || req.queryString.Some? {
      var u := CurrentUri(req);
      assert u[|CurrentPath(req)|] == '?';
    }
  }

  predicate IsContextRelative(url: string) {
    StartsWith(url, "/") && !StartsWith(url, "//")
  }

  predicate IsServerRelative(url: string) {
    StartsWith(url, "~/")
  }

  /** isAbsolute: contains "://", starts with "mailto:" in any case, or starts
      with "//". */
  predicate IsAbsolute(url: string) {
    Contains(url, "://") || StartsWith(ToLower(url), "mailto:") || StartsWith(url, "//")
  }

  /** Applies the response's encodeURL when there is a response. */
  function Encoded(url: string, encodeUrl: Option<string -> string>): string {
    if encodeUrl.Some? then encodeUrl.value(url) else url
  }

  /** getProcessedUrl: a context-relative URL gets the context path in front,
      a server-relative one loses its `~`, and any other URL (absolute or
      relative to the current page) is kept. */
  function ProcessedUrl(url: string, req: ServletRequest, encodeUrl: Option<string -> string>): (r: string)
    ensures encodeUrl.None? && IsContextRelative(url) ==> r == req.contextPath + url
    ensures encodeUrl.None? && IsServerRelative(url) ==> r == url[1..] && StartsWith(r, "/")
    ensures encodeUrl.None? && !IsContextRelative(url) && !IsServerRelative(url) ==> r == url
  {
    var processed :=
      if IsContextRelative(url) then req.contextPath + url
      else if IsServerRelative(url) then url[1..]
      else url;
    Encoded(processed, encodeUrl)
  }

  /** The three kinds of URL the processing distinguishes do not overlap:
      no URL is both context- and server-relative, and one that starts with
      "//" (protocol-relative, hence absolute) is kept as it is. */
  lemma UrlKinds(url: string, req: ServletRequest)
    ensures !(IsContextRelative(url) && IsServerRelative(url))
    ensures StartsWith(url, "//") ==> IsAbsolute(url) && ProcessedUrl(url, req, None) == url
    ensures IsServerRelative(url) ==> |ProcessedUrl(url, req, None)| == |url| - 1
  {
  }

  lemma {:induction false} ToLowerDrop(s: string)
    requires |s| > 0
    ensures ToLower(s)[1..] == ToLower(s[1..])
  {
  }

  /** Lowering a string does not move a pattern made of characters that have
      no case. */
  lemma {:induction false} StartsWithLowered(s: string, p: string)
    requires forall i :: 0 <= i < |p| ==> ToLowerChar(p[i]) == p[i] && ToUpperChar(p[i]) == p[i]
    ensures StartsWith(ToLower(s), p) <==> StartsWith(s, p)
  {
    if |p| <= |s| {
      if StartsWith(s, p) {
        assert forall i :: 0 <= i < |p| ==> ToLower(s)[i] == p[i];
        assert ToLower(s)[..|p|] == p;
      }
      if StartsWith(ToLower(s), p) {
        forall i | 0 <= i < |p|
          ensures s[i] == p[i]
        {
          assert ToLowerChar(s[i]) == p[i];
        }
        assert s[..|p|] == p;
      }
    }
  }

  lemma {:induction false} ContainsLowered(s: string, p: string)
    requires forall i :: 0 <= i < |p| ==> ToLowerChar(p[i]) == p[i] && ToUpperChar(p[i]) == p[i]
    ensures Contains(ToLower(s), p) <==> Contains(s, p)
    decreases |s|
  {
    StartsWithLowered(s, p);
    if |s| > 0 {
      ToLowerDrop(s);
      ContainsLowered(s[1..], p);
    }
  }

  /** Whether a URL is absolute does not depend on the case of its letters. */
  lemma AbsoluteIgnoresCase(url: string)
    ensures IsAbsolute(ToLower(url)) <==> IsAbsolute(url)
  {
    ContainsLowered(url, "://");
    StartsWithLowered(url, "//");
    assert ToLower(ToLower(url)) == ToLower(url);
  }

  /** The export URL before encodeURL: the current URI, then the export
      type, the table id and the asset-filter state "false". */
  function ExportUrlText(req: ServletRequest, names: ExportParamNames, exportFormat: string, tableId: string,
                         encode: string -> string): string
  {
    var u0 := CurrentUri(req);
    var u1 := WithParameter(u0, names.exportType, exportFormat, encode);
    var u2 := WithParameter(u1, names.exportId, tableId, encode);
    WithParameter(u2, names.assetFilterState, BoolToString(false), encode)
  }

  /** getExportUrl. */
  method GetExportUrl(req: ServletRequest, encodeUrl: Option<string -> string>, names: ExportParamNames,
                      exportFormat: string, tableId: string, encode: string -> string) returns (r: string)
    ensures r == Encoded(ExportUrlText(req, names, exportFormat, tableId, encode), encodeUrl)
  {
    var exportUrl := GetCurrentUri(req);
    exportUrl.AddParameter(names.exportType, exportFormat, encode);
    exportUrl.AddParameter(names.exportId, tableId, encode);
    exportUrl.AddParameter(names.assetFilterState, BoolToString(false), encode);
    r := Encoded(exportUrl.text, encodeUrl);
  }

  /** The export URL spelled out: the three parameters follow the current
      URI in order, the first joined with `?` unless the URI already has a
      query, the others always with `&`. */
  lemma ExportUrlOrder(req: ServletRequest, names: ExportParamNames, exportFormat: string, tableId: string,
                       encode: string -> string)
    ensures ExportUrlText(req, names, exportFormat, tableId, encode) ==
              CurrentUri(req) + [Separator(CurrentUri(req))]
              + names.exportType + "=" + encode(exportFormat)
              + "&" + names.exportId + "=" + encode(tableId)
              + "&" + names.assetFilterState + "=" + encode("false")
  {
    var u0 := CurrentUri(req);
    var u1 := WithParameter(u0, names.exportType, exportFormat, encode);
    var u2 := WithParameter(u1, names.exportId, tableId, encode);
    assert Separator(u1) == '&' && Separator(u2) == '&';
  }

  /** getCustomExportUrl: the custom URL with the asset-filter state added. */
  function CustomExportUrl(customUrl: string, names: ExportParamNames, encodeUrl: Option<string -> string>,
                           encode: string -> string): (r: string)
    ensures encodeUrl.None? ==> StartsWith(r, customUrl) && '?' in r
    ensures encodeUrl.None? && '?' !in customUrl ==>
              r == customUrl + "?" + names.assetFilterState + "=" + encode("false")
  {
    Encoded(WithParameter(customUrl, names.assetFilterState, BoolToString(false), encode), encodeUrl)
  }

  /** isTableBeingExported: false without the export-id attribute, otherwise
      the attribute and the table id compared ignoring case. */
  predicate IsTableBeingExported(req: ServletRequest, names: ExportParamNames, tableId: string) {
    names.exportId in req.attributes && ToLower(req.attributes[names.exportId]) == ToLower(tableId)
  }

  lemma {:induction false} LowerOfUpper(s: string)
    ensures ToLower(ToUpper(s)) == ToLower(s)
  {
    assert forall i :: 0 <= i < |s| ==> ToLowerChar(ToUpperChar(s[i])) == ToLowerChar(s[i]);
  }

  /** The answer does not depend on the case of the table id, and an
      attribute equal to the id always matches. */
  lemma TableBeingExportedIgnoresCase(req: ServletRequest, names: ExportParamNames, tableId: string)
    ensures IsTableBeingExported(req, names, ToUpper(tableId)) == IsTableBeingExported(req, names, tableId)
    ensures IsTableBeingExported(req, names, ToLower(tableId)) == IsTableBeingExported(req, names, tableId)
    ensures names.exportId in req.attributes && req.attributes[names.exportId] == tableId ==>
              IsTableBeingExported(req, names, tableId)
    ensures names.exportId !in req.attributes ==> !IsTableBeingExported(req, names, tableId)
  {
    LowerOfUpper(tableId);
    assert ToLower(ToLower(tableId)) == ToLower(tableId);
  }
}
