/** extension/plugin/FixedHeaderPlugin: the configuration object given to
    the FixedHeader plugin and the statement that creates it. */
module FixedHeader {
  import opened Wrappers
  import opened JavaString
  import opened ConfigValues
  import StringUtils
  import Javascript
  import Extensions

  /** FIXEDHEADER_PLUGIN_NAME. */
  const PluginName: string := "fixedHeader"
  /** DTConstants.DT_OFFSETTOP. */
  const OffsetTop: string := "offsetTop"

  /** The edge the header is fixed to: bottom, right or left when the
      position option names one of them in any case, top otherwise (a
      blank or missing position included). */
  function Edge(position: Option<string>): (k: string)
    ensures k == "top" || k == "bottom" || k == "right" || k == "left"
    ensures k != "top" <==>
              StringUtils.NotBlank(position) &&
              (ToLower(position.value) == "bottom" || ToLower(position.value) == "right" || ToLower(position.value) == "left")
    ensures k != "top" ==> k == ToLower(position.value)
  {
    if StringUtils.NotBlank(position) then
      var p := ToLower(position.value);
      if p == "bottom" then "bottom"
      else if p == "right" then "right"
      else if p == "left" then "left"
      else "top"
    else "top"
  }

  /** getSpecificCongiguration: exactly one edge set to true, and offsetTop
      exactly when the offset option is set. */
  function SpecificConfiguration(position: Option<string>, offset: Option<int>): (conf: map<string, Value>)
    ensures Edge(position) in conf && conf[Edge(position)] == Bool(true)
    ensures forall k :: k in conf && k != OffsetTop ==> k == Edge(position)
    ensures OffsetTop in conf <==> offset.Some?
    ensures offset.Some? ==> conf[OffsetTop] == Int(offset.value)
  {
    var conf := map[Edge(position) := Bool(true)];
    if offset.Some? then conf[OffsetTop := Int(offset.value)] else conf
  }

  /** The configuration has one key, or two with an offset. */
  lemma ConfigurationSize(position: Option<string>, offset: Option<int>)
    ensures |SpecificConfiguration(position, offset)| == if offset.Some? then 2 else 1
  {
    var conf := SpecificConfiguration(position, offset);
    var e := Edge(position);
    if offset.Some? {
      assert conf.Keys == {e, OffsetTop};
    } else {
      assert conf.Keys == {e};
    }
  }

  /** The statement setup appends: the plugin built on the table's
      DataTables object with the configuration's JSON text. */
  function Statement(tableId: string, json: string): (s: string)
    ensures StartsWith(s, "new FixedHeader(oTable_" + tableId + ",")
    ensures EndsWith(s, json + ");")
  {
    var pre := "new FixedHeader(oTable_" + tableId + ",";
    var s := pre + json + ");";
    assert s[..|pre|] == pre;
    assert s[|s| - |json + ");"|..] == json + ");";
    s
  }

  /** setup: the statement creating the plugin goes at the end of the
      before-end-of-document-ready section; no other section changes.
      `toJson` is JSONValue.toJSONString. */
  method Setup(ext: Extensions.Extension, tableId: string, position: Option<string>, offset: Option<int>,
               toJson: map<string, Value> -> string)
    modifies ext
    ensures ext.Buffer(Extensions.BeforeEndDocumentReady) ==
            Javascript.Extended(old(ext.Buffer(Extensions.BeforeEndDocumentReady)),
                                Statement(tableId, toJson(SpecificConfiguration(position, offset))))
    ensures forall s :: s != Extensions.BeforeEndDocumentReady ==> ext.Buffer(s) == old(ext.Buffer(s))
  {
    var conf := SpecificConfiguration(position, offset);
    ext.AppendTo(Extensions.BeforeEndDocumentReady, "new FixedHeader(oTable_" + tableId + "," + toJson(conf) + ");");
  }
}
