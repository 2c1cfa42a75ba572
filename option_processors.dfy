/** option/processor: the processors that turn the value of one option entry
    into the value the entry keeps, with their side effects on the table
    configuration (export configurations, registered extensions). */
module OptionProcessors {
  import W = Wrappers
  import opened JavaString
  import opened ConfigValues
  import StringUtils
  import ExportPatterns
  import O = Options
  import ExportConfs
  import TC = TableConfigurations
  import PT = PaginationTypes

  /** OptionProcessingContext.getValueAsString for a processor that does not
      update the asset graph: null for a null value, otherwise the value's
      text, trimmed. */
  function ValueAsString(v: Value, toText: Value -> string): (r: W.Option<string>)
    ensures r.None? <==> v.Null?
    ensures r.Some? ==> Trim(r.value) == r.value
  {
    if v.Null? then W.None else W.Some(Trim(Stringify(v, toText)))
  }

  // ---------------------------------------------------------------------
  // ExportEnabledFormatProcessor

  /** The formats an enabled-formats value lists: the comma-separated
      pieces, each lower-cased then trimmed. */
  function EnabledFormats(value: string): (r: seq<string>)
    ensures |r| == |Split(value, ',')|
    ensures forall i :: 0 <= i < |r| ==> r[i] == Trim(ToLower(Split(value, ',')[i]))
  {
    var pieces := Split(value, ',');
    seq(|pieces|, i requires 0 <= i < |pieces| => Trim(ToLower(pieces[i])))
  }

  /** The formats of `fs` a map already holding `known` gains, in the order
      they first appear. */
  function Added(known: set<string>, fs: seq<string>): seq<string>
  {
    if |fs| == 0 then []
    else
      var f := fs[|fs| - 1];
      if f in known || f in fs[..|fs| - 1] then Added(known, fs[..|fs| - 1])
      else Added(known, fs[..|fs| - 1]) + [f]
  }

  /** A format is added iff it is listed and not yet known, each at most
      once. */
  lemma {:induction false} AddedLaws(known: set<string>, fs: seq<string>)
    ensures forall f :: f in Added(known, fs) <==> f in fs && f !in known
    ensures forall i, j :: 0 <= i < j < |Added(known, fs)| ==> Added(known, fs)[i] != Added(known, fs)[j]
  {
    if |fs| > 0 {
      var init := fs[..|fs| - 1];
      AddedLaws(known, init);
      assert fs == init + [fs[|fs| - 1]];
    }
  }

  /** Listing the formats a second time adds nothing: the processor only
      creates configurations that are absent. */
  lemma {:induction false} AddedAgainIsEmpty(known: set<string>, fs: seq<string>)
    requires forall f :: f in fs ==> f in known
    ensures Added(known, fs) == []
  {
    if |fs| > 0 {
      AddedAgainIsEmpty(known, fs[..|fs| - 1]);
      assert fs[|fs| - 1] in fs;
    }
  }

  lemma AddedSnoc(known: set<string>, fs: seq<string>, i: nat)
    requires i < |fs|
    ensures Added(known, fs[..i + 1]) ==
            if fs[i] in known || fs[i] in fs[..i] then Added(known, fs[..i]) else Added(known, fs[..i]) + [fs[i]]
  {
    assert fs[..i + 1][..i] == fs[..i];
  }

  /** Two duplicate-free sequences with no common element concatenate
      without duplicates. */
  lemma DistinctAppend(a: seq<string>, b: seq<string>)
    requires forall i, j :: 0 <= i < j < |a| ==> a[i] != a[j]
    requires forall i, j :: 0 <= i < j < |b| ==> b[i] != b[j]
    requires forall x :: x in b ==> x !in a
    ensures forall i, j :: 0 <= i < j < |a + b| ==> (a + b)[i] != (a + b)[j]
  {
    forall i, j | 0 <= i < j < |a + b|
      ensures (a + b)[i] != (a + b)[j]
    {
      if j >= |a| && i < |a| {
        assert (a + b)[j] in b;
        assert (a + b)[i] in a;
      }
    }
  }

  /** The configuration a format the processor creates gets. */
  predicate CreatedFor(c: ExportConfs.ExportConf, f: string, exportUrl: string -> string)
    reads c
  {
    c.format == f && c.url == W.Some(exportUrl(f)) && c.HasDefaults()
  }

  /** The loop over the enabled formats, on the map's contents: each format
      without a configuration gets a new one whose url is the export url of
      that format, put at the end; existing configurations are kept. */
  method AddedConfs(formats0: seq<string>, confs0: map<string, ExportConfs.ExportConf>, fs: seq<string>,
                    exportUrl: string -> string)
    returns (formats: seq<string>, confs: map<string, ExportConfs.ExportConf>)
    ensures formats == formats0 + Added(confs0.Keys, fs)
    ensures forall g :: g in confs <==> g in confs0 || g in fs
    ensures forall g :: g in confs0 ==> confs[g] == confs0[g]
    ensures forall g :: g in confs && g !in confs0 ==> fresh(confs[g]) && CreatedFor(confs[g], g, exportUrl)
  {
    formats, confs := formats0, confs0;
    var i := 0;
    while i < |fs|
      invariant 0 <= i <= |fs|
      invariant formats == formats0 + Added(confs0.Keys, fs[..i])
      invariant forall g :: g in confs <==> g in confs0 || g in Added(confs0.Keys, fs[..i])
      invariant forall g :: g in confs0 ==> confs[g] == confs0[g]
      invariant forall g :: g in confs && g !in confs0 ==> fresh(confs[g]) && CreatedFor(confs[g], g, exportUrl)
    {
      AddedSnoc(confs0.Keys, fs, i);
      AddedLaws(confs0.Keys, fs[..i]);
      formats, confs := AddedConf(formats, confs, fs[i], exportUrl);
      i := i + 1;
    }
    assert fs[..i] == fs;
    AddedLaws(confs0.Keys, fs);
  }

  /** One turn of the loop of AddedConfs: a format without a configuration
      gets a new one, put at the end. */
  method AddedConf(formats0: seq<string>, confs0: map<string, ExportConfs.ExportConf>, f: string,
                   exportUrl: string -> string)
    returns (formats: seq<string>, confs: map<string, ExportConfs.ExportConf>)
    ensures f in confs0 ==> formats == formats0 && confs == confs0
    ensures f !in confs0 ==> formats == formats0 + [f] && confs.Keys == confs0.Keys + {f} &&
                             (forall g :: g in confs0 ==> confs[g] == confs0[g]) &&
                             fresh(confs[f]) && CreatedFor(confs[f], f, exportUrl)
  {
    formats, confs := formats0, confs0;
    if f !in confs {
      var c := new ExportConfs.ExportConf(f, W.Some(exportUrl(f)));
      formats, confs := formats + [f], confs[f := c];
    }
  }

  /** The enabled formats added to the export configurations (AddedConfs),
      which stay valid. */
  method AddFormats(em: TC.ExportMap, fs: seq<string>, exportUrl: string -> string)
    requires em.Valid()
    modifies em
    ensures em.Valid()
    ensures em.formats == old(em.formats) + Added(old(em.confs).Keys, fs)
    ensures forall f :: f in old(em.confs) ==> f in em.confs && em.confs[f] == old(em.confs)[f]
    ensures forall f :: f in em.confs && f !in old(em.confs) ==> fresh(em.confs[f]) && CreatedFor(em.confs[f], f, exportUrl)
  {
    var formats, confs := AddedConfs(em.formats, em.confs, fs, exportUrl);
    AddedLaws(em.confs.Keys, fs);
    DistinctAppend(em.formats, Added(em.confs.Keys, fs));
    em.formats, em.confs := formats, confs;
  }

  /** getProcessedValue of ExportEnabledFormatProcessor: nothing happens for
      a blank value; otherwise the table becomes exportable, every listed
      format gets a configuration when it has none (AddFormats), and the
      export feature is registered. The entry's value becomes null. */
  method ExportEnabledFormats(value: W.Option<string>, conf: TC.TableConfiguration, exportUrl: string -> string)
    returns (r: Value)
    requires conf.exportConfiguration.Valid()
    modifies conf, conf.exportConfiguration, conf.internalExtensions
    ensures r == Null && conf.exportConfiguration == old(conf.exportConfiguration)
    ensures !StringUtils.NotBlank(value) ==>
              unchanged(conf, conf.exportConfiguration) &&
              (conf.internalExtensions != null ==> unchanged(conf.internalExtensions))
    ensures StringUtils.NotBlank(value) ==>
              var em := conf.exportConfiguration;
              conf.isExportable && em.Valid() &&
              em.formats == old(em.formats) + Added(old(em.confs).Keys, EnabledFormats(value.value)) &&
              (forall f :: f in old(em.confs) ==> f in em.confs && em.confs[f] == old(em.confs)[f]) &&
              (forall f :: f in em.confs && f !in old(em.confs) ==>
                 fresh(em.confs[f]) && CreatedFor(em.confs[f], f, exportUrl)) &&
              conf.internalExtensions != null &&
              conf.internalExtensions.elems ==
                (if old(conf.internalExtensions) == null then {} else old(conf.internalExtensions.elems)) + {"export"}
  {
    r := Null;
    if StringUtils.NotBlank(value) {
      conf.isExportable := true;
      AddFormats(conf.exportConfiguration, EnabledFormats(value.value), exportUrl);
      conf.RegisterExtension("export");
    }
  }

  // ---------------------------------------------------------------------
  // ExportFormatProcessor

  /** The format the option's user name names and the pattern that found
      it: the first pattern of `order` (the iteration order of the
      processor's HashMap) found in the name, and its group. */
  function FormatOf(userName: string, order: seq<ExportPatterns.Token>): (r: W.Option<(string, ExportPatterns.Token)>)
    ensures r.Some? ==> r.value.1 in order && ExportPatterns.Find(userName, r.value.1) == W.Some(r.value.0)
    ensures r.None? ==> forall t :: t in order ==> ExportPatterns.Find(userName, t).None?
  {
    match O.FirstMatch(userName, order)
    case None => W.None
    case Some(t) => W.Some((ExportPatterns.Find(userName, t).value, t))
  }

  /** A documented key `export.<format>.<field>` names its format and its
      field, whatever the order the patterns are tried in. */
  lemma FormatOfKey(f: string, t: ExportPatterns.Token, order: seq<ExportPatterns.Token>)
    requires ExportPatterns.PlainFormat(f) && t in order
    ensures FormatOf(ExportPatterns.Prefix + f + ExportPatterns.Suffix(t), order) == W.Some((f, t))
  {
    var key := ExportPatterns.Prefix + f + ExportPatterns.Suffix(t);
    forall u
      ensures ExportPatterns.Find(key, u).Some? <==> u == t
    {
      ExportPatterns.FormatOfKey(f, t, u);
    }
    O.FirstMatchIs(key, order, t);
    ExportPatterns.FormatOfKey(f, t, t);
  }

  /** The four fields of an export configuration the processor can set. */
  datatype Settable = Settable(exportClass: W.Option<string>, fileName: string, labelText: string, mimeType: W.Option<string>)

  function SettableOf(c: ExportConfs.ExportConf): Settable
    reads c
  {
    Settable(c.exportClass, c.fileName, c.labelText, c.mimeType)
  }

  /** The field a pattern names, set to `v`; the others kept. */
  function SetField(s: Settable, t: ExportPatterns.Token, v: string): (r: Settable)
    ensures t == ExportPatterns.CLASS ==> r.exportClass == W.Some(v) && r.(exportClass := s.exportClass) == s
    ensures t == ExportPatterns.FILENAME ==> r == s.(fileName := v)
    ensures t == ExportPatterns.LABEL ==> r == s.(labelText := v)
    ensures t == ExportPatterns.MIMETYPE ==> r == s.(mimeType := W.Some(v))
  {
    match t
    case CLASS => s.(exportClass := W.Some(v))
    case FILENAME => s.(fileName := v)
    case LABEL => s.(labelText := v)
    case MIMETYPE => s.(mimeType := W.Some(v))
  }

  /** The fields the processor does not set. */
  datatype Fixed = Fixed(format: string, cssStyle: W.Option<string>, cssClass: W.Option<string>,
                         includeHeader: bool, area: string, url: W.Option<string>, autoSize: bool,
                         custom: bool, httpMethod: ExportConfs.HttpMethod)

  function FixedOf(c: ExportConfs.ExportConf): Fixed
    reads c
  {
    Fixed(c.format, c.cssStyle, c.cssClass, c.includeHeader, c.area, c.url, c.autoSize, c.custom, c.httpMethod)
  }

  /** What ExportConf(format) starts with. */
  function DefaultSettable(f: string): Settable {
    Settable(W.None, "export", ToUpper(f), W.None)
  }

  function DefaultFixed(f: string): Fixed {
    Fixed(f, W.None, W.None, true, "ALL", W.None, false, false, ExportConfs.GET)
  }

  /** The configuration of format `f`: the existing one, or a new one put
      at the end of the map. */
  method ConfOf(em: TC.ExportMap, f: string) returns (c: ExportConfs.ExportConf)
    requires em.Valid()
    modifies em
    ensures em.Valid() && f in em.confs && c == em.confs[f]
    ensures f in old(em.confs) ==> c == old(em.confs)[f] && unchanged(em)
    ensures f !in old(em.confs) ==>
              fresh(c) && em.confs == old(em.confs)[f := c] && em.formats == old(em.formats) + [f] &&
              SettableOf(c) == DefaultSettable(f) && FixedOf(c) == DefaultFixed(f)
  {
    if f in em.confs {
      c := em.confs[f];
    } else {
      c := new ExportConfs.ExportConf(f, W.None);
      em.Put(f, c);
    }
  }

  /** The field `t` names set to `v` (SetField); the other fields kept. */
  method SetOn(c: ExportConfs.ExportConf, t: ExportPatterns.Token, v: string)
    modifies c
    ensures SettableOf(c) == SetField(old(SettableOf(c)), t, v)
    ensures FixedOf(c) == old(FixedOf(c))
  {
    match t
    case CLASS => c.exportClass := W.Some(v);
    case FILENAME => c.fileName := v;
    case LABEL => c.labelText := v;
    case MIMETYPE => c.mimeType := W.Some(v);
  }

  /** getProcessedValue of ExportFormatProcessor: for a non-blank value, the
      option's user name must name a format (FormatOf) that is not blank;
      that format's configuration is created when absent, and the field
      the pattern names is set to the value. A missing user name is
      dereferenced; the entry's value becomes null. */
  method ExportFormat(value: W.Option<string>, userName: W.Option<string>, order: seq<ExportPatterns.Token>,
                      conf: TC.TableConfiguration)
    returns (r: W.Result<Value>)
    requires conf.exportConfiguration.Valid()
    modifies conf.exportConfiguration, conf.exportConfiguration.confs.Values
    ensures conf.exportConfiguration.Valid()
    ensures var em := conf.exportConfiguration;
            if !StringUtils.NotBlank(value) then
              r == W.Ok(Null) && unchanged(em) && unchanged(old(em.confs).Values)
            else if userName.None? then
              r == W.Err(W.NullPointer("userName")) && unchanged(em) && unchanged(old(em.confs).Values)
            else
              var found := FormatOf(userName.value, order);
              var format := if found.Some? then W.Some(found.value.0) else W.None;
              if !StringUtils.NotBlank(format) then
                r == W.Err(W.Configuration("Format " + StringUtils.ValueOf(format) + " unknown")) &&
                unchanged(em) && unchanged(old(em.confs).Values)
              else
                var (f, t) := found.value;
                r == W.Ok(Null) && f in em.confs &&
                (forall g :: g in old(em.confs) && old(em.confs)[g] != em.confs[f] ==> unchanged(old(em.confs)[g])) &&
                if f in old(em.confs) then
                  em.confs == old(em.confs) && em.formats == old(em.formats) &&
                  SettableOf(em.confs[f]) == SetField(old(SettableOf(em.confs[f])), t, value.value) &&
                  FixedOf(em.confs[f]) == old(FixedOf(em.confs[f]))
                else
                  fresh(em.confs[f]) && em.confs == old(em.confs)[f := em.confs[f]] &&
                  em.formats == old(em.formats) + [f] &&
                  SettableOf(em.confs[f]) == SetField(DefaultSettable(f), t, value.value) &&
                  FixedOf(em.confs[f]) == DefaultFixed(f)
  {
    if !StringUtils.NotBlank(value) {
      return W.Ok(Null);
    }
    if userName.None? {
      return W.Err(W.NullPointer("userName"));
    }
    var found := FormatOf(userName.value, order);
    var format := if found.Some? then W.Some(found.value.0) else W.None;
    if !StringUtils.NotBlank(format) {
      return W.Err(W.Configuration("Format " + StringUtils.ValueOf(format) + " unknown"));
    }
    var (f, t) := found.value;
    var c := ConfOf(conf.exportConfiguration, f);
    SetOn(c, t, value.value);
    r := W.Ok(Null);
  }

  // ---------------------------------------------------------------------
  // option/processor/feature/FeaturePaginationTypeProcessor

  /** getProcessedValue: the entry becomes the type LenientType reads, or
      null, and the seven featured types register their extension (named
      by `featureName`); an unknown name registers nothing. */
  method PaginationTypeOption(value: W.Option<string>, others: set<string>, featureName: PT.PaginationType -> string,
                              conf: TC.TableConfiguration)
    returns (r: Value)
    modifies conf, conf.internalExtensions
    ensures var t := PT.LenientType(value, others);
            r == (if t.Some? then Str(PT.Name(t.value)) else Null) &&
            if t.Some? && PT.HasFeature(t.value) then
              conf.internalExtensions != null &&
              conf.internalExtensions.elems ==
                (if old(conf.internalExtensions) == null then {} else old(conf.internalExtensions.elems)) +
                {featureName(t.value)} &&
              unchanged(conf`exportConfiguration, conf`isExportable, conf`staging)
            else
              unchanged(conf) && (conf.internalExtensions != null ==> unchanged(conf.internalExtensions))
  {
    r := Null;
    if StringUtils.NotBlank(value) {
      var t := PT.ValueOf(ToUpper(value.value), others);
      if t.Some? {
        if PT.HasFeature(t.value) {
          conf.RegisterExtension(featureName(t.value));
        }
        r := Str(PT.Name(t.value));
      }
    }
  }
}
