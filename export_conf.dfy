/** export/ExportConf: the configuration of one export format of a table. */
module ExportConfs {
  import opened Wrappers
  import opened JavaString

  /** The HTTP method an export link uses. */
  datatype HttpMethod = GET | POST | PUT | DELETE

  class ExportConf {
    /** The export type; its name is the format (csv, pdf, ...). */
    var format: string
    var fileName: string
    var labelText: string
    var cssStyle: Option<string>
    var cssClass: Option<string>
    var includeHeader: bool
    var area: string
    var url: Option<string>
    var autoSize: bool
    var custom: bool
    var httpMethod: HttpMethod
    var exportClass: Option<string>
    var mimeType: Option<string>

    /** What init() sets: file name "export", the type's upper-case name
        (its toString) as label, the header included, area "ALL", no
        auto-size; `custom` starts false. */
    predicate HasDefaults()
      reads this
    {
      fileName == "export" && labelText == ToUpper(format) && includeHeader && area == "ALL" && !autoSize && !custom
    }

    /** ExportConf(type) when `url` is None, ExportConf(type, url) otherwise:
        the url is only ever the one given here. */
    constructor (format: string, url: Option<string>)
      ensures this.format == format && this.url == url && HasDefaults()
      ensures cssStyle.None? && cssClass.None? && httpMethod == GET
      ensures exportClass.None? && mimeType.None?
    {
      this.format := format;
      this.url := url;
      fileName := "export";
      labelText := ToUpper(format);
      includeHeader := true;
      area := "ALL";
      autoSize := false;
      custom := false;
      cssStyle, cssClass := None, None;
      httpMethod := GET;
      exportClass, mimeType := None, None;
    }

    /** hashCode: 31 * 1 + the type's hash, in 32-bit arithmetic. */
    function HashCode(): int
      reads this
    {
      Int32(31 + StringHash(format))
    }

    /** equals: the same object, or another export configuration of the
        same type. */
    predicate Equals(other: ExportConf?)
      reads this, other
    {
      other != null && (other == this || format == other.format)
    }
  }

  /** Two configurations of one type are equal whatever their other fields,
      and equal configurations hash alike. */
  lemma EqualsOnlyByType(a: ExportConf, b: ExportConf)
    ensures a.Equals(b) <==> a.format == b.format
    ensures a.Equals(b) ==> a.HashCode() == b.HashCode()
    ensures a.Equals(b) == b.Equals(a)
    ensures !a.Equals(null)
  {
  }

  /** equals is an equivalence relation. */
  lemma EqualsIsEquivalence(a: ExportConf, b: ExportConf, c: ExportConf)
    ensures a.Equals(a)
    ensures a.Equals(b) && b.Equals(c) ==> a.Equals(c)
  {
  }
}
