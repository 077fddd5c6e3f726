/** The XML tree as the foreign tree parser hands it over. Only the lookups
    the record code makes are kept: an element's attributes, its text
    content, and the `subfield` elements found under it. */
module Elements {

  datatype Element = Element(params: map<string, string>, content: string, subfields: seq<Element>)

  /** A `record` element, given by the results of `find` for each element
      name the parser asks for, each in document order. */
  datatype RecordElement = RecordElement(
    oaiMarc: seq<Element>,
    leader: seq<Element>,
    controlfield: seq<Element>,
    datafield: seq<Element>,
    fixfield: seq<Element>,
    varfield: seq<Element>)

  /** `params.get(key, default)` */
  function ParamOr(params: map<string, string>, key: string, default: string): (r: string)
    ensures key in params ==> r == params[key]
    ensures key !in params ==> r == default
  {
    if key in params then params[key] else default
  }
}
