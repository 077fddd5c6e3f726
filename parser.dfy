/** `MARCXMLParser` (parser.py): the record held as a leader, a dialect flag,
    an ordered map of control fields and an ordered map from tags to lists of
    field dicts; the tolerant parse of an element tree into it; the checked
    additions; the lookups. */
module Parser {
  import opened Wrappers
  import opened Seqs
  import opened Text
  import opened OrderedMaps
  import opened Subrecords
  import opened Elements

  /** One field dict: its two indicators, whether they are stored under the
      OAI-MARC key names (`i1`/`i2`) or the MARC 21 ones (`ind1`/`ind2`), and
      its subfield codes, in dict order, each with its list of values. */
  datatype Field = Field(i1: string, i2: string, indKeysOai: bool, subs: seq<(string, seq<Subrecord>)>)

  type ControlFields = seq<(string, string)>
  type DataFields = seq<(string, seq<Field>)>

  /** The state of a parser object; `leader` is `None` until one is found. */
  datatype RecordModel = RecordModel(
    leader: Option<string>,
    oaiMarc: bool,
    controlfields: ControlFields,
    datafields: DataFields)

  /** A new object, before any parse or addition. */
  const Blank := RecordModel(None, false, [], [])

  /** The model after an operation: the new state on success, the old one
      on an error that is raised before anything is stored. */
  function Apply(m: RecordModel, r: Result<RecordModel>): RecordModel {
    if r.Ok? then r.value else m
  }

  // ---------------------------------------------------------------------
  // Dialect names

  /** `get_i_name(num, is_oai)` with the flag already resolved. */
  function IName(num: int, oai: bool): (r: Result<string>)
    ensures r.Ok? <==> num == 1 || num == 2
    ensures num == 1 ==> r == Ok(if oai then "i1" else "ind1")
    ensures num == 2 ==> r == Ok(if oai then "i2" else "ind2")
    ensures r.Err? ==> r.error == ValueError(BadIndicatorNumber)
  {
    if num != 1 && num != 2 then Err(ValueError(BadIndicatorNumber))
    else
      assert "i" + "1" == "i1" && "i" + "2" == "i2" && "ind" + "1" == "ind1" && "ind" + "2" == "ind2";
      Ok((if oai then "i" else "ind") + (if num == 1 then "1" else "2"))
  }

  /** `get_i_name(num, is_oai)`: `None` stands for the record's dialect. */
  function GetIName(m: RecordModel, num: int, isOai: Option<bool>): (r: Result<string>)
    ensures isOai.Some? ==> r == IName(num, isOai.value)
    ensures isOai.None? ==> r == IName(num, m.oaiMarc)
  {
    IName(num, if isOai.Some? then isOai.value else m.oaiMarc)
  }

  /** The `i1_name` and `i2_name` properties. */
  function I1Name(m: RecordModel): (r: string)
    ensures r == (if m.oaiMarc then "i1" else "ind1")
  {
    GetIName(m, 1, None).value
  }

  function I2Name(m: RecordModel): (r: string)
    ensures r == (if m.oaiMarc then "i2" else "ind2")
  {
    GetIName(m, 2, None).value
  }

  /** The key an indicator is stored under in a field dict. */
  function IKey(num: int, oai: bool): string
    requires num == 1 || num == 2
  {
    IName(num, oai).value
  }

  /** No subfield code of one character can be an indicator key, in either
      dialect, and the four keys are distinct. */
  lemma IndicatorKeysAreLong(num: int, oai: bool)
    requires num == 1 || num == 2
    ensures |IKey(num, oai)| >= 2
    ensures IKey(num, oai) != IKey(3 - num, oai)
    ensures IKey(num, oai) != IKey(num, !oai) && IKey(num, oai) != IKey(3 - num, !oai)
  {
  }

  // ---------------------------------------------------------------------
  // Parsing, as functions of the element lists (each one peels the last
  // element, the order in which the loops of the parser consume them)

  /** `_parse_control_fields`: elements without the key attribute are
      skipped, the others store their stripped content under that key. */
  function ParsedControlFields(cf: ControlFields, fields: seq<Element>, tagId: string): (r: ControlFields)
    ensures forall k :: k in Keys(cf) ==> k in Keys(r)
    ensures UniqueKeys(cf) ==> UniqueKeys(r)
    decreases |fields|
  {
    if fields == [] then cf
    else
      var prev := ParsedControlFields(cf, fields[..|fields| - 1], tagId);
      var f := fields[|fields| - 1];
      if tagId in f.params then Put(prev, f.params[tagId], Strip(f.content)) else prev
  }

  /** The subfield loop of `_parse_data_fields`. A code equal to one of the
      field's indicator keys finds a string where a list is expected, and
      the `append` on it raises `AttributeError`. */
  function ParsedSubfields(elems: seq<Element>, subId: string, oai: bool, i1: string, i2: string, ref: BackRef)
    : (r: Result<seq<(string, seq<Subrecord>)>>)
    ensures r.Err? ==> r.error == AttributeError(IndicatorCodeClash)
    ensures r.Ok? ==> forall c :: c in Keys(r.value) ==> c != IKey(1, oai) && c != IKey(2, oai)
    decreases |elems|
  {
    if elems == [] then Ok([])
    else
      match ParsedSubfields(elems[..|elems| - 1], subId, oai, i1, i2, ref)
      case Err(e) => Err(e)
      case Ok(subs) => SubfieldAdded(subs, elems[|elems| - 1], subId, oai, i1, i2, ref)
  }

  /** One subfield element added to the dict built so far. */
  function SubfieldAdded(subs: seq<(string, seq<Subrecord>)>, e: Element, subId: string, oai: bool,
                         i1: string, i2: string, ref: BackRef): Result<seq<(string, seq<Subrecord>)>> {
    if subId !in e.params then Ok(subs)
    else if e.params[subId] == IKey(1, oai) || e.params[subId] == IKey(2, oai) then
      Err(AttributeError(IndicatorCodeClash))
    else Ok(AppendTo(subs, e.params[subId], Subrecord(Strip(e.content), i1, i2, ref)))
  }

  /** One data field element; a missing indicator attribute reads as " ". */
  function ParsedField(f: Element, oai: bool, subId: string, ref: BackRef): (r: Result<Field>)
    ensures r.Err? ==> r.error == AttributeError(IndicatorCodeClash)
    ensures r.Ok? ==> r.value.indKeysOai == oai
    ensures r.Ok? ==> forall c :: c in Keys(r.value.subs) ==> c != IKey(1, oai) && c != IKey(2, oai)
  {
    var i1 := ParamOr(f.params, IKey(1, oai), " ");
    var i2 := ParamOr(f.params, IKey(2, oai), " ");
    match ParsedSubfields(f.subfields, subId, oai, i1, i2, ref)
    case Err(e) => Err(e)
    case Ok(subs) => Ok(Field(i1, i2, oai, subs))
  }

  /** `_parse_data_fields`: the data fields, and whether the loop finished.
      On an error the fields parsed before it stay stored. Each field's
      values point back at that field: the next place in its tag's list. */
  function ParsedDataFields(df: DataFields, fields: seq<Element>, oai: bool, tagId: string, subId: string)
    : (r: (DataFields, Outcome))
    ensures r.1.Fail? ==> r.1.error == AttributeError(IndicatorCodeClash)
    ensures forall t :: t in Keys(df) ==> t in Keys(r.0)
    ensures forall t :: |GetList(r.0, t)| >= |GetList(df, t)|
    decreases |fields|
  {
    if fields == [] then (df, Pass)
    else
      var (prev, out) := ParsedDataFields(df, fields[..|fields| - 1], oai, tagId, subId);
      var f := fields[|fields| - 1];
      if out.Fail? || tagId !in f.params then (prev, out)
      else
        var tag := f.params[tagId];
        match ParsedField(f, oai, subId, FieldRef(tag, |GetList(prev, tag)|))
        case Err(e) => (prev, Fail(e))
        case Ok(field) => (AppendTo(prev, tag, field), Pass)
  }

  /** `_parse_string` on the list of `record` elements of a document. */
  function ParsedRecord(m: RecordModel, doc: seq<RecordElement>): (r: (RecordModel, Outcome))
    ensures doc == [] ==> r == (m, Fail(ValueError(NoRecord)))
    ensures doc != [] ==> r.0.oaiMarc == (|doc[0].oaiMarc| > 0)
    ensures doc != [] && r.1.Fail? ==> r.1.error == AttributeError(IndicatorCodeClash)
    ensures forall k :: k in Keys(m.controlfields) ==> k in Keys(r.0.controlfields)
    ensures forall t :: t in Keys(m.datafields) ==> t in Keys(r.0.datafields)
  {
    if doc == [] then (m, Fail(ValueError(NoRecord)))
    else
      var r := doc[0];
      var oai := |r.oaiMarc| > 0;
      var leader := if !oai && |r.leader| >= 1 then Some(r.leader[0].content) else m.leader;
      var cf := if oai then ParsedControlFields(m.controlfields, r.fixfield, "id")
                else ParsedControlFields(m.controlfields, r.controlfield, "tag");
      var (df, out) := if oai then ParsedDataFields(m.datafields, r.varfield, true, "id", "label")
                       else ParsedDataFields(m.datafields, r.datafield, false, "tag", "code");
      var leader' := if out.Pass? && oai && "LDR" in Keys(cf) then Get(cf, "LDR") else leader;
      (RecordModel(leader', oai, cf, df), out)
  }

  // ---------------------------------------------------------------------
  // Additions

  /** `add_ctl_field` */
  function WithCtlField(m: RecordModel, name: string, value: string): (r: Result<RecordModel>)
    ensures r.Ok? <==> |name| == 3
    ensures r.Err? ==> r.error == ValueError(BadName)
    ensures r.Ok? ==> r.value.leader == m.leader && r.value.oaiMarc == m.oaiMarc
                      && r.value.datafields == m.datafields
    ensures r.Ok? ==> Get(r.value.controlfields, name) == Some(value)
    ensures r.Ok? ==> forall k :: k != name ==> Get(r.value.controlfields, k) == Get(m.controlfields, k)
  {
    if |name| != 3 then Err(ValueError(BadName))
    else Ok(m.(controlfields := Put(m.controlfields, name, value)))
  }

  /** A value of the subfield dict given to `add_data_field`: a list, or
      anything else, which is wrapped into a list of one. */
  datatype ArgValue = Scalar(s: string) | List(vs: seq<string>)

  /** The `subfields_dict` argument: a dict with its items in iteration
      order, or something that is not a dict, truthy or falsy. */
  datatype SubfieldsArg = Dict(items: seq<(string, ArgValue)>) | NotDict(truthy: bool)

  function Wrapped(v: ArgValue): (r: seq<string>)
    ensures v.Scalar? ==> r == [v.s]
    ensures v.List? ==> r == v.vs
  {
    match v
    case Scalar(s) => [s]
    case List(vs) => vs
  }

  /** Membership in `list(" 0123456789")`. */
  predicate ValidIndicator(c: string) {
    |c| == 1 && (c[0] == ' ' || IsDigitChar(c[0]))
  }

  /** The checks of `add_data_field`, in the order it makes them. */
  function CheckDataField(name: string, i1: string, i2: string, arg: SubfieldsArg): Outcome {
    if !ValidIndicator(i1) then Fail(ValueError(BadIndicator1))
    else if !ValidIndicator(i2) then Fail(ValueError(BadIndicator2))
    else if |name| != 3 then Fail(ValueError(BadName))
    else if (arg.Dict? && arg.items == []) || (arg.NotDict? && !arg.truthy) then Fail(ValueError(EmptySubfields))
    else if arg.NotDict? then Fail(ValueError(NotADict))
    else if exists i :: 0 <= i < |arg.items| && |arg.items[i].0| > 1 then Fail(KeyError(LongSubfieldKey))
    else Pass
  }

  /** `map(lambda x: MARCSubrecord(x, i1, i2, ref), vals)` */
  function ToSubrecords(vals: seq<string>, i1: string, i2: string, ref: BackRef): (r: seq<Subrecord>)
    ensures Values(r) == vals
    ensures forall j :: 0 <= j < |r| ==> r[j].i1 == i1 && r[j].i2 == i2 && r[j].other == ref
  {
    seq(|vals|, j requires 0 <= j < |vals| => Subrecord(vals[j], i1, i2, ref))
  }

  /** The dict after its values were replaced by lists of subrecords; a key
      given twice keeps its first place and its last value, as in a dict. */
  function SubrecordLists(items: seq<(string, ArgValue)>, i1: string, i2: string, ref: BackRef)
    : seq<(string, seq<Subrecord>)>
    decreases |items|
  {
    if items == [] then []
    else
      var last := items[|items| - 1];
      Put(SubrecordLists(items[..|items| - 1], i1, i2, ref), last.0, ToSubrecords(Wrapped(last.1), i1, i2, ref))
  }

  /** `add_data_field`, with the back-reference of the new values given. */
  function WithDataFieldRef(m: RecordModel, name: string, i1: string, i2: string, arg: SubfieldsArg, ref: BackRef)
    : (r: Result<RecordModel>)
    ensures r.Ok? <==> CheckDataField(name, i1, i2, arg) == Pass
    ensures r.Err? ==> CheckDataField(name, i1, i2, arg) == Fail(r.error)
    ensures r.Ok? ==> r.value.leader == m.leader && r.value.oaiMarc == m.oaiMarc
                      && r.value.controlfields == m.controlfields
  {
    match CheckDataField(name, i1, i2, arg)
    case Fail(e) => Err(e)
    case Pass =>
      var f := Field(i1, i2, m.oaiMarc, SubrecordLists(arg.items, i1, i2, ref));
      Ok(m.(datafields := AppendTo(m.datafields, name, f)))
  }

  /** `add_data_field` as the source writes it: every new value's
      `other_subfields` is `datafields[name]`, the list of all the fields of
      the tag. */
  function WithDataFieldAsWritten(m: RecordModel, name: string, i1: string, i2: string, arg: SubfieldsArg)
    : (r: Result<RecordModel>)
    ensures r.Ok? <==> CheckDataField(name, i1, i2, arg).Pass?
    ensures r.Ok? ==> GetList(r.value.datafields, name)
                        == GetList(m.datafields, name) + [Field(i1, i2, m.oaiMarc, SubrecordLists(arg.items, i1, i2, TagRef(name)))]
    ensures r.Ok? ==> forall t :: t != name ==> Get(r.value.datafields, t) == Get(m.datafields, t)
  {
    WithDataFieldRef(m, name, i1, i2, arg, TagRef(name))
  }

  /** `add_data_field` as its documentation and the parser intend it: every
      new value's `other_subfields` is the new field itself. */
  function WithDataField(m: RecordModel, name: string, i1: string, i2: string, arg: SubfieldsArg)
    : Result<RecordModel>
  {
    WithDataFieldRef(m, name, i1, i2, arg, FieldRef(name, |GetList(m.datafields, name)|))
  }

  // ---------------------------------------------------------------------
  // Lookups

  /** Python truthiness of an optional string argument. */
  predicate Truthy(o: Option<string>) {
    o.Some? && o.value != ""
  }

  /** `get_ctl_field(key, alt)` */
  function GetCtlField(m: RecordModel, key: string, alt: Option<string>): (r: Result<string>)
    ensures key in Keys(m.controlfields) ==> r == Ok(Get(m.controlfields, key).value)
    ensures key !in Keys(m.controlfields) && Truthy(alt) ==> r == Ok(alt.value)
    ensures key !in Keys(m.controlfields) && !Truthy(alt) ==> r == Err(KeyError(MissingKey))
  {
    if !Truthy(alt) then
      match Get(m.controlfields, key)
      case None => Err(KeyError(MissingKey))
      case Some(v) => Ok(v)
    else
      match Get(m.controlfields, key)
      case None => Ok(alt.value)
      case Some(v) => Ok(v)
  }

  /** The indicator filter of `get_subfields`; a falsy filter lets all pass. */
  predicate Passes(s: Subrecord, i1: Option<string>, i2: Option<string>) {
    (!Truthy(i1) || s.i1 == i1.value) && (!Truthy(i2) || s.i2 == i2.value)
  }

  /** The values of one field that pass the filter, in order. */
  function Matching(vals: seq<Subrecord>, i1: Option<string>, i2: Option<string>): (r: seq<Subrecord>)
    ensures |r| <= |vals|
    ensures forall k :: 0 <= k < |r| ==> r[k] in vals && Passes(r[k], i1, i2)
    decreases |vals|
  {
    if vals == [] then []
    else Matching(vals[..|vals| - 1], i1, i2) + (if Passes(vals[|vals| - 1], i1, i2) then [vals[|vals| - 1]] else [])
  }

  /** What the loop of `get_subfields` collects from the fields of a tag:
      the passing values of `code`, field after field; fields without the
      code are skipped. */
  function Collected(fields: seq<Field>, code: string, i1: Option<string>, i2: Option<string>): (r: seq<Subrecord>)
    ensures forall k :: 0 <= k < |r| ==> Passes(r[k], i1, i2)
    ensures fields == [] ==> r == []
    decreases |fields|
  {
    if fields == [] then []
    else
      var f := fields[|fields| - 1];
      Collected(fields[..|fields| - 1], code, i1, i2)
        + (if code in Keys(f.subs) then Matching(GetList(f.subs, code), i1, i2) else [])
  }

  /** `get_subfields(tag, code, i1, i2, exception)` */
  function Subfields(m: RecordModel, tag: string, code: string, i1: Option<string>, i2: Option<string>, exception: bool)
    : (r: Result<seq<Subrecord>>)
    ensures r.Err? && r.error.ValueError? <==> |tag| != 3 || |code| != 1
    ensures |tag| == 3 && |code| == 1 && tag !in Keys(m.datafields) ==>
              r == (if exception then Err(KeyError(MissingKey)) else Ok([]))
    ensures r.Ok? && r.value == [] ==> !exception
    ensures r.Ok? ==> r.value == Collected(GetList(m.datafields, tag), code, i1, i2)
    ensures |tag| == 3 && |code| == 1 && tag in Keys(m.datafields) ==>
              (r.Ok? <==> !exception || Collected(GetList(m.datafields, tag), code, i1, i2) != [])
    ensures r.Err? && |tag| == 3 && |code| == 1 && tag in Keys(m.datafields) ==>
              r.error == KeyError(NotInSubfields)
  {
    if |tag| != 3 then Err(ValueError(BadName))
    else if |code| != 1 then Err(ValueError(BadSubfieldCode))
    else if tag !in Keys(m.datafields) then
      if exception then Err(KeyError(MissingKey)) else Ok([])
    else
      var out := Collected(GetList(m.datafields, tag), code, i1, i2);
      if out == [] && exception then Err(KeyError(NotInSubfields)) else Ok(out)
  }

  // ---------------------------------------------------------------------
  // The object

  class MarcXmlParser {
    var leader: Option<string>
    var oaiMarc: bool
    var controlfields: ControlFields
    var datafields: DataFields
    /** Whether the serializer visits keys in canonical order. */
    const resort: bool

    function Model(): RecordModel
      reads this
    {
      RecordModel(leader, oaiMarc, controlfields, datafields)
    }

    /** `MARCXMLParser(resort=resort)` without a document. */
    constructor (resort: bool)
      ensures Model() == Blank && this.resort == resort
    {
      leader := None;
      oaiMarc := false;
      controlfields := [];
      datafields := [];
      this.resort := resort;
    }

    method ParseControlFields(fields: seq<Element>, tagId: string)
      modifies this
      ensures Model() == old(Model()).(controlfields := ParsedControlFields(old(controlfields), fields, tagId))
    {
      var i := 0;
      while i < |fields|
        invariant 0 <= i <= |fields|
        invariant Model() == old(Model()).(controlfields := ParsedControlFields(old(controlfields), fields[..i], tagId))
      {
        ControlFieldsNext(old(controlfields), fields, i, tagId);
        var f := fields[i];
        if tagId in f.params {
          controlfields := Put(controlfields, f.params[tagId], Strip(f.content));
        }
        i := i + 1;
      }
      assert fields[..i] == fields;
    }

    method ParseDataFields(fields: seq<Element>, tagId: string, subId: string) returns (out: Outcome)
      modifies this
      ensures leader == old(leader) && oaiMarc == old(oaiMarc) && controlfields == old(controlfields)
      ensures (datafields, out) == ParsedDataFields(old(datafields), fields, oaiMarc, tagId, subId)
    {
      out := Pass;
      var i := 0;
      while i < |fields|
        invariant 0 <= i <= |fields|
        invariant leader == old(leader) && oaiMarc == old(oaiMarc) && controlfields == old(controlfields)
        invariant (datafields, Pass) == ParsedDataFields(old(datafields), fields[..i], oaiMarc, tagId, subId)
        invariant out == Pass
      {
        DataFieldsNext(old(datafields), fields, i, oaiMarc, tagId, subId);
        var f := fields[i];
        if tagId in f.params {
          var tag := f.params[tagId];
          var r := ParseField(f, oaiMarc, subId, FieldRef(tag, |GetList(datafields, tag)|));
          if r.Err? {
            out := Fail(r.error);
            assert ParsedDataFields(old(datafields), fields[..i + 1], oaiMarc, tagId, subId) == (datafields, out);
            ParsedDataFieldsStopped(old(datafields), fields, i + 1, oaiMarc, tagId, subId);
            return;
          }
          datafields := AppendTo(datafields, tag, r.value);
        }
        assert (datafields, Pass) == ParsedDataFields(old(datafields), fields[..i + 1], oaiMarc, tagId, subId);
        i := i + 1;
      }
      assert fields[..i] == fields;
    }

    /** `_parse_string`; an error leaves what was stored before it. */
    method ParseString(doc: seq<RecordElement>) returns (out: Outcome)
      modifies this
      ensures (Model(), out) == ParsedRecord(old(Model()), doc)
    {
      if doc == [] {
        return Fail(ValueError(NoRecord));
      }
      var record := doc[0];
      oaiMarc := |record.oaiMarc| > 0;
      if !oaiMarc && |record.leader| >= 1 {
        leader := Some(record.leader[0].content);
      }
      if oaiMarc {
        ParseControlFields(record.fixfield, "id");
        out := ParseDataFields(record.varfield, "id", "label");
      } else {
        ParseControlFields(record.controlfield, "tag");
        out := ParseDataFields(record.datafield, "tag", "code");
      }
      if out.Pass? && oaiMarc && "LDR" in Keys(controlfields) {
        leader := Get(controlfields, "LDR");
      }
    }

    method AddCtlField(name: string, value: string) returns (out: Outcome)
      modifies this
      ensures Model() == Apply(old(Model()), WithCtlField(old(Model()), name, value))
      ensures out == OutcomeOf(WithCtlField(old(Model()), name, value))
    {
      if |name| != 3 {
        return Fail(ValueError(BadName));
      }
      controlfields := Put(controlfields, name, value);
      out := Pass;
    }

    /** `add_data_field`, whose new values point back at the new field. */
    method AddDataField(name: string, i1: string, i2: string, arg: SubfieldsArg) returns (out: Outcome)
      modifies this
      ensures Model() == Apply(old(Model()), WithDataField(old(Model()), name, i1, i2, arg))
      ensures out == OutcomeOf(WithDataField(old(Model()), name, i1, i2, arg))
    {
      out := CheckDataField(name, i1, i2, arg);
      if out.Fail? {
        return;
      }
      var ref := FieldRef(name, |GetList(datafields, name)|);
      var subs := BuildSubrecordLists(arg.items, i1, i2, ref);
      datafields := AppendTo(datafields, name, Field(i1, i2, oaiMarc, subs));
    }

    /** `get_subfields`, the loops over the fields and over their values. */
    method GetSubfields(tag: string, code: string, i1: Option<string>, i2: Option<string>, exception: bool)
      returns (r: Result<seq<Subrecord>>)
      ensures r == Subfields(Model(), tag, code, i1, i2, exception)
    {
      if |tag| != 3 {
        return Err(ValueError(BadName));
      }
      if |code| != 1 {
        return Err(ValueError(BadSubfieldCode));
      }
      if tag !in Keys(datafields) {
        if exception {
          return Err(KeyError(MissingKey));
        }
        return Ok([]);
      }
      var fields := GetList(datafields, tag);
      var output := [];
      var k := 0;
      while k < |fields|
        invariant 0 <= k <= |fields|
        invariant output == Collected(fields[..k], code, i1, i2)
      {
        CollectedNext(fields, k, code, i1, i2);
        var f := fields[k];
        if code in Keys(f.subs) {
          var passing := MatchingValues(GetList(f.subs, code), i1, i2);
          output := output + passing;
        } else {
          AppendNil(output);
        }
        k := k + 1;
      }
      assert fields[..k] == fields;
      if output == [] && exception {
        return Err(KeyError(NotInSubfields));
      }
      return Ok(output);
    }
  }

  lemma CollectedNext(fields: seq<Field>, k: nat, code: string, i1: Option<string>, i2: Option<string>)
    requires k < |fields|
    ensures Collected(fields[..k + 1], code, i1, i2) == Collected(fields[..k], code, i1, i2) +
      if code in Keys(fields[k].subs) then Matching(GetList(fields[k].subs, code), i1, i2) else []
  {
    assert fields[..k + 1][..k] == fields[..k];
  }

  /** The inner loop of `get_subfields`, over the values of one field. */
  method MatchingValues(vals: seq<Subrecord>, i1: Option<string>, i2: Option<string>) returns (r: seq<Subrecord>)
    ensures r == Matching(vals, i1, i2)
  {
    r := [];
    var j := 0;
    while j < |vals|
      invariant 0 <= j <= |vals|
      invariant r == Matching(vals[..j], i1, i2)
    {
      assert vals[..j + 1][..j] == vals[..j];
      if Passes(vals[j], i1, i2) {
        r := r + [vals[j]];
      } else {
        AppendNil(r);
      }
      j := j + 1;
    }
    assert vals[..j] == vals;
  }

  lemma ControlFieldsNext(cf: ControlFields, fields: seq<Element>, i: nat, tagId: string)
    requires i < |fields|
    ensures var prev := ParsedControlFields(cf, fields[..i], tagId);
      ParsedControlFields(cf, fields[..i + 1], tagId) ==
        if tagId in fields[i].params then Put(prev, fields[i].params[tagId], Strip(fields[i].content)) else prev
  {
    assert fields[..i + 1][..i] == fields[..i];
  }

  lemma DataFieldsNext(df: DataFields, fields: seq<Element>, i: nat, oai: bool, tagId: string, subId: string)
    requires i < |fields| && ParsedDataFields(df, fields[..i], oai, tagId, subId).1.Pass?
    ensures var (prev, _) := ParsedDataFields(df, fields[..i], oai, tagId, subId);
      var f := fields[i];
      ParsedDataFields(df, fields[..i + 1], oai, tagId, subId) ==
        if tagId !in f.params then (prev, Pass)
        else
          var tag := f.params[tagId];
          match ParsedField(f, oai, subId, FieldRef(tag, |GetList(prev, tag)|))
          case Err(e) => (prev, Fail(e))
          case Ok(field) => (AppendTo(prev, tag, field), Pass)
  {
    assert fields[..i + 1][..i] == fields[..i];
  }

  /** Once the parse has failed at element `i`, later elements change nothing. */
  lemma ParsedDataFieldsStopped(df: DataFields, fields: seq<Element>, i: nat, oai: bool, tagId: string, subId: string)
    requires 0 < i <= |fields|
    requires ParsedDataFields(df, fields[..i], oai, tagId, subId).1.Fail?
    ensures ParsedDataFields(df, fields, oai, tagId, subId) == ParsedDataFields(df, fields[..i], oai, tagId, subId)
    decreases |fields| - i
  {
    if i < |fields| {
      assert fields[..i + 1][..i] == fields[..i];
      ParsedDataFieldsStopped(df, fields, i + 1, oai, tagId, subId);
    } else {
      assert fields[..i] == fields;
    }
  }

  /** One data field element of `_parse_data_fields`. */
  method ParseField(f: Element, oai: bool, subId: string, ref: BackRef) returns (r: Result<Field>)
    ensures r == ParsedField(f, oai, subId, ref)
  {
    var i1 := ParamOr(f.params, IKey(1, oai), " ");
    var i2 := ParamOr(f.params, IKey(2, oai), " ");
    var subs := ParseSubfields(f.subfields, subId, oai, i1, i2, ref);
    if subs.Err? {
      return Err(subs.error);
    }
    return Ok(Field(i1, i2, oai, subs.value));
  }

  /** The subfield loop of `_parse_data_fields`. */
  method ParseSubfields(elems: seq<Element>, subId: string, oai: bool, i1: string, i2: string, ref: BackRef)
    returns (r: Result<seq<(string, seq<Subrecord>)>>)
    ensures r == ParsedSubfields(elems, subId, oai, i1, i2, ref)
  {
    var subs: seq<(string, seq<Subrecord>)> := [];
    var i := 0;
    while i < |elems|
      invariant 0 <= i <= |elems|
      invariant ParsedSubfields(elems[..i], subId, oai, i1, i2, ref) == Ok(subs)
    {
      ParsedSubfieldsNext(elems, i, subId, oai, i1, i2, ref, subs);
      var next := AddSubfield(subs, elems[i], subId, oai, i1, i2, ref);
      if next.Err? {
        ParsedSubfieldsStopped(elems, i + 1, subId, oai, i1, i2, ref);
        return next;
      }
      subs := next.value;
      i := i + 1;
    }
    assert elems[..i] == elems;
    return Ok(subs);
  }

  /** The body of the subfield loop: the element's stripped content is
      appended under its code. */
  method AddSubfield(subs: seq<(string, seq<Subrecord>)>, e: Element, subId: string, oai: bool,
                     i1: string, i2: string, ref: BackRef) returns (r: Result<seq<(string, seq<Subrecord>)>>)
    ensures r == SubfieldAdded(subs, e, subId, oai, i1, i2, ref)
  {
    if subId !in e.params {
      return Ok(subs);
    }
    var code := e.params[subId];
    if code == IKey(1, oai) || code == IKey(2, oai) {
      return Err(AttributeError(IndicatorCodeClash));
    }
    var value := Subrecord(Strip(e.content), i1, i2, ref);
    return Ok(AppendTo(subs, code, value));
  }

  /** One more element of the loop of `_parse_data_fields`. */
  lemma ParsedSubfieldsNext(elems: seq<Element>, i: nat, subId: string, oai: bool, i1: string, i2: string, ref: BackRef,
                            subs: seq<(string, seq<Subrecord>)>)
    requires i < |elems| && ParsedSubfields(elems[..i], subId, oai, i1, i2, ref) == Ok(subs)
    ensures ParsedSubfields(elems[..i + 1], subId, oai, i1, i2, ref) == SubfieldAdded(subs, elems[i], subId, oai, i1, i2, ref)
  {
    assert elems[..i + 1][..i] == elems[..i];
  }

  lemma ParsedSubfieldsStopped(elems: seq<Element>, i: nat, subId: string, oai: bool, i1: string, i2: string, ref: BackRef)
    requires 0 < i <= |elems|
    requires ParsedSubfields(elems[..i], subId, oai, i1, i2, ref).Err?
    ensures ParsedSubfields(elems, subId, oai, i1, i2, ref) == ParsedSubfields(elems[..i], subId, oai, i1, i2, ref)
    decreases |elems| - i
  {
    if i < |elems| {
      assert elems[..i + 1][..i] == elems[..i];
      ParsedSubfieldsStopped(elems, i + 1, subId, oai, i1, i2, ref);
    } else {
      assert elems[..i] == elems;
    }
  }

  /** The item loop of `add_data_field`, once the checks have passed. */
  method BuildSubrecordLists(items: seq<(string, ArgValue)>, i1: string, i2: string, ref: BackRef)
    returns (subs: seq<(string, seq<Subrecord>)>)
    ensures subs == SubrecordLists(items, i1, i2, ref)
  {
    subs := [];
    var i := 0;
    while i < |items|
      invariant 0 <= i <= |items|
      invariant subs == SubrecordLists(items[..i], i1, i2, ref)
    {
      SubrecordListsNext(items, i, i1, i2, ref);
      subs := Put(subs, items[i].0, ToSubrecords(Wrapped(items[i].1), i1, i2, ref));
      i := i + 1;
    }
    assert items[..i] == items;
  }

  lemma SubrecordListsNext(items: seq<(string, ArgValue)>, i: nat, i1: string, i2: string, ref: BackRef)
    requires i < |items|
    ensures SubrecordLists(items[..i + 1], i1, i2, ref) ==
      Put(SubrecordLists(items[..i], i1, i2, ref), items[i].0, ToSubrecords(Wrapped(items[i].1), i1, i2, ref))
  {
    assert items[..i + 1][..i] == items[..i];
  }
}
