/** `MARCXMLRecord` (marcxml.py), the older one-class codec: the same record
    as the parser object holds, but with plain dicts whose values are plain
    strings; additions that accept any dict of lists, the empty one
    included; a lookup that gives up at the first field without the asked
    code; getters built on that lookup; a serializer that always uses the
    older canonical order. */
module Legacy {
  import opened Wrappers
  import opened Seqs
  import opened Text
  import opened OrderedMaps
  import opened Elements
  import Subrecords
  import Parser
  import LegacyOrder
  import Serializer
  import Query
  import Sorting

  /** The subfield codes of one field dict, each with its list of values. */
  type Codes = seq<(string, seq<string>)>

  /** One field dict: its indicators, whether they are stored under the
      OAI-MARC key names (`i1`/`i2`) or the MARC 21 ones (`ind1`/`ind2`),
      and its codes. */
  datatype LegacyField = LegacyField(i1: string, i2: string, indKeysOai: bool, codes: Codes)

  type LegacyDataFields = seq<(string, seq<LegacyField>)>

  /** The state of a record object. Its two dicts are plain Python dicts;
      the model keeps them in insertion order, which no output depends on,
      since the serializer sorts every key it visits. */
  datatype LegacyModel = LegacyModel(
    leader: Option<string>,
    oaiMarc: bool,
    controlfields: Parser.ControlFields,
    datafields: LegacyDataFields)

  /** `MARCXMLRecord()` without a document. */
  const Empty := LegacyModel(None, false, [], [])

  /** `MarcSubrecord(arg, ind1, ind2, other_subfields)`: a string equal to
      `arg` that also carries the indicators of its field and that field's
      dict itself. */
  datatype MarcSubrecord = MarcSubrecord(arg: string, ind1: string, ind2: string, other: LegacyField)

  /** The state after an addition: the new one, or the old one on an error. */
  function Apply(m: LegacyModel, r: Result<LegacyModel>): LegacyModel {
    if r.Ok? then r.value else m
  }

  // ---------------------------------------------------------------------
  // Dialect names

  /** `getI(num, is_oai)`; `None` stands for the record's own dialect. */
  function GetI(m: LegacyModel, num: int, isOai: Option<bool>): (r: Result<string>)
    ensures var oai := if isOai.Some? then isOai.value else m.oaiMarc;
      (num == 1 ==> r == Ok(if oai then "i1" else "ind1")) &&
      (num == 2 ==> r == Ok(if oai then "i2" else "ind2"))
    ensures num != 1 && num != 2 ==> r == Err(ValueError(BadIndicatorNumber))
  {
    if num != 1 && num != 2 then Err(ValueError(BadIndicatorNumber))
    else
      var oai := if isOai.Some? then isOai.value else m.oaiMarc;
      assert "i" + "1" == "i1" && "i" + "2" == "i2" && "ind" + "1" == "ind1" && "ind" + "2" == "ind2";
      Ok((if oai then "i" else "ind") + (if num == 1 then "1" else "2"))
  }

  /** Both classes name the indicator keys alike. */
  lemma GetIAgrees(m: LegacyModel, p: Parser.RecordModel, num: int, isOai: Option<bool>)
    requires p.oaiMarc == m.oaiMarc
    ensures GetI(m, num, isOai) == Parser.GetIName(p, num, isOai)
  {
  }

  // ---------------------------------------------------------------------
  // Additions

  /** `addControlField` */
  function WithControlField(m: LegacyModel, name: string, value: string): (r: Result<LegacyModel>)
    ensures r.Ok? <==> |name| == 3
    ensures r.Err? ==> r.error == ValueError(BadName)
    ensures r.Ok? ==> r.value.leader == m.leader && r.value.oaiMarc == m.oaiMarc
                      && r.value.datafields == m.datafields
    ensures r.Ok? ==> Get(r.value.controlfields, name) == Some(value)
    ensures r.Ok? ==> forall k :: k != name ==> Get(r.value.controlfields, k) == Get(m.controlfields, k)
  {
    if |name| != 3 then Err(ValueError(BadName))
    else Ok(m.(controlfields := Put(m.controlfields, name, value)))
  }

  /** A key/value pair `addDataField` accepts: a key of at most one
      character and a list. */
  predicate GoodItem(item: (string, Parser.ArgValue)) {
    |item.0| <= 1 && item.1.List?
  }

  /** The loop of `addDataField` over the keys, in iteration order: the
      first bad pair raises, `KeyError` for its key before `ValueError`
      for its value. */
  function CheckItems(items: seq<(string, Parser.ArgValue)>): (o: Outcome)
    ensures o.Pass? <==> forall i :: 0 <= i < |items| ==> GoodItem(items[i])
    ensures forall i :: 0 <= i < |items| && !GoodItem(items[i]) && (forall j :: 0 <= j < i ==> GoodItem(items[j])) ==>
      o == Fail(if |items[i].0| > 1 then KeyError(LongSubfieldKey) else ValueError(NotAList))
  {
    if items == [] then Pass
    else if |items[0].0| > 1 then Fail(KeyError(LongSubfieldKey))
    else if !items[0].1.List? then Fail(ValueError(NotAList))
    else
      var o := CheckItems(items[1..]);
      assert forall i :: 1 <= i < |items| ==> items[i] == items[1..][i - 1];
      o
  }

  /** The checks of `addDataField`, in the order it makes them. Nothing
      asks for a non-empty dict. */
  function CheckDataField(name: string, i1: string, i2: string, arg: Parser.SubfieldsArg): (o: Outcome)
    ensures o.Pass? <==> Parser.ValidIndicator(i1) && Parser.ValidIndicator(i2) && |name| == 3
                         && arg.Dict? && forall i :: 0 <= i < |arg.items| ==> GoodItem(arg.items[i])
  {
    if !Parser.ValidIndicator(i1) then Fail(ValueError(BadIndicator1))
    else if !Parser.ValidIndicator(i2) then Fail(ValueError(BadIndicator2))
    else if |name| != 3 then Fail(ValueError(BadName))
    else if arg.NotDict? then Fail(ValueError(NotADict))
    else CheckItems(arg.items)
  }

  /** The dict the caller passed, as stored: a key given twice keeps its
      first place and its last value. */
  function CodesOf(items: seq<(string, Parser.ArgValue)>): (r: Codes)
    ensures UniqueKeys(r)
    ensures forall k :: k in Keys(r) <==> k in Keys(items)
    decreases |items|
  {
    if items == [] then []
    else
      var last := items[|items| - 1];
      Put(CodesOf(items[..|items| - 1]), last.0, Parser.Wrapped(last.1))
  }

  /** `addDataField`: the dict, with its indicators added under the
      record's key names, is appended to the tag's list. */
  function WithDataField(m: LegacyModel, name: string, i1: string, i2: string, arg: Parser.SubfieldsArg)
    : (r: Result<LegacyModel>)
    ensures r.Ok? <==> CheckDataField(name, i1, i2, arg) == Pass
    ensures r.Err? ==> CheckDataField(name, i1, i2, arg) == Fail(r.error)
    ensures r.Ok? ==> r.value.leader == m.leader && r.value.oaiMarc == m.oaiMarc
                      && r.value.controlfields == m.controlfields
    ensures r.Ok? ==> GetList(r.value.datafields, name) ==
                      GetList(m.datafields, name) + [LegacyField(i1, i2, m.oaiMarc, CodesOf(arg.items))]
    ensures r.Ok? ==> forall t :: t != name ==> Get(r.value.datafields, t) == Get(m.datafields, t)
  {
    match CheckDataField(name, i1, i2, arg)
    case Fail(e) => Err(e)
    case Pass =>
      Ok(m.(datafields := AppendTo(m.datafields, name, LegacyField(i1, i2, m.oaiMarc, CodesOf(arg.items)))))
  }

  /** The two classes part on the empty dict and on a value that is not a
      list: the record accepts the first and rejects the second, the
      parser does the opposite. */
  lemma EmptyAndScalarValues(m: LegacyModel, name: string, i1: string, i2: string, code: string, v: string)
    requires Parser.ValidIndicator(i1) && Parser.ValidIndicator(i2) && |name| == 3 && |code| == 1
    ensures WithDataField(m, name, i1, i2, Parser.Dict([])) ==
            Ok(m.(datafields := AppendTo(m.datafields, name, LegacyField(i1, i2, m.oaiMarc, []))))
    ensures Parser.CheckDataField(name, i1, i2, Parser.Dict([])) == Fail(ValueError(EmptySubfields))
    ensures WithDataField(m, name, i1, i2, Parser.Dict([(code, Parser.Scalar(v))])) == Err(ValueError(NotAList))
    ensures Parser.CheckDataField(name, i1, i2, Parser.Dict([(code, Parser.Scalar(v))])) == Pass
  {
    var one := [(code, Parser.Scalar(v))];
    assert !(exists i :: 0 <= i < |one| && |one[i].0| > 1);
  }

  lemma CheckItemsStep(items: seq<(string, Parser.ArgValue)>, i: nat)
    requires i < |items|
    ensures CheckItems(items[i..]) ==
      if |items[i].0| > 1 then Fail(KeyError(LongSubfieldKey))
      else if !items[i].1.List? then Fail(ValueError(NotAList))
      else CheckItems(items[i + 1..])
  {
    assert items[i..][0] == items[i] && items[i..][1..] == items[i + 1..];
  }

  // ---------------------------------------------------------------------
  // Parsing, as functions of the element lists (each one peels the last
  // element, the order in which the loops consume them)

  /** The subfield loop of `__parseDataFields`: stripped contents, a code
      met again extends its list, elements without the code attribute are
      skipped. A code equal to an indicator key finds a string where a list
      is expected, and the `append` on it raises `AttributeError`. */
  function ParsedCodes(elems: seq<Element>, subId: string, oai: bool): (r: Result<Codes>)
    ensures r.Err? ==> r.error == AttributeError(IndicatorCodeClash)
    ensures r.Ok? ==> forall c :: c in Keys(r.value) ==> c != Parser.IKey(1, oai) && c != Parser.IKey(2, oai)
    decreases |elems|
  {
    if elems == [] then Ok([])
    else
      match ParsedCodes(elems[..|elems| - 1], subId, oai)
      case Err(e) => Err(e)
      case Ok(codes) =>
        var e := elems[|elems| - 1];
        if subId !in e.params then Ok(codes)
        else if e.params[subId] == Parser.IKey(1, oai) || e.params[subId] == Parser.IKey(2, oai) then
          Err(AttributeError(IndicatorCodeClash))
        else Ok(AppendTo(codes, e.params[subId], Strip(e.content)))
  }

  /** One data field element; a missing indicator attribute reads as " ". */
  function ParsedField(f: Element, oai: bool, subId: string): (r: Result<LegacyField>)
    ensures r.Err? ==> r.error == AttributeError(IndicatorCodeClash)
    ensures r.Ok? ==> r.value.indKeysOai == oai
    ensures r.Ok? ==> forall c :: c in Keys(r.value.codes) ==> c != Parser.IKey(1, oai) && c != Parser.IKey(2, oai)
  {
    var i1 := ParamOr(f.params, Parser.IKey(1, oai), " ");
    var i2 := ParamOr(f.params, Parser.IKey(2, oai), " ");
    match ParsedCodes(f.subfields, subId, oai)
    case Err(e) => Err(e)
    case Ok(codes) => Ok(LegacyField(i1, i2, oai, codes))
  }

  /** `__parseDataFields`: the data fields, and whether the loop finished;
      on an error the fields parsed before it stay stored. */
  function ParsedDataFields(df: LegacyDataFields, fields: seq<Element>, oai: bool, tagId: string, subId: string)
    : (r: (LegacyDataFields, Outcome))
    ensures r.1.Fail? ==> r.1.error == AttributeError(IndicatorCodeClash)
    ensures forall t :: t in Keys(df) ==> t in Keys(r.0)
    ensures forall t :: |GetList(r.0, t)| >= |GetList(df, t)|
    decreases |fields|
  {
    if fields == [] then (df, Pass)
    else
      var (prev, out) := ParsedDataFields(df, fields[..|fields| - 1], oai, tagId, subId);
      var f := fields[|fields| - 1];
      if out.Fail? || tagId !in f.params then (prev, out)
      else
        match ParsedField(f, oai, subId)
        case Err(e) => (prev, Fail(e))
        case Ok(field) => (AppendTo(prev, f.params[tagId], field), Pass)
  }

  /** `__parseString` on the list of `record` elements of a document. The
      control fields are read as the parser object reads them. */
  function ParsedRecord(m: LegacyModel, doc: seq<RecordElement>): (r: (LegacyModel, Outcome))
    ensures doc == [] ==> r == (m, Fail(ValueError(NoRecord)))
    ensures doc != [] ==> r.0.oaiMarc == (|doc[0].oaiMarc| > 0)
    ensures doc != [] && r.1.Fail? ==> r.1.error == AttributeError(IndicatorCodeClash)
    ensures r.0.controlfields
      == Parser.ParsedRecord(Parser.RecordModel(m.leader, m.oaiMarc, m.controlfields, []), doc).0.controlfields
    ensures forall t :: t in Keys(m.datafields) ==> t in Keys(r.0.datafields)
  {
    if doc == [] then (m, Fail(ValueError(NoRecord)))
    else
      var r := doc[0];
      var oai := |r.oaiMarc| > 0;
      var leader := if !oai && |r.leader| >= 1 then Some(r.leader[0].content) else m.leader;
      var cf := if oai then Parser.ParsedControlFields(m.controlfields, r.fixfield, "id")
                else Parser.ParsedControlFields(m.controlfields, r.controlfield, "tag");
      var (df, out) := if oai then ParsedDataFields(m.datafields, r.varfield, true, "id", "label")
                       else ParsedDataFields(m.datafields, r.datafield, false, "tag", "code");
      var leader' := if out.Pass? && oai && "LDR" in Keys(cf) then Get(cf, "LDR") else leader;
      (LegacyModel(leader', oai, cf, df), out)
  }

  lemma CodesNext(elems: seq<Element>, i: nat, subId: string, oai: bool, codes: Codes)
    requires i < |elems| && ParsedCodes(elems[..i], subId, oai) == Ok(codes)
    ensures var e := elems[i];
      ParsedCodes(elems[..i + 1], subId, oai) ==
        if subId !in e.params then Ok(codes)
        else if e.params[subId] == Parser.IKey(1, oai) || e.params[subId] == Parser.IKey(2, oai) then Err(AttributeError(IndicatorCodeClash))
        else Ok(AppendTo(codes, e.params[subId], Strip(e.content)))
  {
    assert elems[..i + 1][..i] == elems[..i];
  }

  lemma CodesStopped(elems: seq<Element>, i: nat, subId: string, oai: bool)
    requires 0 < i <= |elems| && ParsedCodes(elems[..i], subId, oai).Err?
    ensures ParsedCodes(elems, subId, oai) == ParsedCodes(elems[..i], subId, oai)
    decreases |elems| - i
  {
    if i < |elems| {
      assert elems[..i + 1][..i] == elems[..i];
      CodesStopped(elems, i + 1, subId, oai);
    } else {
      assert elems[..i] == elems;
    }
  }

  lemma DataFieldsNext(df: LegacyDataFields, fields: seq<Element>, i: nat, oai: bool, tagId: string, subId: string)
    requires i < |fields| && ParsedDataFields(df, fields[..i], oai, tagId, subId).1.Pass?
    ensures var (prev, _) := ParsedDataFields(df, fields[..i], oai, tagId, subId);
      var f := fields[i];
      ParsedDataFields(df, fields[..i + 1], oai, tagId, subId) ==
        if tagId !in f.params then (prev, Pass)
        else
          match ParsedField(f, oai, subId)
          case Err(e) => (prev, Fail(e))
          case Ok(field) => (AppendTo(prev, f.params[tagId], field), Pass)
  {
    assert fields[..i + 1][..i] == fields[..i];
  }

  lemma DataFieldsStopped(df: LegacyDataFields, fields: seq<Element>, i: nat, oai: bool, tagId: string, subId: string)
    requires 0 < i <= |fields| && ParsedDataFields(df, fields[..i], oai, tagId, subId).1.Fail?
    ensures ParsedDataFields(df, fields, oai, tagId, subId) == ParsedDataFields(df, fields[..i], oai, tagId, subId)
    decreases |fields| - i
  {
    if i < |fields| {
      assert fields[..i + 1][..i] == fields[..i];
      DataFieldsStopped(df, fields, i + 1, oai, tagId, subId);
    } else {
      assert fields[..i] == fields;
    }
  }

  /** The subfield loop of `__parseDataFields`. */
  method ParseCodes(elems: seq<Element>, subId: string, oai: bool) returns (r: Result<Codes>)
    ensures r == ParsedCodes(elems, subId, oai)
  {
    var n1, n2 := Parser.IKey(1, oai), Parser.IKey(2, oai);
    var codes := [];
    var i := 0;
    while i < |elems|
      invariant 0 <= i <= |elems|
      invariant ParsedCodes(elems[..i], subId, oai) == Ok(codes)
    {
      CodesNext(elems, i, subId, oai, codes);
      var e := elems[i];
      if subId in e.params {
        var code := e.params[subId];
        if code == n1 || code == n2 {
          CodesStopped(elems, i + 1, subId, oai);
          return Err(AttributeError(IndicatorCodeClash));
        }
        codes := AppendTo(codes, code, Strip(e.content));
      }
      i := i + 1;
    }
    assert elems[..i] == elems;
    return Ok(codes);
  }

  /** One data field element of `__parseDataFields`. */
  method ParseField(f: Element, oai: bool, subId: string) returns (r: Result<LegacyField>)
    ensures r == ParsedField(f, oai, subId)
  {
    var i1 := ParamOr(f.params, Parser.IKey(1, oai), " ");
    var i2 := ParamOr(f.params, Parser.IKey(2, oai), " ");
    var codes := ParseCodes(f.subfields, subId, oai);
    if codes.Err? {
      return Err(codes.error);
    }
    return Ok(LegacyField(i1, i2, oai, codes.value));
  }

  /** The key loop of `addDataField`. */
  method CheckEachItem(items: seq<(string, Parser.ArgValue)>) returns (out: Outcome)
    ensures out == CheckItems(items)
  {
    var i := 0;
    while i < |items|
      invariant 0 <= i <= |items|
      invariant CheckItems(items) == CheckItems(items[i..])
    {
      CheckItemsStep(items, i);
      if |items[i].0| > 1 {
        return Fail(KeyError(LongSubfieldKey));
      }
      if !items[i].1.List? {
        return Fail(ValueError(NotAList));
      }
      i := i + 1;
    }
    assert items[i..] == [];
    return Pass;
  }

  // ---------------------------------------------------------------------
  // getDataRecords

  /** The values of one field, each as a `MarcSubrecord` of that field. */
  function Wrap(vals: seq<string>, f: LegacyField): (r: seq<MarcSubrecord>)
    ensures |r| == |vals|
    ensures forall j :: 0 <= j < |vals| ==> r[j] == MarcSubrecord(vals[j], f.i1, f.i2, f)
  {
    seq(|vals|, j requires 0 <= j < |vals| => MarcSubrecord(vals[j], f.i1, f.i2, f))
  }

  /** Every field of the list holds the code. */
  predicate AllHold(fields: seq<LegacyField>, code: string) {
    forall j :: 0 <= j < |fields| ==> code in Keys(fields[j].codes)
  }

  /** Every field whose values under the code are read has its indicators
      under the key names of dialect `oai`: `df[self.getI(1)]` finds them. */
  predicate Readable(fields: seq<LegacyField>, code: string, oai: bool) {
    forall j :: 0 <= j < |fields| && GetList(fields[j].codes, code) != [] ==> fields[j].indKeysOai == oai
  }

  /** All values of the code, field after field, in stored order. */
  function AllValues(fields: seq<LegacyField>, code: string): seq<MarcSubrecord>
    decreases |fields|
  {
    if fields == [] then []
    else Wrap(GetList(fields[0].codes, code), fields[0]) + AllValues(fields[1..], code)
  }

  /** The loop of `getDataRecords` from the first of `fields` on, with `acc`
      collected so far. A field without the code ends it: `KeyError` when
      asked to raise, else a bare `[]`, whatever was collected. A value of
      a field whose indicators are stored under the other dialect's names
      makes the indicator lookup raise `KeyError`. */
  function RecordsFrom(oai: bool, fields: seq<LegacyField>, code: string, throw: bool, acc: seq<MarcSubrecord>)
    : (r: Result<seq<MarcSubrecord>>)
    ensures r.Err? ==> r.error == KeyError(MissingKey) || (throw && r.error == KeyError(NotInSubfields))
    decreases |fields|
  {
    if fields == [] then Ok(acc)
    else
      var f := fields[0];
      if code !in Keys(f.codes) then (if throw then Err(KeyError(NotInSubfields)) else Ok([]))
      else if GetList(f.codes, code) != [] && f.indKeysOai != oai then Err(KeyError(MissingKey))
      else RecordsFrom(oai, fields[1..], code, throw, acc + Wrap(GetList(f.codes, code), f))
  }

  /** `getDataRecords(datafield, subfield, throw_exceptions)` */
  function DataRecords(m: LegacyModel, tag: string, code: string, throw: bool): (r: Result<seq<MarcSubrecord>>)
    ensures r.Err? && r.error.ValueError? <==> |tag| != 3 || |code| != 1
    ensures |tag| == 3 && |code| == 1 && tag !in Keys(m.datafields) ==>
              r == (if throw then Err(KeyError(MissingKey)) else Ok([]))
    ensures r.Err? && !r.error.ValueError? ==> r.error == KeyError(MissingKey) || (throw && r.error == KeyError(NotInSubfields))
  {
    if |tag| != 3 then Err(ValueError(BadName))
    else if |code| != 1 then Err(ValueError(BadSubfieldCode))
    else if tag !in Keys(m.datafields) then (if throw then Err(KeyError(MissingKey)) else Ok([]))
    else RecordsFrom(m.oaiMarc, GetList(m.datafields, tag), code, throw, [])
  }

  lemma HoldSplit(fields: seq<LegacyField>, code: string)
    requires fields != []
    ensures AllHold(fields, code) <==> code in Keys(fields[0].codes) && AllHold(fields[1..], code)
    ensures Readable(fields, code, true) <==>
      (GetList(fields[0].codes, code) != [] ==> fields[0].indKeysOai) && Readable(fields[1..], code, true)
    ensures Readable(fields, code, false) <==>
      (GetList(fields[0].codes, code) != [] ==> !fields[0].indKeysOai) && Readable(fields[1..], code, false)
  {
    assert forall j :: 1 <= j < |fields| ==> fields[j] == fields[1..][j - 1];
  }

  /** What the loop returns when it succeeds: every value of the code from
      every field, in order, when all fields hold it; otherwise nothing. */
  lemma {:induction false} RecordsFromShape(oai: bool, fields: seq<LegacyField>, code: string, throw: bool, acc: seq<MarcSubrecord>)
    ensures var r := RecordsFrom(oai, fields, code, throw, acc);
      r.Ok? ==> (AllHold(fields, code) && r.value == acc + AllValues(fields, code))
                || (!AllHold(fields, code) && !throw && r.value == [])
    decreases |fields|
  {
    if fields == [] {
      AppendNil(acc);
    } else {
      var f := fields[0];
      HoldSplit(fields, code);
      if code in Keys(f.codes) && !(GetList(f.codes, code) != [] && f.indKeysOai != oai) {
        var w := Wrap(GetList(f.codes, code), f);
        RecordsFromShape(oai, fields[1..], code, throw, acc + w);
        AppendAssoc(acc, w, AllValues(fields[1..], code));
      }
    }
  }

  /** When every field holds the code and can be read, the loop collects
      all values, and it does so whether or not it may raise. */
  lemma {:induction false} RecordsFromAll(oai: bool, fields: seq<LegacyField>, code: string, throw: bool, acc: seq<MarcSubrecord>)
    requires AllHold(fields, code) && Readable(fields, code, oai)
    ensures RecordsFrom(oai, fields, code, throw, acc) == Ok(acc + AllValues(fields, code))
    decreases |fields|
  {
    if fields == [] {
      AppendNil(acc);
    } else {
      var f := fields[0];
      HoldSplit(fields, code);
      var w := Wrap(GetList(f.codes, code), f);
      RecordsFromAll(oai, fields[1..], code, throw, acc + w);
      AppendAssoc(acc, w, AllValues(fields[1..], code));
    }
  }

  /** Fields that can be read raise nothing but the missing-code error. */
  lemma {:induction false} RecordsFromReadable(oai: bool, fields: seq<LegacyField>, code: string, throw: bool, acc: seq<MarcSubrecord>)
    requires Readable(fields, code, oai)
    ensures RecordsFrom(oai, fields, code, throw, acc).Err? ==> throw
    decreases |fields|
  {
    if fields != [] {
      HoldSplit(fields, code);
      var f := fields[0];
      RecordsFromReadable(oai, fields[1..], code, throw, acc + Wrap(GetList(f.codes, code), f));
    }
  }

  /** When every field holds the code, asking to raise changes nothing. */
  lemma {:induction false} RecordsFromThrowIrrelevant(oai: bool, fields: seq<LegacyField>, code: string, acc: seq<MarcSubrecord>)
    requires AllHold(fields, code)
    ensures RecordsFrom(oai, fields, code, true, acc) == RecordsFrom(oai, fields, code, false, acc)
    decreases |fields|
  {
    if fields != [] {
      HoldSplit(fields, code);
      var f := fields[0];
      RecordsFromThrowIrrelevant(oai, fields[1..], code, acc + Wrap(GetList(f.codes, code), f));
    }
  }

  /** The values the lookup returns: every value of the code in every field
      of the tag, in order, each with the indicators and the dict of its
      own field. */
  lemma DataRecordsSuccess(m: LegacyModel, tag: string, code: string, throw: bool)
    requires |tag| == 3 && |code| == 1 && tag in Keys(m.datafields)
    requires AllHold(GetList(m.datafields, tag), code) && Readable(GetList(m.datafields, tag), code, m.oaiMarc)
    ensures DataRecords(m, tag, code, throw) == Ok(AllValues(GetList(m.datafields, tag), code))
  {
    RecordsFromAll(m.oaiMarc, GetList(m.datafields, tag), code, throw, []);
    AppendNil(AllValues(GetList(m.datafields, tag), code));
  }

  /** One field without the code is enough to lose every value: the lookup
      raises, or returns `[]`. */
  lemma DataRecordsBailOut(m: LegacyModel, tag: string, code: string, throw: bool, j: nat)
    requires |tag| == 3 && |code| == 1
    requires j < |GetList(m.datafields, tag)| && code !in Keys(GetList(m.datafields, tag)[j].codes)
    ensures var r := DataRecords(m, tag, code, throw);
      (r.Ok? ==> !throw && r.value == []) && (throw ==> r.Err?)
  {
    assert tag in Keys(m.datafields);
    RecordsFromShape(m.oaiMarc, GetList(m.datafields, tag), code, throw, []);
  }

  /** A lookup that is allowed to fail and finds values finds the same
      values when it must raise: the second, strict lookup of the getters
      cannot raise. */
  lemma StrictLookupAgrees(m: LegacyModel, tag: string, code: string)
    requires DataRecords(m, tag, code, false).Ok? && DataRecords(m, tag, code, false).value != []
    ensures DataRecords(m, tag, code, true) == DataRecords(m, tag, code, false)
  {
    var fields := GetList(m.datafields, tag);
    RecordsFromShape(m.oaiMarc, fields, code, false, []);
    RecordsFromThrowIrrelevant(m.oaiMarc, fields, code, []);
  }

  /** A value is returned exactly when it is a value of the code in one of
      the fields, carrying that field's indicators and dict. */
  lemma {:induction false} AllValuesMembers(fields: seq<LegacyField>, code: string, s: MarcSubrecord)
    ensures s in AllValues(fields, code) <==>
      exists j :: 0 <= j < |fields| && s.other == fields[j] && s.ind1 == fields[j].i1 && s.ind2 == fields[j].i2
                  && s.arg in GetList(fields[j].codes, code)
    decreases |fields|
  {
    if fields != [] {
      var f := fields[0];
      AllValuesMembers(fields[1..], code, s);
      assert forall j :: 1 <= j < |fields| ==> fields[j] == fields[1..][j - 1];
      var w := Wrap(GetList(f.codes, code), f);
      assert s in w <==> s.other == f && s.ind1 == f.i1 && s.ind2 == f.i2 && s.arg in GetList(f.codes, code) by {
        if s.other == f && s.ind1 == f.i1 && s.ind2 == f.i2 && s.arg in GetList(f.codes, code) {
          var k :| 0 <= k < |GetList(f.codes, code)| && GetList(f.codes, code)[k] == s.arg;
          assert w[k] == s;
        }
      }
    }
  }

  lemma RecordsFromStep(oai: bool, fields: seq<LegacyField>, k: nat, code: string, throw: bool, acc: seq<MarcSubrecord>)
    requires k < |fields|
    ensures RecordsFrom(oai, fields[k..], code, throw, acc) ==
      var f := fields[k];
      if code !in Keys(f.codes) then (if throw then Err(KeyError(NotInSubfields)) else Ok([]))
      else if GetList(f.codes, code) != [] && f.indKeysOai != oai then Err(KeyError(MissingKey))
      else RecordsFrom(oai, fields[k + 1..], code, throw, acc + Wrap(GetList(f.codes, code), f))
  {
    assert fields[k..][0] == fields[k] && fields[k..][1..] == fields[k + 1..];
  }

  lemma WrapSnoc(vals: seq<string>, j: nat, f: LegacyField)
    requires j < |vals|
    ensures Wrap(vals[..j + 1], f) == Wrap(vals[..j], f) + [MarcSubrecord(vals[j], f.i1, f.i2, f)]
  {
  }

  // ---------------------------------------------------------------------
  // Persons and corporations

  /** The role filter: a value whose field has relator codes (subfield 4)
      is kept only when one of them is among `roles`, unless `roles` is
      `["any"]`. The field is the value's own dict, so its codes are there. */
  predicate Relevant(f: LegacyField, roles: seq<string>) {
    var rs := GetList(f.codes, "4");
    !("4" in Keys(f.codes) && roles != ["any"]) || exists j :: 0 <= j < |rs| && rs[j] in roles
  }

  /** The values the role filter lets through, in order. */
  function Kept(vals: seq<MarcSubrecord>, roles: seq<string>): (r: seq<MarcSubrecord>)
    ensures |r| <= |vals|
    decreases |vals|
  {
    if vals == [] then []
    else
      var last := vals[|vals| - 1];
      Kept(vals[..|vals| - 1], roles) + (if Relevant(last.other, roles) then [last] else [])
  }

  /** A value is kept exactly when it is found and passes the role filter. */
  lemma {:induction false} KeptMembers(vals: seq<MarcSubrecord>, roles: seq<string>, s: MarcSubrecord)
    ensures s in Kept(vals, roles) <==> s in vals && Relevant(s.other, roles)
    decreases |vals|
  {
    if vals != [] {
      var prefix := vals[..|vals| - 1];
      var last := vals[|vals| - 1];
      LastSplit(vals);
      KeptMembers(prefix, roles, s);
      if Relevant(last.other, roles) {
        assert Kept(vals, roles) == Kept(prefix, roles) + [last];
      } else {
        assert Kept(vals, roles) == Kept(prefix, roles) + [];
        AppendNil(Kept(prefix, roles));
      }
    }
  }

  /** With `roles == ["any"]` every value is kept. */
  lemma {:induction false} KeptAny(vals: seq<MarcSubrecord>)
    ensures Kept(vals, ["any"]) == vals
    decreases |vals|
  {
    if vals != [] {
      KeptAny(vals[..|vals| - 1]);
      LastSplit(vals);
    }
  }

  /** `",".join(other_subfields[code])` when the code is present, else "". */
  function JoinedCodes(f: LegacyField, code: string): (r: string)
    ensures code !in Keys(f.codes) ==> r == ""
  {
    if code in Keys(f.codes) then Join(",", GetList(f.codes, code)) else ""
  }

  /** The person of one value: the branches of `_parsePersons`, which are
      those of the parser's getters. */
  function PersonOf(s: MarcSubrecord): Query.Person {
    Query.PersonFrom(s.arg, s.ind1, s.ind2, JoinedCodes(s.other, "b"), JoinedCodes(s.other, "c"))
  }

  /** What the loop of `_parsePersons` collects: one person per kept value. */
  function PersonsOf(vals: seq<MarcSubrecord>, roles: seq<string>): (r: seq<Query.Person>)
    ensures |r| == |Kept(vals, roles)|
    ensures forall i :: 0 <= i < |r| ==> r[i] == PersonOf(Kept(vals, roles)[i])
    decreases |vals|
  {
    if vals == [] then []
    else
      var last := vals[|vals| - 1];
      PersonsOf(vals[..|vals| - 1], roles) + (if Relevant(last.other, roles) then [PersonOf(last)] else [])
  }

  lemma PersonsOfNext(vals: seq<MarcSubrecord>, i: nat, roles: seq<string>)
    requires i < |vals|
    ensures PersonsOf(vals[..i + 1], roles) ==
      PersonsOf(vals[..i], roles) + (if Relevant(vals[i].other, roles) then [PersonOf(vals[i])] else [])
  {
    assert vals[..i + 1][..i] == vals[..i];
  }

  /** `_parsePersons(datafield, subfield, roles)`: the lookup never raises
      for a missing code, and the lengths are checked by it. */
  function Persons(m: LegacyModel, tag: string, code: string, roles: seq<string>): (r: Result<seq<Query.Person>>)
    ensures r.Err? && r.error.ValueError? <==> |tag| != 3 || |code| != 1
    ensures r.Err? && !r.error.ValueError? ==> r.error == KeyError(MissingKey)
    ensures DataRecords(m, tag, code, false).Ok? ==> r == Ok(PersonsOf(DataRecords(m, tag, code, false).value, roles))
  {
    match DataRecords(m, tag, code, false)
    case Err(e) => Err(e)
    case Ok(vals) => Ok(PersonsOf(vals, roles))
  }

  /** `getAuthors`: the persons of tags 100, 600, 700 and 800, in that
      order; the first lookup that raises ends it. */
  function Authors(m: LegacyModel): (r: Result<seq<Query.Person>>)
    ensures r.Err? ==> r.error == KeyError(MissingKey)
  {
    match Persons(m, "100", "a", Query.AuthorRoles)
    case Err(e) => Err(e)
    case Ok(a) =>
      match Persons(m, "600", "a", Query.AuthorRoles)
      case Err(e) => Err(e)
      case Ok(b) =>
        match Persons(m, "700", "a", Query.AuthorRoles)
        case Err(e) => Err(e)
        case Ok(c) =>
          match Persons(m, "800", "a", Query.AuthorRoles)
          case Err(e) => Err(e)
          case Ok(d) => Ok(a + b + c + d)
  }

  /** The corporation of one value: the value itself, then subfields c and
      d of its field joined by commas. */
  function CorporationOf(s: MarcSubrecord): (c: Query.Corporation)
    ensures c.name == s.arg
    ensures "c" !in Keys(s.other.codes) ==> c.place == ""
    ensures "d" !in Keys(s.other.codes) ==> c.date == ""
  {
    Query.Corporation(s.arg, JoinedCodes(s.other, "c"), JoinedCodes(s.other, "d"))
  }

  function CorporationsOf(vals: seq<MarcSubrecord>, roles: seq<string>): (r: seq<Query.Corporation>)
    ensures |r| == |Kept(vals, roles)|
    ensures forall i :: 0 <= i < |r| ==> r[i] == CorporationOf(Kept(vals, roles)[i])
    decreases |vals|
  {
    if vals == [] then []
    else
      var last := vals[|vals| - 1];
      CorporationsOf(vals[..|vals| - 1], roles) + (if Relevant(last.other, roles) then [CorporationOf(last)] else [])
  }

  lemma CorporationsOfNext(vals: seq<MarcSubrecord>, i: nat, roles: seq<string>)
    requires i < |vals|
    ensures CorporationsOf(vals[..i + 1], roles) ==
      CorporationsOf(vals[..i], roles) + (if Relevant(vals[i].other, roles) then [CorporationOf(vals[i])] else [])
  {
    assert vals[..i + 1][..i] == vals[..i];
  }

  /** `_parseCorporations(datafield, subfield, roles)`, which checks the
      lengths itself before the lookup does. */
  function Corporations(m: LegacyModel, tag: string, code: string, roles: seq<string>)
    : (r: Result<seq<Query.Corporation>>)
    ensures |tag| != 3 ==> r == Err(ValueError(BadName))
    ensures |tag| == 3 && |code| != 1 ==> r == Err(ValueError(BadSubfieldCode))
    ensures r.Err? && !r.error.ValueError? ==> r.error == KeyError(MissingKey)
    ensures DataRecords(m, tag, code, false).Ok? ==> r == Ok(CorporationsOf(DataRecords(m, tag, code, false).value, roles))
  {
    if |tag| != 3 then Err(ValueError(BadName))
    else if |code| != 1 then Err(ValueError(BadSubfieldCode))
    else
      match DataRecords(m, tag, code, false)
      case Err(e) => Err(e)
      case Ok(vals) => Ok(CorporationsOf(vals, roles))
  }

  /** `getCorporations(roles)`: tags 110, 610, 710 and 810, in that order;
      `getDistributors` is the call with `["dst"]`. */
  function AllCorporations(m: LegacyModel, roles: seq<string>): (r: Result<seq<Query.Corporation>>)
    ensures r.Err? ==> r.error == KeyError(MissingKey)
  {
    match Corporations(m, "110", "a", roles)
    case Err(e) => Err(e)
    case Ok(a) =>
      match Corporations(m, "610", "a", roles)
      case Err(e) => Err(e)
      case Ok(b) =>
        match Corporations(m, "710", "a", roles)
        case Err(e) => Err(e)
        case Ok(c) =>
          match Corporations(m, "810", "a", roles)
          case Err(e) => Err(e)
          case Ok(d) => Ok(a + b + c + d)
  }

  /** A record with one field under a tag, holding one value of a code. */
  lemma SingleFieldLookup(m: LegacyModel, tag: string, f: LegacyField, code: string, v: string, throw: bool)
    requires |tag| == 3 && |code| == 1 && f.indKeysOai == m.oaiMarc
    requires tag in Keys(m.datafields) && GetList(m.datafields, tag) == [f]
    requires code in Keys(f.codes) && GetList(f.codes, code) == [v]
    ensures DataRecords(m, tag, code, throw) == Ok([MarcSubrecord(v, f.i1, f.i2, f)])
  {
    var vals := [MarcSubrecord(v, f.i1, f.i2, f)];
    assert Wrap([v], f) == vals;
    assert [f][1..] == [];
    assert [] + vals == vals;
    assert RecordsFrom(m.oaiMarc, [], code, throw, vals) == Ok(vals);
    assert RecordsFrom(m.oaiMarc, [f], code, throw, []) == RecordsFrom(m.oaiMarc, [], code, throw, [] + vals);
  }

  /** The dict `{"a": [value], "4": [role]}`. */
  function RoleItems(value: string, role: string): seq<(string, Parser.ArgValue)> {
    [("a", Parser.List([value])), ("4", Parser.List([role]))]
  }

  lemma RoleCodes(value: string, role: string)
    ensures var codes := CodesOf(RoleItems(value, role));
      "a" in Keys(codes) && GetList(codes, "a") == [value] && "4" in Keys(codes) && GetList(codes, "4") == [role]
  {
    var items := RoleItems(value, role);
    var prefix := items[..1];
    assert prefix[..0] == [] && prefix[0] == items[0];
    assert Parser.Wrapped(items[0].1) == [value];
    var first := CodesOf(prefix);
    assert CodesOf(prefix[..0]) == [];
    assert first == Put(CodesOf(prefix[..0]), prefix[0].0, Parser.Wrapped(prefix[0].1));
    assert items[..|items| - 1] == prefix;
    assert Parser.Wrapped(items[1].1) == [role];
    var codes := CodesOf(items);
    assert codes == Put(first, "4", [role]);
    GetListPut(first, "4", [role], "a");
    GetListPut(first, "4", [role], "4");
    GetListPut([], "a", [value], "a");
  }

  /** The field `addDataField("100", "1", " ", {"a": [value], "4": [role]})`
      stores in a new record. */
  lemma RoleFieldAdded(value: string, role: string)
    ensures var r := WithDataField(Empty, "100", "1", " ", Parser.Dict(RoleItems(value, role)));
      var f := LegacyField("1", " ", false, CodesOf(RoleItems(value, role)));
      r.Ok? && !r.value.oaiMarc && "100" in Keys(r.value.datafields) && GetList(r.value.datafields, "100") == [f] &&
      "600" !in Keys(r.value.datafields) && "700" !in Keys(r.value.datafields) && "800" !in Keys(r.value.datafields)
  {
    var items := RoleItems(value, role);
    assert GoodItem(items[0]) && GoodItem(items[1]);
    assert CheckDataField("100", "1", " ", Parser.Dict(items)) == Pass;
    var m := WithDataField(Empty, "100", "1", " ", Parser.Dict(items)).value;
    assert Get(m.datafields, "100").Some?;
    assert Get(m.datafields, "600") == None && Get(m.datafields, "700") == None && Get(m.datafields, "800") == None;
  }

  /** The role filter on that field. */
  lemma RoleRelevant(value: string, role: string)
    ensures Relevant(LegacyField("1", " ", false, CodesOf(RoleItems(value, role))), Query.AuthorRoles) <==> role == "aut"
  {
    RoleCodes(value, role);
    var codes := CodesOf(RoleItems(value, role));
    assert GetList(codes, "4")[0] == role;
  }

  /** An author added to a new record is returned by `getAuthors` exactly
      when its relator code is "aut": the value's dict is its own field's,
      so the role filter sees that field's code. */
  lemma AuthorNeedsRole(value: string, role: string)
    ensures var m := Apply(Empty, WithDataField(Empty, "100", "1", " ", Parser.Dict(RoleItems(value, role))));
      var s := MarcSubrecord(value, "1", " ", LegacyField("1", " ", false, CodesOf(RoleItems(value, role))));
      Authors(m) == if role == "aut" then Ok([PersonOf(s)]) else Ok([])
  {
    var items := RoleItems(value, role);
    RoleFieldAdded(value, role);
    var m := WithDataField(Empty, "100", "1", " ", Parser.Dict(items)).value;
    var f := LegacyField("1", " ", false, CodesOf(items));
    var s := MarcSubrecord(value, "1", " ", f);
    RoleCodes(value, role);
    SingleFieldLookup(m, "100", f, "a", value, false);
    RoleRelevant(value, role);
    assert [s][..0] == [];
    var p := PersonsOf([s], Query.AuthorRoles);
    assert p == PersonsOf([], Query.AuthorRoles) + (if Relevant(f, Query.AuthorRoles) then [PersonOf(s)] else []);
    assert Persons(m, "100", "a", Query.AuthorRoles) == Ok(p);
    assert Persons(m, "600", "a", Query.AuthorRoles) == Ok([]);
    assert Persons(m, "700", "a", Query.AuthorRoles) == Ok([]);
    assert Persons(m, "800", "a", Query.AuthorRoles) == Ok([]);
    assert Authors(m) == Ok(p + [] + [] + []);
    AppendNil(p);
    var kept: seq<Query.Person> := if role == "aut" then [PersonOf(s)] else [];
    assert p == [] + kept;
    AppendNil(kept);
    assert p + [] + [] + [] == kept;
    assert Apply(Empty, WithDataField(Empty, "100", "1", " ", Parser.Dict(items))) == m;
  }

  // ---------------------------------------------------------------------
  // ISBNs and binding

  /** `ISBN.strip().split(" ", 1)[0]` of each value. */
  function FirstTokensOf(vals: seq<MarcSubrecord>): (r: seq<string>)
    ensures |r| == |vals|
    ensures forall i :: 0 <= i < |r| ==> r[i] == FirstToken(Strip(vals[i].arg))
  {
    seq(|vals|, i requires 0 <= i < |vals| => FirstToken(Strip(vals[i].arg)))
  }

  /** `getISBNs`: the first tokens of 020$a when the lookup that may fail
      finds any, else those of 901$i, else nothing; the tokens are read
      from a second, strict lookup. */
  function ISBNs(m: LegacyModel): (r: Result<seq<string>>)
    ensures r.Ok? ==> forall i :: 0 <= i < |r.value| ==> ' ' !in r.value[i]
    ensures r.Err? ==> r.error.KeyError?
  {
    match DataRecords(m, "020", "a", false)
    case Err(e) => Err(e)
    case Ok(a) =>
      if a != [] then
        match DataRecords(m, "020", "a", true)
        case Err(e) => Err(e)
        case Ok(v) => Ok(FirstTokensOf(v))
      else
        match DataRecords(m, "901", "i", false)
        case Err(e) => Err(e)
        case Ok(b) =>
          if b != [] then
            match DataRecords(m, "901", "i", true)
            case Err(e) => Err(e)
            case Ok(v) => Ok(FirstTokensOf(v))
          else Ok([])
  }

  /** When the lookups that may fail succeed, the ISBNs are the first tokens
      of what they found: the strict lookups add nothing. */
  lemma ISBNsOfLookups(m: LegacyModel)
    ensures var a := DataRecords(m, "020", "a", false);
      var b := DataRecords(m, "901", "i", false);
      a.Ok? && b.Ok? ==> ISBNs(m) == Ok(FirstTokensOf(if a.value != [] then a.value else b.value))
  {
    var a := DataRecords(m, "020", "a", false);
    var b := DataRecords(m, "901", "i", false);
    if a.Ok? && a.value != [] {
      StrictLookupAgrees(m, "020", "a");
    } else if a.Ok? && b.Ok? && b.value != [] {
      StrictLookupAgrees(m, "901", "i");
    }
  }

  /** `x.strip().split(" ", 1)[1]`, which raises `IndexError` when the
      stripped value has no space. */
  function SecondToken(s: string): (r: Result<string>)
    ensures r.Ok? <==> ' ' in Strip(s)
    ensures r.Err? ==> r.error == IndexError(NoSecondToken)
    ensures r.Ok? ==> Strip(s) == FirstToken(Strip(s)) + " " + r.value
  {
    var parts := SplitOnce(Strip(s), ' ');
    if |parts| < 2 then Err(IndexError(NoSecondToken)) else Ok(parts[1])
  }

  /** `map` of `SecondToken` over the values: it raises as soon as one
      value does, and every value raises the same error. */
  function SecondTokens(xs: seq<string>): (r: Result<seq<string>>)
    ensures r.Ok? <==> forall i :: 0 <= i < |xs| ==> ' ' in Strip(xs[i])
    ensures r.Err? ==> r.error == IndexError(NoSecondToken)
    ensures r.Ok? ==> |r.value| == |xs| && forall i :: 0 <= i < |xs| ==> Ok(r.value[i]) == SecondToken(xs[i])
  {
    if forall i :: 0 <= i < |xs| ==> ' ' in Strip(xs[i]) then
      Ok(seq(|xs|, i requires 0 <= i < |xs| && ' ' in Strip(xs[i]) => SecondToken(xs[i]).value))
    else Err(IndexError(NoSecondToken))
  }

  /** The values the binding filter keeps as written: those holding a dash
      and a space anywhere, blanks at the ends included. */
  function CandidatesAsWritten(vals: seq<MarcSubrecord>): (r: seq<string>)
    ensures forall i :: 0 <= i < |r| ==> '-' in r[i] && ' ' in r[i]
    decreases |vals|
  {
    if vals == [] then []
    else
      var last := vals[|vals| - 1];
      var prefix := CandidatesAsWritten(vals[..|vals| - 1]);
      if '-' in last.arg && ' ' in last.arg then prefix + [last.arg] else prefix
  }

  /** `getBinding` as written: the filter looks for the space before the
      value is stripped, the split after. */
  function BindingAsWritten(m: LegacyModel): (r: Result<seq<string>>)
    ensures r.Err? ==> r.error.KeyError? || r.error == IndexError(NoSecondToken)
    ensures DataRecords(m, "020", "a", false) == Ok([]) ==> r == Ok([])
  {
    match DataRecords(m, "020", "a", false)
    case Err(e) => Err(e)
    case Ok(a) =>
      if a != [] then
        match DataRecords(m, "020", "a", true)
        case Err(e) => Err(e)
        case Ok(v) => SecondTokens(CandidatesAsWritten(v))
      else Ok([])
  }

  /** The values the binding filter evidently means to keep: those holding
      a dash, and a space inside the stripped value. */
  function Candidates(vals: seq<MarcSubrecord>): (r: seq<string>)
    ensures forall i :: 0 <= i < |r| ==> '-' in r[i] && ' ' in Strip(r[i])
    decreases |vals|
  {
    if vals == [] then []
    else
      var last := vals[|vals| - 1];
      var prefix := Candidates(vals[..|vals| - 1]);
      if '-' in last.arg && ' ' in Strip(last.arg) then prefix + [last.arg] else prefix
  }

  /** `getBinding` with the filter on the stripped value, for each 020$a
      with a dash and an inner space, the text after that space. Its only
      error is the lookup's: it never raises `IndexError`. */
  function Binding(m: LegacyModel): (r: Result<seq<string>>)
    ensures r.Err? ==> r.error.KeyError?
    ensures DataRecords(m, "020", "a", false) == Ok([]) ==> r == Ok([])
  {
    match DataRecords(m, "020", "a", false)
    case Err(e) => Err(e)
    case Ok(a) =>
      if a != [] then
        match DataRecords(m, "020", "a", true)
        case Err(e) => Err(e)
        case Ok(v) => SecondTokens(Candidates(v))
      else Ok([])
  }

  /** What the corrected getter returns once the lookup succeeds: one
      binding per candidate, the text after the first inner space. */
  lemma BindingOfLookup(m: LegacyModel)
    ensures var a := DataRecords(m, "020", "a", false);
      a.Ok? ==> (Binding(m).Ok? && |Binding(m).value| == |Candidates(a.value)| &&
                 forall i :: 0 <= i < |Candidates(a.value)| ==>
                   var x := Candidates(a.value)[i];
                   Strip(x) == FirstToken(Strip(x)) + " " + Binding(m).value[i])
  {
    var a := DataRecords(m, "020", "a", false);
    if a.Ok? && a.value != [] {
      StrictLookupAgrees(m, "020", "a");
    }
  }

  /** The binding of the unit tests' ISBN line is what follows its number. */
  lemma BindingExample()
    ensures SecondToken("80-251-0225-4 (brož.) :") == Ok("(brož.) :")
  {
    StripOfStripped("80-251-0225-4 (brož.) :");
    assert "80-251-0225-4 (brož.) :" == "80-251-0225-4" + [' '] + "(brož.) :";
    SplitOnceAt("80-251-0225-4", ' ', "(brož.) :");
  }

  /** A record whose one ISBN line ends in a blank. */
  const TrailingBlankField := LegacyField(" ", " ", false, [("a", ["80-251 "])])
  const TrailingBlankRecord := LegacyModel(None, false, [], [("020", [TrailingBlankField])])

  lemma TrailingBlankLookup(throw: bool)
    ensures DataRecords(TrailingBlankRecord, "020", "a", throw)
         == Ok([MarcSubrecord("80-251 ", " ", " ", TrailingBlankField)])
  {
    GetListSingle("020", [TrailingBlankField]);
    GetListSingle("a", ["80-251 "]);
    SingleFieldLookup(TrailingBlankRecord, "020", TrailingBlankField, "a", "80-251 ", throw);
  }

  /** That ISBN passes the filter as written and then has no space left to
      split at: the getter raises. The corrected filter leaves it out. */
  lemma TrailingBlankBinding()
    ensures BindingAsWritten(TrailingBlankRecord) == Err(IndexError(NoSecondToken))
    ensures Binding(TrailingBlankRecord) == Ok([])
  {
    var vals := [MarcSubrecord("80-251 ", " ", " ", TrailingBlankField)];
    TrailingBlankLookup(true);
    TrailingBlankLookup(false);
    var x := "80-251 ";
    assert IsStripped("80-251");
    StripTrailingBlank("80-251");
    assert ' ' !in Strip(x);
    assert vals[..0] == [];
    assert CandidatesAsWritten(vals) == [x] by {
      assert '-' in x && ' ' in x;
    }
    assert SecondTokens([x]) == Err(IndexError(NoSecondToken)) by {
      assert [x][0] == x;
    }
    assert Candidates(vals) == [];
    assert Binding(TrailingBlankRecord) == SecondTokens(Candidates(vals));
  }

  // ---------------------------------------------------------------------
  // Records all of whose fields can be read

  /** Every field is stored under the record's own indicator key names,
      so no lookup of an indicator can fail. */
  ghost predicate Consistent(df: LegacyDataFields, oai: bool) {
    forall t, j :: 0 <= j < |GetList(df, t)| ==> GetList(df, t)[j].indKeysOai == oai
  }

  /** An addition stores its dict under the record's names. */
  lemma AdditionKeepsConsistent(m: LegacyModel, name: string, i1: string, i2: string, arg: Parser.SubfieldsArg)
    requires Consistent(m.datafields, m.oaiMarc)
    ensures var m' := Apply(m, WithDataField(m, name, i1, i2, arg)); Consistent(m'.datafields, m'.oaiMarc)
  {
    var r := WithDataField(m, name, i1, i2, arg);
    if r.Ok? {
      forall t, j | 0 <= j < |GetList(r.value.datafields, t)|
        ensures GetList(r.value.datafields, t)[j].indKeysOai == m.oaiMarc
      {
        if t != name {
          assert GetList(r.value.datafields, t) == GetList(m.datafields, t);
        }
      }
    }
  }

  lemma AppendKeepsConsistent(df: LegacyDataFields, tag: string, f: LegacyField, oai: bool)
    requires Consistent(df, oai) && f.indKeysOai == oai
    ensures Consistent(AppendTo(df, tag, f), oai)
  {
    forall t, j | 0 <= j < |GetList(AppendTo(df, tag, f), t)|
      ensures GetList(AppendTo(df, tag, f), t)[j].indKeysOai == oai
    {
      GetListAppendTo(df, tag, f, t);
      var before := GetList(df, t);
      if j < |before| {
        assert GetList(AppendTo(df, tag, f), t)[j] == before[j];
      } else {
        assert GetList(AppendTo(df, tag, f), t)[j] == f;
      }
    }
  }

  /** A parse stores its fields under the names of the document's dialect. */
  lemma {:induction false} ParseKeepsConsistent(df: LegacyDataFields, fields: seq<Element>, oai: bool, tagId: string, subId: string)
    requires Consistent(df, oai)
    ensures Consistent(ParsedDataFields(df, fields, oai, tagId, subId).0, oai)
    decreases |fields|
  {
    if fields != [] {
      var prefix := fields[..|fields| - 1];
      ParseKeepsConsistent(df, prefix, oai, tagId, subId);
      var (prev, out) := ParsedDataFields(df, prefix, oai, tagId, subId);
      var f := fields[|fields| - 1];
      if out.Pass? && tagId in f.params {
        var r := ParsedField(f, oai, subId);
        if r.Ok? {
          AppendKeepsConsistent(prev, f.params[tagId], r.value, oai);
        }
      }
    }
  }

  /** A record parsed from a document, into a new object, is consistent. */
  lemma ParsedRecordConsistent(doc: seq<RecordElement>)
    ensures var m := ParsedRecord(Empty, doc).0; Consistent(m.datafields, m.oaiMarc)
  {
    if doc != [] {
      var r := doc[0];
      if |r.oaiMarc| > 0 {
        ParseKeepsConsistent([], r.varfield, true, "id", "label");
      } else {
        ParseKeepsConsistent([], r.datafield, false, "tag", "code");
      }
    }
  }

  /** In a consistent record the getters whose lookup may fail never raise. */
  lemma ConsistentLookups(m: LegacyModel, tag: string, code: string)
    requires Consistent(m.datafields, m.oaiMarc) && |tag| == 3 && |code| == 1
    ensures DataRecords(m, tag, code, false).Ok?
  {
    var fields := GetList(m.datafields, tag);
    assert Readable(fields, code, m.oaiMarc) by {
      forall j | 0 <= j < |fields| ensures fields[j].indKeysOai == m.oaiMarc {
        assert 0 <= j < |GetList(m.datafields, tag)|;
      }
    }
    RecordsFromReadable(m.oaiMarc, fields, code, false, []);
  }

  /** ... and so neither do `getAuthors` and `getCorporations`. */
  lemma ConsistentGetters(m: LegacyModel, roles: seq<string>)
    requires Consistent(m.datafields, m.oaiMarc)
    ensures Authors(m).Ok? && AllCorporations(m, roles).Ok?
  {
    ConsistentLookups(m, "100", "a");
    ConsistentLookups(m, "600", "a");
    ConsistentLookups(m, "700", "a");
    ConsistentLookups(m, "800", "a");
    ConsistentLookups(m, "110", "a");
    ConsistentLookups(m, "610", "a");
    ConsistentLookups(m, "710", "a");
    ConsistentLookups(m, "810", "a");
  }

  // ---------------------------------------------------------------------
  // Serialization. Every key set is visited in the legacy `resorted`
  // order; the templates are those of the current serializer.

  /** `__serializeControlFields`: MARC 21 writes only the all-digit keys. */
  function CtlFieldsXml(m: LegacyModel): string {
    Serializer.CtlFieldsXmlOf(m.controlfields, m.oaiMarc, LegacyOrder.Resorted(Keys(m.controlfields)))
  }

  /** The values of one code, in stored order. */
  function ValuesXml(oai: bool, code: string, vals: seq<string>): string
    decreases |vals|
  {
    if vals == [] then ""
    else ValuesXml(oai, code, vals[..|vals| - 1]) + Serializer.SubfieldXml(oai, code, vals[|vals| - 1])
  }

  function CodesXmlOf(codes: Codes, oai: bool, keys: seq<string>): string
    decreases |keys|
  {
    if keys == [] then ""
    else
      var k := keys[|keys| - 1];
      CodesXmlOf(codes, oai, keys[..|keys| - 1]) + ValuesXml(oai, k, GetList(codes, k))
  }

  /** `__serializeDataSubfields` of a dict whose indicator keys have been
      taken out. */
  function CodesXml(codes: Codes, oai: bool): string {
    CodesXmlOf(codes, oai, LegacyOrder.Resorted(Keys(codes)))
  }

  /** One dict of `__serializeDataFields`, written with the current
      dialect's names and its stored indicators. */
  function FieldXmlOf(oai: bool, tag: string, f: LegacyField): string {
    Serializer.FieldXml(oai, tag, f.i1, f.i2, CodesXml(f.codes, oai))
  }

  function FieldsXml(oai: bool, tag: string, fields: seq<LegacyField>): string
    decreases |fields|
  {
    if fields == [] then ""
    else FieldsXml(oai, tag, fields[..|fields| - 1]) + FieldXmlOf(oai, tag, fields[|fields| - 1])
  }

  function DataFieldsXmlOf(df: LegacyDataFields, oai: bool, tags: seq<string>): string
    decreases |tags|
  {
    if tags == [] then ""
    else
      var tag := tags[|tags| - 1];
      DataFieldsXmlOf(df, oai, tags[..|tags| - 1]) + FieldsXml(oai, tag, GetList(df, tag))
  }

  /** `__serializeDataFields` */
  function DataFieldsXml(m: LegacyModel): string {
    DataFieldsXmlOf(m.datafields, m.oaiMarc, LegacyOrder.Resorted(Keys(m.datafields)))
  }

  /** The leader element, written only for a non-empty leader of a MARC 21
      record. */
  function LeaderXml(m: LegacyModel): (r: string)
    ensures r != "" <==> !m.oaiMarc && m.leader.Some? && m.leader.value != ""
    ensures r != "" ==> r == "<leader>" + m.leader.value + "</leader>"
  {
    var leader := match m.leader case Some(l) => l case None => "";
    var leader := if leader != "" then "<leader>" + leader + "</leader>" else leader;
    if m.oaiMarc then "" else leader
  }

  /** `toXML` */
  function RecordXml(m: LegacyModel): string {
    Serializer.Document(m.oaiMarc, LeaderXml(m), CtlFieldsXml(m), DataFieldsXml(m))
  }

  lemma CtlFieldsSnoc(cf: Parser.ControlFields, oai: bool, ids: seq<string>, i: nat)
    requires i < |ids|
    ensures Serializer.CtlFieldsXmlOf(cf, oai, ids[..i + 1]) == Serializer.CtlFieldsXmlOf(cf, oai, ids[..i]) +
      (if Serializer.Emitted(oai, ids[i]) then Serializer.CtlFieldXml(oai, ids[i], Serializer.ValueOf(cf, ids[i], "")) else "")
  {
    assert ids[..i + 1][..i] == ids[..i];
  }

  lemma ValuesSnoc(oai: bool, code: string, vals: seq<string>, j: nat)
    requires j < |vals|
    ensures ValuesXml(oai, code, vals[..j + 1]) == ValuesXml(oai, code, vals[..j]) + Serializer.SubfieldXml(oai, code, vals[j])
  {
    assert vals[..j + 1][..j] == vals[..j];
  }

  lemma CodesSnoc(codes: Codes, oai: bool, keys: seq<string>, i: nat)
    requires i < |keys|
    ensures CodesXmlOf(codes, oai, keys[..i + 1]) == CodesXmlOf(codes, oai, keys[..i]) + ValuesXml(oai, keys[i], GetList(codes, keys[i]))
  {
    assert keys[..i + 1][..i] == keys[..i];
  }

  lemma FieldsSnoc(oai: bool, tag: string, fields: seq<LegacyField>, j: nat)
    requires j < |fields|
    ensures FieldsXml(oai, tag, fields[..j + 1]) == FieldsXml(oai, tag, fields[..j]) + FieldXmlOf(oai, tag, fields[j])
  {
    assert fields[..j + 1][..j] == fields[..j];
  }

  lemma DataFieldsSnoc(df: LegacyDataFields, oai: bool, tags: seq<string>, i: nat)
    requires i < |tags|
    ensures DataFieldsXmlOf(df, oai, tags[..i + 1]) == DataFieldsXmlOf(df, oai, tags[..i]) + FieldsXml(oai, tags[i], GetList(df, tags[i]))
  {
    assert tags[..i + 1][..i] == tags[..i];
  }

  /** The current serializer's filter of all-digit keys is `Digits`. */
  lemma {:induction false} DigitKeysAreDigits(s: seq<string>)
    ensures Serializer.DigitKeys(s) == LegacyOrder.Digits(s)
    decreases |s|
  {
    if s != [] {
      DigitKeysAreDigits(s[1..]);
      assert s == [s[0]] + s[1..];
      Serializer.DigitKeysConcat([s[0]], s[1..]);
      assert [s[0]][..0] == [];
    }
  }

  /** Keys that are all digits are all kept. */
  lemma {:induction false} DigitKeysOfDigits(s: seq<string>)
    requires forall i :: 0 <= i < |s| ==> IsDigits(s[i])
    ensures Serializer.DigitKeys(s) == s
    decreases |s|
  {
    if s != [] {
      DigitKeysOfDigits(s[..|s| - 1]);
      LastSplit(s);
    }
  }

  /** In MARC 21 mode the control block is that of the all-digit keys in
      plain sorted order: `resorted` puts them last, in sorted order. */
  lemma CtlXmlMarc(m: LegacyModel)
    requires !m.oaiMarc
    ensures CtlFieldsXml(m) ==
      Serializer.CtlFieldsXmlOf(m.controlfields, false, Serializer.DigitKeys(Sorting.Sort(Keys(m.controlfields))))
  {
    var cf := m.controlfields;
    var s := Sorting.Sort(Keys(cf));
    var r := LegacyOrder.Resorted(Keys(cf));
    var digits := LegacyOrder.Digits(s);
    assert Serializer.DigitKeys(r) == digits by {
      Serializer.DigitKeysConcat(LegacyOrder.NonDigits(s), digits);
      Serializer.DigitKeysNone(LegacyOrder.NonDigits(s));
      DigitKeysOfDigits(digits);
      AppendNil(digits);
    }
    DigitKeysAreDigits(s);
    Serializer.CtlXmlDigitKeys(cf, r);
  }

  /** The legacy control block is the current serializer's with the
      canonical order: always in MARC 21 mode, where only all-digit keys are
      written; in OAI mode when no key starts with a character below `:`
      without being all digits, where the two orders agree. */
  lemma CtlXmlAgreesWithCurrent(m: LegacyModel, p: Parser.RecordModel)
    requires p.oaiMarc == m.oaiMarc && p.controlfields == m.controlfields
    requires m.oaiMarc ==> forall i :: 0 <= i < |Keys(m.controlfields)| ==> LegacyOrder.Unambiguous(Keys(m.controlfields)[i])
    ensures CtlFieldsXml(m) == Serializer.CtlFieldsXml(p, true)
  {
    if m.oaiMarc {
      LegacyOrder.AgreesWithCurrentOnUnambiguous(Keys(m.controlfields));
    } else {
      CtlXmlMarc(m);
    }
  }

  lemma {:induction false} CodesXmlAgree(c1: Codes, c2: Codes, oai: bool, keys: seq<string>)
    requires forall i :: 0 <= i < |keys| ==> GetList(c1, keys[i]) == GetList(c2, keys[i])
    ensures CodesXmlOf(c1, oai, keys) == CodesXmlOf(c2, oai, keys)
    decreases |keys|
  {
    if keys != [] {
      CodesXmlAgree(c1, c2, oai, keys[..|keys| - 1]);
    }
  }

  /** The same subfields, whatever order their codes were added in, give
      the same output. */
  lemma CodesXmlIgnoresInsertionOrder(c1: Codes, c2: Codes, oai: bool)
    requires multiset(Keys(c1)) == multiset(Keys(c2))
    requires forall c :: GetList(c1, c) == GetList(c2, c)
    ensures CodesXml(c1, oai) == CodesXml(c2, oai)
  {
    LegacyOrder.ResortedDependsOnMultiset(Keys(c1), Keys(c2));
    CodesXmlAgree(c1, c2, oai, LegacyOrder.Resorted(Keys(c1)));
  }

  lemma {:induction false} DataFieldsXmlAgree(d1: LegacyDataFields, d2: LegacyDataFields, oai: bool, tags: seq<string>)
    requires forall i :: 0 <= i < |tags| ==> GetList(d1, tags[i]) == GetList(d2, tags[i])
    ensures DataFieldsXmlOf(d1, oai, tags) == DataFieldsXmlOf(d2, oai, tags)
    decreases |tags|
  {
    if tags != [] {
      DataFieldsXmlAgree(d1, d2, oai, tags[..|tags| - 1]);
    }
  }

  /** Two records with the same fields give the same document, whatever
      order their control fields and tags were stored in. */
  lemma RecordXmlIgnoresInsertionOrder(m1: LegacyModel, m2: LegacyModel)
    requires m1.oaiMarc == m2.oaiMarc && m1.leader == m2.leader
    requires multiset(Keys(m1.controlfields)) == multiset(Keys(m2.controlfields))
    requires forall k :: Get(m1.controlfields, k) == Get(m2.controlfields, k)
    requires multiset(Keys(m1.datafields)) == multiset(Keys(m2.datafields))
    requires forall t :: GetList(m1.datafields, t) == GetList(m2.datafields, t)
    ensures RecordXml(m1) == RecordXml(m2)
  {
    LegacyOrder.ResortedDependsOnMultiset(Keys(m1.controlfields), Keys(m2.controlfields));
    Serializer.CtlXmlAgree(m1.controlfields, m2.controlfields, m1.oaiMarc, LegacyOrder.Resorted(Keys(m1.controlfields)));
    LegacyOrder.ResortedDependsOnMultiset(Keys(m1.datafields), Keys(m2.datafields));
    DataFieldsXmlAgree(m1.datafields, m2.datafields, m1.oaiMarc, LegacyOrder.Resorted(Keys(m1.datafields)));
  }

  /** The subfields of a MARC 21 field come letters first, then digits:
      `a`, `b`, then `4`. */
  lemma CodesOrderExample()
    ensures LegacyOrder.Resorted(["4", "b", "a"]) == ["a", "b", "4"]
  {
    assert Sorting.Sort(["a"]) == ["a"];
    assert Sorting.Sort(["b", "a"]) == ["a", "b"];
    assert Sorting.Sort(["4", "b", "a"]) == ["4", "a", "b"];
    assert LegacyOrder.NonDigits(["4", "a", "b"]) == ["a", "b"] by {
      assert ["4", "a", "b"][1..] == ["a", "b"] && ["a", "b"][1..] == ["b"] && ["b"][1..] == [];
    }
    assert LegacyOrder.Digits(["4", "a", "b"]) == ["4"] by {
      assert ["4", "a", "b"][1..] == ["a", "b"] && ["a", "b"][1..] == ["b"] && ["b"][1..] == [];
    }
  }

  /** The loop over the values of one code. */
  method SerializeValues(oai: bool, code: string, vals: seq<string>) returns (output: string)
    ensures output == ValuesXml(oai, code, vals)
  {
    output := "";
    var j := 0;
    while j < |vals|
      invariant 0 <= j <= |vals|
      invariant output == ValuesXml(oai, code, vals[..j])
    {
      ValuesSnoc(oai, code, vals, j);
      output := output + Serializer.SubfieldXml(oai, code, vals[j]);
      j := j + 1;
    }
    assert vals[..j] == vals;
  }

  /** The inner loop of `getDataRecords`: one `MarcSubrecord` per value of
      a field, appended to what was collected. */
  method AppendValues(output: seq<MarcSubrecord>, vals: seq<string>, f: LegacyField) returns (r: seq<MarcSubrecord>)
    ensures r == output + Wrap(vals, f)
  {
    r := output;
    var j := 0;
    while j < |vals|
      invariant 0 <= j <= |vals|
      invariant r == output + Wrap(vals[..j], f)
    {
      WrapSnoc(vals, j, f);
      AppendAssoc(output, Wrap(vals[..j], f), [MarcSubrecord(vals[j], f.i1, f.i2, f)]);
      r := r + [MarcSubrecord(vals[j], f.i1, f.i2, f)];
      j := j + 1;
    }
    assert vals[..j] == vals;
  }

  // ---------------------------------------------------------------------
  // The object

  class MarcXmlRecord {
    var leader: Option<string>
    var oaiMarc: bool
    var controlfields: Parser.ControlFields
    var datafields: LegacyDataFields

    function Model(): LegacyModel
      reads this
    {
      LegacyModel(leader, oaiMarc, controlfields, datafields)
    }

    /** `MARCXMLRecord()`; with a document, `ParseString` follows. */
    constructor ()
      ensures Model() == Empty
    {
      leader := None;
      oaiMarc := false;
      controlfields := [];
      datafields := [];
    }

    method AddControlField(name: string, value: string) returns (out: Outcome)
      modifies this
      ensures Model() == Apply(old(Model()), WithControlField(old(Model()), name, value))
      ensures out == OutcomeOf(WithControlField(old(Model()), name, value))
    {
      if |name| != 3 {
        return Fail(ValueError(BadName));
      }
      controlfields := Put(controlfields, name, value);
      out := Pass;
    }

    method AddDataField(name: string, i1: string, i2: string, arg: Parser.SubfieldsArg) returns (out: Outcome)
      modifies this
      ensures Model() == Apply(old(Model()), WithDataField(old(Model()), name, i1, i2, arg))
      ensures out == OutcomeOf(WithDataField(old(Model()), name, i1, i2, arg))
    {
      if !Parser.ValidIndicator(i1) {
        return Fail(ValueError(BadIndicator1));
      }
      if !Parser.ValidIndicator(i2) {
        return Fail(ValueError(BadIndicator2));
      }
      if |name| != 3 {
        return Fail(ValueError(BadName));
      }
      if arg.NotDict? {
        return Fail(ValueError(NotADict));
      }
      out := CheckEachItem(arg.items);
      if out.Fail? {
        return;
      }
      datafields := AppendTo(datafields, name, LegacyField(i1, i2, oaiMarc, CodesOf(arg.items)));
    }

    method ParseControlFields(fields: seq<Element>, tagId: string)
      modifies this
      ensures Model() == old(Model()).(controlfields := Parser.ParsedControlFields(old(controlfields), fields, tagId))
    {
      var i := 0;
      while i < |fields|
        invariant 0 <= i <= |fields|
        invariant Model() == old(Model()).(controlfields := Parser.ParsedControlFields(old(controlfields), fields[..i], tagId))
      {
        Parser.ControlFieldsNext(old(controlfields), fields, i, tagId);
        var f := fields[i];
        if tagId in f.params {
          controlfields := Put(controlfields, f.params[tagId], Strip(f.content));
        }
        i := i + 1;
      }
      assert fields[..i] == fields;
    }

    method ParseDataFields(fields: seq<Element>, tagId: string, subId: string) returns (out: Outcome)
      modifies this
      ensures leader == old(leader) && oaiMarc == old(oaiMarc) && controlfields == old(controlfields)
      ensures (datafields, out) == ParsedDataFields(old(datafields), fields, oaiMarc, tagId, subId)
    {
      out := Pass;
      var i := 0;
      while i < |fields|
        invariant 0 <= i <= |fields|
        invariant leader == old(leader) && oaiMarc == old(oaiMarc) && controlfields == old(controlfields)
        invariant (datafields, Pass) == ParsedDataFields(old(datafields), fields[..i], oaiMarc, tagId, subId)
        invariant out == Pass
      {
        DataFieldsNext(old(datafields), fields, i, oaiMarc, tagId, subId);
        var f := fields[i];
        if tagId in f.params {
          var r := ParseField(f, oaiMarc, subId);
          if r.Err? {
            out := Fail(r.error);
            assert ParsedDataFields(old(datafields), fields[..i + 1], oaiMarc, tagId, subId) == (datafields, out);
            DataFieldsStopped(old(datafields), fields, i + 1, oaiMarc, tagId, subId);
            return;
          }
          datafields := AppendTo(datafields, f.params[tagId], r.value);
        }
        assert (datafields, Pass) == ParsedDataFields(old(datafields), fields[..i + 1], oaiMarc, tagId, subId);
        i := i + 1;
      }
      assert fields[..i] == fields;
    }

    /** `__parseString`; an error leaves what was stored before it. */
    method ParseString(doc: seq<RecordElement>) returns (out: Outcome)
      modifies this
      ensures (Model(), out) == ParsedRecord(old(Model()), doc)
    {
      if doc == [] {
        return Fail(ValueError(NoRecord));
      }
      var record := doc[0];
      oaiMarc := |record.oaiMarc| > 0;
      if !oaiMarc && |record.leader| >= 1 {
        leader := Some(record.leader[0].content);
      }
      if oaiMarc {
        ParseControlFields(record.fixfield, "id");
        out := ParseDataFields(record.varfield, "id", "label");
      } else {
        ParseControlFields(record.controlfield, "tag");
        out := ParseDataFields(record.datafield, "tag", "code");
      }
      if out.Pass? && oaiMarc && "LDR" in Keys(controlfields) {
        leader := Get(controlfields, "LDR");
      }
    }

    /** `getDataRecords(datafield, subfield, throw_exceptions)` */
    method GetDataRecords(tag: string, code: string, throw: bool) returns (r: Result<seq<MarcSubrecord>>)
      ensures r == DataRecords(Model(), tag, code, throw)
    {
      if |tag| != 3 {
        return Err(ValueError(BadName));
      }
      if |code| != 1 {
        return Err(ValueError(BadSubfieldCode));
      }
      if tag !in Keys(datafields) {
        if throw {
          return Err(KeyError(MissingKey));
        }
        return Ok([]);
      }
      var oai, fields := oaiMarc, GetList(datafields, tag);
      var output: seq<MarcSubrecord> := [];
      var k := 0;
      while k < |fields|
        invariant 0 <= k <= |fields|
        invariant RecordsFrom(oai, fields, code, throw, []) == RecordsFrom(oai, fields[k..], code, throw, output)
      {
        RecordsFromStep(oai, fields, k, code, throw, output);
        var f := fields[k];
        if code !in Keys(f.codes) {
          if throw {
            return Err(KeyError(NotInSubfields));
          }
          return Ok([]);
        }
        var vals := GetList(f.codes, code);
        // the indicator lookup of the first value raises
        if vals != [] && f.indKeysOai != oai {
          return Err(KeyError(MissingKey));
        }
        output := AppendValues(output, vals, f);
        k := k + 1;
      }
      assert fields[k..] == [];
      r := Ok(output);
    }

    /** `_parsePersons(datafield, subfield, roles)` */
    method ParsePersons(tag: string, code: string, roles: seq<string>) returns (r: Result<seq<Query.Person>>)
      ensures r == Persons(Model(), tag, code, roles)
    {
      var raw := GetDataRecords(tag, code, false);
      if raw.Err? {
        return Err(raw.error);
      }
      var vals := raw.value;
      var parsed: seq<Query.Person> := [];
      var i := 0;
      while i < |vals|
        invariant 0 <= i <= |vals|
        invariant parsed == PersonsOf(vals[..i], roles)
      {
        PersonsOfNext(vals, i, roles);
        if Relevant(vals[i].other, roles) {
          parsed := parsed + [PersonOf(vals[i])];
        } else {
          AppendNil(parsed);
        }
        i := i + 1;
      }
      assert vals[..i] == vals;
      r := Ok(parsed);
    }

    /** `_parseCorporations(datafield, subfield, roles)` */
    method ParseCorporations(tag: string, code: string, roles: seq<string>) returns (r: Result<seq<Query.Corporation>>)
      ensures r == Corporations(Model(), tag, code, roles)
    {
      if |tag| != 3 {
        return Err(ValueError(BadName));
      }
      if |code| != 1 {
        return Err(ValueError(BadSubfieldCode));
      }
      var raw := GetDataRecords(tag, code, false);
      if raw.Err? {
        return Err(raw.error);
      }
      var vals := raw.value;
      var parsed: seq<Query.Corporation> := [];
      var i := 0;
      while i < |vals|
        invariant 0 <= i <= |vals|
        invariant parsed == CorporationsOf(vals[..i], roles)
      {
        CorporationsOfNext(vals, i, roles);
        if Relevant(vals[i].other, roles) {
          parsed := parsed + [CorporationOf(vals[i])];
        } else {
          AppendNil(parsed);
        }
        i := i + 1;
      }
      assert vals[..i] == vals;
      r := Ok(parsed);
    }

    /** `getAuthors` */
    method GetAuthors() returns (r: Result<seq<Query.Person>>)
      ensures r == Authors(Model())
    {
      var a := ParsePersons("100", "a", Query.AuthorRoles);
      if a.Err? {
        return a;
      }
      var b := ParsePersons("600", "a", Query.AuthorRoles);
      if b.Err? {
        return b;
      }
      var c := ParsePersons("700", "a", Query.AuthorRoles);
      if c.Err? {
        return c;
      }
      var d := ParsePersons("800", "a", Query.AuthorRoles);
      if d.Err? {
        return d;
      }
      r := Ok(a.value + b.value + c.value + d.value);
    }

    /** `getCorporations(roles)`; `getDistributors` passes `["dst"]`. */
    method GetCorporations(roles: seq<string>) returns (r: Result<seq<Query.Corporation>>)
      ensures r == AllCorporations(Model(), roles)
    {
      var a := ParseCorporations("110", "a", roles);
      if a.Err? {
        return a;
      }
      var b := ParseCorporations("610", "a", roles);
      if b.Err? {
        return b;
      }
      var c := ParseCorporations("710", "a", roles);
      if c.Err? {
        return c;
      }
      var d := ParseCorporations("810", "a", roles);
      if d.Err? {
        return d;
      }
      r := Ok(a.value + b.value + c.value + d.value);
    }

    /** `__serializeControlFields` */
    method SerializeControlFields() returns (output: string)
      ensures output == CtlFieldsXml(Model())
    {
      var oai, cf := oaiMarc, controlfields;
      var ids := LegacyOrder.Resorted(Keys(cf));
      output := "";
      var i := 0;
      while i < |ids|
        invariant 0 <= i <= |ids|
        invariant output == Serializer.CtlFieldsXmlOf(cf, oai, ids[..i])
      {
        CtlFieldsSnoc(cf, oai, ids, i);
        var id := ids[i];
        if !oai && !IsDigits(id) {
          AppendNil(output);
        } else {
          output := output + Serializer.CtlFieldXml(oai, id, Serializer.ValueOf(cf, id, ""));
        }
        i := i + 1;
      }
      assert ids[..i] == ids;
    }

    /** `__serializeDataSubfields` */
    method SerializeDataSubfields(codes: Codes) returns (output: string)
      ensures output == CodesXml(codes, oaiMarc)
    {
      var oai := oaiMarc;
      var keys := LegacyOrder.Resorted(Keys(codes));
      output := "";
      var i := 0;
      while i < |keys|
        invariant 0 <= i <= |keys|
        invariant output == CodesXmlOf(codes, oai, keys[..i])
      {
        CodesSnoc(codes, oai, keys, i);
        var values := SerializeValues(oai, keys[i], GetList(codes, keys[i]));
        output := output + values;
        i := i + 1;
      }
      assert keys[..i] == keys;
    }

    /** The inner loop of `__serializeDataFields`: the dicts of one tag. */
    method SerializeFields(tag: string, fields: seq<LegacyField>) returns (output: string)
      ensures output == FieldsXml(oaiMarc, tag, fields)
    {
      var oai := oaiMarc;
      output := "";
      var j := 0;
      while j < |fields|
        invariant 0 <= j <= |fields|
        invariant output == FieldsXml(oai, tag, fields[..j])
      {
        FieldsSnoc(oai, tag, fields, j);
        var f := fields[j];
        var content := SerializeDataSubfields(f.codes);
        output := output + Serializer.FieldXml(oai, tag, f.i1, f.i2, content);
        j := j + 1;
      }
      assert fields[..j] == fields;
    }

    /** `__serializeDataFields` */
    method SerializeDataFields() returns (output: string)
      ensures output == DataFieldsXml(Model())
    {
      var tags := LegacyOrder.Resorted(Keys(datafields));
      output := "";
      var i := 0;
      while i < |tags|
        invariant 0 <= i <= |tags|
        invariant output == DataFieldsXmlOf(datafields, oaiMarc, tags[..i])
      {
        DataFieldsSnoc(datafields, oaiMarc, tags, i);
        var fields := SerializeFields(tags[i], GetList(datafields, tags[i]));
        output := output + fields;
        i := i + 1;
      }
      assert tags[..i] == tags;
    }

    /** `toXML` */
    method ToXml() returns (xml: string)
      ensures xml == RecordXml(Model())
    {
      var ctl := SerializeControlFields();
      var data := SerializeDataFields();
      xml := Serializer.Document(oaiMarc, LeaderXml(Model()), ctl, data);
    }
  }
}
