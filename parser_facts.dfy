/** What the parser, the additions and the lookups of parser.py promise,
    stated over the functions of module `Parser`. */
module ParserFacts {
  import opened Wrappers
  import opened Seqs
  import opened Text
  import opened OrderedMaps
  import opened Subrecords
  import opened Elements
  import opened Parser

  // ---------------------------------------------------------------------
  // Control fields

  predicate HasKey(f: Element, tagId: string, k: string) {
    tagId in f.params && f.params[tagId] == k
  }

  /** The last element carrying key `k`. */
  function LastWithKey(fields: seq<Element>, tagId: string, k: string): (r: Option<nat>)
    ensures r.Some? ==> r.value < |fields| && HasKey(fields[r.value], tagId, k)
    ensures r.Some? ==> forall i :: r.value < i < |fields| ==> !HasKey(fields[i], tagId, k)
    ensures r.None? ==> forall i :: 0 <= i < |fields| ==> !HasKey(fields[i], tagId, k)
    decreases |fields|
  {
    if fields == [] then None
    else if HasKey(fields[|fields| - 1], tagId, k) then Some(|fields| - 1)
    else LastWithKey(fields[..|fields| - 1], tagId, k)
  }

  /** Control-field parse: elements without the key attribute change
      nothing, and a key holds the stripped content of the last element
      that carries it; keys no element carries keep their old value. */
  lemma {:induction false} ControlFieldsLastWins(cf: ControlFields, fields: seq<Element>, tagId: string, k: string)
    ensures Get(ParsedControlFields(cf, fields, tagId), k) ==
      match LastWithKey(fields, tagId, k)
      case Some(i) => Some(Strip(fields[i].content))
      case None => Get(cf, k)
    decreases |fields|
  {
    if fields != [] {
      ControlFieldsLastWins(cf, fields[..|fields| - 1], tagId, k);
    }
  }

  // ---------------------------------------------------------------------
  // Subfields of one data field

  predicate Carries(s: Subrecord, i1: string, i2: string, ref: BackRef) {
    s.i1 == i1 && s.i2 == i2 && s.other == ref
  }

  /** Every value in the dict carries these indicators and this reference. */
  ghost predicate AllCarry(subs: seq<(string, seq<Subrecord>)>, i1: string, i2: string, ref: BackRef) {
    forall c, j :: 0 <= j < |GetList(subs, c)| ==> Carries(GetList(subs, c)[j], i1, i2, ref)
  }

  lemma AllCarryAppend(subs: seq<(string, seq<Subrecord>)>, code: string, s: Subrecord, i1: string, i2: string, ref: BackRef)
    requires AllCarry(subs, i1, i2, ref)
    requires Carries(s, i1, i2, ref)
    ensures AllCarry(AppendTo(subs, code, s), i1, i2, ref)
  {
    var r := AppendTo(subs, code, s);
    forall c, j | 0 <= j < |GetList(r, c)| ensures Carries(GetList(r, c)[j], i1, i2, ref) {
      GetListAppendTo(subs, code, s, c);
      if j < |GetList(subs, c)| {
        assert GetList(r, c)[j] == GetList(subs, c)[j];
      }
    }
  }

  predicate Clashes(e: Element, subId: string, oai: bool) {
    subId in e.params && (e.params[subId] == IKey(1, oai) || e.params[subId] == IKey(2, oai))
  }

  /** The stripped contents of the subfield elements with code `code`. */
  function CodeValues(elems: seq<Element>, subId: string, code: string): seq<string>
    decreases |elems|
  {
    if elems == [] then []
    else
      var e := elems[|elems| - 1];
      CodeValues(elems[..|elems| - 1], subId, code) + (if HasKey(e, subId, code) then [Strip(e.content)] else [])
  }

  /** Subfield parse fails exactly when some code names an indicator key
      of the field, and then with `AttributeError`. */
  lemma {:induction false} SubfieldsOutcome(elems: seq<Element>, subId: string, oai: bool, i1: string, i2: string, ref: BackRef)
    ensures var r := ParsedSubfields(elems, subId, oai, i1, i2, ref);
      (r.Ok? <==> forall i :: 0 <= i < |elems| ==> !Clashes(elems[i], subId, oai)) &&
      (r.Err? ==> r.error == AttributeError(IndicatorCodeClash))
    decreases |elems|
  {
    if elems != [] {
      SubfieldsOutcome(elems[..|elems| - 1], subId, oai, i1, i2, ref);
    }
  }

  /** Every parsed value carries the field's indicators and reference, and
      the dict has each code once. */
  lemma {:induction false} SubfieldsCarry(elems: seq<Element>, subId: string, oai: bool, i1: string, i2: string, ref: BackRef)
    ensures var r := ParsedSubfields(elems, subId, oai, i1, i2, ref);
      r.Ok? ==> AllCarry(r.value, i1, i2, ref) && UniqueKeys(r.value)
    decreases |elems|
  {
    if elems != [] {
      var prefix := elems[..|elems| - 1];
      var e := elems[|elems| - 1];
      SubfieldsCarry(prefix, subId, oai, i1, i2, ref);
      var p := ParsedSubfields(prefix, subId, oai, i1, i2, ref);
      if p.Ok? && subId in e.params && !Clashes(e, subId, oai) {
        AllCarryAppend(p.value, e.params[subId], Subrecord(Strip(e.content), i1, i2, ref), i1, i2, ref);
      }
    }
  }

  /** Each code holds the stripped values of its elements in document order. */
  lemma {:induction false} SubfieldsValues(elems: seq<Element>, subId: string, oai: bool, i1: string, i2: string, ref: BackRef, c: string)
    ensures var r := ParsedSubfields(elems, subId, oai, i1, i2, ref);
      r.Ok? ==> Values(GetList(r.value, c)) == CodeValues(elems, subId, c)
    decreases |elems|
  {
    if elems != [] {
      var prefix := elems[..|elems| - 1];
      var e := elems[|elems| - 1];
      SubfieldsValues(prefix, subId, oai, i1, i2, ref, c);
      var p := ParsedSubfields(prefix, subId, oai, i1, i2, ref);
      if p.Ok? && subId in e.params && !Clashes(e, subId, oai) {
        ValuesAppendTo(p.value, e.params[subId], Subrecord(Strip(e.content), i1, i2, ref), c);
      }
    }
  }

  lemma ValuesAppendTo(subs: seq<(string, seq<Subrecord>)>, code: string, s: Subrecord, c: string)
    ensures Values(GetList(AppendTo(subs, code, s), c)) == Values(GetList(subs, c)) + if c == code then [s.val] else []
  {
    GetListAppendTo(subs, code, s, c);
    ValuesConcat(GetList(subs, c), if c == code then [s] else []);
  }

  // ---------------------------------------------------------------------
  // Data fields

  /** A field element one of whose subfields names an indicator key. */
  predicate FieldClashes(f: Element, subId: string, oai: bool) {
    exists j :: 0 <= j < |f.subfields| && Clashes(f.subfields[j], subId, oai)
  }

  /** One field element parses exactly when none of its codes clashes. */
  lemma FieldOutcome(f: Element, oai: bool, subId: string, ref: BackRef)
    ensures ParsedField(f, oai, subId, ref).Ok? <==> !FieldClashes(f, subId, oai)
    ensures ParsedField(f, oai, subId, ref).Err? ==>
              ParsedField(f, oai, subId, ref).error == AttributeError(IndicatorCodeClash)
  {
    SubfieldsOutcome(f.subfields, subId, oai, ParamOr(f.params, IKey(1, oai), " "), ParamOr(f.params, IKey(2, oai), " "), ref);
  }

  /** The elements of tag `t`, in document order. */
  function Tagged(fields: seq<Element>, tagId: string, t: string): seq<Element>
    decreases |fields|
  {
    if fields == [] then []
    else
      var f := fields[|fields| - 1];
      Tagged(fields[..|fields| - 1], tagId, t) + (if HasKey(f, tagId, t) then [f] else [])
  }

  /** No element carrying a tag has a clashing code. */
  ghost predicate NoClash(fields: seq<Element>, tagId: string, subId: string, oai: bool) {
    forall i :: 0 <= i < |fields| && tagId in fields[i].params ==> !FieldClashes(fields[i], subId, oai)
  }

  lemma NoClashPrefix(fields: seq<Element>, tagId: string, subId: string, oai: bool)
    requires fields != []
    ensures NoClash(fields, tagId, subId, oai) <==>
      NoClash(fields[..|fields| - 1], tagId, subId, oai) &&
      (tagId in fields[|fields| - 1].params ==> !FieldClashes(fields[|fields| - 1], subId, oai))
  {
    var prefix := fields[..|fields| - 1];
    assert forall i :: 0 <= i < |prefix| ==> prefix[i] == fields[i];
    if NoClash(prefix, tagId, subId, oai) && (tagId in fields[|fields| - 1].params ==> !FieldClashes(fields[|fields| - 1], subId, oai)) {
      forall i | 0 <= i < |fields| && tagId in fields[i].params ensures !FieldClashes(fields[i], subId, oai) {
        if i < |prefix| {
          assert fields[i] == prefix[i];
        }
      }
    }
  }

  /** Data-field parse fails exactly when some element with a tag has a
      clashing code, and then with `AttributeError`. */
  lemma {:induction false} DataFieldsOutcome(df: DataFields, fields: seq<Element>, oai: bool, tagId: string, subId: string)
    ensures var out := ParsedDataFields(df, fields, oai, tagId, subId).1;
      (out.Pass? <==> NoClash(fields, tagId, subId, oai)) &&
      (out.Fail? ==> out.error == AttributeError(IndicatorCodeClash))
    decreases |fields|
  {
    if fields != [] {
      var prefix := fields[..|fields| - 1];
      var f := fields[|fields| - 1];
      DataFieldsOutcome(df, prefix, oai, tagId, subId);
      NoClashPrefix(fields, tagId, subId, oai);
      var prev := ParsedDataFields(df, prefix, oai, tagId, subId).0;
      if tagId in f.params {
        FieldOutcome(f, oai, subId, FieldRef(f.params[tagId], |GetList(prev, f.params[tagId])|));
      }
    }
  }

  /** The data-field parse keeps the fields stored before it. */
  lemma {:induction false} DataFieldsKeep(df: DataFields, fields: seq<Element>, oai: bool, tagId: string, subId: string, t: string)
    ensures var r := ParsedDataFields(df, fields, oai, tagId, subId).0;
      |GetList(df, t)| <= |GetList(r, t)| && GetList(r, t)[..|GetList(df, t)|] == GetList(df, t)
    decreases |fields|
  {
    if fields != [] {
      var prefix := fields[..|fields| - 1];
      var f := fields[|fields| - 1];
      DataFieldsKeep(df, prefix, oai, tagId, subId, t);
      var prev := ParsedDataFields(df, prefix, oai, tagId, subId).0;
      var out := ParsedDataFields(df, prefix, oai, tagId, subId).1;
      if out.Pass? && tagId in f.params {
        var tag := f.params[tagId];
        var res := ParsedField(f, oai, subId, FieldRef(tag, |GetList(prev, tag)|));
        if res.Ok? {
          GetListAppendTo(prev, tag, res.value, t);
        }
      }
    }
  }

  /** The parses of the elements of one tag, the `j`-th with a reference
      to place `n0 + j` of the tag's list. */
  function TagFields(es: seq<Element>, oai: bool, subId: string, t: string, n0: nat): (r: Result<seq<Field>>)
    ensures r.Ok? ==> |r.value| == |es|
    decreases |es|
  {
    if es == [] then Ok([])
    else
      match TagFields(es[..|es| - 1], oai, subId, t, n0)
      case Err(e) => Err(e)
      case Ok(fs) =>
        match ParsedField(es[|es| - 1], oai, subId, FieldRef(t, n0 + |es| - 1))
        case Err(e) => Err(e)
        case Ok(f) => Ok(fs + [f])
  }

  lemma TagFieldsSnoc(es: seq<Element>, f: Element, oai: bool, subId: string, t: string, n0: nat, field: Field)
    requires TagFields(es, oai, subId, t, n0).Ok?
    requires ParsedField(f, oai, subId, FieldRef(t, n0 + |es|)) == Ok(field)
    ensures TagFields(es + [f], oai, subId, t, n0) == Ok(TagFields(es, oai, subId, t, n0).value + [field])
  {
    var es' := es + [f];
    assert es'[..|es'| - 1] == es && es'[|es'| - 1] == f;
  }

  /** The `j`-th of the fields is the parse of the `j`-th element. */
  lemma {:induction false} TagFieldsAt(es: seq<Element>, oai: bool, subId: string, t: string, n0: nat, j: nat)
    requires TagFields(es, oai, subId, t, n0).Ok? && j < |es|
    ensures ParsedField(es[j], oai, subId, FieldRef(t, n0 + j)) == Ok(TagFields(es, oai, subId, t, n0).value[j])
    decreases |es|
  {
    if j < |es| - 1 {
      TagFieldsAt(es[..|es| - 1], oai, subId, t, n0, j);
    }
  }

  /** The fields after one more data field element. */
  function DataFieldStep(prev: DataFields, f: Element, oai: bool, tagId: string, subId: string): DataFields {
    if tagId !in f.params then prev
    else
      var tag := f.params[tagId];
      match ParsedField(f, oai, subId, FieldRef(tag, |GetList(prev, tag)|))
      case Err(_) => prev
      case Ok(field) => AppendTo(prev, tag, field)
  }

  lemma DataFieldsLast(df: DataFields, fields: seq<Element>, oai: bool, tagId: string, subId: string)
    requires fields != [] && ParsedDataFields(df, fields, oai, tagId, subId).1.Pass?
    ensures ParsedDataFields(df, fields[..|fields| - 1], oai, tagId, subId).1.Pass?
    ensures ParsedDataFields(df, fields, oai, tagId, subId).0 ==
      DataFieldStep(ParsedDataFields(df, fields[..|fields| - 1], oai, tagId, subId).0, fields[|fields| - 1], oai, tagId, subId)
    ensures tagId in fields[|fields| - 1].params ==>
      var prev := ParsedDataFields(df, fields[..|fields| - 1], oai, tagId, subId).0;
      var tag := fields[|fields| - 1].params[tagId];
      ParsedField(fields[|fields| - 1], oai, subId, FieldRef(tag, |GetList(prev, tag)|)).Ok?
  {
  }

  lemma OfTagStep(prev: DataFields, f: Element, oai: bool, tagId: string, subId: string, t: string,
                  es: seq<Element>, base: seq<Field>)
    requires TagFields(es, oai, subId, t, |base|).Ok?
    requires GetList(prev, t) == base + TagFields(es, oai, subId, t, |base|).value
    requires tagId in f.params ==>
      ParsedField(f, oai, subId, FieldRef(f.params[tagId], |GetList(prev, f.params[tagId])|)).Ok?
    ensures var es' := es + (if HasKey(f, tagId, t) then [f] else []);
      TagFields(es', oai, subId, t, |base|).Ok? &&
      GetList(DataFieldStep(prev, f, oai, tagId, subId), t) == base + TagFields(es', oai, subId, t, |base|).value
  {
    if tagId in f.params {
      var tag := f.params[tagId];
      var res := ParsedField(f, oai, subId, FieldRef(tag, |GetList(prev, tag)|));
      if tag == t {
        OfTagStepSame(prev, f, oai, subId, t, es, base, res.value);
      } else {
        GetListAppendTo(prev, tag, res.value, t);
        assert es + [] == es;
      }
    } else {
      assert es + [] == es;
    }
  }

  lemma OfTagStepSame(prev: DataFields, f: Element, oai: bool, subId: string, t: string,
                      es: seq<Element>, base: seq<Field>, field: Field)
    requires TagFields(es, oai, subId, t, |base|).Ok?
    requires GetList(prev, t) == base + TagFields(es, oai, subId, t, |base|).value
    requires ParsedField(f, oai, subId, FieldRef(t, |GetList(prev, t)|)) == Ok(field)
    ensures TagFields(es + [f], oai, subId, t, |base|).Ok?
    ensures GetList(AppendTo(prev, t, field), t) == base + TagFields(es + [f], oai, subId, t, |base|).value
  {
    var before := TagFields(es, oai, subId, t, |base|).value;
    assert |GetList(prev, t)| == |base| + |es|;
    TagFieldsSnoc(es, f, oai, subId, t, |base|, field);
    GetListAppendTo(prev, t, field, t);
    AppendAssoc(base, before, [field]);
  }

  /** After a whole pass a tag holds its old fields and then one new field
      per element carrying it, in document order, each the parse of its
      element with a reference to its own place in the tag's list. */
  lemma {:induction false} DataFieldsOfTag(df: DataFields, fields: seq<Element>, oai: bool, tagId: string, subId: string, t: string)
    requires ParsedDataFields(df, fields, oai, tagId, subId).1.Pass?
    ensures TagFields(Tagged(fields, tagId, t), oai, subId, t, |GetList(df, t)|).Ok?
    ensures GetList(ParsedDataFields(df, fields, oai, tagId, subId).0, t) ==
      GetList(df, t) + TagFields(Tagged(fields, tagId, t), oai, subId, t, |GetList(df, t)|).value
    decreases |fields|
  {
    if fields != [] {
      var prefix := fields[..|fields| - 1];
      DataFieldsLast(df, fields, oai, tagId, subId);
      DataFieldsOfTag(df, prefix, oai, tagId, subId, t);
      OfTagStep(ParsedDataFields(df, prefix, oai, tagId, subId).0, fields[|fields| - 1], oai, tagId, subId, t,
                Tagged(prefix, tagId, t), GetList(df, t));
    }
  }

  /** Every value of every stored field carries the field's indicators and
      a reference to that field: its tag and its place in the tag's list. */
  ghost predicate WellFormed(df: DataFields) {
    forall t, k :: 0 <= k < |GetList(df, t)| ==>
      AllCarry(GetList(df, t)[k].subs, GetList(df, t)[k].i1, GetList(df, t)[k].i2, FieldRef(t, k))
  }

  lemma WellFormedAppend(df: DataFields, tag: string, f: Field)
    requires WellFormed(df)
    requires AllCarry(f.subs, f.i1, f.i2, FieldRef(tag, |GetList(df, tag)|))
    ensures WellFormed(AppendTo(df, tag, f))
  {
    var r := AppendTo(df, tag, f);
    forall t, k | 0 <= k < |GetList(r, t)|
      ensures AllCarry(GetList(r, t)[k].subs, GetList(r, t)[k].i1, GetList(r, t)[k].i2, FieldRef(t, k))
    {
      GetListAppendTo(df, tag, f, t);
      if k < |GetList(df, t)| {
        assert GetList(r, t)[k] == GetList(df, t)[k];
      }
    }
  }

  /** One parsed field element carries its own indicators and reference. */
  lemma FieldCarries(f: Element, oai: bool, subId: string, ref: BackRef)
    ensures var r := ParsedField(f, oai, subId, ref);
      r.Ok? ==> AllCarry(r.value.subs, r.value.i1, r.value.i2, ref) && r.value.indKeysOai == oai
  {
    SubfieldsCarry(f.subfields, subId, oai, ParamOr(f.params, IKey(1, oai), " "), ParamOr(f.params, IKey(2, oai), " "), ref);
  }

  /** The data-field parse keeps the data fields well formed, whether it
      finishes or stops at an error. */
  lemma {:induction false} DataFieldsWellFormed(df: DataFields, fields: seq<Element>, oai: bool, tagId: string, subId: string)
    requires WellFormed(df)
    ensures WellFormed(ParsedDataFields(df, fields, oai, tagId, subId).0)
    decreases |fields|
  {
    if fields != [] {
      var f := fields[|fields| - 1];
      DataFieldsWellFormed(df, fields[..|fields| - 1], oai, tagId, subId);
      var (prev, out) := ParsedDataFields(df, fields[..|fields| - 1], oai, tagId, subId);
      if out.Pass? && tagId in f.params {
        var tag := f.params[tagId];
        var ref := FieldRef(tag, |GetList(prev, tag)|);
        FieldCarries(f, oai, subId, ref);
        var res := ParsedField(f, oai, subId, ref);
        if res.Ok? {
          WellFormedAppend(prev, tag, res.value);
        }
      }
    }
  }

  /** One field element: a missing indicator attribute reads as " ", the
      dict is stored under the dialect's indicator keys, every code holds
      the stripped values of its subfields in document order, and every
      value carries the field's indicators and reference. */
  lemma FieldParsed(f: Element, oai: bool, subId: string, ref: BackRef, c: string)
    ensures var r := ParsedField(f, oai, subId, ref);
      (r.Ok? <==> !FieldClashes(f, subId, oai)) &&
      (r.Ok? ==>
        r.value.i1 == (if IKey(1, oai) in f.params then f.params[IKey(1, oai)] else " ") &&
        r.value.i2 == (if IKey(2, oai) in f.params then f.params[IKey(2, oai)] else " ") &&
        r.value.indKeysOai == oai &&
        UniqueKeys(r.value.subs) &&
        AllCarry(r.value.subs, r.value.i1, r.value.i2, ref) &&
        Values(GetList(r.value.subs, c)) == CodeValues(f.subfields, subId, c))
  {
    var i1 := ParamOr(f.params, IKey(1, oai), " ");
    var i2 := ParamOr(f.params, IKey(2, oai), " ");
    FieldOutcome(f, oai, subId, ref);
    SubfieldsCarry(f.subfields, subId, oai, i1, i2, ref);
    SubfieldsValues(f.subfields, subId, oai, i1, i2, ref, c);
  }

  // ---------------------------------------------------------------------
  // The record

  /** The dialect's element and attribute names. */
  function DataElements(rec: RecordElement): seq<Element> {
    if |rec.oaiMarc| > 0 then rec.varfield else rec.datafield
  }

  function TagAttr(oai: bool): string {
    if oai then "id" else "tag"
  }

  function CodeAttr(oai: bool): string {
    if oai then "label" else "code"
  }

  /** A document without a record fails with `ValueError` and changes
      nothing; otherwise the dialect is OAI-MARC exactly when the first
      record has an `oai_marc` element, and the parse fails exactly when a
      field has a code naming an indicator key. */
  lemma RecordOutcome(m: RecordModel, doc: seq<RecordElement>)
    ensures doc == [] ==> ParsedRecord(m, doc) == (m, Fail(ValueError(NoRecord)))
    ensures doc != [] ==>
      var (r, out) := ParsedRecord(m, doc);
      var oai := |doc[0].oaiMarc| > 0;
      r.oaiMarc == oai &&
      (out.Pass? <==> NoClash(DataElements(doc[0]), TagAttr(oai), CodeAttr(oai), oai)) &&
      (out.Fail? ==> out.error == AttributeError(IndicatorCodeClash))
  {
    if doc != [] {
      var rec := doc[0];
      var oai := |rec.oaiMarc| > 0;
      DataFieldsOutcome(m.datafields, DataElements(rec), oai, TagAttr(oai), CodeAttr(oai));
    }
  }

  /** The leader: in MARC 21 the first `leader` element, when there is one;
      in OAI-MARC, after a whole parse, the stripped content of the last
      `LDR` fixfield, else the `LDR` control field held before, else the
      old leader. */
  lemma RecordLeader(m: RecordModel, doc: seq<RecordElement>)
    requires doc != []
    ensures var (r, out) := ParsedRecord(m, doc);
      var rec := doc[0];
      (|rec.oaiMarc| == 0 ==>
        r.leader == if |rec.leader| >= 1 then Some(rec.leader[0].content) else m.leader) &&
      (|rec.oaiMarc| > 0 && out.Pass? ==>
        r.leader == match LastWithKey(rec.fixfield, "id", "LDR")
                    case Some(i) => Some(Strip(rec.fixfield[i].content))
                    case None => if "LDR" in Keys(m.controlfields) then Get(m.controlfields, "LDR") else m.leader)
  {
    var rec := doc[0];
    if |rec.oaiMarc| > 0 {
      ControlFieldsLastWins(m.controlfields, rec.fixfield, "id", "LDR");
    }
  }

  /** Control fields of the record: a key holds the stripped content of
      the last element of the dialect carrying it, or its old value. */
  lemma RecordControlFields(m: RecordModel, doc: seq<RecordElement>, k: string)
    requires doc != []
    ensures var rec := doc[0];
      var elems := if |rec.oaiMarc| > 0 then rec.fixfield else rec.controlfield;
      var tagId := TagAttr(|rec.oaiMarc| > 0);
      Get(ParsedRecord(m, doc).0.controlfields, k) ==
        match LastWithKey(elems, tagId, k)
        case Some(i) => Some(Strip(elems[i].content))
        case None => Get(m.controlfields, k)
  {
    var rec := doc[0];
    var oai := |rec.oaiMarc| > 0;
    ControlFieldsLastWins(m.controlfields, if oai then rec.fixfield else rec.controlfield, TagAttr(oai), k);
  }

  /** The parse keeps the data fields well formed. */
  lemma RecordWellFormed(m: RecordModel, doc: seq<RecordElement>)
    requires WellFormed(m.datafields)
    ensures WellFormed(ParsedRecord(m, doc).0.datafields)
  {
    if doc != [] {
      var rec := doc[0];
      var oai := |rec.oaiMarc| > 0;
      DataFieldsWellFormed(m.datafields, DataElements(rec), oai, TagAttr(oai), CodeAttr(oai));
    }
  }

  /** A new object is well formed. */
  lemma BlankWellFormed()
    ensures WellFormed(Blank.datafields)
  {
  }

  // ---------------------------------------------------------------------
  // Additions

  /** A control field added is read back, whatever the fallback. */
  lemma CtlFieldRoundTrip(m: RecordModel, name: string, value: string, alt: Option<string>)
    requires |name| == 3
    ensures GetCtlField(WithCtlField(m, name, value).value, name, alt) == Ok(value)
  {
    assert name in Keys(WithCtlField(m, name, value).value.controlfields);
  }

  /** The additions of the unit tests: a new key, an overwrite that keeps
      one entry, a short name refused. */
  lemma CtlFieldExamples()
    ensures WithCtlField(Blank, "ASD", "Hello") == Ok(Blank.(controlfields := [("ASD", "Hello")]))
    ensures WithCtlField(WithCtlField(Blank, "ASD", "Hello").value, "ASD", "Hi")
            == Ok(Blank.(controlfields := [("ASD", "Hi")]))
    ensures WithCtlField(Blank, "A", "Hello") == Err(ValueError(BadName))
    ensures GetCtlField(Blank, "azgabash", Some("xe")) == Ok("xe")
    ensures GetCtlField(Blank, "azgabash", None) == Err(KeyError(MissingKey))
  {
    var cf: ControlFields := [("ASD", "Hello")];
    assert WithCtlField(Blank, "ASD", "Hello").value.controlfields == cf;
    assert Find(cf, "ASD") == Some(0);
    assert Put(cf, "ASD", "Hi") == [("ASD", "Hi")];
  }

  /** The value lists of a dict whose keys are unique have its keys, in
      order. */
  lemma {:induction false} SubrecordListsKeys(items: seq<(string, ArgValue)>, i1: string, i2: string, ref: BackRef)
    requires UniqueKeys(items)
    ensures Keys(SubrecordLists(items, i1, i2, ref)) == Keys(items)
    ensures UniqueKeys(SubrecordLists(items, i1, i2, ref))
    decreases |items|
  {
    if items != [] {
      var prefix := items[..|items| - 1];
      var last := items[|items| - 1];
      assert items == prefix + [last];
      assert UniqueKeys(prefix);
      SubrecordListsKeys(prefix, i1, i2, ref);
      assert Keys(items) == Keys(prefix) + [last.0];
      assert last.0 !in Keys(prefix);
    }
  }

  /** Each key holds its wrapped value turned into subrecords. */
  lemma {:induction false} SubrecordListsContent(items: seq<(string, ArgValue)>, i1: string, i2: string, ref: BackRef, c: string)
    requires UniqueKeys(items)
    ensures GetList(SubrecordLists(items, i1, i2, ref), c) ==
      match Get(items, c)
      case None => []
      case Some(v) => ToSubrecords(Wrapped(v), i1, i2, ref)
    decreases |items|
  {
    if items != [] {
      var prefix := items[..|items| - 1];
      var last := items[|items| - 1];
      assert items == prefix + [last];
      assert UniqueKeys(prefix);
      SubrecordListsContent(prefix, i1, i2, ref, c);
      assert last.0 !in Keys(prefix);
      PutMissing(prefix, last.0, last.1);
      GetListPut(SubrecordLists(prefix, i1, i2, ref), last.0, ToSubrecords(Wrapped(last.1), i1, i2, ref), c);
    }
  }

  /** Every value of the new field carries its indicators and reference. */
  lemma SubrecordListsCarry(items: seq<(string, ArgValue)>, i1: string, i2: string, ref: BackRef)
    requires UniqueKeys(items)
    ensures AllCarry(SubrecordLists(items, i1, i2, ref), i1, i2, ref)
  {
    var subs := SubrecordLists(items, i1, i2, ref);
    forall c, j | 0 <= j < |GetList(subs, c)| ensures Carries(GetList(subs, c)[j], i1, i2, ref) {
      SubrecordListsContent(items, i1, i2, ref, c);
    }
  }

  /** A successful addition appends one field to its tag and changes no
      other tag; the field holds the indicators, under the dialect's key
      names, and the dict's values wrapped in lists. */
  lemma AddedField(m: RecordModel, name: string, i1: string, i2: string, arg: SubfieldsArg, t: string)
    requires WithDataField(m, name, i1, i2, arg).Ok?
    ensures var r := WithDataField(m, name, i1, i2, arg).value;
      GetList(r.datafields, t) == GetList(m.datafields, t) +
        if t == name then [Field(i1, i2, m.oaiMarc, SubrecordLists(arg.items, i1, i2, FieldRef(name, |GetList(m.datafields, name)|)))]
        else []
  {
    var f := Field(i1, i2, m.oaiMarc, SubrecordLists(arg.items, i1, i2, FieldRef(name, |GetList(m.datafields, name)|)));
    GetListAppendTo(m.datafields, name, f, t);
  }

  /** A failed addition leaves the record as it was. */
  lemma FailedAdditionChangesNothing(m: RecordModel, name: string, i1: string, i2: string, arg: SubfieldsArg)
    requires CheckDataField(name, i1, i2, arg).Fail?
    ensures Apply(m, WithDataField(m, name, i1, i2, arg)) == m
    ensures Apply(m, WithDataFieldAsWritten(m, name, i1, i2, arg)) == m
  {
  }

  /** The addition keeps the data fields well formed: the new values point
      back at the new field. */
  lemma AddedFieldWellFormed(m: RecordModel, name: string, i1: string, i2: string, items: seq<(string, ArgValue)>)
    requires WellFormed(m.datafields) && UniqueKeys(items)
    requires WithDataField(m, name, i1, i2, Dict(items)).Ok?
    ensures WellFormed(WithDataField(m, name, i1, i2, Dict(items)).value.datafields)
  {
    var ref := FieldRef(name, |GetList(m.datafields, name)|);
    SubrecordListsCarry(items, i1, i2, ref);
    WellFormedAppend(m.datafields, name, Field(i1, i2, m.oaiMarc, SubrecordLists(items, i1, i2, ref)));
  }

  /** The error cases of the unit tests, in the order the checks run. */
  lemma DataFieldErrors()
    ensures CheckDataField("OST", " ", " ", NotDict(false)) == Fail(ValueError(EmptySubfields))
    ensures CheckDataField("OST", " ", " ", Dict([])) == Fail(ValueError(EmptySubfields))
    ensures CheckDataField("O", " ", " ", Dict([("a", Scalar("bbb"))])) == Fail(ValueError(BadName))
    ensures CheckDataField("OST", "z", " ", Dict([("a", Scalar("bbb"))])) == Fail(ValueError(BadIndicator1))
    ensures CheckDataField("OST", " ", "z", Dict([("a", Scalar("bbb"))])) == Fail(ValueError(BadIndicator2))
    ensures CheckDataField("OST", " ", " ", NotDict(true)) == Fail(ValueError(NotADict))
    ensures CheckDataField("OST", " ", " ", Dict([("ab", Scalar("bbb"))])) == Fail(KeyError(LongSubfieldKey))
  {
    assert |Dict([("ab", Scalar("bbb"))]).items[0].0| > 1;
  }

  // ---------------------------------------------------------------------
  // Lookups

  /** The indicator filter on a field's own indicators. */
  predicate IndicatorsPass(i1: string, i2: string, fi1: Option<string>, fi2: Option<string>) {
    (!Truthy(fi1) || i1 == fi1.value) && (!Truthy(fi2) || i2 == fi2.value)
  }

  /** A value is kept by the filter exactly when it is in the list and
      passes it; the filter keeps the order. */
  lemma {:induction false} MatchingMembers(vals: seq<Subrecord>, fi1: Option<string>, fi2: Option<string>, s: Subrecord)
    ensures s in Matching(vals, fi1, fi2) <==> s in vals && Passes(s, fi1, fi2)
    decreases |vals|
  {
    if vals != [] {
      var prefix := vals[..|vals| - 1];
      MatchingMembers(prefix, fi1, fi2, s);
      assert vals == prefix + [vals[|vals| - 1]];
    }
  }

  /** When every value passes the filter, all are kept. */
  lemma {:induction false} MatchingAll(vals: seq<Subrecord>, fi1: Option<string>, fi2: Option<string>)
    requires forall j :: 0 <= j < |vals| ==> Passes(vals[j], fi1, fi2)
    ensures Matching(vals, fi1, fi2) == vals
    decreases |vals|
  {
    if vals != [] {
      var prefix := vals[..|vals| - 1];
      MatchingAll(prefix, fi1, fi2);
      assert vals == prefix + [vals[|vals| - 1]];
    }
  }

  /** When no value passes the filter, none is kept. */
  lemma {:induction false} MatchingNone(vals: seq<Subrecord>, fi1: Option<string>, fi2: Option<string>)
    requires forall j :: 0 <= j < |vals| ==> !Passes(vals[j], fi1, fi2)
    ensures Matching(vals, fi1, fi2) == []
    decreases |vals|
  {
    if vals != [] {
      MatchingNone(vals[..|vals| - 1], fi1, fi2);
      AppendNil<Subrecord>([]);
    }
  }

  /** When every value of a list has the same indicators, the filter keeps
      all of them or none. */
  lemma MatchingUniform(vals: seq<Subrecord>, i1: string, i2: string, fi1: Option<string>, fi2: Option<string>)
    requires forall j :: 0 <= j < |vals| ==> vals[j].i1 == i1 && vals[j].i2 == i2
    ensures Matching(vals, fi1, fi2) == if IndicatorsPass(i1, i2, fi1, fi2) then vals else []
  {
    if IndicatorsPass(i1, i2, fi1, fi2) {
      MatchingAll(vals, fi1, fi2);
    } else {
      MatchingNone(vals, fi1, fi2);
    }
  }

  lemma CollectedSnoc(fields: seq<Field>, f: Field, code: string, fi1: Option<string>, fi2: Option<string>)
    ensures Collected(fields + [f], code, fi1, fi2) ==
      Collected(fields, code, fi1, fi2) + if code in Keys(f.subs) then Matching(GetList(f.subs, code), fi1, fi2) else []
  {
    assert (fields + [f])[..|fields|] == fields;
  }

  /** Field `f` holds `s` among its values of `code`. */
  predicate Holds(f: Field, code: string, s: Subrecord) {
    code in Keys(f.subs) && s in GetList(f.subs, code)
  }

  lemma HoldsSnoc(prefix: seq<Field>, f: Field, code: string, s: Subrecord)
    ensures (exists j :: 0 <= j < |prefix + [f]| && Holds((prefix + [f])[j], code, s)) <==>
      (exists j :: 0 <= j < |prefix| && Holds(prefix[j], code, s)) || Holds(f, code, s)
  {
    var fields := prefix + [f];
    if exists j :: 0 <= j < |fields| && Holds(fields[j], code, s) {
      var j :| 0 <= j < |fields| && Holds(fields[j], code, s);
      if j < |prefix| {
        assert Holds(prefix[j], code, s);
      }
    }
    if exists j :: 0 <= j < |prefix| && Holds(prefix[j], code, s) {
      var j :| 0 <= j < |prefix| && Holds(prefix[j], code, s);
      assert Holds(fields[j], code, s);
    }
    assert Holds(fields[|prefix|], code, s) == Holds(f, code, s);
  }

  /** A value is collected exactly when some field of the list holds it
      under the code and it passes the filter. */
  lemma {:induction false} CollectedMembers(fields: seq<Field>, code: string, fi1: Option<string>, fi2: Option<string>,
                                            s: Subrecord)
    ensures s in Collected(fields, code, fi1, fi2) <==>
      (exists j :: 0 <= j < |fields| && Holds(fields[j], code, s)) && Passes(s, fi1, fi2)
    decreases |fields|
  {
    if fields != [] {
      var prefix := fields[..|fields| - 1];
      var f := fields[|fields| - 1];
      CollectedMembers(prefix, code, fi1, fi2, s);
      MatchingMembers(GetList(f.subs, code), fi1, fi2, s);
      HoldsSnoc(prefix, f, code, s);
      assert fields == prefix + [f];
    }
  }

  /** What is added is what `get_subfields` then finds: after the values
      found before, the new field's values of the code, when its
      indicators pass the filter. */
  lemma AddThenGet(m: RecordModel, name: string, i1: string, i2: string, items: seq<(string, ArgValue)>,
                   code: string, fi1: Option<string>, fi2: Option<string>)
    requires UniqueKeys(items) && |code| == 1
    requires WithDataField(m, name, i1, i2, Dict(items)).Ok?
    ensures var ref := FieldRef(name, |GetList(m.datafields, name)|);
      Subfields(WithDataField(m, name, i1, i2, Dict(items)).value, name, code, fi1, fi2, false) ==
      Ok(Collected(GetList(m.datafields, name), code, fi1, fi2) +
         match Get(items, code)
         case Some(v) => if IndicatorsPass(i1, i2, fi1, fi2) then ToSubrecords(Wrapped(v), i1, i2, ref) else []
         case None => [])
  {
    var ref := FieldRef(name, |GetList(m.datafields, name)|);
    var f := Field(i1, i2, m.oaiMarc, SubrecordLists(items, i1, i2, ref));
    AddedField(m, name, i1, i2, Dict(items), name);
    CollectedSnoc(GetList(m.datafields, name), f, code, fi1, fi2);
    SubrecordListsContent(items, i1, i2, ref, code);
    MatchingUniform(GetList(f.subs, code), i1, i2, fi1, fi2);
  }

  /** The fields of the unit tests with two additions to one tag. */
  const ValueA := Subrecord("aaa", " ", " ", FieldRef("OST", 0))
  const ValueB := Subrecord("bbb", "1", "2", FieldRef("OST", 1))
  const First := Field(" ", " ", false, [("a", [ValueA])])
  const Second := Field("1", "2", false, [("a", [ValueB])])

  /** A one-item dict with a scalar value is stored as one list of one. */
  lemma OneItemLists(k: string, v: string, i1: string, i2: string, ref: BackRef)
    ensures SubrecordLists([(k, Scalar(v))], i1, i2, ref) == [(k, [Subrecord(v, i1, i2, ref)])]
  {
    var items := [(k, Scalar(v))];
    assert items[..0] == [];
    assert ToSubrecords([v], i1, i2, ref) == [Subrecord(v, i1, i2, ref)];
  }

  /** Adding a one-item dict with a scalar value appends one field that
      holds a list of one value, pointing back at that field. */
  lemma AddOneItem(m: RecordModel, name: string, i1: string, i2: string, k: string, v: string)
    requires ValidIndicator(i1) && ValidIndicator(i2) && |name| == 3 && |k| <= 1
    ensures var ref := FieldRef(name, |GetList(m.datafields, name)|);
      WithDataField(m, name, i1, i2, Dict([(k, Scalar(v))])) ==
      Ok(m.(datafields := AppendTo(m.datafields, name, Field(i1, i2, m.oaiMarc, [(k, [Subrecord(v, i1, i2, ref)])]))))
  {
    var items := [(k, Scalar(v))];
    assert items[0].0 == k;
    assert CheckDataField(name, i1, i2, Dict(items)) == Pass;
    OneItemLists(k, v, i1, i2, FieldRef(name, |GetList(m.datafields, name)|));
  }

  /** The unit test with one added field. */
  lemma AddOneFieldExample()
    ensures WithDataField(Blank, "OST", " ", " ", Dict([("a", Scalar("1"))])) ==
      Ok(Blank.(datafields := [("OST", [Field(" ", " ", false, [("a", [Subrecord("1", " ", " ", FieldRef("OST", 0))])])])]))
  {
    var f := Field(" ", " ", false, [("a", [Subrecord("1", " ", " ", FieldRef("OST", 0))])]);
    AddOneItem(Blank, "OST", " ", " ", "a", "1");
    AppendToMissing(Blank.datafields, "OST", f);
    assert [] + [("OST", [f])] == [("OST", [f])];
  }

  /** The two additions of the unit test, one after the other. */
  lemma AddFirstExample()
    ensures WithDataField(Blank, "OST", " ", " ", Dict([("a", Scalar("aaa"))])) ==
      Ok(Blank.(datafields := [("OST", [First])]))
  {
    AddOneItem(Blank, "OST", " ", " ", "a", "aaa");
    AppendToMissing(Blank.datafields, "OST", First);
    assert [] + [("OST", [First])] == [("OST", [First])];
  }

  lemma AddSecondExample()
    ensures WithDataField(Blank.(datafields := [("OST", [First])]), "OST", "1", "2", Dict([("a", Scalar("bbb"))])) ==
      Ok(Blank.(datafields := [("OST", [First, Second])]))
  {
    var m1 := Blank.(datafields := [("OST", [First])]);
    GetListSingle("OST", [First]);
    AddOneItem(m1, "OST", "1", "2", "a", "bbb");
    AppendToPresent(m1.datafields, "OST", Second, 0);
    assert [First] + [Second] == [First, Second];
    assert m1.datafields[0 := ("OST", [First, Second])] == [("OST", [First, Second])];
  }

  /** Two fields that both hold the code contribute their passing values
      one after the other. */
  lemma CollectedTwo(f1: Field, f2: Field, code: string, fi1: Option<string>, fi2: Option<string>)
    requires code in Keys(f1.subs) && code in Keys(f2.subs)
    ensures Collected([f1, f2], code, fi1, fi2) ==
      Matching(GetList(f1.subs, code), fi1, fi2) + Matching(GetList(f2.subs, code), fi1, fi2)
  {
    assert [] + [f1] == [f1];
    assert [f1] + [f2] == [f1, f2];
    CollectedSnoc([], f1, code, fi1, fi2);
    CollectedSnoc([f1], f2, code, fi1, fi2);
    AppendNil(Matching(GetList(f1.subs, code), fi1, fi2));
  }

  /** What `get_subfields` collects from the two fields for a filter. */
  lemma TwoFieldsCollected(fi1: Option<string>, fi2: Option<string>)
    ensures Collected([First, Second], "a", fi1, fi2) ==
      (if IndicatorsPass(" ", " ", fi1, fi2) then [ValueA] else []) +
      (if IndicatorsPass("1", "2", fi1, fi2) then [ValueB] else [])
  {
    GetListSingle("a", [ValueA]);
    GetListSingle("a", [ValueB]);
    CollectedTwo(First, Second, "a", fi1, fi2);
    MatchingUniform([ValueA], " ", " ", fi1, fi2);
    MatchingUniform([ValueB], "1", "2", fi1, fi2);
  }

  /** After them, `get_subfields` finds what the two fields collect. */
  lemma TwoFieldsLookup(fi1: Option<string>, fi2: Option<string>)
    ensures Subfields(Blank.(datafields := [("OST", [First, Second])]), "OST", "a", fi1, fi2, false) ==
      Ok(Collected([First, Second], "a", fi1, fi2))
  {
    GetListSingle("OST", [First, Second]);
  }

  /** Without a filter all values come, in order; each filter picks one
      field. */
  lemma TwoFieldsAll()
    ensures Values(Subfields(Blank.(datafields := [("OST", [First, Second])]), "OST", "a", None, None, false).value) == ["aaa", "bbb"]
  {
    TwoFieldsLookup(None, None);
    TwoFieldsCollected(None, None);
    assert [ValueA] + [ValueB] == [ValueA, ValueB];
    var vals := Collected([First, Second], "a", None, None);
    assert Values(vals) == ["aaa", "bbb"];
  }

  lemma TwoFieldsFirst()
    ensures Values(Subfields(Blank.(datafields := [("OST", [First, Second])]), "OST", "a", Some(" "), Some(" "), false).value) == ["aaa"]
  {
    TwoFieldsLookup(Some(" "), Some(" "));
    TwoFieldsCollected(Some(" "), Some(" "));
    assert [ValueA] + [] == [ValueA];
    var vals := Collected([First, Second], "a", Some(" "), Some(" "));
    assert Values(vals) == ["aaa"];
  }

  lemma TwoFieldsSecond()
    ensures Values(Subfields(Blank.(datafields := [("OST", [First, Second])]), "OST", "a", Some("1"), Some("2"), false).value) == ["bbb"]
  {
    TwoFieldsLookup(Some("1"), Some("2"));
    TwoFieldsCollected(Some("1"), Some("2"));
    assert !IndicatorsPass(" ", " ", Some("1"), Some("2")) && IndicatorsPass("1", "2", Some("1"), Some("2"));
    assert [] + [ValueB] == [ValueB];
    var vals := Collected([First, Second], "a", Some("1"), Some("2"));
    assert Values(vals) == ["bbb"];
  }

  /** As the source writes `add_data_field`, the new values do not point
      back at their field, so the data fields stop being well formed. */
  lemma AsWrittenNotWellFormed()
    ensures var r := WithDataFieldAsWritten(Blank, "OST", " ", " ", Dict([("a", Scalar("1"))]));
      r.Ok? && !WellFormed(r.value.datafields)
  {
    var items := [("a", Scalar("1"))];
    assert CheckDataField("OST", " ", " ", Dict(items)) == Pass;
    var r := WithDataFieldAsWritten(Blank, "OST", " ", " ", Dict(items)).value;
    var f := Field(" ", " ", false, SubrecordLists(items, " ", " ", TagRef("OST")));
    assert r.datafields == AppendTo([], "OST", f);
    GetListAppendTo([], "OST", f, "OST");
    assert GetList(r.datafields, "OST") == [f];
    SubrecordListsContent(items, " ", " ", TagRef("OST"), "a");
    assert Get(items, "a") == Some(Scalar("1"));
    assert GetList(f.subs, "a")[0].other == TagRef("OST");
    assert !Carries(GetList(f.subs, "a")[0], f.i1, f.i2, FieldRef("OST", 0));
  }

  // ---------------------------------------------------------------------
  // The record of the serializer's unit tests

  /** One subfield element with a new code and stripped text extends the
      subfield dict by one entry. */
  lemma SubfieldStep(elems: seq<Element>, e: Element, subId: string, oai: bool, i1: string, i2: string, ref: BackRef,
                     subs: seq<(string, seq<Subrecord>)>, code: string)
    requires ParsedSubfields(elems, subId, oai, i1, i2, ref) == Ok(subs)
    requires subId in e.params && e.params[subId] == code && code !in Keys(subs)
    requires code != IKey(1, oai) && code != IKey(2, oai) && IsStripped(e.content)
    ensures ParsedSubfields(elems + [e], subId, oai, i1, i2, ref) == Ok(subs + [(code, [Subrecord(e.content, i1, i2, ref)])])
  {
    assert (elems + [e])[..|elems|] == elems;
    StripOfStripped(e.content);
    AppendToMissing(subs, code, Subrecord(e.content, i1, i2, ref));
  }

  /** The `datafield` 650 of the record unit tests, as the tree parser
      yields it, with the texts of its subfields a, 7 and 2 as parameters;
      and the record it parses into. */
  function SubElement(code: string, text: string): Element {
    Element(map["code" := code], text, [])
  }

  function Field650Element(va: string, v7: string, v2: string): Element {
    Element(map["tag" := "650", "ind1" := "0", "ind2" := "7"], "", [SubElement("a", va), SubElement("7", v7), SubElement("2", v2)])
  }

  function Doc650(va: string, v7: string, v2: string): RecordElement {
    RecordElement([], [], [], [Field650Element(va, v7, v2)], [], [])
  }

  const Ref650 := FieldRef("650", 0)

  function Entry650(code: string, text: string): (string, seq<Subrecord>) {
    (code, [Subrecord(text, "0", "7", Ref650)])
  }

  function Subs650(va: string, v7: string, v2: string): seq<(string, seq<Subrecord>)> {
    [Entry650("a", va), Entry650("7", v7), Entry650("2", v2)]
  }

  function Field650(va: string, v7: string, v2: string): Field {
    Field("0", "7", false, Subs650(va, v7, v2))
  }

  function Record650(va: string, v7: string, v2: string): RecordModel {
    RecordModel(None, false, [], [("650", [Field650(va, v7, v2)])])
  }

  /** The three subfields, one at a time. */
  lemma Subfields650First(va: string)
    requires IsStripped(va)
    ensures ParsedSubfields([SubElement("a", va)], "code", false, "0", "7", Ref650) == Ok([Entry650("a", va)])
  {
    assert [] + [SubElement("a", va)] == [SubElement("a", va)];
    assert [] + [Entry650("a", va)] == [Entry650("a", va)];
    assert ParsedSubfields([], "code", false, "0", "7", Ref650) == Ok([]);
    assert IKey(1, false) == "ind1" && IKey(2, false) == "ind2";
    SubfieldStep([], SubElement("a", va), "code", false, "0", "7", Ref650, [], "a");
  }

  lemma Subfields650SecondStep(va: string, v7: string)
    requires IsStripped(va) && IsStripped(v7)
    ensures ParsedSubfields([SubElement("a", va)] + [SubElement("7", v7)], "code", false, "0", "7", Ref650)
      == Ok([Entry650("a", va)] + [Entry650("7", v7)])
  {
    Subfields650First(va);
    assert IKey(1, false) == "ind1" && IKey(2, false) == "ind2";
    SubfieldStep([SubElement("a", va)], SubElement("7", v7), "code", false, "0", "7", Ref650, [Entry650("a", va)], "7");
  }

  lemma Subfields650Second(va: string, v7: string)
    requires IsStripped(va) && IsStripped(v7)
    ensures ParsedSubfields([SubElement("a", va), SubElement("7", v7)], "code", false, "0", "7", Ref650)
      == Ok([Entry650("a", va), Entry650("7", v7)])
  {
    assert [SubElement("a", va)] + [SubElement("7", v7)] == [SubElement("a", va), SubElement("7", v7)];
    assert [Entry650("a", va)] + [Entry650("7", v7)] == [Entry650("a", va), Entry650("7", v7)];
    Subfields650SecondStep(va, v7);
  }

  lemma Subfields650ThirdStep(va: string, v7: string, v2: string)
    requires IsStripped(va) && IsStripped(v7) && IsStripped(v2)
    ensures ParsedSubfields([SubElement("a", va), SubElement("7", v7)] + [SubElement("2", v2)], "code", false, "0", "7", Ref650)
      == Ok([Entry650("a", va), Entry650("7", v7)] + [Entry650("2", v2)])
  {
    var subs := [Entry650("a", va), Entry650("7", v7)];
    Subfields650Second(va, v7);
    assert IKey(1, false) == "ind1" && IKey(2, false) == "ind2";
    assert Keys(subs) == ["a", "7"];
    SubfieldStep([SubElement("a", va), SubElement("7", v7)], SubElement("2", v2), "code", false, "0", "7", Ref650, subs, "2");
  }

  lemma Subfields650(va: string, v7: string, v2: string)
    requires IsStripped(va) && IsStripped(v7) && IsStripped(v2)
    ensures ParsedSubfields(Field650Element(va, v7, v2).subfields, "code", false, "0", "7", Ref650) == Ok(Subs650(va, v7, v2))
  {
    assert [SubElement("a", va), SubElement("7", v7)] + [SubElement("2", v2)] == Field650Element(va, v7, v2).subfields;
    assert [Entry650("a", va), Entry650("7", v7)] + [Entry650("2", v2)] == Subs650(va, v7, v2);
    Subfields650ThirdStep(va, v7, v2);
  }

  /** The field element of the test document. */
  lemma Field650Parse(va: string, v7: string, v2: string)
    requires IsStripped(va) && IsStripped(v7) && IsStripped(v2)
    ensures ParsedField(Field650Element(va, v7, v2), false, "code", Ref650) == Ok(Field650(va, v7, v2))
  {
    assert IKey(1, false) == "ind1" && IKey(2, false) == "ind2";
    assert ParamOr(Field650Element(va, v7, v2).params, "ind1", " ") == "0";
    assert ParamOr(Field650Element(va, v7, v2).params, "ind2", " ") == "7";
    Subfields650(va, v7, v2);
  }

  lemma DataFields650Parse(va: string, v7: string, v2: string)
    requires IsStripped(va) && IsStripped(v7) && IsStripped(v2)
    ensures ParsedDataFields([], [Field650Element(va, v7, v2)], false, "tag", "code") == ([("650", [Field650(va, v7, v2)])], Pass)
  {
    var f := Field650Element(va, v7, v2);
    assert [f][..0] == [];
    assert [] + [("650", [Field650(va, v7, v2)])] == [("650", [Field650(va, v7, v2)])];
    assert ParsedDataFields([], [], false, "tag", "code") == ([], Pass);
    Field650Parse(va, v7, v2);
    AppendToMissing([], "650", Field650(va, v7, v2));
  }

  /** Parsing the document gives one field under tag 650, no leader and no
      control fields. */
  lemma Parse650(va: string, v7: string, v2: string)
    requires IsStripped(va) && IsStripped(v7) && IsStripped(v2)
    ensures ParsedRecord(Blank, [Doc650(va, v7, v2)]) == (Record650(va, v7, v2), Pass)
  {
    assert ParsedControlFields([], [], "tag") == [];
    DataFields650Parse(va, v7, v2);
  }

  /** The texts of the unit tests. */
  lemma ParseTestRecord()
    ensures ParsedRecord(Blank, [Doc650("programování", "ph115891", "czenas")]) ==
      (Record650("programování", "ph115891", "czenas"), Pass)
  {
    Parse650("programování", "ph115891", "czenas");
  }
}
