/** `MARCXMLSerializer` (serializer.py): the record written back as MARC 21
    slim XML or as OAI-MARC XML, every map visited in canonical order or in
    insertion order. The `_serialize_*` loops are methods proved against the
    functions that say what they build. */
module Serializer {
  import opened Wrappers
  import opened Text
  import opened OrderedMaps
  import opened Sorting
  import opened Subrecords
  import Tools
  import opened Elements
  import opened Parser
  import opened ParserFacts
  import opened Seqs

  /** The key order of the object: `resorted`, or insertion order. */
  function Order(resort: bool, keys: seq<string>): seq<string> {
    if resort then Tools.Resorted(keys) else keys
  }

  lemma OrderPermutation(resort: bool, keys: seq<string>)
    ensures multiset(Order(resort, keys)) == multiset(keys)
  {
    if resort {
      Tools.ResortedPermutation(keys);
    }
  }

  /** A single key is its own order. */
  lemma OrderSingle(resort: bool, k: string)
    ensures Order(resort, [k]) == [k]
  {
    if resort {
      SortSorted([k]);
      var s := Sort([k]);
      assert s[0] in multiset(s);
      assert s == [k];
      Tools.ResortedIsRotation([k]);
    }
  }

  /** `name="value"` */
  function Attr(name: string, value: string): string {
    name + "=\"" + value + "\""
  }

  /** The value under a key that is known to be there. */
  function ValueOf<V>(m: seq<(string, V)>, k: string, default: V): V {
    match Get(m, k)
    case Some(v) => v
    case None => default
  }

  // ---------------------------------------------------------------------
  // Control fields

  /** The control field template, `controlfield`/`tag` or `fixfield`/`id`. */
  function CtlFieldXml(oai: bool, id: string, content: string): string {
    var tagname := if oai then "fixfield" else "controlfield";
    "<" + tagname + " " + Attr(if oai then "id" else "tag", id) + ">" + content + "</" + tagname + ">\n"
  }

  /** MARC 21 writes only the control fields with an all-digit key. */
  predicate Emitted(oai: bool, id: string) {
    oai || IsDigits(id)
  }

  function CtlFieldsXmlOf(cf: ControlFields, oai: bool, ids: seq<string>): string
    decreases |ids|
  {
    if ids == [] then ""
    else
      var id := ids[|ids| - 1];
      CtlFieldsXmlOf(cf, oai, ids[..|ids| - 1]) +
        (if Emitted(oai, id) then CtlFieldXml(oai, id, ValueOf(cf, id, "")) else "")
  }

  /** `_serialize_ctl_fields` */
  function CtlFieldsXml(m: RecordModel, resort: bool): (r: string)
    ensures !m.oaiMarc ==> r == CtlFieldsXmlOf(m.controlfields, false, Visible(Keys(m.controlfields), resort))
  {
    VisibleOrder(m.controlfields, resort);
    CtlFieldsXmlOf(m.controlfields, m.oaiMarc, Order(resort, Keys(m.controlfields)))
  }

  // ---------------------------------------------------------------------
  // Data fields

  /** The subfield template; the code attribute is `code` or `label`. */
  function SubfieldXml(oai: bool, code: string, content: string): string {
    "\n<subfield " + Attr(if oai then "label" else "code", code) + ">" + content + "</subfield>"
  }

  /** All values of one code, in stored order. */
  function ValuesXml(oai: bool, code: string, vals: seq<Subrecord>): string
    decreases |vals|
  {
    if vals == [] then ""
    else ValuesXml(oai, code, vals[..|vals| - 1]) + SubfieldXml(oai, code, Str(vals[|vals| - 1]))
  }

  function SubfieldsXmlOf(subs: seq<(string, seq<Subrecord>)>, oai: bool, codes: seq<string>): string
    decreases |codes|
  {
    if codes == [] then ""
    else
      var code := codes[|codes| - 1];
      SubfieldsXmlOf(subs, oai, codes[..|codes| - 1]) + ValuesXml(oai, code, GetList(subs, code))
  }

  /** `_serialize_data_subfields` */
  function SubfieldsXml(subs: seq<(string, seq<Subrecord>)>, oai: bool, resort: bool): (r: string)
    ensures subs == [] ==> r == ""
    ensures |subs| == 1 ==> r == ValuesXml(oai, subs[0].0, subs[0].1)
  {
    if |subs| == 1 then
      OrderSingle(resort, subs[0].0);
      assert Keys(subs) == [subs[0].0];
      FindFirst(subs, subs[0].0, 0);
      assert GetList(subs, subs[0].0) == subs[0].1;
      assert [subs[0].0][..0] == [];
      assert SubfieldsXmlOf(subs, oai, [subs[0].0]) == "" + ValuesXml(oai, subs[0].0, subs[0].1);
      SubfieldsXmlOf(subs, oai, Order(resort, Keys(subs)))
    else
      SubfieldsXmlOf(subs, oai, Order(resort, Keys(subs)))
  }

  /** The indicator entries of a field dict, under the key names it was
      stored with. */
  function IndicatorEntries(f: Field): seq<(string, string)> {
    [(IKey(1, f.indKeysOai), f.i1), (IKey(2, f.indKeysOai), f.i2)]
  }

  /** The key an indicator is read from: the current dialect's name when
      the dict has it, the other dialect's name otherwise. */
  function RealIName(f: Field, num: int, oai: bool): string
    requires num == 1 || num == 2
  {
    if IKey(num, oai) in Keys(IndicatorEntries(f)) then IKey(num, oai) else IKey(num, !oai)
  }

  /** The indicator the serializer writes: in either dialect, whatever key
      names the dict was stored with, it is the stored indicator. */
  function IndicatorValue(f: Field, num: int, oai: bool): (r: string)
    requires num == 1 || num == 2
    ensures r == if num == 1 then f.i1 else f.i2
  {
    IndicatorKeysAreLong(1, f.indKeysOai);
    IndicatorKeysAreLong(2, f.indKeysOai);
    var e := IndicatorEntries(f);
    assert Keys(e) == [IKey(1, f.indKeysOai), IKey(2, f.indKeysOai)];
    FindFirst(e, IKey(1, f.indKeysOai), 0);
    FindFirst(e, IKey(2, f.indKeysOai), 1);
    ValueOf(e, RealIName(f, num, oai), "")
  }

  /** The data field template, with the current dialect's attribute names. */
  function FieldXml(oai: bool, tag: string, i1: string, i2: string, content: string): string {
    var tagname := if oai then "varfield" else "datafield";
    "<" + tagname + " " + Attr(if oai then "id" else "tag", tag) + " "
      + Attr(IKey(1, oai), i1) + " " + Attr(IKey(2, oai), i2) + ">"
      + content + "\n</" + tagname + ">\n"
  }

  /** A data field is written under the current dialect's attribute names,
      with its stored indicators, whichever names they were stored under. */
  function DataFieldXml(oai: bool, tag: string, f: Field, resort: bool): (r: string)
    ensures r == FieldXml(oai, tag, f.i1, f.i2, SubfieldsXml(f.subs, oai, resort))
  {
    FieldXml(oai, tag, IndicatorValue(f, 1, oai), IndicatorValue(f, 2, oai), SubfieldsXml(f.subs, oai, resort))
  }

  function FieldsXml(oai: bool, tag: string, fields: seq<Field>, resort: bool): string
    decreases |fields|
  {
    if fields == [] then ""
    else FieldsXml(oai, tag, fields[..|fields| - 1], resort) + DataFieldXml(oai, tag, fields[|fields| - 1], resort)
  }

  function DataFieldsXmlOf(df: DataFields, oai: bool, tags: seq<string>, resort: bool): string
    decreases |tags|
  {
    if tags == [] then ""
    else
      var tag := tags[|tags| - 1];
      DataFieldsXmlOf(df, oai, tags[..|tags| - 1], resort) + FieldsXml(oai, tag, GetList(df, tag), resort)
  }

  /** `_serialize_data_fields` */
  function DataFieldsXml(m: RecordModel, resort: bool): string {
    DataFieldsXmlOf(m.datafields, m.oaiMarc, Order(resort, Keys(m.datafields)), resort)
  }

  // ---------------------------------------------------------------------
  // The document

  /** The leader element: written only for a non-empty leader of a MARC 21
      record. */
  function LeaderXml(m: RecordModel): (r: string)
    ensures r != "" <==> !m.oaiMarc && m.leader.Some? && m.leader.value != ""
    ensures r != "" ==> r == "<leader>" + m.leader.value + "</leader>"
  {
    if m.oaiMarc then ""
    else
      match m.leader
      case Some(l) => if l != "" then "<leader>" + l + "</leader>" else ""
      case None => ""
  }

  const MarcHeader := "<record xmlns=\"http://www.loc.gov/MARC21/slim/\"\nxmlns:xsi=\"http://www.w3.org/2001/XMLSchema-instance\"\nxsi:schemaLocation=\"http://www.loc.gov/MARC21/slim\nhttp://www.loc.gov/standards/marcxml/schema/MARC21slim.xsd\">\n"

  const MarcFooter := "\n</record>\n"
  const OaiHeader := "<record>\n<metadata>\n<oai_marc>\n"
  const OaiFooter := "\n</oai_marc>\n</metadata>\n</record>\n"

  /** The two document templates, each block stripped. */
  function Document(oai: bool, leader: string, ctl: string, data: string): (r: string)
    ensures var head := if oai then OaiHeader else MarcHeader;
      var foot := if oai then OaiFooter else MarcFooter;
      |r| >= |head| + |foot| && r[..|head|] == head && r[|r| - |foot|..] == foot
  {
    if oai then
      var body := Strip(leader) + Strip(ctl) + "\n" + Strip(data);
      assert OaiHeader + body + OaiFooter == OaiHeader + (body + OaiFooter);
      OaiHeader + body + OaiFooter
    else
      var body := Strip(leader) + "\n" + Strip(ctl) + "\n" + Strip(data);
      assert MarcHeader + body + MarcFooter == MarcHeader + (body + MarcFooter);
      MarcHeader + body + MarcFooter
  }

  /** `to_XML` */
  function ToXml(m: RecordModel, resort: bool): string {
    Document(m.oaiMarc, LeaderXml(m), CtlFieldsXml(m, resort), DataFieldsXml(m, resort))
  }

  // ---------------------------------------------------------------------
  // The loops of the serializer. They take the parser object and modify
  // nothing, so every field dict keeps its mapping.

  /** One more step of each loop: the specification of a prefix grows by
      the output of the next key or value. */
  lemma CtlFieldsSnoc(cf: ControlFields, oai: bool, ids: seq<string>, i: nat)
    requires i < |ids|
    ensures CtlFieldsXmlOf(cf, oai, ids[..i + 1]) == CtlFieldsXmlOf(cf, oai, ids[..i]) +
      (if Emitted(oai, ids[i]) then CtlFieldXml(oai, ids[i], ValueOf(cf, ids[i], "")) else "")
  {
    assert ids[..i + 1][..i] == ids[..i];
  }

  lemma ValuesSnoc(oai: bool, code: string, vals: seq<Subrecord>, j: nat)
    requires j < |vals|
    ensures ValuesXml(oai, code, vals[..j + 1]) == ValuesXml(oai, code, vals[..j]) + SubfieldXml(oai, code, Str(vals[j]))
  {
    assert vals[..j + 1][..j] == vals[..j];
  }

  lemma SubfieldsSnoc(subs: seq<(string, seq<Subrecord>)>, oai: bool, codes: seq<string>, i: nat)
    requires i < |codes|
    ensures SubfieldsXmlOf(subs, oai, codes[..i + 1]) == SubfieldsXmlOf(subs, oai, codes[..i]) + ValuesXml(oai, codes[i], GetList(subs, codes[i]))
  {
    assert codes[..i + 1][..i] == codes[..i];
  }

  lemma FieldsSnoc(oai: bool, tag: string, fields: seq<Field>, j: nat, resort: bool)
    requires j < |fields|
    ensures FieldsXml(oai, tag, fields[..j + 1], resort) == FieldsXml(oai, tag, fields[..j], resort) + DataFieldXml(oai, tag, fields[j], resort)
  {
    assert fields[..j + 1][..j] == fields[..j];
  }

  lemma DataFieldsSnoc(df: DataFields, oai: bool, tags: seq<string>, i: nat, resort: bool)
    requires i < |tags|
    ensures DataFieldsXmlOf(df, oai, tags[..i + 1], resort) == DataFieldsXmlOf(df, oai, tags[..i], resort) + FieldsXml(oai, tags[i], GetList(df, tags[i]), resort)
  {
    assert tags[..i + 1][..i] == tags[..i];
  }

  method SerializeCtlFields(p: MarcXmlParser) returns (output: string)
    ensures output == CtlFieldsXml(p.Model(), p.resort)
  {
    var oai, cf := p.oaiMarc, p.controlfields;
    var ids := Order(p.resort, Keys(cf));
    output := "";
    var i := 0;
    while i < |ids|
      invariant 0 <= i <= |ids|
      invariant output == CtlFieldsXmlOf(cf, oai, ids[..i])
    {
      CtlFieldsSnoc(cf, oai, ids, i);
      var id := ids[i];
      if oai || IsDigits(id) {
        output := output + CtlFieldXml(oai, id, ValueOf(cf, id, ""));
      } else {
        AppendNil(output);
      }
      i := i + 1;
    }
    assert ids[..i] == ids;
  }

  /** The inner loop of `_serialize_data_subfields`: every value of one code. */
  method SerializeValues(oai: bool, code: string, vals: seq<Subrecord>) returns (output: string)
    ensures output == ValuesXml(oai, code, vals)
  {
    output := "";
    var j := 0;
    while j < |vals|
      invariant 0 <= j <= |vals|
      invariant output == ValuesXml(oai, code, vals[..j])
    {
      ValuesSnoc(oai, code, vals, j);
      output := output + SubfieldXml(oai, code, Str(vals[j]));
      j := j + 1;
    }
    assert vals[..j] == vals;
  }

  method SerializeDataSubfields(p: MarcXmlParser, subs: seq<(string, seq<Subrecord>)>) returns (output: string)
    ensures output == SubfieldsXml(subs, p.oaiMarc, p.resort)
  {
    var oai := p.oaiMarc;
    var codes := Order(p.resort, Keys(subs));
    output := "";
    var i := 0;
    while i < |codes|
      invariant 0 <= i <= |codes|
      invariant output == SubfieldsXmlOf(subs, oai, codes[..i])
    {
      SubfieldsSnoc(subs, oai, codes, i);
      var values := SerializeValues(oai, codes[i], GetList(subs, codes[i]));
      output := output + values;
      i := i + 1;
    }
    assert codes[..i] == codes;
  }

  /** The inner loop of `_serialize_data_fields`: every field of one tag. */
  method SerializeFields(p: MarcXmlParser, tag: string, fields: seq<Field>) returns (output: string)
    ensures output == FieldsXml(p.oaiMarc, tag, fields, p.resort)
  {
    var oai, resort := p.oaiMarc, p.resort;
    output := "";
    var j := 0;
    while j < |fields|
      invariant 0 <= j <= |fields|
      invariant output == FieldsXml(oai, tag, fields[..j], resort)
    {
      FieldsSnoc(oai, tag, fields, j, resort);
      var f := fields[j];
      var content := SerializeDataSubfields(p, f.subs);
      output := output + FieldXml(oai, tag, IndicatorValue(f, 1, oai), IndicatorValue(f, 2, oai), content);
      j := j + 1;
    }
    assert fields[..j] == fields;
  }

  method SerializeDataFields(p: MarcXmlParser) returns (output: string)
    ensures output == DataFieldsXml(p.Model(), p.resort)
  {
    var oai, df, resort := p.oaiMarc, p.datafields, p.resort;
    var tags := Order(resort, Keys(df));
    output := "";
    var i := 0;
    while i < |tags|
      invariant 0 <= i <= |tags|
      invariant output == DataFieldsXmlOf(df, oai, tags[..i], resort)
    {
      DataFieldsSnoc(df, oai, tags, i, resort);
      var fields := SerializeFields(p, tags[i], GetList(df, tags[i]));
      output := output + fields;
      i := i + 1;
    }
    assert tags[..i] == tags;
  }

  /** `to_XML` of the object. */
  method SerializeRecord(p: MarcXmlParser) returns (xml: string)
    ensures xml == ToXml(p.Model(), p.resort)
  {
    var ctl := SerializeCtlFields(p);
    var data := SerializeDataFields(p);
    xml := Document(p.oaiMarc, LeaderXml(p.Model()), ctl, data);
  }

  // ---------------------------------------------------------------------
  // Only the all-digit keys of a MARC 21 record are written, and they come
  // in plain sorted order even when the canonical order is asked for.

  /** The all-digit keys of a list, in order. */
  function DigitKeys(s: seq<string>): (r: seq<string>)
    ensures forall i :: 0 <= i < |r| ==> IsDigits(r[i])
    ensures |r| <= |s|
    decreases |s|
  {
    if s == [] then []
    else DigitKeys(s[..|s| - 1]) + (if IsDigits(s[|s| - 1]) then [s[|s| - 1]] else [])
  }

  lemma {:induction false} DigitKeysConcat(a: seq<string>, b: seq<string>)
    ensures DigitKeys(a + b) == DigitKeys(a) + DigitKeys(b)
    decreases |b|
  {
    if b == [] {
      assert a + b == a;
    } else {
      var b' := b[..|b| - 1];
      assert (a + b)[..|a + b| - 1] == a + b';
      DigitKeysConcat(a, b');
    }
  }

  lemma {:induction false} DigitKeysNone(s: seq<string>)
    requires forall i :: 0 <= i < |s| ==> !IsDigits(s[i])
    ensures DigitKeys(s) == []
    decreases |s|
  {
    if s != [] {
      DigitKeysNone(s[..|s| - 1]);
    }
  }

  /** A string `Below` a non-empty one starts no higher. */
  lemma BelowFirst(a: string, b: string)
    requires Below(a, b) && a != []
    ensures b != [] && a[0] <= b[0]
  {
  }

  /** Once an all-digit key comes before a word in sorted order, that word
      starts above '9', and so does every key after it. */
  lemma NoDigitKeysAfter(s: seq<string>, i: nat, k: nat)
    requires Sorted(s) && i < k < |s| && IsDigits(s[i]) && Tools.IsWord(s[k])
    ensures DigitKeys(s[k..]) == []
  {
    assert Below(s[i], s[k]);
    BelowFirst(s[i], s[k]);
    forall j | 0 <= j < |s[k..]| ensures !IsDigits(s[k..][j]) {
      if j > 0 {
        assert Below(s[k], s[k + j]);
        BelowFirst(s[k], s[k + j]);
      }
    }
    DigitKeysNone(s[k..]);
  }

  /** Before the first word of a sorted list, or from it on, there is no
      all-digit key. */
  lemma DigitKeysOneSide(s: seq<string>, k: nat)
    requires Sorted(s) && k <= |s|
    requires forall i :: 0 <= i < k ==> !Tools.IsWord(s[i])
    requires k < |s| ==> Tools.IsWord(s[k])
    ensures DigitKeys(s[..k]) == [] || DigitKeys(s[k..]) == []
  {
    if i :| 0 <= i < k && IsDigits(s[i]) {
      if k < |s| {
        NoDigitKeysAfter(s, i, k);
      } else {
        assert s[k..] == [];
      }
    } else {
      forall j | 0 <= j < |s[..k]| ensures !IsDigits(s[..k][j]) {
        assert s[..k][j] == s[j];
      }
      DigitKeysNone(s[..k]);
    }
  }

  /** A rotation at a point with all digit keys on one side keeps them in
      order. */
  lemma DigitKeysRotation(s: seq<string>, k: nat)
    requires k <= |s|
    requires DigitKeys(s[..k]) == [] || DigitKeys(s[k..]) == []
    ensures DigitKeys(s[k..] + s[..k]) == DigitKeys(s)
  {
    assert s == s[..k] + s[k..];
    DigitKeysConcat(s[k..], s[..k]);
    DigitKeysConcat(s[..k], s[k..]);
    AppendNil(DigitKeys(s[..k]));
    AppendNil(DigitKeys(s[k..]));
  }

  /** The rotation of the canonical order moves the digit keys only as a
      block: among themselves they stay sorted. */
  lemma DigitKeysOfResorted(keys: seq<string>)
    ensures DigitKeys(Tools.Resorted(keys)) == DigitKeys(Sort(keys))
  {
    Tools.ResortedIsRotation(keys);
    SortSorted(keys);
    DigitKeysOneSide(Sort(keys), Tools.Cut(Sort(keys)));
    DigitKeysRotation(Sort(keys), Tools.Cut(Sort(keys)));
  }

  lemma {:induction false} DigitKeysInsert(x: string, s: seq<string>)
    requires !IsDigits(x)
    ensures DigitKeys(Insert(x, s)) == DigitKeys(s)
    decreases |s|
  {
    if s == [] {
      assert DigitKeys([x]) == DigitKeys([]) + DigitKeys([x]);
    } else if Below(x, s[0]) {
      DigitKeysConcat([x], s);
      assert DigitKeys([x]) == [] by {
        assert [x][..0] == [];
      }
    } else {
      DigitKeysInsert(x, s[1..]);
      DigitKeysConcat([s[0]], Insert(x, s[1..]));
      DigitKeysConcat([s[0]], s[1..]);
      assert s == [s[0]] + s[1..];
    }
  }

  /** Sorting with one more key inserts it into the sorted list. */
  lemma SortSnoc(keys: seq<string>, x: string)
    ensures Sort(keys + [x]) == Insert(x, Sort(keys))
  {
    assert multiset(keys + [x]) == multiset([x] + keys);
    SortPermutationInvariant(keys + [x], [x] + keys);
    assert ([x] + keys)[1..] == keys;
  }

  /** MARC 21 control-field output is that of the all-digit keys alone. */
  lemma {:induction false} CtlXmlDigitKeys(cf: ControlFields, ids: seq<string>)
    ensures CtlFieldsXmlOf(cf, false, ids) == CtlFieldsXmlOf(cf, false, DigitKeys(ids))
    decreases |ids|
  {
    if ids != [] {
      var prefix := ids[..|ids| - 1];
      CtlXmlDigitKeys(cf, prefix);
      var id := ids[|ids| - 1];
      if IsDigits(id) {
        var d := DigitKeys(prefix) + [id];
        assert d[..|d| - 1] == DigitKeys(prefix);
      } else {
        assert DigitKeys(prefix) + [] == DigitKeys(prefix);
      }
    }
  }

  /** Output depends only on the values of the keys visited. */
  lemma {:induction false} CtlXmlAgree(cf1: ControlFields, cf2: ControlFields, oai: bool, ids: seq<string>)
    requires forall i :: 0 <= i < |ids| ==> Get(cf1, ids[i]) == Get(cf2, ids[i])
    ensures CtlFieldsXmlOf(cf1, oai, ids) == CtlFieldsXmlOf(cf2, oai, ids)
    decreases |ids|
  {
    if ids != [] {
      CtlXmlAgree(cf1, cf2, oai, ids[..|ids| - 1]);
    }
  }

  /** The control-field keys MARC 21 output shows: the all-digit keys, in
      sorted order with the canonical order, in insertion order without it. */
  function Visible(keys: seq<string>, resort: bool): seq<string> {
    DigitKeys(if resort then Sort(keys) else keys)
  }

  /** MARC 21 writes, in either order, the visible keys alone. */
  lemma VisibleOrder(cf: ControlFields, resort: bool)
    ensures CtlFieldsXmlOf(cf, false, Order(resort, Keys(cf))) == CtlFieldsXmlOf(cf, false, Visible(Keys(cf), resort))
  {
    CtlXmlDigitKeys(cf, Order(resort, Keys(cf)));
    if resort {
      DigitKeysOfResorted(Keys(cf));
    }
  }

  /** Adding a key that is not all digits leaves the visible keys as they
      are, in either order. */
  lemma VisibleKeysPut(keys: seq<string>, k: string, resort: bool)
    requires !IsDigits(k)
    ensures Visible(keys + [k], resort) == Visible(keys, resort)
  {
    if resort {
      SortSnoc(keys, k);
      DigitKeysInsert(k, Sort(keys));
    } else {
      assert (keys + [k])[..|keys|] == keys;
    }
  }

  /** Storing a control field whose key is not all digits (`LDR`, `FMT`)
      changes nothing in MARC 21 output, in either order. */
  lemma NonDigitKeysInvisible(m: RecordModel, k: string, v: string, resort: bool)
    requires !m.oaiMarc && !IsDigits(k)
    ensures CtlFieldsXml(m.(controlfields := Put(m.controlfields, k, v)), resort) == CtlFieldsXml(m, resort)
  {
    var cf := m.controlfields;
    var cf' := Put(cf, k, v);
    var visible := Visible(Keys(cf), resort);
    if k !in Keys(cf) {
      VisibleKeysPut(Keys(cf), k, resort);
    }
    assert Visible(Keys(cf'), resort) == visible;
    forall i | 0 <= i < |visible| ensures Get(cf', visible[i]) == Get(cf, visible[i]) {
      assert visible[i] != k;
    }
    CtlXmlAgree(cf', cf, false, visible);
  }

  // ---------------------------------------------------------------------
  // With the canonical order, the output does not depend on insertion order.

  /** The same control fields, stored in any order, give the same output. */
  lemma CtlXmlIgnoresInsertionOrder(m1: RecordModel, m2: RecordModel)
    requires m1.oaiMarc == m2.oaiMarc
    requires multiset(Keys(m1.controlfields)) == multiset(Keys(m2.controlfields))
    requires forall k :: Get(m1.controlfields, k) == Get(m2.controlfields, k)
    ensures CtlFieldsXml(m1, true) == CtlFieldsXml(m2, true)
  {
    Tools.ResortedDependsOnMultiset(Keys(m1.controlfields), Keys(m2.controlfields));
    CtlXmlAgree(m1.controlfields, m2.controlfields, m1.oaiMarc, Tools.Resorted(Keys(m1.controlfields)));
  }

  lemma {:induction false} SubfieldsXmlAgree(s1: seq<(string, seq<Subrecord>)>, s2: seq<(string, seq<Subrecord>)>, oai: bool, codes: seq<string>)
    requires forall i :: 0 <= i < |codes| ==> GetList(s1, codes[i]) == GetList(s2, codes[i])
    ensures SubfieldsXmlOf(s1, oai, codes) == SubfieldsXmlOf(s2, oai, codes)
    decreases |codes|
  {
    if codes != [] {
      SubfieldsXmlAgree(s1, s2, oai, codes[..|codes| - 1]);
    }
  }

  /** The same subfield dict, built in any order, gives the same output. */
  lemma SubfieldsXmlIgnoresInsertionOrder(s1: seq<(string, seq<Subrecord>)>, s2: seq<(string, seq<Subrecord>)>, oai: bool)
    requires multiset(Keys(s1)) == multiset(Keys(s2))
    requires forall c :: GetList(s1, c) == GetList(s2, c)
    ensures SubfieldsXml(s1, oai, true) == SubfieldsXml(s2, oai, true)
  {
    Tools.ResortedDependsOnMultiset(Keys(s1), Keys(s2));
    SubfieldsXmlAgree(s1, s2, oai, Tools.Resorted(Keys(s1)));
  }

  // ---------------------------------------------------------------------
  // Groups and dialects

  /** The values of a code are written one after the other, in stored
      order: the writing of a list is the writing of its parts. */
  lemma {:induction false} ValuesXmlConcat(oai: bool, code: string, a: seq<Subrecord>, b: seq<Subrecord>)
    ensures ValuesXml(oai, code, a + b) == ValuesXml(oai, code, a) + ValuesXml(oai, code, b)
    decreases |b|
  {
    if b == [] {
      assert a + b == a;
    } else {
      var b' := b[..|b| - 1];
      var last := SubfieldXml(oai, code, Str(b[|b| - 1]));
      assert (a + b)[..|a + b| - 1] == a + b' && (a + b)[|a + b| - 1] == b[|b| - 1];
      assert ValuesXml(oai, code, a + b) == ValuesXml(oai, code, a + b') + last;
      ValuesXmlConcat(oai, code, a, b');
      AppendAssoc(ValuesXml(oai, code, a), ValuesXml(oai, code, b'), last);
    }
  }

  // ---------------------------------------------------------------------
  // The record of the unit tests of `MARCXMLRecord`, parsed in
  // `ParserFacts.Parse650`

  lemma Values650(va: string, v7: string, v2: string)
    ensures ValuesXml(false, "a", GetList(Subs650(va, v7, v2), "a")) == SubfieldXml(false, "a", va)
    ensures ValuesXml(false, "7", GetList(Subs650(va, v7, v2), "7")) == SubfieldXml(false, "7", v7)
    ensures ValuesXml(false, "2", GetList(Subs650(va, v7, v2), "2")) == SubfieldXml(false, "2", v2)
  {
    var subs := Subs650(va, v7, v2);
    assert Keys(subs) == ["a", "7", "2"];
    FindFirst(subs, "a", 0);
    FindFirst(subs, "7", 1);
    FindFirst(subs, "2", 2);
  }

  /** One more code at the end writes its values last. */
  lemma SubfieldsXmlOfSnoc(subs: seq<(string, seq<Subrecord>)>, oai: bool, codes: seq<string>, c: string)
    ensures SubfieldsXmlOf(subs, oai, codes + [c]) == SubfieldsXmlOf(subs, oai, codes) + ValuesXml(oai, c, GetList(subs, c))
  {
    assert (codes + [c])[..|codes|] == codes;
  }

  /** Three codes are written one after the other. */
  lemma SubfieldsXmlOfThree(subs: seq<(string, seq<Subrecord>)>, oai: bool, c0: string, c1: string, c2: string)
    ensures SubfieldsXmlOf(subs, oai, [c0, c1, c2]) ==
      ValuesXml(oai, c0, GetList(subs, c0)) + ValuesXml(oai, c1, GetList(subs, c1)) + ValuesXml(oai, c2, GetList(subs, c2))
  {
    assert [] + [c0] == [c0];
    assert [c0] + [c1] == [c0, c1];
    assert [c0, c1] + [c2] == [c0, c1, c2];
    SubfieldsXmlOfSnoc(subs, oai, [], c0);
    SubfieldsXmlOfSnoc(subs, oai, [c0], c1);
    SubfieldsXmlOfSnoc(subs, oai, [c0, c1], c2);
    AppendNil(ValuesXml(oai, c0, GetList(subs, c0)));
  }

  /** In insertion order the subfields come out as they came in. */
  lemma Subfields650Stored(va: string, v7: string, v2: string)
    ensures SubfieldsXml(Subs650(va, v7, v2), false, false) ==
      SubfieldXml(false, "a", va) + SubfieldXml(false, "7", v7) + SubfieldXml(false, "2", v2)
  {
    assert Keys(Subs650(va, v7, v2)) == ["a", "7", "2"];
    Values650(va, v7, v2);
    SubfieldsXmlOfThree(Subs650(va, v7, v2), false, "a", "7", "2");
  }

  lemma Codes650Resorted()
    ensures Tools.Resorted(["a", "7", "2"]) == ["a", "2", "7"]
  {
    assert Sort(["7", "2"]) == ["2", "7"];
    assert Sort(["a", "7", "2"]) == ["2", "7", "a"];
  }

  /** In the canonical order the digit codes follow the letter, sorted. */
  lemma Subfields650Resorted(va: string, v7: string, v2: string)
    ensures SubfieldsXml(Subs650(va, v7, v2), false, true) ==
      SubfieldXml(false, "a", va) + SubfieldXml(false, "2", v2) + SubfieldXml(false, "7", v7)
  {
    assert Keys(Subs650(va, v7, v2)) == ["a", "7", "2"];
    Codes650Resorted();
    Values650(va, v7, v2);
    SubfieldsXmlOfThree(Subs650(va, v7, v2), false, "a", "2", "7");
  }

  /** The subfields of the unit tests in either order. */
  function Content650(va: string, v7: string, v2: string, resort: bool): string {
    if resort then SubfieldXml(false, "a", va) + SubfieldXml(false, "2", v2) + SubfieldXml(false, "7", v7)
    else SubfieldXml(false, "a", va) + SubfieldXml(false, "7", v7) + SubfieldXml(false, "2", v2)
  }

  /** The one data field of the record, with its subfields in either
      order. */
  lemma DataFields650(va: string, v7: string, v2: string, resort: bool)
    ensures DataFieldsXml(Record650(va, v7, v2), resort) == FieldXml(false, "650", "0", "7", Content650(va, v7, v2, resort))
  {
    var m := Record650(va, v7, v2);
    var f := Field650(va, v7, v2);
    var tags := Keys(m.datafields);
    assert tags == ["650"];
    assert Order(resort, tags) == tags by {
      assert Sort(["650"]) == ["650"];
    }
    GetListSingle("650", [f]);
    assert FieldsXml(false, "650", [f], resort) == DataFieldXml(false, "650", f, resort) by {
      assert [f][..0] == [];
    }
    assert tags[..0] == [];
    if resort {
      Subfields650Resorted(va, v7, v2);
    } else {
      Subfields650Stored(va, v7, v2);
    }
  }

  /** Blocks that are empty strip to nothing; the data block loses only its
      final newline. */
  lemma StripFieldXml(oai: bool, tag: string, i1: string, i2: string, content: string)
    ensures var d := FieldXml(oai, tag, i1, i2, content);
      |d| >= 1 && Strip(d) == d[..|d| - 1]
  {
    var tagname := if oai then "varfield" else "datafield";
    var d := FieldXml(oai, tag, i1, i2, content);
    var head := "<" + tagname + " " + Attr(if oai then "id" else "tag", tag) + " "
      + Attr(IKey(1, oai), i1) + " " + Attr(IKey(2, oai), i2) + ">" + content + "\n</" + tagname;
    assert d == head + ">\n";
    assert d[0] == '<' by {
      assert head[0] == '<';
    }
    assert d[|d| - 2] == '>' && d[|d| - 1] == '\n';
    StripTrailingNewline(d);
  }

  /** The record has no leader and no control fields. */
  lemma Empty650(va: string, v7: string, v2: string, resort: bool)
    ensures Strip(LeaderXml(Record650(va, v7, v2))) == "" && Strip(CtlFieldsXml(Record650(va, v7, v2), resort)) == ""
  {
    assert Keys(Record650(va, v7, v2).controlfields) == [];
    assert Order(resort, []) == [];
    assert Strip("") == "";
  }

  /** A MARC 21 document without leader and control fields: two empty
      lines after the header. */
  lemma NoLeaderNoControlFields(leader: string, ctl: string, data: string)
    requires Strip(leader) == "" && Strip(ctl) == ""
    ensures Document(false, leader, ctl, data) == MarcHeader + "\n" + "\n" + Strip(data) + "\n</record>\n"
  {
    var body := Strip(leader) + "\n" + Strip(ctl) + "\n" + Strip(data);
    assert Document(false, leader, ctl, data) == MarcHeader + body + MarcFooter;
    assert body == "\n" + "\n" + Strip(data) by {
      AppendNil("\n");
    }
    assert MarcHeader + body + MarcFooter == MarcHeader + "\n" + "\n" + Strip(data) + "\n</record>\n";
  }

  /** The whole document of the unit tests: the header, the two empty
      lines of the absent leader and control fields, the data field, and
      the closing tag. */
  lemma Document650(va: string, v7: string, v2: string, resort: bool)
    ensures var d := FieldXml(false, "650", "0", "7", Content650(va, v7, v2, resort));
      ToXml(Record650(va, v7, v2), resort) == MarcHeader + "\n" + "\n" + d[..|d| - 1] + "\n</record>\n"
  {
    var m := Record650(va, v7, v2);
    DataFields650(va, v7, v2, resort);
    StripFieldXml(false, "650", "0", "7", Content650(va, v7, v2, resort));
    Empty650(va, v7, v2, resort);
    NoLeaderNoControlFields(LeaderXml(m), CtlFieldsXml(m, resort), DataFieldsXml(m, resort));
  }
}
