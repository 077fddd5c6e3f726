/** `MARCXMLQuery` (query.py): the getters that turn the values found by
    `get_subfields` into persons, corporations, ISBNs and URLs. The two
    parse loops are methods over a parser object, proved against the
    functions that say what they collect. */
module Query {
  import opened Wrappers
  import opened Seqs
  import opened Text
  import opened OrderedMaps
  import opened Subrecords
  import opened Parser
  import opened ParserFacts

  /** `Person(name, second_name, surname, title)` (structures/person.py). */
  datatype Person = Person(name: string, secondName: string, surname: string, title: string)

  /** `Corporation(name, place, date)` (structures/corporation.py); the
      name is the subrecord itself, which compares as its value. */
  datatype Corporation = Corporation(name: string, place: string, date: string)

  type Subs = seq<(string, seq<Subrecord>)>

  // ---------------------------------------------------------------------
  // What a value's `other_subfields` holds

  /** The dict a back-reference leads to. A field reference is the field
      itself: its subfield codes (its indicator keys are never a
      one-character code). A tag reference is a list of dicts, in which no
      code is found: `"4" in other_subfields` is false for it. */
  function OtherSubfields(m: RecordModel, ref: BackRef): (r: Subs)
    ensures ref.TagRef? ==> r == []
  {
    match ref
    case TagRef(_) => []
    case FieldRef(t, k) =>
      var fields := GetList(m.datafields, t);
      if k < |fields| then fields[k].subs else []
  }

  /** `",".join(other_subfields[code])` when the code is present, else "". */
  function Joined(other: Subs, code: string): (r: string)
    ensures code !in Keys(other) ==> r == ""
  {
    if code in Keys(other) then Join(",", Values(GetList(other, code))) else ""
  }

  /** `any(map(lambda role: role in roles, values))` */
  function AnyRoleIn(values: seq<Subrecord>, roles: seq<string>): (r: bool)
    ensures r <==> exists j :: 0 <= j < |values| && Str(values[j]) in roles
  {
    if values == [] then false
    else Str(values[0]) in roles || AnyRoleIn(values[1..], roles)
  }

  /** The role filter: a value whose field has relator codes (subfield 4)
      is kept only when one of them is among `roles`, unless `roles` is
      `["any"]`. */
  function Relevant(other: Subs, roles: seq<string>): (r: bool)
    ensures "4" !in Keys(other) ==> r
    ensures roles == ["any"] ==> r
    ensures "4" in Keys(other) && roles != ["any"] ==>
      (r <==> exists j :: 0 <= j < |GetList(other, "4")| && Str(GetList(other, "4")[j]) in roles)
  {
    !("4" in Keys(other) && roles != ["any"]) || AnyRoleIn(GetList(other, "4"), roles)
  }

  predicate KeptIn(m: RecordModel, s: Subrecord, roles: seq<string>) {
    Relevant(OtherSubfields(m, s.other), roles)
  }

  /** The values the role filter lets through, in order. */
  function Kept(m: RecordModel, vals: seq<Subrecord>, roles: seq<string>): (r: seq<Subrecord>)
    ensures |r| <= |vals|
    decreases |vals|
  {
    if vals == [] then []
    else
      var last := vals[|vals| - 1];
      Kept(m, vals[..|vals| - 1], roles) + (if KeptIn(m, last, roles) then [last] else [])
  }

  lemma KeptNext(m: RecordModel, vals: seq<Subrecord>, i: nat, roles: seq<string>)
    requires i < |vals|
    ensures Kept(m, vals[..i + 1], roles) ==
      Kept(m, vals[..i], roles) + (if KeptIn(m, vals[i], roles) then [vals[i]] else [])
  {
    assert vals[..i + 1][..i] == vals[..i];
  }

  /** A value is kept exactly when it is found and passes the role filter. */
  lemma {:induction false} KeptMembers(m: RecordModel, vals: seq<Subrecord>, roles: seq<string>, s: Subrecord)
    ensures s in Kept(m, vals, roles) <==> s in vals && KeptIn(m, s, roles)
    decreases |vals|
  {
    if vals != [] {
      var prefix := vals[..|vals| - 1];
      var last := vals[|vals| - 1];
      LastSplit(vals);
      KeptMembers(m, prefix, roles, s);
      if KeptIn(m, last, roles) {
        assert Kept(m, vals, roles) == Kept(m, prefix, roles) + [last];
      } else {
        assert Kept(m, vals, roles) == Kept(m, prefix, roles) + [];
        AppendNil(Kept(m, prefix, roles));
      }
    }
  }

  /** With `roles == ["any"]`, or when no value's field has relator codes,
      every value is kept. */
  lemma {:induction false} KeptAll(m: RecordModel, vals: seq<Subrecord>, roles: seq<string>)
    requires roles == ["any"] || forall j :: 0 <= j < |vals| ==> "4" !in Keys(OtherSubfields(m, vals[j].other))
    ensures Kept(m, vals, roles) == vals
    decreases |vals|
  {
    if vals != [] {
      var prefix := vals[..|vals| - 1];
      var last := vals[|vals| - 1];
      assert forall j :: 0 <= j < |prefix| ==> prefix[j] == vals[j];
      KeptAll(m, prefix, roles);
      assert KeptIn(m, last, roles);
      LastSplit(vals);
    }
  }

  lemma KeptConcat(m: RecordModel, a: seq<Subrecord>, b: seq<Subrecord>, roles: seq<string>)
    ensures Kept(m, a + b, roles) == Kept(m, a, roles) + Kept(m, b, roles)
    decreases |b|
  {
    if b == [] {
      assert a + b == a;
      AppendNil(Kept(m, a, roles));
    } else {
      var p := b[..|b| - 1];
      var last := b[|b| - 1];
      assert (a + b)[..|a + b| - 1] == a + p;
      KeptConcat(m, a, p, roles);
      AppendAssoc(Kept(m, a, roles), Kept(m, p, roles), if KeptIn(m, last, roles) then [last] else []);
    }
  }

  // ---------------------------------------------------------------------
  // Persons

  /** `surname, name = person.split(",", 1)`, else the same at the first
      space, else the whole value is the surname. */
  function SurnameAndName(v: string): (string, string) {
    if ',' in v then var parts := SplitOnce(v, ','); (parts[0], parts[1])
    else if ' ' in v then var parts := SplitOnce(v, ' '); (parts[0], parts[1])
    else (v, "")
  }

  /** One person from its value, its field's indicators and the values of
      its field's subfields b and c joined by commas ("" when absent): the
      three indicator pairs the source knows, and four empty strings for any
      other pair. Every component comes out stripped. */
  function PersonFrom(val: string, i1: string, i2: string, b: string, c: string): (p: Person)
    ensures IsStripped(p.name) && IsStripped(p.secondName) && IsStripped(p.surname) && IsStripped(p.title)
    ensures (!(i1 == "1" && i2 == " ") && !(i1 == "0" && i2 == " ") && !(i1 in {"0", "1"} && i2 == "0"))
      ==> p == Person("", "", "", "")
  {
    var v := Strip(val);
    var (name, secondName, surname, title) :=
      if i1 == "1" && i2 == " " then
        var (sur, n) := SurnameAndName(v);
        (n, "", sur, c)
      else if i1 == "0" && i2 == " " then
        (v, b, c, "")
      else if (i1 == "1" && i2 == "0") || (i1 == "0" && i2 == "0") then
        (v, "", "", c)
      else
        ("", "", "", "");
    Person(Strip(name), Strip(secondName), Strip(surname), Strip(title))
  }

  /** The person of one value found by `get_subfields`. */
  function PersonOf(s: Subrecord, other: Subs): Person {
    PersonFrom(s.val, s.i1, s.i2, Joined(other, "b"), Joined(other, "c"))
  }

  /** Indicators "1", " " with a comma: the surname is what precedes the
      first comma, the name what follows it. */
  lemma PersonAtComma(s: Subrecord, other: Subs, a: string, b: string)
    requires s.i1 == "1" && s.i2 == " "
    requires Strip(s.val) == a + "," + b && ',' !in a
    ensures PersonOf(s, other) == Person(Strip(b), "", Strip(a), Strip(Joined(other, "c")))
  {
    SplitOnceAt(a, ',', b);
  }

  /** Without a comma the first space cuts surname from name. */
  lemma PersonAtSpace(s: Subrecord, other: Subs, a: string, b: string)
    requires s.i1 == "1" && s.i2 == " "
    requires Strip(s.val) == a + " " + b && ' ' !in a && ',' !in Strip(s.val)
    ensures PersonOf(s, other) == Person(Strip(b), "", Strip(a), Strip(Joined(other, "c")))
  {
    SplitOnceAt(a, ' ', b);
  }

  /** A value without comma and space is all surname. */
  lemma PersonSurnameOnly(s: Subrecord, other: Subs)
    requires s.i1 == "1" && s.i2 == " "
    requires ',' !in Strip(s.val) && ' ' !in Strip(s.val)
    ensures PersonOf(s, other) == Person("", "", Strip(s.val), Strip(Joined(other, "c")))
  {
    StripIdempotent(s.val);
    assert Strip("") == "";
  }

  /** Indicators "0", " ": the value is the name, subfields b and c give
      the second name and the surname. */
  lemma PersonForename(s: Subrecord, other: Subs)
    requires s.i1 == "0" && s.i2 == " "
    ensures PersonOf(s, other) == Person(Strip(s.val), Strip(Joined(other, "b")), Strip(Joined(other, "c")), "")
  {
    StripIdempotent(s.val);
    assert Strip("") == "";
  }

  /** Indicators "1", "0" or "0", "0": the value is the name, subfield c the
      title. */
  lemma PersonWithTitle(s: Subrecord, other: Subs)
    requires s.i1 in {"0", "1"} && s.i2 == "0"
    ensures PersonOf(s, other) == Person(Strip(s.val), "", "", Strip(Joined(other, "c")))
  {
    StripIdempotent(s.val);
    assert Strip("") == "";
  }

  /** "Surname, Name" under indicators "1", " ". */
  lemma SurnameCommaName(a: string, b: string, ref: BackRef)
    requires a != [] && IsStripped(a) && ',' !in a && b != [] && IsStripped(b)
    ensures PersonOf(Subrecord(a + ", " + b, "1", " ", ref), []) == Person(b, "", a, "")
  {
    var v := a + ", " + b;
    assert v == a + "," + (" " + b);
    assert IsStripped(v);
    StripOfStripped(v);
    PersonAtComma(Subrecord(v, "1", " ", ref), [], a, " " + b);
    StripOfStripped(a);
    StripLeadingBlank(b);
    assert Strip("") == "";
  }

  /** The author of the unit tests' record. */
  lemma RaymondExample(ref: BackRef)
    ensures PersonOf(Subrecord("Raymond, Eric S.", "1", " ", ref), []) == Person("Eric S.", "", "Raymond", "")
  {
    assert "Raymond, Eric S." == "Raymond" + ", " + "Eric S.";
    SurnameCommaName("Raymond", "Eric S.", ref);
  }

  function PersonIn(m: RecordModel, s: Subrecord): Person {
    PersonOf(s, OtherSubfields(m, s.other))
  }

  /** What the loop of `_parse_persons` collects: one person per kept
      value, in order. */
  function PersonsOf(m: RecordModel, vals: seq<Subrecord>, roles: seq<string>): (r: seq<Person>)
    ensures |r| == |Kept(m, vals, roles)|
    ensures forall i :: 0 <= i < |r| ==> r[i] == PersonIn(m, Kept(m, vals, roles)[i])
    decreases |vals|
  {
    if vals == [] then []
    else
      var last := vals[|vals| - 1];
      PersonsOf(m, vals[..|vals| - 1], roles) + (if KeptIn(m, last, roles) then [PersonIn(m, last)] else [])
  }

  lemma PersonsOfNext(m: RecordModel, vals: seq<Subrecord>, i: nat, roles: seq<string>)
    requires i < |vals|
    ensures PersonsOf(m, vals[..i + 1], roles) ==
      PersonsOf(m, vals[..i], roles) + (if KeptIn(m, vals[i], roles) then [PersonIn(m, vals[i])] else [])
  {
    assert vals[..i + 1][..i] == vals[..i];
  }

  /** The values of a code under a tag, unfiltered by indicators. */
  function Found(m: RecordModel, tag: string, code: string, i1: Option<string>, i2: Option<string>): seq<Subrecord> {
    Collected(GetList(m.datafields, tag), code, i1, i2)
  }

  /** `_parse_persons(datafield, subfield, roles)`; the lengths are checked
      by `get_subfields`. */
  function Persons(m: RecordModel, tag: string, code: string, roles: seq<string>): (r: Result<seq<Person>>)
    ensures r.Err? <==> |tag| != 3 || |code| != 1
    ensures r.Err? ==> r.error.ValueError?
    ensures r.Ok? ==> r.value == PersonsOf(m, Found(m, tag, code, None, None), roles)
  {
    match Subfields(m, tag, code, None, None, false)
    case Err(e) => Err(e)
    case Ok(vals) => Ok(PersonsOf(m, vals, roles))
  }

  /** The role list `_parse_persons` uses by default. */
  const AuthorRoles := ["aut"]

  /** `get_authors`: the persons of tags 100, 600, 700 and 800, in that order. */
  function Authors(m: RecordModel): (r: seq<Person>)
    ensures r == PersonsOf(m, Found(m, "100", "a", None, None), AuthorRoles) + PersonsOf(m, Found(m, "600", "a", None, None), AuthorRoles)
               + PersonsOf(m, Found(m, "700", "a", None, None), AuthorRoles) + PersonsOf(m, Found(m, "800", "a", None, None), AuthorRoles)
  {
    Persons(m, "100", "a", AuthorRoles).value + Persons(m, "600", "a", AuthorRoles).value
      + Persons(m, "700", "a", AuthorRoles).value + Persons(m, "800", "a", AuthorRoles).value
  }

  // ---------------------------------------------------------------------
  // Corporations

  /** One corporation: the value, then the subfields c and d of its field
      joined by commas, "" when absent. */
  function CorporationOf(s: Subrecord, other: Subs): (c: Corporation)
    ensures c.name == Str(s)
    ensures "c" !in Keys(other) ==> c.place == ""
    ensures "d" !in Keys(other) ==> c.date == ""
  {
    Corporation(Str(s), Joined(other, "c"), Joined(other, "d"))
  }

  function CorporationIn(m: RecordModel, s: Subrecord): Corporation {
    CorporationOf(s, OtherSubfields(m, s.other))
  }

  /** What the loop of `_parse_corporations` collects. */
  function CorporationsOf(m: RecordModel, vals: seq<Subrecord>, roles: seq<string>): (r: seq<Corporation>)
    ensures |r| == |Kept(m, vals, roles)|
    ensures forall i :: 0 <= i < |r| ==> r[i] == CorporationIn(m, Kept(m, vals, roles)[i])
    decreases |vals|
  {
    if vals == [] then []
    else
      var last := vals[|vals| - 1];
      CorporationsOf(m, vals[..|vals| - 1], roles) + (if KeptIn(m, last, roles) then [CorporationIn(m, last)] else [])
  }

  lemma CorporationsOfNext(m: RecordModel, vals: seq<Subrecord>, i: nat, roles: seq<string>)
    requires i < |vals|
    ensures CorporationsOf(m, vals[..i + 1], roles) ==
      CorporationsOf(m, vals[..i], roles) + (if KeptIn(m, vals[i], roles) then [CorporationIn(m, vals[i])] else [])
  {
    assert vals[..i + 1][..i] == vals[..i];
  }

  /** `_parse_corporations(datafield, subfield, roles)`, which checks the
      lengths itself. */
  function Corporations(m: RecordModel, tag: string, code: string, roles: seq<string>): (r: Result<seq<Corporation>>)
    ensures |tag| != 3 ==> r == Err(ValueError(BadName))
    ensures |tag| == 3 && |code| != 1 ==> r == Err(ValueError(BadSubfieldCode))
    ensures |tag| == 3 && |code| == 1 ==> r == Ok(CorporationsOf(m, Found(m, tag, code, None, None), roles))
  {
    if |tag| != 3 then Err(ValueError(BadName))
    else if |code| != 1 then Err(ValueError(BadSubfieldCode))
    else Ok(CorporationsOf(m, Subfields(m, tag, code, None, None, false).value, roles))
  }

  /** The role list `get_corporations` uses by default: distributors. */
  const DistributorRoles := ["dst"]

  /** `get_corporations(roles)`: tags 110, 610, 710 and 810, in that order. */
  function AllCorporations(m: RecordModel, roles: seq<string>): (r: seq<Corporation>)
    ensures r == CorporationsOf(m, Found(m, "110", "a", None, None), roles) + CorporationsOf(m, Found(m, "610", "a", None, None), roles)
               + CorporationsOf(m, Found(m, "710", "a", None, None), roles) + CorporationsOf(m, Found(m, "810", "a", None, None), roles)
  {
    Corporations(m, "110", "a", roles).value + Corporations(m, "610", "a", roles).value
      + Corporations(m, "710", "a", roles).value + Corporations(m, "810", "a", roles).value
  }

  // ---------------------------------------------------------------------
  // The loops

  /** `_parse_persons` */
  method ParsePersons(p: MarcXmlParser, tag: string, code: string, roles: seq<string>) returns (r: Result<seq<Person>>)
    ensures r == Persons(p.Model(), tag, code, roles)
  {
    var raw := p.GetSubfields(tag, code, None, None, false);
    if raw.Err? {
      return Err(raw.error);
    }
    var vals := raw.value;
    var parsed := [];
    var i := 0;
    while i < |vals|
      invariant 0 <= i <= |vals|
      invariant parsed == PersonsOf(p.Model(), vals[..i], roles)
    {
      PersonsOfNext(p.Model(), vals, i, roles);
      var other := OtherSubfields(p.Model(), vals[i].other);
      if Relevant(other, roles) {
        parsed := parsed + [PersonOf(vals[i], other)];
      } else {
        AppendNil(parsed);
      }
      i := i + 1;
    }
    assert vals[..i] == vals;
    return Ok(parsed);
  }

  /** `_parse_corporations` */
  method ParseCorporations(p: MarcXmlParser, tag: string, code: string, roles: seq<string>)
    returns (r: Result<seq<Corporation>>)
    ensures r == Corporations(p.Model(), tag, code, roles)
  {
    if |tag| != 3 {
      return Err(ValueError(BadName));
    }
    if |code| != 1 {
      return Err(ValueError(BadSubfieldCode));
    }
    var raw := p.GetSubfields(tag, code, None, None, false);
    var vals := raw.value;
    var parsed := [];
    var i := 0;
    while i < |vals|
      invariant 0 <= i <= |vals|
      invariant parsed == CorporationsOf(p.Model(), vals[..i], roles)
    {
      CorporationsOfNext(p.Model(), vals, i, roles);
      var other := OtherSubfields(p.Model(), vals[i].other);
      if Relevant(other, roles) {
        parsed := parsed + [CorporationOf(vals[i], other)];
      } else {
        AppendNil(parsed);
      }
      i := i + 1;
    }
    assert vals[..i] == vals;
    return Ok(parsed);
  }

  /** `get_authors` */
  method GetAuthors(p: MarcXmlParser) returns (authors: seq<Person>)
    ensures authors == Authors(p.Model())
  {
    var a := ParsePersons(p, "100", "a", AuthorRoles);
    var b := ParsePersons(p, "600", "a", AuthorRoles);
    var c := ParsePersons(p, "700", "a", AuthorRoles);
    var d := ParsePersons(p, "800", "a", AuthorRoles);
    authors := a.value + b.value + c.value + d.value;
  }

  /** `get_corporations` */
  method GetCorporations(p: MarcXmlParser, roles: seq<string>) returns (corporations: seq<Corporation>)
    ensures corporations == AllCorporations(p.Model(), roles)
  {
    var a := ParseCorporations(p, "110", "a", roles);
    var b := ParseCorporations(p, "610", "a", roles);
    var c := ParseCorporations(p, "710", "a", roles);
    var d := ParseCorporations(p, "810", "a", roles);
    corporations := a.value + b.value + c.value + d.value;
  }

  // ---------------------------------------------------------------------
  // ISBNs and URLs

  /** `map(lambda ISBN: ISBN.strip().split(" ", 1)[0], vals)` */
  function FirstTokens(vals: seq<Subrecord>): (r: seq<string>)
    ensures |r| == |vals|
    ensures forall i :: 0 <= i < |r| ==> r[i] == FirstToken(Strip(Str(vals[i])))
  {
    seq(|vals|, i requires 0 <= i < |vals| => FirstToken(Strip(Str(vals[i]))))
  }

  /** `get_ISBNs`: the first token of each 020$a, else of each 901$i, else
      nothing. The strict lookup the source repeats returns the same
      values, since they are not empty (see `StrictLookupAgrees`). */
  function ISBNs(m: RecordModel): (r: seq<string>)
    ensures forall i :: 0 <= i < |r| ==> ' ' !in r[i]
  {
    var a := Found(m, "020", "a", None, None);
    if a != [] then FirstTokens(a)
    else
      var b := Found(m, "901", "i", None, None);
      if b != [] then FirstTokens(b) else []
  }

  /** Each ISBN is the part of its stripped value before the first space:
      the values of 020$a when there are any, else those of 901$i. */
  lemma ISBNsAreFirstTokens(m: RecordModel)
    ensures var a := Found(m, "020", "a", None, None);
      var b := Found(m, "901", "i", None, None);
      var vals := if a != [] then a else b;
      |ISBNs(m)| == |vals| &&
      forall i :: 0 <= i < |vals| ==>
        ISBNs(m)[i] <= Strip(Str(vals[i])) &&
        (' ' in Strip(Str(vals[i])) ==> Strip(Str(vals[i]))[|ISBNs(m)[i]|] == ' ')
  {
    var a := Found(m, "020", "a", None, None);
    var b := Found(m, "901", "i", None, None);
    var vals := if a != [] then a else b;
    forall i | 0 <= i < |vals|
      ensures ISBNs(m)[i] <= Strip(Str(vals[i])) &&
        (' ' in Strip(Str(vals[i])) ==> Strip(Str(vals[i]))[|ISBNs(m)[i]|] == ' ')
    {
      var v := Strip(Str(vals[i]));
      if ' ' in v {
        var parts := SplitOnce(v, ' ');
        assert v == parts[0] + [' '] + parts[1];
        assert v[|parts[0]|] == ' ';
      }
    }
  }

  /** The ISBN of the unit tests' record. */
  lemma ISBNExample()
    ensures FirstToken(Strip("80-251-0225-4 (brož.) :")) == "80-251-0225-4"
  {
    StripOfStripped("80-251-0225-4 (brož.) :");
    assert "80-251-0225-4 (brož.) :" == "80-251-0225-4" + " " + "(brož.) :";
    FirstTokenAt("80-251-0225-4", "(brož.) :");
  }

  /** The repeated strict lookup of `get_ISBNs` cannot raise: it finds the
      values the first lookup found. */
  lemma StrictLookupAgrees(m: RecordModel, tag: string, code: string)
    requires |tag| == 3 && |code| == 1 && Found(m, tag, code, None, None) != []
    ensures Subfields(m, tag, code, None, None, true) == Ok(Found(m, tag, code, None, None))
  {
  }

  /** `map(lambda x: x.replace("&amp;", "&"), vals)` */
  function Unescaped(vals: seq<Subrecord>): (r: seq<string>)
    ensures |r| == |vals|
    ensures forall i :: 0 <= i < |r| ==> r[i] == UnescapeAmp(Str(vals[i]))
  {
    seq(|vals|, i requires 0 <= i < |vals| => UnescapeAmp(Str(vals[i])))
  }

  lemma UnescapedConcat(a: seq<Subrecord>, b: seq<Subrecord>)
    ensures Unescaped(a + b) == Unescaped(a) + Unescaped(b)
  {
  }

  /** `get_urls`: 856$u of the fields with indicators "4", "2". */
  function Urls(m: RecordModel): (r: seq<string>)
    ensures var vals := Found(m, "856", "u", Some("4"), Some("2"));
      |r| == |vals| &&
      forall i :: 0 <= i < |vals| ==>
        vals[i].i1 == "4" && vals[i].i2 == "2" && r[i] == UnescapeAmp(Str(vals[i]))
  {
    Unescaped(Found(m, "856", "u", Some("4"), Some("2")))
  }

  /** `get_internal_urls`: 856$u of the fields with indicators "4", "0",
      then every 998$a. */
  function InternalUrls(m: RecordModel): (r: seq<string>)
    ensures var a := Found(m, "856", "u", Some("4"), Some("0"));
      r == Unescaped(a) + Unescaped(Found(m, "998", "a", None, None)) &&
      forall i :: 0 <= i < |a| ==> a[i].i1 == "4" && a[i].i2 == "0"
  {
    var a := Found(m, "856", "u", Some("4"), Some("0"));
    UnescapedConcat(a, Found(m, "998", "a", None, None));
    Unescaped(a + Found(m, "998", "a", None, None))
  }

  /** No URL is missed: every 856$u value with the indicators "4", "2", in
      any field of the tag, is returned unescaped. */
  lemma UrlsComplete(m: RecordModel, j: int, s: Subrecord)
    requires var fs := GetList(m.datafields, "856");
      0 <= j < |fs| && Holds(fs[j], "u", s)
    requires s.i1 == "4" && s.i2 == "2"
    ensures UnescapeAmp(Str(s)) in Urls(m)
  {
    var fs := GetList(m.datafields, "856");
    CollectedMembers(fs, "u", Some("4"), Some("2"), s);
    var vals := Found(m, "856", "u", Some("4"), Some("2"));
    var i :| 0 <= i < |vals| && vals[i] == s;
    assert Urls(m)[i] == UnescapeAmp(Str(s));
  }

  lemma UrlRoundTrip(u: string, ref: BackRef)
    ensures Unescaped([Subrecord(EscapeAmp(u), "4", "2", ref)]) == [u]
  {
    UnescapeEscapeAmp(u);
  }

  // ---------------------------------------------------------------------
  // The role filter and the back-reference of added fields

  /** A person added with a relator code, as `add_data_field` gets it. */
  function AuthorItems(value: string, role: string): seq<(string, ArgValue)> {
    [("a", Scalar(value)), ("4", Scalar(role))]
  }

  lemma AuthorItemsLists(value: string, role: string, i1: string, i2: string, ref: BackRef)
    ensures var subs := SubrecordLists(AuthorItems(value, role), i1, i2, ref);
      "4" in Keys(subs) &&
      GetList(subs, "a") == [Subrecord(value, i1, i2, ref)] &&
      GetList(subs, "4") == [Subrecord(role, i1, i2, ref)]
  {
    var items := AuthorItems(value, role);
    assert UniqueKeys(items) by { assert items[0].0 != items[1].0; }
    SubrecordListsKeys(items, i1, i2, ref);
    assert Keys(items)[1] == "4";
    FindFirst(items, "a", 0);
    FindFirst(items, "4", 1);
    SubrecordListsContent(items, i1, i2, ref, "a");
    SubrecordListsContent(items, i1, i2, ref, "4");
  }

  /** The first field of a blank record. */
  lemma AddedToBlank(name: string, i1: string, i2: string, items: seq<(string, ArgValue)>, ref: BackRef)
    requires CheckDataField(name, i1, i2, Dict(items)) == Pass
    ensures WithDataFieldRef(Blank, name, i1, i2, Dict(items), ref) ==
      Ok(Blank.(datafields := [(name, [Field(i1, i2, false, SubrecordLists(items, i1, i2, ref))])]))
  {
    var f := Field(i1, i2, false, SubrecordLists(items, i1, i2, ref));
    AppendToMissing(Blank.datafields, name, f);
    AppendNil([(name, [f])]);
  }

  /** The values of a tag that is absent. */
  lemma FoundAbsent(m: RecordModel, tag: string, code: string, i1: Option<string>, i2: Option<string>)
    requires tag !in Keys(m.datafields)
    ensures Found(m, tag, code, i1, i2) == []
  {
  }

  /** The values of a tag with one field holding one value of the code. */
  lemma FoundSingle(m: RecordModel, tag: string, f: Field, code: string, s: Subrecord)
    requires m.datafields == [(tag, [f])] && code in Keys(f.subs) && GetList(f.subs, code) == [s]
    ensures Found(m, tag, code, None, None) == [s]
  {
    GetListSingle(tag, [f]);
    CollectedSnoc([], f, code, None, None);
    assert [] + [f] == [f];
    MatchingAll([s], None, None);
    AppendNil([s]);
  }

  lemma PersonsOfSingle(m: RecordModel, s: Subrecord, roles: seq<string>)
    ensures PersonsOf(m, [s], roles) == if KeptIn(m, s, roles) then [PersonIn(m, s)] else []
  {
    assert [s][..0] == [];
    AppendNil(if KeptIn(m, s, roles) then [PersonIn(m, s)] else []);
  }

  /** With a single relator code the filter asks whether it is wanted. */
  lemma SingleRole(other: Subs, r: Subrecord, roles: seq<string>)
    requires "4" in Keys(other) && GetList(other, "4") == [r] && roles != ["any"]
    ensures Relevant(other, roles) <==> Str(r) in roles
  {
    assert AnyRoleIn([r], roles) <==> Str(r) in roles;
  }

  /** A record whose only data field is one 100 field with one value in
      subfield a has that value's person as its authors, or none, as the
      role filter decides. */
  lemma AuthorsOfSingleField(m: RecordModel, f: Field, s: Subrecord)
    requires m.datafields == [("100", [f])] && "a" in Keys(f.subs) && GetList(f.subs, "a") == [s]
    ensures Authors(m) == if KeptIn(m, s, AuthorRoles) then [PersonIn(m, s)] else []
  {
    assert Keys(m.datafields) == ["100"];
    FoundSingle(m, "100", f, "a", s);
    FoundAbsent(m, "600", "a", None, None);
    FoundAbsent(m, "700", "a", None, None);
    FoundAbsent(m, "800", "a", None, None);
    PersonsOfSingle(m, s, AuthorRoles);
    var p := PersonsOf(m, [s], AuthorRoles);
    AppendNil(p);
  }

  /** As written, an added person's value refers to the tag's list, where
      no relator code is found: the person is an author whatever its role. */
  lemma AsWrittenAuthorAnyRole(a: string, b: string, role: string)
    requires a != [] && IsStripped(a) && ',' !in a && b != [] && IsStripped(b)
    ensures Authors(Apply(Blank, WithDataFieldAsWritten(Blank, "100", "1", " ", Dict(AuthorItems(a + ", " + b, role)))))
              == [Person(b, "", a, "")]
  {
    var items := AuthorItems(a + ", " + b, role);
    var ref := TagRef("100");
    assert CheckDataField("100", "1", " ", Dict(items)) == Pass;
    AddedToBlank("100", "1", " ", items, ref);
    AuthorItemsLists(a + ", " + b, role, "1", " ", ref);
    var m := WithDataFieldAsWritten(Blank, "100", "1", " ", Dict(items)).value;
    var s := Subrecord(a + ", " + b, "1", " ", ref);
    AuthorsOfSingleField(m, Field("1", " ", false, SubrecordLists(items, "1", " ", ref)), s);
    SurnameCommaName(a, b, ref);
  }

  /** The field `add_data_field` makes of an author's items. */
  function AuthorField(value: string, role: string, ref: BackRef): Field {
    Field("1", " ", false, SubrecordLists(AuthorItems(value, role), "1", " ", ref))
  }

  lemma AuthorAdded(value: string, role: string, ref: BackRef)
    ensures WithDataFieldRef(Blank, "100", "1", " ", Dict(AuthorItems(value, role)), ref) ==
      Ok(Blank.(datafields := [("100", [AuthorField(value, role, ref)])]))
  {
    var items := AuthorItems(value, role);
    assert CheckDataField("100", "1", " ", Dict(items)) == Pass;
    AddedToBlank("100", "1", " ", items, ref);
  }

  /** A value that refers to the record's one field sees that field's
      relator code. */
  lemma RoleRejected(m: RecordModel, f: Field, s: Subrecord, r: Subrecord)
    requires m.datafields == [("100", [f])] && s.other == FieldRef("100", 0)
    requires "4" in Keys(f.subs) && GetList(f.subs, "4") == [r] && Str(r) != "aut"
    ensures !KeptIn(m, s, AuthorRoles)
  {
    GetListSingle("100", [f]);
    SingleRole(f.subs, r, AuthorRoles);
  }

  /** Corrected, the value refers to its own field, whose relator code
      decides: a person whose only role is not "aut" is no author. */
  lemma CorrectedAuthorNeedsRole(value: string, role: string)
    requires role != "aut"
    ensures Authors(Apply(Blank, WithDataField(Blank, "100", "1", " ", Dict(AuthorItems(value, role))))) == []
  {
    var ref := FieldRef("100", 0);
    var f := AuthorField(value, role, ref);
    var m := Blank.(datafields := [("100", [f])]);
    AuthorAdded(value, role, ref);
    AuthorItemsLists(value, role, "1", " ", ref);
    RoleRejected(m, f, Subrecord(value, "1", " ", ref), Subrecord(role, "1", " ", ref));
    AuthorsOfSingleField(m, f, Subrecord(value, "1", " ", ref));
  }

  /** The two halves on one input: an illustrator added as "Doe, John". */
  lemma IllustratorExample()
    ensures Authors(Apply(Blank, WithDataFieldAsWritten(Blank, "100", "1", " ", Dict(AuthorItems("Doe, John", "ill")))))
              == [Person("John", "", "Doe", "")]
    ensures Authors(Apply(Blank, WithDataField(Blank, "100", "1", " ", Dict(AuthorItems("Doe, John", "ill"))))) == []
  {
    assert "Doe, John" == "Doe" + ", " + "John";
    AsWrittenAuthorAnyRole("Doe", "John", "ill");
    CorrectedAuthorNeedsRole("Doe, John", "ill");
  }
}
