# MARC-XML / OAI-MARC record codec, modelled in Dafny

This models the record codec of `marcxml_parser`. The codec holds one library
record with these parts:

- a leader;
- a dialect flag, MARC 21 "slim" XML or OAI-MARC;
- an ordered dictionary of control fields;
- an ordered dictionary of data fields. Each tag maps to a list of field
  dicts, one per occurrence in the document. A field dict holds two
  indicators and, for each subfield code, the list of its values.

The model covers both codecs of the repository.

- **The current one** is spread over several classes:
  - `MARCXMLParser` parses, adds fields and looks them up;
  - `MARCXMLSerializer` writes the record back;
  - `MARCXMLQuery` has the getters for authors, corporations, ISBNs and
    URLs;
  - `MARCSubrecord` is a subfield value that carries its field's
    indicators and a back-reference.
- **The older one** is `MARCXMLRecord` in `marcxml.py`. It does the same
  things with plain dicts and some different contracts.
- **The two canonical orders** (`resorted`) are what the serializers visit
  keys in.

Modules follow the source files:

| module | file | models |
|---|---|---|
| `Tools` | tools.dfy | `tools/resorted.py`: sorted, then rotated at the first word |
| `LegacyOrder` | legacy_order.dfy | `resorted.py` and the copy in `marcxml.py`: sorted non-digit values, then sorted digit values |
| `Sorting` | sorting.dfy | Python's `sorted` on strings: an insertion sort, with the facts that it is an ordered permutation and that it depends only on the multiset of its input |
| `Subrecords` | marcsubrecord.dfy | `MARCSubrecord` |
| `Elements` | element.dfy | the XML tree handed over by the tree parser: attributes, text, `subfield` children, and the `find` results of a `record` |
| `Parser` | parser.dfy | `MARCXMLParser`: a specification function per operation, and the class `MarcXmlParser` whose methods update its fields |
| `ParserFacts` | parser_facts.dfy | the properties of the parser, the additions and the lookups |
| `Serializer` | serializer.dfy | `MARCXMLSerializer` |
| `Query` | query.dfy | `MARCXMLQuery` |
| `Legacy` | marcxml.dfy | `MARCXMLRecord` and `MarcSubrecord` of `marcxml.py`, and the class `MarcXmlRecord` |
| `Text`, `OrderedMaps`, `Seqs`, `Wrappers` | text.dfy, ordered_map.dfy, seqs.dfy, wrappers.dfy | `str.strip`, `split(sep, 1)`, `join`, `replace`, `isdigit`; OrderedDict as a sequence of pairs; errors as values |

Each object with state is a class whose methods change its fields. Each
method is proved equal to a specification function of the old state, and
the properties are proved as lemmas about those functions. Python
exceptions are `Err` values of a `Result`, with the exception class kept:
`ValueError`, `KeyError`, `IndexError`, or `AttributeError` for the crash
when a subfield code equals an indicator key name. When the code raises
part way through a loop, the model, like the source, keeps the state
reached so far.

## Model

| member | source | states |
|---|---|---|
| `Tools.FirstWord` | src/marcxml_parser/tools/resorted.py:33-38 | The index of the first value that is non-empty and does not start with a digit. `None` when there is no such value. |
| `Tools.Cut` | src/marcxml_parser/tools/resorted.py:40-45 | The cut point is the first word, or the end of the list. Nothing before it is a word. |
| `Tools.ResortedIsRotation` | src/marcxml_parser/tools/resorted.py:28-47 | The result is the sorted list rotated at its first word, `s[k:] + s[:k]`. This covers the empty input and the case with no word. |
| `Tools.ResortedPermutation` | src/marcxml_parser/tools/resorted.py:31-47 | The output has the same length and the same multiset of values as the input. |
| `Tools.ResortedDependsOnMultiset` | src/marcxml_parser/tools/resorted.py:31 | Inputs that are permutations of each other give the same output. |
| `Tools.ResortedIdempotent` | src/marcxml_parser/tools/resorted.py:31 | Applying it twice is the same as applying it once. |
| `Tools.ResortedWithoutWords` | src/marcxml_parser/tools/resorted.py:40-42 | With no word in the input, the plain sorted list is returned. |
| `Tools.Words` | src/marcxml_parser/tools/resorted.py:44 | Every value kept is a word. |
| `Tools.NonWords` | src/marcxml_parser/tools/resorted.py:45 | No value kept is a word. |
| `Tools.FilterSplit` | src/marcxml_parser/tools/resorted.py:44-45 | At the cut of a list whose words all come after its non-words, the words are the tail and the rest are the head. |
| `Tools.ResortedWordsThenNumbers` | src/marcxml_parser/tools/resorted.py:16-20 | When every word starts above `'9'`, the result is the sorted words followed by the sorted rest. |
| `Tools.ResortedSmall` | tests/tools/test_resorted.py:17-38 | `[]` gives `[]`, `["a"]` gives `["a"]` and `["2","1"]` gives `["1","2"]`. |
| `Tools.ResortedLettersFirst` | tests/tools/test_resorted.py:13-14 | `["b","1","a"]` gives `["a","b","1"]`. |
| `Tools.SortCharacters` | tests/tools/test_resorted.py:29-30 | The characters of `"1bc3a"` sort to `1,3,a,b,c`. |
| `Tools.ResortedCharacters` | tests/tools/test_resorted.py:29-30 | The characters of `"1bc3a"` give `list("abc13")`. |
| `Tools.ResortedDigitLedWord` | tests/tools/test_resorted.py:33-34 | `"3a"` comes last, after `"hello"` and `"world"`. |
| `Tools.ResortedEmptyString` | tests/tools/test_resorted.py:41-42 | `["a","","1"]` comes back as it is. The empty string goes to the trailing part. |
| `LegacyOrder.NonDigits` | src/marcxml_parser/resorted.py:29 | No value kept is all digits. |
| `LegacyOrder.Digits` | src/marcxml_parser/resorted.py:30 | Every value kept is all digits. |
| `LegacyOrder.FiltersPartition` | src/marcxml_parser/resorted.py:29-30 | The two filters lose and add nothing: their multisets add up to the input's. |
| `LegacyOrder.FiltersSorted` | src/marcxml_parser/resorted.py:28-30 | Filtering a sorted list keeps it sorted. |
| `LegacyOrder.ResortedPermutation` | src/marcxml_parser/resorted.py:28-32 | The output is a permutation of the input. |
| `LegacyOrder.ResortedShape` | src/marcxml_parser/resorted.py:28-32 | Every value that is not all digits comes before every value that is. Each group is sorted. |
| `LegacyOrder.ResortedDependsOnMultiset` | src/marcxml_parser/resorted.py:28 | Permutations of one input give the same output. |
| `LegacyOrder.ResortedIdempotent` | src/marcxml_parser/resorted.py:28 | Applying it twice is the same as applying it once. |
| `LegacyOrder.FiltersAgree` | src/marcxml_parser/resorted.py:29-30 | On values that are all digits, or that start with a non-digit, the older filters split like the current order's words and non-words. |
| `LegacyOrder.AgreesWithCurrentOnUnambiguous` | src/marcxml_parser/resorted.py:28-32 | On such values, for example MARC tags and subfield codes, the two orders are equal. |
| `LegacyOrder.ResortedExample` | src/marcxml_parser/resorted.py:16-20 | `["b","1","a"]` gives `["a","b","1"]`. |
| `LegacyOrder.DigitLedWordInPlace` | src/marcxml_parser/resorted.py:29-30 | `"3a"` counts as a word and keeps its sorted place, first. |
| `LegacyOrder.EmptyStringFirst` | src/marcxml_parser/resorted.py:29-30 | `""` counts as a word and sorts first: `["a","","1"]` gives `["","a","1"]`. |
| `LegacyOrder.EmptyWordDigits` | src/marcxml_parser/resorted.py:29-30 | For any word `w` above the digits and any all-digit `d`, `[w,"",d]` gives `["",w,d]`. |
| `Sorting.SortSorted` | src/marcxml_parser/tools/resorted.py:31 | `sorted` returns an ordered permutation of its input. |
| `Sorting.SortedUnique` | src/marcxml_parser/tools/resorted.py:31 | Two ordered lists with the same multiset are equal. |
| `Sorting.SortIs` | src/marcxml_parser/tools/resorted.py:31 | Any ordered permutation of the input is what `sorted` returns. |
| `Sorting.SortPermutationInvariant` | src/marcxml_parser/resorted.py:28 | Inputs with the same multiset sort alike. |
| `Subrecords.Values` | src/marcxml_parser/structures/marcsubrecord.py:43-44 | The string view of a list is `str` of each element, in order. |
| `Subrecords.ConstructorKeepsArguments` | src/marcxml_parser/structures/marcsubrecord.py:37-44 | The constructor stores `val`, `i1`, `i2` and `other_subfields` unchanged, and `str` gives back `val`. |
| `Subrecords.EqualityIsStringEquality` | src/marcxml_parser/structures/marcsubrecord.py:34-35 | Equality is equality of `val`. A subrecord equals its own string, and changing its indicators or back-reference does not change what it equals. |
| `Subrecords.ValuesConcat` | src/marcxml_parser/structures/marcsubrecord.py:43-44 | The string view distributes over concatenation. |
| `Elements.ParamOr` | src/marcxml_parser/parser.py:169-170 | `params.get(key, default)`: the attribute when present, else the default. |
| `Wrappers.OutcomeOf` | src/marcxml_parser/parser.py:198-288 | An operation passes exactly when it returns `Ok`, and it fails with that same error. |
| `Parser.IName` | src/marcxml_parser/parser.py:304-312 | Gives `ind1`/`ind2` for MARC 21 and `i1`/`i2` for OAI. Any number other than 1 or 2 is `ValueError`. |
| `Parser.GetIName` | src/marcxml_parser/parser.py:290-312 | An explicit `is_oai` overrides the record's flag; `None` uses the flag. |
| `Parser.I1Name` | src/marcxml_parser/parser.py:314-319 | The property is `i1` for OAI and `ind1` otherwise. |
| `Parser.I2Name` | src/marcxml_parser/parser.py:321-326 | The property is `i2` for OAI and `ind2` otherwise. |
| `Parser.ParsedControlFields` | src/marcxml_parser/parser.py:128-145 | No key stored before is lost, and the keys stay unique. What each key then holds is `ParserFacts.ControlFieldsLastWins`. |
| `Parser.ParsedSubfields` | src/marcxml_parser/parser.py:174-190 | The only error is the `AttributeError` of a code equal to an indicator key, and no stored code is an indicator key of the dialect. |
| `Parser.ParsedField` | src/marcxml_parser/parser.py:162-190 | The only error is that `AttributeError`. A parsed field is stored under the document's key names and none of its codes is an indicator key. |
| `Parser.ParsedDataFields` | src/marcxml_parser/parser.py:147-196 | The only error is that `AttributeError`. No tag stored before is lost and no tag's list gets shorter, even when the loop stops early. |
| `Parser.ParsedRecord` | src/marcxml_parser/parser.py:89-126 | No record gives `ValueError` and changes nothing. Otherwise the dialect is OAI exactly when the first record has `oai_marc`, the only error is the code clash, and no control or data key is lost. |
| `Parser.IndicatorKeysAreLong` | src/marcxml_parser/parser.py:310-312 | Indicator key names have at least two characters, and the four names are distinct. So no one-character code can be one. |
| `Parser.WithCtlField` | src/marcxml_parser/parser.py:198-206 | Succeeds exactly for a 3-character name, else `ValueError`. Sets or overwrites that key and leaves every other key and part alone. |
| `Parser.Wrapped` | src/marcxml_parser/parser.py:263-264 | A value that is not a list becomes a one-element list. |
| `Parser.ToSubrecords` | src/marcxml_parser/parser.py:266-269 | The values, in order, each carrying the given indicators and reference. |
| `Parser.WithDataFieldRef` | src/marcxml_parser/parser.py:236-288 | Succeeds exactly when the checks pass, and otherwise fails with the first failing check's error. Leader, dialect and control fields are unchanged. |
| `Parser.WithDataFieldAsWritten` | src/marcxml_parser/parser.py:236-288 | As the source writes it: succeeds exactly when the checks pass; then the tag's list grows by one field whose values point at the tag (`TagRef`), and every other tag is unchanged. |
| `Parser.GetCtlField` | src/marcxml_parser/parser.py:328-343 | A present key gives its value. A missing key gives a truthy `alt` if there is one, else `KeyError`. |
| `Parser.Matching` | src/marcxml_parser/parser.py:411-418 | The values kept are values of the list that pass the indicator filter, and there are no more of them than in the list. |
| `Parser.Collected` | src/marcxml_parser/parser.py:404-418 | Every value collected passes the indicator filter, and no field gives nothing. |
| `Parser.Subfields` | src/marcxml_parser/parser.py:387-423 | `ValueError` exactly for a bad tag or code length. A missing tag gives `KeyError` or `[]` depending on `exception`. For a present tag it succeeds exactly when `exception` is off or something was collected, and otherwise raises the not-in-subfields `KeyError`. A success is the collected, indicator-filtered values. |
| `Parser.MarcXmlParser.constructor` | src/marcxml_parser/parser.py:61-77 | A new object has no leader, the MARC 21 flag, empty dicts and the chosen `resort`. |
| `Parser.MarcXmlParser.ParseControlFields` | src/marcxml_parser/parser.py:128-145 | The new control fields are the specification's. Nothing else changes. |
| `Parser.MarcXmlParser.ParseDataFields` | src/marcxml_parser/parser.py:147-196 | The new data fields and the outcome are the specification's. Leader, flag and control fields are unchanged. |
| `Parser.MarcXmlParser.ParseString` | src/marcxml_parser/parser.py:89-126 | The new state and outcome are those of the document parse. |
| `Parser.MarcXmlParser.AddCtlField` | src/marcxml_parser/parser.py:198-206 | The state and outcome are those of `WithCtlField`. An error leaves the state as it was. |
| `Parser.MarcXmlParser.AddDataField` | src/marcxml_parser/parser.py:208-288 | The state and outcome are those of the corrected addition, whose new values point back at the new field (see Findings). An error leaves the state as it was. |
| `Parser.MarcXmlParser.GetSubfields` | src/marcxml_parser/parser.py:387-423 | The loops return exactly `Subfields` of the current state. |
| `Parser.MatchingValues` | src/marcxml_parser/parser.py:411-418 | The inner loop keeps exactly the values that pass the indicator filter, in order. |
| `Parser.ParseField` | src/marcxml_parser/parser.py:162-190 | One field element parses as `ParsedField` says. |
| `Parser.ParseSubfields` | src/marcxml_parser/parser.py:174-190 | The subfield loop returns `ParsedSubfields`, including the crash on a code equal to an indicator key. |
| `Parser.AddSubfield` | src/marcxml_parser/parser.py:175-190 | One subfield element is added to the dict as `SubfieldAdded` says. |
| `Parser.BuildSubrecordLists` | src/marcxml_parser/parser.py:256-272 | The item loop builds `SubrecordLists` of the items. |
| `ParserFacts.LastWithKey` | src/marcxml_parser/parser.py:138-145 | The last element that carries key `k`, or `None` when no element does. |
| `ParserFacts.ControlFieldsLastWins` | src/marcxml_parser/parser.py:138-145 | After the parse, a key holds the stripped content of the last element that carries it. Keys no element carries keep their old value. |
| `ParserFacts.SubfieldsOutcome` | src/marcxml_parser/parser.py:174-190 | The subfield parse fails exactly when some code names an indicator key, and then with `AttributeError`. |
| `ParserFacts.SubfieldsCarry` | src/marcxml_parser/parser.py:178-183 | Every parsed value carries the field's indicators and reference, and the codes are unique. |
| `ParserFacts.SubfieldsValues` | src/marcxml_parser/parser.py:175-190 | Each code holds the stripped contents of its elements, in document order. Elements without the code attribute are skipped. |
| `ParserFacts.FieldOutcome` | src/marcxml_parser/parser.py:168-190 | One field element parses exactly when none of its codes clashes; otherwise it fails with `AttributeError`. |
| `ParserFacts.DataFieldsOutcome` | src/marcxml_parser/parser.py:161-196 | The data-field parse finishes exactly when no tagged element clashes. |
| `ParserFacts.DataFieldsKeep` | src/marcxml_parser/parser.py:192-196 | The lists stored before the parse are prefixes of those after it. |
| `ParserFacts.TagFields` | src/marcxml_parser/parser.py:161-196 | On success, one field per element of the tag. |
| `ParserFacts.TagFieldsAt` | src/marcxml_parser/parser.py:161-196 | The `j`-th field of a tag is the parse of its `j`-th element, with reference `FieldRef(tag, n0 + j)`. |
| `ParserFacts.DataFieldsOfTag` | src/marcxml_parser/parser.py:161-196 | After a finished parse, a tag holds its old fields followed by one parsed field per element of that tag, in document order. |
| `ParserFacts.WellFormedAppend` | src/marcxml_parser/parser.py:192-196 | Appending a field whose values point at its own new place keeps every value pointing at its own field. |
| `ParserFacts.FieldCarries` | src/marcxml_parser/parser.py:168-183 | A parsed field's values carry its indicators and reference, and it is stored under the document's key names. |
| `ParserFacts.DataFieldsWellFormed` | src/marcxml_parser/parser.py:161-196 | The parse keeps the data fields well formed, whether it finishes or not. |
| `ParserFacts.FieldParsed` | src/marcxml_parser/parser.py:168-190 | A missing indicator attribute reads as `" "`. Parsed codes are unique and carry the field's indicators. Each code holds its stripped values in order. |
| `ParserFacts.RecordOutcome` | src/marcxml_parser/parser.py:103-122 | No record gives `ValueError` and changes nothing. The dialect is OAI exactly when the first record has `oai_marc`. The parse finishes exactly when no data field clashes. |
| `ParserFacts.RecordLeader` | src/marcxml_parser/parser.py:110-126 | In MARC 21 the leader is the first `leader` element's content, when there is one. In OAI it is `controlfields["LDR"]` when that key is present, else it is unchanged. |
| `ParserFacts.RecordControlFields` | src/marcxml_parser/parser.py:116-122 | Each key holds the stripped content of the last dialect element that carries it. |
| `ParserFacts.RecordWellFormed` | src/marcxml_parser/parser.py:89-126 | The document parse keeps the data fields well formed. |
| `ParserFacts.BlankWellFormed` | src/marcxml_parser/parser.py:70-73 | A new object is well formed. |
| `ParserFacts.CtlFieldRoundTrip` | src/marcxml_parser/parser.py:328-343 | A control field that was added is read back, whatever the fallback. |
| `ParserFacts.CtlFieldExamples` | tests/test_parser.py:278-304 | A new key is stored, an overwrite keeps one entry, and a short name is `ValueError`. A missing key gives the fallback, or `KeyError` without one. |
| `ParserFacts.SubrecordListsKeys` | src/marcxml_parser/parser.py:256-271 | The new dict has the argument's keys, in order, and they stay unique. |
| `ParserFacts.SubrecordListsContent` | src/marcxml_parser/parser.py:256-271 | Each key holds its value, wrapped into a list and turned into subrecords. |
| `ParserFacts.SubrecordListsCarry` | src/marcxml_parser/parser.py:266-269 | Every new value carries the given indicators and reference. |
| `ParserFacts.AddedField` | src/marcxml_parser/parser.py:274-288 | A successful addition appends exactly one field to its tag, under the current dialect's key names, and leaves every other tag alone. |
| `ParserFacts.FailedAdditionChangesNothing` | src/marcxml_parser/parser.py:236-261 | A failed check leaves the record as it was. This holds for the code as written and for the corrected addition. |
| `ParserFacts.AddedFieldWellFormed` | src/marcxml_parser/parser.py:284-288 | Corrected, the addition keeps every value pointing at its own field. |
| `ParserFacts.DataFieldErrors` | tests/test_parser.py:337-353 | Each erroneous call of the unit tests fails with the error of the first check that fails, in source order. |
| `ParserFacts.MatchingMembers` | src/marcxml_parser/parser.py:411-418 | A value is kept exactly when it is in the list and passes the filter. |
| `ParserFacts.MatchingAll` | src/marcxml_parser/parser.py:411-418 | When every value passes, all are kept. |
| `ParserFacts.MatchingNone` | src/marcxml_parser/parser.py:411-418 | When no value passes, none is kept. |
| `ParserFacts.MatchingUniform` | src/marcxml_parser/parser.py:411-418 | A list with the same indicators throughout is kept whole or dropped whole. |
| `ParserFacts.CollectedSnoc` | src/marcxml_parser/parser.py:404-418 | One more field adds its passing values of the code, or nothing when it lacks the code. |
| `ParserFacts.CollectedMembers` | src/marcxml_parser/parser.py:404-418 | A value is collected exactly when some field of the tag holds it under the code and it passes the filter. |
| `ParserFacts.AddThenGet` | src/marcxml_parser/parser.py:263-423 | After an addition, `get_subfields` finds the old values and then the new field's wrapped values, when they pass the filter. |
| `ParserFacts.OneItemLists` | src/marcxml_parser/parser.py:263-271 | A scalar value is stored as a list of one. |
| `ParserFacts.AddOneItem` | src/marcxml_parser/parser.py:236-288 | With valid arguments, a one-item dict appends one field with one value. |
| `ParserFacts.AddOneFieldExample` | tests/test_parser.py:307-315 | The unit test's single addition appends the expected field. |
| `ParserFacts.AddFirstExample` | tests/test_parser.py:318-330 | The first addition of the two-field test. |
| `ParserFacts.AddSecondExample` | tests/test_parser.py:318-330 | The second addition of the two-field test appends after the first. |
| `ParserFacts.CollectedTwo` | src/marcxml_parser/parser.py:404-418 | Two fields that both hold the code give their passing values in order. |
| `ParserFacts.TwoFieldsCollected` | src/marcxml_parser/parser.py:404-418 | For each filter, the two-field record yields its passing values in order. |
| `ParserFacts.TwoFieldsLookup` | src/marcxml_parser/parser.py:387-423 | On the two-field record, `get_subfields` returns what the fields collect. |
| `ParserFacts.TwoFieldsAll` | tests/test_parser.py:332 | Without a filter, the lookup gives `["aaa","bbb"]`. |
| `ParserFacts.TwoFieldsFirst` | tests/test_parser.py:333 | The filter `" "`, `" "` gives `["aaa"]`. |
| `ParserFacts.TwoFieldsSecond` | tests/test_parser.py:334 | The filter `"1"`, `"2"` gives `["bbb"]`. |
| `ParserFacts.AsWrittenNotWellFormed` | src/marcxml_parser/parser.py:286-288 | As written, the new values point at the tag's list, not at their field, so the record is not well formed. |
| `ParserFacts.SubfieldStep` | src/marcxml_parser/parser.py:185-190 | A subfield with a new code and stripped text adds a one-value entry at the end. |
| `ParserFacts.Subfields650` | tests/test_record.py:18-22 | The three subfields of the test document parse in document order. |
| `ParserFacts.Field650Parse` | tests/test_record.py:18-22 | The 650 field element parses to indicators `0`/`7` with its three codes. |
| `ParserFacts.DataFields650Parse` | tests/test_record.py:18-22 | The data-field parse stores that one field under 650. |
| `ParserFacts.Parse650` | tests/test_record.py:11-27 | The document parses to one 650 field, with no leader and no control fields. |
| `ParserFacts.ParseTestRecord` | tests/test_record.py:11-27 | The same, for the unit test's texts. |
| `Serializer.OrderPermutation` | src/marcxml_parser/parser.py:77 | Either key order, `resorted` or insertion order, visits every key once. |
| `Serializer.CtlFieldsXml` | src/marcxml_parser/serializer.py:21-40 | In MARC 21 the control block shows the all-digit keys alone, in sorted order with resort on and in insertion order without it. |
| `Serializer.SubfieldsXml` | src/marcxml_parser/serializer.py:42-58 | An empty dict writes nothing, and a dict with one code writes that code's values in stored order, in either key order. |
| `Serializer.DataFieldXml` | src/marcxml_parser/serializer.py:72-97 | A field is written with the current dialect's attribute names and its stored indicators, whichever dialect's names it was stored under. |
| `Serializer.IndicatorValue` | src/marcxml_parser/serializer.py:74-82 | The indicator written is the stored one, whichever dialect's key it was stored under. |
| `Serializer.LeaderXml` | src/marcxml_parser/serializer.py:133-140 | `<leader>L</leader>` is written exactly when the leader is non-empty and the record is not OAI. |
| `Serializer.Document` | src/marcxml_parser/serializer.py:113-150 | The document starts with its dialect's opening template text (the MARC 21 namespace header, or `record`/`metadata`/`oai_marc`) and ends with the matching closing tags. |
| `Serializer.SerializeCtlFields` | src/marcxml_parser/serializer.py:21-40 | The loop returns the control block of the object's state and key order. |
| `Serializer.SerializeValues` | src/marcxml_parser/serializer.py:50-56 | Every value of one code is written, in stored order. |
| `Serializer.SerializeDataSubfields` | src/marcxml_parser/serializer.py:42-58 | The subfields are written grouped by code, in the object's key order. |
| `Serializer.SerializeFields` | src/marcxml_parser/serializer.py:72-101 | Every field of one tag is written, in stored order. |
| `Serializer.SerializeDataFields` | src/marcxml_parser/serializer.py:60-103 | The loop returns the data block of the object's state. |
| `Serializer.SerializeRecord` | src/marcxml_parser/serializer.py:105-150 | `to_XML` returns the dialect's template filled with the stripped leader, control and data blocks. |
| `Serializer.DigitKeys` | src/marcxml_parser/serializer.py:30-31 | The keys kept are all digits, and no more than the input. |
| `Serializer.DigitKeysConcat` | src/marcxml_parser/serializer.py:30-31 | The digit filter distributes over concatenation. |
| `Serializer.DigitKeysOfResorted` | src/marcxml_parser/serializer.py:27-31 | The rotation of the canonical order moves the all-digit keys only as a block, so they stay in sorted order. |
| `Serializer.CtlXmlDigitKeys` | src/marcxml_parser/serializer.py:27-31 | The MARC 21 control block is that of the all-digit keys alone. |
| `Serializer.CtlXmlAgree` | src/marcxml_parser/serializer.py:33-38 | The output depends only on the values of the keys visited. |
| `Serializer.VisibleKeysPut` | src/marcxml_parser/serializer.py:30-31 | A key that is not all digits changes nothing that is shown. |
| `Serializer.NonDigitKeysInvisible` | src/marcxml_parser/serializer.py:29-31 | In MARC 21, storing `LDR`, `FMT` or any key that is not all digits leaves the control block as it was. |
| `Serializer.CtlXmlIgnoresInsertionOrder` | src/marcxml_parser/serializer.py:27 | With resort on, the same control fields in any insertion order give the same block. |
| `Serializer.SubfieldsXmlAgree` | src/marcxml_parser/serializer.py:49-56 | The output depends only on the value lists of the codes visited. |
| `Serializer.SubfieldsXmlIgnoresInsertionOrder` | src/marcxml_parser/serializer.py:49 | With resort on, a subfield dict built in any order is written alike. |
| `Serializer.ValuesXmlConcat` | src/marcxml_parser/serializer.py:50-56 | The values of a code are written consecutively, in stored order. |
| `Serializer.Subfields650Stored` | tests/test_record.py:18-27 | With resort off, the subfields come out in their input order `a,7,2`. |
| `Serializer.Codes650Resorted` | tests/test_record.py:52-55 | The canonical order of `a,7,2` is `a,2,7`. |
| `Serializer.Subfields650Resorted` | tests/test_record.py:46-58 | With resort on, the subfields come out as `a,2,7`. |
| `Serializer.DataFields650` | src/marcxml_parser/serializer.py:60-103 | The test record's data block is its one 650 field, in either order. |
| `Serializer.StripFieldXml` | src/marcxml_parser/serializer.py:145-147 | Stripping a data field block takes off only its final newline. |
| `Serializer.Empty650` | src/marcxml_parser/serializer.py:133-146 | The test record's leader and control blocks strip to nothing. |
| `Serializer.NoLeaderNoControlFields` | src/marcxml_parser/serializer.py:113-121 | Two empty blocks leave two empty lines after the MARC 21 header. |
| `Serializer.Document650` | tests/test_record.py:11-58 | The whole document for the test record: the header, two empty lines, the 650 field and the footer, in either subfield order. |
| `Query.OtherSubfields` | src/marcxml_parser/query.py:137-139 | A back-reference to the tag's whole list gives no subfields at all, so its `"4" in` test is false. |
| `Query.Joined` | src/marcxml_parser/query.py:167-168 | The joined values are `""` when the code is absent from the field. |
| `Query.AnyRoleIn` | src/marcxml_parser/query.py:141 | True exactly when some relator value is in `roles`. |
| `Query.Relevant` | src/marcxml_parser/query.py:137-145 | A value passes when its field has no relator subfield 4, or `roles` is `["any"]`; otherwise exactly when some relator value is in `roles`. |
| `Query.Kept` | src/marcxml_parser/query.py:137-145 | The role filter keeps no more values than it is given. |
| `Query.KeptMembers` | src/marcxml_parser/query.py:137-145 | A value is kept exactly when it was found and passes the role filter. |
| `Query.KeptAll` | src/marcxml_parser/query.py:138 | With `roles == ["any"]`, or no relator subfield, every value is kept. |
| `Query.KeptConcat` | src/marcxml_parser/query.py:133-145 | The filter distributes over concatenation. |
| `Query.PersonFrom` | src/marcxml_parser/query.py:147-189 | Every component is stripped. Any indicator pair outside the three branches gives four empty strings. |
| `Query.PersonAtComma` | src/marcxml_parser/query.py:159-168 | Indicators `1`, `" "`: the surname is what precedes the first comma, the name is what follows, and the title is the joined `c` values. |
| `Query.PersonAtSpace` | src/marcxml_parser/query.py:162-168 | Without a comma, the first space splits surname from name. |
| `Query.PersonSurnameOnly` | src/marcxml_parser/query.py:164-165 | With neither, the whole value is the surname. |
| `Query.PersonForename` | src/marcxml_parser/query.py:169-176 | Indicators `0`, `" "`: the name is the value, second_name is the joined `b` values and surname is the joined `c` values. |
| `Query.PersonWithTitle` | src/marcxml_parser/query.py:177-180 | Indicators `1`/`0` or `0`/`0`: the name is the value and the title is the joined `c` values. |
| `Query.SurnameCommaName` | src/marcxml_parser/query.py:159-161 | `"Surname, Name"` gives that surname and name. |
| `Query.RaymondExample` | tests/test_query.py:80-88 | `"Raymond, Eric S."` gives name `Eric S.`, surname `Raymond`. |
| `Query.PersonsOf` | src/marcxml_parser/query.py:131-191 | One person per value the role filter keeps, in order. |
| `Query.Persons` | src/marcxml_parser/query.py:114-191 | An error is exactly a bad tag or code length, raised by the lookup. Otherwise it gives the persons of the found values. |
| `Query.Authors` | src/marcxml_parser/query.py:314-324 | The persons of 100, 600, 700 and 800, in that order, with the role `aut`. |
| `Query.CorporationOf` | src/marcxml_parser/query.py:99-110 | The name is the value. Place and date are the joined `c` and `d` values, and `""` when absent. |
| `Query.CorporationsOf` | src/marcxml_parser/query.py:85-112 | One corporation per value the role filter keeps, in order. |
| `Query.Corporations` | src/marcxml_parser/query.py:76-112 | `ValueError` for a bad tag length, then for a bad code length. Otherwise the corporations of the found values. |
| `Query.AllCorporations` | src/marcxml_parser/query.py:326-350 | The corporations of 110, 610, 710 and 810, in that order. |
| `Query.ParsePersons` | src/marcxml_parser/query.py:114-191 | The loop returns exactly `Persons`. |
| `Query.ParseCorporations` | src/marcxml_parser/query.py:59-112 | The loop returns exactly `Corporations`. |
| `Query.GetAuthors` | src/marcxml_parser/query.py:314-324 | Returns exactly `Authors` of the object's state. |
| `Query.GetCorporations` | src/marcxml_parser/query.py:326-343 | Returns exactly `AllCorporations` of the object's state. |
| `Query.FirstTokens` | src/marcxml_parser/query.py:359-362 | The first space-separated token of each stripped value. |
| `Query.ISBNs` | src/marcxml_parser/query.py:352-370 | No ISBN contains a space. |
| `Query.ISBNsAreFirstTokens` | src/marcxml_parser/query.py:352-370 | One ISBN per 020$a value, or per 901$i value when 020$a has none, else none. Each ISBN is the part of the stripped value before its first space. |
| `Query.ISBNExample` | tests/test_query.py:99-100 | The test record's ISBN line gives `80-251-0225-4`. |
| `Query.StrictLookupAgrees` | src/marcxml_parser/query.py:358-361 | The second, strict lookup finds the same values and cannot raise. |
| `Query.Unescaped` | src/marcxml_parser/query.py:405 | `&amp;` is replaced by `&` in each value. |
| `Query.Urls` | src/marcxml_parser/query.py:397-405 | Each URL is the unescaped 856$u value at the same place among the values found, and each of those has indicators `4`, `2`. |
| `Query.UrlsComplete` | src/marcxml_parser/query.py:397-405 | No URL is missed: every 856$u value with indicators `4`, `2`, in any field of the tag, is returned unescaped. |
| `Query.InternalUrls` | src/marcxml_parser/query.py:407-418 | The 856$u values with indicators `4`, `0`, followed by the 998$a values, all unescaped, each part in order. |
| `Query.UrlRoundTrip` | src/marcxml_parser/query.py:405 | A URL stored with `&` escaped comes back as it was. |
| `Query.AsWrittenAuthorAnyRole` | src/marcxml_parser/parser.py:286-288 | As written, an author added with any relator code is still returned by `get_authors`. |
| `Query.CorrectedAuthorNeedsRole` | src/marcxml_parser/query.py:137-145 | Corrected, an author added with a relator code other than `aut` is not returned. |
| `Query.IllustratorExample` | src/marcxml_parser/parser.py:286-288 | Both halves on one input: `"Doe, John"` with role `ill` is an author as written, and not corrected. |
| `Legacy.GetI` | src/marcxml_parser/marcxml.py:744-766 | Gives `ind1`/`ind2` or `i1`/`i2` by dialect or override. Any other number is `ValueError`. |
| `Legacy.GetIAgrees` | src/marcxml_parser/marcxml.py:744-766 | The older and the current class name indicator keys alike. |
| `Legacy.WithControlField` | src/marcxml_parser/marcxml.py:427-435 | Succeeds exactly for a 3-character name. Overwrites only that key. |
| `Legacy.CheckItems` | src/marcxml_parser/marcxml.py:470-478 | Passes exactly when every key has at most one character and every value is a list. Otherwise the first bad item decides between `KeyError` and `ValueError`. |
| `Legacy.CheckDataField` | src/marcxml_parser/marcxml.py:460-478 | Passes exactly for valid indicators, a 3-character name, and a dict whose items are all good. |
| `Legacy.CodesOf` | src/marcxml_parser/marcxml.py:480-487 | The stored dict has exactly the argument's keys, each once. |
| `Legacy.WithDataField` | src/marcxml_parser/marcxml.py:437-487 | Succeeds exactly when the checks pass, and otherwise fails with their error. Appends exactly one field under the current dialect's names and leaves every other tag alone. |
| `Legacy.ParsedCodes` | src/marcxml_parser/marcxml.py:991-999 | The only error is the `AttributeError` of a code equal to an indicator key, and no stored code is an indicator key. |
| `Legacy.ParsedField` | src/marcxml_parser/marcxml.py:979-999 | The only error is that `AttributeError`; a parsed dict is stored under the document's key names and none of its codes is an indicator key. |
| `Legacy.ParsedDataFields` | src/marcxml_parser/marcxml.py:958-1004 | The only error is that `AttributeError`. No tag is lost and no tag's list gets shorter. |
| `Legacy.ParsedRecord` | src/marcxml_parser/marcxml.py:902-939 | No record gives `ValueError` and changes nothing. Otherwise the dialect follows `oai_marc`, the only error is the code clash, no tag is lost, and the control fields are exactly those the current parser reads from the same document. |
| `Legacy.EmptyAndScalarValues` | src/marcxml_parser/marcxml.py:466-478 | Unlike the current class, the empty dict is accepted and a scalar value is `ValueError`. |
| `Legacy.ParseCodes` | src/marcxml_parser/marcxml.py:991-999 | The subfield loop returns `ParsedCodes`. |
| `Legacy.ParseField` | src/marcxml_parser/marcxml.py:979-999 | One field element parses as `ParsedField` says. |
| `Legacy.CheckEachItem` | src/marcxml_parser/marcxml.py:470-478 | The key loop returns `CheckItems`. |
| `Legacy.Wrap` | src/marcxml_parser/marcxml.py:539-547 | One `MarcSubrecord` per value, with the field's indicators and the field itself. |
| `Legacy.RecordsFrom` | src/marcxml_parser/marcxml.py:529-549 | An error from the loop is `KeyError`: a missing code when asked to raise, or an unreadable indicator key. |
| `Legacy.DataRecords` | src/marcxml_parser/marcxml.py:514-549 | `ValueError` exactly for bad lengths. A missing tag gives `KeyError` or `[]`. Other errors are `KeyError`s. |
| `Legacy.RecordsFromShape` | src/marcxml_parser/marcxml.py:529-549 | A success is every value of the code, when all fields hold it, or `[]` when one does not and raising is off. |
| `Legacy.RecordsFromAll` | src/marcxml_parser/marcxml.py:529-549 | When every field holds the code and can be read, the loop collects all values. |
| `Legacy.RecordsFromReadable` | src/marcxml_parser/marcxml.py:531-535 | Readable fields raise only the missing-code error, and only when asked to. |
| `Legacy.RecordsFromThrowIrrelevant` | src/marcxml_parser/marcxml.py:531-535 | When every field holds the code, asking to raise changes nothing. |
| `Legacy.DataRecordsSuccess` | src/marcxml_parser/marcxml.py:529-549 | Every value of the code across the fields, in order, each carrying its field's indicators and the field. |
| `Legacy.DataRecordsBailOut` | src/marcxml_parser/marcxml.py:530-535 | One field without the code loses every value: raising is `KeyError`, else the result is `[]`. |
| `Legacy.StrictLookupAgrees` | src/marcxml_parser/marcxml.py:707-710 | A lookup that may fail and finds values finds the same values when strict. |
| `Legacy.AllValuesMembers` | src/marcxml_parser/marcxml.py:539-547 | A value is returned exactly when it is a value of the code in some field, with that field's indicators and the field. |
| `Legacy.Kept` | src/marcxml_parser/marcxml.py:849-856 | The role filter keeps no more values than it is given. |
| `Legacy.KeptMembers` | src/marcxml_parser/marcxml.py:849-856 | A value is kept exactly when it was found and its field passes the role filter. |
| `Legacy.KeptAny` | src/marcxml_parser/marcxml.py:849 | With `["any"]` every value is kept. |
| `Legacy.JoinedCodes` | src/marcxml_parser/marcxml.py:876-885 | The joined values of a code, and `""` when the code is absent. |
| `Legacy.PersonsOf` | src/marcxml_parser/marcxml.py:842-898 | One person per kept value, by the same three indicator branches as the current class. |
| `Legacy.Persons` | src/marcxml_parser/marcxml.py:823-900 | `ValueError` exactly for bad lengths. Otherwise only a missing indicator key can raise, and a lookup that succeeds gives its persons. |
| `Legacy.Authors` | src/marcxml_parser/marcxml.py:663-673 | Can raise only for a missing indicator key. |
| `Legacy.CorporationOf` | src/marcxml_parser/marcxml.py:808-819 | The name is the value. Place and date are `""` when absent. |
| `Legacy.CorporationsOf` | src/marcxml_parser/marcxml.py:794-821 | One corporation per kept value, in order. |
| `Legacy.Corporations` | src/marcxml_parser/marcxml.py:768-821 | `ValueError` for a bad tag length, then for a bad code length. Otherwise the corporations of the lookup. |
| `Legacy.AllCorporations` | src/marcxml_parser/marcxml.py:675-699 | Tags 110, 610, 710 and 810. Can raise only for a missing indicator key. |
| `Legacy.SingleFieldLookup` | src/marcxml_parser/marcxml.py:529-549 | A tag with one field holding one value gives that one `MarcSubrecord`. |
| `Legacy.RoleCodes` | src/marcxml_parser/marcxml.py:480-487 | The stored dict `{"a": [value], "4": [role]}` keeps both codes. |
| `Legacy.RoleFieldAdded` | src/marcxml_parser/marcxml.py:437-487 | The addition to a new record stores exactly that one 100 field. |
| `Legacy.RoleRelevant` | src/marcxml_parser/marcxml.py:849-856 | That field passes the author filter exactly when the role is `aut`. |
| `Legacy.AuthorNeedsRole` | src/marcxml_parser/marcxml.py:842-856 | An author added to a new record is returned exactly when the role is `aut`, because the legacy back-reference is the field dict. |
| `Legacy.FirstTokensOf` | src/marcxml_parser/marcxml.py:708-711 | The first token of each stripped value. |
| `Legacy.ISBNs` | src/marcxml_parser/marcxml.py:701-719 | No ISBN contains a space, and any error is a `KeyError`. |
| `Legacy.ISBNsOfLookups` | src/marcxml_parser/marcxml.py:701-719 | When the lookups succeed, the result is the first tokens of 020$a, else of 901$i. |
| `Legacy.SecondToken` | src/marcxml_parser/marcxml.py:728 | Succeeds exactly when the stripped value has a space, giving what follows the first space. Otherwise `IndexError`. |
| `Legacy.SecondTokens` | src/marcxml_parser/marcxml.py:727-733 | The map succeeds exactly when every value has a space once stripped, pointwise. |
| `Legacy.CandidatesAsWritten` | src/marcxml_parser/marcxml.py:729-731 | The filter as written keeps values with a dash and a space, tested before stripping. |
| `Legacy.BindingAsWritten` | src/marcxml_parser/marcxml.py:721-735 | As written, an error is the lookup's `KeyError` or the `IndexError` of a value with no second token; a record without 020$a values gives `[]`. |
| `Legacy.Candidates` | src/marcxml_parser/marcxml.py:729-731 | The corrected filter keeps values with a dash and a space in the stripped value. |
| `Legacy.Binding` | src/marcxml_parser/marcxml.py:721-735 | The corrected getter raises nothing but the lookup's `KeyError`, and gives `[]` when there is no 020$a value. |
| `Legacy.BindingOfLookup` | src/marcxml_parser/marcxml.py:721-735 | Once the lookup succeeds, one binding per candidate, namely what follows its first token. |
| `Legacy.BindingExample` | src/marcxml_parser/marcxml.py:726-733 | The test record's ISBN line `80-251-0225-4 (brož.) :` gives the binding `(brož.) :`. |
| `Legacy.TrailingBlankLookup` | src/marcxml_parser/marcxml.py:529-549 | The lookup on a record whose one ISBN line ends in a blank. |
| `Legacy.TrailingBlankBinding` | src/marcxml_parser/marcxml.py:721-735 | As written, `"80-251 "` passes the filter and then raises `IndexError`. Corrected, it is not a candidate. |
| `Legacy.AdditionKeepsConsistent` | src/marcxml_parser/marcxml.py:480-487 | An addition stores its dict under the record's own key names. |
| `Legacy.AppendKeepsConsistent` | src/marcxml_parser/marcxml.py:484-487 | Appending a field stored under the record's names keeps the record consistent. |
| `Legacy.ParseKeepsConsistent` | src/marcxml_parser/marcxml.py:972-1004 | A parse stores its fields under the document's dialect names. |
| `Legacy.ParsedRecordConsistent` | src/marcxml_parser/marcxml.py:902-939 | A record parsed into a new object is consistent. |
| `Legacy.ConsistentLookups` | src/marcxml_parser/marcxml.py:539-547 | In a consistent record, the lookup that may fail never raises. |
| `Legacy.ConsistentGetters` | src/marcxml_parser/marcxml.py:663-699 | In a consistent record, `getAuthors` and `getCorporations` never raise. |
| `Legacy.LeaderXml` | src/marcxml_parser/marcxml.py:1120-1127 | The leader is written exactly when it is non-empty and the record is not OAI. |
| `Legacy.FieldXmlOf` | src/marcxml_parser/marcxml.py:1058-1085 | One dict is written with the current dialect's names, its stored indicators and its codes in the older canonical order. Its definition is its contract; the properties are `Legacy.CodesXmlAgree` and `Legacy.CodesXmlIgnoresInsertionOrder`. |
| `Legacy.RecordXml` | src/marcxml_parser/marcxml.py:1092-1137 | The dialect's template filled with the stripped leader, control and data blocks. Its definition is its contract; the properties are `Legacy.RecordXmlIgnoresInsertionOrder` and `Legacy.CtlXmlAgreesWithCurrent`. |
| `Legacy.DigitKeysAreDigits` | src/marcxml_parser/marcxml.py:1015 | The current serializer's digit filter is the older `isdigit` filter. |
| `Legacy.CtlXmlMarc` | src/marcxml_parser/marcxml.py:1012-1016 | In MARC 21 mode the control block is that of the all-digit keys, in sorted order. |
| `Legacy.CtlXmlAgreesWithCurrent` | src/marcxml_parser/marcxml.py:1006-1025 | The older control block equals the current serializer's with resort on. In OAI mode this needs keys that are all digits or start with a non-digit. |
| `Legacy.CodesXmlAgree` | src/marcxml_parser/marcxml.py:1034-1041 | The output depends only on the value lists of the codes visited. |
| `Legacy.CodesXmlIgnoresInsertionOrder` | src/marcxml_parser/marcxml.py:1034 | A subfield dict built in any order is written alike. |
| `Legacy.DataFieldsXmlAgree` | src/marcxml_parser/marcxml.py:1058-1060 | The output depends only on the field lists of the tags visited. |
| `Legacy.RecordXmlIgnoresInsertionOrder` | src/marcxml_parser/marcxml.py:1012-1058 | Two records with the same fields give the same document, whatever order they were stored in. |
| `Legacy.CodesOrderExample` | src/marcxml_parser/marcxml.py:1034 | Subfield codes come out letters first: `4,b,a` is written `a,b,4`. |
| `Legacy.SerializeValues` | src/marcxml_parser/marcxml.py:1035-1041 | The values of one code, in stored order. |
| `Legacy.AppendValues` | src/marcxml_parser/marcxml.py:539-547 | The inner loop appends one `MarcSubrecord` per value. |
| `Legacy.MarcXmlRecord.constructor` | src/marcxml_parser/marcxml.py:414-419 | A new object is the empty record. |
| `Legacy.MarcXmlRecord.AddControlField` | src/marcxml_parser/marcxml.py:427-435 | The state and outcome are those of `WithControlField`. |
| `Legacy.MarcXmlRecord.AddDataField` | src/marcxml_parser/marcxml.py:437-487 | The state and outcome are those of `WithDataField`. An error leaves the state as it was. |
| `Legacy.MarcXmlRecord.ParseControlFields` | src/marcxml_parser/marcxml.py:941-956 | The new control fields are the specification's. Nothing else changes. |
| `Legacy.MarcXmlRecord.ParseDataFields` | src/marcxml_parser/marcxml.py:958-1004 | The new data fields and outcome are the specification's. Nothing else changes. |
| `Legacy.MarcXmlRecord.ParseString` | src/marcxml_parser/marcxml.py:902-939 | The new state and outcome are those of the document parse. |
| `Legacy.MarcXmlRecord.GetDataRecords` | src/marcxml_parser/marcxml.py:495-549 | The loops return exactly `DataRecords`, including the bail-out at the first field without the code. |
| `Legacy.MarcXmlRecord.ParsePersons` | src/marcxml_parser/marcxml.py:823-900 | Returns exactly `Persons`. |
| `Legacy.MarcXmlRecord.ParseCorporations` | src/marcxml_parser/marcxml.py:768-821 | Returns exactly `Corporations`. |
| `Legacy.MarcXmlRecord.GetAuthors` | src/marcxml_parser/marcxml.py:663-673 | Returns exactly `Authors`. |
| `Legacy.MarcXmlRecord.GetCorporations` | src/marcxml_parser/marcxml.py:675-699 | Returns exactly `AllCorporations`. `getDistributors` is the call with `["dst"]`. |
| `Legacy.MarcXmlRecord.SerializeControlFields` | src/marcxml_parser/marcxml.py:1006-1025 | The loop returns the control block. |
| `Legacy.MarcXmlRecord.SerializeDataSubfields` | src/marcxml_parser/marcxml.py:1027-1043 | The subfields in the older canonical order. |
| `Legacy.MarcXmlRecord.SerializeFields` | src/marcxml_parser/marcxml.py:1060-1088 | Every field of one tag, in stored order. |
| `Legacy.MarcXmlRecord.SerializeDataFields` | src/marcxml_parser/marcxml.py:1045-1090 | The loop returns the data block. |
| `Legacy.MarcXmlRecord.ToXml` | src/marcxml_parser/marcxml.py:1092-1137 | `toXML` returns the dialect's template filled with the three stripped blocks. |

## Left out

- XML text tokenising is done by the foreign tree parser (`dhtmlparser`). The model starts from an abstract element tree and the results of `find`. Parsing the serializer's output back is therefore not modelled: the model has no text-to-tree step.
- File-like input (`read()`) is I/O and is left out.
- The getters built on the foreign `remove_hairs` library are left out. These are title, subname, price, part, publisher, dates, place, format and `get_binding` of query.py, together with `_undefined_pattern`. The legacy `getName`, `getSubname`, `getPrice`, `getPart`, `getPartName`, `getPublisher`, `getPubDate`, `getPubOrder`, `getFormat` and `getPubPlace`, which follow the same pattern, are left out too.
- marcxml_query.py, the publication type and `structures/person.py`/`corporation.py` are not part of this model. `Person` and `Corporation` are plain datatypes.
- `getControlRecord`, `getOriginals` and `get_originals` are one-line lookups outside the modelled core.
- The serializers delete the indicator keys of a dict and restore them afterwards. The model keeps indicators apart from codes, so there is nothing to delete. The one visible effect, that restored keys move to the end of the Python dict, is not modelled.
- Serializer.IndicatorValue: does not model one case, and `Serializer.DataFieldXml` inherits it. Python reads an indicator under the current dialect's key name whenever the dict has that key (serializer.py:76-79). A field parsed under one dialect may hold a subfield code equal to the other dialect's indicator key (say code `i1` in MARC 21). Once the record is switched to that other dialect, Python writes that code's list as the indicator; the model writes the stored indicator.
- Parser.MarcXmlParser.AddDataField: runs the corrected addition, not the code as written. The code as written is `Parser.WithDataFieldAsWritten`, and its consequence is under Findings.
- Legacy.FieldXmlOf: does not model one case. A field is stored under the other dialect's key names and has a subfield code equal to the current dialect's indicator name. Python then writes the list's text as the indicator; the model writes the stored indicator.
- Object identity and aliasing are values here. A back-reference is a `FieldRef(tag, index)`, the legacy `MarcSubrecord` holds a copy of its field, and a later change to the field is not seen through an existing subrecord.
- Python 2 dict iteration order in the legacy class is taken as the caller's insertion order. The serialized output does not depend on it, because every key set is sorted before use (`Legacy.RecordXmlIgnoresInsertionOrder`). The checks of `addDataField` do: they raise on the first bad key met (marcxml.py:470-478), so with several bad keys the error reported is the model's first, which Python 2 may not meet first.
- An `add_data_field` argument with a key given twice cannot be built in Python. The model accepts it, and the later value wins.
- Assigning `oai_marc` or `datafields` directly, as some tests do, is not an operation of the model. The legacy constructor with a document is the constructor followed by `ParseString`.
- Legacy.ISBNs: states only the shape of the result and that any error is a `KeyError`. The exact result is `Legacy.ISBNsOfLookups`, because the strict second lookup can raise for a field whose values cannot be read.
- Legacy.Binding: states only that any error is a `KeyError`. The exact result is `Legacy.BindingOfLookup`.
- tests/test_getters.py:94 expects `getBinding()` to be `"brož."`. The code returns a list whose one element is `"(brož.) :"` (`Legacy.BindingExample`). The model follows the code.

## Findings

| source | as written | input that shows it | evidently intended | confidence | as-written member | corrected member |
|---|---|---|---|---|---|---|
| src/marcxml_parser/parser.py:286-288 | After `add_data_field`, each new value's `other_subfields` is the tag's whole list of field dicts. The `"4" in other_subfields` role test in query.py then never sees the relator code. | `add_data_field("100", "1", " ", {"a": "Doe, John", "4": "ill"})` on a new record. `get_authors()` then returns John Doe, though the role is not `aut`. | The reference is the new field dict, as the parser gives and the docstring says. An illustrator is then not an author. | not executed | `Query.IllustratorExample`, `ParserFacts.AsWrittenNotWellFormed` (using `Parser.WithDataFieldAsWritten`) | `ParserFacts.AddedFieldWellFormed`, `Query.CorrectedAuthorNeedsRole` (using `Parser.WithDataField`) |
| src/marcxml_parser/marcxml.py:721-735 | `getBinding` keeps a value when the raw value contains a space. It then takes `strip().split(" ", 1)[1]`, which raises `IndexError` when the only space was at an end. | One 020$a value `"80-251 "`. | The filter tests the stripped value, so such a value is skipped and the result is `[]`. | not executed | `Legacy.TrailingBlankBinding` (using `Legacy.BindingAsWritten`) | `Legacy.BindingOfLookup`, `Legacy.TrailingBlankBinding` (using `Legacy.Binding`) |
