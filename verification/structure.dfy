/** The taxonomy builder of test_tc_generator/processor.py: identify_document_structure,
    create_default_structure, and the reading of the taxonomy that generate_testcases
    does at lines 177-183 before every batch. */
module Structure {
  import opened Values
  import opened Client
  import opened Spans

  const MajorKey := "대분류"
  const MediumKey := "중분류"
  const MinorKey := "소분류"

  /** The taxonomy once read as lists of strings: the majors, the mediums of each major,
      the minors of each medium. Keys of the two maps need not be listed anywhere else. */
  datatype Taxonomy = Taxonomy(majors: seq<string>, mediums: map<string, seq<string>>, minors: map<string, seq<string>>)

  /** The lists of the default structure (lines 148-160), in the source's order. */
  const DefaultMajors := ["시스템", "게임플레이", "UI", "기타"]
  const DefaultMediums := [
    ("시스템", ["로그인", "설정", "계정"]),
    ("게임플레이", ["전투", "퀘스트", "캐릭터"]),
    ("UI", ["메뉴", "HUD", "인벤토리"]),
    ("기타", ["성능", "호환성"])]
  const DefaultMinors := [
    ("로그인", ["성공", "실패", "오류"]),
    ("전투", ["공격", "방어", "스킬"]),
    ("메뉴", ["진입", "이동", "종료"]),
    ("성능", ["로딩", "프레임레이트"])]

  /** The structure returned when the backend's answer cannot be used (lines 145-161). */
  function CreateDefaultStructure(): Json {
    JObj([
      (MajorKey, StrList(DefaultMajors)),
      (MediumKey, JObj(ListFields(DefaultMediums))),
      (MinorKey, JObj(ListFields(DefaultMinors)))
    ])
  }

  /** A list of strings as a JSON array. */
  function StrList(items: seq<string>): Json {
    JArr(Wrap(items))
  }

  /** The entries of a dict of string lists, as the fields of a JSON object. */
  function ListFields(entries: seq<(string, seq<string>)>): (fields: seq<(string, Json)>)
    ensures |fields| == |entries|
  {
    if entries == [] then [] else [(entries[0].0, StrList(entries[0].1))] + ListFields(entries[1..])
  }

  /** The same entries as a map; an earlier entry wins over a later one with the same key. */
  function EntriesMap(entries: seq<(string, seq<string>)>): map<string, seq<string>> {
    if entries == [] then map[] else EntriesMap(entries[1..])[entries[0].0 := entries[0].1]
  }

  /** A JSON array of strings, read as a list of strings. */
  function AsStrings(j: Json): (r: Option<seq<string>>)
    ensures r.Some? ==> j.JArr? && |r.value| == |j.items|
    ensures r.Some? ==> forall i :: 0 <= i < |j.items| ==> j.items[i] == JStr(r.value[i])
    decreases j, 0
  {
    match j
    case JArr(items) => StringItems(items)
    case _ => None
  }

  function StringItems(items: seq<Json>): (r: Option<seq<string>>)
    ensures r.Some? ==> |r.value| == |items|
    ensures r.Some? ==> forall i :: 0 <= i < |items| ==> items[i] == JStr(r.value[i])
  {
    if items == [] then Some([])
    else if !items[0].JStr? then None
    else match StringItems(items[1..])
      case None => None
      case Some(rest) => Some([items[0].s] + rest)
  }

  /** A JSON object whose values are arrays of strings, read as a map; the first binding
      of a key wins, as Get does. */
  function AsListMap(j: Json): (r: Option<map<string, seq<string>>>)
    ensures r.Some? ==> j.JObj? && r.value.Keys == set k | k in Keys(j.fields)
    ensures r.Some? ==> forall k :: k in r.value ==> Get(j.fields, k) == Some(JArr(Wrap(r.value[k])))
  {
    match j
    case JObj(fields) => FieldLists(fields)
    case _ => None
  }

  function Wrap(items: seq<string>): (r: seq<Json>)
    ensures |r| == |items| && forall i :: 0 <= i < |items| ==> r[i] == JStr(items[i])
  {
    seq(|items|, i requires 0 <= i < |items| => JStr(items[i]))
  }

  lemma {:induction false} StrListRead(items: seq<string>)
    ensures AsStrings(StrList(items)) == Some(items)
  {
    WrappedItemsRead(items);
  }

  lemma {:induction false} WrappedItemsRead(items: seq<string>)
    ensures StringItems(Wrap(items)) == Some(items)
  {
    if items != [] {
      assert Wrap(items)[1..] == Wrap(items[1..]);
      WrappedItemsRead(items[1..]);
      assert [items[0]] + items[1..] == items;
    }
  }

  lemma {:induction false} ListFieldsRead(entries: seq<(string, seq<string>)>)
    ensures FieldLists(ListFields(entries)) == Some(EntriesMap(entries))
  {
    if entries != [] {
      var fields := ListFields(entries);
      assert fields[1..] == ListFields(entries[1..]);
      ListFieldsRead(entries[1..]);
      StrListRead(entries[0].1);
    }
  }

  lemma {:induction false} WrapStrings(j: Json)
    requires AsStrings(j).Some?
    ensures j == JArr(Wrap(AsStrings(j).value))
  {
    assert j.items == Wrap(AsStrings(j).value);
  }

  function FieldLists(fields: seq<(string, Json)>): (r: Option<map<string, seq<string>>>)
    ensures r.Some? ==> r.value.Keys == set k | k in Keys(fields)
    ensures r.Some? ==> forall k :: k in r.value ==> Get(fields, k) == Some(JArr(Wrap(r.value[k])))
  {
    if fields == [] then Some(map[])
    else match (AsStrings(fields[0].1), FieldLists(fields[1..]))
      case (Some(items), Some(rest)) =>
        WrapStrings(fields[0].1);
        Some(rest[fields[0].0 := items])
      case _ => None
  }

  /** Lines 177-183: the three keys are read outside any try block, so a structure without
      them, or whose parts do not have the shape the f-string needs, raises before the batch
      is sent: a non-dict structure or a list that is not a list of strings raises TypeError,
      a missing key KeyError, and a "중분류" or "소분류" that is not a dict has no .items(). */
  function AsTaxonomy(structure: Json): (r: Result<Taxonomy>)
    ensures !structure.JObj? ==> r == Err(TypeError)
    ensures structure.JObj? ==>
      var majors, mediums, minors := Get(structure.fields, MajorKey), Get(structure.fields, MediumKey), Get(structure.fields, MinorKey);
      && (majors.None? ==> r == Err(KeyError(MajorKey)))
      && (majors.Some? && AsStrings(majors.value).None? ==> r == Err(TypeError))
      && (majors.Some? && AsStrings(majors.value).Some? ==>
            && (mediums.None? ==> r == Err(KeyError(MediumKey)))
            && (mediums.Some? && !mediums.value.JObj? ==> r == Err(AttributeError))
            && (mediums.Some? && mediums.value.JObj? && AsListMap(mediums.value).None? ==> r == Err(TypeError)))
      && (majors.Some? && AsStrings(majors.value).Some? && mediums.Some? && AsListMap(mediums.value).Some? ==>
            && (minors.None? ==> r == Err(KeyError(MinorKey)))
            && (minors.Some? && !minors.value.JObj? ==> r == Err(AttributeError))
            && (minors.Some? && minors.value.JObj? && AsListMap(minors.value).None? ==> r == Err(TypeError))
            && (minors.Some? && AsListMap(minors.value).Some? ==>
                  r == Ok(Taxonomy(AsStrings(majors.value).value, AsListMap(mediums.value).value, AsListMap(minors.value).value))))
    ensures r.Ok? ==> structure.JObj? && Get(structure.fields, MajorKey) == Some(JArr(Wrap(r.value.majors)))
    ensures r.Ok? ==> Get(structure.fields, MediumKey).Some? && AsListMap(Get(structure.fields, MediumKey).value) == Some(r.value.mediums)
    ensures r.Ok? ==> Get(structure.fields, MinorKey).Some? && AsListMap(Get(structure.fields, MinorKey).value) == Some(r.value.minors)
  {
    match structure
    case JObj(fields) =>
      (match Get(fields, MajorKey)
       case None => Err(KeyError(MajorKey))
       case Some(majors) =>
         match AsStrings(majors)
         case None => Err(TypeError)
         case Some(majorList) =>
           WrapStrings(majors);
           match Get(fields, MediumKey)
           case None => Err(KeyError(MediumKey))
           case Some(mediums) =>
             if !mediums.JObj? then Err(AttributeError)
             else match AsListMap(mediums)
             case None => Err(TypeError)
             case Some(mediumMap) =>
               match Get(fields, MinorKey)
               case None => Err(KeyError(MinorKey))
               case Some(minors) =>
                 if !minors.JObj? then Err(AttributeError)
                 else match AsListMap(minors)
                 case None => Err(TypeError)
                 case Some(minorMap) => Ok(Taxonomy(majorList, mediumMap, minorMap)))
    case _ => Err(TypeError)
  }

  /** doc_structure["중분류"].get(major, ["일반"]) */
  function MediumOptions(t: Taxonomy, major: string): seq<string> {
    if major in t.mediums then t.mediums[major] else ["일반"]
  }

  /** doc_structure["소분류"].get(medium, ["기본"]) */
  function MinorOptions(t: Taxonomy, medium: string): seq<string> {
    if medium in t.minors then t.minors[medium] else ["기본"]
  }

  /** Every random.choice that create_generic_testcase can reach has something to choose from. */
  ghost predicate FallbackSafe(t: Taxonomy) {
    && |t.majors| > 0
    && (forall m :: m in t.majors ==> |MediumOptions(t, m)| > 0)
    && (forall m, md :: m in t.majors && md in MediumOptions(t, m) ==> |MinorOptions(t, md)| > 0)
  }

  /** identify_document_structure once the prompt is built. Gemini (lines 103-126): the call
      sits outside the try block; the first `{...}` span of the text is parsed, and a missing
      span, an unreadable text or a parse error gives the default structure. OpenAI
      (lines 128-143): the whole text is parsed, and any failure, the call's included, gives
      the default structure. */
  function IdentifyDocumentStructure(option: string, apiKeys: map<string, string>, reply: Reply, parse: Parser): (r: Result<Json>)
    ensures r.Err? <==> ConfigureApiClients(option, apiKeys).Err? || (option == GeminiOption && reply.CallFailed?)
    ensures r.Err? && ConfigureApiClients(option, apiKeys).Ok? ==> r.error == OracleError
    ensures ConfigureApiClients(option, apiKeys).Ok? && option == GeminiOption && reply.Text? ==>
      var span := FindSpan(reply.text, '{', '}');
      span.Some? && parse(span.value).Some? ==> r == Ok(parse(span.value).value)
    ensures ConfigureApiClients(option, apiKeys).Ok? && option != GeminiOption && reply.Text? ==>
      parse(reply.text).Some? ==> r == Ok(parse(reply.text).value)
  {
    var _ :- ConfigureApiClients(option, apiKeys);
    match BackendOf(option)
    case Gemini =>
      (match reply
       case CallFailed => Err(OracleError)
       case Unreadable => Ok(CreateDefaultStructure())
       case Text(text) =>
         match FindSpan(text, '{', '}')
         case None => Ok(CreateDefaultStructure())
         case Some(span) => Ok(ParsedOrDefault(parse(span))))
    case OpenAI =>
      match reply
      case Text(text) => Ok(ParsedOrDefault(parse(text)))
      case _ => Ok(CreateDefaultStructure())
  }

  function ParsedOrDefault(parsed: Option<Json>): Json {
    match parsed
    case Some(structure) => structure
    case None => CreateDefaultStructure()
  }

  /** The object built as create_default_structure builds it, with the three keys in that
      order, reads as the taxonomy of its three parts. */
  lemma {:induction false} TripleRead(majors: Json, mediums: Json, minors: Json)
    requires AsStrings(majors).Some? && AsListMap(mediums).Some? && AsListMap(minors).Some?
    ensures AsTaxonomy(JObj([(MajorKey, majors), (MediumKey, mediums), (MinorKey, minors)])) ==
      Ok(Taxonomy(AsStrings(majors).value, AsListMap(mediums).value, AsListMap(minors).value))
  {
    var fields := [(MajorKey, majors), (MediumKey, mediums), (MinorKey, minors)];
    assert MajorKey[0] != MediumKey[0] && MajorKey[0] != MinorKey[0] && MediumKey[0] != MinorKey[0];
    GetAfter(fields, 1, MediumKey);
    GetAfter(fields, 2, MinorKey);
    assert Get(fields, MajorKey) == Some(majors);
    assert Get(fields[1..], MediumKey) == Some(mediums);
    assert Get(fields[2..], MinorKey) == Some(minors);
  }

  /** The taxonomy the default structure stands for. */
  const DefaultTaxonomy := Taxonomy(DefaultMajors, EntriesMap(DefaultMediums), EntriesMap(DefaultMinors))

  /** The default structure passes the reading of lines 177-183. */
  lemma DefaultStructureRead()
    ensures AsTaxonomy(CreateDefaultStructure()) == Ok(DefaultTaxonomy)
  {
    BuiltStructureRead(DefaultMajors, DefaultMediums, DefaultMinors);
  }

  /** A structure built as create_default_structure builds it, from any lists, reads back as
      exactly those lists. */
  lemma BuiltStructureRead(majors: seq<string>, mediums: seq<(string, seq<string>)>, minors: seq<(string, seq<string>)>)
    ensures AsTaxonomy(JObj([(MajorKey, StrList(majors)), (MediumKey, JObj(ListFields(mediums))), (MinorKey, JObj(ListFields(minors)))]))
      == Ok(Taxonomy(majors, EntriesMap(mediums), EntriesMap(minors)))
  {
    StrListRead(majors);
    ListFieldsRead(mediums);
    ListFieldsRead(minors);
    assert AsListMap(JObj(ListFields(mediums))) == Some(EntriesMap(mediums));
    assert AsListMap(JObj(ListFields(minors))) == Some(EntriesMap(minors));
    TripleRead(StrList(majors), JObj(ListFields(mediums)), JObj(ListFields(minors)));
  }

  /** The default taxonomy has exactly four majors, each a key of the medium map with two or
      three mediums, and no other key. */
  lemma DefaultMajorsShape()
    ensures var t := DefaultTaxonomy;
      && t.majors == ["시스템", "게임플레이", "UI", "기타"]
      && (forall m :: m in t.majors ==> m in t.mediums && 2 <= |t.mediums[m]| <= 3)
      && t.mediums.Keys == set m | m in t.majors
  {
    DefaultMediumMap();
  }

  /** The default minor map has four keys, each a medium listed under some major. */
  lemma DefaultMinorsShape()
    ensures var t := DefaultTaxonomy;
      && |t.minors.Keys| == 4
      && (forall md :: md in t.minors ==> exists m :: m in t.majors && m in t.mediums && md in t.mediums[m])
  {
    DefaultMinorCount();
    DefaultMinorOwners();
    MinorsUnderMajors(DefaultTaxonomy);
  }

  lemma MinorsUnderMajors(t: Taxonomy)
    requires t.minors.Keys == {"로그인", "전투", "메뉴", "성능"}
    requires "시스템" in t.majors && "게임플레이" in t.majors && "UI" in t.majors && "기타" in t.majors
    requires && "시스템" in t.mediums && "로그인" in t.mediums["시스템"]
      && "게임플레이" in t.mediums && "전투" in t.mediums["게임플레이"]
      && "UI" in t.mediums && "메뉴" in t.mediums["UI"]
      && "기타" in t.mediums && "성능" in t.mediums["기타"]
    ensures forall md :: md in t.minors ==> exists m :: m in t.majors && m in t.mediums && md in t.mediums[m]
  {
    forall md | md in t.minors
      ensures exists m :: m in t.majors && m in t.mediums && md in t.mediums[m]
    {
      if md == "로그인" {
        assert "시스템" in t.majors && md in t.mediums["시스템"];
      } else if md == "전투" {
        assert "게임플레이" in t.majors && md in t.mediums["게임플레이"];
      } else if md == "메뉴" {
        assert "UI" in t.majors && md in t.mediums["UI"];
      } else {
        assert "기타" in t.majors && md in t.mediums["기타"];
      }
    }
  }

  lemma DefaultMinorOwners()
    ensures var t := DefaultTaxonomy;
      && t.minors.Keys == {"로그인", "전투", "메뉴", "성능"}
      && "시스템" in t.majors && "게임플레이" in t.majors && "UI" in t.majors && "기타" in t.majors
      && "시스템" in t.mediums && "로그인" in t.mediums["시스템"]
      && "게임플레이" in t.mediums && "전투" in t.mediums["게임플레이"]
      && "UI" in t.mediums && "메뉴" in t.mediums["UI"]
      && "기타" in t.mediums && "성능" in t.mediums["기타"]
  {
    DefaultMediumMap();
    DefaultMinorKeys();
  }

  lemma DefaultMinorCount()
    ensures |DefaultTaxonomy.minors.Keys| == 4
  {
    DefaultMinorKeys();
  }

  lemma DefaultMinorKeys()
    ensures DefaultTaxonomy.minors.Keys == {"로그인", "전투", "메뉴", "성능"}
  {
    DefaultMinorMap();
  }

  /** The generic fallback can always draw from the default taxonomy. */
  lemma DefaultFallbackSafe()
    ensures FallbackSafe(DefaultTaxonomy)
  {
    DefaultMediumMap();
    DefaultMinorMap();
  }

  lemma DefaultMediumMap()
    ensures EntriesMap(DefaultMediums) == map[
      "시스템" := ["로그인", "설정", "계정"], "게임플레이" := ["전투", "퀘스트", "캐릭터"],
      "UI" := ["메뉴", "HUD", "인벤토리"], "기타" := ["성능", "호환성"]]
  {
    var e := DefaultMediums;
    assert e[1..][1..][1..][1..] == [];
  }

  lemma DefaultMinorMap()
    ensures EntriesMap(DefaultMinors) == map[
      "로그인" := ["성공", "실패", "오류"], "전투" := ["공격", "방어", "스킬"],
      "메뉴" := ["진입", "이동", "종료"], "성능" := ["로딩", "프레임레이트"]]
  {
    var e := DefaultMinors;
    assert e[1..][1..][1..][1..] == [];
  }

  /** With no `}` after a `{` in a readable Gemini reply, the result is exactly the default. */
  lemma GeminiWithoutObjectDefaults(apiKeys: map<string, string>, text: string, parse: Parser)
    requires "gemini" in apiKeys
    requires forall i, j :: !MatchAt(text, '{', '}', i, j)
    ensures IdentifyDocumentStructure(GeminiOption, apiKeys, Text(text), parse) == Ok(CreateDefaultStructure())
  {
  }

  /** When json.loads fails on every input, a structure that is returned is the default. */
  lemma ParseFailureDefaults(option: string, apiKeys: map<string, string>, reply: Reply, parse: Parser)
    requires forall s :: parse(s).None?
    requires IdentifyDocumentStructure(option, apiKeys, reply, parse).Ok?
    ensures IdentifyDocumentStructure(option, apiKeys, reply, parse).value == CreateDefaultStructure()
  {
  }

  /** Any other structure is one json.loads produced, from the reply's first `{...}` span
      on Gemini and from the whole reply on OpenAI. */
  lemma StructureComesFromReply(option: string, apiKeys: map<string, string>, reply: Reply, parse: Parser)
    requires IdentifyDocumentStructure(option, apiKeys, reply, parse).Ok?
    requires IdentifyDocumentStructure(option, apiKeys, reply, parse).value != CreateDefaultStructure()
    ensures reply.Text?
    ensures option == GeminiOption ==>
      FindSpan(reply.text, '{', '}').Some? && parse(FindSpan(reply.text, '{', '}').value) == Some(IdentifyDocumentStructure(option, apiKeys, reply, parse).value)
    ensures option != GeminiOption ==> parse(reply.text) == Some(IdentifyDocumentStructure(option, apiKeys, reply, parse).value)
  {
  }
}
