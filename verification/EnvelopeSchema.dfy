/** The checked-in envelope schema
    (`contracts/schemas/public-record-envelope-v1.schema.json`): the audit accepts it. */
module EnvelopeSchema {
  import opened JsonValues
  import opened SchemaAudit
  import opened SchemaAccepts
  import opened JsonPointer
  import SchemaMatch
  import SchemaMeaning
  import SchemaTheorems
  import Envelope

  const RECORD_ID := @"^[a-z0-9][a-z0-9.-]*:[a-z0-9][a-z0-9._/-]*(?![\s\S])"
  const PUBLISHER := @"^[a-z0-9][a-z0-9.-]*(?![\s\S])"
  const VERSION := @"^[0-9]+\.[0-9]+\.[0-9]+(?![\s\S])"
  const DIGEST := @"^sha512-[0-9a-f]{128}(?![\s\S])"
  const EXTENSION_NAME := @"^[a-z0-9]+(?:\.[a-z0-9-]+)+(?![\s\S])"

  // ---- Its parts -----------------------------------------------------------------------

  const OBJECT := Member("type", String("object"))
  const STRING := Member("type", String("string"))

  function Matching(pattern: string): Json {
    Object([STRING, Member("pattern", String(pattern))])
  }

  function Constant(text: string): Json {
    Object([Member("const", String(text))])
  }

  function TextList(items: seq<string>): Json {
    Array(seq(|items|, i requires 0 <= i < |items| => String(items[i])))
  }

  function Choice(items: seq<string>): Json {
    Object([Member("enum", TextList(items))])
  }

  function TypedChoice(items: seq<string>): Json {
    Object([STRING, Member("enum", TextList(items))])
  }

  const ANY_OBJECT := Object([OBJECT])
  const TYPES := ["contract", "profile", "adapter", "qualification", "release"]

  const EXTENSION_PROPERTIES := [
    Member("state", Constant("inert")),
    Member("version", Matching(VERSION)),
    Member("criticality", Choice(["optional", "required"])),
    Member("metadata", ANY_OBJECT)
  ]

  /** A closed object with these members, of which some are required. */
  function Closed(required: Json, properties: Json): seq<Member> {
    [
      OBJECT, Member("additionalProperties", Bool(false)), Member("required", required),
      Member("properties", properties)
    ]
  }

  const EXTENSION := Closed(TextList(["state", "version", "criticality"]), Object(EXTENSION_PROPERTIES))

  const LINK := [Member("$ref", String("#/$defs/extension"))]

  function Named(pattern: string): Json {
    Object([Member("pattern", String(pattern))])
  }

  /** An open object with these names and values. */
  function Opened(names: Json, others: Json): seq<Member> {
    [OBJECT, Member("propertyNames", names), Member("additionalProperties", others)]
  }

  const EXTENSIONS := Opened(Named(EXTENSION_NAME), Object(LINK))

  const PROPERTIES := [
    Member("record_type", TypedChoice(TYPES)),
    Member("schema_version", Constant("io.nisavid.sacrysty.public-record/v1")),
    Member("record_id", Matching(RECORD_ID)),
    Member("publisher", Matching(PUBLISHER)),
    Member("version", Matching(VERSION)),
    Member("content_digest", Matching(DIGEST)),
    Member("body", ANY_OBJECT),
    Member("extensions", Object(EXTENSIONS))
  ]

  const DEFINITIONS := [Member("extension", Object(EXTENSION))]

  /** A closed object at the root of a schema. */
  function Whole(id: Json, title: Json, required: Json, properties: Json, definitions: Json): seq<Member> {
    [
      Member("$schema", String("https://json-schema.org/draft/2020-12/schema")), Member("$id", id),
      Member("title", title), OBJECT, Member("additionalProperties", Bool(false)), Member("required", required),
      Member("properties", properties), Member("$defs", definitions)
    ]
  }

  const ROOT :=
    Whole(String("https://sacrysty.nisavid.io/schemas/public-record-envelope/v1"),
          String("Sacrysty public record envelope v1"),
          TextList(["record_type", "schema_version", "record_id", "publisher", "body"]),
          Object(PROPERTIES), Object(DEFINITIONS))

  // ---- Each part is accepted -------------------------------------------------------------

  ghost predicate Taken(schema: Json, named: bool, stack: seq<string>, re: Regex) {
    Audit(schema, ROOT, false, stack, Inherited(named), re, CyclicReference).Accepted?
  }

  ghost predicate Distinct(items: seq<string>) {
    forall i, j | 0 <= i < j < |items| :: items[i] != items[j]
  }

  lemma TextsAreStrings(items: seq<string>)
    requires Distinct(items)
    ensures Strings(TextList(items)) && |TextList(items).items| == |items|
  {
  }

  /** The forms in use here. */
  lemma Forms(value: Json, ms: seq<Member>, isRoot: bool, named: bool, re: Regex)
    ensures value == String("https://json-schema.org/draft/2020-12/schema") && isRoot ==>
              Supported("$schema", value, ms, isRoot, named, ROOT, re)
    ensures value.String? && isRoot ==> Supported("$id", value, ms, isRoot, named, ROOT, re)
    ensures value.Object? && isRoot ==> Supported("$defs", value, ms, isRoot, named, ROOT, re)
    ensures value.String? ==>
              && Supported("title", value, ms, isRoot, named, ROOT, re)
              && Supported("const", value, ms, isRoot, named, ROOT, re)
    ensures value == String("object") || value == String("string") ==>
              Supported("type", value, ms, isRoot, named, ROOT, re)
    ensures Strings(value) && value.items != [] ==> Supported("enum", value, ms, isRoot, named, ROOT, re)
    ensures value.String? && re.Compiles(value.s) && OfStrings(ms, named) ==>
              Supported("pattern", value, ms, isRoot, named, ROOT, re)
    ensures OfObjects(ms) && Strings(value) ==> Supported("required", value, ms, isRoot, named, ROOT, re)
    ensures OfObjects(ms) && value.Object? ==> Supported("properties", value, ms, isRoot, named, ROOT, re)
    ensures OfObjects(ms) ==> Supported("propertyNames", value, ms, isRoot, named, ROOT, re)
    ensures OfObjects(ms) && (value.Bool? || value.Object?) ==>
              Supported("additionalProperties", value, ms, isRoot, named, ROOT, re)
  {
    hide Strings, OfObjects, OfStrings, Names, Get;
  }

  lemma ConstantTaken(text: string, stack: seq<string>, re: Regex)
    ensures Taken(Constant(text), false, stack, re)
  {
    hide Audit, AuditAll, Supported;
    Forms(String(text), Constant(text).members, false, false, re);
    AcceptedByMember(Constant(text).members, false, false, stack, ROOT, re);
  }

  lemma ChoiceTaken(items: seq<string>, stack: seq<string>, re: Regex)
    requires Distinct(items) && items != []
    ensures Taken(Choice(items), false, stack, re)
  {
    hide Audit, AuditAll, TextList, Strings, Supported;
    TextsAreStrings(items);
    Forms(TextList(items), Choice(items).members, false, false, re);
    AcceptedByMember(Choice(items).members, false, false, stack, ROOT, re);
  }

  lemma TypedChoiceTaken(items: seq<string>, stack: seq<string>, re: Regex)
    requires Distinct(items) && items != []
    ensures Taken(TypedChoice(items), false, stack, re)
  {
    hide Audit, AuditAll, TextList, Strings, Supported;
    TextsAreStrings(items);
    var ms := TypedChoice(items).members;
    Forms(TextList(items), ms, false, false, re);
    Forms(String("string"), ms, false, false, re);
    AcceptedByMember(ms, false, false, stack, ROOT, re);
  }

  lemma MatchingTaken(pattern: string, stack: seq<string>, re: Regex)
    requires re.Compiles(pattern)
    ensures Taken(Matching(pattern), false, stack, re)
  {
    hide Audit, AuditAll;
    TypedPatternAccepted(pattern, ROOT, stack, re);
  }

  lemma ObjectTaken(stack: seq<string>, re: Regex)
    ensures Taken(ANY_OBJECT, false, stack, re)
  {
    hide Audit, AuditAll;
    AcceptedByMember([OBJECT], false, false, stack, ROOT, re);
  }

  ghost predicate AllTaken(ms: seq<Member>, stack: seq<string>, re: Regex) {
    forall k | 0 <= k < |ms| :: Taken(ms[k].value, false, stack, re)
  }

  lemma AllTakenTogether(ms: seq<Member>, stack: seq<string>, re: Regex)
    requires AllTaken(ms, stack, re)
    ensures AuditAll(ms, ROOT, stack, re, CyclicReference).Accepted?
  {
    hide Audit, AuditAll;
    AuditAllAccepts(ms, ROOT, stack, re, CyclicReference);
  }

  lemma ExtensionPropertiesTaken(stack: seq<string>, re: Regex)
    requires re.Compiles(VERSION)
    ensures AllTaken(EXTENSION_PROPERTIES, stack, re)
  {
    hide Taken, Constant, Matching, Choice;
    ConstantTaken("inert", stack, re);
    MatchingTaken(VERSION, stack, re);
    assert ["optional", "required"][0] != ["optional", "required"][1];
    ChoiceTaken(["optional", "required"], stack, re);
    ObjectTaken(stack, re);
  }

  lemma ExtensionTaken(stack: seq<string>, re: Regex)
    requires re.Compiles(VERSION)
    ensures Taken(Object(EXTENSION), false, stack, re)
  {
    hide TextList;
    RequiredAreStrings();
    ExtensionPropertiesTaken(stack, re);
    ClosedTaken(TextList(["state", "version", "criticality"]), EXTENSION_PROPERTIES, stack, re);
  }

  lemma RequiredAreStrings()
    ensures Strings(TextList(["state", "version", "criticality"]))
    ensures Strings(TextList(["record_type", "schema_version", "record_id", "publisher", "body"]))
  {
    hide Strings, TextList;
    TextsAreStrings(["state", "version", "criticality"]);
    TextsAreStrings(["record_type", "schema_version", "record_id", "publisher", "body"]);
  }

  lemma ClosedMembers(required: Json, properties: Json)
    ensures var ms := Closed(required, properties);
            && DistinctNames(ms) && Names(ms) == {"type", "additionalProperties", "required", "properties"}
            && Get(ms, "type") == Some(String("object"))
            && Get(ms, "properties") == Some(properties) && Get(ms, "additionalProperties") == Some(Bool(false))
  {
    hide Get;
    var ms := Closed(required, properties);
    assert |ms[0].name| == 4 && |ms[1].name| == 20 && |ms[2].name| == 8 && |ms[3].name| == 10;
    GetAt(ms, 0);
    GetAt(ms, 1);
    GetAt(ms, 3);
  }

  lemma ClosedTaken(required: Json, properties: seq<Member>, stack: seq<string>, re: Regex)
    requires Strings(required) && AllTaken(properties, stack, re)
    ensures Taken(Object(Closed(required, Object(properties))), false, stack, re)
  {
    hide Audit, AuditAll, Strings, Supported, AllTaken, Names, DistinctNames;
    var ms := Closed(required, Object(properties));
    ClosedMembers(required, Object(properties));
    Forms(String("object"), ms, false, false, re);
    Forms(Bool(false), ms, false, false, re);
    Forms(required, ms, false, false, re);
    Forms(Object(properties), ms, false, false, re);
    AllTakenTogether(properties, stack, re);
    AcceptedByMember(ms, false, false, stack, ROOT, re);
  }

  lemma WholeNames(id: Json, title: Json, required: Json, properties: Json, definitions: Json)
    ensures DistinctNames(Whole(id, title, required, properties, definitions))
  {
    var ms := Whole(id, title, required, properties, definitions);
    assert |ms[0].name| == 7 && |ms[1].name| == 3 && |ms[2].name| == 5 && |ms[3].name| == 4;
    assert |ms[4].name| == 20 && |ms[5].name| == 8 && |ms[6].name| == 10 && |ms[7].name| == 5;
    assert ms[2].name[0] == 't' && ms[7].name[0] == '$';
  }

  lemma NotNamed(ms: seq<Member>, name: string)
    requires forall k | 0 <= k < |ms| :: ms[k].name != name
    ensures !Has(ms, name)
  {
  }

  lemma WholeLacks(id: Json, title: Json, required: Json, properties: Json, definitions: Json)
    ensures var ms := Whole(id, title, required, properties, definitions);
            !Has(ms, "$ref") && !Has(ms, "propertyNames")
  {
    hide Has;
    var ms := Whole(id, title, required, properties, definitions);
    assert |ms[0].name| == 7 && |ms[1].name| == 3 && |ms[2].name| == 5 && |ms[3].name| == 4;
    assert |ms[4].name| == 20 && |ms[5].name| == 8 && |ms[6].name| == 10 && |ms[7].name| == 5;
    assert ms[3].name[0] == 't' && "$ref"[0] == '$';
    NotNamed(ms, "$ref");
    NotNamed(ms, "propertyNames");
  }

  lemma WholeMembers(id: Json, title: Json, required: Json, properties: Json, definitions: Json)
    ensures var ms := Whole(id, title, required, properties, definitions);
            && Get(ms, "type") == Some(String("object"))
            && Get(ms, "properties") == Some(properties) && Get(ms, "additionalProperties") == Some(Bool(false))
            && Get(ms, "$defs") == Some(definitions)
  {
    hide Get, DistinctNames;
    WholeNames(id, title, required, properties, definitions);
    var ms := Whole(id, title, required, properties, definitions);
    GetAt(ms, 3);
    GetAt(ms, 4);
    GetAt(ms, 6);
    GetAt(ms, 7);
  }

  lemma AfterPrefix(name: string)
    ensures PREFIX <= PREFIX + name && (PREFIX + name)[|PREFIX|..] == name
  {
  }

  lemma ReferenceText()
    ensures "#/$defs/extension" == PREFIX + "extension" && '/' !in "extension"
  {
  }

  lemma RootDefines(id: Json, title: Json, required: Json, properties: Json, target: Json)
    ensures var definitions := Object([Member("extension", target)]);
            Resolve("#/$defs/extension", Whole(id, title, required, properties, definitions)) == Some(target)
  {
    hide Whole, Get;
    var definitions := Object([Member("extension", target)]);
    WholeMembers(id, title, required, properties, definitions);
    ReferenceText();
    AfterPrefix("extension");
    GetAt([Member("extension", target)], 0);
    hide PREFIX;
  }

  /** The one reference resolves to the one definition. */
  lemma LinkResolves()
    ensures Resolve("#/$defs/extension", ROOT) == Some(Object(EXTENSION))
  {
    hide TextList, Names, Whole, Resolve, Closed;
    RootDefines(String("https://sacrysty.nisavid.io/schemas/public-record-envelope/v1"),
                String("Sacrysty public record envelope v1"),
                TextList(["record_type", "schema_version", "record_id", "publisher", "body"]),
                Object(PROPERTIES), Object(EXTENSION));
  }

  lemma LinkKeywords()
    ensures KeywordsSupported(LINK, false) && Has(LINK, "$ref") && Names(LINK) == {"$ref"}
    ensures Get(LINK, "$ref") == Some(String("#/$defs/extension"))
  {
    assert Names(LINK) == {"$ref"};
    GetAt(LINK, 0);
  }

  lemma LinkPasses(re: Regex)
    ensures Passes(LINK, false, false, ROOT, re) && Has(LINK, "$ref")
  {
    hide Resolve, ROOT, EXTENSION, ValuesSupported, KeywordsSupported, Names, Get;
    LinkResolves();
    LinkKeywords();
  }

  lemma LinkTaken(re: Regex)
    requires re.Compiles(VERSION)
    ensures Taken(Object(LINK), false, [], re)
  {
    hide Audit, AuditAll, Resolve, Passes;
    LinkResolves();
    LinkPasses(re);
    var reference := TargetAccepted(Position(Object(LINK), false), false, [], ROOT, re);
    GetAt(LINK, 0);
    ExtensionTaken([] + [reference], re);
  }

  lemma NamedTaken(pattern: string, re: Regex)
    requires re.Compiles(pattern)
    ensures Taken(Named(pattern), true, [], re)
  {
    hide Audit, AuditAll, Supported;
    var ms := [Member("pattern", String(pattern))];
    Forms(String(pattern), ms, false, true, re);
    AcceptedByMember(ms, false, true, [], ROOT, re);
  }

  lemma OpenedMembers(names: Json, others: Json)
    ensures var ms := Opened(names, others);
            && DistinctNames(ms) && Names(ms) == {"type", "propertyNames", "additionalProperties"}
            && Get(ms, "type") == Some(String("object"))
            && Get(ms, "propertyNames") == Some(names) && Get(ms, "additionalProperties") == Some(others)
  {
    hide Get;
    var ms := Opened(names, others);
    assert |ms[0].name| == 4 && |ms[1].name| == 13 && |ms[2].name| == 20;
    GetAt(ms, 0);
    GetAt(ms, 1);
    GetAt(ms, 2);
  }

  lemma OpenedTaken(names: Json, others: Json, re: Regex)
    requires Taken(names, true, [], re) && Taken(others, false, [], re) && others.Object?
    ensures Taken(Object(Opened(names, others)), false, [], re)
  {
    hide Audit, AuditAll, Supported, Names, DistinctNames;
    var ms := Opened(names, others);
    OpenedMembers(names, others);
    Forms(String("object"), ms, false, false, re);
    Forms(names, ms, false, false, re);
    Forms(others, ms, false, false, re);
    AcceptedByMember(ms, false, false, [], ROOT, re);
  }

  /** The library compiles its patterns. */
  ghost predicate AllCompile(re: Regex) {
    && re.Compiles(RECORD_ID) && re.Compiles(PUBLISHER) && re.Compiles(VERSION) && re.Compiles(DIGEST)
    && re.Compiles(EXTENSION_NAME)
  }

  lemma TypesDiffer()
    ensures Distinct(TYPES)
  {
    assert |TYPES[0]| == 8 && |TYPES[1]| == 7 && |TYPES[2]| == 7 && |TYPES[3]| == 13 && |TYPES[4]| == 7;
    assert TYPES[1][0] == 'p' && TYPES[2][0] == 'a' && TYPES[4][0] == 'r';
  }

  lemma PropertiesTaken(re: Regex)
    requires AllCompile(re)
    ensures AllTaken(PROPERTIES, [], re)
  {
    hide Taken, Constant, Matching, TypedChoice, Opened, Named, Distinct;
    TypesDiffer();
    TypedChoiceTaken(TYPES, [], re);
    ConstantTaken("io.nisavid.sacrysty.public-record/v1", [], re);
    MatchingTaken(RECORD_ID, [], re);
    MatchingTaken(PUBLISHER, [], re);
    MatchingTaken(VERSION, [], re);
    MatchingTaken(DIGEST, [], re);
    ObjectTaken([], re);
    NamedTaken(EXTENSION_NAME, re);
    LinkTaken(re);
    OpenedTaken(Named(EXTENSION_NAME), Object(LINK), re);
  }

  lemma WholeSupported(id: string, title: string, required: Json, properties: Json, definitions: Json, re: Regex)
    requires Strings(required) && properties.Object? && definitions.Object?
    ensures EachSupported(Whole(String(id), String(title), required, properties, definitions), true, false, ROOT, re)
  {
    hide Supported, Names, DistinctNames, Strings, Has, Get, ROOT;
    var ms := Whole(String(id), String(title), required, properties, definitions);
    WholeMembers(String(id), String(title), required, properties, definitions);
    Forms(ms[0].value, ms, true, false, re);
    Forms(ms[1].value, ms, true, false, re);
    Forms(ms[2].value, ms, true, false, re);
    Forms(ms[3].value, ms, true, false, re);
    Forms(ms[4].value, ms, true, false, re);
    Forms(ms[5].value, ms, true, false, re);
    Forms(ms[6].value, ms, true, false, re);
    Forms(ms[7].value, ms, true, false, re);
  }

  lemma WholeTaken(id: string, title: string, required: Json, properties: seq<Member>, definitions: seq<Member>,
                   re: Regex)
    requires ROOT == Whole(String(id), String(title), required, Object(properties), Object(definitions))
    requires Strings(required) && AllTaken(properties, [], re) && AllTaken(definitions, [], re)
    ensures AuditRoot(Object(ROOT), re).Accepted?
  {
    hide Audit, AuditAll, Names, DistinctNames, Strings, AllTaken, Has, Whole, EachSupported, ROOT, Get;
    WholeNames(String(id), String(title), required, Object(properties), Object(definitions));
    WholeMembers(String(id), String(title), required, Object(properties), Object(definitions));
    WholeLacks(String(id), String(title), required, Object(properties), Object(definitions));
    WholeSupported(id, title, required, Object(properties), Object(definitions), re);
    AllTakenTogether(properties, [], re);
    AllTakenTogether(definitions, [], re);
    AcceptedByMember(ROOT, true, false, [], ROOT, re);
  }

  /** The audit accepts the checked-in schema with every library that compiles its patterns. */
  lemma SchemaAccepted(re: Regex)
    requires AllCompile(re)
    ensures AuditRoot(Object(ROOT), re).Accepted?
  {
    hide TextList, Whole, AllTaken, AuditRoot, Strings, Closed;
    RequiredAreStrings();
    PropertiesTaken(re);
    DefinitionsTaken(re);
    WholeTaken("https://sacrysty.nisavid.io/schemas/public-record-envelope/v1", "Sacrysty public record envelope v1",
               TextList(["record_type", "schema_version", "record_id", "publisher", "body"]),
               PROPERTIES, DEFINITIONS, re);
  }

  lemma DefinitionsTaken(re: Regex)
    requires re.Compiles(VERSION)
    ensures AllTaken(DEFINITIONS, [], re)
  {
    hide Taken, Closed, TextList;
    ExtensionTaken([], re);
  }

  /** Under the checked-in schema every record is answered, and admitted exactly if it
      conforms to the tree of that schema, its publisher owns its identifier and no
      extension is beyond this reader. */
  lemma CheckedInAnswers(record: Json, re: Regex, utf8: Utf8)
    requires AllCompile(re) && Compact(utf8)
    ensures AuditRoot(Object(ROOT), re).Accepted?
    ensures exists fuel ::
              Envelope.EnvelopeAdmissible(fuel, record, Object(ROOT), re) ==
              Some(SchemaMatch.Answer(
                && SchemaMatch.Conforms(record, SchemaTheorems.TreeOf(Object(ROOT), re), re)
                && Envelope.Owned(record) && Envelope.Understood(record)))
  {
    hide AuditRoot, ROOT;
    SchemaAccepted(re);
    var fuel := SchemaMeaning.Depth(SchemaTheorems.TreeOf(Object(ROOT), re)) + 1;
    Envelope.EnvelopeAnswers(fuel, record, Object(ROOT), re, utf8);
  }
}
