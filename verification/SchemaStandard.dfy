/** What JSON Schema 2020-12 makes of a schema's references, and when the audited
    matcher agrees with it. */
module SchemaStandard {
  import opened JsonValues
  import opened JsonPointer
  import opened SchemaAudit
  import opened SchemaMatch
  import opened SchemaMeaning
  import opened SchemaTheorems
  import opened SchemaCycles
  import opened Texts

  // ---- The standard's reading of a schema ----------------------------------------

  /** The tree is the schema with every reference followed as the standard says. */
  ghost predicate Denotes(schema: Json, root: seq<Member>, tree: Tree, utf8: Utf8)
    decreases tree
  {
    && schema.Object?
    && var ms := schema.members;
       match tree
       case Reference(target) =>
         && Names(ms) == {"$ref"} && Get(ms, "$ref").value.String?
         && var referred := Refer(Get(ms, "$ref").value.s, Object(root), utf8);
            referred.Some? && Denotes(referred.value, root, target, utf8)
       case Keywords(_, _, _, _, _, properties, names, additional) =>
         && ReadsKeywords(ms, tree)
         && DenotesAll(Children(ms, "properties"), root, properties, utf8)
         && (names.Some? ==> Denotes(Get(ms, "propertyNames").value, root, names.value, utf8))
         && (additional.Each? ==> Denotes(Get(ms, "additionalProperties").value, root, additional.tree, utf8))
  }

  /** The keywords of one schema, without its subschemas. */
  ghost predicate ReadsKeywords(ms: seq<Member>, tree: Tree)
    requires tree.Keywords?
  {
    && !Has(ms, "$ref") && WellFormed(ms)
    && tree.kind == KindOf(ms) && tree.constant == Get(ms, "const") && tree.choices == ChoicesOf(ms)
    && tree.pattern == PatternOf(ms) && tree.required == RequiredOf(ms)
    && (tree.names.Some? <==> Has(ms, "propertyNames"))
    && match tree.additional
       case Anything => Get(ms, "additionalProperties") in {None, Some(Bool(true))}
       case Nothing => Get(ms, "additionalProperties") == Some(Bool(false))
       case Each(_) => Has(ms, "additionalProperties")
  }

  ghost predicate DenotesAll(ms: seq<Member>, root: seq<Member>, ps: seq<Property>, utf8: Utf8)
    decreases ps
  {
    |ms| == |ps|
    && forall i | 0 <= i < |ps| :: ms[i].name == ps[i].name && Denotes(ms[i].value, root, ps[i].tree, utf8)
  }

  /** A schema denotes at most one tree. */
  lemma {:induction false} DenotesOne(schema: Json, root: seq<Member>, t: Tree, u: Tree, utf8: Utf8)
    requires Denotes(schema, root, t, utf8) && Denotes(schema, root, u, utf8)
    ensures t == u
    decreases t
  {
    var ms := schema.members;
    match t {
      case Reference(target) =>
        DenotesOne(Refer(Get(ms, "$ref").value.s, Object(root), utf8).value, root, target, u.target, utf8);
      case Keywords(_, _, _, _, _, properties, names, additional) =>
        forall i | 0 <= i < |properties| ensures properties[i] == u.properties[i] {
          DenotesOne(Children(ms, "properties")[i].value, root, properties[i].tree, u.properties[i].tree, utf8);
        }
        assert properties == u.properties;
        if names.Some? {
          DenotesOne(Get(ms, "propertyNames").value, root, names.value, u.names.value, utf8);
        }
        if additional.Each? && u.additional.Each? {
          DenotesOne(Get(ms, "additionalProperties").value, root, additional.tree, u.additional.tree, utf8);
        }
    }
  }

  // ---- Plain references ------------------------------------------------------------

  /** Nothing in this text is an escape, for a pointer or for a URI. */
  predicate Plain(text: string) {
    '~' !in text && '%' !in text
  }

  /** Every reference made in a root schema, its definitions included. */
  ghost function AllReferences(root: seq<Member>): set<string> {
    Refers(Object(root)) + RefersAll(Children(root, "$defs"))
  }

  /** How the standard resolves a reference that the code accepts. */
  lemma ReferSteps(name: string, root: seq<Member>, utf8: Utf8)
    requires '/' !in name && Resolve(PREFIX + name, root).Some?
    ensures var d := PercentDecode(name, utf8);
            Refer(PREFIX + name, Object(root), utf8) ==
              if d.None? then None else Walk(Get(root, "$defs").value, "/" + d.value)
  {
    hide Walk, PercentDecode, Resolve;
    var reference := PREFIX + name;
    DefsIsObject(reference, root);
    assert reference[1..] == "/$defs/" + name;
    PercentAppend("/$defs/", name, utf8);
    if PercentDecode(name, utf8).Some? {
      var d := PercentDecode(name, utf8).value;
      assert "/$defs/" + d == "/" + "$defs" + "/" + d;
      TwoSteps(Object(root), "$defs", d);
    }
  }

  lemma DefsIsObject(reference: string, root: seq<Member>)
    requires Resolve(reference, root).Some?
    ensures Get(root, "$defs").Some? && Get(root, "$defs").value.Object?
    ensures PREFIX <= reference && '/' !in reference[|PREFIX|..]
    ensures Resolve(reference, root) == Get(Get(root, "$defs").value.members, reference[|PREFIX|..])
  {
  }

  /** A plain name: the standard finds the definition of that very name. */
  lemma PlainNameAgrees(name: string, root: seq<Member>, utf8: Utf8)
    requires '/' !in name && Plain(name) && Compact(utf8) && Resolve(PREFIX + name, root).Some?
    ensures Refer(PREFIX + name, Object(root), utf8) == Resolve(PREFIX + name, root)
  {
    hide Walk, PercentDecode, Resolve, Refer;
    assert (PREFIX + name)[|PREFIX|..] == name;
    DefsIsObject(PREFIX + name, root);
    ReferSteps(name, root, utf8);
    PercentShortens(name, utf8);
    LastStep(Get(root, "$defs").value, name);
  }

  lemma LastStep(value: Json, rest: string)
    ensures var i := Index(rest, '/');
            var token := Unescape(rest[..i]);
            Walk(value, "/" + rest) ==
              if token.None? || Step(value, token.value).None? then None
              else Walk(Step(value, token.value).value, rest[i..])
    ensures '/' !in rest && '~' !in rest ==> Walk(value, "/" + rest) == Step(value, rest)
  {
    var pointer := "/" + rest;
    assert pointer[1..] == rest;
    UnescapeShortens(rest);
    if '/' !in rest {
      assert rest[..|rest|] == rest;
    }
  }

  lemma FoundDefinition(name: string, root: seq<Member>, definition: Json)
    requires '/' !in name && Get(root, "$defs") == Some(Object([Member(name, definition)]))
    ensures Resolve(PREFIX + name, root) == Some(definition)
  {
    assert (PREFIX + name)[|PREFIX|..] == name;
    OneKeyword(name, definition);
  }

  /** Any other name: undoing the escapes leaves a shorter one, so that where only
      this name is defined, the standard finds nothing. */
  lemma EscapedNameDisagrees(name: string, root: seq<Member>, definition: Json, utf8: Utf8)
    requires '/' !in name && !Plain(name) && Compact(utf8)
    requires Get(root, "$defs") == Some(Object([Member(name, definition)]))
    ensures Resolve(PREFIX + name, root) == Some(definition)
    ensures Refer(PREFIX + name, Object(root), utf8) == None
  {
    assert (PREFIX + name)[|PREFIX|..] == name;
    OneKeyword(name, definition);
    hide Walk, PercentDecode, Resolve, Refer, Unescape;
    FoundDefinition(name, root, definition);
    ReferSteps(name, root, utf8);
    PercentShortens(name, utf8);
    if PercentDecode(name, utf8).Some? {
      var d := PercentDecode(name, utf8).value;
      var i := Index(d, '/');
      LastStep(Object([Member(name, definition)]), d);
      UnescapeShortens(d[..i]);
      if Unescape(d[..i]).Some? {
        assert |Unescape(d[..i]).value| < |name| by {
          if '%' !in name {
            assert d == name && d[..i] == name;
          }
        }
      }
    }
  }

  // ---- Audited schemas ---------------------------------------------------------------

  ghost predicate AllPlain(references: set<string>) {
    forall reference | reference in references :: Plain(reference)
  }

  lemma {:induction false} RefersInside(ms: seq<Member>, m: Member)
    requires m in ms
    ensures Refers(m.value) <= RefersAll(ms)
  {
    if m != ms[0] {
      RefersInside(ms[1..], m);
    }
  }

  lemma PlainReferenceAgrees(reference: string, root: seq<Member>, utf8: Utf8)
    requires Compact(utf8) && AllPlain(AllReferences(root))
    requires Plain(reference) && Resolve(reference, root).Some?
    ensures Refer(reference, Object(root), utf8) == Resolve(reference, root)
    ensures AllPlain(Refers(Resolve(reference, root).value))
  {
    hide Refer, Resolve, Refers, RefersAll;
    DefsIsObject(reference, root);
    var name := reference[|PREFIX|..];
    assert PREFIX + name == reference;
    PlainNameAgrees(name, root, utf8);
    var definitions := Get(root, "$defs").value.members;
    RefersInside(definitions, Member(name, Get(definitions, name).value));
  }

  /** With plain references only, the tree that the code's own resolution unfolds is
      the one that the standard's denotes. */
  lemma {:induction false} ExpandDenotes(schema: Json, root: seq<Member>, stack: seq<string>, utf8: Utf8)
    requires Compact(utf8) && AllPlain(AllReferences(root)) && AllPlain(Refers(schema))
    requires Expand(schema, root, stack).Some?
    ensures Denotes(schema, root, Expand(schema, root, stack).value, utf8)
    decreases Unvisited(root, stack), schema, 1
  {
    var ms := schema.members;
    if Has(ms, "$ref") {
      hide Refer;
      var reference := Get(ms, "$ref").value.s;
      PushShrinks(root, stack, reference);
      PlainReferenceAgrees(reference, root, utf8);
      ExpandDenotes(Resolve(reference, root).value, root, stack + [reference], utf8);
    } else {
      KeywordsDenote(schema, root, stack, utf8);
    }
  }

  lemma {:induction false} KeywordsDenote(schema: Json, root: seq<Member>, stack: seq<string>, utf8: Utf8)
    requires Compact(utf8) && AllPlain(AllReferences(root)) && AllPlain(Refers(schema))
    requires Expand(schema, root, stack).Some? && !Has(schema.members, "$ref")
    ensures Denotes(schema, root, Expand(schema, root, stack).value, utf8)
    decreases Unvisited(root, stack), schema, 0
  {
    var ms := schema.members;
    if Has(ms, "properties") {
      ExpandAllDenotes(Get(ms, "properties").value.members, root, stack, utf8);
    }
    if Has(ms, "propertyNames") {
      ExpandDenotes(Get(ms, "propertyNames").value, root, stack, utf8);
    }
    if Has(ms, "additionalProperties") && Get(ms, "additionalProperties").value.Object? {
      ExpandDenotes(Get(ms, "additionalProperties").value, root, stack, utf8);
    }
  }

  lemma {:induction false} ExpandAllDenotes(ms: seq<Member>, root: seq<Member>, stack: seq<string>, utf8: Utf8)
    requires Compact(utf8) && AllPlain(AllReferences(root)) && AllPlain(RefersAll(ms))
    requires ExpandAll(ms, root, stack).Some?
    ensures DenotesAll(ms, root, ExpandAll(ms, root, stack).value, utf8)
    decreases Unvisited(root, stack), ms, 2
  {
    if ms != [] {
      ExpandDenotes(ms[0].value, root, stack, utf8);
      ExpandAllDenotes(ms[1..], root, stack, utf8);
    }
  }

  // ---- Agreement -----------------------------------------------------------------------

  /** With all the fuel that it needs, the matcher answers what the tree says. */
  ghost predicate AnswersAs(schema: Json, value: Json, tree: Tree, re: Regex)
    requires schema.Object?
  {
    forall fuel: nat {:trigger Match(fuel, value, schema.members, schema.members, re)} ::
      fuel > Depth(tree) ==>
        Match(fuel, value, schema.members, schema.members, re) == Some(Answer(Conforms(value, tree, re)))
  }

  /** The standard gives the schema a meaning, and the matcher answers by it. */
  ghost predicate Agrees(schema: Json, value: Json, re: Regex, utf8: Utf8)
    requires schema.Object?
  {
    exists tree :: Denotes(schema, schema.members, tree, utf8) && AnswersAs(schema, value, tree, re)
  }

  /** On an audited schema whose references contain no escapes the matcher answers, for every
      value, what JSON Schema 2020-12 says. */
  lemma AuditedAgrees(schema: Json, value: Json, re: Regex, utf8: Utf8)
    requires AuditRoot(schema, re).Accepted? && Compact(utf8)
    requires AllPlain(AllReferences(schema.members))
    ensures Agrees(schema, value, re, utf8)
    ensures Denotes(schema, schema.members, TreeOf(schema, re), utf8)
  {
    hide Audit, AuditAll, Expand, ExpandAll, Match, MatchObject, Conforms, Depth, Denotes;
    var root := schema.members;
    ExpandTotal(schema, root, true, [], None, re);
    assert Object(root) == schema;
    ExpandDenotes(schema, root, [], utf8);
    AuditedMatcher(schema, value, re);
    assert AnswersAs(schema, value, TreeOf(schema, re), re);
  }

  /** Every reference of the schema is to a definition of one of these names. */
  ghost predicate RefersOnlyTo(schema: Json, names: set<string>) {
    && schema.Object?
    && forall reference | reference in AllReferences(schema.members) ::
         PREFIX <= reference && reference[|PREFIX|..] in names
  }

  lemma NamesArePlain(schema: Json, names: set<string>, re: Regex)
    requires AuditRoot(schema, re).Accepted? && RefersOnlyTo(schema, names)
    requires forall name | name in names && '/' !in name :: Plain(name)
    ensures AllPlain(AllReferences(schema.members))
  {
    hide Audit, AuditAll, Refers, RefersAll, Resolve;
    var root := schema.members;
    forall reference | reference in AllReferences(root) ensures Plain(reference) {
      ReferenceResolves(schema, reference, re);
      DefsIsObject(reference, root);
      assert reference == PREFIX + reference[|PREFIX|..];
    }
  }

  lemma ReferenceResolves(schema: Json, reference: string, re: Regex)
    requires AuditRoot(schema, re).Accepted? && reference in AllReferences(schema.members)
    ensures Resolve(reference, schema.members).Some?
  {
    hide Refers, RefersAll, Resolve;
    var root := schema.members;
    if reference in Refers(schema) {
      AuditFollows(schema, root, true, [], None, re, reference);
    } else {
      assert schema == Object(root);
      AuditAllFollows(Children(root, "$defs"), root, [], re, reference);
    }
  }

  /** For every set of definition names: the matcher agrees with the standard on all
      audited schemas that refer to no other names, for all values, exactly when no
      name that can be referred to contains an escape. */
  lemma AgreesIff(names: set<string>, re: Regex, utf8: Utf8)
    requires Compact(utf8)
    ensures (forall schema, value | AuditRoot(schema, re).Accepted? && RefersOnlyTo(schema, names) ::
               Agrees(schema, value, re, utf8))
       <==> forall name | name in names && '/' !in name :: Plain(name)
  {
    hide AuditRoot, Agrees, AllReferences;
    if name :| name in names && '/' !in name && !Plain(name) {
      var definitions := [Member(name, Object(TEXT))];
      var schema := Object(Linked(name, definitions));
      OneKeyword(name, Object(TEXT));
      AcceptsReference(name, definitions, "string", re);
      LinkedRefersTo(name, names);
      EscapedReferenceDisagrees(name, Null, re, utf8);
    } else {
      forall schema, value | AuditRoot(schema, re).Accepted? && RefersOnlyTo(schema, names)
        ensures Agrees(schema, value, re, utf8)
      {
        NamesArePlain(schema, names, re);
        AuditedAgrees(schema, value, re, utf8);
      }
    }
  }

  lemma LinkedRefersTo(name: string, names: set<string>)
    requires name in names
    ensures RefersOnlyTo(Object(Linked(name, [Member(name, Object(TEXT))])), names)
  {
    var definitions := [Member(name, Object(TEXT))];
    LinkedMembers(name, definitions);
    OneKeyword("$ref", String(PREFIX + name));
    OneKeyword("type", String("string"));
    assert Refers(Object(Link(name))) == {PREFIX + name};
    assert Refers(Object(TEXT)) == {};
    assert definitions[1..] == [];
    assert RefersAll(definitions) == {};
    assert (PREFIX + name)[|PREFIX|..] == name;
  }

  /** A reference with an escape in it: the standard finds no such definition, so that
      the schema means nothing, while the audit accepts it. */
  lemma EscapedReferenceDisagrees(name: string, value: Json, re: Regex, utf8: Utf8)
    requires '/' !in name && !Plain(name) && Compact(utf8)
    ensures !Agrees(Object(Linked(name, [Member(name, Object(TEXT))])), value, re, utf8)
  {
    hide Refer, AnswersAs;
    var definitions := [Member(name, Object(TEXT))];
    var root := Linked(name, definitions);
    LinkedMembers(name, definitions);
    OneKeyword("$ref", String(PREFIX + name));
    EscapedNameDisagrees(name, root, Object(TEXT), utf8);
    forall tree | Denotes(Object(root), root, tree, utf8) ensures false {
      assert tree.Keywords? && tree.additional.Each?;
      assert !Denotes(Object(Link(name)), root, tree.additional.tree, utf8);
    }
  }

  // ---- A wrong answer ------------------------------------------------------------------

  const TWO := [Member("a~1b", Object(TEXT)), Member("a/b", Object([KIND]))]
  const SOME_OBJECT := Keywords(Some("object"), None, None, None, {}, [], None, Anything)
  const MEANT := Keywords(Some("object"), None, None, None, {}, [], None, Each(Reference(SOME_OBJECT)))

  /** Where both names are defined, the matcher can also answer wrongly: the reference
      `#/$defs/a~1b` is to the definition of `a/b`, and the matcher takes that of `a~1b`. */
  lemma EscapedReferenceMisleads(re: Regex, utf8: Utf8)
    requires Compact(utf8)
    ensures var schema, value := Object(Linked("a~1b", TWO)), Object([Member("x", String("s"))]);
            && AuditRoot(schema, re).Accepted?
            && Match(3, value, schema.members, schema.members, re) == Some(Answer(true))
            && Denotes(schema, schema.members, MEANT, utf8)
            && !Conforms(value, MEANT, re)
  {
    hide AuditRoot, Match, Denotes, Conforms;
    TwoDefinitions();
    AcceptsReference("a~1b", TWO, "string", re);
    LinkedTextMatches("a~1b", TWO, "x", "s", re);
    MeantIsDenoted(utf8);
    MeantRefuses("x", "s", re);
  }

  lemma MeantRefuses(key: string, text: string, re: Regex)
    ensures !Conforms(Object([Member(key, String(text))]), MEANT, re)
  {
    var members := [Member(key, String(text))];
    assert Member(key, String(text)) in members;
    assert !Conforms(String(text), SOME_OBJECT, re);
    assert !Conforms(String(text), Reference(SOME_OBJECT), re);
  }

  lemma TwoDefinitions()
    ensures Get(TWO, "a~1b") == Some(Object(TEXT)) && Get(TWO, "a/b") == Some(Object([KIND]))
  {
    assert TWO[1..] == [TWO[1]];
    assert TWO[0] in TWO && TWO[1] in TWO;
  }

  lemma UnescapedName()
    ensures Unescape("a~1b") == Some("a/b")
  {
    UnescapeShortens("b");
    assert "a~1b"[1..] == "~1b" && "~1b"[2..] == "b";
    assert ['/'] + "b" == "/b" && ['a'] + "/b" == "a/b";
    assert Unescape("~1b") == Some("/b");
  }

  lemma MeantDefinition(utf8: Utf8)
    requires Compact(utf8)
    ensures Refer(PREFIX + "a~1b", Object(Linked("a~1b", TWO)), utf8) == Some(Object([KIND]))
  {
    hide Refer, Resolve, PercentDecode, Unescape, Linked, Link;
    LinkedMembers("a~1b", TWO);
    LinkResolves("a~1b", TWO);
    TwoDefinitions();
    UnescapedName();
    MeantStep();
    ReferSteps("a~1b", Linked("a~1b", TWO), utf8);
    PercentShortens("a~1b", utf8);
  }

  lemma MeantStep()
    ensures Walk(Object(TWO), "/" + "a~1b") == Some(Object([KIND]))
  {
    hide Walk, Unescape;
    TwoDefinitions();
    UnescapedName();
    LastStep(Object(TWO), "a~1b");
    assert "a~1b"[..4] == "a~1b" && "a~1b"[4..] == "";
    WalkEnds(Object([KIND]));
  }

  lemma WalkEnds(value: Json)
    ensures Walk(value, "") == Some(value)
  {
  }

  lemma MeantIsDenoted(utf8: Utf8)
    requires Compact(utf8)
    ensures Denotes(Object(Linked("a~1b", TWO)), Linked("a~1b", TWO), MEANT, utf8)
  {
    hide Refer, Linked, Link, Denotes;
    var root := Linked("a~1b", TWO);
    LinkedMembers("a~1b", TWO);
    MeantDefinition(utf8);
    LinkDenotes("a~1b", root, utf8);
    LinkedDenotes(root, Reference(SOME_OBJECT), utf8);
  }

  lemma KindDenotes(root: seq<Member>, utf8: Utf8)
    ensures Denotes(Object([KIND]), root, SOME_OBJECT, utf8)
  {
    OneKeyword("type", String("object"));
    assert ReadsKeywords([KIND], SOME_OBJECT);
  }

  lemma LinkDenotes(name: string, root: seq<Member>, utf8: Utf8)
    requires Refer(PREFIX + name, Object(root), utf8) == Some(Object([KIND]))
    ensures Denotes(Object(Link(name)), root, Reference(SOME_OBJECT), utf8)
  {
    hide Refer, ReadsKeywords;
    OneKeyword("$ref", String(PREFIX + name));
    KindDenotes(root, utf8);
  }

  lemma LinkedReads(root: seq<Member>, each: Tree)
    requires Names(root) == {"$defs", "type", "additionalProperties"} && Get(root, "type") == Some(String("object"))
    requires Get(root, "additionalProperties").value.Object?
    ensures ReadsKeywords(root, Keywords(Some("object"), None, None, None, {}, [], None, Each(each)))
    ensures Children(root, "properties") == []
  {
    hide Get, Names;
    OthersAbsent(root);
  }

  lemma OthersAbsent(root: seq<Member>)
    requires Names(root) == {"$defs", "type", "additionalProperties"}
    ensures Get(root, "$ref") == Get(root, "const") == Get(root, "enum") == Get(root, "pattern") == None
    ensures Get(root, "required") == Get(root, "propertyNames") == Get(root, "properties") == None
  {
    hide Get, Names;
  }

  lemma LinkedDenotes(root: seq<Member>, each: Tree, utf8: Utf8)
    requires Names(root) == {"$defs", "type", "additionalProperties"} && Get(root, "type") == Some(String("object"))
    requires Get(root, "additionalProperties").value.Object?
    requires Denotes(Get(root, "additionalProperties").value, root, each, utf8)
    ensures Denotes(Object(root), root, Keywords(Some("object"), None, None, None, {}, [], None, Each(each)), utf8)
  {
    hide Refer, ReadsKeywords;
    LinkedReads(root, each);
  }

  /** The matcher on an object of one string, all members being linked to `name`. */
  lemma LinkedTextMatches(name: string, definitions: seq<Member>, key: string, text: string, re: Regex)
    requires '/' !in name && Get(definitions, name) == Some(Object(TEXT))
    ensures var root := Linked(name, definitions);
            Match(3, Object([Member(key, String(text))]), root, root, re) == Some(Answer(true))
  {
    hide Linked, Match;
    var root := Linked(name, definitions);
    var members := [Member(key, String(text))];
    LinkedMembers(name, definitions);
    LinkedText(name, definitions, text, re);
    assert members[1..] == [];
    assert MatchMembers(2, members, [], Some(Object(Link(name))), root, re) == Some(Answer(true));
    LinkedObjectMatches(Object(members), root, re);
  }

  lemma LinkedObjectMatches(value: Json, root: seq<Member>, re: Regex)
    requires Names(root) == {"$defs", "type", "additionalProperties"} && Get(root, "type") == Some(String("object"))
    requires value.Object?
    ensures Match(3, value, root, root, re) ==
            MatchMembers(2, value.members, [], Get(root, "additionalProperties"), root, re)
  {
    hide MatchMembers, MatchValue, Get, Names;
    OthersAbsent(root);
    LinkedValueMatches(value, root, re);
    assert MatchObject(2, value.members, root, root, re) ==
           MatchMembers(2, value.members, [], Get(root, "additionalProperties"), root, re);
  }

  lemma LinkedValueMatches(value: Json, root: seq<Member>, re: Regex)
    requires Names(root) == {"$defs", "type", "additionalProperties"} && Get(root, "type") == Some(String("object"))
    requires value.Object?
    ensures MatchValue(value, root, re).None?
  {
    hide Get, Names;
    OthersAbsent(root);
  }

  lemma LinkedText(name: string, definitions: seq<Member>, text: string, re: Regex)
    requires '/' !in name && Get(definitions, name) == Some(Object(TEXT))
    ensures Match(2, String(text), Link(name), Linked(name, definitions), re) == Some(Answer(true))
  {
    hide Resolve, Linked;
    LinkResolves(name, definitions);
    OneKeyword("$ref", String(PREFIX + name));
    OneKeyword("type", String("string"));
  }
}
