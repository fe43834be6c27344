/** The audit makes the matcher total, and makes it compute the standard meaning. */
module SchemaMeaning {
  import opened JsonValues
  import opened SchemaAudit
  import opened SchemaMatch

  // ---- Depth of a tree: how much fuel the matcher needs on it ---------------

  ghost function Max(a: nat, b: nat): nat {
    if a < b then b else a
  }

  ghost function Depth(tree: Tree): nat {
    match tree
    case Reference(target) => 1 + Depth(target)
    case Keywords(_, _, _, _, _, properties, names, additional) =>
      1 + Max(DepthAll(properties),
              Max(match names case None => 0 case Some(t) => Depth(t),
                  match additional case Each(t) => Depth(t) case _ => 0))
  }

  ghost function DepthAll(ps: seq<Property>): nat {
    if ps == [] then 0 else Max(Depth(ps[0].tree), DepthAll(ps[1..]))
  }

  lemma {:induction false} LookupDepth(ps: seq<Property>, name: string)
    ensures Lookup(ps, name).Some? ==> Depth(Lookup(ps, name).value) <= DepthAll(ps)
  {
    if ps != [] {
      LookupDepth(ps[1..], name);
    }
  }

  // ---- Every audited schema is a finite tree --------------------------------

  lemma {:induction false} ExpandTotal(schema: Json, root: seq<Member>, isRoot: bool, stack: seq<string>,
                                       inherited: Option<string>, re: Regex)
    requires Audit(schema, root, isRoot, stack, inherited, re, CyclicReference).Accepted?
    ensures Expand(schema, root, stack).Some?
    decreases Unvisited(root, stack), schema, 2
  {
    if Has(schema.members, "$ref") {
      var reference := Get(schema.members, "$ref").value.s;
      PushShrinks(root, stack, reference);
      ExpandTotal(Resolve(reference, root).value, root, false, stack + [reference], inherited, re);
    } else {
      ExpandKeywordsTotal(schema, root, isRoot, stack, inherited, re);
    }
  }

  lemma {:induction false} ExpandKeywordsTotal(schema: Json, root: seq<Member>, isRoot: bool, stack: seq<string>,
                                               inherited: Option<string>, re: Regex)
    requires Audit(schema, root, isRoot, stack, inherited, re, CyclicReference).Accepted?
    requires !Has(schema.members, "$ref")
    ensures Expand(schema, root, stack).Some?
    decreases Unvisited(root, stack), schema, 0
  {
    var ms := schema.members;
    if Has(ms, "properties") {
      ExpandAllTotal(Get(ms, "properties").value.members, root, stack, re);
    }
    if Has(ms, "propertyNames") {
      ExpandTotal(Get(ms, "propertyNames").value, root, false, stack, Some("string"), re);
    }
    if Has(ms, "additionalProperties") && Get(ms, "additionalProperties").value.Object? {
      ExpandTotal(Get(ms, "additionalProperties").value, root, false, stack, None, re);
    }
  }

  lemma {:induction false} ExpandAllTotal(ms: seq<Member>, root: seq<Member>, stack: seq<string>, re: Regex)
    requires AuditAll(ms, root, stack, re, CyclicReference).Accepted?
    ensures ExpandAll(ms, root, stack).Some?
    decreases Unvisited(root, stack), ms, 3
  {
    if ms != [] {
      ExpandTotal(ms[0].value, root, false, stack, None, re);
      ExpandAllTotal(ms[1..], root, stack, re);
    }
  }

  lemma {:induction false} ExpandAllLookup(ms: seq<Member>, root: seq<Member>, stack: seq<string>, name: string)
    requires ExpandAll(ms, root, stack).Some?
    ensures var ps := ExpandAll(ms, root, stack).value;
            match Get(ms, name)
            case None => Lookup(ps, name).None?
            case Some(child) => Lookup(ps, name).Some? && Lookup(ps, name) == Expand(child, root, stack)
  {
    if ms != [] {
      ExpandAllLookup(ms[1..], root, stack, name);
    }
  }

  // ---- The loops of the matcher ---------------------------------------------

  lemma {:induction false} NamesMean(fuel: nat, value: seq<Member>, names: seq<Member>, root: seq<Member>,
                                     tree: Tree, re: Regex)
    requires forall m | m in value ::
               Match(fuel, String(m.name), names, root, re) == Some(Answer(Conforms(String(m.name), tree, re)))
    ensures MatchNames(fuel, value, names, root, re)
         == Some(Answer(forall m | m in value :: Conforms(String(m.name), tree, re)))
  {
    if value != [] {
      assert value[0] in value;
      assert forall m | m in value :: m == value[0] || m in value[1..];
      NamesMean(fuel, value[1..], names, root, tree, re);
    }
  }

  /** One member of an object against the properties and the rest of a schema. */
  ghost predicate MemberConforms(m: Member, properties: seq<Property>, additional: Additional, re: Regex) {
    match Lookup(properties, m.name)
    case Some(property) => Conforms(m.value, property, re)
    case None =>
      match additional
      case Anything => true
      case Nothing => false
      case Each(rest) => Conforms(m.value, rest, re)
  }

  /** The matcher and the meaning agree on the property schema of a member, if it has one. */
  ghost predicate PropertyAgrees(fuel: nat, m: Member, properties: seq<Member>, ps: seq<Property>,
                                 root: seq<Member>, re: Regex) {
    match Get(properties, m.name)
    case None => Lookup(ps, m.name).None?
    case Some(child) =>
      && child.Object?
      && Lookup(ps, m.name).Some?
      && Match(fuel, m.value, child.members, root, re) == Some(Answer(Conforms(m.value, Lookup(ps, m.name).value, re)))
  }

  lemma {:induction false} MembersMean(fuel: nat, value: seq<Member>, properties: seq<Member>, ps: seq<Property>,
                                       additional: Option<Json>, rest: Additional, root: seq<Member>, re: Regex)
    requires match additional
             case None => rest == Anything
             case Some(Bool(b)) => rest == if b then Anything else Nothing
             case Some(j) => rest.Each? && j.Object?
    requires forall m | m in value ::
               PropertyAgrees(fuel, m, properties, ps, root, re)
    requires forall m | m in value ::
               rest.Each? ==>
                   Match(fuel, m.value, additional.value.members, root, re) ==
                       Some(Answer(Conforms(m.value, rest.tree, re)))
    ensures MatchMembers(fuel, value, properties, additional, root, re)
         == Some(Answer(forall m | m in value :: MemberConforms(m, ps, rest, re)))
  {
    if value != [] {
      assert value[0] in value;
      assert forall m | m in value :: m == value[0] || m in value[1..];
      MembersMean(fuel, value[1..], properties, ps, additional, rest, root, re);
    }
  }

  // ---- The matcher means what the schema means ------------------------------

  lemma StringEquality(value: Json, s: string, boolIsInt: bool)
    ensures Equal(value, String(s), boolIsInt) <==> value == String(s)
  {
  }

  /** On strings Python's membership test and the standard's `enum` agree. */
  lemma ChoicesAgree(value: Json, items: seq<Json>)
    requires AllStrings(items)
    ensures (exists e | e in items :: Equal(value, e, true)) <==> (exists e | e in items :: Equal(value, e, false))
  {
    forall e | e in items ensures Equal(value, e, true) <==> Equal(value, e, false) {
      StringEquality(value, e.s, true);
      StringEquality(value, e.s, false);
    }
  }

  /** The meaning of the object keywords of a schema for an object value. */
  ghost predicate ObjectConforms(value: seq<Member>, tree: Tree, re: Regex)
    requires tree.Keywords?
  {
    && (forall name | name in tree.required :: Has(value, name))
    && (tree.names.Some? ==> forall m | m in value :: Conforms(String(m.name), tree.names.value, re))
    && (forall m | m in value :: MemberConforms(m, tree.properties, tree.additional, re))
  }

  /** The keywords a tree takes over from its schema as they are. */
  ghost predicate Reads(ms: seq<Member>, tree: Tree) {
    && tree.Keywords?
    && tree.kind == KindOf(ms)
    && tree.constant == Get(ms, "const")
    && tree.choices == ChoicesOf(ms)
    && tree.pattern == PatternOf(ms)
    && tree.required == RequiredOf(ms)
  }

  /** A schema without `type: object` asserts nothing of a member. */
  ghost predicate ObjectKeywordsNeedObject(ms: seq<Member>, tree: Tree)
    requires tree.Keywords?
  {
    Get(ms, "type") != Some(String("object")) ==>
      tree.required == {} && tree.properties == [] && tree.names.None? && tree.additional.Anything?
  }

  lemma UntypedObject(schema: Json, root: seq<Member>, isRoot: bool, stack: seq<string>,
                      inherited: Option<string>, re: Regex)
    requires Audit(schema, root, isRoot, stack, inherited, re, CyclicReference).Accepted?
    requires !Has(schema.members, "$ref")
    requires Expand(schema, root, stack).Some?
    ensures schema.Object? && ValuesSupported(schema.members, inherited, re)
    ensures Reads(schema.members, Expand(schema, root, stack).value)
    ensures ObjectKeywordsNeedObject(schema.members, Expand(schema, root, stack).value)
  {
    assert "required" in OBJECT_KEYWORDS && "properties" in OBJECT_KEYWORDS
        && "propertyNames" in OBJECT_KEYWORDS && "additionalProperties" in OBJECT_KEYWORDS;
  }

  /** The meaning of the keywords that apply to values of any type. */
  ghost predicate ValueConforms(value: Json, tree: Tree, re: Regex)
    requires tree.Keywords?
  {
    && (tree.kind.Some? ==> HasType(value, tree.kind.value))
    && (tree.constant.Some? ==> Equal(value, tree.constant.value, false))
    && (tree.choices.Some? ==> exists choice | choice in tree.choices.value :: Equal(value, choice, false))
    && (tree.pattern.Some? && value.String? ==> re.Search(tree.pattern.value, value.s))
  }

  lemma ConformsSplits(value: Json, tree: Tree, re: Regex)
    requires tree.Keywords?
    ensures Conforms(value, tree, re) <==>
              ValueConforms(value, tree, re) && (value.Object? ==> ObjectConforms(value.members, tree, re))
  {
    if value.Object? {
      assert forall m | m in value.members ::
          MemberConforms(m, tree.properties, tree.additional, re) <==>
            match Lookup(tree.properties, m.name)
            case Some(property) => Conforms(m.value, property, re)
            case None =>
              match tree.additional
              case Anything => true
              case Nothing => false
              case Each(rest) => Conforms(m.value, rest, re);
    }
  }

  /** The early returns of the matcher come to the keywords for any value. */
  lemma MatchValueMeans(value: Json, ms: seq<Member>, tree: Tree, inherited: Option<string>, re: Regex)
    requires ValuesSupported(ms, inherited, re) && Reads(ms, tree)
    requires inherited == Some("string") ==> value.String?
    ensures MatchValue(value, ms, re) ==
              if !ValueConforms(value, tree, re) then Some(Answer(false))
              else if Get(ms, "type") == Some(String("object")) then None
              else Some(Answer(true))
  {
    hide Equal, Get, Names, RequiredOf;
    if Has(ms, "enum") {
      ChoicesAgree(value, Get(ms, "enum").value.items);
    }
    if Has(ms, "const") {
      StringEquality(value, Get(ms, "const").value.s, true);
      StringEquality(value, Get(ms, "const").value.s, false);
    }
  }

  /** One reference: audit, expansion and matcher all go on at its target. */
  lemma ReferenceStep(fuel: nat, value: Json, schema: Json, root: seq<Member>, isRoot: bool, stack: seq<string>,
                      inherited: Option<string>, re: Regex) returns (reference: string, target: Json)
    requires Audit(schema, root, isRoot, stack, inherited, re, CyclicReference).Accepted?
    requires Has(schema.members, "$ref")
    ensures Unvisited(root, stack + [reference]) < Unvisited(root, stack)
    ensures Audit(target, root, false, stack + [reference], inherited, re, CyclicReference).Accepted?
    ensures var tree := Expand(target, root, stack + [reference]);
            Expand(schema, root, stack) == if tree.None? then None else Some(Reference(tree.value))
    ensures Match(fuel + 1, value, schema.members, root, re) == Match(fuel, value, target.members, root, re)
  {
    reference := Get(schema.members, "$ref").value.s;
    target := Resolve(reference, root).value;
    PushShrinks(root, stack, reference);
  }

  lemma {:induction false} MatchMeans(fuel: nat, value: Json, schema: Json, root: seq<Member>, isRoot: bool,
                                      stack: seq<string>, inherited: Option<string>, re: Regex)
    requires Audit(schema, root, isRoot, stack, inherited, re, CyclicReference).Accepted?
    requires inherited == Some("string") ==> value.String?
    requires Expand(schema, root, stack).Some?
    requires fuel > Depth(Expand(schema, root, stack).value)
    ensures Match(fuel, value, schema.members, root, re)
         == Some(Answer(Conforms(value, Expand(schema, root, stack).value, re)))
    decreases Unvisited(root, stack), schema, 4
  {
    if Has(schema.members, "$ref") {
      ReferenceMeans(fuel, value, schema, root, isRoot, stack, inherited, re);
    } else {
      KeywordsMean(fuel, value, schema, root, isRoot, stack, inherited, re);
    }
  }

  lemma {:induction false} ReferenceMeans(fuel: nat, value: Json, schema: Json, root: seq<Member>, isRoot: bool,
                                          stack: seq<string>, inherited: Option<string>, re: Regex)
    requires Audit(schema, root, isRoot, stack, inherited, re, CyclicReference).Accepted?
    requires inherited == Some("string") ==> value.String?
    requires Has(schema.members, "$ref")
    requires Expand(schema, root, stack).Some?
    requires fuel > Depth(Expand(schema, root, stack).value)
    ensures Match(fuel, value, schema.members, root, re)
         == Some(Answer(Conforms(value, Expand(schema, root, stack).value, re)))
    decreases Unvisited(root, stack), schema, 3
  {
    hide Audit, AuditAll, Expand, ExpandAll, Match, MatchObject;
    var reference, target := ReferenceStep(fuel - 1, value, schema, root, isRoot, stack, inherited, re);
    MatchMeans(fuel - 1, value, target, root, false, stack + [reference], inherited, re);
  }

  lemma {:induction false} KeywordsMean(fuel: nat, value: Json, schema: Json, root: seq<Member>, isRoot: bool,
                                        stack: seq<string>, inherited: Option<string>, re: Regex)
    requires Audit(schema, root, isRoot, stack, inherited, re, CyclicReference).Accepted?
    requires inherited == Some("string") ==> value.String?
    requires !Has(schema.members, "$ref")
    requires Expand(schema, root, stack).Some?
    requires fuel > Depth(Expand(schema, root, stack).value)
    ensures Match(fuel, value, schema.members, root, re)
         == Some(Answer(Conforms(value, Expand(schema, root, stack).value, re)))
    decreases Unvisited(root, stack), schema, 3
  {
    hide Audit, AuditAll, Expand, ExpandAll, MatchValue, MatchObject, Conforms, ValueConforms, ObjectConforms;
    UntypedObject(schema, root, isRoot, stack, inherited, re);
    var tree := Expand(schema, root, stack).value;
    MatchValueMeans(value, schema.members, tree, inherited, re);
    ConformsSplits(value, tree, re);
    if value.Object? {
      MatchObjectMeans(fuel - 1, value.members, schema, root, isRoot, stack, inherited, re);
      AnyObject(value.members, schema.members, tree, re);
    }
  }

  lemma AnyObject(value: seq<Member>, ms: seq<Member>, tree: Tree, re: Regex)
    requires tree.Keywords? && ObjectKeywordsNeedObject(ms, tree)
    ensures Get(ms, "type") != Some(String("object")) ==> ObjectConforms(value, tree, re)
  {
  }

  lemma {:induction false} MatchObjectMeans(fuel: nat, value: seq<Member>, schema: Json,
                                            root: seq<Member>, isRoot: bool,
                                            stack: seq<string>, inherited: Option<string>, re: Regex)
    requires Audit(schema, root, isRoot, stack, inherited, re, CyclicReference).Accepted?
    requires !Has(schema.members, "$ref")
    requires Expand(schema, root, stack).Some?
    requires fuel >= Depth(Expand(schema, root, stack).value)
    ensures MatchObject(fuel, value, schema.members, root, re)
         == Some(Answer(ObjectConforms(value, Expand(schema, root, stack).value, re)))
    decreases Unvisited(root, stack), schema, 2
  {
    var ms := schema.members;
    var tree := Expand(schema, root, stack).value;
    NamesPartMeans(fuel, value, schema, root, isRoot, stack, inherited, re);
    MembersPartMeans(fuel, value, schema, root, isRoot, stack, inherited, re);
    if Has(ms, "required") {
      RequiredMeans(value, ms, inherited, re);
    }
  }

  lemma {:induction false} NamesPartMeans(fuel: nat, value: seq<Member>, schema: Json, root: seq<Member>, isRoot: bool,
                                          stack: seq<string>, inherited: Option<string>, re: Regex)
    requires Audit(schema, root, isRoot, stack, inherited, re, CyclicReference).Accepted?
    requires !Has(schema.members, "$ref")
    requires Expand(schema, root, stack).Some?
    requires fuel >= Depth(Expand(schema, root, stack).value)
    ensures var names := Expand(schema, root, stack).value.names;
            MatchPropertyNames(fuel, value, Get(schema.members, "propertyNames"), root, re)
            == Some(Answer(names.Some? ==> forall m | m in value :: Conforms(String(m.name), names.value, re)))
    decreases Unvisited(root, stack), schema, 1
  {
    if Has(schema.members, "propertyNames") {
      var names := Get(schema.members, "propertyNames").value;
      var tree := Expand(names, root, stack).value;
      forall m | m in value
        ensures Match(fuel, String(m.name), names.members, root, re) == Some(Answer(Conforms(String(m.name), tree, re)))
      {
        MatchMeans(fuel, String(m.name), names, root, false, stack, Some("string"), re);
      }
      NamesMean(fuel, value, names.members, root, tree, re);
    }
  }

  lemma {:induction false} MembersPartMeans(fuel: nat, value: seq<Member>, schema: Json,
                                            root: seq<Member>, isRoot: bool,
                                            stack: seq<string>, inherited: Option<string>, re: Regex)
    requires Audit(schema, root, isRoot, stack, inherited, re, CyclicReference).Accepted?
    requires !Has(schema.members, "$ref")
    requires Expand(schema, root, stack).Some?
    requires fuel >= Depth(Expand(schema, root, stack).value)
    ensures var tree := Expand(schema, root, stack).value;
            MatchMembers(fuel, value, Children(schema.members, "properties"),
                         Get(schema.members, "additionalProperties"), root, re)
            == Some(Answer(forall m | m in value :: MemberConforms(m, tree.properties, tree.additional, re)))
    decreases Unvisited(root, stack), schema, 1
  {
    var tree := Expand(schema, root, stack).value;
    var additional := Get(schema.members, "additionalProperties");
    forall m | m in value
      ensures PropertyAgrees(fuel, m, Children(schema.members, "properties"), tree.properties, root, re)
    {
      PropertyMeans(fuel, m, schema, root, isRoot, stack, inherited, re);
    }
    if tree.additional.Each? {
      forall m | m in value
        ensures Match(fuel, m.value, additional.value.members, root, re)
             == Some(Answer(Conforms(m.value, tree.additional.tree, re)))
      {
        MatchMeans(fuel, m.value, additional.value, root, false, stack, None, re);
      }
    }
    MembersMean(fuel, value, Children(schema.members, "properties"), tree.properties,
                additional, tree.additional, root, re);
  }

  lemma {:induction false} PropertyMeans(fuel: nat, m: Member, schema: Json, root: seq<Member>, isRoot: bool,
                                         stack: seq<string>, inherited: Option<string>, re: Regex)
    requires Audit(schema, root, isRoot, stack, inherited, re, CyclicReference).Accepted?
    requires !Has(schema.members, "$ref")
    requires Expand(schema, root, stack).Some?
    requires fuel >= Depth(Expand(schema, root, stack).value)
    ensures PropertyAgrees(fuel, m, Children(schema.members, "properties"),
                           Expand(schema, root, stack).value.properties, root, re)
    decreases Unvisited(root, stack), schema, 0
  {
    if Has(schema.members, "properties") {
      var children := Get(schema.members, "properties").value.members;
      ExpandAllLookup(children, root, stack, m.name);
      LookupDepth(Expand(schema, root, stack).value.properties, m.name);
      AuditAllAccepts(children, root, stack, re, CyclicReference);
      match Get(children, m.name)
      case None =>
      case Some(child) =>
        MatchMeans(fuel, m.value, child, root, false, stack, None, re);
    }
  }

  lemma RequiredMeans(value: seq<Member>, ms: seq<Member>, inherited: Option<string>, re: Regex)
    requires ValuesSupported(ms, inherited, re) && Has(ms, "required")
    ensures (forall item: Json | item in Get(ms, "required").value.items :: Has(value, item.s))
       <==> (forall name | name in RequiredOf(ms) :: Has(value, name))
  {
    var items := Get(ms, "required").value.items;
    forall item: Json | item in items ensures item.s in RequiredOf(ms) {
    }
  }
}
