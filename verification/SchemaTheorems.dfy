/** What the audit buys: the matcher ends, never raises, and answers keyword by keyword
    as the standard does. */
module SchemaTheorems {
  import opened JsonValues
  import opened SchemaAudit
  import opened SchemaMatch
  import opened SchemaMeaning

  // ---- Fuel only decides whether a call ends, not how -----------------------

  lemma {:induction false} MatchMonotone(less: nat, more: nat, value: Json, schema: seq<Member>,
                                         root: seq<Member>, re: Regex)
    requires less <= more && Match(less, value, schema, root, re).Some?
    ensures Match(more, value, schema, root, re) == Match(less, value, schema, root, re)
    decreases less, 0
  {
    hide MatchValue, MatchObject;
    if Has(schema, "$ref") {
      var reference := Get(schema, "$ref").value;
      var target := if reference.String? then Resolve(reference.s, root) else None;
      if target.Some? && target.value.Object? {
        MatchMonotone(less - 1, more - 1, value, target.value.members, root, re);
      }
    } else if MatchValue(value, schema, re).None? {
      MatchObjectMonotone(less - 1, more - 1, value.members, schema, root, re);
    }
  }

  lemma {:induction false} MatchObjectMonotone(less: nat, more: nat, value: seq<Member>, schema: seq<Member>,
                                               root: seq<Member>, re: Regex)
    requires less <= more && MatchObject(less, value, schema, root, re).Some?
    ensures MatchObject(more, value, schema, root, re) == MatchObject(less, value, schema, root, re)
    decreases less, |value| + 3
  {
    var names := Get(schema, "propertyNames");
    if names.Some? && names.value.Object? && MatchNames(less, value, names.value.members, root, re).Some? {
      MatchNamesMonotone(less, more, value, names.value.members, root, re);
    }
    var properties, additional := Children(schema, "properties"), Get(schema, "additionalProperties");
    if MatchMembers(less, value, properties, additional, root, re).Some? {
      MatchMembersMonotone(less, more, value, properties, additional, root, re);
    }
  }

  lemma {:induction false} MatchNamesMonotone(less: nat, more: nat, value: seq<Member>, names: seq<Member>,
                                              root: seq<Member>, re: Regex)
    requires less <= more && MatchNames(less, value, names, root, re).Some?
    ensures MatchNames(more, value, names, root, re) == MatchNames(less, value, names, root, re)
    decreases less, |value| + 1
  {
    if value != [] {
      MatchMonotone(less, more, String(value[0].name), names, root, re);
      if Match(less, String(value[0].name), names, root, re) == Some(Answer(true)) {
        MatchNamesMonotone(less, more, value[1..], names, root, re);
      }
    }
  }

  lemma {:induction false} MatchMembersMonotone(less: nat, more: nat, value: seq<Member>, properties: seq<Member>,
                                                additional: Option<Json>, root: seq<Member>, re: Regex)
    requires less <= more && MatchMembers(less, value, properties, additional, root, re).Some?
    ensures MatchMembers(more, value, properties, additional, root, re) ==
            MatchMembers(less, value, properties, additional, root, re)
    decreases less, |value| + 1
  {
    if value != [] {
      var child := Get(properties, value[0].name);
      if child.None? || child.value.Null? {
        if additional.Some? && additional.value.Object? {
          MatchMonotone(less, more, value[0].value, additional.value.members, root, re);
        }
      } else if child.value.Object? {
        MatchMonotone(less, more, value[0].value, child.value.members, root, re);
      }
      if MatchMembers(less, value[1..], properties, additional, root, re).Some? {
        MatchMembersMonotone(less, more, value[1..], properties, additional, root, re);
      }
    }
  }

  // ---- Audited schemas ------------------------------------------------------

  /** The finite tree an audited schema stands for. */
  ghost function TreeOf(schema: Json, re: Regex): Tree
    requires AuditRoot(schema, re).Accepted?
  {
    ExpandTotal(schema, schema.members, true, [], None, re);
    Expand(schema, schema.members, []).value
  }

  /** On an audited schema the matcher ends for every value, never at one of its
      raises, and answers what JSON Schema says of that value and the tree that the
      schema unfolds to. When that tree is the standard's own is the subject of
      SchemaStandard. */
  lemma AuditedMatcher(schema: Json, value: Json, re: Regex)
    requires AuditRoot(schema, re).Accepted?
    ensures forall fuel: nat {:trigger Match(fuel, value, schema.members, schema.members, re)} ::
              var r := Match(fuel, value, schema.members, schema.members, re);
              && r != Some(Raises)
              && (fuel > Depth(TreeOf(schema, re)) ==> r == Some(Answer(Conforms(value, TreeOf(schema, re), re))))
  {
    hide Audit, AuditAll, Expand, ExpandAll, Match, MatchObject, Conforms, Depth;
    var root, tree := schema.members, TreeOf(schema, re);
    ExpandTotal(schema, root, true, [], None, re);
    forall fuel: nat
      ensures var r := Match(fuel, value, root, root, re);
              && r != Some(Raises)
              && (fuel > Depth(tree) ==> r == Some(Answer(Conforms(value, tree, re))))
    {
      MatchMeans(fuel + Depth(tree) + 1, value, schema, root, true, [], None, re);
      if fuel > Depth(tree) {
        MatchMeans(fuel, value, schema, root, true, [], None, re);
      } else if Match(fuel, value, root, root, re).Some? {
        MatchMonotone(fuel, fuel + Depth(tree) + 1, value, root, root, re);
      }
    }
  }

  // ---- Schemas the audit refuses --------------------------------------------

  /** Every reference of the cycle resolves to a schema that refers to the next one,
      and the last one to the first. */
  ghost predicate ReferenceCycle(cycle: seq<string>, root: seq<Member>) {
    && cycle != []
    && forall i | 0 <= i < |cycle| ::
         && Resolve(cycle[i], root).Some? && Resolve(cycle[i], root).value.Object?
         && Get(Resolve(cycle[i], root).value.members, "$ref") == Some(String(cycle[After(i, |cycle|)]))
  }

  function After(i: nat, n: nat): (j: nat)
    requires i < n
    ensures j < n
  {
    if i + 1 < n then i + 1 else 0
  }

  lemma CycleGoesOn(cycle: seq<string>, i: nat, root: seq<Member>)
    requires ReferenceCycle(cycle, root) && i < |cycle|
    ensures Resolve(cycle[i], root).Some? && Resolve(cycle[i], root).value.Object?
    ensures Get(Resolve(cycle[i], root).value.members, "$ref") == Some(String(cycle[After(i, |cycle|)]))
  {
  }

  lemma MatchFollows(fuel: nat, value: Json, schema: seq<Member>, reference: string, root: seq<Member>, re: Regex)
    requires Get(schema, "$ref") == Some(String(reference))
    requires Resolve(reference, root).Some? && Resolve(reference, root).value.Object?
    ensures Match(fuel, value, schema, root, re) ==
            if fuel == 0 then None else Match(fuel - 1, value, Resolve(reference, root).value.members, root, re)
  {
    hide Resolve, MatchValue, MatchObject;
  }

  /** Without the audit a cycle of references keeps the matcher from ending at all,
      from wherever it is entered. */
  lemma {:induction false} CycleDiverges(fuel: nat, value: Json, schema: seq<Member>, cycle: seq<string>, i: nat,
                                         root: seq<Member>, re: Regex)
    requires ReferenceCycle(cycle, root) && i < |cycle| && Get(schema, "$ref") == Some(String(cycle[i]))
    ensures Match(fuel, value, schema, root, re).None?
  {
    hide Match, Resolve, ReferenceCycle;
    CycleGoesOn(cycle, i, root);
    MatchFollows(fuel, value, schema, cycle[i], root, re);
    if fuel > 0 {
      CycleDiverges(fuel - 1, value, Resolve(cycle[i], root).value.members, cycle, After(i, |cycle|), root, re);
    }
  }

  /** A `pattern` without a type: the matcher turns down every other value, the
      standard accepts it. The audit refuses the schema. */
  lemma UntypedPatternDisagrees(value: Json, pattern: string, re: Regex)
    requires !value.String?
    ensures var ms := [Member("pattern", String(pattern))];
            var schema := Object(ms);
            && Match(1, value, ms, ms, re) == Some(Answer(false))
            && Expand(schema, ms, []).Some?
            && Conforms(value, Expand(schema, ms, []).value, re)
            && AuditRoot(schema, re).Unsupported?
  {
    var ms := [Member("pattern", String(pattern))];
    OneKeyword("pattern", String(pattern));
    assert "pattern" in KEYWORDS && "pattern" !in ROOT_KEYWORDS && "pattern" !in OBJECT_KEYWORDS;
  }

  /** A numeric or Boolean `const`: Python takes `True` for 1, the standard does
      not. The audit refuses the schema. */
  lemma NumericConstDisagrees(re: Regex)
    ensures var ms := [Member("const", Number(Whole(1)))];
            var schema := Object(ms);
            && Match(1, Bool(true), ms, ms, re) == Some(Answer(true))
            && Expand(schema, ms, []).Some?
            && !Conforms(Bool(true), Expand(schema, ms, []).value, re)
            && AuditRoot(schema, re).Unsupported?
  {
    OneKeyword("const", Number(Whole(1)));
    assert "const" in KEYWORDS && "const" !in ROOT_KEYWORDS && "const" !in OBJECT_KEYWORDS;
  }

  lemma OneKeyword(name: string, value: Json)
    ensures Names([Member(name, value)]) == {name}
    ensures Get([Member(name, value)], name) == Some(value)
    ensures forall other | other != name :: Get([Member(name, value)], other) == None
  {
    var ms := [Member(name, value)];
    assert ms[0] in ms;
  }

  // ---- Schemas the audit accepts ----------------------------------------------

  const KIND := Member("type", String("object"))
  const TEXT := [Member("type", String("string"))]

  function Link(name: string): seq<Member> {
    [Member("$ref", String(PREFIX + name))]
  }

  /** An object whose members are all of one referenced type. */
  function Linked(name: string, definitions: seq<Member>): seq<Member> {
    [Member("$defs", Object(definitions)), KIND, Member("additionalProperties", Object(Link(name)))]
  }

  lemma LinkedMembers(name: string, definitions: seq<Member>)
    ensures var ms := Linked(name, definitions);
            && Names(ms) == {"$defs", "type", "additionalProperties"}
            && Get(ms, "$defs") == Some(Object(definitions))
            && Get(ms, "type") == Some(String("object"))
            && Get(ms, "additionalProperties") == Some(Object(Link(name)))
  {
    var ms := Linked(name, definitions);
    assert ms[1..] == [KIND, ms[2]] && ms[1..][1..] == [ms[2]];
    assert ms[0] in ms && ms[1] in ms && ms[2] in ms;
  }

  /** A schema of a type and nothing else. */
  lemma TypeAccepted(kind: string, root: seq<Member>, stack: seq<string>, re: Regex)
    requires kind in {"object", "string"}
    ensures Audit(Object([Member("type", String(kind))]), root, false, stack, None, re, CyclicReference).Accepted?
  {
    OneKeyword("type", String(kind));
  }

  lemma LinkAccepted(name: string, root: seq<Member>, kind: string, re: Regex)
    requires Resolve(PREFIX + name, root) ==
            Some(Object([Member("type", String(kind))])) && kind in {"object", "string"}
    ensures Audit(Object(Link(name)), root, false, [], None, re, CyclicReference).Accepted?
  {
    OneKeyword("$ref", String(PREFIX + name));
    TypeAccepted(kind, root, [PREFIX + name], re);
  }

  /** The audit accepts references of every name without a slash: its theorems are
      about schemas with references too. */
  lemma AcceptsReference(name: string, definitions: seq<Member>, kind: string, re: Regex)
    requires '/' !in name && kind in {"object", "string"}
    requires Get(definitions, name) == Some(Object([Member("type", String(kind))]))
    requires forall i | 0 <= i < |definitions| :: definitions[i].value in {Object(TEXT), Object([KIND])}
    ensures AuditRoot(Object(Linked(name, definitions)), re).Accepted?
  {
    hide Audit, AuditAll, AuditRoot, KeywordsSupported, ValuesSupported, Linked, Link, Resolve;
    var ms := Linked(name, definitions);
    LinkedMembers(name, definitions);
    LinkResolves(name, definitions);
    LinkAccepted(name, ms, kind, re);
    LinkedSupported(name, definitions, re);
    DefinitionsAccepted(definitions, ms, re);
    AcceptedByParts(ms, re);
  }

  lemma DefinitionsAccepted(definitions: seq<Member>, root: seq<Member>, re: Regex)
    requires forall i | 0 <= i < |definitions| :: definitions[i].value in {Object(TEXT), Object([KIND])}
    ensures AuditAll(definitions, root, [], re, CyclicReference).Accepted?
  {
    hide Audit, AuditAll;
    forall m | m in definitions ensures Audit(m.value, root, false, [], None, re, CyclicReference).Accepted? {
      TypeAccepted("string", root, [], re);
      TypeAccepted("object", root, [], re);
    }
    AuditAllAccepts(definitions, root, [], re, CyclicReference);
  }

  lemma AcceptedByParts(ms: seq<Member>, re: Regex)
    requires KeywordsSupported(ms, true) && ValuesSupported(ms, None, re)
    requires Names(ms) == {"$defs", "type", "additionalProperties"}
    requires Get(ms, "$defs").value.Object? && Get(ms, "additionalProperties").value.Object?
    requires AuditAll(Get(ms, "$defs").value.members, ms, [], re, CyclicReference).Accepted?
    requires Audit(Get(ms, "additionalProperties").value, ms, false, [], None, re, CyclicReference).Accepted?
    ensures AuditRoot(Object(ms), re).Accepted?
  {
    hide AuditAll, KeywordsSupported, ValuesSupported;
  }

  lemma LinkedSupported(name: string, definitions: seq<Member>, re: Regex)
    ensures KeywordsSupported(Linked(name, definitions), true)
    ensures ValuesSupported(Linked(name, definitions), None, re)
  {
    LinkedMembers(name, definitions);
  }

  lemma LinkResolves(name: string, definitions: seq<Member>)
    requires '/' !in name
    ensures Resolve(PREFIX + name, Linked(name, definitions)) == Get(definitions, name)
  {
    hide Get, Names, Linked;
    LinkedMembers(name, definitions);
    assert (PREFIX + name)[|PREFIX|..] == name;
  }
}
