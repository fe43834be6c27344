/** What the audit accepts: the schemas in which every keyword, wherever it is met, is of
    the supported form, and whose references do not cycle. */
module SchemaAccepts {
  import opened JsonValues
  import opened SchemaAudit
  import opened SchemaCycles

  // ---- Positions ---------------------------------------------------------------------

  /** One step from a schema to another: to a subschema, or to the target of a reference. */
  datatype Step = Property(k: nat) | MemberNames | Others | Definition(k: nat) | Target

  /** A schema where it is met; `named` says that only member names are compared with it. */
  datatype Position = Position(schema: Json, named: bool)

  function Among(children: Option<Json>, k: nat): Option<Position> {
    match children
    case Some(Object(ms)) => if k < |ms| then Some(Position(ms[k].value, false)) else None
    case _ => None
  }

  function Onward(p: Position, step: Step, root: seq<Member>): Option<Position> {
    if !p.schema.Object? then None
    else
      var ms := p.schema.members;
      match step
      case Property(k) => Among(Get(ms, "properties"), k)
      case Definition(k) => Among(Get(ms, "$defs"), k)
      case MemberNames =>
        var names := Get(ms, "propertyNames");
        if names.Some? then Some(Position(names.value, true)) else None
      case Others =>
        var others := Get(ms, "additionalProperties");
        if others.Some? && others.value.Object? then Some(Position(others.value, false)) else None
      case Target =>
        match Get(ms, "$ref")
        case Some(String(reference)) =>
          var target := Resolve(reference, root);
          if target.Some? then Some(Position(target.value, p.named)) else None
        case _ => None
  }

  function At(p: Position, path: seq<Step>, root: seq<Member>): Option<Position>
    decreases |path|
  {
    if path == [] then Some(p)
    else
      var next := Onward(p, path[0], root);
      if next.None? then None else At(next.value, path[1..], root)
  }

  // ---- One keyword -------------------------------------------------------------------

  predicate Strings(value: Json) {
    && value.Array?
    && (forall item | item in value.items :: item.String?)
    && (forall i, j | 0 <= i < j < |value.items| :: value.items[i] != value.items[j])
  }

  predicate OfObjects(ms: seq<Member>) {
    Get(ms, "type") == Some(String("object"))
  }

  /** Only strings reach a `pattern` here. */
  predicate OfStrings(ms: seq<Member>, named: bool) {
    match Get(ms, "type") case Some(kind) => kind == String("string") case None => named
  }

  /** The supported form of each keyword, in a schema of members `ms`. */
  ghost predicate Supported(name: string, value: Json, ms: seq<Member>, isRoot: bool, named: bool,
                            root: seq<Member>, re: Regex)
  {
    || (name == "$schema" && isRoot && value == String("https://json-schema.org/draft/2020-12/schema"))
    || (name == "$id" && isRoot && value.String?)
    || (name == "$defs" && isRoot && value.Object?)
    || (name == "$ref" && Names(ms) == {"$ref"} && value.String? && Resolve(value.s, root).Some?)
    || (name == "title" && value.String?)
    || (name == "type" && (value == String("object") || value == String("string")))
    || (name == "const" && value.String?)
    || (name == "enum" && Strings(value) && value.items != [])
    || (name == "pattern" && value.String? && re.Compiles(value.s) && OfStrings(ms, named))
    || (name == "required" && OfObjects(ms) && Strings(value))
    || (name == "properties" && OfObjects(ms) && value.Object?)
    || (name == "propertyNames" && OfObjects(ms))
    || (name == "additionalProperties" && OfObjects(ms) && (value.Bool? || value.Object?))
  }

  ghost predicate Sound(p: Position, isRoot: bool, root: seq<Member>, re: Regex) {
    && p.schema.Object?
    && forall name | name in Names(p.schema.members) ::
         Supported(name, Get(p.schema.members, name).value, p.schema.members, isRoot, p.named, root, re)
  }

  ghost predicate SoundAt(p: Position, path: seq<Step>, isRoot: bool, root: seq<Member>, re: Regex) {
    At(p, path, root).Some? ==> Sound(At(p, path, root).value, isRoot && path == [], root, re)
  }

  /** So is every schema met from here. */
  ghost predicate SoundThroughout(p: Position, isRoot: bool, root: seq<Member>, re: Regex) {
    forall path :: SoundAt(p, path, isRoot, root, re)
  }

  // ---- The checks on one schema --------------------------------------------------------

  function Inherited(named: bool): Option<string> {
    if named then Some("string") else None
  }

  /** The audit's own checks on one schema, its subschemas aside. */
  predicate Passes(ms: seq<Member>, isRoot: bool, named: bool, root: seq<Member>, re: Regex) {
    && KeywordsSupported(ms, isRoot)
    && if Has(ms, "$ref") then
         && Names(ms) == {"$ref"} && Get(ms, "$ref").value.String?
         && Resolve(Get(ms, "$ref").value.s, root).Some?
       else ValuesSupported(ms, Inherited(named), re)
  }

  lemma PassesEach(ms: seq<Member>, isRoot: bool, named: bool, root: seq<Member>, re: Regex, name: string)
    requires Passes(ms, isRoot, named, root, re) && Has(ms, name)
    ensures Supported(name, Get(ms, name).value, ms, isRoot, named, root, re)
  {
    hide Get, Names, Resolve;
  }

  lemma KeywordsPass(ms: seq<Member>, isRoot: bool, named: bool, root: seq<Member>, re: Regex)
    requires Sound(Position(Object(ms), named), isRoot, root, re)
    ensures KeywordsSupported(ms, isRoot)
    ensures Has(ms, "$ref") ==>
              && Names(ms) == {"$ref"} && Get(ms, "$ref").value.String?
              && Resolve(Get(ms, "$ref").value.s, root).Some?
  {
    hide Get, Names, Resolve, Strings, OfStrings, OfObjects;
  }

  lemma TypesPass(ms: seq<Member>, isRoot: bool, named: bool, root: seq<Member>, re: Regex)
    requires Sound(Position(Object(ms), named), isRoot, root, re)
    ensures Has(ms, "type") ==>
              Get(ms, "type").value == String("object") || Get(ms, "type").value == String("string")
    ensures Has(ms, "pattern") ==>
              && Get(ms, "pattern").value.String? && re.Compiles(Get(ms, "pattern").value.s) && OfStrings(ms, named)
    ensures Has(ms, "const") ==> Get(ms, "const").value.String?
    ensures Has(ms, "$defs") ==> Get(ms, "$defs").value.Object?
  {
    hide Get, Names, Resolve, OfStrings, OfObjects, Strings;
  }

  lemma ListsPass(ms: seq<Member>, isRoot: bool, named: bool, root: seq<Member>, re: Regex)
    requires Sound(Position(Object(ms), named), isRoot, root, re)
    ensures Has(ms, "enum") ==> Strings(Get(ms, "enum").value) && Get(ms, "enum").value.items != []
    ensures Has(ms, "required") ==> OfObjects(ms) && Strings(Get(ms, "required").value)
  {
    hide Get, Names, Resolve, OfStrings, OfObjects, Strings;
  }

  lemma ObjectsPass(ms: seq<Member>, isRoot: bool, named: bool, root: seq<Member>, re: Regex)
    requires Sound(Position(Object(ms), named), isRoot, root, re)
    ensures Has(ms, "properties") ==> OfObjects(ms) && Get(ms, "properties").value.Object?
    ensures Has(ms, "propertyNames") ==> OfObjects(ms)
    ensures Has(ms, "additionalProperties") ==>
              && OfObjects(ms)
              && (Get(ms, "additionalProperties").value.Bool? || Get(ms, "additionalProperties").value.Object?)
  {
    hide Get, Names, Resolve, OfStrings, OfObjects, Strings;
  }

  lemma ValuesPass(ms: seq<Member>, isRoot: bool, named: bool, root: seq<Member>, re: Regex)
    requires Sound(Position(Object(ms), named), isRoot, root, re)
    ensures ValuesSupported(ms, Inherited(named), re)
  {
    hide Get, Names, Sound;
    TypesPass(ms, isRoot, named, root, re);
    ListsPass(ms, isRoot, named, root, re);
    ObjectsPass(ms, isRoot, named, root, re);
  }

  lemma EachPasses(ms: seq<Member>, isRoot: bool, named: bool, root: seq<Member>, re: Regex)
    requires Sound(Position(Object(ms), named), isRoot, root, re)
    ensures Passes(ms, isRoot, named, root, re)
  {
    hide Sound, KeywordsSupported, ValuesSupported;
    KeywordsPass(ms, isRoot, named, root, re);
    ValuesPass(ms, isRoot, named, root, re);
  }

  // ---- The audit ---------------------------------------------------------------------

  ghost predicate Accepts(p: Position, isRoot: bool, stack: seq<string>, root: seq<Member>, re: Regex) {
    Audit(p.schema, root, isRoot, stack, Inherited(p.named), re, CyclicReference).Accepted?
  }

  /** An accepted schema passes, and what comes next is accepted too, further down the
      path if it is the target of a reference. */
  lemma AcceptsOnward(p: Position, step: Step, isRoot: bool, stack: seq<string>, root: seq<Member>, re: Regex)
    returns (longer: seq<string>)
    requires Accepts(p, isRoot, stack, root, re) && Onward(p, step, root).Some?
    ensures Accepts(Onward(p, step, root).value, false, longer, root, re)
  {
    hide KeywordsSupported, ValuesSupported, Resolve;
    var ms := p.schema.members;
    longer := stack;
    match step
    case Property(_) =>
      AuditAllAccepts(Get(ms, "properties").value.members, root, stack, re, CyclicReference);
    case Definition(_) =>
      AuditAllAccepts(Get(ms, "$defs").value.members, root, stack, re, CyclicReference);
    case Target =>
      longer := stack + [Get(ms, "$ref").value.s];
    case _ =>
  }

  lemma AcceptedPasses(p: Position, isRoot: bool, stack: seq<string>, root: seq<Member>, re: Regex)
    requires Accepts(p, isRoot, stack, root, re)
    ensures p.schema.Object? && Passes(p.schema.members, isRoot, p.named, root, re)
  {
    hide KeywordsSupported, ValuesSupported, Resolve, AuditAll;
  }

  lemma {:induction false} AcceptedIsSound(p: Position, path: seq<Step>, isRoot: bool, stack: seq<string>,
                                           root: seq<Member>, re: Regex)
    requires Accepts(p, isRoot, stack, root, re)
    ensures SoundAt(p, path, isRoot, root, re)
    decreases |path|
  {
    hide Accepts, Passes, Onward, Supported;
    if path == [] {
      AcceptedPasses(p, isRoot, stack, root, re);
      forall name | name in Names(p.schema.members)
        ensures Supported(name, Get(p.schema.members, name).value, p.schema.members, isRoot, p.named, root, re)
      {
        PassesEach(p.schema.members, isRoot, p.named, root, re, name);
      }
    } else if Onward(p, path[0], root).Some? {
      var longer := AcceptsOnward(p, path[0], isRoot, stack, root, re);
      AcceptedIsSound(Onward(p, path[0], root).value, path[1..], false, longer, root, re);
    }
  }

  // ---- Sound schemas are accepted --------------------------------------------------------

  lemma SoundOnward(p: Position, step: Step, isRoot: bool, root: seq<Member>, re: Regex)
    requires SoundThroughout(p, isRoot, root, re) && Onward(p, step, root).Some?
    ensures SoundThroughout(Onward(p, step, root).value, false, root, re)
  {
    hide Onward, Sound;
    var next := Onward(p, step, root).value;
    forall path ensures SoundAt(next, path, false, root, re) {
      var longer := [step] + path;
      assert longer[1..] == path;
      assert SoundAt(p, longer, isRoot, root, re);
    }
  }

  lemma SoundHere(p: Position, isRoot: bool, root: seq<Member>, re: Regex)
    requires SoundThroughout(p, isRoot, root, re)
    ensures p.schema.Object? && Passes(p.schema.members, isRoot, p.named, root, re)
  {
    hide Passes, Supported;
    assert SoundAt(p, [], isRoot, root, re);
    EachPasses(p.schema.members, isRoot, p.named, root, re);
  }


  lemma {:induction false} RefersAmong(ms: seq<Member>, k: nat)
    requires k < |ms|
    ensures Refers(ms[k].value) <= RefersAll(ms)
  {
    if k > 0 {
      RefersAmong(ms[1..], k - 1);
    }
  }

  /** One reference: the audit goes on at its target. */
  lemma TargetAccepted(p: Position, isRoot: bool, stack: seq<string>, root: seq<Member>, re: Regex)
    returns (reference: string)
    requires p.schema.Object? && Passes(p.schema.members, isRoot, p.named, root, re) && Has(p.schema.members, "$ref")
    ensures Get(p.schema.members, "$ref") == Some(String(reference)) && Resolve(reference, root).Some?
    ensures Onward(p, Target, root) == Some(Position(Resolve(reference, root).value, p.named))
    ensures reference !in stack ==>
              var target := Position(Resolve(reference, root).value, p.named);
              Accepts(target, false, stack + [reference], root, re) ==> Accepts(p, isRoot, stack, root, re)
  {
    hide ValuesSupported, KeywordsSupported, Resolve, AuditAll;
    reference := Get(p.schema.members, "$ref").value.s;
  }

  lemma {:induction false} SoundIsAccepted(p: Position, isRoot: bool, stack: seq<string>, root: seq<Member>, re: Regex)
    requires SoundThroughout(p, isRoot, root, re) && !HasCycle(root)
    requires OnPath(p.schema, root, stack) && (isRoot ==> stack == [])
    ensures Accepts(p, isRoot, stack, root, re)
    decreases Unvisited(root, stack), p.schema, 2
  {
    hide SoundThroughout, HasCycle, Accepts, Passes, Onward, OnPath, Resolve;
    SoundHere(p, isRoot, root, re);
    if Has(p.schema.members, "$ref") {
      var reference := TargetAccepted(p, isRoot, stack, root, re);
      NotOnPath(p.schema, reference, root, stack);
      PushShrinks(root, stack, reference);
      SoundOnward(p, Target, isRoot, root, re);
      SoundIsAccepted(Onward(p, Target, root).value, false, stack + [reference], root, re);
    } else {
      SoundBelow(p, isRoot, stack, root, re);
    }
  }

  /** Without a cycle a reference is new to the path, and goes on with it. */
  lemma NotOnPath(schema: Json, reference: string, root: seq<Member>, stack: seq<string>)
    requires OnPath(schema, root, stack) && !HasCycle(root)
    requires schema.Object? && Get(schema.members, "$ref") == Some(String(reference))
    requires Resolve(reference, root).Some?
    ensures reference !in stack
    ensures OnPath(Resolve(reference, root).value, root, stack + [reference])
  {
    hide HasCycle, Resolve;
    assert reference in Refers(schema);
    if reference in stack {
      CloseCycle(root, stack, reference);
    }
    ExtendPath(root, stack, reference);
  }

  lemma {:induction false} SoundBelow(p: Position, isRoot: bool, stack: seq<string>, root: seq<Member>, re: Regex)
    requires SoundThroughout(p, isRoot, root, re) && !HasCycle(root)
    requires OnPath(p.schema, root, stack) && (isRoot ==> stack == [])
    requires p.schema.Object? && Passes(p.schema.members, isRoot, p.named, root, re) && !Has(p.schema.members, "$ref")
    ensures Accepts(p, isRoot, stack, root, re)
    decreases Unvisited(root, stack), p.schema, 1
  {
    hide SoundThroughout, HasCycle, Resolve, AuditAll, IsPath;
    var ms := p.schema.members;
    if Has(ms, "properties") {
      SoundAmong(p, Get(ms, "properties").value.members, false, isRoot, stack, root, re);
    }
    if Has(ms, "propertyNames") {
      SoundOnward(p, MemberNames, isRoot, root, re);
      SoundIsAccepted(Position(Get(ms, "propertyNames").value, true), false, stack, root, re);
    }
    if Has(ms, "additionalProperties") && Get(ms, "additionalProperties").value.Object? {
      SoundOnward(p, Others, isRoot, root, re);
      SoundIsAccepted(Position(Get(ms, "additionalProperties").value, false), false, stack, root, re);
    }
    if Has(ms, "$defs") {
      assert "$defs" in ROOT_KEYWORDS;
      SoundAmong(p, Get(ms, "$defs").value.members, true, isRoot, stack, root, re);
    }
  }

  /** The schemas of `properties`, or those of `$defs`, which are met with an empty path. */
  lemma {:induction false} SoundAmong(p: Position, children: seq<Member>, defined: bool, isRoot: bool,
                                      stack: seq<string>, root: seq<Member>, re: Regex)
    requires SoundThroughout(p, isRoot, root, re) && !HasCycle(root)
    requires OnPath(p.schema, root, stack) && (isRoot ==> stack == [])
    requires p.schema.Object? && !Has(p.schema.members, "$ref")
    requires Get(p.schema.members, if defined then "$defs" else "properties") == Some(Object(children))
    requires defined ==> stack == []
    ensures AuditAll(children, root, stack, re, CyclicReference).Accepted?
    decreases Unvisited(root, stack), p.schema, 0
  {
    hide SoundThroughout, HasCycle, Resolve, Audit, AuditAll, IsPath, Passes;
    forall m | m in children ensures Audit(m.value, root, false, stack, None, re, CyclicReference).Accepted? {
      var k: nat :| k < |children| && children[k] == m;
      var step := if defined then Definition(k) else Property(k);
      assert Onward(p, step, root) == Some(Position(m.value, false));
      SoundOnward(p, step, isRoot, root, re);
      RefersAmong(children, k);
      SoundIsAccepted(Position(m.value, false), false, stack, root, re);
    }
    AuditAllAccepts(children, root, stack, re, CyclicReference);
  }

  // ---- What is accepted ----------------------------------------------------------------

  /** The audit accepts a schema if and only if every keyword of it, of every subschema and
      of every schema that their references reach is of the supported form, and no
      references of its definitions form a cycle. */
  lemma AuditsExactly(schema: Json, re: Regex)
    ensures AuditRoot(schema, re).Accepted? <==>
              && schema.Object?
              && SoundThroughout(Position(schema, false), true, schema.members, re)
              && !HasCycle(schema.members)
  {
    hide Audit, SoundAt, HasCycle;
    if schema.Object? {
      var root := schema.members;
      var p := Position(schema, false);
      if AuditRoot(schema, re).Accepted? {
        AcceptedIsAcyclic(schema, re);
        forall path ensures SoundAt(p, path, true, root, re) {
          AcceptedIsSound(p, path, true, [], root, re);
        }
      }
      if SoundThroughout(p, true, root, re) && !HasCycle(root) {
        SoundIsAccepted(p, true, [], root, re);
      }
    }
  }

  // ---- Accepted schemas ----------------------------------------------------------------

  ghost predicate DistinctNames(ms: seq<Member>) {
    forall i, j | 0 <= i < j < |ms| :: ms[i].name != ms[j].name
  }

  lemma {:induction false} GetAt(ms: seq<Member>, k: nat)
    requires DistinctNames(ms) && k < |ms|
    ensures Get(ms, ms[k].name) == Some(ms[k].value)
  {
    if k > 0 {
      GetAt(ms[1..], k - 1);
    }
  }

  ghost predicate EachSupported(ms: seq<Member>, isRoot: bool, named: bool, root: seq<Member>, re: Regex) {
    forall k | 0 <= k < |ms| :: Supported(ms[k].name, ms[k].value, ms, isRoot, named, root, re)
  }

  /** A schema whose subschemas are accepted is accepted if each member is supported. */
  lemma {:induction false} AcceptedByMember(ms: seq<Member>, isRoot: bool, named: bool, stack: seq<string>,
                                            root: seq<Member>, re: Regex)
    requires DistinctNames(ms) && !Has(ms, "$ref")
    requires EachSupported(ms, isRoot, named, root, re)
    requires Has(ms, "properties") && Get(ms, "properties").value.Object? ==>
               AuditAll(Get(ms, "properties").value.members, root, stack, re, CyclicReference).Accepted?
    requires Has(ms, "propertyNames") ==>
               Audit(Get(ms, "propertyNames").value, root, false, stack, Some("string"), re, CyclicReference).Accepted?
    requires Has(ms, "additionalProperties") && Get(ms, "additionalProperties").value.Object? ==>
               Audit(Get(ms, "additionalProperties").value, root, false, stack, None, re, CyclicReference).Accepted?
    requires Has(ms, "$defs") && Get(ms, "$defs").value.Object? ==>
               AuditAll(Get(ms, "$defs").value.members, root, stack, re, CyclicReference).Accepted?
    ensures Audit(Object(ms), root, isRoot, stack, Inherited(named), re, CyclicReference).Accepted?
  {
    hide Supported, KeywordsSupported, AuditAll;
    forall name | name in Names(ms) ensures Supported(name, Get(ms, name).value, ms, isRoot, named, root, re) {
      var k: nat :| k < |ms| && ms[k].name == name;
      GetAt(ms, k);
    }
    EachPasses(ms, isRoot, named, root, re);
  }

  /** A `pattern` that compiles, on a string type, wherever it is. */
  lemma TypedPatternAccepted(pattern: string, root: seq<Member>, stack: seq<string>, re: Regex)
    requires re.Compiles(pattern)
    ensures var ms := [Member("type", String("string")), Member("pattern", String(pattern))];
            && Audit(Object(ms), root, false, stack, None, re, CyclicReference).Accepted?
            && AuditRoot(Object(ms), re).Accepted?
  {
    var ms := [Member("type", String("string")), Member("pattern", String(pattern))];
    hide Audit, AuditAll;
    GetAt(ms, 0);
    assert Names(ms) == {"type", "pattern"};
    AcceptedByMember(ms, false, false, stack, root, re);
    AcceptedByMember(ms, true, false, [], ms, re);
  }
}
