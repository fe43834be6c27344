/** The matcher that compares a value with an audited schema, and what the keywords
    of a schema assert in JSON Schema 2020-12. */
module SchemaMatch {
  import opened JsonValues
  import opened SchemaAudit

  /** What a call of the matcher does when it ends. */
  datatype Outcome = Raises | Answer(matches: bool)

  /** The matcher. It follows `$ref` with no record of where it has been, so it
      need not end: `fuel` bounds the depth of the calls, and None says that the
      bound was reached. A call that ends, ends so under every larger bound. */
  function Match(fuel: nat, value: Json, schema: seq<Member>, root: seq<Member>, re: Regex): Option<Outcome>
    decreases fuel, 0
  {
    if fuel == 0 then None
    else if Has(schema, "$ref") then
      var reference := Get(schema, "$ref").value;
      var target := if reference.String? then Resolve(reference.s, root) else None;
      if target.None? || !target.value.Object? then Some(Raises)
      else Match(fuel - 1, value, target.value.members, root, re)
    else
      var early := MatchValue(value, schema, re);
      if early.Some? then early else MatchObject(fuel - 1, value.members, schema, root, re)
  }

  /** The keywords the matcher compares any value with; None when all of them
      hold and the value is an object whose members are still to be compared. */
  function MatchValue(value: Json, schema: seq<Member>, re: Regex): (r: Option<Outcome>)
    ensures r.None? ==> value.Object?
  {
    if Has(schema, "const") && !Equal(value, Get(schema, "const").value, true) then Some(Answer(false))
    else if Has(schema, "enum") && !Get(schema, "enum").value.Array? then Some(Raises)
    else if Has(schema, "enum") && !(exists e | e in Get(schema, "enum").value.items :: Equal(value, e, true)) then
      Some(Answer(false))
    else if Get(schema, "type") == Some(String("string")) && !value.String? then Some(Answer(false))
    else if Has(schema, "pattern") && !value.String? then Some(Answer(false))
    else if Has(schema, "pattern")
         && !(Get(schema, "pattern").value.String? && re.Compiles(Get(schema, "pattern").value.s)) then Some(Raises)
    else if Has(schema, "pattern") && !re.Search(Get(schema, "pattern").value.s, value.s) then Some(Answer(false))
    else if Get(schema, "type") != Some(String("object")) then Some(Answer(true))
    else if !value.Object? then Some(Answer(false))
    else None
  }

  /** The part of the matcher for an object value of an object schema. */
  function MatchObject(fuel: nat, value: seq<Member>, schema: seq<Member>, root: seq<Member>,
                       re: Regex): Option<Outcome>
    decreases fuel, |value| + 3
  {
    var required := Get(schema, "required");
    if required.Some? && !(required.value.Array? && AllStrings(required.value.items)) then Some(Raises)
    else if required.Some? && !(forall item: Json | item in required.value.items :: Has(value, item.s)) then
      Some(Answer(false))
    else if Has(schema, "properties") && !Get(schema, "properties").value.Object? then Some(Raises)
    else
      var r := MatchPropertyNames(fuel, value, Get(schema, "propertyNames"), root, re);
      if r != Some(Answer(true)) then r
      else MatchMembers(fuel, value, Children(schema, "properties"), Get(schema, "additionalProperties"), root, re)
  }

  function MatchPropertyNames(fuel: nat, value: seq<Member>, names: Option<Json>, root: seq<Member>,
                              re: Regex): Option<Outcome>
    decreases fuel, |value| + 2
  {
    if names.None? || names.value.Null? then Some(Answer(true))
    else if !names.value.Object? then Some(Raises)
    else MatchNames(fuel, value, names.value.members, root, re)
  }

  /** Every member name against the `propertyNames` schema, up to the first that fails. */
  function MatchNames(fuel: nat, value: seq<Member>, names: seq<Member>, root: seq<Member>, re: Regex): Option<Outcome>
    decreases fuel, |value| + 1
  {
    if value == [] then Some(Answer(true))
    else
      var r := Match(fuel, String(value[0].name), names, root, re);
      if r != Some(Answer(true)) then r else MatchNames(fuel, value[1..], names, root, re)
  }

  /** Every member against its property schema or `additionalProperties`. */
  function MatchMembers(fuel: nat, value: seq<Member>, properties: seq<Member>, additional: Option<Json>,
                        root: seq<Member>, re: Regex): Option<Outcome>
    decreases fuel, |value| + 1
  {
    if value == [] then Some(Answer(true))
    else
      var child := Get(properties, value[0].name);
      var r :=
        if child.None? || child.value.Null? then
          if additional == Some(Bool(false)) then Some(Answer(false))
          else if additional.Some? && additional.value.Object? then
            Match(fuel, value[0].value, additional.value.members, root, re)
          else Some(Answer(true))
        else if !child.value.Object? then Some(Raises)
        else Match(fuel, value[0].value, child.value.members, root, re);
      if r != Some(Answer(true)) then r
      else MatchMembers(fuel, value[1..], properties, additional, root, re)
  }

  // ---- The meaning of a schema -------------------------------------------

  /** A schema with its references followed: what JSON Schema gives a meaning to. */
  datatype Tree =
    | Reference(target: Tree)
    | Keywords(
        kind: Option<string>,
        constant: Option<Json>,
        choices: Option<seq<Json>>,
        pattern: Option<string>,
        required: set<string>,
        properties: seq<Property>,
        names: Option<Tree>,
        additional: Additional)

  datatype Property = Property(name: string, tree: Tree)
  datatype Additional = Anything | Nothing | Each(tree: Tree)

  function Lookup(ps: seq<Property>, name: string): (r: Option<Tree>)
    ensures r.Some? ==> Property(name, r.value) in ps
  {
    if ps == [] then None
    else if ps[0].name == name then Some(ps[0].tree)
    else Lookup(ps[1..], name)
  }

  predicate HasType(value: Json, kind: string) {
    match value
    case Null => kind == "null"
    case Bool(_) => kind == "boolean"
    case Number(n) => kind == "number" || (kind == "integer" && n.Amount() == n.Amount().Floor as real)
    case String(_) => kind == "string"
    case Array(_) => kind == "array"
    case Object(_) => kind == "object"
  }

  /** Validity under JSON Schema 2020-12. Each keyword asserts on its own, and
      asserts nothing of an instance of a type it does not apply to: `type`,
      `enum` and `const` (Validation, sections 6.1.1 to 6.1.3), `pattern`
      (6.3.3), `required` (6.5.3), `properties`, `additionalProperties` and
      `propertyNames` (Core, section 10.3.2). A reference asserts what its target
      asserts; which schema that is, is for `SchemaStandard` to say. */
  ghost predicate Conforms(value: Json, tree: Tree, re: Regex)
    decreases tree
  {
    match tree
    case Reference(target) => Conforms(value, target, re)
    case Keywords(kind, constant, choices, pattern, required, properties, names, additional) =>
      && (kind.Some? ==> HasType(value, kind.value))
      && (constant.Some? ==> Equal(value, constant.value, false))
      && (choices.Some? ==> exists choice | choice in choices.value :: Equal(value, choice, false))
      && (pattern.Some? && value.String? ==> re.Search(pattern.value, value.s))
      && (value.Object? ==>
            && (forall name | name in required :: Has(value.members, name))
            && (names.Some? ==> forall m | m in value.members :: Conforms(String(m.name), names.value, re))
            && (forall m | m in value.members ::
                  match Lookup(properties, m.name)
                  case Some(property) => Conforms(m.value, property, re)
                  case None =>
                    match additional
                    case Anything => true
                    case Nothing => false
                    case Each(rest) => Conforms(m.value, rest, re)))
  }

  // ---- Reading one schema's own keywords ------------------------------------

  predicate WellFormed(ms: seq<Member>) {
    && (Has(ms, "type") ==> Get(ms, "type").value.String?)
    && (Has(ms, "enum") ==> Get(ms, "enum").value.Array?)
    && (Has(ms, "pattern") ==> Get(ms, "pattern").value.String?)
    && (Has(ms, "required") ==> Get(ms, "required").value.Array? && AllStrings(Get(ms, "required").value.items))
    && (Has(ms, "properties") ==> Get(ms, "properties").value.Object?)
    && (Has(ms, "additionalProperties") ==>
          Get(ms, "additionalProperties").value.Bool? || Get(ms, "additionalProperties").value.Object?)
  }

  function KindOf(ms: seq<Member>): Option<string> {
    match Get(ms, "type") case Some(String(s)) => Some(s) case _ => None
  }

  function ChoicesOf(ms: seq<Member>): Option<seq<Json>> {
    match Get(ms, "enum") case Some(Array(items)) => Some(items) case _ => None
  }

  function PatternOf(ms: seq<Member>): Option<string> {
    match Get(ms, "pattern") case Some(String(s)) => Some(s) case _ => None
  }

  function RequiredOf(ms: seq<Member>): set<string> {
    match Get(ms, "required")
    case Some(Array(items)) => set item | item in items && item.String? :: item.s
    case _ => {}
  }

  /** Reads a schema value as a tree, following each `$ref`; None when a keyword
      is malformed, a reference does not resolve, or its path closes a cycle. */
  function Expand(schema: Json, root: seq<Member>, stack: seq<string>): Option<Tree>
    decreases Unvisited(root, stack), schema, 0
  {
    if !schema.Object? then None
    else
      var ms := schema.members;
      if Has(ms, "$ref") then
        var reference := Get(ms, "$ref").value;
        if Names(ms) != {"$ref"} || !reference.String? || reference.s in stack then None
        else
          match Resolve(reference.s, root)
          case None => None
          case Some(target) =>
            PushShrinks(root, stack, reference.s);
            var tree := Expand(target, root, stack + [reference.s]);
            if tree.None? then None else Some(Reference(tree.value))
      else if !WellFormed(ms) then None
      else
        var properties :=
          if Has(ms, "properties") then ExpandAll(Get(ms, "properties").value.members, root, stack) else Some([]);
        var names :=
          if Has(ms, "propertyNames") then Expand(Get(ms, "propertyNames").value, root, stack) else None;
        var each :=
          if Has(ms, "additionalProperties") && Get(ms, "additionalProperties").value.Object?
          then Expand(Get(ms, "additionalProperties").value, root, stack) else None;
        var additional :=
          if !Has(ms, "additionalProperties") then Some(Anything)
          else if Get(ms, "additionalProperties").value.Bool?
          then Some(if Get(ms, "additionalProperties").value.b then Anything else Nothing)
          else if each.Some? then Some(Each(each.value)) else None;
        if properties.None? || additional.None? || (Has(ms, "propertyNames") && names.None?) then None
        else Some(Keywords(KindOf(ms), Get(ms, "const"), ChoicesOf(ms), PatternOf(ms), RequiredOf(ms),
                           properties.value, names, additional.value))
  }

  function ExpandAll(ms: seq<Member>, root: seq<Member>, stack: seq<string>): Option<seq<Property>>
    decreases Unvisited(root, stack), ms, 1
  {
    if ms == [] then Some([])
    else
      var first := Expand(ms[0].value, root, stack);
      var rest := ExpandAll(ms[1..], root, stack);
      if first.None? || rest.None? then None
      else Some([Property(ms[0].name, first.value)] + rest.value)
  }
}
