/** The closed schema subset of the public-record envelope: the auditor that
    admits a schema before any value is compared with it. */
module SchemaAudit {
  import opened JsonValues

  /** The regular expression library, which is not part of this model:
      `Compiles` is `re.compile` succeeding, `Search` is `re.search` finding. The
      standard is read with the same two. */
  datatype Regex = Regex(Compiles: string -> bool, Search: (string, string) -> bool)

  /** How an audit ends: it returns, or raises for one of two reasons. */
  datatype Verdict = Accepted | Unsupported | CyclicReference {
    /** What follows runs only when nothing was raised before it. */
    function Then(next: Verdict): Verdict {
      if Accepted? then next else this
    }
  }

  const DIALECT := "https://json-schema.org/draft/2020-12/schema"
  const PREFIX := "#/$defs/"
  const KEYWORDS := {
    "$defs", "$id", "$ref", "$schema", "additionalProperties", "const", "enum",
    "pattern", "properties", "propertyNames", "required", "title", "type"
  }
  const OBJECT_KEYWORDS := {"additionalProperties", "properties", "propertyNames", "required"}
  const ROOT_KEYWORDS := {"$defs", "$id", "$schema"}

  predicate AllStrings(items: seq<Json>) {
    forall item | item in items :: item.String?
  }

  predicate NoRepeats(items: seq<Json>) {
    forall i, j | 0 <= i < j < |items| :: items[i] != items[j]
  }

  /** The members of an optional object-valued keyword, `schema.get(name, {})`. */
  function Children(ms: seq<Member>, name: string): (r: seq<Member>)
    ensures Has(ms, name) && Get(ms, name).value.Object? ==> Get(ms, name) == Some(Object(r))
  {
    match Get(ms, name)
    case Some(Object(children)) => children
    case _ => []
  }

  /** The schema a `#/$defs/name` reference names in the root schema. */
  function Resolve(reference: string, root: seq<Member>): (r: Option<Json>)
    ensures r.Some? ==> reference in References(root)
  {
    if !(PREFIX <= reference) || '/' in reference[|PREFIX|..] then None
    else
      assert PREFIX + reference[|PREFIX|..] == reference;
      Get(Children(root, "$defs"), reference[|PREFIX|..])
  }

  /** Every reference that could resolve in the root schema. */
  ghost function References(root: seq<Member>): set<string> {
    set m | m in Children(root, "$defs") :: PREFIX + m.name
  }

  /** References not yet on the audit's path: what a cycle would run out of. */
  ghost function Unvisited(root: seq<Member>, stack: seq<string>): nat {
    |References(root) - set r | r in stack|
  }

  lemma PushShrinks(root: seq<Member>, stack: seq<string>, reference: string)
    requires reference in References(root) && reference !in stack
    ensures Unvisited(root, stack + [reference]) < Unvisited(root, stack)
  {
    var before := References(root) - set r | r in stack;
    var after := References(root) - set r | r in stack + [reference];
    assert after == before - {reference};
  }

  /** Checks on one object schema that look at keywords only, in the audit's order
      (`conformance/check-domain-model.py:105-126`). */
  predicate KeywordsSupported(ms: seq<Member>, isRoot: bool) {
    && Names(ms) <= KEYWORDS
    && (isRoot || Names(ms) !! ROOT_KEYWORDS)
    && (Has(ms, "$schema") ==> Get(ms, "$schema") == Some(String(DIALECT)))
    && (Has(ms, "$id") ==> Get(ms, "$id").value.String?)
    && (Has(ms, "title") ==> Get(ms, "title").value.String?)
  }

  /** Checks on the values of the keywords of one schema without `$ref`, other
      than the checks of its subschemas. */
  predicate ValuesSupported(ms: seq<Member>, inherited: Option<string>, re: Regex) {
    var kind := Get(ms, "type");
    && (kind.None? || kind == Some(String("object")) || kind == Some(String("string")))
    && (Names(ms) !! OBJECT_KEYWORDS || kind == Some(String("object")))
    && (Has(ms, "pattern") ==>
          && (if kind.Some? then kind == Some(String("string")) else inherited == Some("string"))
          && Get(ms, "pattern").value.String?
          && re.Compiles(Get(ms, "pattern").value.s))
    && (Has(ms, "const") ==> Get(ms, "const").value.String?)
    && (Has(ms, "enum") ==>
          && Get(ms, "enum").value.Array?
          && Get(ms, "enum").value.items != []
          && AllStrings(Get(ms, "enum").value.items)
          && NoRepeats(Get(ms, "enum").value.items))
    && (Has(ms, "required") ==>
          && Get(ms, "required").value.Array?
          && AllStrings(Get(ms, "required").value.items)
          && NoRepeats(Get(ms, "required").value.items))
    && (Has(ms, "properties") ==> Get(ms, "properties").value.Object?)
    && (Has(ms, "additionalProperties") ==>
          Get(ms, "additionalProperties").value.Bool? || Get(ms, "additionalProperties").value.Object?)
    && (Has(ms, "$defs") ==> Get(ms, "$defs").value.Object?)
  }

  /** The recursive audit. `stack` is the path of references followed so far,
      `inherited` the type the enclosing schema fixes for the instance.
      The code raises at a reference already on its path, `onRepeat` being
      CyclicReference; with Accepted in its place the audit makes every check
      but that one. */
  function Audit(schema: Json, root: seq<Member>, isRoot: bool, stack: seq<string>,
                 inherited: Option<string>, re: Regex, onRepeat: Verdict): Verdict
    decreases Unvisited(root, stack), schema, 0
  {
    if !schema.Object? then Unsupported
    else
      var ms := schema.members;
      if !KeywordsSupported(ms, isRoot) then Unsupported
      else if Has(ms, "$ref") then
        var reference := Get(ms, "$ref").value;
        if Names(ms) != {"$ref"} || !reference.String? then Unsupported
        else if reference.s in stack then onRepeat
        else
          match Resolve(reference.s, root)
          case None => Unsupported
          case Some(target) =>
            PushShrinks(root, stack, reference.s);
            Audit(target, root, false, stack + [reference.s], inherited, re, onRepeat)
      else if !ValuesSupported(ms, inherited, re) then Unsupported
      else
        (if Has(ms, "properties")
         then AuditAll(Get(ms, "properties").value.members, root, stack, re, onRepeat)
         else Accepted)
        .Then(if Has(ms, "propertyNames")
              then Audit(Get(ms, "propertyNames").value, root, false, stack, Some("string"), re, onRepeat)
              else Accepted)
        .Then(if Has(ms, "additionalProperties") && Get(ms, "additionalProperties").value.Object?
              then Audit(Get(ms, "additionalProperties").value, root, false, stack, None, re, onRepeat)
              else Accepted)
        .Then(if Has(ms, "$defs")
              then AuditAll(Get(ms, "$defs").value.members, root, stack, re, onRepeat)
              else Accepted)
  }

  /** The audit of every schema in a `properties` or `$defs` object. */
  function AuditAll(ms: seq<Member>, root: seq<Member>, stack: seq<string>, re: Regex, onRepeat: Verdict): (r: Verdict)
    decreases Unvisited(root, stack), ms, 1
  {
    if ms == [] then Accepted
    else
      Audit(ms[0].value, root, false, stack, None, re, onRepeat)
      .Then(AuditAll(ms[1..], root, stack, re, onRepeat))
  }

  /** The audit of a whole schema, as `envelope_matches_schema` starts it. */
  function AuditRoot(schema: Json, re: Regex): Verdict {
    if schema.Object? then Audit(schema, schema.members, true, [], None, re, CyclicReference)
    else Unsupported
  }

  lemma {:induction false} AuditAllAccepts(ms: seq<Member>, root: seq<Member>, stack: seq<string>, re: Regex,
                                           onRepeat: Verdict)
    ensures AuditAll(ms, root, stack, re, onRepeat).Accepted? <==>
              forall m | m in ms :: Audit(m.value, root, false, stack, None, re, onRepeat).Accepted?
  {
    if ms != [] {
      AuditAllAccepts(ms[1..], root, stack, re, onRepeat);
      assert forall m | m in ms :: m == ms[0] || m in ms[1..];
    }
  }

}
