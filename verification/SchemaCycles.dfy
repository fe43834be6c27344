/** The path test of the audit refuses exactly the schemas whose references cycle. */
module SchemaCycles {
  import opened JsonValues
  import opened SchemaAudit

  /** The references a schema makes itself, in any of its subschemas. */
  ghost function Refers(schema: Json): set<string>
    decreases schema, 0
  {
    if !schema.Object? then {}
    else
      var ms := schema.members;
      if Has(ms, "$ref") then
        if Get(ms, "$ref").value.String? then {Get(ms, "$ref").value.s} else {}
      else
        (if Has(ms, "properties") && Get(ms, "properties").value.Object?
         then RefersAll(Get(ms, "properties").value.members) else {})
        + (if Has(ms, "propertyNames") then Refers(Get(ms, "propertyNames").value) else {})
        + (if Has(ms, "additionalProperties") then Refers(Get(ms, "additionalProperties").value) else {})
  }

  ghost function RefersAll(ms: seq<Member>): set<string>
    decreases ms, 1
  {
    if ms == [] then {} else Refers(ms[0].value) + RefersAll(ms[1..])
  }

  /** The definition graph: reference `a` resolves to a schema that refers to `b`. */
  ghost predicate Edge(root: seq<Member>, a: string, b: string) {
    Resolve(a, root).Some? && b in Refers(Resolve(a, root).value)
  }

  ghost predicate IsPath(root: seq<Member>, path: seq<string>) {
    forall i | 0 <= i < |path| - 1 :: Edge(root, path[i], path[i + 1])
  }

  ghost predicate HasCycle(root: seq<Member>) {
    exists path: seq<string> :: IsCycle(root, path)
  }

  ghost predicate IsCycle(root: seq<Member>, path: seq<string>) {
    |path| >= 2 && IsPath(root, path) && path[0] == path[|path| - 1]
  }

  // ---- An accepted schema has no cycle --------------------------------------

  /** What the audit accepts, it accepts along every reference made there. */
  ghost predicate AcceptsNext(root: seq<Member>, stack: seq<string>, reference: string, re: Regex) {
    && reference !in stack
    && Resolve(reference, root).Some?
    && exists inherited ::
         Audit(Resolve(reference, root).value, root, false, stack + [reference], inherited, re,
               CyclicReference).Accepted?
  }

  lemma {:induction false} AuditFollows(schema: Json, root: seq<Member>, isRoot: bool, stack: seq<string>,
                                        inherited: Option<string>, re: Regex, reference: string)
    requires Audit(schema, root, isRoot, stack, inherited, re, CyclicReference).Accepted?
    requires reference in Refers(schema)
    ensures AcceptsNext(root, stack, reference, re)
    decreases schema, 0
  {
    var ms := schema.members;
    if !Has(ms, "$ref") {
      if Has(ms, "properties") && reference in RefersAll(Get(ms, "properties").value.members) {
        AuditAllFollows(Get(ms, "properties").value.members, root, stack, re, reference);
      } else if Has(ms, "propertyNames") && reference in Refers(Get(ms, "propertyNames").value) {
        AuditFollows(Get(ms, "propertyNames").value, root, false, stack, Some("string"), re, reference);
      } else {
        AuditFollows(Get(ms, "additionalProperties").value, root, false, stack, None, re, reference);
      }
    }
  }

  lemma {:induction false} AuditAllFollows(ms: seq<Member>, root: seq<Member>, stack: seq<string>, re: Regex,
                                           reference: string)
    requires AuditAll(ms, root, stack, re, CyclicReference).Accepted?
    requires reference in RefersAll(ms)
    ensures AcceptsNext(root, stack, reference, re)
    decreases ms, 1
  {
    if reference in Refers(ms[0].value) {
      AuditFollows(ms[0].value, root, false, stack, None, re, reference);
    } else {
      AuditAllFollows(ms[1..], root, stack, re, reference);
    }
  }

  lemma DefinitionAccepted(schema: Json, reference: string, re: Regex)
    requires AuditRoot(schema, re).Accepted?
    requires Resolve(reference, schema.members).Some?
    ensures Audit(Resolve(reference, schema.members).value, schema.members, false, [], None, re,
            CyclicReference).Accepted?
  {
    AuditAllAccepts(Children(schema.members, "$defs"), schema.members, [], re, CyclicReference);
  }

  /** Along a path the audit has visited every reference but the first. */
  lemma {:induction false} AuditWalks(schema: Json, path: seq<string>, n: nat, re: Regex)
    requires AuditRoot(schema, re).Accepted?
    requires IsPath(schema.members, path) && n < |path| - 1
    ensures AcceptsNext(schema.members, path[1..n + 1], path[n + 1], re)
  {
    hide Audit, AuditAll, Resolve, Refers;
    var root := schema.members;
    assert Edge(root, path[n], path[n + 1]);
    var target := Resolve(path[n], root).value;
    if n == 0 {
      DefinitionAccepted(schema, path[0], re);
      AuditFollows(target, root, false, [], None, re, path[1]);
    } else {
      AuditWalks(schema, path, n - 1, re);
      assert path[1..n] + [path[n]] == path[1..n + 1];
      var inherited :|
        Audit(target, root, false, path[1..n + 1], inherited, re, CyclicReference).Accepted?;
      AuditFollows(target, root, false, path[1..n + 1], inherited, re, path[n + 1]);
    }
  }

  lemma AcceptedIsAcyclic(schema: Json, re: Regex)
    requires AuditRoot(schema, re).Accepted?
    ensures !HasCycle(schema.members)
  {
    forall path: seq<string> | IsCycle(schema.members, path)
      ensures false
    {
      // Once around and one step further the walk meets the reference it began with.
      var around := path + [path[1]];
      assert Edge(schema.members, path[0], path[1]);
      assert around[1..|path|][0] == around[|path|];
      AuditWalks(schema, around, |path| - 1, re);
    }
  }

  // ---- A refusal by the path test exhibits a cycle --------------------------

  /** The audit's path is a path of the graph, and the schema it is at lies in
      the last definition of that path. */
  ghost predicate OnPath(schema: Json, root: seq<Member>, stack: seq<string>) {
    && IsPath(root, stack)
    && (stack != [] ==>
          Resolve(stack[|stack| - 1], root).Some? && Refers(schema) <= Refers(Resolve(stack[|stack| - 1], root).value))
  }

  lemma {:induction false} RefusalShowsCycle(schema: Json, root: seq<Member>, isRoot: bool, stack: seq<string>,
                                             inherited: Option<string>, re: Regex)
    requires Audit(schema, root, isRoot, stack, inherited, re, Accepted).Accepted?
    requires !Audit(schema, root, isRoot, stack, inherited, re, CyclicReference).Accepted?
    requires OnPath(schema, root, stack)
    requires isRoot ==> stack == []
    ensures Audit(schema, root, isRoot, stack, inherited, re, CyclicReference).CyclicReference?
    ensures HasCycle(root)
    decreases Unvisited(root, stack), schema, 2
  {
    var ms := schema.members;
    if Has(ms, "$ref") {
      var reference := Get(ms, "$ref").value.s;
      assert reference in Refers(schema);
      if reference in stack {
        CloseCycle(root, stack, reference);
      } else {
        PushShrinks(root, stack, reference);
        ExtendPath(root, stack, reference);
        RefusalShowsCycle(Resolve(reference, root).value, root, false, stack + [reference], inherited, re);
      }
    } else {
      RefusalBelow(schema, root, isRoot, stack, inherited, re);
    }
  }

  lemma CloseCycle(root: seq<Member>, stack: seq<string>, reference: string)
    requires IsPath(root, stack) && reference in stack
    requires Edge(root, stack[|stack| - 1], reference)
    ensures HasCycle(root)
  {
    var i :| 0 <= i < |stack| && stack[i] == reference;
    ExtendPath(root, stack, reference);
    var around := (stack + [reference])[i..];
    forall k | 0 <= k < |around| - 1 ensures Edge(root, around[k], around[k + 1]) {
      assert Edge(root, (stack + [reference])[i + k], (stack + [reference])[i + k + 1]);
    }
    assert IsCycle(root, around);
  }

  lemma ExtendPath(root: seq<Member>, stack: seq<string>, reference: string)
    requires IsPath(root, stack)
    requires stack != [] ==> Edge(root, stack[|stack| - 1], reference)
    ensures IsPath(root, stack + [reference])
  {
    var longer := stack + [reference];
    forall i | 0 <= i < |longer| - 1 ensures Edge(root, longer[i], longer[i + 1]) {
      if i < |stack| - 1 {
        assert Edge(root, stack[i], stack[i + 1]);
      }
    }
  }

  lemma {:induction false} RefusalBelow(schema: Json, root: seq<Member>, isRoot: bool, stack: seq<string>,
                                        inherited: Option<string>, re: Regex)
    requires Audit(schema, root, isRoot, stack, inherited, re, Accepted).Accepted?
    requires !Audit(schema, root, isRoot, stack, inherited, re, CyclicReference).Accepted?
    requires OnPath(schema, root, stack)
    requires isRoot ==> stack == []
    requires !Has(schema.members, "$ref")
    ensures Audit(schema, root, isRoot, stack, inherited, re, CyclicReference).CyclicReference?
    ensures HasCycle(root)
    decreases Unvisited(root, stack), schema, 1
  {
    var ms := schema.members;
    if Has(ms, "properties")
       && !AuditAll(Get(ms, "properties").value.members, root, stack, re, CyclicReference).Accepted? {
      RefusalAmong(Get(ms, "properties").value.members, root, stack, re);
    } else if Has(ms, "propertyNames")
           && !Audit(Get(ms, "propertyNames").value, root, false, stack, Some("string"), re,
                     CyclicReference).Accepted? {
      RefusalShowsCycle(Get(ms, "propertyNames").value, root, false, stack, Some("string"), re);
    } else if Has(ms, "additionalProperties") && Get(ms, "additionalProperties").value.Object?
           && !Audit(Get(ms, "additionalProperties").value, root, false, stack, None, re, CyclicReference).Accepted? {
      RefusalShowsCycle(Get(ms, "additionalProperties").value, root, false, stack, None, re);
    } else {
      // Only the root schema has definitions of its own.
      assert "$defs" in ROOT_KEYWORDS;
      RefusalAmong(Get(ms, "$defs").value.members, root, stack, re);
    }
  }

  lemma {:induction false} RefusalAmong(ms: seq<Member>, root: seq<Member>, stack: seq<string>, re: Regex)
    requires AuditAll(ms, root, stack, re, Accepted).Accepted?
    requires !AuditAll(ms, root, stack, re, CyclicReference).Accepted?
    requires IsPath(root, stack)
    requires stack != [] ==>
               && Resolve(stack[|stack| - 1], root).Some?
               && RefersAll(ms) <= Refers(Resolve(stack[|stack| - 1], root).value)
    ensures AuditAll(ms, root, stack, re, CyclicReference).CyclicReference?
    ensures HasCycle(root)
    decreases Unvisited(root, stack), ms, 3
  {
    if !Audit(ms[0].value, root, false, stack, None, re, CyclicReference).Accepted? {
      RefusalShowsCycle(ms[0].value, root, false, stack, None, re);
    } else {
      RefusalAmong(ms[1..], root, stack, re);
    }
  }

  /** Among schemas that pass every other check of the audit, the path test
      refuses exactly those whose definitions refer to each other in a cycle. */
  lemma PathTestFindsCycles(schema: Json, re: Regex)
    requires schema.Object?
    requires Audit(schema, schema.members, true, [], None, re, Accepted).Accepted?
    ensures AuditRoot(schema, re).CyclicReference? <==> HasCycle(schema.members)
    ensures AuditRoot(schema, re).Accepted? <==> !HasCycle(schema.members)
  {
    if AuditRoot(schema, re).Accepted? {
      AcceptedIsAcyclic(schema, re);
    } else {
      RefusalShowsCycle(schema, schema.members, true, [], None, re);
    }
  }
}
