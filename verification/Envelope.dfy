/** Admission of a public-record envelope (`conformance/check-domain-model.py`):
    the schema, the publisher's namespace and the extensions. */
module Envelope {
  import opened JsonValues
  import opened SchemaAudit
  import opened SchemaMatch
  import opened SchemaMeaning
  import opened SchemaTheorems
  import opened SchemaStandard
  import opened JsonPointer
  import opened Texts

  // ---- Namespaces --------------------------------------------------------------

  /** What `str.partition(":")` finds before the separator, if there is one. */
  function Qualifier(id: string): Option<string> {
    var i := Index(id, ':');
    if i < |id| then Some(id[..i]) else None
  }

  /** The test itself, on the two strings. */
  predicate Claims(publisher: string, qualifier: string) {
    qualifier == publisher || publisher + "." <= qualifier
  }

  /** `publisher_namespace_admissible`. */
  predicate NamespaceAdmissible(record: Json) {
    && record.Object?
    && match (Get(record.members, "publisher"), Get(record.members, "record_id"))
       case (Some(String(publisher)), Some(String(id))) =>
         Qualifier(id).Some? && Claims(publisher, Qualifier(id).value)
       case _ => false
  }

  /** `str.split(".")`: never empty. */
  function Labels(s: string): (r: seq<string>)
    ensures |r| > 0
    decreases |s|
  {
    var i := Index(s, '.');
    if i == |s| then [s] else [s[..i]] + Labels(s[i + 1..])
  }

  /** `".".join`. */
  function Join(labels: seq<string>): string {
    if labels == [] then ""
    else if |labels| == 1 then labels[0]
    else labels[0] + "." + Join(labels[1..])
  }

  lemma {:induction false} JoinAppend(a: seq<string>, b: seq<string>)
    requires a != [] && b != []
    ensures Join(a + b) == Join(a) + "." + Join(b)
  {
    if |a| == 1 {
      assert (a + b)[1..] == b;
    } else {
      JoinAppend(a[1..], b);
      assert (a + b)[1..] == a[1..] + b;
    }
  }

  lemma {:induction false} JoinLabels(s: string)
    ensures Join(Labels(s)) == s
    decreases |s|
  {
    hide Index, Join;
    var i := Index(s, '.');
    if i == |s| {
      JoinOne(s);
    } else {
      var first, rest := s[..i], s[i + 1..];
      JoinLabels(rest);
      JoinOne(first);
      JoinAppend([first], Labels(rest));
      assert s == first + "." + rest;
    }
  }

  lemma JoinOne(only: string)
    ensures Join([only]) == only
  {
  }

  lemma FirstLabel(s: string, first: string, rest: string)
    requires s == first + "." + rest && '.' !in first
    ensures Labels(s) == [first] + Labels(rest)
  {
    IndexAppend(first, '.', rest);
    assert s[..|first|] == first && s[|first| + 1..] == rest;
  }

  lemma {:induction false} LabelsAppend(a: string, b: string)
    ensures Labels(a + "." + b) == Labels(a) + Labels(b)
    decreases |a|
  {
    hide Labels;
    var i := Index(a, '.');
    if i == |a| {
      OneLabel(a);
      FirstLabel(a + "." + b, a, b);
    } else {
      var first, rest := a[..i], a[i + 1..];
      assert a == first + "." + rest;
      assert a + "." + b == first + "." + (rest + "." + b);
      FirstLabel(a, first, rest);
      FirstLabel(a + "." + b, first, rest + "." + b);
      LabelsAppend(rest, b);
      assert Labels(a + "." + b) == [first] + (Labels(rest) + Labels(b));
    }
  }

  lemma OneLabel(s: string)
    requires '.' !in s
    ensures Labels(s) == [s]
  {
    assert Index(s, '.') == |s|;
  }

  /** The comparison of characters is a comparison of whole labels, for all strings. */
  lemma ClaimsByLabel(publisher: string, qualifier: string)
    ensures Claims(publisher, qualifier) <==> Labels(publisher) <= Labels(qualifier)
  {
    if publisher + "." <= qualifier {
      var rest := qualifier[|publisher| + 1..];
      assert qualifier == publisher + "." + rest;
      LabelsAppend(publisher, rest);
    }
    if Labels(publisher) <= Labels(qualifier) {
      PrefixClaims(publisher, qualifier);
    }
  }

  lemma PrefixClaims(publisher: string, qualifier: string)
    requires Labels(publisher) <= Labels(qualifier)
    ensures Claims(publisher, qualifier)
  {
    hide Labels, Join;
    JoinLabels(publisher);
    JoinLabels(qualifier);
    var labels := Labels(publisher);
    var rest := Labels(qualifier)[|labels|..];
    assert Labels(qualifier) == labels + rest;
    if rest == [] {
      assert labels + rest == labels;
    } else {
      JoinAppend(labels, rest);
    }
  }

  /** The publisher's labels begin the labels before the first colon of the identifier. */
  ghost predicate Owned(record: Json) {
    && record.Object?
    && exists publisher, qualifier, local ::
         && Get(record.members, "publisher") == Some(String(publisher))
         && Get(record.members, "record_id") == Some(String(qualifier + ":" + local))
         && ':' !in qualifier
         && Labels(publisher) <= Labels(qualifier)
  }

  /** A record is in its publisher's namespace exactly when its publisher owns it. */
  lemma OwnedByLabel(record: Json)
    ensures NamespaceAdmissible(record) <==> Owned(record)
  {
    if NamespaceAdmissible(record) {
      var publisher, id := Get(record.members, "publisher").value.s, Get(record.members, "record_id").value.s;
      var i := Index(id, ':');
      assert id == id[..i] + ":" + id[i + 1..];
      ClaimsByLabel(publisher, id[..i]);
    }
    if record.Object? {
      forall publisher, qualifier, local
        | && Get(record.members, "publisher") == Some(String(publisher))
          && Get(record.members, "record_id") == Some(String(qualifier + ":" + local))
          && ':' !in qualifier && Labels(publisher) <= Labels(qualifier)
        ensures NamespaceAdmissible(record)
      {
        FirstColon(qualifier, local);
        ClaimsByLabel(publisher, qualifier);
      }
    }
  }

  lemma FirstColon(qualifier: string, local: string)
    requires ':' !in qualifier
    ensures Qualifier(qualifier + ":" + local) == Some(qualifier)
  {
    IndexAppend(qualifier, ':', local);
    assert (qualifier + ":" + local)[..|qualifier|] == qualifier;
  }

  /** Who owns a name owns what that name owns. */
  lemma ClaimsCompose(a: string, b: string, c: string)
    requires Claims(a, b) && Claims(b, c)
    ensures Claims(a, c)
  {
  }

  /** Two publishers that own one qualifier own each other, one way or the other:
      separate publishers never share a qualifier. */
  lemma SharedQualifierNests(a: string, b: string, qualifier: string)
    requires Claims(a, qualifier) && Claims(b, qualifier)
    ensures Claims(a, b) || Claims(b, a)
  {
    ClaimsByLabel(a, qualifier);
    ClaimsByLabel(b, qualifier);
    ClaimsByLabel(a, b);
    ClaimsByLabel(b, a);
  }

  // ---- Extensions ----------------------------------------------------------------

  const SUPPORTED_VERSION := "1.0.0"

  predicate ExtensionAdmissible(m: Member) {
    && m.value.Object?
    && Get(m.value.members, "version") == Some(String(SUPPORTED_VERSION))
    && Get(m.value.members, "criticality") != Some(String("required"))
  }

  predicate AllAdmissible(extensions: seq<Member>) {
    extensions == [] || (ExtensionAdmissible(extensions[0]) && AllAdmissible(extensions[1..]))
  }

  /** `extensions_admissible`; no required extension is understood. */
  predicate ExtensionsAdmissible(record: Json) {
    && record.Object?
    && match Get(record.members, "extensions")
       case None => true
       case Some(Object(extensions)) => AllAdmissible(extensions)
       case _ => false
  }

  /** Every extension is an object of the one supported version that is not required. */
  ghost predicate Understood(record: Json) {
    && record.Object?
    && match Get(record.members, "extensions")
       case None => true
       case Some(extensions) =>
         && extensions.Object?
         && forall m | m in extensions.members ::
              && m.value.Object?
              && Get(m.value.members, "version") == Some(String("1.0.0"))
              && Get(m.value.members, "criticality") != Some(String("required"))
  }

  lemma {:induction false} AllAdmissibleIsEach(extensions: seq<Member>)
    ensures AllAdmissible(extensions) <==> forall m | m in extensions :: ExtensionAdmissible(m)
  {
    if extensions != [] {
      AllAdmissibleIsEach(extensions[1..]);
      assert forall m | m in extensions :: m == extensions[0] || m in extensions[1..];
    }
  }

  lemma ExtensionsByMember(record: Json)
    ensures ExtensionsAdmissible(record) <==> Understood(record)
  {
    if record.Object? {
      match Get(record.members, "extensions")
      case Some(Object(extensions)) => AllAdmissibleIsEach(extensions);
      case _ =>
    }
  }

  // ---- Envelopes -----------------------------------------------------------------

  /** `envelope_admissible`. */
  function EnvelopeAdmissible(fuel: nat, record: Json, schema: Json, re: Regex): Option<Outcome> {
    if !AuditRoot(schema, re).Accepted? || !schema.Object? then Some(Raises)
    else
      var matched := Match(fuel, record, schema.members, schema.members, re);
      if matched != Some(Answer(true)) then matched
      else Some(Answer(NamespaceAdmissible(record) && ExtensionsAdmissible(record)))
  }

  /** With an audited schema every record gets an answer: it conforms to the tree that
      the schema unfolds to, its publisher owns its identifier, and it brings nothing
      this reader must understand and does not. That tree is the standard's own if no
      reference contains an escape. */
  lemma EnvelopeAnswers(fuel: nat, record: Json, schema: Json, re: Regex, utf8: Utf8)
    requires AuditRoot(schema, re).Accepted? && fuel > Depth(TreeOf(schema, re)) && Compact(utf8)
    ensures EnvelopeAdmissible(fuel, record, schema, re) ==
            Some(Answer(
              Conforms(record, TreeOf(schema, re), re) && Owned(record) && Understood(record)))
    ensures AllPlain(AllReferences(schema.members)) ==>
              forall tree :: Denotes(schema, schema.members, tree, utf8) <==> tree == TreeOf(schema, re)
  {
    hide Denotes, AllPlain, AllReferences, Owned, Understood, NamespaceAdmissible, ExtensionsAdmissible;
    OwnedByLabel(record);
    ExtensionsByMember(record);
    AuditedMatcher(schema, record, re);
    var tree := TreeOf(schema, re);
    assert Match(fuel, record, schema.members, schema.members, re) == Some(Answer(Conforms(record, tree, re)));
    if AllPlain(AllReferences(schema.members)) {
      AuditedAgrees(schema, record, re, utf8);
      forall other | Denotes(schema, schema.members, other, utf8) ensures other == tree {
        DenotesOne(schema, schema.members, other, tree, utf8);
      }
    }
  }
}
