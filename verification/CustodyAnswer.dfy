/** The worker's answer: which messages the adapter accepts as evidence of an unwrap. */
module CustodyAnswer {
  import opened JsonValues

  type Bytes = seq<bv8>

  datatype Request = Request(envelope: Bytes, profileRevision: string, pluginDigest: string, ageDigest: string)

  datatype Evidence = Evidence(
    uvMode: string, timingClass: string, profileRevision: string, pluginDigest: string, ageDigest: string,
    plaintextSha256: string)

  /** Library code that is not part of this model: strict JSON decoding,
      `bytes.fromhex`, and SHA-256 as hexadecimal text. */
  datatype Library = Library(Decode: Bytes -> Option<Json>, FromHex: string -> Option<Bytes>, Sha256: Bytes -> string)

  datatype Why =
    | NotMainThread | EmptyEnvelope | EnvelopeTooLarge
    | WorkerUnavailable | WorkerTimeout | OutputTooLarge | WorkerIo | WorkerOwnership | WorkerGroup | WorkerFailure
    | WorkerInterrupted
    | MalformedOutput | Rejected | Incomplete | MalformedPlaintext | DigestMismatch | Mismatch
    | UnknownMode | UnknownTiming

  datatype Answer = Accepted(plaintext: Bytes, evidence: Evidence) | Refused(why: Why)

  const MEMBERS := {
    "status", "plaintext", "plaintext_sha256", "profile_revision", "plugin_digest", "age_digest", "uv_mode",
    "timing_class"
  }
  const MODES := {"built-in", "pin"}
  const TIMINGS := {"interactive", "bounded"}

  function Text(ms: seq<Member>, name: string): Option<string> {
    match Get(ms, name) case Some(String(s)) => Some(s) case _ => None
  }

  /** The checks of the answer, in the adapter's order (`fido_custody.py:431-483`). */
  function Judge(output: Bytes, request: Request, lib: Library): Answer {
    var message := lib.Decode(output);
    if message.None? then Refused(MalformedOutput)
    else if !message.value.Object? || Text(message.value.members, "status") != Some("ok") then Refused(Rejected)
    else
      var ms := message.value.members;
      if Names(ms) != MEMBERS then Refused(Incomplete)
      else
        var hex := Text(ms, "plaintext");
        var plaintext := if hex.None? then None else lib.FromHex(hex.value);
        if plaintext.None? then Refused(MalformedPlaintext) else JudgeFields(ms, plaintext.value, request, lib)
  }

  /** Those that compare the other members. */
  function JudgeFields(ms: seq<Member>, plaintext: Bytes, request: Request, lib: Library): Answer {
    var digest := lib.Sha256(plaintext);
    if Text(ms, "plaintext_sha256") != Some(digest) then Refused(DigestMismatch)
    else if Text(ms, "profile_revision") != Some(request.profileRevision) then Refused(Mismatch)
    else if Text(ms, "plugin_digest") != Some(request.pluginDigest) then Refused(Mismatch)
    else if Text(ms, "age_digest") != Some(request.ageDigest) then Refused(Mismatch)
    else if Text(ms, "uv_mode").None? || Text(ms, "uv_mode").value !in MODES then Refused(UnknownMode)
    else if Text(ms, "timing_class").None? || Text(ms, "timing_class").value !in TIMINGS
    then Refused(UnknownTiming)
    else
      Accepted(plaintext,
               Evidence(Text(ms, "uv_mode").value, Text(ms, "timing_class").value, request.profileRevision,
                        request.pluginDigest, request.ageDigest, digest))
  }

  /** What an accepted answer vouches for. */
  ghost predicate Vouches(ms: seq<Member>, request: Request, plaintext: Bytes, evidence: Evidence, lib: Library) {
    && Names(ms) == {
         "status", "plaintext", "plaintext_sha256", "profile_revision", "plugin_digest", "age_digest", "uv_mode",
         "timing_class"
       }
    && Get(ms, "status") == Some(String("ok"))
    && Get(ms, "profile_revision") == Some(String(request.profileRevision))
    && Get(ms, "plugin_digest") == Some(String(request.pluginDigest))
    && Get(ms, "age_digest") == Some(String(request.ageDigest))
    && Get(ms, "plaintext_sha256") == Some(String(lib.Sha256(plaintext)))
    && Get(ms, "uv_mode") == Some(String(evidence.uvMode)) && evidence.uvMode in {"built-in", "pin"}
    && Get(ms, "timing_class") == Some(String(evidence.timingClass))
    && evidence.timingClass in {"interactive", "bounded"}
    && (exists hex :: Get(ms, "plaintext") == Some(String(hex)) && lib.FromHex(hex) == Some(plaintext))
    && evidence.profileRevision == request.profileRevision
    && evidence.pluginDigest == request.pluginDigest
    && evidence.ageDigest == request.ageDigest
    && evidence.plaintextSha256 == lib.Sha256(plaintext)
  }

  /** The output decodes to an answer that vouches for the plaintext. */
  ghost predicate Vouched(output: Bytes, request: Request, lib: Library, plaintext: Bytes, evidence: Evidence) {
    && lib.Decode(output).Some? && lib.Decode(output).value.Object?
    && Vouches(lib.Decode(output).value.members, request, plaintext, evidence, lib)
  }

  /** The checks accept exactly the answers that vouch for the plaintext. */
  lemma JudgesExactly(output: Bytes, request: Request, lib: Library, plaintext: Bytes, evidence: Evidence)
    ensures Judge(output, request, lib) == Accepted(plaintext, evidence) <==>
              Vouched(output, request, lib, plaintext, evidence)
  {
    hide Text;
    if lib.Decode(output).Some? && lib.Decode(output).value.Object? {
      TextIsString(lib.Decode(output).value.members);
    }
  }

  lemma TextIsString(ms: seq<Member>)
    ensures forall name, s :: Text(ms, name) == Some(s) <==> Get(ms, name) == Some(String(s))
  {
  }

  // ---- Refusals ------------------------------------------------------------------------

  const ORDER := [
    MalformedOutput, Rejected, Incomplete, MalformedPlaintext, DigestMismatch, Mismatch, UnknownMode, UnknownTiming
  ]

  function Members(output: Bytes, lib: Library): seq<Member> {
    match lib.Decode(output) case Some(Object(ms)) => ms case _ => []
  }

  function Plaintext(ms: seq<Member>, lib: Library): Option<Bytes> {
    match Get(ms, "plaintext") case Some(String(hex)) => lib.FromHex(hex) case _ => None
  }

  /** What is wrong with an answer, each on its own. */
  ghost predicate Faulty(why: Why, output: Bytes, request: Request, lib: Library) {
    var ms := Members(output, lib);
    match why
    case MalformedOutput => lib.Decode(output).None?
    case Rejected => Get(ms, "status") != Some(String("ok"))
    case Incomplete =>
      Names(ms) != {
        "status", "plaintext", "plaintext_sha256", "profile_revision", "plugin_digest", "age_digest", "uv_mode",
        "timing_class"
      }
    case MalformedPlaintext => Plaintext(ms, lib).None?
    case _ => Plaintext(ms, lib).Some? && FaultyField(why, ms, Plaintext(ms, lib).value, request, lib)
  }

  ghost predicate FaultyField(why: Why, ms: seq<Member>, plaintext: Bytes, request: Request, lib: Library) {
    match why
    case DigestMismatch => Get(ms, "plaintext_sha256") != Some(String(lib.Sha256(plaintext)))
    case Mismatch =>
      || Get(ms, "profile_revision") != Some(String(request.profileRevision))
      || Get(ms, "plugin_digest") != Some(String(request.pluginDigest))
      || Get(ms, "age_digest") != Some(String(request.ageDigest))
    case UnknownMode =>
      match Get(ms, "uv_mode") {
        case Some(String(mode)) => mode !in {"built-in", "pin"}
        case _ => true
      }
    case UnknownTiming =>
      match Get(ms, "timing_class") {
        case Some(String(timing)) => timing !in {"interactive", "bounded"}
        case _ => true
      }
    case _ => false
  }

  lemma JudgeStarts(output: Bytes, request: Request, lib: Library)
    ensures var answer := Judge(output, request, lib);
            if Faulty(MalformedOutput, output, request, lib) then answer == Refused(MalformedOutput)
            else if Faulty(Rejected, output, request, lib) then answer == Refused(Rejected)
            else if Faulty(Incomplete, output, request, lib) then answer == Refused(Incomplete)
            else if Faulty(MalformedPlaintext, output, request, lib) then answer == Refused(MalformedPlaintext)
            else
              var ms := Members(output, lib);
              Plaintext(ms, lib).Some? && answer == JudgeFields(ms, Plaintext(ms, lib).value, request, lib)
  {
    hide Text, Names, JudgeFields, FaultyField;
    TextIsString(Members(output, lib));
  }

  lemma FieldsInOrder(ms: seq<Member>, plaintext: Bytes, request: Request, lib: Library)
    ensures var answer := JudgeFields(ms, plaintext, request, lib);
            if FaultyField(DigestMismatch, ms, plaintext, request, lib) then answer == Refused(DigestMismatch)
            else if FaultyField(Mismatch, ms, plaintext, request, lib) then answer == Refused(Mismatch)
            else if FaultyField(UnknownMode, ms, plaintext, request, lib) then answer == Refused(UnknownMode)
            else if FaultyField(UnknownTiming, ms, plaintext, request, lib) then answer == Refused(UnknownTiming)
            else answer.Accepted?
  {
    hide Names, Get;
  }

  /** The four later faults are faults of the fields. */
  lemma LaterFaults(output: Bytes, request: Request, lib: Library)
    requires Plaintext(Members(output, lib), lib).Some?
    ensures forall why | why in {DigestMismatch, Mismatch, UnknownMode, UnknownTiming} ::
              var ms := Members(output, lib);
              Faulty(why, output, request, lib) <==> FaultyField(why, ms, Plaintext(ms, lib).value, request, lib)
  {
    hide FaultyField, Names, Get;
  }

  /** An answer is refused for the first of the eight faults that it has. */
  lemma RefusesForTheFirst(output: Bytes, request: Request, lib: Library, k: nat)
    requires k < |ORDER|
    ensures Judge(output, request, lib) == Refused(ORDER[k]) <==>
              Faulty(ORDER[k], output, request, lib) && forall i | 0 <= i < k :: !Faulty(ORDER[i], output, request, lib)
    ensures Judge(output, request, lib).Refused? ==> Judge(output, request, lib).why in ORDER
  {
    hide Judge, JudgeFields, Faulty, FaultyField, Plaintext, Members;
    JudgeStarts(output, request, lib);
    var ms := Members(output, lib);
    if Plaintext(ms, lib).Some? {
      FieldsInOrder(ms, Plaintext(ms, lib).value, request, lib);
      LaterFaults(output, request, lib);
    }
    assert ORDER[0] == MalformedOutput && ORDER[1] == Rejected && ORDER[2] == Incomplete
        && ORDER[3] == MalformedPlaintext && ORDER[4] == DigestMismatch && ORDER[5] == Mismatch
        && ORDER[6] == UnknownMode && ORDER[7] == UnknownTiming && |ORDER| == 8;
  }
}
