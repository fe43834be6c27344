/** The helpers of the receipt chain are what `run_process` is: every state that it can
    leave behind at any moment is one that the transition system reaches, and it goes
    from one to the next by steps of that system. */
module HelperRefinement {
  import opened JsonValues
  import opened ReceiptChain
  import opened EvidenceProcess

  // ---- The helper of a tool --------------------------------------------------------

  datatype ToolStep = Helps(h: HelperStep) | GroupEmpties

  function ToolNext(t: Tool, step: ToolStep): Option<Tool> {
    match step
    case Helps(h) => HelperNext(t, h)
    case GroupEmpties => Some(t.(live := false))
  }

  const STARTING := Tool(Starting, false, Missing)

  function ToolRun(from: Tool, steps: seq<ToolStep>): Option<Tool> {
    if steps == [] then Some(from)
    else
      var before := ToolRun(from, steps[..|steps| - 1]);
      if before.None? then None else ToolNext(before.value, steps[|steps| - 1])
  }

  /** A running `run_process` as the transition system sees it. */
  ghost function AsTool(e: Execution): Tool
    reads e, e.process
  {
    var helper :=
      if e.receipt.Complete? then Finished
      else if e.receipt.Partial? then Writing
      else if e.cleanupComplete then Confirmed
      else if e.started then Supervising
      else Starting;
    Tool(helper, e.started && e.process.members != {}, e.receipt)
  }

  lemma ToolGoes(from: Tool, steps: seq<ToolStep>, step: ToolStep, t: Tool)
    returns (longer: seq<ToolStep>, u: Tool)
    requires ToolRun(from, steps) == Some(t) && ToolNext(t, step).Some?
    ensures ToolRun(from, longer) == Some(u) && u == ToolNext(t, step).value
  {
    longer, u := steps + [step], ToolNext(t, step).value;
    assert longer[..|longer| - 1] == steps;
  }

  /** What holds of a helper that was not killed, and of its tool. */
  predicate Sound(t: Tool) {
    match t.helper
    case Starting => !t.live && t.receipt.Missing?
    case Supervising => t.receipt.Missing?
    case Confirmed => !t.live && t.receipt.Missing?
    case Writing => !t.live && t.receipt.Partial?
    case Finished => !t.live && t.receipt.Complete?
    case Gone => false
  }

  function Rank(h: Helper): nat {
    match h
    case Starting => 0
    case Supervising => 1
    case Confirmed => 2
    case Writing => 3
    case Finished => 4
    case Gone => 5
  }

  /** No step back; a tool lives only if it did or has just been started. */
  predicate Forward(t: Tool, u: Tool) {
    Rank(t.helper) <= Rank(u.helper) && (u.live && !t.live ==> t.helper.Starting?)
  }

  /** Whatever is not a step back is steps of the helper and of its tool. */
  lemma ForwardIsSteps(t: Tool, u: Tool, declined: bool) returns (steps: seq<ToolStep>)
    requires Sound(t) && Sound(u) && Forward(t, u)
    ensures ToolRun(t, steps) == Some(u)
  {
    hide ToolRun;
    var v;
    steps, v := NoSteps(t);
    if v.helper.Starting? && !u.helper.Starting? {
      var first := if declined && !u.helper.Supervising? then Decline else Start;
      steps, v := ToolGoes(t, steps, Helps(first), v);
    }
    if v.live && !u.live {
      steps, v := ToolGoes(t, steps, GroupEmpties, v);
    }
    if v.helper.Supervising? && !u.helper.Supervising? {
      steps, v := ToolGoes(t, steps, Helps(CleanUp), v);
    }
    if v.helper.Confirmed? && !u.helper.Confirmed? {
      steps, v := ToolGoes(t, steps, Helps(Create), v);
    }
    if v.helper.Writing? && !u.helper.Writing? {
      steps, v := ToolGoes(t, steps, Helps(HelperStep.Finish), v);
    }
  }

  lemma NoSteps(t: Tool) returns (steps: seq<ToolStep>, v: Tool)
    ensures ToolRun(t, steps) == Some(v) && v == t
  {
    steps, v := [], t;
  }

  lemma ExecutionIsSound(e: Execution)
    requires e.Valid()
    ensures Sound(AsTool(e))
  {
  }

  /** At every moment of a run of `run_process`: its state is one that the helper of the
      receipt chain reaches, by the steps of that helper and of its tool alone. */
  lemma RunProcessIsHelper(e: Execution) returns (steps: seq<ToolStep>)
    requires e.Valid()
    ensures ToolRun(STARTING, steps) == Some(AsTool(e))
  {
    ExecutionIsSound(e);
    steps := ForwardIsSteps(STARTING, AsTool(e), !e.started);
  }

  /** And from each moment to any later one it goes by such steps: what every method of
      `run_process` ensures, `Advanced`, is a run of the helper from the state before to
      the state after. */
  twostate lemma RunProcessGoesOn(e: Execution) returns (steps: seq<ToolStep>)
    requires old(e.Valid()) && e.Valid() && e.Advanced()
    ensures ToolRun(old(AsTool(e)), steps) == Some(AsTool(e))
  {
    hide ToolRun;
    steps := ForwardIsSteps(old(AsTool(e)), AsTool(e), !e.started);
  }

  // ---- The outer helper --------------------------------------------------------------

  /** The steps of the outer helper after the runner's group is empty. */
  function OuterRun(p: Probe, steps: seq<OuterStep>): Option<Probe>
    decreases |steps|
  {
    if steps == [] then Some(p)
    else
      var next := OuterNext(p, steps[0]);
      if next.None? then None else OuterRun(next.value, steps[1..])
  }

  /** The probe says of the runner what the execution knows of it: its group is empty, its
      status, and whether there is a receipt of its own to consume. */
  ghost predicate Describes(p: Probe, e: Execution)
    reads e, e.process
  {
    && p.outer.Watching? && p.receipt.Missing? && RunnerGroupEmpty(p) && p.shell.Dead?
    && (p.exited125 <==> e.process.returncode == Some(125))
    && (e.noteConsumed ==> p.note.Complete?)
  }

  /** A process receipt that `run_process` leaves for a started probe is one that the
      outer helper of the receipt chain writes, after the same confirmations. */
  lemma ReceiptIsOuterHelpers(e: Execution, p: Probe) returns (steps: seq<OuterStep>)
    requires e.Valid() && e.mode.ForProbe? && e.started && !e.receipt.Missing? && Describes(p, e)
    ensures OuterRun(p, steps).Some? && OuterRun(p, steps).value.receipt == e.receipt
  {
    var note := if p.exited125 then SkipNote else ConsumeNote;
    var absent := p.(outer := Absent);
    var recorded := absent.(outer := Recorded, note := if p.exited125 then p.note else Missing);
    var composed := recorded.(outer := Composed, receipt := Partial);
    if e.receipt.Partial? {
      steps := OuterGoes(recorded, CreateReceipt, composed, []);
    } else {
      steps := OuterGoes(composed, CompleteReceipt, composed.(outer := Done, receipt := Complete), []);
      steps := OuterGoes(recorded, CreateReceipt, composed, steps);
    }
    steps := OuterGoes(absent, note, recorded, steps);
    steps := OuterGoes(p, CleanUpGroup, absent, steps);
  }

  lemma OuterGoes(p: Probe, step: OuterStep, q: Probe, rest: seq<OuterStep>) returns (steps: seq<OuterStep>)
    requires OuterNext(p, step) == Some(q)
    ensures OuterRun(p, steps) == OuterRun(q, rest)
  {
    steps := [step] + rest;
    assert steps[1..] == rest;
  }
}
