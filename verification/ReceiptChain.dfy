/** The receipt protocol between the aggregate, the outer helper of each probe, the
    runner shell, the inner helper of each tool and the tools. Every process is
    a sequence of atomic steps, and a run is any interleaving of them. The
    processes share nothing but receipt files, the cancellation marker and
    signals. */
module ReceiptChain {
  import opened JsonValues

  // ---- State -----------------------------------------------------------------

  /** A receipt file: missing, opened and holding less than its text, or complete. */
  datatype Receipt = Missing | Partial | Complete

  /** A process helper, from its start to its exit. `Confirmed` is reached without
      a process, or through the cleanup of ProcessGroups, whose normal return
      means that the group is empty. */
  datatype Helper = Starting | Supervising | Confirmed | Writing | Finished | Gone

  /** One tool run: its helper lives in the runner's process group, the tool and its
      descendants in a session of their own. `live` says that this group has members. */
  datatype Tool = Tool(helper: Helper, live: bool, receipt: Receipt)

  /** Where the runner shell is. Up to Forgetting it may go on to another tool;
      from Awaiting on it only finalizes. */
  datatype Shell =
    | NotStarted
    | Wrapper     // the exec wrapper, before the shell
    | Ready       // between tools
    | Reserved    // the active receipt is set, its helper not yet launched
    | InTool      // the helper runs in the foreground
    | Returned    // the helper is gone, its receipt to be consumed
    | Forgetting  // the receipt is removed, still set as active
    | Awaiting    // the bounded wait of the signal path
    | Confirming  // the active receipt must be consumed
    | Clearing    // it is removed, still set as active
    | Removing    // temporary material
    | Noting      // the runner receipt is next
    | Composing   // the runner receipt is open
    | Noted       // the runner receipt is complete
    | Leaving     // finalization failed
    | Dead

  datatype Outer = Checking | Spawning | Watching | Absent | Recorded | Composed | Done | Exited

  datatype Probe = Probe(
    outer: Outer,
    marker: bool,             // the cancellation marker exists
    receipt: Receipt,         // the process receipt of the outer helper
    shell: Shell,
    exited125: bool,          // the runner leader exited with status 125
    finalizing: bool,         // sq_evidence_exit_runner has taken over: signals are ignored
    hasWork: bool,            // work_dir is set
    active: Option<nat>,      // SQ_EVIDENCE_ACTIVE_PROCESS_RECEIPT
    note: Receipt,            // the runner receipt
    strays: nat,              // other processes of the runner's group
    tools: seq<Tool>)

  datatype Phase =
    | Idle | Marked | Forbidden | Launched | Waiting | Rewaiting | Consuming
    | Consumed | Resolved | Judging | Exiting | Deleted | Retained

  datatype State = State(
    phase: Phase,
    permitted: bool,          // result_directory_removal_permitted
    interrupted: bool,        // aggregate_interrupted_status
    cancelling: bool,         // a marker was written for the probe about to start
    requested: bool,          // active_probe_cancellation_requested
    failed: bool,             // aggregate_signal_failure
    probes: seq<Probe>)       // every probe started, the last one current

  const FRESH := Probe(Checking, false, Missing, NotStarted, false, false, false, None, Missing, 0, [])
  const START := State(Idle, true, false, false, false, false, [])

  // ---- Steps -----------------------------------------------------------------

  datatype HelperStep = Start | Decline | CleanUp | Create | Finish | Exit

  datatype ShellStep =
    | Exec | WrapperFails | MakeWork | Reserve | Launch | Return | Consume | Clear
    | Error | Term | Conclude | AwaitEnds | Confirm | ConfirmFails | RemoveWork
    | CreateNote | CompleteNote | DropWork | Fail | Die(with125: bool)

  datatype OuterStep =
    | Check | Spawn | SpawnFails | CleanUpGroup | ConsumeNote | SkipNote | CreateReceipt | CompleteReceipt | Quit

  datatype ProbeStep =
    | ByOuter(o: OuterStep)
    | ByShell(r: ShellStep)
    | ByHelper(k: nat, h: HelperStep)
    | ToolGroupEmpties(k: nat)
    | KillRunnerGroup
    | StrayBorn
    | StrayDies

  datatype AggregateStep =
    | Mark | Forbid | LaunchProbe | LateCancel(written: bool) | WaitReturns | WaitInterrupted | RewaitReturns
    | ConsumeReceipt | ConsumeFails | Permit | Unmark | NextProbe | Abort | Signal(written: bool)
    | Delete | Retain

  datatype Step = Aggregate(a: AggregateStep) | On(i: nat, p: ProbeStep)

  /** The helper of a tool (`conformance/sq_evidence_process.py:372-550`, mode `tool`). */
  function HelperNext(t: Tool, h: HelperStep): Option<Tool> {
    match h
    case Start => if t.helper.Starting? then Some(t.(helper := Supervising, live := true)) else None
    case Decline => if t.helper.Starting? then Some(t.(helper := Confirmed)) else None
    case CleanUp => if t.helper.Supervising? && !t.live then Some(t.(helper := Confirmed)) else None
    case Create =>
      if t.helper.Confirmed? && t.receipt.Missing? then Some(t.(helper := Writing, receipt := Partial)) else None
    case Finish => if t.helper.Writing? then Some(t.(helper := Finished, receipt := Complete)) else None
    case Exit => if !t.helper.Gone? then Some(t.(helper := Gone)) else None
  }

  /** The receipt the shell has set as active; a tool not launched has none. */
  function ActiveReceipt(p: Probe): Receipt {
    if p.active.Some? && p.active.value < |p.tools| then p.tools[p.active.value].receipt else Missing
  }

  /** `rm` of a complete active receipt. */
  function RemoveActive(p: Probe): Probe
    requires ActiveReceipt(p).Complete?
  {
    p.(tools := p.tools[p.active.value := p.tools[p.active.value].(receipt := Missing)])
  }

  function AfterConfirm(p: Probe): Shell {
    if p.hasWork then Removing else Noting
  }

  predicate InShell(shell: Shell) {
    !shell.NotStarted? && !shell.Wrapper? && !shell.Dead?
  }

  /** The runner shell (`conformance/run-sq.sh`, `conformance/sq-evidence-lib.sh`).
      Die covers every exit and every signal that ends the shell alone. */
  function ShellNext(p: Probe, r: ShellStep, trusted: bool): Option<Probe> {
    match r
    case Exec => if p.shell.Wrapper? then Some(p.(shell := Ready)) else None
    case WrapperFails => if p.shell.Wrapper? then Some(p.(shell := Dead, exited125 := true)) else None
    case MakeWork => if p.shell.Ready? then Some(p.(hasWork := true)) else None
    case Reserve =>
      if p.shell.Ready? && p.hasWork then Some(p.(shell := Reserved, active := Some(|p.tools|))) else None
    case Launch =>
      if p.shell.Reserved? then Some(p.(shell := InTool, tools := p.tools + [Tool(Starting, false, Missing)])) else None
    case Return =>
      if p.shell.InTool? && p.tools != [] && p.tools[|p.tools| - 1].helper.Gone?
      then Some(p.(shell := Returned)) else None
    case Consume =>
      if p.shell.Returned? && ActiveReceipt(p).Complete? then Some(RemoveActive(p).(shell := Forgetting)) else None
    case Clear =>
      if p.shell.Forgetting? then Some(p.(shell := Ready, active := None))
      else if p.shell.Clearing? then Some(p.(shell := AfterConfirm(p), active := None))
      else None
    case Error => // the ERR trap: sq_evidence_exit_runner without the wait
      if InShell(p.shell) && !p.finalizing then Some(p.(shell := Confirming, finalizing := true)) else None
    case Term => // the TERM trap: sq_evidence_exit_runner with the wait
      if InShell(p.shell) && !p.finalizing then Some(p.(shell := Awaiting, finalizing := true)) else None
    case Conclude => // cleanup_work_dir, at the end of the script or as its EXIT trap, which an untrapped signal runs
      if InShell(p.shell) && !p.finalizing then Some(p.(shell := Confirming)) else None
    case AwaitEnds => // seen or given up: both go on to the same confirmation
      if p.shell.Awaiting? then Some(p.(shell := Confirming)) else None
    case Confirm =>
      if !p.shell.Confirming? then None
      else if p.active.None? then Some(p.(shell := AfterConfirm(p)))
      else if ActiveReceipt(p).Complete? then Some(RemoveActive(p).(shell := Clearing))
      else None
    case ConfirmFails => // without a work_dir, cleanup_work_dir goes on regardless
      if p.shell.Confirming? && p.active.Some? then
        Some(p.(shell := if p.hasWork || p.finalizing then Leaving else Noting))
      else None
    case RemoveWork => if p.shell.Removing? then Some(p.(shell := Noting)) else None
    case CreateNote =>
      if !p.shell.Noting? then None
      else if p.note.Missing? then Some(p.(shell := Composing, note := Partial))
      else Some(p.(shell := Leaving))
    case CompleteNote => if p.shell.Composing? then Some(p.(shell := Noted, note := Complete)) else None
    case DropWork => if p.shell.Noted? && !p.finalizing then Some(p.(hasWork := false)) else None
    case Fail => if p.shell.Removing? || p.shell.Noting? || p.shell.Composing? then Some(p.(shell := Leaving)) else None
    case Die(with125) =>
      if InShell(p.shell) && !(trusted && with125) then Some(p.(shell := Dead, exited125 := with125)) else None
  }

  predicate HelpersGone(ts: seq<Tool>) {
    forall t | t in ts :: t.helper.Gone?
  }

  predicate RunnerGroupEmpty(p: Probe) {
    (p.shell.NotStarted? || p.shell.Dead?) && p.strays == 0 && HelpersGone(p.tools)
  }

  /** The outer helper (`conformance/sq_evidence_process.py:372-550`, mode `probe`). */
  function OuterNext(p: Probe, o: OuterStep): Option<Probe> {
    match o
    case Check => if p.outer.Checking? then Some(p.(outer := if p.marker then Absent else Spawning)) else None
    case Spawn => if p.outer.Spawning? then Some(p.(outer := Watching, shell := Wrapper)) else None
    case SpawnFails => if p.outer.Spawning? then Some(p.(outer := Absent)) else None
    case CleanUpGroup => if p.outer.Watching? && RunnerGroupEmpty(p) then Some(p.(outer := Absent)) else None
    case ConsumeNote =>
      if p.outer.Absent? && p.shell.Dead? && !p.exited125 && p.note.Complete?
      then Some(p.(outer := Recorded, note := Missing)) else None
    case SkipNote =>
      if p.outer.Absent? && (p.shell.NotStarted? || p.exited125) then Some(p.(outer := Recorded)) else None
    case CreateReceipt =>
      if p.outer.Recorded? && p.receipt.Missing? then Some(p.(outer := Composed, receipt := Partial)) else None
    case CompleteReceipt => if p.outer.Composed? then Some(p.(outer := Done, receipt := Complete)) else None
    case Quit => if !p.outer.Exited? then Some(p.(outer := Exited)) else None
  }

  /** Any step in one probe. The group of the runner may be killed at any time:
      the shell and the inner helpers end, the tools in their own sessions do not. */
  function ProbeNext(p: Probe, step: ProbeStep, trusted: bool): Option<Probe> {
    match step
    case ByOuter(o) => OuterNext(p, o)
    case ByShell(r) => ShellNext(p, r, trusted)
    case ByHelper(k, h) =>
      if k >= |p.tools| then None
      else
        var t := HelperNext(p.tools[k], h);
        if t.None? then None else Some(p.(tools := p.tools[k := t.value]))
    case ToolGroupEmpties(k) =>
      if k < |p.tools| then Some(p.(tools := p.tools[k := p.tools[k].(live := false)])) else None
    case KillRunnerGroup =>
      if p.shell.NotStarted? then None
      else
        var killed := seq(|p.tools|, i requires 0 <= i < |p.tools| => p.tools[i].(helper := Gone));
        Some(p.(shell := Dead, strays := 0, tools := killed))
    case StrayBorn => if RunnerGroupEmpty(p) then None else Some(p.(strays := p.strays + 1))
    case StrayDies => if p.strays == 0 then None else Some(p.(strays := p.strays - 1))
  }

  /** `request_active_probe_cancellation`: once for each probe, the marker is written,
      or the failure to write it is recorded. */
  function Requested(s: State, written: bool): State {
    var n := |s.probes|;
    if s.requested then s
    else
      var t := s.(requested := true, failed := s.failed || !written);
      if !written then t
      else if s.phase.Marked? || s.phase.Forbidden? then t.(cancelling := true)
      else if n == 0 then t
      else t.(probes := s.probes[n - 1 := s.probes[n - 1].(marker := true)])
  }

  /** The aggregate (`scripts/check-conformance.sh:26-167`). */
  function AggregateNext(s: State, a: AggregateStep): Option<State> {
    var n := |s.probes|;
    match a
    case Mark => if s.phase.Idle? then Some(s.(phase := Marked)) else None
    case Forbid =>
      if s.phase.Marked? then Some(s.(phase := Forbidden, permitted := false, requested := false)) else None
    case LaunchProbe =>
      if s.phase.Forbidden?
      then Some(s.(phase := Launched, cancelling := false, probes := s.probes + [FRESH.(marker := s.cancelling)]))
      else None
    case LateCancel(written) =>
      if s.phase.Launched? && n > 0
      then Some((if s.interrupted then Requested(s, written) else s).(phase := Waiting))
      else None
    case WaitReturns =>
      if s.phase.Waiting? && n > 0 && s.probes[n - 1].outer.Exited?
      then Some(s.(phase := if s.interrupted then Rewaiting else Consuming)) else None
    case WaitInterrupted => if s.phase.Waiting? && s.interrupted then Some(s.(phase := Rewaiting)) else None
    case RewaitReturns =>
      if s.phase.Rewaiting? && n > 0 && s.probes[n - 1].outer.Exited? then Some(s.(phase := Consuming)) else None
    case ConsumeReceipt =>
      if s.phase.Consuming? && n > 0 && s.probes[n - 1].receipt.Complete?
      then Some(s.(phase := Consumed, probes := s.probes[n - 1 := s.probes[n - 1].(receipt := Missing)])) else None
    case ConsumeFails => if s.phase.Consuming? then Some(s.(phase := Resolved, failed := true)) else None
    case Permit => if s.phase.Consumed? then Some(s.(phase := Resolved, permitted := true)) else None
    case Unmark => if s.phase.Resolved? then Some(s.(phase := Judging)) else None
    case NextProbe => if s.phase.Judging? && !s.failed && !s.interrupted then Some(s.(phase := Idle)) else None
    case Abort => // the end of the script, a refused result, or any failing command
      if s.phase.Exiting? || s.phase.Deleted? || s.phase.Retained? then None else Some(s.(phase := Exiting))
    case Signal(written) =>
      if s.interrupted || s.phase.Rewaiting? || s.phase.Exiting? || s.phase.Deleted? || s.phase.Retained? then None
      else if s.phase.Idle? || s.phase.Judging? then Some(s.(interrupted := true, phase := Exiting))
      else Some(Requested(s, written).(interrupted := true))
    case Delete => if s.phase.Exiting? && s.permitted then Some(s.(phase := Deleted)) else None
    case Retain => if s.phase.Exiting? then Some(s.(phase := Retained)) else None
  }

  function Next(s: State, step: Step, trusted: bool): Option<State> {
    match step
    case Aggregate(a) => AggregateNext(s, a)
    case On(i, p) =>
      if i >= |s.probes| then None
      else
        var q := ProbeNext(s.probes[i], p, trusted);
        if q.None? then None else Some(s.(probes := s.probes[i := q.value]))
  }

  /** The state an interleaving reaches; None when a step of it is not enabled.
      `trusted` says that the runner shell never exits with 125 of its own. */
  function Run(steps: seq<Step>, trusted: bool): Option<State> {
    if steps == [] then Some(START)
    else
      var before := Run(steps[..|steps| - 1], trusted);
      if before.None? then None else Next(before.value, steps[|steps| - 1], trusted)
  }
}
