/** Every receipt of the chain tells the truth in every interleaving, so that storage is
    deleted only when no process that could still use it is left. */
module ReceiptSafety {
  import opened JsonValues
  import opened ReceiptChain

  // ---- The invariant of one probe --------------------------------------------

  /** What a helper's phase and its receipt say about its tool group. */
  ghost predicate ToolInv(t: Tool) {
    && (t.live ==> t.helper.Supervising? || t.helper.Gone?)
    && (t.live ==> t.receipt.Missing?)
    && (!t.receipt.Missing? ==> t.helper.Writing? || t.helper.Finished? || t.helper.Gone?)
  }

  /** The group of this tool is empty and stays so. */
  ghost predicate Settled(t: Tool) {
    !t.live && !t.helper.Starting? && !t.helper.Supervising?
  }

  ghost predicate AllSettled(ts: seq<Tool>) {
    forall t | t in ts :: Settled(t)
  }

  ghost predicate ToolsInv(ts: seq<Tool>) {
    forall t | t in ts :: ToolInv(t)
  }

  /** Only the tool the shell has set as active may still have processes. */
  ghost predicate OthersSettled(ts: seq<Tool>, active: Option<nat>) {
    forall k | 0 <= k < |ts| :: Settled(ts[k]) || active == Some(k)
  }

  /** From here the shell starts no further tool. */
  predicate Closed(shell: Shell) {
    !shell.NotStarted? && !shell.Wrapper? && !shell.Ready? && !shell.Reserved? && !shell.InTool?
    && !shell.Returned? && !shell.Forgetting?
  }

  ghost predicate ShellInv(p: Probe) {
    && ToolsInv(p.tools)
    && OthersSettled(p.tools, p.active)
    && (p.shell.NotStarted? || p.shell.Wrapper? ==> p.tools == [] && p.active.None? && p.note.Missing?)
    && (p.shell.NotStarted? ==> p.strays == 0)
    && (p.shell.Ready? ==> p.active.None?)
    && (p.shell.Reserved? ==> p.active == Some(|p.tools|))
    && (!p.hasWork ==> p.active.None?)
    && (p.shell.Forgetting? || p.shell.Clearing? ==> AllSettled(p.tools))
    && (p.shell.Removing? || p.shell.Noting? || p.shell.Composing? || p.shell.Noted? ==> p.active.None?)
    && (!p.note.Missing? ==> Closed(p.shell) && AllSettled(p.tools))
  }

  /** No process of this probe is left, and none can be started any more. */
  ghost predicate Over(p: Probe) {
    && !p.outer.Checking? && !p.outer.Spawning?
    && RunnerGroupEmpty(p)
    && AllSettled(p.tools)
  }

  ghost predicate OuterInv(p: Probe) {
    && (p.outer.Checking? || p.outer.Spawning? ==> p.shell.NotStarted?)
    && (p.outer.Watching? ==> !p.shell.NotStarted?)
    && (p.outer.Absent? ==> RunnerGroupEmpty(p))
    && (p.exited125 ==> p.shell.Dead? && p.tools == [])
    && (p.outer.Recorded? || p.outer.Composed? || p.outer.Done? || !p.receipt.Missing? ==> Over(p))
  }

  ghost predicate ProbeInv(p: Probe) {
    ShellInv(p) && OuterInv(p)
  }

  // ---- Steps of one probe keep it --------------------------------------------

  lemma HelperKeeps(p: Probe, k: nat, h: HelperStep)
    requires ProbeInv(p) && k < |p.tools| && HelperNext(p.tools[k], h).Some?
    ensures var q := ProbeNext(p, ByHelper(k, h), true).value;
            ProbeInv(q) && (Over(p) ==> Over(q))
  {
    var t := p.tools[k];
    var u := HelperNext(t, h).value;
    var q := p.(tools := p.tools[k := u]);
    assert t in p.tools && ToolInv(t) && ToolInv(u);
    assert Settled(t) ==> Settled(u);
    KeepsAfterToolUpdate(p, k, u);
  }

  /** A tool may move on as long as it breaks nothing settled. */
  lemma KeepsAfterToolUpdate(p: Probe, k: nat, u: Tool)
    requires ProbeInv(p) && k < |p.tools| && ToolInv(u)
    requires Settled(p.tools[k]) ==> Settled(u)
    requires p.tools[k].helper.Gone? ==> u.helper.Gone?
    ensures var q := p.(tools := p.tools[k := u]);
            && ProbeInv(q) && (AllSettled(p.tools) ==> AllSettled(q.tools))
            && (RunnerGroupEmpty(p) ==> RunnerGroupEmpty(q))
  {
    var q := p.(tools := p.tools[k := u]);
    assert forall i | 0 <= i < |q.tools| :: q.tools[i] == u || (q.tools[i] == p.tools[i] && p.tools[i] in p.tools);
    assert p.tools[k] in p.tools;
    assert AllSettled(p.tools) ==> AllSettled(q.tools);
    assert RunnerGroupEmpty(p) ==> RunnerGroupEmpty(q);
    assert OthersSettled(q.tools, q.active);
  }

  lemma KillKeeps(p: Probe)
    requires ProbeInv(p) && !p.shell.NotStarted?
    ensures var q := ProbeNext(p, KillRunnerGroup, true).value;
            ProbeInv(q) && (Over(p) ==> Over(q))
  {
    var q := ProbeNext(p, KillRunnerGroup, true).value;
    forall i | 0 <= i < |q.tools|
      ensures ToolInv(q.tools[i]) && (Settled(p.tools[i]) ==> Settled(q.tools[i])) && q.tools[i].helper.Gone?
    {
      assert p.tools[i] in p.tools;
    }
    assert AllSettled(p.tools) ==> AllSettled(q.tools);
    assert OthersSettled(q.tools, q.active);
  }

  lemma EnvironmentKeeps(p: Probe, step: ProbeStep)
    requires ProbeInv(p) && ProbeNext(p, step, true).Some?
    requires step.ToolGroupEmpties? || step.StrayBorn? || step.StrayDies?
    ensures var q := ProbeNext(p, step, true).value;
            ProbeInv(q) && (Over(p) ==> Over(q))
  {
    if step.ToolGroupEmpties? {
      var t := p.tools[step.k];
      assert t in p.tools;
      KeepsAfterToolUpdate(p, step.k, t.(live := false));
    }
  }

  lemma OuterKeeps(p: Probe, o: OuterStep)
    requires ProbeInv(p) && OuterNext(p, o).Some?
    ensures ProbeInv(OuterNext(p, o).value) && (Over(p) ==> Over(OuterNext(p, o).value))
  {
  }

  /** Consuming the active receipt settles the last tool that was not. */
  lemma RemoveActiveKeeps(p: Probe)
    requires ProbeInv(p) && ActiveReceipt(p).Complete?
    ensures ProbeInv(RemoveActive(p)) && AllSettled(RemoveActive(p).tools) && AllSettled(p.tools)
    ensures Over(p) ==> Over(RemoveActive(p))
  {
    var k := p.active.value;
    var t := p.tools[k];
    assert t in p.tools && ToolInv(t) && Settled(t);
    assert AllSettled(p.tools);
    KeepsAfterToolUpdate(p, k, t.(receipt := Missing));
  }

  lemma LaunchKeeps(p: Probe)
    requires ProbeInv(p) && p.shell.Reserved?
    ensures ProbeInv(ShellNext(p, Launch, true).value)
  {
    var q := ShellNext(p, Launch, true).value;
    assert forall i | 0 <= i < |q.tools| :: i < |p.tools| ==> q.tools[i] == p.tools[i];
  }

  lemma SettledIsOthersSettled(ts: seq<Tool>, active: Option<nat>)
    ensures AllSettled(ts) ==> OthersSettled(ts, active)
    ensures OthersSettled(ts, active) && (active.None? || active.value >= |ts|) ==> AllSettled(ts)
  {
    assert forall k | 0 <= k < |ts| :: ts[k] in ts;
  }

  /** Steps that open the way to a tool. */
  predicate Opens(r: ShellStep) {
    r.Exec? || r.WrapperFails? || r.MakeWork? || r.Reserve? || r.Return?
  }

  lemma OpeningKeeps(p: Probe, r: ShellStep)
    requires ProbeInv(p) && ShellNext(p, r, true).Some? && Opens(r)
    ensures ProbeInv(ShellNext(p, r, true).value)
  {
    hide AllSettled, OthersSettled, ToolsInv, HelpersGone;
    SettledIsOthersSettled(p.tools, p.active);
    SettledIsOthersSettled(p.tools, ShellNext(p, r, true).value.active);
  }

  lemma ClosingKeeps(p: Probe, r: ShellStep)
    requires ProbeInv(p) && ShellNext(p, r, true).Some?
    requires !Opens(r) && !r.Launch? && !r.Consume? && !(r.Confirm? && p.active.Some?)
    ensures ProbeInv(ShellNext(p, r, true).value)
  {
    hide AllSettled, OthersSettled, ToolsInv, HelpersGone;
    SettledIsOthersSettled(p.tools, p.active);
    SettledIsOthersSettled(p.tools, ShellNext(p, r, true).value.active);
    assert ShellNext(p, r, true).value.tools == p.tools;
  }

  lemma ShellKeeps(p: Probe, r: ShellStep)
    requires ProbeInv(p) && ShellNext(p, r, true).Some?
    ensures ProbeInv(ShellNext(p, r, true).value) && !Over(p)
    ensures ShellNext(p, r, true).value.outer == p.outer
  {
    if r.Launch? {
      LaunchKeeps(p);
    } else if r.Consume? || (r.Confirm? && p.active.Some?) {
      RemoveActiveKeeps(p);
      assert RemoveActive(p).active == p.active;
    } else if Opens(r) {
      OpeningKeeps(p, r);
    } else {
      ClosingKeeps(p, r);
    }
  }

  lemma ProbeKeeps(p: Probe, step: ProbeStep)
    requires ProbeInv(p) && ProbeNext(p, step, true).Some?
    ensures var q := ProbeNext(p, step, true).value;
            && ProbeInv(q)
            && (Over(p) ==> Over(q))
            && (p.outer.Exited? ==> q.outer.Exited?)
  {
    hide ProbeInv, Over, ShellNext, HelperNext;
    match step
    case ByOuter(o) => OuterKeeps(p, o);
    case ByShell(r) => ShellKeeps(p, r);
    case ByHelper(k, h) => HelperKeeps(p, k, h);
    case KillRunnerGroup => KillKeeps(p);
    case _ => EnvironmentKeeps(p, step);
  }

  // ---- The invariant of the aggregate ----------------------------------------

  /** This probe no longer needs the result directory. */
  ghost predicate Released(p: Probe) {
    Over(p) && p.outer.Exited?
  }

  /** Phases in which the current probe may be running. */
  predicate MayRun(phase: Phase) {
    phase.Launched? || phase.Waiting? || phase.Rewaiting? || phase.Consuming?
  }

  ghost predicate AllReleased(ps: seq<Probe>) {
    forall i | 0 <= i < |ps| :: Released(ps[i])
  }

  ghost predicate EarlierReleased(ps: seq<Probe>) {
    forall i | 0 <= i < |ps| - 1 :: Released(ps[i])
  }

  ghost predicate ProbesInv(ps: seq<Probe>) {
    forall p | p in ps :: ProbeInv(p)
  }

  ghost predicate Inv(s: State) {
    && ProbesInv(s.probes)
    && EarlierReleased(s.probes)
    && (s.permitted || s.phase.Forbidden? || s.phase.Consumed? || s.phase.Deleted? ==> AllReleased(s.probes))
    && (MayRun(s.phase) ==> s.probes != [])
    && (MayRun(s.phase) || s.phase.Forbidden? || s.phase.Consumed? ==> !s.permitted)
    && (s.phase.Consuming? ==> s.probes[|s.probes| - 1].outer.Exited?)
    && (s.phase.Idle? || s.phase.Marked? ==> s.permitted)
    && ((s.phase.Resolved? || s.phase.Judging?) && !s.failed ==> s.permitted)
  }

  lemma OnProbeKeeps(s: State, i: nat, p: ProbeStep)
    requires Inv(s) && Next(s, On(i, p), true).Some?
    ensures Inv(Next(s, On(i, p), true).value)
  {
    hide ProbeNext, ProbeInv, Over;
    assert s.probes[i] in s.probes;
    ProbeKeeps(s.probes[i], p);
    var t := Next(s, On(i, p), true).value;
    assert forall j | 0 <= j < |t.probes| :: j != i ==> t.probes[j] == s.probes[j] && s.probes[j] in s.probes;
  }

  /** Only the marker or the process receipt of the current probe changes. */
  lemma TouchKeeps(s: State, p: Probe)
    requires Inv(s) && s.probes != []
    requires var q := s.probes[|s.probes| - 1];
             p == q.(marker := p.marker) || p == q.(receipt := Missing)
    ensures var t := s.(probes := s.probes[|s.probes| - 1 := p]);
            Inv(t) && (Released(s.probes[|s.probes| - 1]) ==> Released(p))
  {
    var n := |s.probes|;
    var q := s.probes[n - 1];
    assert q in s.probes && ProbeInv(q) && ProbeInv(p);
    var t := s.(probes := s.probes[n - 1 := p]);
    assert forall j | 0 <= j < n :: j < n - 1 ==> t.probes[j] == s.probes[j] && s.probes[j] in s.probes;
  }

  lemma LaunchProbeKeeps(s: State)
    requires Inv(s) && s.phase.Forbidden?
    requires !s.permitted
    ensures Inv(AggregateNext(s, LaunchProbe).value)
  {
    var t := AggregateNext(s, LaunchProbe).value;
    var n := |s.probes|;
    assert forall j | 0 <= j < n :: t.probes[j] == s.probes[j] && s.probes[j] in s.probes;
    assert ProbeInv(t.probes[n]);
  }

  lemma ConsumeReceiptKeeps(s: State)
    requires Inv(s) && AggregateNext(s, ConsumeReceipt).Some?
    ensures Inv(AggregateNext(s, ConsumeReceipt).value)
  {
    var n := |s.probes|;
    var p := s.probes[n - 1];
    assert p in s.probes && Released(p);
    TouchKeeps(s, p.(receipt := Missing));
    var t := AggregateNext(s, ConsumeReceipt).value;
    assert forall j | 0 <= j < n :: Released(t.probes[j]);
  }

  /** A request to stop changes nothing that safety rests on. */
  lemma RequestKeeps(s: State, written: bool)
    requires Inv(s)
    ensures Inv(Requested(s, written)) && Requested(s, written).phase == s.phase
  {
    hide ProbesInv, EarlierReleased, AllReleased;
    if s.probes != [] {
      TouchKeeps(s, s.probes[|s.probes| - 1].(marker := true));
    }
  }

  /** The steps that may request it. */
  lemma CancelKeeps(s: State, a: AggregateStep)
    requires Inv(s) && AggregateNext(s, a).Some? && (a.Signal? || a.LateCancel?)
    ensures Inv(AggregateNext(s, a).value)
  {
    hide ProbesInv, EarlierReleased, AllReleased, Requested;
    RequestKeeps(s, a.written);
  }

  /** The steps that touch no probe: those up to the end of a wait, */
  lemma WaitingKeeps(s: State, a: AggregateStep)
    requires Inv(s) && AggregateNext(s, a).Some?
    requires a.Mark? || a.Forbid? || a.WaitReturns? || a.WaitInterrupted? || a.RewaitReturns?
    ensures Inv(AggregateNext(s, a).value)
  {
    hide ProbesInv, EarlierReleased, AllReleased, Requested;
    assert AggregateNext(s, a).value.probes == s.probes;
  }

  /** those that settle a probe, */
  lemma SettlingKeeps(s: State, a: AggregateStep)
    requires Inv(s) && AggregateNext(s, a).Some?
    requires a.ConsumeFails? || a.Permit? || a.Unmark? || a.NextProbe?
    ensures Inv(AggregateNext(s, a).value)
  {
    hide ProbesInv, EarlierReleased, AllReleased, Requested;
    assert AggregateNext(s, a).value.probes == s.probes;
  }

  /** and those that end. */
  lemma EndingKeeps(s: State, a: AggregateStep)
    requires Inv(s) && AggregateNext(s, a).Some?
    requires a.Abort? || a.Delete? || a.Retain?
    ensures Inv(AggregateNext(s, a).value)
  {
    hide ProbesInv, EarlierReleased, AllReleased, Requested;
    assert AggregateNext(s, a).value.probes == s.probes;
  }

  lemma AggregateKeeps(s: State, a: AggregateStep)
    requires Inv(s) && AggregateNext(s, a).Some?
    ensures Inv(AggregateNext(s, a).value)
  {
    hide Inv;
    match a
    case Signal(_) => CancelKeeps(s, a);
    case LateCancel(_) => CancelKeeps(s, a);
    case ConsumeReceipt => ConsumeReceiptKeeps(s);
    case LaunchProbe => LaunchingKeeps(s);
    case Abort => EndingKeeps(s, a);
    case Delete => EndingKeeps(s, a);
    case Retain => EndingKeeps(s, a);
    case ConsumeFails => SettlingKeeps(s, a);
    case Permit => SettlingKeeps(s, a);
    case Unmark => SettlingKeeps(s, a);
    case NextProbe => SettlingKeeps(s, a);
    case _ => WaitingKeeps(s, a);
  }

  lemma LaunchingKeeps(s: State)
    requires Inv(s) && AggregateNext(s, LaunchProbe).Some?
    ensures Inv(AggregateNext(s, LaunchProbe).value)
  {
    hide ProbesInv, EarlierReleased, AllReleased;
    LaunchProbeKeeps(s);
  }

  lemma {:induction false} RunKeeps(steps: seq<Step>)
    requires Run(steps, true).Some?
    ensures Inv(Run(steps, true).value)
  {
    if steps != [] {
      var before := Run(steps[..|steps| - 1], true).value;
      RunKeeps(steps[..|steps| - 1]);
      match steps[|steps| - 1]
      case Aggregate(a) => AggregateKeeps(before, a);
      case On(i, p) => OnProbeKeeps(before, i, p);
    }
  }

  // ---- What it says ----------------------------------------------------------

  /** Every process group this state ever started is empty. */
  ghost predicate AllGroupsEmpty(s: State) {
    forall p | p in s.probes :: RunnerGroupEmpty(p) && forall t | t in p.tools :: !t.live
  }

  /** The aggregate deletes the result directory only when every runner group and
      every tool group is empty, and every outer helper has exited. */
  lemma {:induction false} DeletionIsSafe(steps: seq<Step>)
    requires Run(steps, true).Some? && Run(steps, true).value.phase.Deleted?
    ensures AllGroupsEmpty(Run(steps, true).value)
    ensures forall p | p in Run(steps, true).value.probes :: p.outer.Exited?
  {
    RunKeeps(steps);
    var s := Run(steps, true).value;
    forall p | p in s.probes ensures RunnerGroupEmpty(p) && (forall t | t in p.tools :: !t.live) {
      assert Released(p) && AllSettled(p.tools);
    }
  }

  /** Each complete receipt is a proof of absence: of one tool's group, of every
      tool group of the runner, of all processes of the probe. */
  lemma {:induction false} ReceiptsAreTrue(steps: seq<Step>, p: Probe)
    requires Run(steps, true).Some? && p in Run(steps, true).value.probes
    ensures forall t | t in p.tools && !t.receipt.Missing? :: !t.live
    ensures !p.note.Missing? ==> forall t | t in p.tools :: !t.live
    ensures !p.receipt.Missing? ==> RunnerGroupEmpty(p) && forall t | t in p.tools :: !t.live
  {
    RunKeeps(steps);
    assert forall t | t in p.tools :: ToolInv(t) && (Settled(t) ==> !t.live);
  }
}
