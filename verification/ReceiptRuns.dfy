/** Runs of the receipt chain: one that ends in deletion, and one that shows that its
    safety rests on the meaning of status 125. */
module ReceiptRuns {
  import opened JsonValues
  import opened ReceiptChain
  import opened ReceiptSafety

  lemma {:induction false} Extend(steps: seq<Step>, step: Step, s: State, trusted: bool)
    returns (longer: seq<Step>, t: State)
    requires Run(steps, trusted) == Some(s) && Next(s, step, trusted).Some?
    ensures Run(longer, trusted) == Some(t) && t == Next(s, step, trusted).value
  {
    longer, t := steps + [step], Next(s, step, trusted).value;
    assert longer[..|longer| - 1] == steps;
  }

  /** One more step of the only probe of a run. */
  lemma {:induction false} Go(steps: seq<Step>, s: State, step: ProbeStep, q: Probe, trusted: bool)
    returns (longer: seq<Step>, t: State)
    requires Run(steps, trusted) == Some(s) && |s.probes| == 1
    requires ProbeNext(s.probes[0], step, trusted) == Some(q)
    ensures Run(longer, trusted) == Some(t) && t == s.(probes := [q])
  {
    longer, t := Extend(steps, On(0, step), s, trusted);
    assert t.probes == [q];
  }

  const TOOL := Tool(Starting, false, Missing)
  const RUNNING := FRESH.(outer := Watching, shell := InTool, hasWork := true, active := Some(0), tools := [TOOL])
  const ORPHANED := RUNNING.(tools := [Tool(Gone, true, Missing)])

  ghost predicate Reaches(steps: seq<Step>, s: State, p: Probe, trusted: bool) {
    Run(steps, trusted) == Some(s) && s == State(Waiting, false, false, false, false, false, [p])
  }

  lemma FirstProbe(trusted: bool) returns (steps: seq<Step>, s: State)
    ensures Reaches(steps, s, FRESH, trusted)
  {
    steps, s := Extend([], Aggregate(Mark), START, trusted);
    steps, s := Extend(steps, Aggregate(Forbid), s, trusted);
    steps, s := Extend(steps, Aggregate(LaunchProbe), s, trusted);
    steps, s := Extend(steps, Aggregate(LateCancel(false)), s, trusted);
    assert s.probes == [FRESH];
  }

  lemma FirstTool(trusted: bool) returns (steps: seq<Step>, s: State)
    ensures Reaches(steps, s, RUNNING, trusted)
  {
    hide Run, Next;
    steps, s := FirstProbe(trusted);
    steps, s := Go(steps, s, ByOuter(Check), FRESH.(outer := Spawning), trusted);
    steps, s := Go(steps, s, ByOuter(Spawn), FRESH.(outer := Watching, shell := Wrapper), trusted);
    steps, s := Go(steps, s, ByShell(Exec), FRESH.(outer := Watching, shell := Ready), trusted);
    steps, s := Go(steps, s, ByShell(MakeWork), FRESH.(outer := Watching, shell := Ready, hasWork := true), trusted);
    steps, s := Go(steps, s, ByShell(Reserve), RUNNING.(shell := Reserved, tools := []), trusted);
    assert [] + [TOOL] == [TOOL];
    steps, s := Go(steps, s, ByShell(Launch), RUNNING, trusted);
  }

  /** When the group of the runner dies in the middle of a tool run, the tool is
      left behind in its own session. */
  lemma OrphanedTool(trusted: bool) returns (steps: seq<Step>, s: State)
    ensures Reaches(steps, s, ORPHANED, trusted)
  {
    hide Run, Next;
    steps, s := FirstTool(trusted);
    assert forall t: Tool, u: Tool :: [t][0 := u] == [u];
    steps, s := Go(steps, s, ByHelper(0, Start), RUNNING.(tools := [Tool(Supervising, true, Missing)]), trusted);
    steps, s := Go(steps, s, ByHelper(0, HelperStep.Exit), ORPHANED, trusted);
  }

  const SERVED := RUNNING.(tools := [Tool(Gone, false, Complete)])
  const BETWEEN := RUNNING.(shell := Ready, active := None, tools := [Tool(Gone, false, Missing)])

  /** A tool run to its end by its helper. */
  lemma ConfirmedTool(trusted: bool) returns (steps: seq<Step>, s: State)
    ensures Reaches(steps, s, RUNNING.(tools := [Tool(Confirmed, false, Missing)]), trusted)
  {
    hide Run, Next;
    steps, s := FirstTool(trusted);
    assert forall t: Tool, u: Tool :: [t][0 := u] == [u];
    steps, s := Go(steps, s, ByHelper(0, Start), RUNNING.(tools := [Tool(Supervising, true, Missing)]), trusted);
    steps, s := Go(steps, s, ToolGroupEmpties(0), RUNNING.(tools := [Tool(Supervising, false, Missing)]), trusted);
    steps, s := Go(steps, s, ByHelper(0, CleanUp), RUNNING.(tools := [Tool(Confirmed, false, Missing)]), trusted);
  }

  lemma ServedTool(trusted: bool) returns (steps: seq<Step>, s: State)
    ensures Reaches(steps, s, SERVED, trusted)
  {
    hide Run, Next;
    steps, s := ConfirmedTool(trusted);
    assert forall t: Tool, u: Tool :: [t][0 := u] == [u];
    steps, s := Go(steps, s, ByHelper(0, Create), RUNNING.(tools := [Tool(Writing, false, Partial)]), trusted);
    steps, s := Go(steps, s, ByHelper(0, Finish), RUNNING.(tools := [Tool(Finished, false, Complete)]), trusted);
    steps, s := Go(steps, s, ByHelper(0, HelperStep.Exit), SERVED, trusted);
  }

  lemma CompletedTool(trusted: bool) returns (steps: seq<Step>, s: State)
    ensures Reaches(steps, s, BETWEEN, trusted)
  {
    hide Run, Next;
    steps, s := ServedTool(trusted);
    assert forall t: Tool, u: Tool :: [t][0 := u] == [u];
    steps, s := Go(steps, s, ByShell(Return), SERVED.(shell := Returned), trusted);
    steps, s := Go(steps, s, ByShell(Consume), BETWEEN.(shell := Forgetting, active := Some(0)), trusted);
    steps, s := Go(steps, s, ByShell(Clear), BETWEEN, trusted);
  }

  lemma CleanRunner(trusted: bool) returns (steps: seq<Step>, s: State)
    ensures Reaches(steps, s, BETWEEN.(shell := Noting), trusted)
  {
    hide Run, Next;
    steps, s := CompletedTool(trusted);
    steps, s := Go(steps, s, ByShell(Conclude), BETWEEN.(shell := Confirming), trusted);
    steps, s := Go(steps, s, ByShell(Confirm), BETWEEN.(shell := Removing), trusted);
    steps, s := Go(steps, s, ByShell(RemoveWork), BETWEEN.(shell := Noting), trusted);
  }

  lemma NotingRunner(trusted: bool) returns (steps: seq<Step>, s: State)
    ensures Reaches(steps, s, BETWEEN.(shell := Composing, note := Partial), trusted)
  {
    hide Run, Next;
    steps, s := CleanRunner(trusted);
    steps, s := Go(steps, s, ByShell(CreateNote), BETWEEN.(shell := Composing, note := Partial), trusted);
  }

  lemma NotedRunner(trusted: bool) returns (steps: seq<Step>, s: State)
    ensures Reaches(steps, s, BETWEEN.(shell := Dead, note := Complete), trusted)
  {
    hide Run, Next;
    steps, s := NotingRunner(trusted);
    steps, s := Go(steps, s, ByShell(CompleteNote), BETWEEN.(shell := Noted, note := Complete), trusted);
    steps, s := Go(steps, s, ByShell(Die(false)), BETWEEN.(shell := Dead, note := Complete), trusted);
  }

  lemma ConsumedNote(trusted: bool) returns (steps: seq<Step>, s: State)
    ensures Reaches(steps, s, BETWEEN.(shell := Dead, outer := Recorded), trusted)
  {
    hide Run, Next;
    steps, s := NotedRunner(trusted);
    var dead := BETWEEN.(shell := Dead);
    steps, s := Go(steps, s, ByOuter(CleanUpGroup), dead.(outer := Absent, note := Complete), trusted);
    steps, s := Go(steps, s, ByOuter(ConsumeNote), dead.(outer := Recorded), trusted);
  }

  lemma FinishedProbe(trusted: bool) returns (steps: seq<Step>, s: State)
    ensures Reaches(steps, s, BETWEEN.(outer := Exited, receipt := Complete, shell := Dead), trusted)
  {
    hide Run, Next;
    steps, s := ConsumedNote(trusted);
    var dead := BETWEEN.(shell := Dead);
    steps, s := Go(steps, s, ByOuter(CreateReceipt), dead.(outer := Composed, receipt := Partial), trusted);
    steps, s := Go(steps, s, ByOuter(CompleteReceipt), dead.(outer := Done, receipt := Complete), trusted);
    steps, s := Go(steps, s, ByOuter(Quit), dead.(outer := Exited, receipt := Complete), trusted);
  }

  /** The protocol does let storage go: a run with a completed tool ends in deletion. */
  lemma DeletionHappens() returns (steps: seq<Step>)
    ensures Run(steps, true).Some? && Run(steps, true).value.phase.Deleted?
    ensures |Run(steps, true).value.probes| == 1 && |Run(steps, true).value.probes[0].tools| == 1
  {
    hide Run;
    var s: State;
    steps, s := FinishedProbe(true);
    steps, s := Extend(steps, Aggregate(WaitReturns), s, true);
    steps, s := Extend(steps, Aggregate(ConsumeReceipt), s, true);
    steps, s := Extend(steps, Aggregate(Permit), s, true);
    steps, s := Extend(steps, Aggregate(Unmark), s, true);
    steps, s := Extend(steps, Aggregate(NextProbe), s, true);
    steps, s := Extend(steps, Aggregate(Abort), s, true);
    steps, s := Extend(steps, Aggregate(Delete), s, true);
  }

  lemma MissedOrphan() returns (steps: seq<Step>, s: State)
    ensures Reaches(steps, s, ORPHANED.(outer := Exited, shell := Dead, exited125 := true, receipt := Complete), false)
  {
    hide Run, Next;
    steps, s := OrphanedTool(false);
    var dead := ORPHANED.(shell := Dead, exited125 := true);
    steps, s := Go(steps, s, ByShell(Die(true)), dead, false);
    steps, s := Go(steps, s, ByOuter(CleanUpGroup), dead.(outer := Absent), false);
    steps, s := Go(steps, s, ByOuter(SkipNote), dead.(outer := Recorded), false);
    steps, s := Go(steps, s, ByOuter(CreateReceipt), dead.(outer := Composed, receipt := Partial), false);
    steps, s := Go(steps, s, ByOuter(CompleteReceipt), dead.(outer := Done, receipt := Complete), false);
    steps, s := Go(steps, s, ByOuter(Quit), dead.(outer := Exited, receipt := Complete), false);
  }

  /** If the shell could exit with 125 of its own, the outer helper would take a
      runner that ran for one that never did, and the orphan would be missed. The
      shell of `run-sq.sh` does not: see `sq_evidence_exit_runner`. */
  lemma UntrustedDeletion() returns (steps: seq<Step>)
    ensures Run(steps, false).Some?
    ensures Run(steps, false).value.phase.Deleted? && !AllGroupsEmpty(Run(steps, false).value)
  {
    hide Run, AllGroupsEmpty;
    var s: State;
    steps, s := MissedOrphan();
    steps, s := Extend(steps, Aggregate(WaitReturns), s, false);
    steps, s := Extend(steps, Aggregate(ConsumeReceipt), s, false);
    steps, s := Extend(steps, Aggregate(Permit), s, false);
    steps, s := Extend(steps, Aggregate(Abort), s, false);
    steps, s := Extend(steps, Aggregate(Delete), s, false);
    LiveToolIsNotEmpty(s);
  }

  lemma LiveToolIsNotEmpty(s: State)
    requires s.probes != [] && s.probes[0].tools != [] && s.probes[0].tools[0].live
    ensures !AllGroupsEmpty(s)
  {
    assert s.probes[0] in s.probes && s.probes[0].tools[0] in s.probes[0].tools;
  }

  /** Deletion is safe in every interleaving exactly when status 125 means what the
      outer helper reads it to mean: that the runner shell never ran. */
  lemma {:induction false} DeletionIsSafeIff(trusted: bool)
    ensures (forall steps | Run(steps, trusted).Some? && Run(steps, trusted).value.phase.Deleted? ::
               AllGroupsEmpty(Run(steps, trusted).value))
       <==> trusted
  {
    if trusted {
      forall steps | Run(steps, true).Some? && Run(steps, true).value.phase.Deleted?
        ensures AllGroupsEmpty(Run(steps, true).value)
      {
        DeletionIsSafe(steps);
      }
    } else {
      var steps := UntrustedDeletion();
    }
  }

  // ---- The finalizer -------------------------------------------------------------------

  /** Steps of the shell alone. */
  function ShellRun(p: Probe, steps: seq<ShellStep>): Option<Probe>
    decreases |steps|
  {
    if steps == [] then Some(p)
    else
      var next := ShellNext(p, steps[0], true);
      if next.None? then None else ShellRun(next.value, steps[1..])
  }

  lemma ShellGoes(p: Probe, step: ShellStep, q: Probe, rest: seq<ShellStep>) returns (steps: seq<ShellStep>)
    requires ShellNext(p, step, true) == Some(q)
    ensures ShellRun(p, steps) == ShellRun(q, rest) && steps == [step] + rest
  {
    steps := [step] + rest;
    assert steps[1..] == rest;
  }

  /** Once every receipt is accounted for, the receipt of the runner follows. */
  lemma ConfirmedIsNoted(p: Probe) returns (steps: seq<ShellStep>)
    requires p.shell == AfterConfirm(p) && p.active.None? && p.note.Missing?
    ensures ShellRun(p, steps) == Some(p.(shell := Noted, note := Complete)) && AwaitEnds !in steps
  {
    hide ShellNext;
    var noting := p.(shell := Noting);
    var composing := noting.(shell := Composing, note := Partial);
    NotingGoes(noting);
    steps := ShellGoes(composing, CompleteNote, composing.(shell := Noted, note := Complete), []);
    steps := ShellGoes(noting, CreateNote, composing, steps);
    if p.hasWork {
      RemovingGoes(p);
      steps := ShellGoes(p, RemoveWork, noting, steps);
    }
  }

  lemma RemovingGoes(p: Probe)
    requires p.shell.Removing?
    ensures ShellNext(p, RemoveWork, true) == Some(p.(shell := Noting))
  {
  }

  lemma NotingGoes(p: Probe)
    requires p.shell.Noting? && p.note.Missing?
    ensures ShellNext(p, CreateNote, true) == Some(p.(shell := Composing, note := Partial))
    ensures ShellNext(p.(shell := Composing, note := Partial), CompleteNote, true)
         == Some(p.(shell := Noted, note := Complete))
  {
  }

  lemma ConfirmingIsNoted(p: Probe) returns (steps: seq<ShellStep>)
    requires p.shell.Confirming? && p.note.Missing? && (p.active.None? || ActiveReceipt(p).Complete?)
    ensures ShellRun(p, steps).Some? && ShellRun(p, steps).value.note.Complete?
    ensures AwaitEnds !in steps && !ShellRun(p, steps).value.shell.Dead?
  {
    if p.active.None? {
      var q := p.(shell := AfterConfirm(p));
      steps := ConfirmedIsNoted(q);
      steps := ShellGoes(p, Confirm, q, steps);
    } else {
      var clearing := RemoveActive(p).(shell := Clearing);
      var q := clearing.(shell := AfterConfirm(clearing), active := None);
      steps := ConfirmedIsNoted(q);
      steps := ShellGoes(clearing, Clear, q, steps);
      steps := ShellGoes(p, Confirm, clearing, steps);
    }
  }

  /** From wherever the runner is when an error, a signal or its own end stops it: if its
      active receipt is complete, or there is none, its finalizer comes to a complete
      runner receipt; it waits for the active cleanup exactly on the signal's path. */
  lemma FinalizerFinishes(p: Probe, trap: ShellStep) returns (steps: seq<ShellStep>)
    requires trap.Error? || trap.Term? || trap.Conclude?
    requires InShell(p.shell) && !p.finalizing && p.note.Missing? && (p.active.None? || ActiveReceipt(p).Complete?)
    ensures steps != [] && steps[0] == trap && (AwaitEnds in steps <==> trap.Term?)
    ensures ShellRun(p, steps).Some? && ShellRun(p, steps).value.note.Complete?
  {
    hide ShellRun;
    var q := p.(shell := Confirming, finalizing := !trap.Conclude?);
    steps := ConfirmingIsNoted(q);
    if trap.Term? {
      var waiting := q.(shell := Awaiting);
      steps := ShellGoes(waiting, AwaitEnds, q, steps);
      steps := ShellGoes(p, trap, waiting, steps);
    } else {
      steps := ShellGoes(p, trap, q, steps);
    }
  }

  /** The script's own end and its EXIT trap: the second finalization leaves the receipt of
      the first as it is. */
  lemma EndsTwice(p: Probe)
    requires p.shell.Noted? && !p.finalizing && p.note.Complete? && p.active.None?
    ensures ShellRun(p, [DropWork, Conclude, Confirm, CreateNote, Die(false)])
         == Some(p.(shell := Dead, hasWork := false, exited125 := false))
  {
    var dropped := p.(hasWork := false);
    var confirming := dropped.(shell := Confirming);
    var leaving := dropped.(shell := Leaving);
    assert ShellNext(p, DropWork, true) == Some(dropped);
    assert ShellNext(dropped, Conclude, true) == Some(confirming);
    hide ShellNext;
    SecondNote(confirming);
    var steps := ShellGoes(leaving, Die(false), leaving.(shell := Dead, exited125 := false), []);
    steps := ShellGoes(dropped.(shell := Noting), CreateNote, leaving, steps);
    steps := ShellGoes(confirming, Confirm, dropped.(shell := Noting), steps);
    steps := ShellGoes(dropped, Conclude, confirming, steps);
    steps := ShellGoes(p, DropWork, dropped, steps);
    assert steps == [DropWork, Conclude, Confirm, CreateNote, Die(false)];
  }

  lemma SecondNote(p: Probe)
    requires p.shell.Confirming? && !p.hasWork && p.active.None? && p.note.Complete?
    ensures ShellNext(p, Confirm, true) == Some(p.(shell := Noting))
    ensures ShellNext(p.(shell := Noting), CreateNote, true) == Some(p.(shell := Leaving))
    ensures ShellNext(p.(shell := Leaving), Die(false), true) == Some(p.(shell := Dead, exited125 := false))
  {
  }

  // ---- Other ends ----------------------------------------------------------------------

  const CANCELLED := FRESH.(marker := true)

  /** One more step of the aggregate. */
  lemma {:induction false} Onward(steps: seq<Step>, s: State, a: AggregateStep, trusted: bool)
    returns (longer: seq<Step>, t: State)
    requires Run(steps, trusted) == Some(s) && AggregateNext(s, a).Some?
    ensures Run(longer, trusted) == Some(t) && t == AggregateNext(s, a).value && longer == steps + [Aggregate(a)]
  {
    longer, t := steps + [Aggregate(a)], AggregateNext(s, a).value;
    assert longer[..|longer| - 1] == steps;
  }

  lemma CancelledWalk(trusted: bool)
    ensures ProbeNext(CANCELLED, ByOuter(Check), trusted) == Some(CANCELLED.(outer := Absent))
    ensures ProbeNext(CANCELLED.(outer := Absent), ByOuter(SkipNote), trusted) == Some(CANCELLED.(outer := Recorded))
    ensures ProbeNext(CANCELLED.(outer := Recorded), ByOuter(CreateReceipt), trusted)
         == Some(CANCELLED.(outer := Composed, receipt := Partial))
    ensures ProbeNext(CANCELLED.(outer := Composed, receipt := Partial), ByOuter(CompleteReceipt), trusted)
         == Some(CANCELLED.(outer := Done, receipt := Complete))
    ensures ProbeNext(CANCELLED.(outer := Done, receipt := Complete), ByOuter(Quit), trusted)
         == Some(CANCELLED.(outer := Exited, receipt := Complete))
  {
  }

  /** Interrupted, and woken from the wait for its only probe. */
  ghost predicate Woken(steps: seq<Step>, s: State, p: Probe, trusted: bool) {
    && Run(steps, trusted) == Some(s) && s == State(Rewaiting, false, true, false, true, false, [p])
    && Aggregate(WaitInterrupted) in steps
  }

  lemma Wakes(trusted: bool) returns (steps: seq<Step>, s: State)
    ensures Woken(steps, s, CANCELLED, trusted)
  {
    hide Run, Next;
    steps, s := FirstProbe(trusted);
    steps, s := Onward(steps, s, Signal(true), trusted);
    assert s.probes == [CANCELLED];
    steps, s := Onward(steps, s, WaitInterrupted, trusted);
  }

  lemma WokenGoes(steps: seq<Step>, s: State, p: Probe, o: OuterStep, q: Probe, trusted: bool)
    returns (longer: seq<Step>, t: State)
    requires Woken(steps, s, p, trusted) && ProbeNext(p, ByOuter(o), trusted) == Some(q)
    ensures Woken(longer, t, q, trusted)
  {
    hide Run, Next, ProbeNext;
    longer, t := GoesOn(steps, s, ByOuter(o), q, trusted);
  }

  lemma CancelledProbe(trusted: bool) returns (steps: seq<Step>, s: State)
    ensures Woken(steps, s, CANCELLED.(outer := Exited, receipt := Complete), trusted)
  {
    hide Woken, ProbeNext;
    CancelledWalk(trusted);
    var absent, recorded := CANCELLED.(outer := Absent), CANCELLED.(outer := Recorded);
    var composed := CANCELLED.(outer := Composed, receipt := Partial);
    var done := CANCELLED.(outer := Done, receipt := Complete);
    steps, s := Wakes(trusted);
    steps, s := WokenGoes(steps, s, CANCELLED, Check, absent, trusted);
    steps, s := WokenGoes(steps, s, absent, SkipNote, recorded, trusted);
    steps, s := WokenGoes(steps, s, recorded, CreateReceipt, composed, trusted);
    steps, s := WokenGoes(steps, s, composed, CompleteReceipt, done, trusted);
    steps, s := WokenGoes(steps, s, done, Quit, done.(outer := Exited), trusted);
  }

  lemma {:induction false} GoesOn(steps: seq<Step>, s: State, step: ProbeStep, q: Probe, trusted: bool)
    returns (longer: seq<Step>, t: State)
    requires Run(steps, trusted) == Some(s) && |s.probes| == 1
    requires ProbeNext(s.probes[0], step, trusted) == Some(q)
    ensures Run(longer, trusted) == Some(t) && t == s.(probes := [q]) && longer == steps + [On(0, step)]
  {
    longer, t := steps + [On(0, step)], s.(probes := [q]);
    assert longer[..|longer| - 1] == steps;
    assert s.probes[0 := q] == [q];
  }

  lemma CancelledSettles(trusted: bool) returns (steps: seq<Step>, s: State)
    ensures Run(steps, trusted) == Some(s) && Aggregate(WaitInterrupted) in steps
    ensures s == State(Resolved, true, true, false, true, false, [CANCELLED.(outer := Exited)])
  {
    hide Run, Next, Requested;
    steps, s := CancelledProbe(trusted);
    steps, s := Onward(steps, s, RewaitReturns, trusted);
    steps, s := Onward(steps, s, ConsumeReceipt, trusted);
    assert s.probes == [CANCELLED.(outer := Exited)];
    steps, s := Onward(steps, s, Permit, trusted);
  }

  /** A signal before the probe has looked: the aggregate is woken from its wait, the probe
      starts nothing and says so, and the storage is deleted. */
  lemma CancelledRunEnds(trusted: bool) returns (steps: seq<Step>, s: State)
    ensures Run(steps, trusted) == Some(s) && s.phase.Deleted? && s.interrupted && !s.failed
    ensures Aggregate(WaitInterrupted) in steps && |s.probes| == 1 && s.probes[0].shell.NotStarted?
  {
    hide Run, Next, Requested;
    steps, s := CancelledSettles(trusted);
    steps, s := Onward(steps, s, Unmark, trusted);
    steps, s := Onward(steps, s, Abort, trusted);
    steps, s := Onward(steps, s, Delete, trusted);
  }

  /** A helper that goes without a receipt: the aggregate fails and keeps the storage. */
  lemma FailureIsRetained(trusted: bool) returns (steps: seq<Step>, s: State)
    ensures Run(steps, trusted) == Some(s) && s.phase.Retained? && s.failed && !s.interrupted
    ensures Aggregate(Unmark) in steps
  {
    hide Run, Next, ProbeNext;
    steps, s := FirstProbe(trusted);
    Quits(trusted);
    steps, s := GoesOn(steps, s, ByOuter(Quit), FRESH.(outer := Exited), trusted);
    steps, s := Onward(steps, s, WaitReturns, trusted);
    steps, s := Onward(steps, s, ConsumeFails, trusted);
    steps, s := FailureEnds(steps, s, trusted);
  }

  lemma Quits(trusted: bool)
    ensures ProbeNext(FRESH, ByOuter(Quit), trusted) == Some(FRESH.(outer := Exited))
  {
  }

  lemma FailureEnds(steps: seq<Step>, s: State, trusted: bool) returns (longer: seq<Step>, t: State)
    requires Run(steps, trusted) == Some(s) && s.phase.Resolved? && s.failed
    ensures Run(longer, trusted) == Some(t) && t == s.(phase := Retained) && Aggregate(Unmark) in longer
  {
    hide Run, Next;
    longer, t := Onward(steps, s, Unmark, trusted);
    longer, t := Onward(longer, t, Abort, trusted);
    longer, t := Onward(longer, t, Retain, trusted);
  }

  const STRAYED := FRESH.(outer := Watching, shell := Dead, strays := 1)

  lemma StrayWalk(trusted: bool)
    ensures ProbeNext(FRESH, ByOuter(Check), trusted) == Some(FRESH.(outer := Spawning))
    ensures ProbeNext(FRESH.(outer := Spawning), ByOuter(Spawn), trusted)
         == Some(FRESH.(outer := Watching, shell := Wrapper))
    ensures ProbeNext(FRESH.(outer := Watching, shell := Wrapper), ByShell(Exec), trusted)
         == Some(FRESH.(outer := Watching, shell := Ready))
    ensures ProbeNext(FRESH.(outer := Watching, shell := Ready), StrayBorn, trusted)
         == Some(STRAYED.(shell := Ready))
    ensures ProbeNext(STRAYED.(shell := Ready), ByShell(Die(false)), trusted) == Some(STRAYED)
  {
  }

  /** The leader's exit is not the group's absence: a process that it left behind holds the
      cleanup up until it is gone too. */
  lemma LeaderIsNotGroup(trusted: bool) returns (steps: seq<Step>, s: State)
    ensures Reaches(steps, s, STRAYED, trusted)
    ensures ProbeNext(STRAYED, ByOuter(CleanUpGroup), trusted).None?
    ensures ProbeNext(STRAYED, StrayDies, trusted) == Some(STRAYED.(strays := 0))
    ensures ProbeNext(STRAYED.(strays := 0), ByOuter(CleanUpGroup), trusted).Some?
  {
    StrayHolds(trusted);
    hide Run, Next, ProbeNext;
    StrayWalk(trusted);
    steps, s := FirstProbe(trusted);
    steps, s := Go(steps, s, ByOuter(Check), FRESH.(outer := Spawning), trusted);
    steps, s := Go(steps, s, ByOuter(Spawn), FRESH.(outer := Watching, shell := Wrapper), trusted);
    steps, s := Go(steps, s, ByShell(Exec), FRESH.(outer := Watching, shell := Ready), trusted);
    steps, s := Go(steps, s, StrayBorn, STRAYED.(shell := Ready), trusted);
    steps, s := Go(steps, s, ByShell(Die(false)), STRAYED, trusted);
  }

  lemma StrayHolds(trusted: bool)
    ensures ProbeNext(STRAYED, ByOuter(CleanUpGroup), trusted).None?
    ensures ProbeNext(STRAYED, StrayDies, trusted) == Some(STRAYED.(strays := 0))
    ensures ProbeNext(STRAYED.(strays := 0), ByOuter(CleanUpGroup), trusted).Some?
  {
  }
}
