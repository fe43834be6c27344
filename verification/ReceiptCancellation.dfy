/** A signal to the aggregate reaches the probe that runs: whatever the interleaving, an
    interrupted aggregate has its marker written, so that a probe which has not looked yet
    starts nothing, and it launches no further probe. */
module ReceiptCancellation {
  import opened JsonValues
  import opened ReceiptChain

  // ---- The marker ----------------------------------------------------------------------

  /** The marker of the current probe exists, or could not be written. */
  predicate Marked(s: State) {
    s.failed || (s.probes != [] && s.probes[|s.probes| - 1].marker)
  }

  /** From the end of the launch until the next one is considered. */
  predicate Attending(phase: Phase) {
    phase.Waiting? || phase.Rewaiting? || phase.Consuming? || phase.Consumed? || phase.Resolved? || phase.Judging?
  }

  ghost predicate CancelInv(s: State) {
    && (s.requested ==> s.interrupted)
    && (s.phase.Idle? ==> !s.interrupted)
    && (s.phase.Forbidden? && s.requested ==> s.cancelling || s.failed)
    && (s.phase.Launched? && s.requested ==> Marked(s))
    && (Attending(s.phase) && s.interrupted ==> Marked(s))
    && (s.phase.Launched? || Attending(s.phase) ==> s.probes != [])
  }

  lemma ProbeKeepsMarker(p: Probe, step: ProbeStep, trusted: bool)
    requires ProbeNext(p, step, trusted).Some?
    ensures ProbeNext(p, step, trusted).value.marker == p.marker
  {
    hide OuterNext, ShellNext;
    match step
    case ByOuter(o) => OuterKeepsMarker(p, o);
    case ByShell(r) => ShellKeepsMarker(p, r, trusted);
    case _ =>
  }

  lemma OuterKeepsMarker(p: Probe, o: OuterStep)
    requires OuterNext(p, o).Some?
    ensures OuterNext(p, o).value.marker == p.marker
  {
  }

  lemma ShellKeepsMarker(p: Probe, r: ShellStep, trusted: bool)
    requires ShellNext(p, r, trusted).Some?
    ensures ShellNext(p, r, trusted).value.marker == p.marker
  {
  }

  lemma RequestMarks(s: State, written: bool)
    requires s.requested ==> s.phase.Marked? || s.phase.Forbidden? || Marked(s)
    requires !s.phase.Marked? && !s.phase.Forbidden? && s.probes != []
    ensures Marked(Requested(s, written))
  {
  }

  lemma SignalKeepsMarker(s: State, written: bool)
    requires CancelInv(s) && AggregateNext(s, Signal(written)).Some?
    ensures CancelInv(AggregateNext(s, Signal(written)).value)
  {
  }

  lemma LateCancelKeepsMarker(s: State, written: bool)
    requires CancelInv(s) && AggregateNext(s, LateCancel(written)).Some?
    ensures CancelInv(AggregateNext(s, LateCancel(written)).value)
  {
  }

  lemma MoveKeepsMarker(s: State, a: AggregateStep)
    requires CancelInv(s) && AggregateNext(s, a).Some? && !a.Signal? && !a.LateCancel?
    ensures CancelInv(AggregateNext(s, a).value)
  {
  }

  lemma AggregateKeepsMarker(s: State, a: AggregateStep)
    requires CancelInv(s) && AggregateNext(s, a).Some?
    ensures CancelInv(AggregateNext(s, a).value)
  {
    hide AggregateNext, CancelInv;
    if a.Signal? {
      SignalKeepsMarker(s, a.written);
    } else if a.LateCancel? {
      LateCancelKeepsMarker(s, a.written);
    } else {
      MoveKeepsMarker(s, a);
    }
  }

  lemma OnProbeKeepsMarker(s: State, i: nat, p: ProbeStep, trusted: bool)
    requires CancelInv(s) && Next(s, On(i, p), trusted).Some?
    ensures CancelInv(Next(s, On(i, p), trusted).value)
  {
    hide ProbeNext;
    ProbeKeepsMarker(s.probes[i], p, trusted);
  }

  /** In every run: once the aggregate is interrupted, and from the end of the launch until
      the receipt is consumed and the result judged, the current probe has its marker,
      unless the aggregate has recorded that it could not be written. */
  lemma {:induction false} CancellationReaches(steps: seq<Step>, trusted: bool)
    requires Run(steps, trusted).Some?
    ensures CancelInv(Run(steps, trusted).value)
  {
    hide AggregateNext, ProbeNext, CancelInv;
    if steps == [] {
      NothingCancelled();
    } else {
      var before := Run(steps[..|steps| - 1], trusted).value;
      CancellationReaches(steps[..|steps| - 1], trusted);
      match steps[|steps| - 1]
      case Aggregate(a) => AggregateKeepsMarker(before, a);
      case On(i, p) => OnProbeKeepsMarker(before, i, p, trusted);
    }
  }

  lemma NothingCancelled()
    ensures CancelInv(START)
  {
  }

  // ---- What it stops -------------------------------------------------------------------

  /** No process of this probe was started, nor is one about to be. */
  predicate Unstarted(p: Probe) {
    p.shell.NotStarted? && p.tools == [] && p.strays == 0 && !p.outer.Spawning? && !p.outer.Watching?
  }

  /** What has not looked for its marker has started nothing. */
  ghost predicate FreshInv(p: Probe) {
    p.outer.Checking? || p.outer.Spawning? ==> p.shell.NotStarted? && p.tools == [] && p.strays == 0
  }

  lemma ProbeStartsInOrder(p: Probe, step: ProbeStep, trusted: bool)
    requires ProbeNext(p, step, trusted).Some?
    ensures FreshInv(p) ==> FreshInv(ProbeNext(p, step, trusted).value)
    ensures p.marker && Unstarted(p) ==> Unstarted(ProbeNext(p, step, trusted).value)
  {
    hide OuterNext, ShellNext;
    match step
    case ByOuter(o) => OuterStartsInOrder(p, o);
    case ByShell(r) => ShellIsStarted(p, r, trusted);
    case _ =>
  }

  lemma OuterStartsInOrder(p: Probe, o: OuterStep)
    requires OuterNext(p, o).Some?
    ensures FreshInv(p) ==> FreshInv(OuterNext(p, o).value)
    ensures p.marker && Unstarted(p) ==> Unstarted(OuterNext(p, o).value)
  {
  }

  lemma ShellIsStarted(p: Probe, r: ShellStep, trusted: bool)
    requires ShellNext(p, r, trusted).Some?
    ensures !p.shell.NotStarted? && ShellNext(p, r, trusted).value.outer == p.outer
  {
  }

  /** A step of the aggregate touches markers and receipts, and unmarks nothing. */
  lemma AggregateTouches(s: State, a: AggregateStep, k: nat)
    requires AggregateNext(s, a).Some? && k < |s.probes|
    ensures var t := AggregateNext(s, a).value;
            && k < |t.probes| && (s.probes[k].marker ==> t.probes[k].marker)
            && t.probes[k] == s.probes[k].(marker := t.probes[k].marker, receipt := t.probes[k].receipt)
  {
    hide Requested;
    if a.Signal? || a.LateCancel? {
      RequestTouches(s, a.written, k);
    }
  }

  lemma RequestTouches(s: State, written: bool, k: nat)
    requires k < |s.probes|
    ensures var t := Requested(s, written);
            && k < |t.probes| && (s.probes[k].marker ==> t.probes[k].marker)
            && t.probes[k] == s.probes[k].(marker := t.probes[k].marker)
  {
  }

  lemma AggregateStartsNothing(s: State, a: AggregateStep, k: nat)
    requires AggregateNext(s, a).Some? && k < |s.probes|
    ensures var t := AggregateNext(s, a).value;
            && k < |t.probes| && (s.probes[k].marker ==> t.probes[k].marker)
            && (FreshInv(s.probes[k]) ==> FreshInv(t.probes[k]))
            && (Unstarted(s.probes[k]) ==> Unstarted(t.probes[k]))
  {
    hide AggregateNext;
    AggregateTouches(s, a, k);
  }

  lemma {:induction false} ChecksComeFirst(steps: seq<Step>, trusted: bool, k: nat)
    requires Run(steps, trusted).Some? && k < |Run(steps, trusted).value.probes|
    ensures FreshInv(Run(steps, trusted).value.probes[k])
  {
    hide AggregateNext, ProbeNext, FreshInv;
    if steps != [] {
      var before := Run(steps[..|steps| - 1], trusted).value;
      if k < |before.probes| {
        ChecksComeFirst(steps[..|steps| - 1], trusted, k);
      }
      match steps[|steps| - 1]
      case Aggregate(a) =>
        if k < |before.probes| {
          AggregateStartsNothing(before, a, k);
        } else {
          LaunchesFresh(before, a, k);
        }
      case On(i, p) => ProbeStartsInOrder(before.probes[i], p, trusted);
    }
  }

  lemma LaunchesFresh(s: State, a: AggregateStep, k: nat)
    requires AggregateNext(s, a).Some? && |s.probes| <= k < |AggregateNext(s, a).value.probes|
    ensures FreshInv(AggregateNext(s, a).value.probes[k])
  {
    hide Requested;
    if a.Signal? || a.LateCancel? {
      RequestLaunchesNothing(s, a.written);
    }
  }

  lemma RequestLaunchesNothing(s: State, written: bool)
    ensures |Requested(s, written).probes| == |s.probes| && Requested(s, written).phase == s.phase
    ensures s.interrupted ==> Requested(s, written).interrupted
  {
  }

  lemma {:induction false} MarkedStays(steps: seq<Step>, longer: seq<Step>, trusted: bool, k: nat)
    requires steps <= longer && Run(longer, trusted).Some?
    requires Run(steps, trusted).Some? && k < |Run(steps, trusted).value.probes|
    requires var p := Run(steps, trusted).value.probes[k]; p.marker && Unstarted(p)
    ensures var t := Run(longer, trusted).value;
            k < |t.probes| && t.probes[k].marker && Unstarted(t.probes[k])
  {
    hide AggregateNext, ProbeNext, Unstarted;
    if |steps| == |longer| {
      assert steps == longer;
    } else {
      var earlier := longer[..|longer| - 1];
      MarkedStays(steps, earlier, trusted, k);
      var before := Run(earlier, trusted).value;
      match longer[|longer| - 1]
      case Aggregate(a) => AggregateStartsNothing(before, a, k);
      case On(i, p) =>
        ProbeStartsInOrder(before.probes[i], p, trusted);
        ProbeKeepsMarker(before.probes[i], p, trusted);
    }
  }

  /** A probe that had not looked for its marker when the aggregate was interrupted never
      starts a process, however the run goes on. */
  lemma CancelledStartsNothing(steps: seq<Step>, longer: seq<Step>, trusted: bool)
    requires steps <= longer && Run(longer, trusted).Some? && Run(steps, trusted).Some?
    requires var s := Run(steps, trusted).value;
             && Attending(s.phase) && s.interrupted && !s.failed
             && s.probes != [] && s.probes[|s.probes| - 1].outer.Checking?
    ensures var k := |Run(steps, trusted).value.probes| - 1;
            k < |Run(longer, trusted).value.probes| && Unstarted(Run(longer, trusted).value.probes[k])
  {
    hide Run;
    var k := |Run(steps, trusted).value.probes| - 1;
    CancellationReaches(steps, trusted);
    ChecksComeFirst(steps, trusted, k);
    MarkedStays(steps, longer, trusted, k);
  }

  /** The aggregate has been interrupted with a probe launched. */
  predicate Stopping(s: State) {
    s.interrupted && !s.phase.Idle? && !s.phase.Marked? && !s.phase.Forbidden?
  }

  lemma StoppingStays(s: State, step: Step, trusted: bool)
    requires Stopping(s) && Next(s, step, trusted).Some?
    ensures Stopping(Next(s, step, trusted).value) && |Next(s, step, trusted).value.probes| == |s.probes|
  {
    hide ProbeNext, Requested;
    if step.Aggregate? && (step.a.Signal? || step.a.LateCancel?) {
      RequestLaunchesNothing(s, step.a.written);
    }
  }

  /** An aggregate interrupted after a launch launches nothing more. */
  lemma {:induction false} InterruptedLaunchesNothing(steps: seq<Step>, longer: seq<Step>, trusted: bool)
    requires steps <= longer && Run(longer, trusted).Some?
    requires Run(steps, trusted).Some? && Stopping(Run(steps, trusted).value)
    ensures Stopping(Run(longer, trusted).value)
    ensures |Run(longer, trusted).value.probes| == |Run(steps, trusted).value.probes|
  {
    hide Next, Stopping;
    if |steps| == |longer| {
      assert steps == longer;
    } else {
      var earlier := longer[..|longer| - 1];
      InterruptedLaunchesNothing(steps, earlier, trusted);
      StoppingStays(Run(earlier, trusted).value, longer[|longer| - 1], trusted);
    }
  }
}
