/** The other side of safety: a runner that is gone without its receipt is never taken for
    one that finished, however the run goes on, and the result directory stays. */
module ReceiptRetention {
  import opened JsonValues
  import opened ReceiptChain
  import opened ReceiptSafety

  /** The runner's leader is gone, has left no receipt and did not fail in its wrapper. */
  predicate Lost(p: Probe) {
    && p.shell.Dead? && p.note.Missing? && !p.exited125 && p.receipt.Missing?
    && (p.outer.Watching? || p.outer.Absent? || p.outer.Exited?)
  }

  lemma LostStays(p: Probe, step: ProbeStep, trusted: bool)
    requires Lost(p) && ProbeNext(p, step, trusted).Some?
    ensures Lost(ProbeNext(p, step, trusted).value)
  {
    hide ShellNext;
    if step.ByShell? {
      DeadShellStops(p, step.r, trusted);
    }
  }

  lemma DeadShellStops(p: Probe, r: ShellStep, trusted: bool)
    ensures p.shell.Dead? ==> ShellNext(p, r, trusted).None?
  {
  }

  /** From the launch of its probe until the aggregate has given up. */
  predicate Retaining(s: State) {
    && s.probes != [] && Lost(s.probes[|s.probes| - 1]) && !s.permitted
    && (MayRun(s.phase) || s.phase.Exiting? || s.phase.Retained?
        || ((s.phase.Resolved? || s.phase.Judging?) && s.failed))
  }

  lemma RequestRetains(s: State, written: bool)
    requires Retaining(s)
    ensures Retaining(Requested(s, written)) && Requested(s, written).phase == s.phase
  {
  }

  lemma AggregateRetains(s: State, a: AggregateStep)
    requires Retaining(s) && AggregateNext(s, a).Some?
    ensures Retaining(AggregateNext(s, a).value)
  {
    hide Requested, Lost;
    if a.Signal? || a.LateCancel? {
      RequestRetains(s, a.written);
    } else if a.ConsumeReceipt? {
      LostHasNoReceipt(s.probes[|s.probes| - 1]);
    }
  }

  lemma LostHasNoReceipt(p: Probe)
    ensures Lost(p) ==> p.receipt.Missing?
  {
  }

  lemma {:induction false} RetainingStays(steps: seq<Step>, longer: seq<Step>, trusted: bool)
    requires steps <= longer && Run(longer, trusted).Some?
    requires Run(steps, trusted).Some? && Retaining(Run(steps, trusted).value)
    ensures Retaining(Run(longer, trusted).value)
  {
    hide AggregateNext, ProbeNext, Lost;
    if |steps| == |longer| {
      assert steps == longer;
    } else {
      var earlier := longer[..|longer| - 1];
      RetainingStays(steps, earlier, trusted);
      var before := Run(earlier, trusted).value;
      match longer[|longer| - 1]
      case Aggregate(a) => AggregateRetains(before, a);
      case On(i, p) =>
        if i == |before.probes| - 1 {
          LostStays(before.probes[i], p, trusted);
        }
    }
  }

  /** A runner that is lost is never forgotten: the aggregate does not delete. */
  lemma LostRunnerIsRetained(steps: seq<Step>, longer: seq<Step>)
    requires steps <= longer && Run(longer, true).Some? && Run(steps, true).Some?
    requires var s := Run(steps, true).value;
             MayRun(s.phase) && s.probes != [] && Lost(s.probes[|s.probes| - 1])
    ensures !Run(longer, true).value.permitted && !Run(longer, true).value.phase.Deleted?
  {
    hide Run, Lost;
    RunKeeps(steps);
    RetainingStays(steps, longer, true);
  }

  /** So it is when the group of a runner that works is killed, at any moment: its tools
      may live on in their own sessions, and what they use is kept. */
  lemma KilledRunnerIsRetained(steps: seq<Step>, longer: seq<Step>)
    requires Run(steps, true).Some?
    requires var s := Run(steps, true).value;
             && MayRun(s.phase) && s.probes != []
             && var p := s.probes[|s.probes| - 1];
                !p.shell.NotStarted? && p.outer.Watching? && p.receipt.Missing? && p.note.Missing? && !p.exited125
    requires steps + [On(|Run(steps, true).value.probes| - 1, KillRunnerGroup)] <= longer && Run(longer, true).Some?
    ensures Run(steps + [On(|Run(steps, true).value.probes| - 1, KillRunnerGroup)], true).Some?
    ensures !Run(longer, true).value.permitted && !Run(longer, true).value.phase.Deleted?
  {
    hide AggregateNext;
    var n := |Run(steps, true).value.probes|;
    var killed := steps + [On(n - 1, KillRunnerGroup)];
    assert killed[..|killed| - 1] == steps;
    LostRunnerIsRetained(killed, longer);
  }
}
