/** Owned POSIX process-group cleanup (`sacrysty_runtime/process_groups.py`). */
module ProcessGroups {
  import opened JsonValues
  import opened Basics
  import opened Kernel

  datatype SignalStep = SignalStep(signal: nat, grace: nat)

  /** Why a cleanup gives up, one for each message of `ProcessGroupError`. */
  datatype Failure =
    | SignalFailed(errno: Errno)
    | AbsentWhileRunning
    | LeaderSignalFailed
    | LeaderTimedOut
    | StatusCheckFailed
    | CheckFailed(errno: Errno)
    | AbsenceTimedOut

  /** `Lost` is `ProcessGroupOwnershipLost`, `Refused` the `ValueError`. */
  datatype Outcome = Cleaned | Lost | Failed(why: Failure) | Refused

  const POLL := 10 * MILLISECOND

  /** `leader_exited_unreaped`: `raised` is None when it returns `exited`. */
  method LeaderExitedUnreaped(p: Process) returns (exited: bool, raised: Option<Outcome>)
    requires p.Valid()
    modifies p
    ensures p.Ran() && p.Idle() == old(p.Idle()) && p.returncode == old(p.returncode)
    ensures old(p.returncode).Some? ==> raised == Some(Lost) && p.log == old(p.log)
    ensures old(p.returncode).None? ==>
              && |p.log| == |old(p.log)| + 1 && p.log[|old(p.log)|].call.Inspect?
              && var found := p.log[|old(p.log)|].call.found;
                 && exited == found.Exited?
                 && raised == (match found
                               case NoChild => Some(Lost)
                               case CannotInspect => Some(Failed(StatusCheckFailed))
                               case _ => None)
  {
    exited, raised := false, None;
    if p.returncode.Some? {
      return false, Some(Lost);
    }
    var found := p.InspectLeader();
    match found {
      case NoChild => raised := Some(Lost);
      case CannotInspect => raised := Some(Failed(StatusCheckFailed));
      case Exited => exited := true;
      case StillRunning =>
    }
  }

  /** What the last probe of the wait for absence means. */
  function AbsenceVerdict(last: Answer): Outcome {
    match last
    case Ok => Failed(AbsenceTimedOut)
    case Fails(ESRCH) => Cleaned
    case Fails(errno) => Failed(CheckFailed(errno))
  }

  /** A pause between two looks: ten milliseconds, or up to the end of the window. */
  predicate Paused(entry: Entry, deadline: nat)
    requires entry.call.Sleep?
  {
    0 < entry.call.ticks <= 10_000 && (entry.call.ticks == 10_000 || deadline <= entry.at)
  }

  /** `_wait_for_group_absence`. */
  method WaitForGroupAbsence(p: Process, window: nat) returns (o: Outcome)
    requires p.Valid()
    modifies p
    ensures p.Ran() && p.returncode == old(p.returncode)
    ensures old(p.Idle()) <= p.Idle() <= old(p.Idle()) + window
    ensures |p.log| > |old(p.log)| && p.log[|p.log| - 1].call.Probe?
    ensures o == AbsenceVerdict(p.log[|p.log| - 1].call.answer)
    ensures o.Cleaned? ==> p.members == {}
    // It gives up for want of a definite answer only at the end of the window,
    ensures p.log[|p.log| - 1].call.answer in {Ok, Fails(EPERM)} ==> old(p.clock) + window <= p.clock
    // and goes on, within the window, after each answer that is not definite.
    ensures forall i | |old(p.log)| <= i < |p.log| - 1 ::
              || (p.log[i].call.Sleep? && Paused(p.log[i], old(p.clock) + window))
              || (p.log[i].call.Probe? && p.log[i].call.answer in {Ok, Fails(EPERM)}
                  && p.log[i].at < old(p.clock) + window)
  {
    var deadline := p.clock + window;
    var denial: Option<Outcome> := None;
    while true
      invariant p.Ran() && p.returncode == old(p.returncode)
      invariant old(p.Idle()) <= p.Idle() && p.Idle() - old(p.Idle()) <= p.clock - old(p.clock)
      invariant p.Idle() <= old(p.Idle()) + window
      invariant forall i | |old(p.log)| <= i < |p.log| ::
                  || (p.log[i].call.Sleep? && Paused(p.log[i], deadline))
                  || (p.log[i].call.Probe? && p.log[i].call.answer in {Ok, Fails(EPERM)}
                      && p.log[i].at < old(p.clock) + window)
      decreases deadline - p.clock, if p.clock < deadline then 0 else 1
    {
      var answer := p.ProbeGroup();
      if answer == Fails(ESRCH) {
        return Cleaned;
      } else if answer == Fails(EPERM) {
        denial := Some(Failed(CheckFailed(EPERM)));
      } else if answer.Fails? {
        return Failed(CheckFailed(answer.errno));
      } else {
        denial := None;
      }
      if p.clock >= deadline {
        return if denial.Some? then denial.value else Failed(AbsenceTimedOut);
      }
      p.SleepFor(Min(POLL, deadline - p.clock));
    }
  }

  /** `_reap_leader`; None when the leader is reaped. */
  method ReapLeader(p: Process, window: nat) returns (raised: Option<Outcome>)
    requires p.Valid()
    modifies p
    ensures p.Ran() && old(p.Idle()) <= p.Idle() <= old(p.Idle()) + window
    ensures |p.log| == |old(p.log)| + 1 && p.log[|old(p.log)|].call.Wait?
    ensures raised == WaitVerdict(p.log[|old(p.log)|].call.result)
    ensures raised.None? <==> p.returncode.Some?
    ensures old(p.returncode).Some? ==> p.Idle() == old(p.Idle())
    ensures raised == Some(Lost) ==> p.leader.Gone?
  {
    var result := p.WaitLeader(window);
    raised := WaitVerdict(result);
  }

  function WaitVerdict(result: WaitAnswer): Option<Outcome> {
    match result
    case Reaped => None
    case TimedOut => Some(Failed(LeaderTimedOut))
    case NotChild => Some(Lost)
  }

  /** From here on the leader was killed and waited for, no more; the outcome is the
      group's error when it was reaped, and otherwise what went wrong with it. */
  ghost predicate BoundsLeader(log: seq<Entry>, from: nat, groupError: Failure, o: Outcome) {
    && |log| == from + 2 && log[from].call.KillLeader? && log[from + 1].call.Wait?
    && var killed := log[from].call.answer;
       var waited := WaitVerdict(log[from + 1].call.result);
       o == if waited.None? then Failed(groupError)
            else if killed.Fails? && !killed.errno.ESRCH? then Failed(LeaderSignalFailed)
            else waited.value
  }

  /** `_fail_after_group_signal_error`: kills and reaps the leader, and raises the
      group's error only when that much is done. */
  method FailAfterGroupSignalError(p: Process, groupError: Failure, window: nat) returns (o: Outcome)
    requires p.Valid() && (groupError.SignalFailed? || groupError.AbsentWhileRunning?)
    modifies p
    ensures p.Ran() && old(p.Idle()) <= p.Idle() <= old(p.Idle()) + window
    ensures BoundsLeader(p.log, |old(p.log)|, groupError, o)
    ensures o == Failed(groupError) ==> p.returncode.Some?
  {
    var signalError := false;
    var answer, _ := p.Kill();
    if answer.Fails? && !answer.errno.ESRCH? {
      signalError := true;
    }
    var raised := ReapLeader(p, window);
    if raised.Some? {
      return if signalError then Failed(LeaderSignalFailed) else raised.value;
    }
    return Failed(groupError);
  }

  /** No wait for the leader ran out between these two moments. */
  ghost predicate NoTimeout(log: seq<Entry>, from: nat) {
    forall i | from <= i < |log| :: log[i].call != Wait(TimedOut)
  }

  /** What the last call of a cleanup says of its outcome, one for one. */
  predicate Tells(last: Call, o: Outcome) {
    match o
    case Cleaned => last == Probe(Fails(ESRCH))
    case Lost => last == Inspect(NoChild) || last == Wait(NotChild)
    case Failed(CheckFailed(errno)) => last == Probe(Fails(errno)) && !errno.ESRCH?
    case Failed(AbsenceTimedOut) => last == Probe(Ok)
    case Failed(StatusCheckFailed) => last == Inspect(CannotInspect)
    case Failed(LeaderTimedOut) => last == Wait(TimedOut)
    case Failed(LeaderSignalFailed) => (last.Wait? && !last.result.Reaped?) || (last.KillLeader? && last.answer.Fails?)
    case Failed(_) => last == Wait(Reaped)
    case Refused => false
  }

  /** The last call comes after the reap. */
  ghost predicate ReapedBeforeLast(log: seq<Entry>) {
    exists i :: 0 <= i < |log| - 1 && Reaps(log[i].call)
  }

  /** What holds however a cleanup ends: Cleaned means that the group is empty,
      and no error of the group is raised before the leader is reaped. */
  ghost predicate Settles(o: Outcome, p: Process)
    reads p
  {
    && p.log != [] && Tells(p.log[|p.log| - 1].call, o)
    && (o.Cleaned? ==> p.members == {} && ReapedBeforeLast(p.log))
    && (o.Cleaned? || (o.Failed? && !o.why.LeaderSignalFailed? && !o.why.LeaderTimedOut? && !o.why.StatusCheckFailed?)
        ==> p.returncode.Some? && p.leader.Gone?)
  }

  /** `_signal_owned_group`: None when the group was signalled, and otherwise how
      the whole cleanup ends. */
  method SignalOwnedGroup(p: Process, signal: nat, leaderWindow: nat, absenceWindow: nat)
    returns (ended: Option<Outcome>)
    requires p.Valid() && p.returncode.None?
    modifies p
    ensures p.Ran() && old(p.Idle()) <= p.Idle() <= old(p.Idle()) + leaderWindow + absenceWindow
    ensures |p.log| > |old(p.log)|
    ensures p.log[|old(p.log)|].call.GroupSignal? && p.log[|old(p.log)|].call.signal == signal
    ensures old(p.clock) <= p.log[|old(p.log)|].at <= p.clock
    ensures ended.None? <==> p.log[|old(p.log)|].call.answer.Ok?
    ensures ended.None? ==>
              && |p.log| == |old(p.log)| + 1 && p.returncode.None? && p.Idle() == old(p.Idle())
              && p.clock == p.log[|old(p.log)|].at
    ensures ended.Some? ==> Settles(ended.value, p)
    ensures ended.Some? ==> Finishes(p.log, |old(p.log)| + 1, p.log[|old(p.log)|].call.answer.errno, ended.value)
    ensures forall i | |old(p.log)| < i < |p.log| :: !p.log[i].call.GroupSignal?
  {
    var answer, _ := p.SignalGroup(signal);
    if answer.Ok? {
      return None;
    }
    var o := AfterFailedSignal(p, answer.errno, leaderWindow, absenceWindow);
    ended := Some(o);
  }

  /** The reap, and the wait for absence after it. */
  method ReapThenWait(p: Process, leaderWindow: nat, absenceWindow: nat) returns (o: Outcome)
    requires p.Valid()
    modifies p
    ensures p.Ran() && old(p.Idle()) <= p.Idle() <= old(p.Idle()) + leaderWindow + absenceWindow
    ensures old(p.returncode).Some? ==> p.Idle() <= old(p.Idle()) + absenceWindow
    ensures Settles(o, p) && |p.log| > |old(p.log)| && p.log[|old(p.log)|].call.Wait?
    ensures forall i | |old(p.log)| <= i < |p.log| :: !p.log[i].call.GroupSignal? && !p.log[i].call.KillLeader?
  {
    var raised := ReapLeader(p, leaderWindow);
    if raised.Some? {
      return raised.value;
    }
    o := WaitForGroupAbsence(p, absenceWindow);
  }

  /** How a group that could not be signalled is finished, by errno and by whether
      the leader had exited: only then is it reaped without being killed. */
  ghost predicate Finishes(log: seq<Entry>, from: nat, errno: Errno, o: Outcome) {
    if errno.OtherErrno? then BoundsLeader(log, from, SignalFailed(errno), o)
    else
      && |log| > from && log[from].call.Inspect?
      && if log[from].call.found.StillRunning?
         then BoundsLeader(log, from + 1, if errno.EPERM? then SignalFailed(errno) else AbsentWhileRunning, o)
         else forall i | from < i < |log| :: !log[i].call.KillLeader?
  }

  /** The group could not be signalled: finish an exited leader's group, or bound a
      leader that still runs. */
  method AfterFailedSignal(p: Process, errno: Errno, leaderWindow: nat, absenceWindow: nat) returns (o: Outcome)
    requires p.Valid() && p.returncode.None?
    modifies p
    ensures p.Ran() && old(p.Idle()) <= p.Idle() <= old(p.Idle()) + leaderWindow + absenceWindow
    ensures Settles(o, p) && |p.log| > |old(p.log)|
    ensures Finishes(p.log, |old(p.log)|, errno, o)
    ensures forall i | |old(p.log)| <= i < |p.log| :: !p.log[i].call.GroupSignal?
  {
    if errno.OtherErrno? {
      o := FailAfterGroupSignalError(p, SignalFailed(errno), leaderWindow);
      return;
    }
    var exited, raised := LeaderExitedUnreaped(p);
    if raised.Some? {
      return raised.value;
    }
    if !exited {
      o := FailAfterGroupSignalError(p, if errno.EPERM? then SignalFailed(errno) else AbsentWhileRunning, leaderWindow);
      return;
    }
    o := ReapThenWait(p, leaderWindow, absenceWindow);
  }

  /** The graces owed to a leader: none if it had exited before the first signal. */
  function Owed(steps: seq<SignalStep>, exited: bool): nat {
    if exited then 0 else Graces(steps)
  }

  /** All the time a cleanup may spend in the graces of its steps. */
  function Graces(steps: seq<SignalStep>): nat {
    if steps == [] then 0 else Graces(steps[..|steps| - 1]) + steps[|steps| - 1].grace
  }

  /** The group signals among some calls, in order. */
  ghost function Sent(calls: seq<Entry>): (r: seq<Entry>)
    ensures forall i | 0 <= i < |r| :: r[i].call.GroupSignal?
  {
    if calls == [] then []
    else
      var last := calls[|calls| - 1];
      Sent(calls[..|calls| - 1]) + if last.call.GroupSignal? then [last] else []
  }

  lemma {:induction false} SentAppend(before: seq<Entry>, after: seq<Entry>)
    ensures Sent(before + after) == Sent(before) + Sent(after)
  {
    if after == [] {
      assert before + after == before;
    } else {
      var shorter := after[..|after| - 1];
      SentAppend(before, shorter);
      assert (before + after)[..|before + after| - 1] == before + shorter;
    }
  }

  lemma {:induction false} NothingSent(calls: seq<Entry>)
    requires forall i | 0 <= i < |calls| :: !calls[i].call.GroupSignal?
    ensures Sent(calls) == []
  {
    if calls != [] {
      NothingSent(calls[..|calls| - 1]);
    }
  }

  /** The signals sent are the first steps in order, and all but the last reached
      the group. */
  ghost predicate InOrder(sent: seq<Entry>, steps: seq<SignalStep>) {
    && |sent| <= |steps|
    && (forall i | 0 <= i < |sent| :: sent[i].call.GroupSignal? && sent[i].call.signal == steps[i].signal)
    && (forall i | 0 <= i < |sent| - 1 :: sent[i].call.answer.Ok?)
  }

  ghost predicate LastFailed(sent: seq<Entry>) {
    sent != [] && sent[|sent| - 1].call.GroupSignal? && sent[|sent| - 1].call.answer.Fails?
  }

  /** The grace of each step has passed before a later signal goes out. */
  ghost predicate KeepsGraces(sent: seq<Entry>, steps: seq<SignalStep>)
    requires |sent| <= |steps|
  {
    forall i, j | 0 <= i < j < |sent| :: sent[i].at + steps[i].grace <= sent[j].at
  }

  /** The grace of each step sent has passed by now. */
  ghost predicate GracesOver(sent: seq<Entry>, steps: seq<SignalStep>, now: nat)
    requires |sent| <= |steps|
  {
    forall i | 0 <= i < |sent| :: sent[i].at + steps[i].grace <= now
  }

  /** The leader is waited for, killed only if that fails, and waited for again. */
  ghost predicate Reaping(log: seq<Entry>, from: nat, o: Outcome) {
    && |log| > from && log[from].call.Wait?
    && if log[from].call.result.Reaped? then forall i | from < i < |log| :: !log[i].call.KillLeader?
       else
         && |log| > from + 1 && log[from + 1].call.KillLeader?
         && var killed := log[from + 1].call.answer;
            if killed.Fails? && !killed.errno.ESRCH? then |log| == from + 2 && o == Failed(LeaderSignalFailed)
            else |log| > from + 2 && log[from + 2].call.Wait?
  }

  /** The signals are out: reap, killing the leader if it does not end, and wait
      for the group to be gone (`process_groups.py:224-239`). */
  method ReapAndConfirm(p: Process, leaderWindow: nat, absenceWindow: nat) returns (o: Outcome)
    requires p.Valid() && p.returncode.None?
    modifies p
    ensures p.Ran() && |p.log| > |old(p.log)|
    ensures Settles(o, p) && Reaping(p.log, |old(p.log)|, o)
    ensures forall n | |old(p.log)| <= n < |p.log| :: !p.log[n].call.GroupSignal?
    ensures old(p.Idle()) <= p.Idle() <= old(p.Idle()) + 2 * leaderWindow + absenceWindow
    ensures NoTimeout(p.log, |old(p.log)|) ==> p.Idle() <= old(p.Idle()) + leaderWindow + absenceWindow
  {
    var raised := ReapLeader(p, leaderWindow);
    if raised.Some? {
      ghost var first := p.log[|old(p.log)|];
      var answer, _ := p.Kill();
      if answer.Fails? && !answer.errno.ESRCH? {
        return Failed(LeaderSignalFailed);
      }
      o := ReapThenWait(p, leaderWindow, absenceWindow);
      assert p.log[|old(p.log)|] == first;
    } else {
      o := WaitForGroupAbsence(p, absenceWindow);
    }
  }

  lemma GracesGrow(steps: seq<SignalStep>, k: nat)
    requires k <= |steps|
    ensures k < |steps| ==> Graces(steps[..k + 1]) == Graces(steps[..k]) + steps[k].grace
    ensures Graces(steps[..k]) <= Graces(steps)
    decreases |steps| - k
  {
    if k < |steps| {
      assert steps[..k + 1][..k] == steps[..k];
      GracesGrow(steps, k + 1);
    } else {
      assert steps[..k] == steps;
    }
  }

  /** Every signal so far reached the group, and its grace has passed. */
  ghost predicate AllReached(sent: seq<Entry>, steps: seq<SignalStep>, exited: bool, now: nat) {
    && InOrder(sent, steps)
    && (forall i | 0 <= i < |sent| :: sent[i].call.answer.Ok?)
    && (!exited ==> KeepsGraces(sent, steps) && GracesOver(sent, steps, now))
  }

  lemma NoneReached(steps: seq<SignalStep>, exited: bool, now: nat)
    ensures AllReached([], steps, exited, now)
  {
  }

  lemma OneMore(sent: seq<Entry>, signal: Entry, steps: seq<SignalStep>, exited: bool, before: nat, now: nat)
    requires AllReached(sent, steps, exited, before) && |sent| < |steps|
    requires signal.call.GroupSignal? && signal.call.signal == steps[|sent|].signal
    requires before <= signal.at <= now
    ensures InOrder(sent + [signal], steps)
    ensures !exited ==> KeepsGraces(sent + [signal], steps)
    ensures signal.call.answer.Fails? ==> LastFailed(sent + [signal])
    ensures signal.call.answer.Ok? && (!exited ==> signal.at + steps[|sent|].grace <= now) ==>
              AllReached(sent + [signal], steps, exited, now)
  {
  }

  /** One pass of the loop over the steps: the signal, then its grace. */
  method SendStep(p: Process, step: SignalStep, leaderWindow: nat, absenceWindow: nat, alreadyExited: bool,
                  ghost from: nat)
    returns (ended: Option<Outcome>, ghost signal: Entry)
    requires p.Valid() && p.returncode.None? && from <= |p.log|
    modifies p
    ensures p.Ran() && |p.log| > |old(p.log)|
    ensures Sent(p.log[from..]) == Sent(old(p.log)[from..]) + [signal]
    ensures signal.call.GroupSignal? && signal.call.signal == step.signal
    ensures old(p.clock) <= signal.at <= p.clock
    ensures ended.None? <==> signal.call.answer.Ok?
    ensures ended.None? ==> p.returncode.None? && p.Idle() <= old(p.Idle()) + if alreadyExited then 0 else step.grace
    ensures ended.None? && !alreadyExited ==> signal.at + step.grace <= p.clock
    ensures ended.Some? ==> Settles(ended.value, p)
    ensures ended.Some? ==> p.Idle() <= old(p.Idle()) + leaderWindow + absenceWindow
  {
    hide Settles;
    ended := SignalOwnedGroup(p, step.signal, leaderWindow, absenceWindow);
    signal := p.log[|old(p.log)|];
    OneSent(old(p.log), p.log, from);
    if ended.None? && step.grace > 0 && !alreadyExited {
      ghost var signalled := p.log;
      p.SleepFor(step.grace);
      NoneSent(signalled, p.log, from);
    }
  }

  /** The loop over the steps. */
  method SendSteps(p: Process, steps: seq<SignalStep>, leaderWindow: nat, absenceWindow: nat, alreadyExited: bool)
    returns (ended: Option<Outcome>, ghost sent: seq<Entry>)
    requires p.Valid() && p.returncode.None? && steps != []
    modifies p
    ensures p.Ran() && |p.log| > |old(p.log)|
    ensures sent == Sent(p.log[|old(p.log)|..]) && sent != [] && InOrder(sent, steps)
    ensures !alreadyExited ==> KeepsGraces(sent, steps)
    ensures ended.None? ==> |sent| == |steps| && p.returncode.None?
    ensures ended.Some? ==> LastFailed(sent) && Settles(ended.value, p)
    ensures p.Idle() <= old(p.Idle()) + Owed(steps, alreadyExited)
                        + if ended.None? then 0 else leaderWindow + absenceWindow
  {
    hide Settles, InOrder, KeepsGraces, GracesOver, LastFailed;
    sent := [];
    NoneReached(steps, alreadyExited, p.clock);
    for k := 0 to |steps|
      invariant p.Ran() && p.returncode.None? && (k > 0 ==> |p.log| > |old(p.log)|)
      invariant sent == Sent(p.log[|old(p.log)|..]) && |sent| == k
      invariant AllReached(sent, steps, alreadyExited, p.clock)
      invariant p.Idle() <= old(p.Idle()) + Owed(steps[..k], alreadyExited)
    {
      label Loop:
      GracesGrow(steps, k);
      ghost var signal;
      ended, signal := SendStep(p, steps[k], leaderWindow, absenceWindow, alreadyExited, |old(p.log)|);
      OneMore(sent, signal, steps, alreadyExited, old@Loop(p.clock), p.clock);
      sent := sent + [signal];
      if ended.Some? {
        return ended, sent;
      }
    }
    GracesGrow(steps, |steps|);
    ended := None;
  }

  lemma OneSent(before: seq<Entry>, log: seq<Entry>, from: nat)
    requires from <= |before| < |log| && before <= log
    requires log[|before|].call.GroupSignal?
    requires forall i | |before| < i < |log| :: !log[i].call.GroupSignal?
    ensures Sent(log[from..]) == Sent(before[from..]) + [log[|before|]]
  {
    var one, rest := [log[|before|]], log[|before| + 1..];
    assert log[from..] == before[from..] + (one + rest);
    SentAppend(before[from..], one + rest);
    SentAppend(one, rest);
    NothingSent(rest);
    assert one[..0] == [];
  }

  lemma NoneSent(before: seq<Entry>, log: seq<Entry>, from: nat)
    requires from <= |before| && before <= log
    requires forall i | |before| <= i < |log| :: !log[i].call.GroupSignal?
    ensures Sent(log[from..]) == Sent(before[from..])
  {
    assert log[from..] == before[from..] + log[|before|..];
    SentAppend(before[from..], log[|before|..]);
    NothingSent(log[|before|..]);
  }

  /** The loop over the steps, and what follows it (`process_groups.py:208-239`). */
  method SignalAndReap(p: Process, steps: seq<SignalStep>, leaderWindow: nat, absenceWindow: nat, alreadyExited: bool)
    returns (o: Outcome)
    requires p.Valid() && p.returncode.None? && steps != []
    modifies p
    ensures p.Ran() && |p.log| > |old(p.log)| && Settles(o, p) && !o.Refused?
    ensures var sent := Sent(p.log[|old(p.log)|..]);
            && InOrder(sent, steps) && (|sent| < |steps| ==> LastFailed(sent))
            && (!alreadyExited ==> KeepsGraces(sent, steps))
    ensures p.Idle() <= old(p.Idle()) + Owed(steps, alreadyExited) + 2 * leaderWindow + absenceWindow
    ensures NoTimeout(p.log, |old(p.log)|) ==>
              p.Idle() <= old(p.Idle()) + Owed(steps, alreadyExited) + leaderWindow + absenceWindow
  {
    hide InOrder, KeepsGraces, LastFailed, Reaping;
    var ended;
    ghost var sent;
    ended, sent := SendSteps(p, steps, leaderWindow, absenceWindow, alreadyExited);
    if ended.Some? {
      return ended.value;
    }
    ghost var signalled := p.log;
    o := ReapAndConfirm(p, leaderWindow, absenceWindow);
    NoneSent(signalled, p.log, |old(p.log)|);
  }

  lemma InspectionSettles(o: Outcome, p: Process)
    requires p.log != [] && p.log[|p.log| - 1].call.Inspect?
    requires match p.log[|p.log| - 1].call.found
             case NoChild => o == Lost
             case CannotInspect => o == Failed(StatusCheckFailed)
             case _ => false
    ensures Settles(o, p)
  {
  }

  lemma NothingInOrder(steps: seq<SignalStep>)
    ensures InOrder([], steps) && KeepsGraces([], steps)
  {
  }

  /** `terminate_and_reap`. */
  method TerminateAndReap(p: Process, steps: seq<SignalStep>, leaderWindow: nat, absenceWindow: nat)
    returns (o: Outcome)
    requires p.Valid()
    modifies p
    ensures o.Refused? <==> steps == [] || leaderWindow == 0 || absenceWindow == 0
    ensures o.Refused? ==> p.log == old(p.log)
    ensures p.Ran()
    ensures old(p.returncode).Some? && !o.Refused? ==> o == Lost && p.log == old(p.log)
    ensures old(p.returncode).None? && !o.Refused? ==> |p.log| > |old(p.log)| && Settles(o, p)
    // The group signals sent are the steps in order, up to one that failed.
    ensures InOrder(Sent(p.log[|old(p.log)|..]), steps)
    ensures var sent := Sent(p.log[|old(p.log)|..]);
            !o.Refused? && |sent| < |steps| ==>
              if sent == [] then o == Lost || o == Failed(StatusCheckFailed) else LastFailed(sent)
    // A leader that had not exited at the start is given each grace.
    ensures |p.log| > |old(p.log)| ==>
              && p.log[|old(p.log)|].call.Inspect?
              && (!p.log[|old(p.log)|].call.found.Exited? ==> KeepsGraces(Sent(p.log[|old(p.log)|..]), steps))
    // No nonzero signal, to the group or to the leader, follows the reap.
    ensures forall i, j | |old(p.log)| <= i < j < |p.log| && Reaps(p.log[i].call) :: !Sends(p.log[j].call)
    // It ends within its windows, and spends no grace on a leader that had exited.
    ensures p.Idle() <= old(p.Idle()) + Graces(steps) + 2 * leaderWindow + absenceWindow
    ensures NoTimeout(p.log, |old(p.log)|) ==>
              p.Idle() <= old(p.Idle()) + Graces(steps) + leaderWindow + absenceWindow
    ensures |p.log| > |old(p.log)| && p.log[|old(p.log)|].call == Inspect(Exited) ==>
              p.Idle() <= old(p.Idle()) + 2 * leaderWindow + absenceWindow
  {
    hide InOrder, KeepsGraces, Settles;
    NothingInOrder(steps);
    if steps == [] || leaderWindow == 0 || absenceWindow == 0 {
      return Refused;
    }
    var alreadyExited, raised := LeaderExitedUnreaped(p);
    ghost var inspected := p.log;
    if raised.Some? {
      NoneSent(old(p.log), inspected, |old(p.log)|);
      if old(p.returncode).None? {
        InspectionSettles(raised.value, p);
      }
      return raised.value;
    }
    o := SignalAndReap(p, steps, leaderWindow, absenceWindow, alreadyExited);
    SentAfterInspection(old(p.log), inspected, p.log);
  }

  lemma SentAfterInspection(before: seq<Entry>, inspected: seq<Entry>, log: seq<Entry>)
    requires before <= inspected <= log && |inspected| == |before| + 1
    requires !inspected[|before|].call.GroupSignal?
    ensures Sent(log[|before|..]) == Sent(log[|inspected|..])
  {
    assert log[|before|..] == inspected[|before|..] + log[|inspected|..];
    SentAppend(inspected[|before|..], log[|inspected|..]);
    NothingSent(inspected[|before|..]);
  }
}
