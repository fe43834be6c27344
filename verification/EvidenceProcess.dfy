/** One selected process under its evidence bounds: `run_process` of
    `conformance/sq_evidence_process.py`, with SIGTERM and SIGINT arriving
    between any two of its steps, its own cleanup included. */
module EvidenceProcess {
  import opened Basics
  import opened Captures
  import opened JsonValues
  import opened Kernel
  import opened ProcessGroups
  import opened ReceiptChain

  const KILL_GRACE := SECOND
  const INNER_CLEANUP := 250 * MILLISECOND + 2 * KILL_GRACE
  const OUTER_MARGIN := SECOND
  const SIGTERM := 15
  const SIGKILL := 9

  datatype Mode = ForTool | ForProbe

  function Timeout(mode: Mode): nat {
    match mode case ForTool => 120 * SECOND case ForProbe => 900 * SECOND
  }

  function TerminateGrace(mode: Mode): nat {
    match mode case ForTool => 250 * MILLISECOND case ForProbe => INNER_CLEANUP + OUTER_MARGIN
  }

  function Steps(mode: Mode): seq<SignalStep> {
    [SignalStep(SIGTERM, TerminateGrace(mode)), SignalStep(SIGKILL, 0)]
  }

  /** `_normalized_status`. */
  function Normalized(returncode: int): int {
    if returncode >= 0 then returncode else 128 - returncode
  }

  /** `System` is an OSError that the helper does not turn into one of its own. */
  datatype Error = Boundary | OwnershipLost | Interrupted | Keyboard | System

  /** A step that may raise. */
  datatype Effect = Fine | Raise(error: Error) {
    predicate IsFailure() {
      Raise?
    }
    function PropagateFailure(): Effect
      requires Raise?
    {
      this
    }
  }

  /** What a status says of how the process ended: its exit code, or 128 and the number
      of the signal that ended it. */
  predicate Reports(status: int, returncode: int) {
    if returncode >= 0 then status == returncode else status - 128 == 0 - returncode
  }

  lemma NormalizedReports(returncode: int)
    ensures forall status :: Reports(status, returncode) <==> status == Normalized(returncode)
  {
  }

  /** A status below 128 is an exit code, one of 125 only of that code; and only an exit
      code above 128 shares its status with a signal. */
  lemma StatusesDiffer(a: int, b: int, status: int)
    requires Reports(status, a) && Reports(status, b)
    ensures a == b || (a > 128 && b == 128 - a) || (b > 128 && a == 128 - b)
    ensures status < 128 ==> a == b && a == status
    ensures status == 125 <==> a == 125
  {
  }

  /** How `run_process` ends: normally, with an exception, or with the helper killed. */
  datatype End = Returned(status: int) | Raises(error: Error) | Killed

  /** Reading goes on in the same stream, and a pipe closes only at its end. */
  ghost predicate Reads(q: Pipe, r: Pipe) {
    && r.stream == q.stream && q.delivered <= r.delivered && q.flushed <= r.flushed
    && (q.eof ==> r.eof) && (q.open && !r.open ==> r.eof) && (!q.open ==> !r.open)
  }

  /** No byte read so far was beyond the limit, and no capture was cut short. */
  predicate Kept(q: Pipe) {
    q.delivered <= STREAM_LIMIT && !q.torn
  }

  lemma CaptureReads(q: Pipe, n: nat, tear: Tear, to: nat)
    requires PipeInv(q) && q.open && 0 < n <= |q.stream| - q.delivered
    ensures var r := Flush(Capture(q, n, tear), to);
            && PipeInv(r) && Reads(q, r)
            && (tear.Nowhere? && n <= Available(q) && Kept(q) ==> Kept(r))
  {
    hide PipeInv, Positions;
    Capturable(q);
    CaptureKeeps(q, n, tear);
    Capturable(Capture(q, n, tear));
    FlushKeeps(Capture(q, n, tear), to);
  }

  /** SIGTERM went to the group and then SIGKILL, unless the one before it could not be
      delivered; and a leader that had not exited was given its grace between the two. */
  ghost predicate Signalled(mode: Mode, calls: seq<Entry>) {
    var sent := Sent(calls);
    && 1 <= |sent| <= 2 && sent[0].call.signal == 15
    && (if |sent| == 1 then sent[0].call.answer.Fails? else sent[0].call.answer.Ok? && sent[1].call.signal == 9)
    && calls[0].call.Inspect?
    && (|sent| == 2 && !calls[0].call.found.Exited? ==>
          sent[0].at + (if mode.ForTool? then 250_000 else 3_250_000) <= sent[1].at)
  }

  lemma TwoSteps(mode: Mode)
    ensures |Steps(mode)| == 2
  {
  }

  lemma {:induction false} StepsAreSignalled(mode: Mode, calls: seq<Entry>)
    requires InOrder(Sent(calls), Steps(mode))
    requires |Sent(calls)| < |Steps(mode)| ==> LastFailed(Sent(calls))
    requires calls != [] ==>
               && calls[0].call.Inspect?
               && (!calls[0].call.found.Exited? ==> KeepsGraces(Sent(calls), Steps(mode)))
    ensures Signalled(mode, calls)
  {
    var sent := Sent(calls);
    if |sent| == 2 && !calls[0].call.found.Exited? {
      assert sent[0].at + Steps(mode)[0].grace <= sent[1].at;
    }
  }

  class Execution {
    const mode: Mode
    const process: Process
    var started: bool
    var cleanupComplete: bool
    var interruptionRequested: bool
    var marker: bool           // the cancellation marker of the probe exists
    var output: Pipe
    var errors: Pipe
    var filesChecked: bool     // no regular file was found to have reached its bound
    var note: Receipt          // the runner receipt, as the runner leaves it
    var noteConsumed: bool     // it was found complete, and removed
    var receipt: Receipt       // the process receipt
    var status: Receipt        // the status file
    var written: Option<int>   // its text

    ghost predicate Absent()
      reads this, process
    {
      process.members == {} && process.returncode.Some? && process.leader.Gone?
    }

    /** Every stream was captured to its end. */
    ghost predicate Captured()
      reads this
    {
      Ended(output) && Ended(errors)
    }

    /** What receipt and status say is true, at every moment of a run. */
    ghost predicate Valid()
      reads this, process
    {
      && process.Valid()
      && PipeInv(output) && PipeInv(errors)
      && (!started ==> !cleanupComplete && process.returncode.None?)
      && (cleanupComplete ==> Absent())
      && (!receipt.Missing? ==> !started || cleanupComplete)
      && (!receipt.Missing? && mode.ForProbe? && started && process.returncode != Some(125) ==> noteConsumed)
      && (!status.Missing? ==>
            && receipt.Complete? && started && cleanupComplete && filesChecked
            && Captured()
            && process.returncode != Some(125))
      && (status.Complete? ==> written.Some? && Reports(written.value, process.returncode.value))
    }

    /** Nothing is taken back: what a step or any number of them does goes forward. */
    twostate predicate Advanced()
      reads this, process
    {
      && (old(started) ==> started)
      && (old(cleanupComplete) ==> cleanupComplete)
      && (old(started) && old(process.members) == {} ==> process.members == {})
      && (!old(receipt).Missing? ==> !receipt.Missing? && started == old(started))
      && (old(receipt).Complete? ==> receipt.Complete?)
    }

    constructor (mode: Mode)
      ensures Valid() && this.mode == mode && !started && receipt.Missing? && status.Missing?
      ensures fresh(process)
    {
      this.mode := mode;
      process := new Process();
      started, cleanupComplete, interruptionRequested, marker := false, false, false, false;
      note := Missing;
      filesChecked, noteConsumed := false, false;
      receipt, status, written := Missing, Missing, None;
      var out: seq<bv8> :| true;
      var err: seq<bv8> :| true;
      output := Pipe(out, 0, false, false, [], 0, 0, false);
      errors := Pipe(err, 0, false, false, [], 0, 0, false);
    }

    /** A signal may be handled here: SIGTERM raises once, SIGINT every time. Meanwhile
        the marker may be written, by the aggregate, and the runner receipt, by the runner. */
    method Checkpoint() returns (r: Effect)
      modifies this`interruptionRequested, this`marker, this`note
      ensures old(marker) ==> marker
      ensures r.Raise? ==>
              r.error.Keyboard? || (r.error.Interrupted? && !old(interruptionRequested) && interruptionRequested)
    {
      r := Fine;
      if * {
        marker := true;
      }
      var left: Receipt :| true;
      note := left;
      if * {
        r := Raise(Keyboard);
      } else if * {
        if !interruptionRequested {
          interruptionRequested := true;
          r := Raise(Interrupted);
        }
      }
    }

    /** `_cancellation_requested`. */
    predicate Cancelled()
      reads this
    {
      mode.ForProbe? && marker
    }

    /** One ready stream is read once: its chunk is read, written and counted, and an
        exception may cut that short after each step. */
    method ReadPipe(q: Pipe) returns (r: Pipe, effect: Effect)
      requires PipeInv(q)
      modifies this`interruptionRequested, this`marker, this`note
      ensures PipeInv(r) && Reads(q, r)
      ensures effect.Fine? && Kept(q) ==> Kept(r)
    {
      var blocked: bool :| true;
      if !q.open || blocked {
        return q, Fine;
      }
      var n: nat :| n <= CHUNK && n <= |q.stream| - q.delivered && (n == 0 ==> q.delivered == |q.stream|);
      if n == 0 {
        return q.(open := false, eof := true), Fine;
      }
      r, effect := CaptureChunk(q, n);
    }

    /** `destination.write` of the last `n` bytes read, and whatever it flushes. It may
        raise, with a part of them taken (`sq_evidence_process.py:364`). */
    method WriteChunk(q: Pipe, n: nat) returns (r: Pipe, effect: Effect, ghost kept: nat)
      requires n <= q.delivered && q.count <= STREAM_LIMIT && q.flushed <= |q.origin|
      ensures kept <= Min(n, Available(q)) && (effect.Fine? ==> kept == Min(n, Available(q)))
      ensures r == Write(q, n, kept).(flushed := r.flushed) && q.flushed <= r.flushed <= |r.origin|
    {
      var taken: nat := Min(n, Available(q));
      effect := Fine;
      if * {
        taken :| taken <= Min(n, Available(q));
        effect := Raise(System);
      }
      var to: nat :| true;
      kept := taken;
      r := Flush(Write(q, n, taken), to);
    }

    /** The capture of a chunk of `n` bytes (`sq_evidence_process.py:354-368`). */
    method CaptureChunk(q: Pipe, n: nat) returns (r: Pipe, effect: Effect)
      requires PipeInv(q) && q.open && 0 < n <= |q.stream| - q.delivered
      modifies this`interruptionRequested, this`marker, this`note
      ensures exists tear, to ::
                r == Flush(Capture(q, n, tear), to) && (effect.Fine? && HasRoom(q) ==> tear == Nowhere)
      ensures PipeInv(r) && Reads(q, r)
      ensures effect.Fine? && Kept(q) ==> Kept(r)
    {
      hide PipeInv, Positions;
      Capturable(q);
      var available := Available(q);
      r := Read(q, n);
      effect := Checkpoint();
      ghost var tear := Nowhere;
      if available > 0 {
        ghost var kept := 0;
        if effect.Fine? {
          r, effect, kept := WriteChunk(r, n);
        }
        if effect.Fine? {
          effect := Checkpoint();
        }
        if effect.Fine? {
          r := Count(r, n);
        } else {
          tear := Cut(kept);
          r := r.(torn := true);
        }
      }
      if effect.Fine? && n > available {
        var to: nat :| true;
        r := Flush(r, to);
        if * {
          effect := Raise(System);
        } else {
          effect := Raise(Boundary);
        }
      }
      assert r == Flush(Capture(q, n, tear), r.flushed);
      hide Capture, Flush, Read, Write, Count;
      CaptureReads(q, n, tear, r.flushed);
      if effect.Fine? {
        effect := Checkpoint();
      }
    }

    /** The reads of one round over the ready streams. */
    method ReadReady() returns (r: Effect, any: bool)
      requires Valid() && status.Missing?
      modifies this`output, this`errors, this`interruptionRequested, this`marker, this`note
      ensures Valid()
      ensures Advanced()
      ensures !any ==> output == old(output) && errors == old(errors)
      ensures Reads(old(output), output) && Reads(old(errors), errors)
      ensures r.Fine? ==> (Kept(old(output)) ==> Kept(output)) && (Kept(old(errors)) ==> Kept(errors))
    {
      hide PipeInv;
      r, any := Fine, false;
      if * {
        any := true;
        output, r := ReadPipe(output);
      }
      if r.Fine? {
        if * {
          any := true;
          errors, r := ReadPipe(errors);
        }
      }
    }

    /** `_capture_ready_streams`. */
    method CaptureReadyStreams() returns (r: Effect, any: bool)
      requires Valid() && status.Missing?
      modifies this`output, this`errors, this`interruptionRequested, this`marker, this`note
      modifies process`leader, process`members, process`stolen, process`clock, process`excess
      ensures Valid() && process.Evolved() && old(process.clock) < process.clock
      ensures Advanced()
      ensures !any ==> output == old(output) && errors == old(errors)
      ensures Reads(old(output), output) && Reads(old(errors), errors)
      ensures r.Fine? ==> (Kept(old(output)) ==> Kept(output)) && (Kept(old(errors)) ==> Kept(errors))
    {
      hide PipeInv;
      process.Select();
      any := false;
      r := Checkpoint();
      if r.Fine? {
        r, any := ReadReady();
      }
    }

    /** Any part of a cleanup that an exception then cuts short. */
    method Fragment()
      requires process.Valid()
      modifies process
      ensures process.Valid() && process.Evolved()
    {
      var calls: nat :| true;
      while calls > 0
        invariant process.Valid() && process.Evolved()
      {
        if * {
          var _, _ := process.SignalGroup(SIGKILL);
        } else if * {
          var _, _ := process.Kill();
        } else {
          var _ := process.WaitLeader(KILL_GRACE);
        }
        calls := calls - 1;
      }
    }

    /** `_terminate_and_reap`, which an exception may cut short. */
    method TerminateProcess() returns (r: Effect)
      requires process.Valid()
      modifies process, this`interruptionRequested, this`marker, this`note
      ensures process.Valid() && process.Evolved()
      ensures r.Fine? ==> Absent()
      ensures r.Fine? ==> exists k | 0 <= k <= |process.log| :: Signalled(mode, process.log[k..])
    {
      hide InOrder, KeepsGraces, Signalled, Sent, LastFailed, Steps, NoTimeout, ReapedBeforeLast;
      if * {
        Fragment();
        var raised := Checkpoint();
        if raised.Raise? {
          return raised;
        }
      }
      ghost var before := |process.log|;
      var o := TerminateAndReap(process, Steps(mode), KILL_GRACE, KILL_GRACE);
      if o.Cleaned? {
        TwoSteps(mode);
        StepsAreSignalled(mode, process.log[before..]);
      }
      r := if o.Cleaned? then Fine else Raise(if o.Lost? then OwnershipLost else Boundary);
    }

    /** The cleanup, and then `cleanup_complete = True`. */
    method CleanUp() returns (r: Effect)
      requires Valid() && started && !cleanupComplete
      modifies process, this`cleanupComplete, this`interruptionRequested, this`marker, this`note
      ensures Valid() && process.Evolved()
      ensures Advanced()
      ensures r.Fine? <==> cleanupComplete
    {
      hide PipeInv, Ended;
      r := TerminateProcess();
      if r.Fine? {
        r := Checkpoint();
        cleanupComplete := r.Fine?;
      }
    }

    /** The start of a round: cancellation, and a leader that has exited. */
    method CheckLeader() returns (r: Effect)
      requires Valid() && started
      modifies process, this`cleanupComplete, this`interruptionRequested, this`marker, this`note
      ensures Valid() && process.Evolved()
      ensures Advanced()
      ensures old(cleanupComplete) ==> cleanupComplete
      ensures old(Cancelled()) ==> r == Raise(Interrupted) && process.log == old(process.log)
    {
      hide PipeInv, Ended;
      if Cancelled() {
        return Raise(Interrupted);
      }
      r := Fine;
      if !cleanupComplete {
        var exited, raised := LeaderExitedUnreaped(process);
        if raised.Some? {
          return Raise(if raised.value.Lost? then OwnershipLost else Boundary);
        }
        if exited {
          r := CleanUp();
        }
      }
    }

    /** `record_completed_cleanup`: the runner receipt is consumed before the
        process receipt is written, and both only after the cleanup. */
    method RecordCompletedCleanup() returns (r: Effect)
      requires Valid()
      modifies this`noteConsumed, this`receipt, this`interruptionRequested, this`marker, this`note
      ensures Valid()
      ensures Advanced()
      ensures r.Fine? ==> receipt.Complete? && old(receipt).Missing?
      ensures noteConsumed && !old(noteConsumed) ==> old(note).Complete?
      ensures r.Fine? && mode.ForProbe? && started && process.returncode != Some(125) ==>
                !old(noteConsumed) && old(note).Complete? && noteConsumed
      ensures started && !cleanupComplete ==> r.Raise? && receipt == old(receipt)
      ensures old(receipt).Complete? ==> receipt.Complete?
    {
      hide PipeInv, Ended;
      if started && !cleanupComplete {
        return Raise(Boundary);
      }
      if mode.ForProbe? && started && process.returncode != Some(125) {
        if noteConsumed || !note.Complete? {
          return Raise(Boundary);
        }
        noteConsumed, note := true, Missing;
        :- Checkpoint();
      }
      if !receipt.Missing? {
        return Raise(Boundary);
      }
      receipt := Partial;
      :- Checkpoint();
      if * {
        return Raise(Boundary);
      }
      receipt := Complete;
      r := Checkpoint();
    }

    /** The process is started with both signals blocked, so that a started
        process is always known as such. */
    method StartProcess() returns (r: Effect)
      requires Valid() && !started && receipt.Missing? && status.Missing?
      requires !output.open && !errors.open && !output.eof && !errors.eof
      modifies this`started, this`output, this`errors, this`interruptionRequested, this`marker, this`note
      ensures Valid()
      ensures Advanced()
      ensures old(Cancelled()) ==> !started && r == Raise(Interrupted)
      ensures r.Fine? ==> started && output == old(output).(open := true) && errors == old(errors).(open := true)
      ensures output == old(output).(open := output.open) && errors == old(errors).(open := errors.open)
    {
      if Cancelled() {
        return Raise(Interrupted);
      }
      :- Checkpoint();
      if * {
        return Raise(Boundary);
      }
      started := true;
      :- Checkpoint();
      output := output.(open := true);
      :- Checkpoint();
      errors := errors.(open := true);
      r := Checkpoint();
    }

    /** The supervising loop, until both streams are at their end and the process
        group is gone. */
    method Watch() returns (r: Effect)
      requires Valid() && started && !cleanupComplete && receipt.Missing? && status.Missing?
      requires output.open && errors.open && Kept(output) && Kept(errors)
      modifies process, this`output, this`errors, this`cleanupComplete
      modifies this`interruptionRequested, this`marker, this`note
      ensures Valid()
      ensures Advanced()
      ensures r.Fine? ==> cleanupComplete && Captured()
      ensures old(Cancelled()) ==> r == Raise(Interrupted)
    {
      var deadline := process.clock + Timeout(mode);
      while output.open || errors.open || !cleanupComplete
        invariant Valid() && Advanced()
        invariant Kept(output) && Kept(errors)
        invariant (output.open || output.eof) && (errors.open || errors.eof)
        invariant old(Cancelled()) ==> Cancelled() && output.open
        decreases if process.clock < deadline then deadline - process.clock else 0,
                  if process.clock < deadline then 0 else 1
      {
        :- CheckLeader();
        if process.clock >= deadline {
          return Raise(Boundary);
        }
        if !output.open && !errors.open {
          process.SleepFor(Min(POLL, deadline - process.clock));
          :- Checkpoint();
        } else {
          var any;
          r, any := CaptureReadyStreams();
          :- r;
        }
      }
      IntactIffUntorn(output);
      IntactIffUntorn(errors);
      r := Fine;
    }

    /** The status file, created, written and closed. Neither captured file is flushed. */
    method WriteStatus() returns (r: Effect)
      requires Valid() && status.Missing? && receipt.Complete? && started && cleanupComplete && filesChecked
      requires Captured() && process.returncode != Some(125)
      modifies this`status, this`written, this`interruptionRequested, this`marker, this`note
      ensures Valid()
      ensures Advanced()
      ensures r.Fine? ==> status.Complete?
      ensures status.Complete? ==> written.Some? && Reports(written.value, process.returncode.value)
      ensures !status.Missing? ==> (BothOnDisk((output, errors)) <==> Emptied(output) && Emptied(errors))
    {
      hide PipeInv, Ended;
      EndedOnDisk(output);
      EndedOnDisk(errors);
      if * {
        return Raise(Boundary);
      }
      status := Partial;
      :- Checkpoint();
      if * {
        return Raise(Boundary);
      }
      NormalizedReports(process.returncode.value);
      status, written := Complete, Some(Normalized(process.returncode.value));
      r := Checkpoint();
    }

    /** The body of the `try` statement of `run_process`. */
    method Supervise() returns (r: Effect)
      requires Valid() && Untouched()
      modifies process, this
      ensures Valid()
      ensures Advanced()
      ensures old(Cancelled()) ==> !started && r == Raise(Interrupted)
      ensures r.Fine? ==> status.Complete?
    {
      hide PipeInv, Ended;
      r := StartProcess();
      :- r;
      :- Watch();
      var within: bool :| true;
      filesChecked := within;
      if !within {
        return Raise(Boundary);
      }
      NormalizedReports(process.returncode.value);
      if Normalized(process.returncode.value) == 125 {
        return Raise(Boundary);
      }
      :- RecordCompletedCleanup();
      r := WriteStatus();
    }

    /** Nothing has been started, read or written yet. */
    ghost predicate Untouched()
      reads this
    {
      && !started && receipt.Missing? && status.Missing?
      && output.delivered == 0 && errors.delivered == 0 && !output.torn && !errors.torn
      && !output.open && !errors.open && !output.eof && !errors.eof
    }

    /** Whatever can still be read within the grace, up to an overflow. */
    method Drain() returns (r: Effect, ghost idle: bool)
      requires Valid()
      modifies this`output, this`errors, this`interruptionRequested, this`marker, this`note
      modifies process`leader, process`members, process`stolen, process`clock, process`excess
      ensures Valid() && process.Evolved()
      // It stops when both streams have ended, when its time is over, or after a round
      // that found nothing.
      ensures Reads(old(output), output) && Reads(old(errors), errors)
      ensures r.Fine? ==> (!output.open && !errors.open) || old(process.clock) + KILL_GRACE <= process.clock || idle
      ensures Advanced()
    {
      hide PipeInv;
      idle := false;
      var deadline := process.clock + KILL_GRACE;
      while output.open || errors.open
        invariant Valid() && process.Evolved()
        invariant Reads(old(output), output) && Reads(old(errors), errors)
        decreases if process.clock < deadline then deadline - process.clock else 0
      {
        if process.clock >= deadline {
          break;
        }
        var any;
        r, any := CaptureReadyStreams();
        :- r;
        if !any {
          idle := true;
          break;
        }
      }
      r := Fine;
    }

    /** The handler of every exception of the body. It raises the original again, or
        what went wrong in the handler in its place. */
    method Finalize(original: Error) returns (raised: Error, again: bool, ghost idle: bool)
      requires Valid()
      modifies process, this
      ensures Valid()
      ensures started == old(started)
      ensures Advanced()
      // An error that comes back unchanged left a complete receipt behind, unless
      // the process could not be accounted for.
      ensures again ==> raised == original && (receipt.Complete? <==> !started || cleanupComplete)
      // And whatever could still be read within the grace was captured.
      ensures again && (!started || cleanupComplete) ==>
                (!output.open && !errors.open) || old(process.clock) + KILL_GRACE <= process.clock || idle
    {
      hide PipeInv, Ended;
      var r: Effect;
      idle := false;
      if started && !cleanupComplete && process.returncode.None? && !original.OwnershipLost? {
        r := CleanUp();
        if r.Raise? {
          return r.error, false, idle;
        }
      }
      if started && !cleanupComplete {
        return original, true, idle;
      }
      r, idle := Drain();
      if r.Raise? {
        return r.error, false, idle;
      }
      r := RecordCompletedCleanup();
      if r.Raise? {
        return r.error, false, idle;
      }
      return original, true, idle;
    }

    /** The `finally`, which ends with the closes of the captured files. The helper may
        be interrupted or killed anywhere in it, and a close may raise. */
    method CloseOutputs() returns (stopped: Option<End>, ghost fate: Fate)
      requires Valid()
      modifies this`output, this`errors, this`interruptionRequested, this`marker, this`note
      ensures (output, errors) == CloseFiles(old(output), old(errors), fate)
      ensures (stopped.Some? ==> !stopped.value.Returned?) && (stopped.None? ==> fate.Both?)
    {
      hide PipeInv, Ended;
      fate := NotReached;
      stopped := Stopped();
      if stopped.Some? {
        return;
      }
      if * {
        var to: nat :| true;
        output := Flush(output, to);
        return Some(Raises(System)), FirstRaises(to);
      }
      output, fate := Close(output), FirstOnly;
      stopped := Stopped();
      if stopped.Some? {
        return;
      }
      if * {
        var to: nat :| true;
        errors := Flush(errors, to);
        return Some(Raises(System)), SecondRaises(to);
      }
      errors, fate := Close(errors), Both;
      stopped := Stopped();
    }

    /** A signal may be handled here, or the helper killed. */
    method Stopped() returns (stopped: Option<End>)
      modifies this`interruptionRequested, this`marker, this`note
      ensures stopped.Some? ==> !stopped.value.Returned?
    {
      if * {
        return Some(Killed);
      }
      var r := Checkpoint();
      stopped := if r.Raise? then Some(Raises(r.error)) else None;
    }

    /** `run_process`. Valid() holds before and after every step of it, so that
        its clauses hold of the files at every moment, and whatever happens later:
        a receipt only without a process or with its group empty, its leader reaped
        and, for a probe that got past its exec wrapper, the runner receipt
        consumed; a status only after the receipt and beside streams captured to
        their ends, which are on the disk as `OnDiskIff` says. */
    method RunProcess() returns (end: End, ghost fate: Fate)
      requires Valid() && Untouched()
      modifies process, this
      ensures Valid()
      ensures Advanced()
      ensures end.Returned? ==>
                status.Complete? && written == Some(end.status) && receipt.Complete? && BothOnDisk((output, errors))
      // The status tells how the process ended, and 125 is never one.
      ensures !status.Missing? ==> process.returncode.Some? && process.returncode != Some(125)
      ensures status.Complete? ==> written.Some? && Reports(written.value, process.returncode.value)
      ensures !receipt.Missing? && started ==>
                Absent() && (mode.ForProbe? && process.returncode != Some(125) ==> noteConsumed)
      ensures !status.Missing? ==> receipt.Complete? && Absent() && Captured()
      // A probe cancelled before it begins starts nothing.
      ensures old(Cancelled()) ==> !started && !end.Returned?
      // A status stands beside complete files on the disk if and only if both closes
      // succeeded, or nothing was left in either buffer.
      ensures !status.Missing? ==>
                (BothOnDisk((output, errors)) <==> fate.Both? || (Emptied(output) && Emptied(errors)))
      // At every moment, and so at the end: each file is an in-order selection of its
      // stream, and a rightly counted prefix exactly when no capture was cut short.
      ensures PipeInv(output) && (Intact(output) <==> !output.torn)
      ensures PipeInv(errors) && (Intact(errors) <==> !errors.torn)
    {
      hide PipeInv, Ended, CloseFiles, BothOnDisk;
      var r := Supervise();
      if r.Fine? {
        end := End.Returned(written.value);
      } else {
        var raised, _, _ := Finalize(r.error);
        end := Raises(raised);
      }
      ghost var out, err := output, errors;
      var stopped;
      stopped, fate := CloseOutputs();
      CloseKeeps(out, err, fate);
      if stopped.Some? {
        end := stopped.value;
      }
      IntactIffUntorn(output);
      IntactIffUntorn(errors);
      if !status.Missing? {
        OnDiskIff(out, err, fate);
      }
    }
  }

  /** At every moment from the creation of the status on, so wherever the helper is
      killed: the files beside it are complete on the disk exactly when nothing is left
      in the buffers. */
  lemma StatusOnDisk(e: Execution)
    requires e.Valid() && !e.status.Missing?
    ensures BothOnDisk((e.output, e.errors)) <==> Emptied(e.output) && Emptied(e.errors)
  {
    EndedOnDisk(e.output);
    EndedOnDisk(e.errors);
  }

  /** A tool's cleanup that does not run out of patience with the leader fits its
      window, and the window fits the grace of the probe around it with a margin. */
  lemma ProbeGraceOutlastsToolCleanup()
    ensures Timeout(ForTool) == 120_000_000 && Timeout(ForProbe) == 900_000_000
    ensures Graces(Steps(ForTool)) == 250_000 && KILL_GRACE == 1_000_000
    ensures Graces(Steps(ForTool)) + KILL_GRACE + KILL_GRACE == INNER_CLEANUP
    ensures TerminateGrace(ForProbe) == INNER_CLEANUP + OUTER_MARGIN
    ensures Graces(Steps(ForProbe)) == TerminateGrace(ForProbe)
  {
    GracesOfTwo(TerminateGrace(ForTool));
    GracesOfTwo(TerminateGrace(ForProbe));
  }

  lemma GracesOfTwo(grace: nat)
    ensures Graces([SignalStep(SIGTERM, grace), SignalStep(SIGKILL, 0)]) == grace
  {
    var steps := [SignalStep(SIGTERM, grace), SignalStep(SIGKILL, 0)];
    assert steps[..1] == [SignalStep(SIGTERM, grace)];
    assert steps[..1][..0] == [];
    assert Graces(steps[..1]) == Graces([]) + grace;
  }
}
