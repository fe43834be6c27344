/** The one-shot custody adapter (`adapters/fido_custody.py`): one worker, one
    envelope in, one bounded answer out, with cancellation deferred to the end. */
module Custody {
  import opened Basics
  import opened JsonValues
  import opened Kernel
  import opened ProcessGroups
  import opened CallerSignals
  import opened CustodyAnswer
  import opened HandlerEpisode

  const CHUNK: nat := 65536
  const SIGKILL := 9
  const CLEANUP_WINDOW := 500 * MILLISECOND

  datatype Stream = Input | Output | Errors

  /** How the exchange with the worker ends. */
  datatype Exchange =
    | Exchanged(output: Bytes, errors: Bytes)
    | Cancelled
    | TimedOut
    | TooLarge(stream: Stream)
    | IoFailure
    | OwnershipLost
    | GroupFailure

  /** One end of a pipe to or from the worker. `stream` is all that the worker will
      ever write to it, and `delivered` how much of that has been read. */
  datatype Source = Source(stream: Bytes, delivered: nat, open: bool)

  /** What a reader holds is what was delivered, and no more than one byte over. */
  ghost predicate Buffers(q: Source, buffer: Bytes, limit: nat) {
    && q.delivered <= |q.stream| && buffer == q.stream[..q.delivered]
    && |buffer| <= limit + 1
    && (q.open || buffer == q.stream)
  }

  /** How far the exchange has come. */
  datatype Progress = Progress(offset: nat, output: Bytes, errors: Bytes)

  /** How the adapter's work ends before its cleanup. */
  datatype Attempt = Answered(output: Bytes) | FailedWith(why: Why) | CancelledByCaller | CallerRaised

  /** How `unwrap` ends. `Propagated` hands a deferred cancellation to the caller's
      previous disposition; `TakenOver` means that disposition ran by itself, at a
      moment when the adapter's handler was not installed; `RestoreRaised` is the
      TypeError of `signal.signal` for a previous handler of None. */
  datatype Exit =
    | Returned(plaintext: Bytes, evidence: Evidence)
    | Failure(why: Why)
    | CleanupFailed
    | Propagated(signal: Signal)
    | TakenOver
    | RestoreRaised

  /** What comes of an attempt when the worker is gone and nothing was cancelled. An
      answer is returned exactly when the worker ended with status 0 and the answer
      vouches for the plaintext; otherwise it is refused for the first of its faults. */
  ghost predicate Decided(exit: Exit, attempt: Attempt, returncode: Option<int>, request: Request, lib: Library) {
    match attempt
    case FailedWith(why) => exit == Failure(why)
    case Answered(output) =>
      && (exit == Failure(WorkerFailure) <==> returncode != Some(0))
      && (forall plaintext, evidence :: exit == Returned(plaintext, evidence) <==>
            returncode == Some(0) && Vouched(output, request, lib, plaintext, evidence))
      && (exit.Returned? || exit.Failure?)
      && (returncode == Some(0) && exit.Failure? ==> exists k :: RefusedFor(exit, k, output, request, lib))
    case _ => exit.TakenOver?
  }

  ghost predicate RefusedFor(exit: Exit, k: nat, output: Bytes, request: Request, lib: Library) {
    && k < |ORDER| && exit == Failure(ORDER[k]) && Faulty(ORDER[k], output, request, lib)
    && forall i | 0 <= i < k :: !Faulty(ORDER[i], output, request, lib)
  }

  lemma DecidesExactly(attempt: Attempt, returncode: Option<int>, request: Request, lib: Library)
    ensures match attempt
            case FailedWith(why) => Decided(Failure(why), attempt, returncode, request, lib)
            case Answered(output) =>
              var answer := Judge(output, request, lib);
              var exit :=
                if returncode != Some(0) then Failure(WorkerFailure)
                else if answer.Accepted? then Returned(answer.plaintext, answer.evidence) else Failure(answer.why);
              Decided(exit, attempt, returncode, request, lib)
            case _ => Decided(TakenOver, attempt, returncode, request, lib)
  {
    hide Judge, Vouched, Faulty;
    if attempt.Answered? {
      var output := attempt.output;
      var answer := Judge(output, request, lib);
      RefusalInOrder(output, request, lib);
      forall plaintext, evidence
        ensures answer == Accepted(plaintext, evidence) <==> Vouched(output, request, lib, plaintext, evidence)
      {
        JudgesExactly(output, request, lib, plaintext, evidence);
      }
      if answer.Refused? {
        var k :| 0 <= k < |ORDER| && ORDER[k] == answer.why;
        RefusesForTheFirst(output, request, lib, k);
        assert returncode == Some(0) ==> RefusedFor(Failure(answer.why), k, output, request, lib);
      }
    }
  }

  /** A plaintext needs an answer that vouches for it, and a refusal of the answer never
      blames the exchange. */
  lemma DecidedShape(exit: Exit, attempt: Attempt, returncode: Option<int>, request: Request, lib: Library)
    ensures Decided(exit, attempt, returncode, request, lib) ==>
              match exit
              case Returned(plaintext, evidence) =>
                attempt.Answered? && returncode == Some(0) && Vouched(attempt.output, request, lib, plaintext, evidence)
              case Failure(why) =>
                || attempt == FailedWith(why)
                || (attempt.Answered?
                    && why !in {WorkerUnavailable, WorkerTimeout, OutputTooLarge, WorkerIo, WorkerOwnership}
                    && why !in {WorkerGroup, WorkerInterrupted})
              case TakenOver => attempt.CancelledByCaller? || attempt.CallerRaised?
              case _ => false
  {
    hide Vouched, Faulty;
    if attempt.Answered? && exit.Failure? && returncode == Some(0) && Decided(exit, attempt, returncode, request, lib) {
      var k: nat :| RefusedFor(exit, k, attempt.output, request, lib);
      assert ORDER[k] in ORDER;
    }
  }

  lemma RefusalInOrder(output: Bytes, request: Request, lib: Library)
    ensures Judge(output, request, lib).Refused? ==> Judge(output, request, lib).why in ORDER
    ensures WorkerFailure !in ORDER
  {
    RefusesForTheFirst(output, request, lib, 0);
  }

  class Unwrapping {
    const process: Process
    const siblings: bool       // another thread may take a signal this one blocks
    var signals: Signals
    var raisedOnEntry: bool    // a caller's handler raised out of the first mask call
    var disturbed: bool        // one raised while the adapter's were put in place
    var stuck: bool            // a previous handler was None and could not be put back
    var spawned: bool
    var owned: bool            // process_owned
    var cleanup: Option<Outcome>  // how the worker's cleanup ended, once it has
    var inputOpen: bool
    var output: Source
    var errors: Source
    ghost var received: Bytes  // what the worker's standard input has taken
    ghost var ioFailed: bool   // a call on a pipe raised an OSError other than BlockingIOError

    ghost predicate Valid()
      reads this, process
    {
      process.Valid() && KeepsFirst(signals) && (!spawned ==> process.returncode.None?)
    }

    constructor (mask: set<Signal>, handlers: Handlers, siblings: bool)
      requires !handlers.forInt.Defer? && !handlers.forTerm.Defer?
      ensures Valid() && Untouched() && fresh(process)
      ensures signals == Signals(mask, {}, handlers, None, [], false)
    {
      process := new Process();
      this.siblings, signals := siblings, Signals(mask, {}, handlers, None, [], false);
      raisedOnEntry, disturbed, stuck := false, false, false;
      spawned, owned, cleanup, inputOpen := false, true, None, false;
      var out: Bytes :| true;
      var err: Bytes :| true;
      output, errors, received, ioFailed := Source(out, 0, false), Source(err, 0, false), [], false;
    }

    /** A call about to begin, the caller's own handlers in place. */
    ghost predicate Untouched()
      reads this
    {
      && !spawned && owned && cleanup.None? && received == [] && !ioFailed
      && output.delivered == 0 && errors.delivered == 0
      && signals.seen == [] && !signals.ended && !raisedOnEntry && !disturbed && !stuck
      && !signals.handlers.forInt.Defer? && !signals.handlers.forTerm.Defer?
    }

    /** Signals that arrive between two steps. The result says that the caller's own
        disposition has taken over. */
    method Interleave() returns (taken: bool, ghost script: seq<Arrival>)
      requires KeepsFirst(signals)
      modifies this`signals
      ensures (signals, taken) == ArriveAll(old(signals), script) && (!siblings ==> NoSibling(script))
      ensures !taken ==> Passes(old(signals), signals)
      ensures KeepsFirst(signals) && SameButSeen(old(signals), signals) && signals.mask == old(signals).mask
      ensures Deferring(old(signals).handlers) ==> !taken
      ensures !taken ==> signals.ended == old(signals).ended
      ensures old(signals).mask == BOTH && !siblings ==> !taken && signals.seen == old(signals).seen
    {
      var chosen := Script();
      script := chosen;
      ArrivalsOnlyRecord(signals, chosen);
      var r := ArriveAll(signals, chosen);
      signals, taken := r.0, r.1;
    }

    method Script() returns (script: seq<Arrival>)
      ensures !siblings ==> NoSibling(script)
    {
      script := [];
      var n: nat :| true;
      while n > 0
        invariant !siblings ==> NoSibling(script)
      {
        var a: Arrival :| true;
        script := script + [a.(sibling := a.sibling && siblings)];
        n := n - 1;
      }
    }

    /** `os.write` to the worker's standard input, which does not block. */
    method WriteInput(bytes: Bytes) returns (written: nat, blocked: bool, failed: bool)
      requires inputOpen
      modifies this`received, this`ioFailed
      ensures ioFailed == (old(ioFailed) || failed)
      ensures written <= |bytes| && received == old(received) + bytes[..written]
      ensures blocked || failed ==> written == 0
      ensures !blocked && !failed && bytes != [] ==> written > 0
    {
      written, blocked, failed := 0, false, false;
      if * {
        blocked := true;
      } else if * {
        failed := true;
      } else {
        written :| written <= |bytes| && (bytes != [] ==> written > 0);
      }
      ioFailed := ioFailed || failed;
      received := received + bytes[..written];
    }

    /** `os.read` of up to `limit` bytes, which does not block. */
    method ReadSource(q: Source, buffer: Bytes, limit: nat)
      returns (r: Source, chunk: Bytes, blocked: bool, failed: bool)
      requires q.open && limit > 0 && q.delivered <= |q.stream| && buffer == q.stream[..q.delivered]
      modifies this`ioFailed
      ensures ioFailed == (old(ioFailed) || failed)
      ensures r == q.(delivered := q.delivered + |chunk|)
      ensures |chunk| <= limit && r.delivered <= |r.stream| && buffer + chunk == r.stream[..r.delivered]
      ensures blocked || failed ==> chunk == []
      ensures !blocked && !failed && chunk == [] ==> q.delivered == |q.stream|
    {
      r, chunk, blocked, failed := q, [], false, false;
      if * {
        blocked := true;
      } else if * {
        failed := true;
      } else {
        var n: nat :| n <= limit && n <= |q.stream| - q.delivered && (n == 0 ==> q.delivered == |q.stream|);
        chunk := q.stream[q.delivered..q.delivered + n];
        r := q.(delivered := q.delivered + n);
      }
      ioFailed := ioFailed || failed;
    }

    /** One event of a selector for an output stream (`fido_custody.py:220-231`). */
    method ReadEvent(q: Source, buffer: Bytes, limit: nat)
      returns (r: Source, longer: Bytes, blocked: bool, failed: bool)
      requires q.open && Buffers(q, buffer, limit) && |buffer| <= limit
      modifies this`ioFailed
      ensures ioFailed == (old(ioFailed) || failed) && (failed ==> longer == buffer)
      ensures Buffers(r, longer, limit) && r.stream == q.stream && buffer <= longer
      ensures !blocked && !failed ==> |longer| > |buffer| || (!r.open && longer == r.stream)
    {
      var chunk;
      r, chunk, blocked, failed := ReadSource(q, buffer, Min(CHUNK, limit - |buffer| + 1));
      longer := buffer + chunk;
      if !blocked && !failed && chunk == [] {
        r := r.(open := false);
      }
    }

    predicate Open(stream: Stream)
      reads this
    {
      match stream case Input => inputOpen case Output => output.open case Errors => errors.open
    }

    /** Every stream is served up to here, within the bounds. */
    ghost predicate Serving(g: Progress, input: Bytes, limit: nat)
      reads this
    {
      && !ioFailed && g.offset <= |input| && received == input[..g.offset] && (inputOpen || g.offset == |input|)
      && Buffers(output, g.output, limit) && |g.output| <= limit
      && Buffers(errors, g.errors, limit) && |g.errors| <= limit
    }

    /** Whatever happened, the worker got a prefix of the input, and no stream was
        read more than one byte past the limit. */
    ghost predicate Bounded(input: Bytes, limit: nat)
      reads this
    {
      received <= input && output.delivered <= limit + 1 && errors.delivered <= limit + 1
    }

    /** The same two streams as before, whatever was read of them. */
    twostate predicate SameStreams()
      reads this
    {
      output.stream == old(output).stream && errors.stream == old(errors).stream
    }

    /** More of this stream was exchanged, or it has ended. */
    predicate MovesOn(g: Progress, next: Progress, stream: Stream)
      reads this
    {
      match stream
      case Input => next.offset > g.offset || !inputOpen
      case Output => |next.output| > |g.output| || !output.open
      case Errors => |next.errors| > |g.errors| || !errors.open
    }

    /** One event of the selector (`fido_custody.py:204-231`). */
    method ServeEvent(stream: Stream, g: Progress, input: Bytes, limit: nat, deadline: nat)
      returns (next: Progress, r: Option<Exchange>, ghost blocked: bool)
      requires Serving(g, input, limit) && Open(stream)
      modifies this`inputOpen, this`output, this`errors, this`received, this`ioFailed
      ensures SameStreams() && Bounded(input, limit)
      ensures r.None? ==> Serving(next, input, limit)
      // An event that does not block moves its stream on, or ends it.
      ensures r.None? && !blocked && input != [] ==> MovesOn(g, next, stream)
      ensures forall other: Stream | other != stream :: Open(other) == old(Open(other))
      ensures r.Some? ==> !r.value.Exchanged? && Justified(r.value, limit, deadline)
    {
      next, r := g, None;
      var failed, passed: bool;
      match stream {
        case Input =>
          var bytes := input[g.offset..Min(g.offset + CHUNK, |input|)];
          var written;
          written, passed, failed := WriteInput(bytes);
          PrefixGrows(input, g.offset, written);
          assert bytes[..written] == input[g.offset..g.offset + written];
          if !passed && !failed {
            next := g.(offset := g.offset + written);
            inputOpen := next.offset != |input|;
          }
        case Output =>
          var buffer;
          output, buffer, passed, failed := ReadEvent(output, g.output, limit);
          next := g.(output := buffer);
          if |buffer| > limit {
            return next, Some(TooLarge(Output)), passed;
          }
        case Errors =>
          var buffer;
          errors, buffer, passed, failed := ReadEvent(errors, g.errors, limit);
          next := g.(errors := buffer);
          if |buffer| > limit {
            return next, Some(TooLarge(Errors)), passed;
          }
      }
      blocked := passed;
      if failed {
        r := Some(IoFailure);
      }
    }

    /** The events of one round, in the order the selector gives them. */
    method ServeEvents(events: seq<Stream>, g: Progress, input: Bytes, limit: nat, deadline: nat)
      returns (next: Progress, r: Option<Exchange>)
      requires Serving(g, input, limit)
      requires forall j | 0 <= j < |events| :: Open(events[j])
      requires forall i, j | 0 <= i < j < |events| :: events[i] != events[j]
      modifies this`inputOpen, this`output, this`errors, this`received, this`ioFailed
      ensures SameStreams() && Bounded(input, limit)
      ensures r.None? ==> Serving(next, input, limit)
      ensures r.Some? ==> !r.value.Exchanged? && Justified(r.value, limit, deadline)
    {
      next, r := g, None;
      for k := 0 to |events|
        invariant SameStreams() && Serving(next, input, limit)
        invariant forall j | k <= j < |events| :: Open(events[j])
      {
        ghost var blocked;
        next, r, blocked := ServeEvent(events[k], next, input, limit, deadline);
        if r.Some? {
          return;
        }
      }
      r := None;
    }

    /** Some of the streams the selector has, each at most once, in any order. */
    method ReadyStreams() returns (events: seq<Stream>)
      ensures forall j | 0 <= j < |events| :: Open(events[j])
      ensures forall i, j | 0 <= i < j < |events| :: events[i] != events[j]
    {
      events := [];
      var left := {Input, Output, Errors};
      while left != {}
        invariant forall j | 0 <= j < |events| :: Open(events[j]) && events[j] !in left
        invariant forall i, j | 0 <= i < j < |events| :: events[i] != events[j]
        decreases left
      {
        var stream :| stream in left;
        left := left - {stream};
        if Open(stream) {
          var ready: bool :| true;
          events := if ready then events + [stream] else events;
        }
      }
    }

    /** What the last look at the leader found. */
    ghost predicate LastFound(found: Inspection)
      reads process
    {
      process.log != [] && process.log[|process.log| - 1].call == Inspect(found)
    }

    /** Why an exchange ended as it did. */
    ghost predicate Justified(x: Exchange, limit: nat, deadline: nat)
      reads this, process
    {
      && (x.IoFailure? <==> ioFailed)
      && (x.OwnershipLost? ==> process.returncode.Some? || LastFound(NoChild))
      && (x.GroupFailure? ==> LastFound(CannotInspect))
      && (x.Exchanged? ==> LastFound(Exited))
      && (x.Cancelled? ==> signals.cancellation.Some?)
      && (x.TimedOut? ==> deadline <= process.clock)
      && (x.TooLarge? ==>
          (x.stream.Output? && |output.stream| > limit) || (x.stream.Errors? && |errors.stream| > limit))
    }

    /** What waiting for the worker leaves alone. */
    twostate predicate Waited()
      reads this, process
    {
      && Valid() && SameButSeen(old(signals), signals) && signals.mask == old(signals).mask
      && Passes(old(signals), signals)
      && process.Ran() && process.returncode == old(process.returncode)
    }

    /** `_bounded_communicate`. */
    method BoundedCommunicate(input: Bytes, timeout: nat, limit: nat) returns (r: Exchange)
      requires Valid() && spawned && Deferring(signals.handlers)
      requires received == [] && output.delivered == 0 && errors.delivered == 0 && !ioFailed
      modifies process, this`signals, this`inputOpen, this`output, this`errors, this`received, this`ioFailed
      ensures Waited() && SameStreams() && Bounded(input, limit)
      // A normal return: all of the input, once, and both streams complete.
      ensures r.Exchanged? ==>
                && received == input
                && r.output == output.stream && r.errors == errors.stream
                && |r.output| <= limit && |r.errors| <= limit
      ensures Justified(r, limit, old(process.clock) + timeout)
      ensures old(signals).cancellation.Some? ==> (r.Cancelled? || r.IoFailure?) && NothingMoved()
    {
      hide Passes, SameButSeen;
      NothingPasses(signals);
      var g := Progress(0, [], []);
      var deadline := process.clock + timeout;
      if * { // setting the pipes up fails
        ioFailed := true;
        return IoFailure;
      }
      inputOpen, output, errors := true, output.(open := true), errors.(open := true);
      while inputOpen || output.open || errors.open
        invariant Waited() && SameStreams() && Serving(g, input, limit) && signals.handlers == old(signals).handlers
        invariant old(signals).cancellation.Some? ==> signals == old(signals) && inputOpen && NothingMoved()
        decreases if process.clock < deadline then deadline - process.clock else 0
      {
        var given;
        ghost var before := signals;
        g, given := Round(g, input, limit, deadline);
        PassesOn(old(signals), before, signals);
        if given.Some? {
          return given.value;
        }
      }
      ghost var before := signals;
      r := AwaitExit(deadline, limit);
      PassesOn(old(signals), before, signals);
      if r.Exchanged? {
        r := Exchanged(g.output, g.errors);
      }
    }

    /** No byte went in or out. */
    twostate predicate NothingMoved()
      reads this
    {
      && received == old(received)
      && output.delivered == old(output).delivered && errors.delivered == old(errors).delivered
    }

    /** One round of the exchange (`fido_custody.py:194-231`). */
    method Round(g: Progress, input: Bytes, limit: nat, deadline: nat) returns (next: Progress, given: Option<Exchange>)
      requires Valid() && spawned && Deferring(signals.handlers) && Serving(g, input, limit)
      modifies process, this`signals, this`inputOpen, this`output, this`errors, this`received, this`ioFailed
      ensures Waited() && SameStreams() && Bounded(input, limit)
      ensures given.None? ==>
              Serving(next, input, limit) && old(process.clock) < process.clock && old(process.clock) < deadline
      ensures given.Some? ==> !given.value.Exchanged? && Justified(given.value, limit, deadline)
      // Once a cancellation is recorded no byte goes in or out.
      ensures signals.cancellation.Some? <==> given == Some(Cancelled)
      ensures old(signals).cancellation.Some? ==> given == Some(Cancelled)
      ensures given == Some(Cancelled) ==> NothingMoved()
    {
      hide Passes;
      next := g;
      given := Poll(deadline, limit);
      if given.None? {
        var events := ReadyStreams();
        next, given := ServeEvents(events, g, input, limit, deadline);
      }
    }

    /** Cancellation, the deadline, and the wait for an event. */
    method Poll(deadline: nat, limit: nat) returns (given: Option<Exchange>)
      requires Valid() && spawned && Deferring(signals.handlers) && !ioFailed
      modifies process, this`signals
      ensures Waited()
      ensures given.None? ==> old(process.clock) < process.clock && old(process.clock) < deadline
      ensures given.Some? ==> !given.value.Exchanged? && Justified(given.value, limit, deadline)
      ensures signals.cancellation.Some? <==> given == Some(Cancelled)
      ensures old(signals).cancellation.Some? ==> given == Some(Cancelled)
    {
      hide Passes;
      var _, _ := Interleave();
      if signals.cancellation.Some? {
        return Some(Cancelled);
      }
      if process.clock >= deadline {
        return Some(Exchange.TimedOut);
      }
      process.Select();
      given := None;
    }

    /** The wait for the leader after both streams ended (`fido_custody.py:235-242`). */
    method AwaitExit(deadline: nat, limit: nat) returns (r: Exchange)
      requires Valid() && spawned && Deferring(signals.handlers) && !ioFailed
      modifies process, this`signals
      ensures Waited() && Justified(r, limit, deadline)
      ensures r.TimedOut? ==> signals.cancellation.None?
    {
      hide Passes, SameButSeen;
      NothingPasses(signals);
      while true
        invariant Waited() && signals.handlers == old(signals).handlers
        decreases if process.clock < deadline then deadline - process.clock else 0
      {
        var exited, raised := LeaderExitedUnreaped(process);
        if raised.Some? {
          return if raised.value.Lost? then OwnershipLost else GroupFailure;
        }
        if exited {
          return Exchanged([], []);
        }
        ghost var before := signals;
        var _, _ := Interleave();
        PassesOn(old(signals), before, signals);
        if signals.cancellation.Some? {
          return Cancelled;
        }
        if process.clock >= deadline {
          return Exchange.TimedOut;
        }
        process.SleepFor(Min(POLL, deadline - process.clock));
      }
    }

    /** The worker is gone with all of its group. */
    ghost predicate Absent()
      reads process
    {
      process.members == {} && process.returncode.Some? && process.leader.Gone?
    }

    /** The loop that puts the deferring handler in place of every one the caller does
        not ignore (`fido_custody.py:323-329`). */
    method InstallHandlers() returns (installed: seq<Signal>, taken: bool, ghost arrivals: seq<seq<Arrival>>)
      requires KeepsFirst(signals)
      modifies this`signals
      ensures (signals, installed, taken) == Install(old(signals), [Int, Term], [], arrivals)
      ensures !siblings ==> Alone(arrivals)
    {
      hide ArriveAll;
      var scripts, _ := Scripts();
      arrivals := scripts;
      var todo := [Int, Term];
      installed := [];
      while todo != []
        invariant Install(signals, todo, installed, scripts) == Install(old(signals), [Int, Term], [], arrivals)
        decreases |todo|
      {
        var before := ArriveAll(signals, Now(scripts));
        signals, taken, scripts := before.0, before.1, Later(scripts);
        if taken {
          return;
        }
        if !signals.handlers.Of(todo[0]).Ignore? {
          signals := signals.(handlers := signals.handlers.Set(todo[0], Defer));
          var after := ArriveAll(signals, Now(scripts));
          signals, taken, scripts := after.0, after.1, Later(scripts);
          if taken {
            return;
          }
          installed := installed + [todo[0]];
        }
        todo := todo[1..];
      }
      taken := false;
    }

    /** Starts the worker with both signals blocked, then restores the entry mask
        (`fido_custody.py:330-378`). None when there is a worker to talk to. */
    method StartWorker(entryMask: set<Signal>) returns (a: Option<Attempt>, ghost start: seq<Arrival>)
      requires Valid() && !spawned && Deferring(signals.handlers)
      modifies this`signals, this`spawned
      ensures signals == Started(old(signals), entryMask, start)
      // A cancellation recorded before the mask is set ends the start, and one recorded
      // before the worker is started keeps it from being started.
      ensures a == Some(CancelledByCaller) <==> ArriveAll(old(signals), start).0.cancellation.Some?
      ensures old(signals).cancellation.Some? ==> !spawned
      ensures Valid() && SameButSeen(old(signals), signals) && signals.mask == entryMask
      ensures a.None? ==> spawned
      ensures a.Some? ==> a == Some(CancelledByCaller) || a == Some(FailedWith(WorkerUnavailable))
      ensures a == Some(CancelledByCaller) ==> signals.cancellation.Some?
      ensures a == Some(FailedWith(WorkerUnavailable)) ==> !spawned
    {
      hide ArriveAll, SetMask, Passes;
      a := None;
      var taken;
      taken, start := Interleave();
      ghost var more := [];
      if signals.cancellation.Some? {
        a := Some(CancelledByCaller);
      } else if * {
        a := Some(FailedWith(WorkerUnavailable));
        taken, more := Interleave();
        ArriveMore(old(signals), start, more);
        if signals.cancellation.Some? {
          a := Some(CancelledByCaller);
        }
      } else {
        spawned := true;
        taken, more := Interleave();
        ArriveMore(old(signals), start, more);
        if signals.cancellation.Some? {
          a := Some(CancelledByCaller);
        }
      }
      assert start + [] == start;
      start := start + more;
      MaskOnlyRecords(signals, entryMask, false);
      signals := SetMask(signals, entryMask, false).0;
    }

    /** Some look at the leader found this. */
    ghost predicate Found(found: Inspection)
      reads process
    {
      exists i :: 0 <= i < |process.log| && process.log[i].call == Inspect(found)
    }

    /** Every failure is blamed on what failed: a call on a pipe, the start of the worker, a
        look at its leader, the time that passed, the size of a stream. */
    ghost predicate Deserved(a: Attempt, limit: nat, deadline: nat)
      reads this, process
    {
      && (a == FailedWith(WorkerIo) ==> ioFailed)
      && (a == FailedWith(WorkerUnavailable) ==> !spawned)
      && (a == FailedWith(WorkerGroup) ==> Found(CannotInspect))
      && (a == FailedWith(WorkerTimeout) ==> deadline <= process.clock)
      && (a == FailedWith(OutputTooLarge) ==> |output.stream| > limit || |errors.stream| > limit)
    }

    /** What an exchange that did not complete raises (`fido_custody.py:387-401`). */
    function Verdict(x: Exchange): Attempt {
      match x
      case Exchanged(out, _) => Answered(out)
      case Cancelled => CancelledByCaller
      case TimedOut => FailedWith(WorkerTimeout)
      case TooLarge(_) => FailedWith(OutputTooLarge)
      case IoFailure => FailedWith(WorkerIo)
      case OwnershipLost => FailedWith(WorkerOwnership)
      case GroupFailure => FailedWith(WorkerGroup)
    }

    /** The body of the outer `try` after the handlers are installed. */
    method Talk(input: Bytes, timeout: nat, limit: nat, entryMask: set<Signal>)
      returns (a: Attempt, ghost start: seq<Arrival>)
      requires Valid() && !spawned && owned && Deferring(signals.handlers)
      requires received == [] && output.delivered == 0 && errors.delivered == 0 && !ioFailed
      modifies process, this`signals, this`spawned, this`owned
      modifies this`inputOpen, this`output, this`errors, this`received, this`ioFailed
      ensures Valid() && SameButSeen(old(signals), signals) && signals.mask == entryMask
      ensures Passes(Started(old(signals), entryMask, start), signals)
      ensures process.Ran() && process.returncode == old(process.returncode)
      ensures !owned <==> a == FailedWith(WorkerOwnership)
      ensures ioFailed ==> a == FailedWith(WorkerIo)
      ensures Deserved(a, limit, old(process.clock) + timeout)
      ensures a.Answered? ==> Complete(a.output, input, limit)
      ensures a.CancelledByCaller? ==> signals.cancellation.Some?
      ensures !a.CallerRaised? && a != FailedWith(WorkerInterrupted)
    {
      hide Passes, Started;
      var early;
      early, start := StartWorker(entryMask);
      NothingPasses(signals);
      if early.Some? {
        a := early.value;
        return;
      }
      var x := BoundedCommunicate(input, timeout, limit);
      if x.OwnershipLost? {
        owned := false;
      }
      a := Verdict(x);
    }

    /** The outer `finally`: both signals blocked again, the worker cleaned up, the
        caller's handlers and mask restored (`fido_custody.py:403-419`). */
    method WindUp(installed: seq<Signal>, entry: Handlers, entryMask: set<Signal>)
      returns (taken: bool, ghost work: seq<Arrival>, ghost restore: seq<seq<Arrival>>, ghost last: bool)
      requires Valid() && Between(signals.handlers, entry) && Wanted(signals, entry) && cleanup.None? && !stuck
      requires Deferring(signals.handlers) || (siblings && !spawned)
      modifies process, this`signals, this`cleanup, this`stuck
      ensures Valid() && process.Ran() && old(signals).seen <= signals.seen && Wanted(signals, entry)
      ensures (signals, taken) == Unwind(old(signals), installed, entry, entryMask, work, restore, last)
      ensures !siblings ==> Alone(restore)
      ensures InProgress(old(signals).handlers, installed, entry) && (!taken || (!siblings && NoForeign(entry))) ==>
                Restored(signals, entry, entryMask)
      ensures stuck ==> taken && !NoForeign(entry) && signals.mask == BOTH
      ensures Stops(installed, entry) ==> taken && (!siblings ==> stuck)
      ensures cleanup.Some? <==> spawned && owned
      ensures cleanup == Some(Cleaned) ==> Absent()
    {
      hide ArriveAll, Restore, Between, InProgress;
      taken, work := Interleave();
      restore, last := [], false;
      if taken {
        return;
      }
      BothIsAll(signals.mask);
      signals := Blocked(signals);
      if spawned && owned {
        CleanUp();
      }
      taken, restore, last := PutBack(installed, entry, entryMask);
    }

    /** One of the handlers to be put back is None to Python. */
    predicate Stops(installed: seq<Signal>, entry: Handlers) {
      exists k :: 0 <= k < |installed| && entry.Of(installed[k]).Foreign?
    }

    /** `_terminate_and_reap` of the adapter: SIGKILL to the group, nothing gentler. */
    method CleanUp()
      requires Valid() && spawned
      modifies process, this`cleanup
      ensures Valid() && process.Ran() && cleanup.Some?
      ensures cleanup == Some(Cleaned) ==> Absent()
      ensures if old(process.returncode).Some? then cleanup == Some(Lost) else Settles(cleanup.value, process)
      ensures InOrder(Sent(process.log[|old(process.log)|..]), [SignalStep(9, 0)])
      ensures process.Idle() <= old(process.Idle()) + 3 * 500_000
    {
      var outcome := TerminateAndReap(process, [SignalStep(SIGKILL, 0)], CLEANUP_WINDOW, CLEANUP_WINDOW);
      cleanup := Some(outcome);
    }

    /** The loop over the installed handlers, and the mask after it. */
    method PutBack(installed: seq<Signal>, entry: Handlers, entryMask: set<Signal>)
      returns (taken: bool, ghost restore: seq<seq<Arrival>>, ghost last: bool)
      requires Valid() && Between(signals.handlers, entry) && Wanted(signals, entry) && signals.mask == BOTH && !stuck
      modifies this`signals, this`stuck
      ensures Valid() && old(signals).seen <= signals.seen && Wanted(signals, entry)
      ensures (signals, taken) == Restore(old(signals), installed, entry, entryMask, restore, last)
      ensures !siblings ==> Alone(restore)
      ensures InProgress(old(signals).handlers, installed, entry) && (!taken || (!siblings && NoForeign(entry))) ==>
                Restored(signals, entry, entryMask)
      ensures stuck ==> taken && !NoForeign(entry) && signals.mask == BOTH
      ensures Stops(installed, entry) ==> taken && (!siblings ==> stuck)
    {
      hide ArriveAll, SetMask, Between, InProgress, Alone, Deferring;
      var scripts, raises := Scripts();
      restore, last := scripts, raises;
      RestoreProceeds(signals, installed, entry, entryMask, scripts, raises);
      ghost var r := Restore(signals, installed, entry, entryMask, scripts, raises);
      var k := 0;
      while k < |installed|
        invariant k <= |installed| && !stuck && signals.mask == BOTH && (!siblings ==> Alone(scripts))
        invariant forall j | 0 <= j < k :: !entry.Of(installed[j]).Foreign?
        invariant Restore(signals, installed[k..], entry, entryMask, scripts, raises) == r
      {
        Arrives(scripts);
        var before := ArriveAll(signals, Now(scripts));
        signals, taken, scripts := before.0, before.1, Later(scripts);
        if taken {
          return;
        }
        if entry.Of(installed[k]).Foreign? {
          stuck, taken := true, true;
          return;
        }
        signals := signals.(handlers := signals.handlers.Set(installed[k], entry.Of(installed[k])));
        k := k + 1;
      }
      var before := ArriveAll(signals, Now(scripts));
      signals, taken := before.0, before.1;
      if !taken {
        var final := SetMask(signals, entryMask, raises);
        signals, taken := final.0, final.1;
      }
    }

    /** The next arrivals keep the mask, and take over only where another thread can. */
    lemma Arrives(scripts: seq<seq<Arrival>>)
      requires signals.mask == BOTH && (!siblings ==> Alone(scripts))
      ensures var r := ArriveAll(signals, Now(scripts));
              r.0.mask == BOTH && (!siblings ==> !r.1 && Alone(Later(scripts)))
    {
      ArrivalsOnlyRecord(signals, Now(scripts));
      if !siblings {
        AloneSteps(scripts);
      }
    }

    method Scripts() returns (scripts: seq<seq<Arrival>>, raises: bool)
      ensures !siblings ==> Alone(scripts)
    {
      scripts := [];
      raises :| true;
      var n: nat :| true;
      while n > 0
        invariant !siblings ==> Alone(scripts)
      {
        var script := Script();
        scripts := scripts + [script];
        n := n - 1;
      }
    }

    /** What comes before the first `pthread_sigmask` returns, and with it (see
        `RaisesOnEntry`). Taken, it leaves no mask to restore. */
    method Enter() returns (taken: bool, ghost early: seq<Arrival>, ghost due: set<Signal>, ghost raises: bool)
      requires Valid() && Untouched()
      modifies this`signals, this`raisedOnEntry
      ensures var e := ArriveAll(old(signals), early);
              && raisedOnEntry == (!e.1 && RaisesOnEntry(e.0, due, raises))
              && signals == (if raisedOnEntry then Blocked(e.0) else e.0)
              && taken == (e.1 || raisedOnEntry)
      ensures Valid() && signals.handlers == old(signals).handlers && signals.seen == []
      ensures signals.mask == if raisedOnEntry then old(signals).mask + BOTH else old(signals).mask
      ensures raisedOnEntry ==> !NoCallable(signals.handlers)
      ensures !taken ==> Untouched()
    {
      hide ArriveAll;
      taken, early := Interleave();
      EarlyKeeps(old(signals), early);
      var caught: set<Signal> :| true;
      var raise: bool :| true;
      due, raises := caught, raise;
      if !taken {
        raisedOnEntry := RaisesOnEntry(signals, caught, raise);
        if raisedOnEntry {
          signals, taken := Blocked(signals), true;
        }
      }
    }

    /** The outer `try` with its `finally` (`fido_custody.py:312-419`), once the first
        call has returned. */
    method Attempted(input: Bytes, timeout: nat, limit: nat)
      returns (attempt: Attempt, taken: bool, ghost w: World)
      requires Valid() && Untouched()
      modifies process, this`signals, this`disturbed, this`stuck, this`spawned, this`owned, this`cleanup
      modifies this`inputOpen, this`output, this`errors, this`received, this`ioFailed
      ensures Valid() && process.Ran() && Wanted(signals, old(signals).handlers)
      ensures (signals, taken) == FromInstall(old(signals), w) && (!siblings ==> NoSiblings(w))
      ensures (!siblings && NoForeign(old(signals).handlers)) || (!taken && !disturbed) ==>
                Restored(signals, old(signals).handlers, old(signals).mask)
      ensures stuck ==> taken && !NoForeign(old(signals).handlers) && signals.mask == BOTH
      ensures !NoForeign(old(signals).handlers) && (!siblings || (!taken && !disturbed)) ==> stuck
      ensures cleanup.Some? <==> spawned && owned
      ensures cleanup == Some(Cleaned) ==> Absent()
      ensures !owned <==> attempt == FailedWith(WorkerOwnership)
      ensures ioFailed ==> attempt == FailedWith(WorkerIo)
      ensures Deserved(attempt, limit, old(process.clock) + timeout)
      ensures attempt.CancelledByCaller? ==> signals.seen != []
      ensures attempt.CallerRaised? <==> disturbed
      ensures disturbed ==> siblings
      ensures attempt != FailedWith(WorkerInterrupted)
      ensures attempt.Answered? ==> Complete(attempt.output, input, limit)
    {
      hide Passes, ArriveAll, Started, Unwind, Install, InProgress, Stops, Between, NoForeign;
      var entry, entryMask := signals.handlers, signals.mask;
      var installed;
      ghost var install, start, work, restore, last;
      installed, install := Begin();
      attempt, start := CallerRaised, [];
      ghost var tried := signals;
      if !disturbed {
        NeedsBack(signals.handlers, installed, entry);
        attempt, start := Talk(input, timeout, limit, entryMask);
        tried := Started(tried, entryMask, start);
      } else {
        NothingPasses(signals);
      }
      ghost var mid := signals;
      taken, work, restore, last := WindUp(installed, entry, entryMask);
      work := UnwindMore(tried, mid, installed, entry, entryMask, work, restore, last);
      w := World([], {}, false, install, start, work, restore, last);
    }

    /** Where the deferring handlers are in place, those that Python does not know are
        among the ones noted. */
    lemma NeedsBack(h: Handlers, installed: seq<Signal>, entry: Handlers)
      requires Deferring(h) && InProgress(h, installed, entry)
      ensures !NoForeign(entry) ==> Stops(installed, entry)
    {
      assert h.Of(Int) == h.forInt && h.Of(Term) == h.forTerm;
      assert entry.Of(Int) == entry.forInt && entry.Of(Term) == entry.forTerm;
    }

    /** Both signals blocked, and the handlers in place unless something disturbs it. */
    method Begin() returns (installed: seq<Signal>, ghost arrivals: seq<seq<Arrival>>)
      requires Valid() && Untouched()
      modifies this`signals, this`disturbed
      ensures Valid() && Wanted(signals, old(signals).handlers) && Between(signals.handlers, old(signals).handlers)
      ensures (signals, installed, disturbed) == Install(Blocked(old(signals)), [Int, Term], [], arrivals)
      ensures !siblings ==> Alone(arrivals)
      ensures !disturbed ==>
              Deferring(signals.handlers) && InProgress(signals.handlers, installed, old(signals).handlers)
      ensures disturbed ==> siblings
    {
      signals := Blocked(signals);
      BothIsAll(signals.mask);
      installed, disturbed, arrivals := InstallHandlers();
      InstallProceeds(Blocked(old(signals)), [Int, Term], [], old(signals).handlers, arrivals);
      assert forall h: Handlers :: h.Of(Int) == h.forInt && h.Of(Term) == h.forTerm;
    }

    /** The whole input went in, and the whole of both streams came out. */
    ghost predicate Complete(answer: Bytes, input: Bytes, limit: nat)
      reads this
    {
      && spawned && received == input && answer == output.stream
      && |output.stream| <= limit && |errors.stream| <= limit
    }

    /** After the outer `finally`: a failed cleanup comes first, then a cancellation, then
        what was tried (`fido_custody.py:408-483`). */
    method Conclude(attempt: Attempt, request: Request, entry: Handlers, lib: Library) returns (exit: Exit)
      requires KeepsFirst(signals)
      ensures cleanup.Some? && cleanup.value != Cleaned <==> exit.CleanupFailed?
      ensures !exit.CleanupFailed? && signals.seen != [] ==>
                exit == if entry.Of(signals.seen[0]).Foreign? then Failure(WorkerInterrupted)
                        else Propagated(signals.seen[0])
      ensures !exit.CleanupFailed? && signals.seen == [] ==>
                Decided(exit, attempt, process.returncode, request, lib)
    {
      hide Judge, Decided;
      if cleanup.Some? && cleanup.value != Cleaned {
        return CleanupFailed;
      }
      if signals.cancellation.Some? {
        var signal := signals.cancellation.value;
        return if entry.Of(signal).Foreign? then Failure(WorkerInterrupted) else Propagated(signal);
      }
      match attempt {
        case FailedWith(why) =>
          exit := Failure(why);
        case Answered(output) =>
          if process.returncode != Some(0) {
            exit := Failure(WorkerFailure);
          } else {
            var answer := Judge(output, request, lib);
            exit := if answer.Accepted? then Returned(answer.plaintext, answer.evidence) else Failure(answer.why);
          }
        case _ =>
          exit := TakenOver;
      }
      DecidesExactly(attempt, process.returncode, request, lib);
    }

    /** What every exit says, and what it takes to leave by it. `entry` are the caller's
        handlers, `attempt` is what was tried, where nothing took over. */
    ghost predicate Explained(exit: Exit, attempt: Option<Attempt>, entry: Handlers, request: Request, limit: nat,
                              deadline: nat, lib: Library)
      reads this, process
    {
      // Every started worker that is still ours is cleaned up.
      && (cleanup.Some? <==> spawned && owned)
      // A failed cleanup outranks the rest, but for what takes over.
      && (cleanup.Some? && cleanup.value != Cleaned ==> exit.CleanupFailed? || exit.TakenOver? || exit.RestoreRaised?)
      && (exit.CleanupFailed? ==> cleanup.Some? && cleanup.value != Cleaned)
      // A recorded cancellation is never lost. It goes to the caller only when the worker
      // is gone, if it was still ours, and is the first recorded, of a signal not ignored.
      && (signals.seen != [] ==>
            || exit.Propagated? || exit.CleanupFailed? || exit.TakenOver? || exit.RestoreRaised?
            || exit == Failure(WorkerInterrupted))
      && (exit.Propagated? ==>
            && signals.seen != [] && exit.signal == signals.seen[0]
            && (spawned && owned ==> Absent())
            && entry.Of(exit.signal) in {Default, Callable})
      && (exit == Failure(WorkerInterrupted) ==>
            signals.seen != [] && entry.Of(signals.seen[0]).Foreign? && siblings && disturbed)
      && (exit == Failure(WorkerOwnership) ==> !owned)
      && (exit.Failure? ==> Deserved(FailedWith(exit.why), limit, deadline))
      // Without a cancellation or a failed cleanup the exit is what the attempt deserves:
      // a plaintext exactly for an answer that vouches for it, any refusal for its fault.
      && (attempt.Some? ==> Deserved(attempt.value, limit, deadline))
      && (attempt.Some? && signals.seen == [] && (cleanup.Some? ==> cleanup.value == Cleaned) ==>
            Decided(exit, attempt.value, process.returncode, request, lib))
      && (attempt.Some? && attempt.value.Answered? ==>
            && Complete(attempt.value.output, request.envelope, limit)
            && owned && (signals.seen == [] && !exit.CleanupFailed? ==> Absent()))
      // A plaintext is the worker's whole and only answer.
      && (exit.Returned? ==>
            && signals.seen == [] && owned && Absent() && process.returncode == Some(0)
            && Complete(output.stream, request.envelope, limit)
            && Vouched(output.stream, request, lib, exit.plaintext, exit.evidence))
    }

    /** What takes over, or the TypeError, comes before all that `Conclude` decides. */
    method Leave(tried: Attempt, taken: bool, request: Request, entry: Handlers, limit: nat, ghost deadline: nat,
                 lib: Library)
      returns (exit: Exit, ghost attempt: Option<Attempt>)
      requires KeepsFirst(signals) && (stuck ==> taken) && Wanted(signals, entry)
      requires !entry.forInt.Defer? && !entry.forTerm.Defer?
      requires (cleanup.Some? <==> spawned && owned) && (cleanup == Some(Cleaned) ==> Absent())
      requires (!owned <==> tried == FailedWith(WorkerOwnership)) && tried != FailedWith(WorkerInterrupted)
      requires Deserved(tried, limit, deadline) && (tried.CancelledByCaller? ==> signals.seen != [])
      requires tried.CallerRaised? ==> siblings && disturbed
      requires tried.Answered? ==> Complete(tried.output, request.envelope, limit)
      requires !NoForeign(entry) && !taken && !disturbed ==> stuck
      requires disturbed ==> siblings && tried.CallerRaised?
      ensures attempt == if taken then None else Some(tried)
      ensures stuck <==> exit.RestoreRaised?
      ensures taken ==> exit.TakenOver? || exit.RestoreRaised?
      ensures Explained(exit, attempt, entry, request, limit, deadline, lib)
    {
      hide Decided, Vouched, Wanted;
      SeenIsWanted(signals, entry);
      if stuck {
        return RestoreRaised, None;
      }
      if taken {
        return TakenOver, None;
      }
      exit := Conclude(tried, request, entry, lib);
      DecidedShape(exit, tried, process.returncode, request, lib);
      attempt := Some(tried);
    }

    /** The refusals that precede everything (`fido_custody.py:300-305`). */
    function Refusal(mainThread: bool, request: Request, maxEnvelope: nat): Option<Why> {
      if !mainThread then Some(NotMainThread)
      else if request.envelope == [] then Some(EmptyEnvelope)
      else if |request.envelope| > maxEnvelope then Some(EnvelopeTooLarge)
      else None
    }

    /** `unwrap`. `w` is all that the rest of the world does to it, and `attempt` what was
        tried, where nothing takes over. */
    method Unwrap(mainThread: bool, request: Request, timeout: nat, maxEnvelope: nat, maxOutput: nat, lib: Library)
      returns (exit: Exit, ghost w: World, ghost attempt: Option<Attempt>)
      requires Valid() && Untouched()
      modifies process, this
      // Every signal of the cleanup goes to processes still ours (see `Kernel`).
      ensures Valid() && process.Ran() && old(signals).seen <= signals.seen
      // What it does to the caller's mask and handlers is an episode, so that they come
      // back exactly as `RestoresIff` says, and where it is safe in every case.
      ensures Refusal(mainThread, request, maxEnvelope).None? ==>
                signals == Episode(old(signals), w) && (siblings || NoSiblings(w))
      ensures attempt.Some? <==>
                Refusal(mainThread, request, maxEnvelope).None? && !Interrupted(old(signals), w)
      ensures Refusal(mainThread, request, maxEnvelope).None? && Safe(old(signals), w.due, w.raises, siblings) ==>
                signals.ended || Restored(signals, old(signals).handlers, old(signals).mask)
      // They are back, whatever happened, if Python knows both handlers and no other
      // thread takes a signal, and in any case if nothing of the caller came between
      // and nothing stopped the restoration.
      ensures !siblings && !raisedOnEntry && NoForeign(old(signals).handlers) ==>
                Restored(signals, old(signals).handlers, old(signals).mask)
      ensures !exit.TakenOver? && !exit.RestoreRaised? && !disturbed ==>
                Restored(signals, old(signals).handlers, old(signals).mask)
      // A handler that raises out of the first call leaves the mask blocked, and that is
      // all; one that Python does not know makes the restoration raise.
      ensures raisedOnEntry ==>
                && exit.TakenOver? && !spawned && signals.handlers == old(signals).handlers
                && signals.mask == old(signals).mask + BOTH && !NoCallable(old(signals).handlers)
      ensures exit.RestoreRaised? ==> !NoForeign(old(signals).handlers) && signals.mask == BOTH
      ensures Refusal(mainThread, request, maxEnvelope).None? && !siblings && !NoForeign(old(signals).handlers) ==>
                exit.RestoreRaised? || exit.TakenOver?
      ensures attempt.None? && Refusal(mainThread, request, maxEnvelope).None? ==>
                exit.TakenOver? || exit.RestoreRaised?
      ensures Explained(exit, attempt, old(signals).handlers, request, maxOutput, old(process.clock) + timeout, lib)
      // The refusals that precede everything.
      ensures Refusal(mainThread, request, maxEnvelope).Some? ==>
                exit == Failure(Refusal(mainThread, request, maxEnvelope).value) && signals == old(signals) && !spawned
    {
      hide ArriveAll, FromInstall, RaisesOnEntry, NoCallable, NoForeign, Alone, Safe, KeepsFirst;
      hide Vouched, Decided, Restored, Wanted;
      SameIsRestored(signals, signals.handlers, signals.mask);
      var refusal := Refusal(mainThread, request, maxEnvelope);
      attempt := None;
      if refusal.Some? {
        return Failure(refusal.value), Quiet({}, false), None;
      }
      var entry := signals.handlers;
      var taken, tried;
      ghost var early, due, raises;
      taken, early, due, raises := Enter();
      w := Quiet(due, raises).(early := early);
      SameIsRestored(signals, old(signals).handlers, old(signals).mask);
      if taken {
        exit := TakenOver;
      } else {
        tried, taken, w := Attempted(request.envelope, timeout, maxOutput);
        w := EpisodeOf(old(signals), Quiet(due, raises).(early := early), w);
        exit, attempt := Leave(tried, taken, request, entry, maxOutput, old(process.clock) + timeout, lib);
      }
      SafeIsRestored(old(signals), w, siblings);
    }
  }
}
