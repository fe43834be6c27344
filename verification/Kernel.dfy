/** The operating system as the cleanup of an owned process group meets it: one
    `Popen` leader, its process group, and a clock. Every answer is the kernel's
    own choice, bound only by what POSIX promises. */
module Kernel {
  import opened JsonValues

  /** Ticks of the monotonic clock are microseconds. */
  const SECOND: nat := 1_000_000
  const MILLISECOND: nat := 1_000

  datatype Errno = ESRCH | EPERM | OtherErrno
  datatype Answer = Ok | Fails(errno: Errno)
  datatype Inspection = Exited | StillRunning | NoChild | CannotInspect
  datatype WaitAnswer = Reaped | TimedOut | NotChild

  /** The leader in truth: it becomes Gone when someone reaps it. */
  datatype Leader = Running | Zombie | Gone

  /** A system call with its answer. Of a signal, `open` says that the handle had
      no return code yet, and `owned` that the leader was in truth unreaped, so
      that its number was still the number of this group. */
  datatype Call =
    | GroupSignal(signal: nat, answer: Answer, open: bool, owned: bool)
    | Probe(answer: Answer)
    | Inspect(found: Inspection)
    | Wait(result: WaitAnswer)
    | KillLeader(answer: Answer, open: bool, owned: bool)
    | Sleep(ticks: nat)

  datatype Entry = Entry(call: Call, at: nat)

  /** The call sent a nonzero signal, to the group or to the leader. */
  predicate Sends(call: Call) {
    call.GroupSignal? || (call.KillLeader? && call.open)
  }

  /** The call ended the ownership of the leader. `Popen.kill` polls first, and
      does not send what it finds no owner for. */
  predicate Reaps(call: Call) {
    (call.Wait? && call.result.Reaped?) || (call.KillLeader? && !call.open)
  }

  /** A nonzero signal goes out only before the reap, and to our own processes
      unless somebody else has reaped the leader. */
  predicate Rightful(call: Call, stolen: bool) {
    Sends(call) ==> call.open && (call.owned || stolen)
  }

  class Process {
    var returncode: Option<int>
    var clock: nat
    // The kernel's own state, which the runtime never reads:
    var leader: Leader
    var stolen: bool              // somebody else reaped the leader
    ghost var members: set<nat>   // the processes of the group
    ghost var excess: nat         // ticks nobody asked to wait for
    ghost var log: seq<Entry>

    ghost predicate Valid()
      reads this
    {
      && (returncode.Some? ==> leader.Gone?)
      && (leader.Gone? && !stolen ==> returncode.Some?)
      && excess <= clock
      && (returncode.None? ==> forall i | 0 <= i < |log| :: !Reaps(log[i].call))
      && (forall i, j | 0 <= i < j < |log| :: Reaps(log[i].call) && Sends(log[j].call) ==> !log[j].call.open)
    }

    /** Time spent in requested sleeps and waits. */
    ghost function Idle(): int
      reads this
    {
      clock - excess
    }

    /** What no process and no passing of time can undo. */
    twostate predicate Evolved()
      reads this
    {
      && (old(members) == {} ==> members == {})
      && (old(leader).Gone? ==> leader.Gone?)
      && (old(stolen) ==> stolen)
      && (old(returncode).Some? ==> returncode == old(returncode))
      && old(clock) <= clock
    }

    /** A leader just started, or about to be: whatever it does, it is not reaped. */
    constructor ()
      ensures Valid() && returncode.None? && !stolen && log == []
    {
      returncode, clock, leader, stolen := None, 0, Running, false;
      members, excess, log := {}, 0, [];
      new;
      Meanwhile();
      leader, stolen := Running, false;
      var others: set<nat> :| true;
      members := others;
    }

    /** Exactly one call more, made and answered by now. */
    twostate predicate Logged(call: Call)
      reads this
    {
      log == old(log) + [Entry(call, clock)]
    }

    /** What every call of the cleanup does: it only adds to the log, and every
        signal it adds is rightful. */
    twostate predicate Ran()
      reads this
    {
      && Valid() && Evolved()
      && old(log) <= log
      && (forall i | |old(log)| <= i < |log| :: Rightful(log[i].call, stolen))
    }

    /** Anything the other processes may do meanwhile. */
    method Meanwhile()
      requires Valid()
      modifies this`leader, this`members, this`stolen, this`clock, this`excess
      ensures Valid() && Evolved() && Idle() == old(Idle())
    {
      var delay: nat :| true;
      clock := clock + delay;
      excess := excess + delay;
      if * {
        leader := if leader.Running? then Zombie else leader;
      }
      if * {
        stolen := stolen || !leader.Gone?;
        leader := Gone;
      }
      ghost var others: set<nat> :| true;
      members := if members == {} then {} else others;
    }

    /** `os.killpg` with a nonzero signal. A kernel that answers ESRCH has no such
        group any more. */
    method SignalGroup(signal: nat) returns (answer: Answer, ghost owned: bool)
      requires Valid()
      modifies this
      ensures Valid() && Evolved() && Idle() == old(Idle()) && returncode == old(returncode)
      ensures Logged(GroupSignal(signal, answer, returncode.None?, owned))
      ensures returncode.None? ==> owned || stolen
      ensures answer == Fails(ESRCH) ==> members == {}
    {
      Meanwhile();
      answer :| true;
      owned := !leader.Gone?;
      if answer == Fails(ESRCH) {
        members := {};
      }
      log := log + [Entry(GroupSignal(signal, answer, returncode.None?, owned), clock)];
    }

    /** `os.killpg` with signal 0: sends nothing. */
    method ProbeGroup() returns (answer: Answer)
      requires Valid()
      modifies this
      ensures Valid() && Evolved() && Idle() == old(Idle()) && returncode == old(returncode)
      ensures Logged(Probe(answer))
      ensures answer == Fails(ESRCH) ==> members == {}
    {
      Meanwhile();
      answer :| true;
      if answer == Fails(ESRCH) {
        members := {};
      }
      log := log + [Entry(Probe(answer), clock)];
    }

    /** `os.waitid` with WNOHANG and WNOWAIT: looks without reaping. */
    method InspectLeader() returns (found: Inspection)
      requires Valid()
      modifies this
      ensures Valid() && Evolved() && Idle() == old(Idle()) && returncode == old(returncode)
      ensures Logged(Inspect(found))
      ensures found.Exited? ==> !leader.Running?
      ensures found.NoChild? ==> leader.Gone?
    {
      Meanwhile();
      if leader.Gone? {
        found := NoChild;
      } else if leader.Zombie? {
        found := Exited;
      } else {
        found := StillRunning;
      }
      if * {
        found := CannotInspect;
      }
      log := log + [Entry(Inspect(found), clock)];
    }

    /** `Popen.wait` with a timeout. CPython reports status 0 for a leader that somebody
        else has reaped; the code also provides for a `ChildProcessError`. */
    method WaitLeader(limit: nat) returns (result: WaitAnswer)
      requires Valid()
      modifies this
      ensures Valid() && Evolved() && old(Idle()) <= Idle() <= old(Idle()) + limit
      ensures Logged(Wait(result))
      ensures result.Reaped? <==> returncode.Some?
      ensures old(returncode).Some? ==> Idle() == old(Idle())
      ensures result.NotChild? ==> leader.Gone? && stolen
      ensures result.TimedOut? ==> old(clock) + limit <= clock
    {
      Meanwhile();
      if returncode.None? {
        var waited: nat :| waited <= limit;
        clock := clock + waited;
        if leader.Gone? {
          if * {
            result := NotChild;
          } else {
            returncode := Some(0);
            result := Reaped;
          }
        } else if * {
          var status: int :| true;
          leader := Gone;
          returncode := Some(status);
          result := Reaped;
        } else {
          clock := clock + (limit - waited);
          result := TimedOut;
        }
      } else {
        result := Reaped;
      }
      log := log + [Entry(Wait(result), clock)];
    }

    /** `Popen.kill`: polls first, and sends only while there is no return code. */
    method Kill() returns (answer: Answer, ghost owned: bool)
      requires Valid()
      modifies this
      ensures Valid() && Evolved() && Idle() == old(Idle())
      ensures Logged(KillLeader(answer, returncode.None?, owned))
      ensures returncode.None? ==> owned || stolen
      ensures returncode.Some? ==> answer.Ok?
      ensures old(leader).Gone? ==> returncode.Some?
    {
      Meanwhile();
      answer := Ok;
      if returncode.None? {
        var polled: bool :| true;
        if leader.Gone? {
          returncode := Some(0);
        } else if polled {
          var status: int :| true;
          leader := Gone;
          returncode := Some(status);
        } else {
          answer :| true;
        }
      }
      owned := !leader.Gone?;
      log := log + [Entry(KillLeader(answer, returncode.None?, owned), clock)];
    }

    /** `time.sleep`, which may take longer than asked. */
    method SleepFor(ticks: nat)
      requires Valid()
      modifies this
      ensures Valid() && Evolved() && Idle() == old(Idle()) + ticks && returncode == old(returncode)
      ensures Logged(Sleep(ticks)) && old(clock) + ticks <= clock
    {
      Meanwhile();
      clock := clock + ticks;
      log := log + [Entry(Sleep(ticks), clock)];
    }

    /** A wait for input, ready or not: no call of the cleanup, but time passes. */
    method Select()
      requires Valid()
      modifies this`leader, this`members, this`stolen, this`clock, this`excess
      ensures Valid() && Evolved() && old(clock) < clock
    {
      Meanwhile();
      clock, excess := clock + 1, excess + 1;
    }
  }
}
