/** What the adapter does with the caller's mask and handlers, from the first
    `pthread_sigmask` to the last (`adapters/fido_custody.py:313-329,403-419`). */
module HandlerEpisode {
  import opened CallerSignals
  import opened JsonValues

  function Now(scripts: seq<seq<Arrival>>): seq<Arrival> {
    if scripts == [] then [] else scripts[0]
  }

  function Later(scripts: seq<seq<Arrival>>): seq<seq<Arrival>> {
    if scripts == [] then [] else scripts[1..]
  }

  /** No other thread takes a signal. */
  predicate Alone(scripts: seq<seq<Arrival>>) {
    forall script | script in scripts :: NoSibling(script)
  }

  lemma AloneSteps(scripts: seq<seq<Arrival>>)
    requires Alone(scripts)
    ensures NoSibling(Now(scripts)) && Alone(Later(scripts))
  {
  }

  /** Everything that the adapter found when it was called. */
  ghost predicate Restored(r: Signals, entry: Handlers, mask: set<Signal>) {
    r.mask == mask && r.handlers == entry
  }

  lemma SameIsRestored(s: Signals, entry: Handlers, mask: set<Signal>)
    ensures s.handlers == entry && s.mask == mask ==> Restored(s, entry, mask)
  {
  }

  // ---- Blocking ----------------------------------------------------------------------

  /** `pthread_sigmask(SIG_BLOCK, ...)` of both signals. */
  function Blocked(s: Signals): Signals {
    s.(mask := s.mask + BOTH)
  }

  /** CPython changes the mask first and runs the handlers of signals that had already
      been caught after it: one of the caller's may raise out of the very call, which
      then returns no mask. `due` are the signals caught so. */
  predicate RaisesOnEntry(s: Signals, due: set<Signal>, raises: bool) {
    raises && exists signal :: signal in due && s.handlers.Of(signal).Callable?
  }

  // ---- Installing ----------------------------------------------------------------------

  /** The loop over the two signals. A handler is set and noted as installed in two
      steps. The third result says that the caller's disposition took over. */
  function Install(s: Signals, todo: seq<Signal>, installed: seq<Signal>, scripts: seq<seq<Arrival>>)
    : (Signals, seq<Signal>, bool)
    decreases |todo|
  {
    if todo == [] then (s, installed, false)
    else
      var before := ArriveAll(s, Now(scripts));
      if before.1 then (before.0, installed, true)
      else if before.0.handlers.Of(todo[0]).Ignore? then Install(before.0, todo[1..], installed, Later(scripts))
      else
        var replaced := before.0.(handlers := before.0.handlers.Set(todo[0], Defer));
        var after := ArriveAll(replaced, Now(Later(scripts)));
        if after.1 then (after.0, installed, true)
        else Install(after.0, todo[1..], installed + [todo[0]], Later(Later(scripts)))
  }

  /** The adapter's handler is in place of the caller's for the signals noted, none of
      which the caller ignores, and nowhere else. */
  ghost predicate InProgress(h: Handlers, installed: seq<Signal>, entry: Handlers) {
    forall signal :: signal !in installed ==> h.Of(signal) == entry.Of(signal)
  }

  /** Each signal has the caller's handler or, unless the caller ignores it, the adapter's. */
  ghost predicate Between(h: Handlers, entry: Handlers) {
    forall signal ::
      h.Of(signal) == entry.Of(signal) || (h.Of(signal).Defer? && !entry.Of(signal).Ignore?)
  }

  /** What takes over did so before the adapter's handler was set, or after it was gone. */
  lemma TakenOutside(s: Signals, entry: Handlers, script: seq<Arrival>)
    requires Between(s.handlers, entry)
    ensures var r := ArriveAll(s, script);
            && Between(r.0.handlers, entry)
            && (OneSided(entry) && r.1 ==> r.0.handlers == entry)
            && (NoCallable(entry) && r.1 ==> r.0.ended)
  {
    ArrivalsOnlyRecord(s, script);
    assert s.handlers.Of(Int) == s.handlers.forInt && s.handlers.Of(Term) == s.handlers.forTerm;
    assert entry.Of(Int) == entry.forInt && entry.Of(Term) == entry.forTerm;
  }

  /** The signals still to be looked at have the caller's handlers, the others the
      adapter's or are ignored. */
  ghost predicate Installing(h: Handlers, todo: seq<Signal>, entry: Handlers) {
    forall signal ::
      h.Of(signal) == if signal in todo || entry.Of(signal).Ignore? then entry.Of(signal) else Defer
  }

  /** The caller ignores one of the two. */
  predicate OneSided(entry: Handlers) {
    entry.forInt.Ignore? || entry.forTerm.Ignore?
  }

  /** Setting one handler, and noting it. */
  lemma SetProceeds(h: Handlers, todo: seq<Signal>, installed: seq<Signal>, entry: Handlers)
    requires Installing(h, todo, entry) && InProgress(h, installed, entry)
    requires 0 < |todo| <= 2 && (|todo| == 2 ==> todo[0] != todo[1])
    ensures Between(h, entry)
    ensures h.Of(todo[0]).Ignore? ==> Installing(h, todo[1..], entry)
    ensures !h.Of(todo[0]).Ignore? ==>
              var next := h.Set(todo[0], Defer);
              && Installing(next, todo[1..], entry) && InProgress(next, installed + [todo[0]], entry)
              && Between(next, entry) && !entry.Of(todo[0]).Ignore?
  {
  }

  lemma {:induction false} InstallProceeds(s: Signals, todo: seq<Signal>, installed: seq<Signal>, entry: Handlers,
                                           scripts: seq<seq<Arrival>>)
    requires InProgress(s.handlers, installed, entry) && Installing(s.handlers, todo, entry) && Wanted(s, entry)
    requires |todo| <= 2 && (|todo| == 2 ==> todo[0] != todo[1])
    decreases |todo|
    ensures var r := Install(s, todo, installed, scripts);
            && r.0.mask == s.mask && s.seen <= r.0.seen && (KeepsFirst(s) ==> KeepsFirst(r.0)) && Wanted(r.0, entry)
            && Between(r.0.handlers, entry)
            && (!r.2 ==> InProgress(r.0.handlers, r.1, entry) && Installing(r.0.handlers, [], entry))
            && (s.mask == BOTH && Alone(scripts) ==> !r.2)
  {
    hide ArriveAll, Deferring, InProgress, Installing, Between, Alone;
    if Alone(scripts) {
      AloneSteps(scripts);
      AloneSteps(Later(scripts));
    }
    if todo == [] {
      DoneInstalling(s.handlers, entry);
    } else {
      SetProceeds(s.handlers, todo, installed, entry);
      ArrivalsOnlyRecord(s, Now(scripts));
      var before := ArriveAll(s, Now(scripts));
      if !before.1 {
        if before.0.handlers.Of(todo[0]).Ignore? {
          InstallProceeds(before.0, todo[1..], installed, entry, Later(scripts));
        } else {
          var replaced := before.0.(handlers := before.0.handlers.Set(todo[0], Defer));
          ArrivalsOnlyRecord(replaced, Now(Later(scripts)));
          var after := ArriveAll(replaced, Now(Later(scripts)));
          if !after.1 {
            InstallProceeds(after.0, todo[1..], installed + [todo[0]], entry, Later(Later(scripts)));
          }
        }
      }
    }
  }

  lemma DoneInstalling(h: Handlers, entry: Handlers)
    requires Installing(h, [], entry)
    ensures Between(h, entry)
  {
  }

  lemma {:induction false} InstallTaken(s: Signals, todo: seq<Signal>, installed: seq<Signal>, entry: Handlers,
                                        scripts: seq<seq<Arrival>>)
    requires Between(s.handlers, entry)
    decreases |todo|
    ensures var r := Install(s, todo, installed, scripts);
            && (NoCallable(entry) && r.2 ==> r.0.ended)
            && (OneSided(entry) && r.2 ==> r.0.handlers == entry)
  {
    hide ArriveAll, OneSided, NoCallable;
    if todo != [] {
      TakenOutside(s, entry, Now(scripts));
      var before := ArriveAll(s, Now(scripts));
      if !before.1 {
        if before.0.handlers.Of(todo[0]).Ignore? {
          InstallTaken(before.0, todo[1..], installed, entry, Later(scripts));
        } else {
          var replaced := before.0.(handlers := before.0.handlers.Set(todo[0], Defer));
          TakenOutside(replaced, entry, Now(Later(scripts)));
          var after := ArriveAll(replaced, Now(Later(scripts)));
          if !after.1 {
            InstallTaken(after.0, todo[1..], installed + [todo[0]], entry, Later(Later(scripts)));
          }
        }
      }
    }
  }

  // ---- Putting back --------------------------------------------------------------------

  /** The loop over the installed handlers, and the mask after it, with whatever
      arrives at each of the steps. The second result says that it did not come to its
      end: the caller's disposition took over, or a handler was None to Python, for
      which `signal.signal` raises. */
  function Restore(s: Signals, installed: seq<Signal>, entry: Handlers, mask: set<Signal>,
                   scripts: seq<seq<Arrival>>, raises: bool): (Signals, bool)
    decreases |installed|
  {
    var before := ArriveAll(s, Now(scripts));
    if before.1 then before
    else if installed == [] then SetMask(before.0, mask, raises)
    else if entry.Of(installed[0]).Foreign? then (before.0, true)
    else
      var next := before.0.(handlers := before.0.handlers.Set(installed[0], entry.Of(installed[0])));
      Restore(next, installed[1..], entry, mask, Later(scripts), raises)
  }

  /** With every signal blocked and no other thread to take one, only a foreign handler
      can stop the restoration; and it is complete unless something does. */
  lemma {:induction false} RestoreProceeds(s: Signals, installed: seq<Signal>, entry: Handlers, mask: set<Signal>,
                                           scripts: seq<seq<Arrival>>, raises: bool)
    requires Between(s.handlers, entry)
    decreases |installed|
    ensures var r := Restore(s, installed, entry, mask, scripts, raises);
            && s.seen <= r.0.seen && (KeepsFirst(s) ==> KeepsFirst(r.0)) && (Wanted(s, entry) ==> Wanted(r.0, entry))
            && (InProgress(s.handlers, installed, entry) && !r.1 ==> Restored(r.0, entry, mask))
            && (s.mask == BOTH && Alone(scripts) && NoForeign(entry) && InProgress(s.handlers, installed, entry) ==>
                  Restored(r.0, entry, mask))
  {
    hide ArriveAll;
    ArrivalsOnlyRecord(s, Now(scripts));
    var before := ArriveAll(s, Now(scripts));
    if Alone(scripts) {
      AloneSteps(scripts);
    }
    if before.1 {
    } else if installed == [] {
      LastMask(before.0, entry, mask, raises);
    } else if !entry.Of(installed[0]).Foreign? {
      var next := before.0.(handlers := before.0.handlers.Set(installed[0], entry.Of(installed[0])));
      NextInProgress(s, installed, entry);
      RestoreProceeds(next, installed[1..], entry, mask, Later(scripts), raises);
    }
  }

  lemma NextInProgress(s: Signals, installed: seq<Signal>, entry: Handlers)
    requires installed != [] && Between(s.handlers, entry)
    ensures var next := s.handlers.Set(installed[0], entry.Of(installed[0]));
            && Between(next, entry)
            && (InProgress(s.handlers, installed, entry) ==> InProgress(next, installed[1..], entry))
  {
    assert forall signal :: signal !in installed[1..] ==> signal == installed[0] || signal !in installed;
  }

  /** Where Python knows both handlers, what interrupts the restoration comes too late,
      or ends the process, or finds only one handler to replace. */
  lemma {:induction false} RestoreTaken(s: Signals, installed: seq<Signal>, entry: Handlers, mask: set<Signal>,
                                        scripts: seq<seq<Arrival>>, raises: bool)
    requires Between(s.handlers, entry)
    decreases |installed|
    ensures var r := Restore(s, installed, entry, mask, scripts, raises);
            && (s.ended ==> r.0.ended)
            && (NoForeign(entry) && NoCallable(entry) && r.1 ==> r.0.ended)
            && (InProgress(s.handlers, installed, entry) && s.mask == mask && OneSided(entry) && NoForeign(entry) ==>
                Restored(r.0, entry, mask))
  {
    hide ArriveAll, OneSided, NoCallable;
    ArrivalsOnlyRecord(s, Now(scripts));
    TakenOutside(s, entry, Now(scripts));
    var before := ArriveAll(s, Now(scripts));
    if before.1 {
    } else if installed == [] {
      LastMask(before.0, entry, mask, raises);
    } else if !entry.Of(installed[0]).Foreign? {
      var next := before.0.(handlers := before.0.handlers.Set(installed[0], entry.Of(installed[0])));
      NextInProgress(before.0, installed, entry);
      RestoreTaken(next, installed[1..], entry, mask, Later(scripts), raises);
    }
  }

  lemma LastMask(s: Signals, entry: Handlers, mask: set<Signal>, raises: bool)
    requires Between(s.handlers, entry)
    ensures var r := SetMask(s, mask, raises);
            && r.0.mask == mask && r.0.handlers == s.handlers
            && s.seen <= r.0.seen && (KeepsFirst(s) ==> KeepsFirst(r.0)) && (Wanted(s, entry) ==> Wanted(r.0, entry))
            && (s.ended ==> r.0.ended) && (NoCallable(entry) && r.1 ==> r.0.ended)
            && (InProgress(s.handlers, [], entry) ==> r.0.handlers == entry)
  {
    MaskOnlyRecords(s, mask, raises);
    if InProgress(s.handlers, [], entry) {
      assert s.handlers.Of(Int) == entry.forInt && s.handlers.Of(Term) == entry.forTerm;
    }
  }

  // ---- The whole episode ---------------------------------------------------------------

  /** Everything that the rest of the world does to one call. */
  datatype World = World(
    early: seq<Arrival>,           // before the first call
    due: set<Signal>,              // caught before the first call, not yet handled
    raises: bool,                  // a handler of the caller raises out of the first call
    install: seq<seq<Arrival>>,
    start: seq<Arrival>,           // while the worker is started, both signals blocked
    work: seq<Arrival>,            // up to the second blocking
    restore: seq<seq<Arrival>>,
    last: bool)                    // a handler of the caller raises out of the last call

  /** The end of what was tried: both signals blocked again, unless the caller's
      disposition takes over before, and handlers and mask put back. The second result
      says that it did not come to its end. */
  function Unwind(s: Signals, installed: seq<Signal>, entry: Handlers, mask: set<Signal>,
                  work: seq<Arrival>, restore: seq<seq<Arrival>>, last: bool): (Signals, bool)
  {
    var worked := ArriveAll(s, work);
    if worked.1 then worked else Restore(Blocked(worked.0), installed, entry, mask, restore, last)
  }

  /** The worker is started with both signals blocked, and then the caller's mask is set. */
  function Started(s: Signals, mask: set<Signal>, start: seq<Arrival>): Signals {
    SetMask(ArriveAll(s, start).0, mask, false).0
  }

  /** From the handlers to the last mask, after a first call that returned. */
  function FromInstall(s: Signals, w: World): (Signals, bool) {
    var i := Install(Blocked(s), [Int, Term], [], w.install);
    var tried := if i.2 then i.0 else Started(i.0, s.mask, w.start);
    Unwind(tried, i.1, s.handlers, s.mask, w.work, w.restore, w.last)
  }

  /** An exception out of the first call leaves `previous_signal_mask` at None, and the
      `finally` then restores nothing. */
  function FromFirstMask(s: Signals, w: World): (Signals, bool) {
    if RaisesOnEntry(s, w.due, w.raises) then (Blocked(s), true) else FromInstall(s, w)
  }

  /** All of `unwrap` after its refusals. */
  function Course(s: Signals, w: World): (Signals, bool) {
    var early := ArriveAll(s, w.early);
    if early.1 then early else FromFirstMask(early.0, w)
  }

  function Episode(s: Signals, w: World): Signals {
    Course(s, w).0
  }

  /** Something takes over before the restoration has come to its end. */
  predicate Interrupted(s: Signals, w: World) {
    Course(s, w).1
  }

  /** Arrivals that come before those of the unwinding are part of them. */
  lemma UnwindMore(s: Signals, t: Signals, installed: seq<Signal>, entry: Handlers, mask: set<Signal>,
                   work: seq<Arrival>, restore: seq<seq<Arrival>>, last: bool) returns (all: seq<Arrival>)
    requires Passes(s, t)
    ensures Unwind(s, installed, entry, mask, all, restore, last)
         == Unwind(t, installed, entry, mask, work, restore, last)
  {
    var before :| ArriveAll(s, before) == (t, false);
    all := before + work;
    ArriveMore(s, before, work);
  }

  predicate NoSiblings(w: World) {
    Alone(w.install) && Alone(w.restore)
  }

  /** What came before the first call returned, and what comes after it. */
  lemma EpisodeOf(s: Signals, before: World, after: World) returns (w: World)
    requires var early := ArriveAll(s, before.early);
             !early.1 && !RaisesOnEntry(early.0, before.due, before.raises)
    ensures Course(s, w) == FromInstall(ArriveAll(s, before.early).0, after)
    ensures w == after.(early := before.early, due := before.due, raises := before.raises)
    ensures NoSiblings(after) ==> NoSiblings(w)
  {
    w := after.(early := before.early, due := before.due, raises := before.raises);
    assert FromInstall(ArriveAll(s, before.early).0, w) == FromInstall(ArriveAll(s, before.early).0, after);
  }

  /** The caller's own state as the adapter is called. */
  ghost predicate Callers(s: Signals) {
    !s.handlers.forInt.Defer? && !s.handlers.forTerm.Defer? && s.seen == [] && !s.ended && KeepsFirst(s)
  }

  /** When nothing can come between the adapter and the caller's mask and handlers. If
      a handler raises out of the first call, the mask stays blocked, which matters
      unless it was so before. After that a handler that Python does not know is never
      put back; and a signal that another thread takes can interrupt, through a handler
      of the caller that raises, which matters unless the mask was blocked before and
      at most one handler had to be replaced. */
  predicate Safe(s: Signals, due: set<Signal>, raises: bool, siblings: bool) {
    if RaisesOnEntry(s, due, raises) then BOTH <= s.mask
    else
      && NoForeign(s.handlers)
      && (!siblings || NoCallable(s.handlers) || (BOTH <= s.mask && OneSided(s.handlers)))
  }

  lemma StartedKeeps(s: Signals, entry: Handlers, mask: set<Signal>, start: seq<Arrival>)
    requires Installing(s.handlers, [], entry)
    ensures var t := Started(s, mask, start);
            t.handlers == s.handlers && t.mask == mask && t.ended == s.ended && Deferring(t.handlers)
  {
    assert s.handlers.Of(Int) == s.handlers.forInt && s.handlers.Of(Term) == s.handlers.forTerm;
    ArrivalsOnlyRecord(s, start);
    MaskOnlyRecords(ArriveAll(s, start).0, mask, false);
  }

  /** The deferring handlers are in place and noted. */
  ghost predicate Ready(h: Handlers, installed: seq<Signal>, entry: Handlers) {
    Deferring(h) && InProgress(h, installed, entry)
  }

  /** What was tried ends with the deferring handlers in place, or the caller's
      disposition took over while they were put there. */
  lemma UnwindRestores(s: Signals, installed: seq<Signal>, entry: Handlers, mask: set<Signal>, work: seq<Arrival>,
                       restore: seq<seq<Arrival>>, last: bool)
    requires Between(s.handlers, entry) && NoForeign(entry)
    requires Ready(s.handlers, installed, entry) || (NoCallable(entry) && s.ended)
             || (BOTH <= mask && OneSided(entry) && s.handlers == entry)
    requires Alone(restore) || NoCallable(entry) || (BOTH <= mask && OneSided(entry))
    requires s.mask == BOTH || s.mask == mask
    ensures var r := Unwind(s, installed, entry, mask, work, restore, last).0;
            r.ended || Restored(r, entry, mask)
  {
    hide ArriveAll, Restore, Between, OneSided, Alone;
    BothIsAll(mask);
    BothIsAll(s.mask);
    assert BOTH <= mask ==> mask == BOTH;
    ArrivalsOnlyRecord(s, work);
    var worked := ArriveAll(s, work);
    if !worked.1 {
      RestoreProceeds(Blocked(worked.0), installed, entry, mask, restore, last);
      RestoreTaken(Blocked(worked.0), installed, entry, mask, restore, last);
    }
  }

  /** Where it is safe, the caller's mask and handlers are back in every case, unless a
      default disposition has ended the process. */
  lemma FirstMaskRestores(s: Signals, w: World, siblings: bool)
    requires Safe(s, w.due, w.raises, siblings) && (siblings || NoSiblings(w)) && Wanted(s, s.handlers)
    requires !s.handlers.forInt.Defer? && !s.handlers.forTerm.Defer?
    ensures FromFirstMask(s, w).0.ended || Restored(FromFirstMask(s, w).0, s.handlers, s.mask)
  {
    BothIsAll(s.mask);
    if !RaisesOnEntry(s, w.due, w.raises) {
      var i := Install(Blocked(s), [Int, Term], [], w.install);
      InstallProceeds(Blocked(s), [Int, Term], [], s.handlers, w.install);
      InstallTaken(Blocked(s), [Int, Term], [], s.handlers, w.install);
      if !i.2 {
        StartedKeeps(i.0, s.handlers, s.mask, w.start);
      }
      var tried := if i.2 then i.0 else Started(i.0, s.mask, w.start);
      UnwindRestores(tried, i.1, s.handlers, s.mask, w.work, w.restore, w.last);
    }
  }

  lemma EarlyKeeps(s: Signals, early: seq<Arrival>)
    requires Callers(s)
    ensures var r := ArriveAll(s, early);
            && r.0.handlers == s.handlers && r.0.mask == s.mask && r.0.seen == []
            && (!r.1 ==> Callers(r.0))
  {
    ArrivalsOnlyRecord(s, early);
    var r := ArriveAll(s, early);
    assert r.0.seen == [] || s.handlers.Of(r.0.seen[0]).Defer?;
  }

  lemma SafeRestores(s: Signals, w: World, siblings: bool)
    requires Callers(s) && Safe(s, w.due, w.raises, siblings) && (siblings || NoSiblings(w))
    ensures Episode(s, w).ended || Restored(Episode(s, w), s.handlers, s.mask)
  {
    hide ArriveAll, FromFirstMask;
    EarlyKeeps(s, w.early);
    var early := ArriveAll(s, w.early);
    if !early.1 {
      FirstMaskRestores(early.0, w, siblings);
    }
  }

  /** The same, for a caller who does not know whether it is safe. */
  lemma SafeIsRestored(s: Signals, w: World, siblings: bool)
    requires Callers(s) && (siblings || NoSiblings(w))
    ensures Safe(s, w.due, w.raises, siblings) ==>
              Episode(s, w).ended || Restored(Episode(s, w), s.handlers, s.mask)
  {
    if Safe(s, w.due, w.raises, siblings) {
      SafeRestores(s, w, siblings);
    }
  }

  // ---- Where it is not safe --------------------------------------------------------------

  /** Nothing happens but what was caught before the call. */
  function Quiet(due: set<Signal>, raises: bool): (w: World)
    ensures NoSiblings(w)
  {
    World([], due, raises, [], [], [], [], false)
  }

  /** A raising handler of the caller, called because another thread took its signal. */
  function Raising(signal: Signal): seq<Arrival> {
    [Arrival(signal, true, true)]
  }

  lemma RaisingTakesOver(s: Signals, signal: Signal)
    requires s.handlers.Of(signal).Callable?
    ensures ArriveAll(s, Raising(signal)) == (s, true)
  {
  }

  /** The signals whose handlers are replaced, in order. */
  function Replaced(entry: Handlers): seq<Signal> {
    (if entry.forInt.Ignore? then [] else [Int]) + (if entry.forTerm.Ignore? then [] else [Term])
  }

  function Deferred(entry: Handlers): Handlers {
    Handlers(if entry.forInt.Ignore? then Ignore else Defer, if entry.forTerm.Ignore? then Ignore else Defer)
  }

  lemma QuietInstall(s: Signals)
    requires Callers(s)
    ensures Install(s, [Int, Term], [], []) == (s.(handlers := Deferred(s.handlers)), Replaced(s.handlers), false)
  {
    var one := if s.handlers.forInt.Ignore? then s else s.(handlers := s.handlers.Set(Int, Defer));
    var two := if s.handlers.forTerm.Ignore? then one else one.(handlers := one.handlers.Set(Term, Defer));
    var none: seq<Signal> := [];
    var first := if s.handlers.forInt.Ignore? then none else none + [Int];
    QuietStep(s, [Int, Term], none);
    assert [Int, Term][1..] == [Term] && [Term][1..] == [];
    QuietStep(one, [Term], first);
    assert Install(s, [Int, Term], none, []) == Install(one, [Term], first, []);
    assert one.handlers.Of(Term) == s.handlers.forTerm;
    var both := if s.handlers.forTerm.Ignore? then first else first + [Term];
    assert Install(one, [Term], first, []) == Install(two, [], both, []);
    assert both == Replaced(s.handlers);
    assert two == s.(handlers := Deferred(s.handlers));
  }

  lemma QuietStep(s: Signals, todo: seq<Signal>, installed: seq<Signal>)
    requires todo != []
    ensures Install(s, todo, installed, []) ==
            if s.handlers.Of(todo[0]).Ignore? then Install(s, todo[1..], installed, [])
            else Install(s.(handlers := s.handlers.Set(todo[0], Defer)), todo[1..], installed + [todo[0]], [])
  {
  }

  /** An interruption after the last handler is back leaves the mask blocked. */
  lemma {:induction false} LateInterruption(s: Signals, installed: seq<Signal>, entry: Handlers, mask: set<Signal>,
                                            signal: Signal, raises: bool)
    requires InProgress(s.handlers, installed, entry) && Between(s.handlers, entry) && entry.Of(signal).Callable?
    decreases |installed|
    ensures var r := Restore(s, installed, entry, mask, seq(|installed|, _ => []) + [Raising(signal)], raises).0;
            r.mask == s.mask && r.ended == s.ended
  {
    var scripts := seq(|installed|, _ => []) + [Raising(signal)];
    if installed == [] {
      assert scripts == [Raising(signal)];
      RaisingTakesOver(s, signal);
    } else {
      assert Now(scripts) == [] && Later(scripts) == seq(|installed| - 1, _ => []) + [Raising(signal)];
      NextInProgress(s, installed, entry);
      var next := s.(handlers := s.handlers.Set(installed[0], entry.Of(installed[0])));
      LateInterruption(next, installed[1..], entry, mask, signal, raises);
    }
  }

  /** The run that a caller without other threads can see: the handler raises out of the
      first call, and both signals stay blocked. */
  lemma EntryStaysBlocked(s: Signals, due: set<Signal>, raises: bool)
    requires Callers(s) && RaisesOnEntry(s, due, raises) && !(BOTH <= s.mask)
    ensures var w := Quiet(due, raises);
            NoSiblings(w) && !Episode(s, w).ended && !Restored(Episode(s, w), s.handlers, s.mask)
  {
    assert !(s.mask + BOTH <= s.mask);
  }

  /** Another thread takes a signal just before the last mask. */
  lemma MaskStaysBlocked(s: Signals, w: World, signal: Signal)
    requires Callers(s) && !RaisesOnEntry(s, w.due, w.raises) && !(BOTH <= s.mask)
    requires s.handlers.Of(signal).Callable?
    requires QuietAtFirst(w)
    requires w.restore == seq(|Replaced(s.handlers)|, _ => []) + [Raising(signal)]
    ensures !Episode(s, w).ended && !Restored(Episode(s, w), s.handlers, s.mask)
  {
    var worked := QuietWork(s, w);
    LateInterruption(worked, Replaced(s.handlers), s.handlers, s.mask, signal, w.last);
  }

  /** Nothing happens until the handlers are to be put back. */
  predicate QuietAtFirst(w: World) {
    w.early == [] && w.install == [] && w.start == [] && w.work == []
  }

  lemma QuietWork(s: Signals, w: World) returns (worked: Signals)
    requires Callers(s) && !RaisesOnEntry(s, w.due, w.raises) && QuietAtFirst(w)
    ensures worked.handlers == Deferred(s.handlers) && worked.mask == BOTH && !worked.ended
    ensures InProgress(worked.handlers, Replaced(s.handlers), s.handlers) && Between(worked.handlers, s.handlers)
    ensures Episode(s, w) == Restore(worked, Replaced(s.handlers), s.handlers, s.mask, w.restore, w.last).0
  {
    QuietInstall(Blocked(s));
    var t := Blocked(s).(handlers := Deferred(s.handlers));
    StartedKeeps(t, s.handlers, s.mask, w.start);
    worked := Blocked(Started(t, s.mask, w.start));
    BothIsAll(s.mask);
    assert FromFirstMask(s, w) == Restore(worked, Replaced(s.handlers), s.handlers, s.mask, w.restore, w.last);
  }

  /** A handler that Python does not know is replaced, and `signal.signal` raises when it
      is to be put back: the deferring handler and the blocked mask stay, with nothing
      else happening at all. */
  lemma ForeignStaysReplaced(s: Signals, w: World)
    requires Callers(s) && !RaisesOnEntry(s, w.due, w.raises) && !NoForeign(s.handlers)
    requires QuietAtFirst(w) && w.restore == []
    ensures !Episode(s, w).ended && Episode(s, w).mask == BOTH
    ensures exists signal ::
              s.handlers.Of(signal).Foreign? && Episode(s, w).handlers.Of(signal).Defer?
  {
    var worked := QuietWork(s, w);
    var first := Replaced(s.handlers)[0];
    if s.handlers.Of(first).Foreign? {
      assert worked.handlers.Of(first).Defer?;
    } else {
      var next := worked.(handlers := worked.handlers.Set(first, s.handlers.Of(first)));
      assert Replaced(s.handlers)[1..] == [Term] && first == Int;
      assert Restore(next, [Term], s.handlers, s.mask, [], w.last) == (next, true);
      assert next.handlers.Of(Term).Defer?;
    }
  }

  /** Where both handlers were replaced, the one put back first can keep the other out. */
  lemma HandlerStaysBehind(s: Signals, w: World)
    requires Callers(s) && !RaisesOnEntry(s, w.due, w.raises)
    requires s.handlers.forInt.Callable? && !s.handlers.forTerm.Ignore?
    requires QuietAtFirst(w) && w.restore == [[], Raising(Int)]
    ensures !Episode(s, w).ended && !Restored(Episode(s, w), s.handlers, s.mask)
  {
    var worked := QuietWork(s, w);
    var next := worked.(handlers := worked.handlers.Set(Int, s.handlers.forInt));
    assert Replaced(s.handlers) == [Int, Term] && [Int, Term][1..] == [Term];
    assert Later(w.restore) == [Raising(Int)];
    RaisingTakesOver(next, Int);
    assert Restore(next, [Term], s.handlers, s.mask, [Raising(Int)], w.last) == (next, true);
  }

  /** And the one replaced first is forgotten when the other's handler raises before the
      replacement is noted. */
  lemma HandlerIsForgotten(s: Signals, w: World)
    requires Callers(s) && !RaisesOnEntry(s, w.due, w.raises) && BOTH <= s.mask
    requires !s.handlers.forInt.Ignore? && s.handlers.forTerm.Callable?
    requires w.early == [] && w.install == [[], Raising(Term)] && w.work == [] && w.restore == []
    ensures !Episode(s, w).ended && !Restored(Episode(s, w), s.handlers, s.mask)
  {
    BothIsAll(s.pending);
    var replaced := Blocked(s).(handlers := s.handlers.Set(Int, Defer));
    assert Later(w.install) == [Raising(Term)];
    RaisingTakesOver(replaced, Term);
    assert Install(Blocked(s), [Int, Term], [], w.install) == (replaced, [], true);
  }

  /** The exact condition. For every state of the caller, and everything caught before
      the first call: mask and handlers are back whatever else happens, unless a default
      disposition ends the process, if and only if it is safe. */
  lemma RestoresIff(s: Signals, due: set<Signal>, raises: bool, siblings: bool)
    requires Callers(s)
    ensures (forall w: World | w.due == due && w.raises == raises && (siblings || NoSiblings(w)) ::
               Episode(s, w).ended || Restored(Episode(s, w), s.handlers, s.mask))
       <==> Safe(s, due, raises, siblings)
  {
    hide Episode, Restored;
    if Safe(s, due, raises, siblings) {
      forall w: World | w.due == due && w.raises == raises && (siblings || NoSiblings(w))
        ensures Episode(s, w).ended || Restored(Episode(s, w), s.handlers, s.mask)
      {
        SafeRestores(s, w, siblings);
      }
    } else {
      var w := UnsafeWorld(s, due, raises, siblings);
    }
  }

  lemma ForeignIsNotRestored(s: Signals, w: World)
    requires Callers(s) && !RaisesOnEntry(s, w.due, w.raises) && !NoForeign(s.handlers)
    requires QuietAtFirst(w) && w.restore == []
    ensures !Episode(s, w).ended && !Restored(Episode(s, w), s.handlers, s.mask)
  {
    ForeignStaysReplaced(s, w);
  }

  lemma UnsafeWorld(s: Signals, due: set<Signal>, raises: bool, siblings: bool) returns (w: World)
    requires Callers(s) && !Safe(s, due, raises, siblings)
    ensures w.due == due && w.raises == raises && (siblings || NoSiblings(w))
    ensures !Episode(s, w).ended && !Restored(Episode(s, w), s.handlers, s.mask)
  {
    hide Episode, Restored;
    w := Quiet(due, raises);
    if RaisesOnEntry(s, due, raises) {
      EntryStaysBlocked(s, due, raises);
    } else if !NoForeign(s.handlers) {
      ForeignIsNotRestored(s, w);
    } else if !(BOTH <= s.mask) {
      var signal := if s.handlers.forInt.Callable? then Int else Term;
      w := w.(restore := seq(|Replaced(s.handlers)|, _ => []) + [Raising(signal)]);
      MaskStaysBlocked(s, w, signal);
    } else if s.handlers.forInt.Callable? {
      w := w.(restore := [[], Raising(Int)]);
      HandlerStaysBehind(s, w);
    } else {
      w := w.(install := [[], Raising(Term)]);
      HandlerIsForgotten(s, w);
    }
  }
}
