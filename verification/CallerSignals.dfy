/** SIGINT and SIGTERM as one thread of a Python process meets them: its mask, the two
    handlers, and what arrives between two steps. */
module CallerSignals {
  import opened JsonValues

  datatype Signal = Int | Term

  /** `Defer` is the adapter's own handler; the caller's are the other four. `Foreign`
      was installed from C and not by Python: `signal.getsignal` answers None for it,
      which `signal.signal` does not take back. */
  datatype Handler = Default | Ignore | Callable | Foreign | Defer

  datatype Handlers = Handlers(forInt: Handler, forTerm: Handler) {
    function Of(signal: Signal): Handler {
      match signal case Int => forInt case Term => forTerm
    }
    function Set(signal: Signal, handler: Handler): Handlers {
      match signal case Int => this.(forInt := handler) case Term => this.(forTerm := handler)
    }
  }

  const BOTH := {Int, Term}

  lemma BothIsAll(mask: set<Signal>)
    ensures mask + BOTH == BOTH
  {
    forall signal: Signal ensures signal in BOTH {
      match signal case Int => case Term =>
    }
  }

  /** `cancellation` is the adapter's cell; `seen` is every signal its handler ran for;
      `ended` says that a default disposition has ended the process. */
  datatype Signals = Signals(
    mask: set<Signal>,
    pending: set<Signal>,
    handlers: Handlers,
    cancellation: Option<Signal>,
    seen: seq<Signal>,
    ended: bool)

  /** A signal between two steps. `sibling`: another thread took it, so that this
      thread's mask did not hold it back. `raises`: a Python handler of the caller
      raises rather than return. */
  datatype Arrival = Arrival(signal: Signal, sibling: bool, raises: bool)

  /** The handler runs. The second result says that the caller's own disposition has
      taken over: it ended the process, or raised. */
  function Handle(s: Signals, signal: Signal, raises: bool): (Signals, bool) {
    match s.handlers.Of(signal)
    case Default => (s.(ended := true), true)
    case Ignore => (s, false)
    case Callable => (s, raises)
    case Foreign => (s, false)
    case Defer =>
      var kept := if s.cancellation.None? then Some(signal) else s.cancellation;
      (s.(cancellation := kept, seen := s.seen + [signal]), false)
  }

  function Arrive(s: Signals, a: Arrival): (Signals, bool) {
    if a.signal in s.mask && !a.sibling then (s.(pending := s.pending + {a.signal}), false)
    else Handle(s, a.signal, a.raises)
  }

  /** Several arrivals, up to one that takes over. */
  function ArriveAll(s: Signals, script: seq<Arrival>): (Signals, bool)
    decreases |script|
  {
    if script == [] then (s, false)
    else
      var next := Arrive(s, script[0]);
      if next.1 then next else ArriveAll(next.0, script[1..])
  }

  /** Sets the mask and handles what it no longer holds back. */
  function SetMask(s: Signals, mask: set<Signal>, raises: bool): (Signals, bool) {
    var due := s.pending - mask;
    var t := s.(mask := mask, pending := s.pending * mask);
    var first := if Int in due then Handle(t, Int, raises) else (t, false);
    if !first.1 && Term in due then Handle(first.0, Term, raises) else first
  }

  /** The first signal the adapter's handler ran for is the one it keeps. */
  ghost predicate KeepsFirst(s: Signals) {
    s.cancellation == if s.seen == [] then None else Some(s.seen[0])
  }

  /** No handler of the caller can run. */
  predicate Deferring(h: Handlers) {
    (h.forInt.Defer? || h.forInt.Ignore?) && (h.forTerm.Defer? || h.forTerm.Ignore?)
  }

  /** Only the end of the process can come between. */
  predicate NoCallable(h: Handlers) {
    !h.forInt.Callable? && !h.forTerm.Callable?
  }

  /** Python can put back both handlers. */
  predicate NoForeign(h: Handlers) {
    !h.forInt.Foreign? && !h.forTerm.Foreign?
  }

  /** What arrivals leave alone, whatever they are. */
  ghost predicate SameButSeen(s: Signals, t: Signals) {
    && t.handlers == s.handlers
    && s.seen <= t.seen
    && (KeepsFirst(s) ==> KeepsFirst(t))
    && (s.ended ==> t.ended)
    && (forall i | |s.seen| <= i < |t.seen| :: s.handlers.Of(t.seen[i]).Defer?)
  }

  /** Only signals the caller does not ignore were deferred, or can be. */
  ghost predicate Wanted(s: Signals, entry: Handlers) {
    && (forall i | 0 <= i < |s.seen| :: entry.Of(s.seen[i]) != Ignore)
    && (forall signal :: s.handlers.Of(signal).Defer? ==> entry.Of(signal) != Ignore)
  }

  lemma SeenIsWanted(s: Signals, entry: Handlers)
    requires Wanted(s, entry)
    ensures s.seen != [] ==> !entry.Of(s.seen[0]).Ignore? && (entry.Of(s.seen[0]).Foreign? ==> !NoForeign(entry))
  {
  }

  lemma {:induction false} ArrivalsOnlyRecord(s: Signals, script: seq<Arrival>)
    decreases |script|
    ensures var r := ArriveAll(s, script);
            && SameButSeen(s, r.0) && r.0.mask == s.mask
            && (Deferring(s.handlers) ==> !r.1 && r.0.ended == s.ended)
            && (s.mask == BOTH && NoSibling(script) ==> !r.1 && r.0.seen == s.seen)
            && (NoCallable(s.handlers) && r.1 ==> r.0.ended)
            && (!r.1 ==> r.0.ended == s.ended)
  {
    hide Handle, Deferring, NoCallable;
    if script != [] {
      var next := Arrive(s, script[0]);
      BothIsAll({script[0].signal});
      HandlerOnlyRecords(s, script[0].signal, script[0].raises);
      assert script[0] in script && forall a | a in script[1..] :: a in script;
      if !next.1 {
        ArrivalsOnlyRecord(next.0, script[1..]);
      }
    }
  }

  lemma MaskOnlyRecords(s: Signals, mask: set<Signal>, raises: bool)
    ensures var r := SetMask(s, mask, raises);
            && SameButSeen(s, r.0) && r.0.mask == mask
            && (Deferring(s.handlers) ==> !r.1 && r.0.ended == s.ended)
            && (NoCallable(s.handlers) && r.1 ==> r.0.ended)
            && (!r.1 ==> r.0.ended == s.ended)
            && (s.pending <= mask ==> !r.1 && r.0.seen == s.seen)
  {
    hide Handle, Deferring, NoCallable;
    var due := s.pending - mask;
    var t := s.(mask := mask, pending := s.pending * mask);
    HandlerOnlyRecords(t, Int, raises);
    var first := if Int in due then Handle(t, Int, raises) else (t, false);
    HandlerOnlyRecords(first.0, Term, raises);
  }

  lemma HandlerOnlyRecords(s: Signals, signal: Signal, raises: bool)
    ensures var r := Handle(s, signal, raises);
            && SameButSeen(s, r.0) && r.0.mask == s.mask && r.0.pending == s.pending
            && (Deferring(s.handlers) ==> !r.1 && r.0.ended == s.ended)
            && (NoCallable(s.handlers) && r.1 ==> r.0.ended)
            && (!r.1 ==> r.0.ended == s.ended)
  {
  }

  /** Arrivals that do not take over lead from one state to the other. */
  ghost predicate Passes(s: Signals, t: Signals) {
    exists script :: ArriveAll(s, script) == (t, false)
  }

  lemma {:induction false} ArriveMore(s: Signals, script: seq<Arrival>, more: seq<Arrival>)
    requires !ArriveAll(s, script).1
    decreases |script|
    ensures ArriveAll(s, script + more) == ArriveAll(ArriveAll(s, script).0, more)
  {
    if script == [] {
      assert script + more == more;
    } else {
      assert (script + more)[1..] == script[1..] + more;
      ArriveMore(Arrive(s, script[0]).0, script[1..], more);
    }
  }

  lemma PassesOn(s: Signals, t: Signals, u: Signals)
    requires Passes(s, t) && Passes(t, u)
    ensures Passes(s, u) && SameButSeen(s, u) && u.mask == s.mask && u.handlers == s.handlers
  {
    var first: seq<Arrival> :| ArriveAll(s, first) == (t, false);
    var second: seq<Arrival> :| ArriveAll(t, second) == (u, false);
    ArriveMore(s, first, second);
    ArrivalsOnlyRecord(s, first + second);
  }

  lemma NothingPasses(s: Signals)
    ensures Passes(s, s) && SameButSeen(s, s)
  {
    assert ArriveAll(s, []) == (s, false);
  }

  predicate NoSibling(script: seq<Arrival>) {
    forall a | a in script :: !a.sibling
  }
}
