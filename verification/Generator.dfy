/**
 `_stream_impl` as a generator: the flag that guards the release, the two nested `try`
 blocks with their handlers, and cancellations at any suspension points.
 */
module Generator {
  import opened Text
  import opened Catalog
  import opened Fallback
  import opened FallbackLoop
  import opened Engine
  import opened Streaming

  /** What the generator keeps about its reservation, with every settling call it has made. */
  datatype Books = Books(hold: Option<nat>, finalized: bool, settled: seq<Settlement>)

  const OPENED := Books(None, false, [])

  /** The exceptions that leave the outer `try`. */
  datatype Exception = QuotaExceeded | SetupFailed(why: SetupError) | AllFailed(cls: FailureClass) | Cancelled

  /** How a block is left: by `return`, or by an exception. */
  datatype Exit = Returns | Raises(e: Exception)

  /** How one turn of the loop ends: with success, with the next target, or by leaving the loop. */
  datatype Turn = Success(st: Attempt) | Again(cls: FailureClass) | Leaves(exit: Exit)

  datatype StreamRun = StreamRun(trace: seq<StreamEvent>, books: Books, recorded: Option<Recorded>, aborted: bool)

  function ErrorOf(e: Exception): StreamEvent
    requires !e.Cancelled?
  {
    OutError(match e
             case QuotaExceeded => OverBudget
             case SetupFailed(why) => NoSetup(why)
             case AllFailed(c) => ChainExhausted(c))
  }

  // ----- Where the uninterrupted run settles ------------------------------------------------

  /** The suspension points of one turn that does not leave the loop: the relay, and the note of a failure. */
  function TurnPoints(s: Script): nat {
    if s.setup.Some? then 0 else Points(s) + (if Render(s).end.Completed? then 0 else 1)
  }

  /** How many suspension points a turn has. */
  type Length = Deployment -> nat

  function TurnLengths(cast: Cast): Length {
    d => TurnPoints(cast(d))
  }

  /** The length of the first `n` turns. */
  function Elapsed(length: Length, all: seq<Deployment>, n: nat): nat
    requires n <= |all|
  {
    if n == 0 then 0 else Elapsed(length, all, n - 1) + length(all[n - 1])
  }

  /** The loop begins after the reservation and the key resolver. */
  function TurnStart(x: Setting, n: nat): nat
    requires n <= |Attempted(x)|
  {
    2 + Elapsed(TurnLengths(x.cast), Attempted(x), n)
  }

  function LastOf(x: Setting): Script {
    x.cast(Attempted(x)[|Attempted(x)| - 1])
  }

  function LastStart(x: Setting): nat {
    TurnStart(x, |Attempted(x)| - 1)
  }

  predicate WonLast(x: Setting) {
    Reached(x) && StreamFate(LastOf(x)).Won?
  }

  /** The points of the last turn before its settling call. */
  function ToSettle(s: Script): nat {
    if s.setup.Some? then 0
    else Points(s) + (if Render(s).end.Broke? && Render(s).st.emitted then 2 else 1)
  }

  /** The suspension point of the one settling call in the uninterrupted run. */
  function SettlePoint(x: Setting): nat {
    if x.reserve.Exceeded? then 1
    else if x.keyError.Some? then 2
    else LastStart(x) + ToSettle(LastOf(x))
  }

  /** A mid-stream error ends with the release; success goes on with the ledger and two yields; the rest yields one error. */
  predicate MidStreamEnd(x: Setting) {
    Reached(x) && LastOf(x).setup.None? && Render(LastOf(x)).end.Broke? && Render(LastOf(x)).st.emitted
  }

  /** The number of suspension points of the uninterrupted run. */
  function EndPoint(x: Setting): nat {
    SettlePoint(x) + 1 + (if WonLast(x) then 3 else if MidStreamEnd(x) then 0 else 1)
  }

  // ----- The books ------------------------------------------------------------------------

  function Amount(usd: Price, recorded: Option<Recorded>): real {
    match recorded case None => 0.0 case Some(c) => usd(c.d, c.usage)
  }

  /** Nothing settled yet, and the flag says so. */
  predicate Unsettled(b: Books, recorded: Option<Recorded>) {
    !b.finalized && b.settled == [] && recorded.None?
  }

  /** One complete settling call, at the cost of what was recorded. */
  predicate SettledOnce(usd: Price, b: Books, recorded: Option<Recorded>) {
    b.finalized && b.settled == [Settlement(b.hold, Amount(usd, recorded), true)]
  }

  /** A release that was itself cut: its flag was set first, so it is not repeated. */
  predicate ReleaseTorn(b: Books, recorded: Option<Recorded>) {
    b.finalized && recorded.None? && b.settled == [Settlement(b.hold, 0.0, false)]
  }

  /** A reconciliation that was itself cut: the flag is set only after it, so a release is still to come. */
  predicate ReconcileTorn(b: Books, recorded: Option<Recorded>) {
    !b.finalized && recorded.None? && |b.settled| == 1 && b.settled[0].hold == b.hold && !b.settled[0].complete
  }

  /** The same after that release, which is complete or cut in turn. */
  predicate SettledTwice(b: Books, recorded: Option<Recorded>, complete: bool) {
    && b.finalized && recorded.None?
    && |b.settled| == 2 && b.settled[0].hold == b.hold && !b.settled[0].complete
    && b.settled[1] == Settlement(b.hold, 0.0, complete)
  }

  /** At most one settling call is complete. */
  predicate OneComplete(b: Books) {
    forall i, j :: 0 <= i < j < |b.settled| ==> !b.settled[i].complete || !b.settled[j].complete
  }

  /** Another cancellation arrives after point `f`. */
  ghost predicate More(cuts: Cuts, f: nat) {
    exists k: nat :: k > f && cuts(k)
  }

  ghost predicate AtMostOne(cuts: Cuts) {
    forall j: nat, k: nat :: cuts(j) && cuts(k) ==> j == k
  }

  /**
   A finished run, for any cancellations: the trace is the uninterrupted one or a prefix of
   it, it is uninterrupted exactly when no point of that run is cut, success is recorded
   exactly when no point up to the settling call is, and no two settling calls are complete.
   With at most one cancellation the reservation is settled by exactly one complete call,
   at the cost of what was recorded, exactly when the cancellation does not strike inside
   the settling call.
   */
  ghost predicate Agrees(usd: Price, x: Setting, cuts: Cuts, run: StreamRun) {
    && run.trace <= Whole(x).trace
    && (run.aborted <==> !Calm(cuts, 0, EndPoint(x)))
    && (!run.aborted ==> run.trace == Whole(x).trace && SettledOnce(usd, run.books, run.recorded))
    && run.recorded == (if Calm(cuts, 0, SettlePoint(x) + 1) then Whole(x).recorded else None)
    && OneComplete(run.books)
    && (AtMostOne(cuts) ==>
          if !cuts(SettlePoint(x)) then SettledOnce(usd, run.books, run.recorded)
          else if WonLast(x) then SettledTwice(run.books, run.recorded, true)
          else ReleaseTorn(run.books, run.recorded))
  }

  // ----- The generator -----------------------------------------------------------------------

  class StreamGenerator {
    const usd: Price
    const x: Setting
    const cuts: Cuts
    var clock: nat
    var upstream: bool                  // an adapter stream has been opened
    var books: Books
    var trace: seq<StreamEvent>
    var recorded: Option<Recorded>
    ghost var struck: Option<nat>       // the first point that was cut

    constructor (usd: Price, x: Setting, cuts: Cuts)
      ensures this.usd == usd && this.x == x && this.cuts == cuts
      ensures JustMade()
    {
      this.usd, this.x, this.cuts := usd, x, cuts;
      clock, upstream, books, trace, recorded, struck := 0, false, OPENED, [], None, None;
    }

    ghost predicate JustMade()
      reads this
    {
      clock == 0 && !upstream && books == OPENED && trace == [] && recorded == None && struck == None
    }

    /** No point has been cut so far, or the first one was `struck`. */
    ghost predicate Tracked()
      reads this
    {
      match struck
      case None => Calm(cuts, 0, clock)
      case Some(f) => f < clock && cuts(f) && Calm(cuts, 0, f)
    }

    method Suspend() returns (cut: bool)
      requires Tracked()
      modifies this`clock, this`struck
      ensures Tracked() && clock == old(clock) + 1 && (cut <==> cuts(old(clock)))
      ensures struck == if old(struck).None? && cut then Some(old(clock)) else old(struck)
    {
      cut := cuts(clock);
      if cut && struck.None? {
        struck := Some(clock);
      }
      clock := clock + 1;
    }

    method Yield(e: StreamEvent) returns (cut: bool)
      requires Tracked()
      modifies this`clock, this`struck, this`trace
      ensures Tracked() && clock == old(clock) + 1 && (cut <==> cuts(old(clock)))
      ensures struck == if old(struck).None? && cut then Some(old(clock)) else old(struck)
      ensures trace == old(trace) + [e]
    {
      trace := trace + [e];
      cut := Suspend();
    }

    /** One settling call on the quota. */
    method Settle(actual: real) returns (cut: bool)
      requires Tracked()
      modifies this`clock, this`struck, this`books
      ensures Tracked() && clock == old(clock) + 1 && (cut <==> cuts(old(clock)))
      ensures struck == if old(struck).None? && cut then Some(old(clock)) else old(struck)
      ensures books == old(books).(settled := old(books).settled + [Settlement(old(books).hold, actual, !cut)])
    {
      cut := Suspend();
      books := books.(settled := books.settled + [Settlement(books.hold, actual, !cut)]);
    }

    /** `_release`: tests the flag and sets it before it calls the quota. */
    method Release() returns (cut: bool)
      requires Tracked()
      modifies this`clock, this`struck, this`books
      ensures Tracked()
      ensures old(books).finalized ==> books == old(books) && clock == old(clock) && struck == old(struck) && !cut
      ensures !old(books).finalized ==>
                && clock == old(clock) + 1 && (cut <==> cuts(old(clock)))
                && struck == (if old(struck).None? && cut then Some(old(clock)) else old(struck))
                && books == Books(old(books).hold, true, old(books).settled + [Settlement(old(books).hold, 0.0, !cut)])
    {
      cut := false;
      if !books.finalized {
        books := books.(finalized := true);
        cut := Settle(0.0);
      }
    }

    /** `stream.aclose()` in a handler; a cancellation there leaves the handler before its release. */
    method CloseUpstream() returns (cut: bool)
      requires Tracked()
      modifies this`clock, this`struck
      ensures Tracked() && clock >= old(clock)
      ensures old(struck).Some? ==> struck == old(struck)
      ensures cut ==> cuts(old(clock))
    {
      cut := false;
      if upstream {
        cut := Suspend();
      }
    }

    /** The books after a cancellation at point `f` before the settling call; the inner handler may have released. */
    ghost predicate Early(f: nat)
      reads this
    {
      recorded.None? && (Unsettled(books, recorded) || SettledOnce(usd, books, recorded) || (ReleaseTorn(books, recorded) && More(cuts, f)))
    }

    /** The books after a first cancellation at point `f`. */
    ghost predicate StruckAt(f: nat)
      reads this
    {
      var p := SettlePoint(x);
      && f < EndPoint(x)
      && if f < p then Early(f)
         else if f > p then recorded == Whole(x).recorded && SettledOnce(usd, books, recorded)
         else if WonLast(x) then ReconcileTorn(books, recorded) else ReleaseTorn(books, recorded)
    }

    /** What holds when the outer `try` block is left. */
    ghost predicate Left(exit: Exit)
      reads this
    {
      match exit
      case Returns =>
        && struck.None? && clock == EndPoint(x)
        && trace == Whole(x).trace && recorded == Whole(x).recorded && SettledOnce(usd, books, recorded)
      case Raises(e) =>
        if e.Cancelled? then struck.Some? && StruckAt(struck.value) && trace <= Whole(x).trace
        else
          && struck.None? && Whole(x) == FullRun(trace + [ErrorOf(e)], None) && !WonLast(x) && !MidStreamEnd(x) && recorded.None?
          && if e.AllFailed? then clock == SettlePoint(x) + 1 && SettledOnce(usd, books, recorded)
             else clock == SettlePoint(x) && Unsettled(books, recorded)
    }

    /** What holds when one turn of the loop, attempting `d` from point `start` on after the trace `before`, is over. */
    ghost predicate Turned(d: Deployment, before: seq<StreamEvent>, start: nat, turn: Turn)
      reads this
    {
      var s := x.cast(d);
      match turn
      case Success(st) =>
        && struck.None? && clock == start + Points(s) && Unsettled(books, recorded)
        && trace == before + Outs(s) && s.setup.None? && Render(s).end.Completed? && st == Render(s).st
      case Again(c) =>
        && struck.None? && clock == start + Points(s) + 1 && Unsettled(books, recorded)
        && trace == before + Outs(s) && StreamFate(s) == Lost(c)
      case Leaves(Returns) =>
        && struck.None? && clock == start + ToSettle(s) + 1 && SettledOnce(usd, books, recorded) && recorded.None?
        && trace == before + Outs(s) + Terminal(x.cast, d) && StreamFate(s).Halted? && s.setup.None?
      case Leaves(Raises(SetupFailed(why))) =>
        struck.None? && clock == start && trace == before && s.setup == Some(why) && Unsettled(books, recorded)
      case Leaves(Raises(Cancelled)) =>
        && struck.Some? && s.setup.None? && start <= struck.value
        && if struck.value < start + ToSettle(s) then
             && Early(struck.value) && (StreamFate(s).Won? ==> struck.value < start + Points(s))
             && (trace <= before + Outs(s) || (trace == before + Outs(s) + Terminal(x.cast, d) && StreamFate(s).Halted?))
           else
             && struck.value == start + ToSettle(s) && StreamFate(s).Halted? && ReleaseTorn(books, recorded)
             && trace == before + Outs(s) + Terminal(x.cast, d)
      case Leaves(Raises(_)) => false
    }

    /** except (CancelledError, GeneratorExit): close the upstream, release, and raise again. */
    method HandleCut()
      requires Tracked() && struck.Some? && Unsettled(books, recorded)
      modifies this`clock, this`struck, this`books
      ensures Tracked() && struck == old(struck) && books.hold == old(books).hold
      ensures Early(struck.value)
    {
      ghost var f := struck.value;
      var cut := CloseUpstream();
      if !cut {
        ghost var now := clock;
        cut := Release();
        assert cut ==> cuts(now) && now > f;
      }
    }

    /** except Exception: the health note, and then the next target, or the error and the release. */
    method HandleFailure(d: Deployment, r: Rendering, ghost before: seq<StreamEvent>, ghost start: nat) returns (turn: Turn)
      requires Tracked() && struck.None? && Unsettled(books, recorded) && clock == start + Points(x.cast(d))
      requires x.cast(d).setup.None? && r == Render(x.cast(d)) && r.end.Broke? && trace == before + r.outs
      modifies this`clock, this`struck, this`books, this`trace
      ensures Tracked() && books.hold == old(books).hold
      ensures Turned(d, before, start, turn)
    {
      var cut := Suspend();
      if cut {
        return Leaves(Raises(Cancelled));
      }
      if !r.st.emitted {
        return Again(r.end.cls);
      }
      cut := Yield(OutError(MidStream(d, r.end.cls)));
      if cut {
        return Leaves(Raises(Cancelled));
      }
      cut := Release();
      return Leaves(if cut then Raises(Cancelled) else Returns);
    }

    /** One turn of the loop: the inner `try` block and its two handlers. */
    method Try(d: Deployment) returns (turn: Turn)
      requires Tracked() && struck.None? && Unsettled(books, recorded)
      modifies this`clock, this`struck, this`upstream, this`books, this`trace
      ensures Tracked() && books.hold == old(books).hold
      ensures Turned(d, old(trace), old(clock), turn)
    {
      var s := x.cast(d);
      if s.setup.Some? {
        return Leaves(Raises(SetupFailed(s.setup.value)));
      }
      upstream := true;
      var r, at, cut := Relay(s, cuts, clock);
      clock := at;
      trace := trace + r.outs;
      if cut {
        cut := Suspend();
        HandleCut();
        return Leaves(Raises(Cancelled));
      }
      if r.end.Completed? {
        return Success(r.st);
      }
      turn := HandleFailure(d, r, old(trace), old(clock));
    }

    /** A turn that leaves the loop leaves the outer block in order. */
    lemma LeavingInOrder(seen: seq<Deployment>, targets: seq<Deployment>, exit: Exit)
      requires Reached(x) && OnCourse(x, seen, targets) && targets != []
      requires |seen| <= |Attempted(x)| && Turned(targets[0], Emissions(x.cast, seen), TurnStart(x, |seen|), Leaves(exit))
      ensures Left(exit)
    {
      var d := targets[0];
      NextAttempt(x, seen, targets);
      TurnBeforeSettle(x, seen, d);
      if StreamFate(x.cast(d)).Halted? {
        StopAttempts(x, seen + [d]);
        WholeIs(x, seen + [d]);
        LastTurn(x, seen, d);
      }
    }

    /** The success path: note, reconcile, set the flag, then `usage` and `done`. */
    method Conclude(seen: seq<Deployment>, st: Attempt) returns (exit: Exit)
      requires Tracked() && struck.None? && Unsettled(books, recorded)
      requires Reached(x) && seen == Attempted(x) && trace == Emissions(x.cast, seen)
      requires WonLast(x) && st == Render(LastOf(x)).st && clock == LastStart(x) + Points(LastOf(x))
      modifies this`clock, this`struck, this`books, this`trace, this`recorded
      ensures Tracked() && books.hold == old(books).hold
      ensures Left(exit)
    {
      var d := seen[|seen| - 1];
      WonRun(x, seen);
      SettleIsLate(x);
      var cut := Suspend();               // the health note
      if cut {
        return Raises(Cancelled);
      }
      cut := Settle(usd(d, st.usage));
      if cut {
        return Raises(Cancelled);
      }
      books := books.(finalized := true);
      recorded := Some(Recorded(d, Join(st.parts), st.usage, st.reason, st.tools, |seen|));
      exit := Deliver(OutUsage(st.usage, d), OutDone(st.reason, st.usage, d));
    }

    /** Behind the settlement: the ledger and the exact cache, and the two last events. */
    method Deliver(usageEvent: StreamEvent, doneEvent: StreamEvent) returns (exit: Exit)
      requires Tracked() && struck.None? && clock == SettlePoint(x) + 1 && EndPoint(x) == clock + 3
      requires SettledOnce(usd, books, recorded) && Whole(x) == FullRun(trace + [usageEvent, doneEvent], recorded)
      modifies this`clock, this`struck, this`trace
      ensures Tracked() && Left(exit)
    {
      ghost var before := trace;
      var cut := Suspend();
      if cut {
        return Raises(Cancelled);
      }
      cut := Yield(usageEvent);
      if cut {
        return Raises(Cancelled);
      }
      cut := Yield(doneEvent);
      assert before + [usageEvent] + [doneEvent] == before + [usageEvent, doneEvent];
      return if cut then Raises(Cancelled) else Returns;
    }

    /** The `while targets` loop and what follows it. */
    method Loop() returns (exit: Exit)
      requires Tracked() && struck.None? && Unsettled(books, recorded)
      requires Reached(x) && trace == [] && clock == 2
      modifies this`clock, this`struck, this`upstream, this`books, this`trace, this`recorded
      ensures Tracked() && books.hold == old(books).hold
      ensures Left(exit)
    {
      var seen: seq<Deployment> := [];
      var targets := [x.decision];
      var failure := General;
      FirstTarget(x);
      while targets != []
        invariant Tracked() && struck.None? && Unsettled(books, recorded) && books.hold == old(books).hold
        invariant OnCourse(x, seen, targets)
        invariant |seen| <= |Attempted(x)| && trace == Emissions(x.cast, seen) && clock == TurnStart(x, |seen|)
        invariant seen != [] ==> StreamFate(x.cast(seen[|seen| - 1])) == Lost(failure)
        decreases |Attempted(x)| - |seen|
      {
        NextAttempt(x, seen, targets);
        var d := targets[0];
        NextTurn(x, seen, d);
        var turn := Try(d);
        if turn.Leaves? {
          LeavingInOrder(seen, targets, turn.exit);
          return turn.exit;
        }
        if turn.Success? {
          StopAttempts(x, seen + [d]);
          LastTurn(x, seen, d);
          exit := Conclude(seen + [d], turn.st);
          return;
        }
        seen := seen + [d];
        failure := turn.cls;
        KeepGoing(x, seen, failure);
        targets := Unseen(x.plan(failure), seen);
      }
      NoTargets(x, seen);
      WholeIs(x, seen);
      AllTurnsLost(x, seen, failure);
      var cut := Release();
      return Raises(if cut then Cancelled else AllFailed(failure));
    }

    /** The outer `try` block. */
    method Body() returns (exit: Exit)
      requires JustMade()
      modifies this`clock, this`struck, this`upstream, this`books, this`trace, this`recorded
      ensures Tracked() && Left(exit)
      ensures books.hold == if x.reserve.Granted? && !cuts(0) then x.reserve.hold else None
    {
      SettleIsLate(x);
      var cut := Suspend();               // quota.reserve
      if cut {
        return Raises(Cancelled);
      }
      if x.reserve.Exceeded? {
        return Raises(QuotaExceeded);
      }
      books := books.(hold := x.reserve.hold);
      cut := Suspend();                   // the key resolver and the availability snapshot
      if cut {
        return Raises(Cancelled);
      }
      if x.keyError.Some? {
        return Raises(SetupFailed(x.keyError.value));
      }
      exit := Loop();
    }

    /** except BaseException: close the upstream, release, and raise again. */
    method HandleCancelled()
      requires Tracked() && struck.Some? && StruckAt(struck.value) && trace <= Whole(x).trace
      modifies this`clock, this`struck, this`books
      ensures Agrees(usd, x, cuts, StreamRun(trace, books, recorded, true))
      ensures books.hold == old(books).hold
    {
      ghost var f := struck.value;
      ghost var now := clock;
      var cut := CloseUpstream();
      if cut {
        assert cuts(now) && now > f;
      } else {
        now := clock;
        cut := Release();
        assert cut ==> cuts(now) && now > f;
      }
      StruckAgrees(usd, x, cuts, f, StreamRun(trace, books, recorded, true));
    }

    /** The handlers that release and yield one error. */
    method HandleError(e: Exception) returns (aborted: bool)
      requires Tracked() && !e.Cancelled? && Left(Raises(e))
      modifies this`clock, this`struck, this`books, this`trace
      ensures Agrees(usd, x, cuts, StreamRun(trace, books, recorded, aborted))
      ensures books.hold == old(books).hold
    {
      aborted := false;
      if !e.AllFailed? {                  // an exhausted chain was released before it was raised
        aborted := Release();
      }
      if !aborted {
        aborted := Yield(ErrorOf(e));
      }
    }

    /** `_stream_impl`: the outer block and its five handlers. */
    method Run() returns (run: StreamRun)
      requires JustMade()
      modifies this
      ensures Agrees(usd, x, cuts, run)
      ensures run.books.hold == if x.reserve.Granted? && !cuts(0) then x.reserve.hold else None
    {
      var exit := Body();
      var aborted := false;
      if exit.Raises? {
        if exit.e.Cancelled? {
          HandleCancelled();
          aborted := true;
        } else {
          aborted := HandleError(exit.e);
        }
      }
      return StreamRun(trace, books, recorded, aborted);
    }
  }

  // ----- Where the points lie --------------------------------------------------------------

  lemma {:induction false} ElapsedGrows(length: Length, all: seq<Deployment>, n: nat, m: nat)
    requires n <= m <= |all|
    ensures Elapsed(length, all, n) <= Elapsed(length, all, m)
    decreases m - n
  {
    if n < m { ElapsedGrows(length, all, n, m - 1); }
  }

  lemma SettleIsLate(x: Setting)
    ensures SettlePoint(x) >= 1 && (x.reserve.Granted? ==> SettlePoint(x) >= 2)
    ensures SettlePoint(x) < EndPoint(x)
  {
  }

  lemma LastTurn(x: Setting, seen: seq<Deployment>, d: Deployment)
    requires Reached(x) && seen + [d] == Attempted(x)
    ensures LastOf(x) == x.cast(d) && LastStart(x) == TurnStart(x, |seen|)
  {
    assert |seen + [d]| - 1 == |seen|;
  }

  /** Every point of a turn before its settling call is before the settling call of the run. */
  lemma TurnBeforeSettle(x: Setting, seen: seq<Deployment>, d: Deployment)
    requires Reached(x) && seen + [d] <= Attempted(x)
    ensures TurnStart(x, |seen|) + ToSettle(x.cast(d)) <= SettlePoint(x)
  {
    var all, n := Attempted(x), |seen|;
    assert all[n] == d;
    if n + 1 == |all| {
      assert seen + [d] == all;
      LastTurn(x, seen, d);
    } else {
      EarlierAttemptsLost(x, n);
      LostTurn(x.cast(d));
      assert TurnStart(x, n + 1) == TurnStart(x, n) + TurnPoints(x.cast(d));
      ElapsedGrows(TurnLengths(x.cast), all, n + 1, |all| - 1);
    }
  }

  lemma LostTurn(s: Script)
    requires StreamFate(s).Lost?
    ensures ToSettle(s) == TurnPoints(s)
  {
  }

  lemma NextTurn(x: Setting, seen: seq<Deployment>, d: Deployment)
    requires seen + [d] <= Attempted(x)
    ensures TurnStart(x, |seen| + 1) == TurnStart(x, |seen|) + TurnPoints(x.cast(d))
  {
    assert Attempted(x)[|seen|] == (seen + [d])[|seen|];
  }

  lemma WonRun(x: Setting, seen: seq<Deployment>)
    requires Reached(x) && seen == Attempted(x) && WonLast(x)
    ensures
      var d, st := seen[|seen| - 1], Render(LastOf(x)).st;
      && Whole(x) == FullRun(Emissions(x.cast, seen) + [OutUsage(st.usage, d), OutDone(st.reason, st.usage, d)],
                             Some(Recorded(d, Join(st.parts), st.usage, st.reason, st.tools, |seen|)))
      && SettlePoint(x) == LastStart(x) + Points(LastOf(x)) + 1
      && EndPoint(x) == SettlePoint(x) + 4
  {
    WholeIs(x, seen);
  }

  lemma AllTurnsLost(x: Setting, seen: seq<Deployment>, c: FailureClass)
    requires Reached(x) && seen == Attempted(x) && StreamFate(x.cast(seen[|seen| - 1])) == Lost(c)
    ensures TurnStart(x, |seen|) == SettlePoint(x) && !WonLast(x) && !MidStreamEnd(x)
    ensures Terminal(x.cast, seen[|seen| - 1]) == [OutError(ChainExhausted(c))]
  {
    LostTurn(LastOf(x));
    assert seen[..|seen| - 1] + [seen[|seen| - 1]] == seen;
    NextTurn(x, seen[..|seen| - 1], seen[|seen| - 1]);
  }

  /** The outer handler of a cancellation, seen through the books before and after it. */
  lemma StruckAgrees(usd: Price, x: Setting, cuts: Cuts, f: nat, run: StreamRun)
    requires f < EndPoint(x) && cuts(f) && Calm(cuts, 0, f)
    requires run.aborted && run.trace <= Whole(x).trace && OneComplete(run.books)
    requires run.recorded == if f > SettlePoint(x) then Whole(x).recorded else None
    requires AtMostOne(cuts) ==>
               if f != SettlePoint(x) then SettledOnce(usd, run.books, run.recorded)
               else if WonLast(x) then SettledTwice(run.books, run.recorded, true)
               else ReleaseTorn(run.books, run.recorded)
    ensures Agrees(usd, x, cuts, run)
  {
  }

  // ----- A settlement that is made twice ------------------------------------------------------

  /** One deployment that answers with one delta, and an obtained reservation. */
  function OneAnswer(d: Deployment): Setting {
    Setting(Granted(Some(0)), None, _ => [], d, _ => Script(None, [Delta("ok")], None))
  }

  lemma OneAnswerSettles(d: Deployment)
    ensures Attempted(OneAnswer(d)) == [d] && WonLast(OneAnswer(d)) && SettlePoint(OneAnswer(d)) == 6
  {
    var x := OneAnswer(d);
    var s := x.cast(d);
    var h := Handle(FRESH, s.events[0]);
    assert s.events[1..] == [];
    assert RenderFrom(s.events[1..], None, h.st, true) == Rendering([], h.st, Completed);
    assert PointsFrom(s.events[1..], h.st) == 1;
    assert Render(s).end.Completed? && Points(s) == 3;
    assert StreamFates(x.cast)(d) == Won;
    assert Attempted(x) == [d];
    assert Elapsed(TurnLengths(x.cast), [d], 0) == 0;
  }

  /** Cancelled inside its reconciliation, that stream settles its reservation a second time. */
  method CancelledInReconcile(usd: Price, d: Deployment) returns (run: StreamRun)
    ensures SettledTwice(run.books, run.recorded, true) && run.books.hold == Some(0) && run.aborted
  {
    OneAnswerSettles(d);
    var g := new StreamGenerator(usd, OneAnswer(d), k => k == 6);
    run := g.Run();
    assert g.cuts(SettlePoint(OneAnswer(d)));
  }
}
