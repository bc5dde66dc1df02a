/** The streaming form of the engine: a generator that may be cut at any suspension point. */
module Streaming {
  import opened Text
  import opened Catalog
  import opened Fallback
  import opened FallbackLoop
  import opened Routing

  // ----- What an adapter produces ------------------------------------------------

  /** A missing and an empty id, name or arguments field are both the empty string. */
  datatype AdapterEvent =
    | Delta(content: string)
    | ToolStart(index: Option<int>, id: string, name: string)
    | ToolDelta(index: Option<int>, id: string, name: string, arguments: string)
    | ToolEnd(index: Option<int>, id: string, name: string)
    | UsageReport(usage: Option<Usage>)
    | Finish(reason: Option<string>, usage: Option<Usage>)
    | Failure(cls: FailureClass)
    | Other

  datatype SetupError = Misconfigured | Unexpected

  /**
   The behaviour of one deployment: building its adapter may raise; otherwise it
   yields `events` and then ends, or raises.
   */
  datatype Script = Script(setup: Option<SetupError>, events: seq<AdapterEvent>, raises: Option<FailureClass>)

  type Cast = Deployment -> Script

  // ----- What the gateway yields ---------------------------------------------------

  datatype ErrorTag =
    | OverBudget
    | NoSetup(why: SetupError)
    | MidStream(d: Deployment, cls: FailureClass)
    | ChainExhausted(cls: FailureClass)

  /** `rawArguments` is the text that the source decodes into the event's arguments. */
  datatype StreamEvent =
    | OutDelta(content: string)
    | OutToolStart(index: Option<int>, id: string, name: string)
    | OutToolDelta(index: Option<int>, id: string, arguments: string)
    | OutToolEnd(index: Option<int>, knownId: Option<string>, knownName: Option<string>, rawArguments: string)
    | OutUsage(usage: Usage, d: Deployment)
    | OutDone(reason: Option<string>, usage: Usage, d: Deployment)
    | OutError(tag: ErrorTag)

  datatype ToolEntry = ToolEntry(id: string, name: string, args: string)

  /** The variables of one attempt, with the `emitted` flag that forbids failover. */
  datatype Attempt = Attempt(
    usage: Usage,
    reason: Option<string>,
    parts: seq<string>,
    tools: map<int, ToolEntry>,
    emitted: bool)

  const FRESH := Attempt(Usage(0, 0), None, [], map[], false)

  datatype Handled = Handled(st: Attempt, out: Option<StreamEvent>) | Raised(cls: FailureClass)

  function Slot(index: Option<int>): int {
    match index case None => 0 case Some(i) => i
  }

  function Entry(tools: map<int, ToolEntry>, k: int): ToolEntry {
    if k in tools then tools[k] else ToolEntry("", "", "")
  }

  function Or(a: string, b: string): string {
    if a != "" then a else b
  }

  /** `_handle`: one adapter event. */
  function Handle(st: Attempt, ev: AdapterEvent): Handled {
    match ev
    case Delta(content) =>
      if content == "" then Handled(st, None)
      else Handled(st.(parts := st.parts + [content], emitted := true), Some(OutDelta(content)))
    case ToolStart(index, id, name) =>
      var e := Entry(st.tools, Slot(index));
      var e' := ToolEntry(Or(id, e.id), Or(name, e.name), e.args);
      Handled(st.(tools := st.tools[Slot(index) := e'], emitted := true), Some(OutToolStart(index, e'.id, e'.name)))
    case ToolDelta(index, id, name, arguments) =>
      var e := Entry(st.tools, Slot(index));
      var e' := ToolEntry(Or(id, e.id), Or(name, e.name), e.args + arguments);
      Handled(st.(tools := st.tools[Slot(index) := e']), Some(OutToolDelta(index, e'.id, arguments)))
    case ToolEnd(index, id, name) =>
      if Slot(index) in st.tools then
        var e := st.tools[Slot(index)];
        var e' := ToolEntry(Or(id, e.id), Or(name, e.name), e.args);
        Handled(st.(tools := st.tools[Slot(index) := e']), Some(OutToolEnd(index, Some(e'.id), Some(e'.name), e'.args)))
      else
        Handled(st, Some(OutToolEnd(index, if id != "" then Some(id) else None, if name != "" then Some(name) else None, "")))
    case UsageReport(usage) =>
      Handled(if usage.Some? then st.(usage := usage.value) else st, None)
    case Finish(reason, usage) =>
      Handled((if usage.Some? then st.(usage := usage.value) else st).(reason := reason), None)
    case Failure(cls) => Raised(cls)
    case Other => Handled(st, None)
  }

  // ----- One attempt, uninterrupted ---------------------------------------------------

  datatype Ending = Completed | Broke(cls: FailureClass)

  datatype Rendering = Rendering(outs: seq<StreamEvent>, st: Attempt, end: Ending)

  function OutOf(o: Option<StreamEvent>): seq<StreamEvent> {
    match o case None => [] case Some(e) => [e]
  }

  /** An adapter that ends before its first event counts as a general failure. */
  function RenderFrom(events: seq<AdapterEvent>, raises: Option<FailureClass>, st: Attempt, started: bool): Rendering
    decreases |events|
  {
    if events == [] then
      Rendering([], st,
        match raises
        case Some(c) => Broke(c)
        case None => if started then Completed else Broke(General))
    else
      match Handle(st, events[0])
      case Raised(c) => Rendering([], st, Broke(c))
      case Handled(st', out) =>
        var r := RenderFrom(events[1..], raises, st', true);
        Rendering(OutOf(out) + r.outs, r.st, r.end)
  }

  function Render(s: Script): Rendering {
    RenderFrom(s.events, s.raises, FRESH, false)
  }

  // ----- The whole run, uninterrupted ---------------------------------------------------

  function StreamFate(s: Script): Fate {
    if s.setup.Some? then Halted
    else
      var r := Render(s);
      match r.end
      case Completed => Won
      case Broke(c) => if r.st.emitted then Halted else Lost(c)
  }

  function StreamFates(cast: Cast): Fates {
    d => StreamFate(cast(d))
  }

  function Outs(s: Script): seq<StreamEvent> {
    if s.setup.Some? then [] else Render(s).outs
  }

  type Shows = Deployment -> seq<StreamEvent>

  function OutsOf(cast: Cast): Shows {
    d => Outs(cast(d))
  }

  function Concat(shows: Shows, tried: seq<Deployment>): seq<StreamEvent> {
    if tried == [] then [] else Concat(shows, tried[..|tried| - 1]) + shows(tried[|tried| - 1])
  }

  /** What the attempts yielded, one after the other. */
  function Emissions(cast: Cast, tried: seq<Deployment>): seq<StreamEvent> {
    Concat(OutsOf(cast), tried)
  }

  /** What follows the content: `usage` and `done`, or one `error`. */
  function Terminal(cast: Cast, d: Deployment): seq<StreamEvent> {
    var s := cast(d);
    if s.setup.Some? then [OutError(NoSetup(s.setup.value))]
    else
      var r := Render(s);
      match r.end
      case Completed => [OutUsage(r.st.usage, d), OutDone(r.st.reason, r.st.usage, d)]
      case Broke(c) => [OutError(if r.st.emitted then MidStream(d, c) else ChainExhausted(c))]
  }

  function Join(parts: seq<string>): string {
    if parts == [] then "" else Join(parts[..|parts| - 1]) + parts[|parts| - 1]
  }

  datatype Recorded = Recorded(d: Deployment, content: string, usage: Usage, reason: Option<string>,
                               tools: map<int, ToolEntry>, attempts: nat)

  function RecordOf(cast: Cast, tried: seq<Deployment>): Option<Recorded>
    requires tried != []
  {
    var d := tried[|tried| - 1];
    if StreamFate(cast(d)).Won? then
      var st := Render(cast(d)).st;
      Some(Recorded(d, Join(st.parts), st.usage, st.reason, st.tools, |tried|))
    else None
  }

  datatype Reserve = Granted(hold: Option<nat>) | Exceeded

  /** What surrounds one streaming request. `keyError` is raised by the key resolver. */
  datatype Setting = Setting(reserve: Reserve, keyError: Option<SetupError>, plan: Plan, decision: Deployment, cast: Cast)

  /** The reservation and the key are there, so the loop begins. */
  predicate Reached(x: Setting) {
    x.reserve.Granted? && x.keyError.None?
  }

  datatype FullRun = FullRun(trace: seq<StreamEvent>, recorded: Option<Recorded>)

  function Attempted(x: Setting): (tried: seq<Deployment>)
    ensures tried != []
  {
    Walk(x.plan, StreamFates(x.cast), [x.decision])
  }

  function Whole(x: Setting): FullRun {
    if x.reserve.Exceeded? then FullRun([OutError(OverBudget)], None)
    else if x.keyError.Some? then FullRun([OutError(NoSetup(x.keyError.value))], None)
    else
      var tried := Attempted(x);
      FullRun(Emissions(x.cast, tried) + Terminal(x.cast, tried[|tried| - 1]), RecordOf(x.cast, tried))
  }

  // ----- One attempt, with cancellation -------------------------------------------------

  /** What is left of an attempt before event `i`. */
  function Remaining(s: Script, i: nat, st: Attempt): Rendering
    requires i <= |s.events|
  {
    RenderFrom(s.events[i..], s.raises, st, i > 0)
  }

  function Prepend(outs: seq<StreamEvent>, r: Rendering): Rendering {
    Rendering(outs + r.outs, r.st, r.end)
  }

  function EndingOf(s: Script): Ending {
    match s.raises
    case Some(c) => Broke(c)
    case None => if s.events != [] then Completed else Broke(General)
  }

  lemma RelayAll(s: Script)
    ensures Prepend([], Remaining(s, 0, FRESH)) == Render(s)
  {
    assert s.events[0..] == s.events;
    assert [] + Render(s).outs == Render(s).outs;
  }

  lemma RelayEnd(s: Script, st: Attempt, outs: seq<StreamEvent>)
    ensures Prepend(outs, Remaining(s, |s.events|, st)) == Rendering(outs, st, EndingOf(s))
  {
    assert s.events[|s.events|..] == [];
    assert outs + [] == outs;
  }

  lemma RelayOne(s: Script, i: nat, st: Attempt, outs: seq<StreamEvent>)
    requires i < |s.events|
    ensures Prepend(outs, Remaining(s, i, st)) ==
              match Handle(st, s.events[i])
              case Raised(c) => Rendering(outs, st, Broke(c))
              case Handled(st', out) => Prepend(outs + OutOf(out), Remaining(s, i + 1, st'))
  {
    assert s.events[i..][1..] == s.events[i + 1..];
    match Handle(st, s.events[i])
    case Raised(c) =>
      assert outs + [] == outs;
    case Handled(st', out) =>
      var rest := Remaining(s, i + 1, st');
      assert outs + (OutOf(out) + rest.outs) == outs + OutOf(out) + rest.outs;
  }

  // ----- Suspension points --------------------------------------------------------------

  /** The suspension points at which a cancellation arrives. */
  type Cuts = nat -> bool

  /** No cancellation arrives from point `lo` up to point `hi`. */
  ghost predicate Calm(cuts: Cuts, lo: nat, hi: nat) {
    forall k: nat :: lo <= k < hi ==> !cuts(k)
  }

  /** The suspension points of an attempt: each wait for an event, each yield, and the wait for the end. */
  function PointsFrom(events: seq<AdapterEvent>, st: Attempt): (n: nat)
    ensures n > 0
  {
    if events == [] then 1
    else
      match Handle(st, events[0])
      case Raised(_) => 1
      case Handled(st', out) => 1 + (if out.Some? then 1 else 0) + PointsFrom(events[1..], st')
  }

  function Points(s: Script): (n: nat)
    ensures n > 0
  {
    PointsFrom(s.events, FRESH)
  }

  lemma PointsOne(s: Script, i: nat, st: Attempt)
    requires i < |s.events|
    ensures PointsFrom(s.events[i..], st) ==
              match Handle(st, s.events[i])
              case Raised(_) => 1
              case Handled(st', out) => 1 + (if out.Some? then 1 else 0) + PointsFrom(s.events[i + 1..], st')
  {
    assert s.events[i..][1..] == s.events[i + 1..];
  }

  /**
   One attempt of the generator. The clock counts suspension points; a cut attempt stops
   at its first cut point.
   */
  method Relay(s: Script, cuts: Cuts, start: nat) returns (r: Rendering, clock: nat, cut: bool)
    ensures start <= clock && Calm(cuts, start, clock)
    ensures !cut ==> r == Render(s) && clock == start + Points(s)
    ensures cut ==> r.outs <= Render(s).outs && clock < start + Points(s) && cuts(clock)
  {
    clock := start;
    var outs: seq<StreamEvent> := [];
    var st := FRESH;
    var i := 0;
    RelayAll(s);
    assert s.events[0..] == s.events;
    while i < |s.events|
      invariant 0 <= i <= |s.events|
      invariant Prepend(outs, Remaining(s, i, st)) == Render(s)
      invariant start <= clock && clock + PointsFrom(s.events[i..], st) == start + Points(s)
      invariant Calm(cuts, start, clock)
    {
      // await the next adapter event
      if cuts(clock) {
        return Rendering(outs, st, Broke(General)), clock, true;
      }
      clock := clock + 1;
      RelayOne(s, i, st, outs);
      PointsOne(s, i, st);
      var h := Handle(st, s.events[i]);
      if h.Raised? {
        return Rendering(outs, st, Broke(h.cls)), clock, false;
      }
      st := h.st;
      outs := outs + OutOf(h.out);
      i := i + 1;
      // suspended at the yield
      if h.out.Some? {
        if cuts(clock) {
          return Rendering(outs, st, Broke(General)), clock, true;
        }
        clock := clock + 1;
      }
    }
    // await the end of the adapter
    if cuts(clock) {
      return Rendering(outs, st, Broke(General)), clock, true;
    }
    clock := clock + 1;
    RelayEnd(s, st, outs);
    return Rendering(outs, st, EndingOf(s)), clock, false;
  }

  lemma {:induction false} ConcatGrow(shows: Shows, all: seq<Deployment>, n: nat)
    requires n < |all|
    ensures Concat(shows, all[..n + 1]) == Concat(shows, all[..n]) + shows(all[n])
    ensures Concat(shows, all[..n + 1]) <= Concat(shows, all)
    decreases |all| - n
  {
    assert all[..n + 1][..n] == all[..n];
    if n + 1 < |all| {
      ConcatGrow(shows, all, n + 1);
    } else {
      assert all[..n + 1] == all;
    }
  }

  /** The loop has made the attempts `seen` and is about to use `targets`. */
  ghost predicate OnCourse(x: Setting, seen: seq<Deployment>, targets: seq<Deployment>) {
    Midway(x.plan, StreamFates(x.cast), Attempted(x), seen, targets)
  }

  lemma EmissionsTake(cast: Cast, all: seq<Deployment>, seen: seq<Deployment>, d: Deployment)
    requires seen + [d] <= all
    ensures Emissions(cast, seen + [d]) == Emissions(cast, seen) + Outs(cast(d))
    ensures Emissions(cast, seen + [d]) <= Emissions(cast, all)
  {
    ConcatGrow(OutsOf(cast), all, |seen|);
    assert all[..|seen| + 1] == seen + [d];
    assert all[..|seen|] == seen;
    assert all[|seen|] == d;
  }

  lemma WholeStartsWithEmissions(x: Setting)
    requires x.reserve.Granted? && x.keyError.None?
    ensures Emissions(x.cast, Attempted(x)) <= Whole(x).trace
  {
  }

  lemma TakeTarget(x: Setting, seen: seq<Deployment>, targets: seq<Deployment>)
    requires OnCourse(x, seen, targets) && targets != []
    ensures |seen| < |Attempted(x)| && seen + [targets[0]] <= Attempted(x)
  {
    WalkIsComplete(x.plan, StreamFates(x.cast), x.decision);
    Advance(x.plan, StreamFates(x.cast), x.decision, Attempted(x), seen, targets);
  }

  /** One turn of the loop attempts the walk's next deployment and extends the trace by its events. */
  lemma NextAttempt(x: Setting, seen: seq<Deployment>, targets: seq<Deployment>)
    requires x.reserve.Granted? && x.keyError.None?
    requires OnCourse(x, seen, targets) && targets != []
    ensures |seen| < |Attempted(x)| && seen + [targets[0]] <= Attempted(x)
    ensures Emissions(x.cast, seen + [targets[0]]) == Emissions(x.cast, seen) + Outs(x.cast(targets[0]))
    ensures Emissions(x.cast, seen + [targets[0]]) <= Whole(x).trace
  {
    TakeTarget(x, seen, targets);
    EmissionsTake(x.cast, Attempted(x), seen, targets[0]);
    WholeStartsWithEmissions(x);
  }

  lemma StopAttempts(x: Setting, seen: seq<Deployment>)
    requires seen != [] && seen <= Attempted(x) && !StreamFate(x.cast(seen[|seen| - 1])).Lost?
    ensures seen == Attempted(x)
  {
    WalkIsComplete(x.plan, StreamFates(x.cast), x.decision);
    StopsHere(x.plan, StreamFates(x.cast), x.decision, Attempted(x), seen);
  }

  lemma NoTargets(x: Setting, seen: seq<Deployment>)
    requires OnCourse(x, seen, [])
    ensures seen != [] && seen == Attempted(x)
  {
    WalkIsComplete(x.plan, StreamFates(x.cast), x.decision);
    RunsDry(x.plan, StreamFates(x.cast), x.decision, Attempted(x), seen);
  }

  lemma FirstTarget(x: Setting)
    ensures OnCourse(x, [], [x.decision])
  {
  }

  lemma KeepGoing(x: Setting, seen: seq<Deployment>, c: FailureClass)
    requires seen != [] && seen <= Attempted(x) && StreamFate(x.cast(seen[|seen| - 1])) == Lost(c)
    ensures OnCourse(x, seen, Unseen(x.plan(c), seen))
  {
  }

  /** Content and terminal events of an uninterrupted run that ends with the attempts `seen`. */
  lemma WholeIs(x: Setting, seen: seq<Deployment>)
    requires x.reserve.Granted? && x.keyError.None? && seen == Attempted(x)
    ensures Whole(x) == FullRun(Emissions(x.cast, seen) + Terminal(x.cast, seen[|seen| - 1]), RecordOf(x.cast, seen))
  {
  }

  /** Every attempt but the last was a transparent failure. */
  lemma EarlierAttemptsLost(x: Setting, i: nat)
    requires i + 1 < |Attempted(x)|
    ensures StreamFate(x.cast(Attempted(x)[i])).Lost?
  {
    WalkIsComplete(x.plan, StreamFates(x.cast), x.decision);
    assert Follows(x.plan, StreamFates(x.cast), Attempted(x), i);
  }
}
