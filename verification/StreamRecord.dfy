/**
 What a stream says and records, told from the adapter's events alone: each event that the
 consumer sees, the usage, the reason, the text and the tool table of the record.
 */
module StreamRecord {
  import opened Text
  import opened Catalog
  import opened Fallback
  import opened Routing
  import opened Engine
  import opened Streaming
  import opened StreamingSafety
  import opened Generator

  // ----- Read off the events ------------------------------------------------------------

  function Reported(e: AdapterEvent): Option<Usage> {
    match e
    case UsageReport(u) => u
    case Finish(_, u) => u
    case _ => None
  }

  /** The usage that was reported last, or none at all. */
  function LastUsage(past: seq<AdapterEvent>): Usage {
    if past == [] then Usage(0, 0)
    else
      match Reported(past[|past| - 1])
      case Some(u) => u
      case None => LastUsage(past[..|past| - 1])
  }

  function LastReason(past: seq<AdapterEvent>): Option<string> {
    if past == [] then None
    else if past[|past| - 1].Finish? then past[|past| - 1].reason
    else LastReason(past[..|past| - 1])
  }

  function TextIn(past: seq<AdapterEvent>): string {
    if past == [] then ""
    else TextIn(past[..|past| - 1]) + (if past[|past| - 1].Delta? then past[|past| - 1].content else "")
  }

  /** The event starts call `k` or carries a piece of it. */
  predicate Introduces(e: AdapterEvent, k: int) {
    (e.ToolStart? || e.ToolDelta?) && Slot(e.index) == k
  }

  predicate KnownIn(past: seq<AdapterEvent>, k: int) {
    exists i :: 0 <= i < |past| && Introduces(past[i], k)
  }

  /** One of the two header fields of a tool event. */
  type Header = AdapterEvent -> string

  function IdIn(e: AdapterEvent): string {
    if e.ToolStart? || e.ToolDelta? || e.ToolEnd? then e.id else ""
  }

  function NameIn(e: AdapterEvent): string {
    if e.ToolStart? || e.ToolDelta? || e.ToolEnd? then e.name else ""
  }

  /** The last value of a field of call `k` that is not empty; an end counts once the call is known. */
  function LastGiven(past: seq<AdapterEvent>, k: int, field: Header): string {
    if past == [] then ""
    else
      var front, e := past[..|past| - 1], past[|past| - 1];
      if field(e) != "" && (Introduces(e, k) || (e.ToolEnd? && Slot(e.index) == k && KnownIn(front, k))) then field(e)
      else LastGiven(front, k, field)
  }

  function LastId(past: seq<AdapterEvent>, k: int): string { LastGiven(past, k, (e: AdapterEvent) => IdIn(e)) }

  function LastName(past: seq<AdapterEvent>, k: int): string { LastGiven(past, k, (e: AdapterEvent) => NameIn(e)) }

  function ArgsIn(past: seq<AdapterEvent>, k: int): string {
    if past == [] then ""
    else
      var e := past[|past| - 1];
      ArgsIn(past[..|past| - 1], k) + (if e.ToolDelta? && Slot(e.index) == k then e.arguments else "")
  }

  function Given(s: string): Option<string> {
    if s == "" then None else Some(s)
  }

  /** What the consumer sees of event `e` after the events `past`. */
  function Seen(past: seq<AdapterEvent>, e: AdapterEvent): Option<StreamEvent> {
    var now := past + [e];
    match e
    case Delta(content) => if content == "" then None else Some(OutDelta(content))
    case ToolStart(index, _, _) => Some(OutToolStart(index, LastId(now, Slot(index)), LastName(now, Slot(index))))
    case ToolDelta(index, _, _, arguments) => Some(OutToolDelta(index, LastId(now, Slot(index)), arguments))
    case ToolEnd(index, id, name) =>
      if KnownIn(past, Slot(index)) then
        Some(OutToolEnd(index, Some(LastId(now, Slot(index))), Some(LastName(now, Slot(index))), ArgsIn(past, Slot(index))))
      else Some(OutToolEnd(index, Given(id), Given(name), ""))
    case _ => None
  }

  function SeenFrom(past: seq<AdapterEvent>, events: seq<AdapterEvent>): seq<StreamEvent>
    decreases |events|
  {
    if events == [] then [] else OutOf(Seen(past, events[0])) + SeenFrom(past + [events[0]], events[1..])
  }

  // ----- The attempt's variables hold what the events say --------------------------------------

  ghost predicate EntryHolds(tools: map<int, ToolEntry>, past: seq<AdapterEvent>, k: int) {
    (k in tools <==> KnownIn(past, k)) && (k in tools ==> tools[k] == ToolEntry(LastId(past, k), LastName(past, k), ArgsIn(past, k)))
  }

  ghost predicate TableHolds(tools: map<int, ToolEntry>, past: seq<AdapterEvent>) {
    forall k :: EntryHolds(tools, past, k)
  }

  ghost predicate Holds(st: Attempt, past: seq<AdapterEvent>) {
    && st.usage == LastUsage(past) && st.reason == LastReason(past)
    && Join(st.parts) == TextIn(past) && TableHolds(st.tools, past)
  }

  lemma Front<T>(s: seq<T>, x: T)
    ensures (s + [x])[..|s|] == s && (s + [x])[|s|] == x
  {
  }

  lemma KnownNow(past: seq<AdapterEvent>, e: AdapterEvent, k: int)
    ensures KnownIn(past + [e], k) <==> KnownIn(past, k) || Introduces(e, k)
  {
    var now := past + [e];
    assert now[|past|] == e && forall i :: 0 <= i < |past| ==> now[i] == past[i];
  }

  lemma {:induction false} UnknownIsEmpty(past: seq<AdapterEvent>, k: int, field: Header)
    requires !KnownIn(past, k)
    ensures LastGiven(past, k, field) == "" && ArgsIn(past, k) == ""
  {
    if past != [] {
      var front, e := past[..|past| - 1], past[|past| - 1];
      Front(front, e);
      assert past == front + [e];
      KnownNow(front, e, k);
      UnknownIsEmpty(front, k, field);
    }
  }

  /** One event's effect on what is known of call `k`. */
  lemma CallNow(past: seq<AdapterEvent>, e: AdapterEvent, k: int)
    ensures
      var now := past + [e];
      var counts := Introduces(e, k) || (e.ToolEnd? && Slot(e.index) == k && KnownIn(past, k));
      && LastId(now, k) == (if counts then Or(IdIn(e), LastId(past, k)) else LastId(past, k))
      && LastName(now, k) == (if counts then Or(NameIn(e), LastName(past, k)) else LastName(past, k))
      && ArgsIn(now, k) == ArgsIn(past, k) + (if e.ToolDelta? && Slot(e.index) == k then e.arguments else "")
  {
    Front(past, e);
  }

  lemma PlainNow(past: seq<AdapterEvent>, e: AdapterEvent)
    ensures
      var now := past + [e];
      && LastUsage(now) == (match Reported(e) case Some(u) => u case None => LastUsage(past))
      && LastReason(now) == (if e.Finish? then e.reason else LastReason(past))
      && TextIn(now) == TextIn(past) + (if e.Delta? then e.content else "")
  {
    Front(past, e);
  }

  predicate OfCall(e: AdapterEvent, k: int) {
    (e.ToolStart? || e.ToolDelta? || e.ToolEnd?) && Slot(e.index) == k
  }

  lemma EntryOf(tools: map<int, ToolEntry>, past: seq<AdapterEvent>, k: int)
    requires EntryHolds(tools, past, k)
    ensures Entry(tools, k) == ToolEntry(LastId(past, k), LastName(past, k), ArgsIn(past, k))
  {
    if !KnownIn(past, k) {
      UnknownIsEmpty(past, k, (e: AdapterEvent) => IdIn(e));
      UnknownIsEmpty(past, k, (e: AdapterEvent) => NameIn(e));
    }
  }

  lemma AddNothing(s: string)
    ensures s + "" == s
  {
  }

  /** An event of a call is taken over into its entry. */
  lemma HandleOwn(st: Attempt, past: seq<AdapterEvent>, e: AdapterEvent, k: int)
    requires EntryHolds(st.tools, past, k) && OfCall(e, k)
    ensures EntryHolds(Handle(st, e).st.tools, past + [e], k)
  {
    KnownNow(past, e, k);
    CallNow(past, e, k);
    EntryOf(st.tools, past, k);
    AddNothing(ArgsIn(past, k));
  }

  /** Other events leave it alone. */
  lemma HandleOther(st: Attempt, e: AdapterEvent, k: int)
    requires !OfCall(e, k) && !e.Failure?
    ensures
      var tools := Handle(st, e).st.tools;
      (k in tools <==> k in st.tools) && (k in tools ==> tools[k] == st.tools[k])
  {
  }

  lemma EntryStays(tools: map<int, ToolEntry>, tools': map<int, ToolEntry>, past: seq<AdapterEvent>, e: AdapterEvent, k: int)
    requires EntryHolds(tools, past, k) && !OfCall(e, k)
    requires (k in tools' <==> k in tools) && (k in tools' ==> tools'[k] == tools[k])
    ensures EntryHolds(tools', past + [e], k)
  {
    KnownNow(past, e, k);
    CallNow(past, e, k);
    AddNothing(ArgsIn(past, k));
  }

  lemma HandlePlain(st: Attempt, past: seq<AdapterEvent>, e: AdapterEvent)
    requires Holds(st, past) && !e.Failure?
    ensures
      var t, now := Handle(st, e).st, past + [e];
      t.usage == LastUsage(now) && t.reason == LastReason(now) && Join(t.parts) == TextIn(now)
  {
    PlainNow(past, e);
    if e.Delta? && e.content != "" {
      JoinAppend(st.parts, e.content);
    } else {
      assert TextIn(past) + "" == TextIn(past);
    }
  }

  lemma HandleSeen(st: Attempt, past: seq<AdapterEvent>, e: AdapterEvent)
    requires Holds(st, past) && !e.Failure?
    ensures Handle(st, e).Handled? && Handle(st, e).out == Seen(past, e)
  {
    if e.ToolStart? || e.ToolDelta? || e.ToolEnd? {
      assert EntryHolds(st.tools, past, Slot(e.index));
      EntryOf(st.tools, past, Slot(e.index));
      CallNow(past, e, Slot(e.index));
    }
  }

  lemma HandleHolds(st: Attempt, past: seq<AdapterEvent>, e: AdapterEvent)
    requires Holds(st, past) && !e.Failure?
    ensures Handle(st, e).Handled? && Handle(st, e).out == Seen(past, e) && Holds(Handle(st, e).st, past + [e])
  {
    HandleSeen(st, past, e);
    HandlePlain(st, past, e);
    forall k ensures EntryHolds(Handle(st, e).st.tools, past + [e], k) {
      assert EntryHolds(st.tools, past, k);
      if OfCall(e, k) {
        HandleOwn(st, past, e, k);
      } else {
        HandleOther(st, e, k);
        EntryStays(st.tools, Handle(st, e).st.tools, past, e, k);
      }
    }
  }

  lemma NothingHolds()
    ensures Holds(FRESH, [])
  {
  }

  lemma Regroup(past: seq<AdapterEvent>, e: AdapterEvent, rest: seq<AdapterEvent>)
    ensures past + [e] + rest == past + ([e] + rest)
  {
  }

  lemma {:induction false} RenderHolds(
    past: seq<AdapterEvent>, events: seq<AdapterEvent>, raises: Option<FailureClass>, st: Attempt, started: bool)
    requires Holds(st, past)
    ensures
      var r := RenderFrom(events, raises, st, started);
      Holds(r.st, past + Live(events)) && r.outs == SeenFrom(past, Live(events))
    decreases |events|
  {
    if events == [] || events[0].Failure? {
      assert past + [] == past;
    } else {
      var e, rest := events[0], events[1..];
      HandleHolds(st, past, e);
      RenderHolds(past + [e], rest, raises, Handle(st, e).st, true);
      Regroup(past, e, Live(rest));
      SeenCons(past, e, Live(rest));
    }
  }

  lemma SeenCons(past: seq<AdapterEvent>, e: AdapterEvent, rest: seq<AdapterEvent>)
    ensures SeenFrom(past, [e] + rest) == OutOf(Seen(past, e)) + SeenFrom(past + [e], rest)
  {
    assert ([e] + rest)[1..] == rest;
  }

  /** An attempt shows exactly what its events say, and its variables hold what they add up to. */
  lemma AttemptHolds(s: Script)
    ensures Holds(Render(s).st, Live(s.events)) && Render(s).outs == SeenFrom([], Live(s.events))
  {
    NothingHolds();
    RenderHolds([], s.events, s.raises, FRESH, false);
    assert [] + Live(s.events) == Live(s.events);
  }

  // ----- How an attempt ends --------------------------------------------------------------------

  /** The first failure that the adapter reports, else what it raises, else nothing; no event at all is a general failure. */
  function EndingOfEvents(s: Script): Ending {
    var n := |Live(s.events)|;
    if n < |s.events| && s.events[n].Failure? then Broke(s.events[n].cls)
    else if s.raises.Some? then Broke(s.raises.value)
    else if s.events == [] then Broke(General)
    else Completed
  }

  lemma {:induction false} RenderEnds(events: seq<AdapterEvent>, raises: Option<FailureClass>, st: Attempt, started: bool)
    ensures
      var n := |Live(events)|;
      && n <= |events| && (n < |events| ==> events[n].Failure?) && (forall i :: 0 <= i < n ==> !events[i].Failure?)
      && RenderFrom(events, raises, st, started).end ==
         if n < |events| then Broke(events[n].cls)
         else if raises.Some? then Broke(raises.value)
         else if events == [] && !started then Broke(General) else Completed
    decreases |events|
  {
    if events != [] && !events[0].Failure? {
      HandleHeard(st, events[0]);
      RenderEnds(events[1..], raises, Handle(st, events[0]).st, true);
      assert forall i :: 0 < i < |events| ==> events[i] == events[1..][i - 1];
    }
  }

  lemma AttemptEnds(s: Script)
    ensures Render(s).end == EndingOfEvents(s)
    ensures Render(s).end.Completed? ==> Live(s.events) == s.events
  {
    RenderEnds(s.events, s.raises, FRESH, false);
    LivePrefix(s.events);
  }

  // ----- The record and the charge -----------------------------------------------------------------

  function LastDeployment(x: Setting): Deployment {
    Attempted(x)[|Attempted(x)| - 1]
  }

  /** A success records what the last deployment's events say: text, usage, reason and tools. */
  ghost predicate RecordsEvents(x: Setting, r: Recorded) {
    var events := LastOf(x).events;
    && r.d == LastDeployment(x) && r.attempts == |Attempted(x)|
    && r.content == TextIn(events) && r.usage == LastUsage(events) && r.reason == LastReason(events)
    && TableHolds(r.tools, events)
  }

  lemma SuccessRecords(x: Setting)
    requires Reached(x) && Whole(x).recorded.Some?
    ensures WonLast(x) && RecordsEvents(x, Whole(x).recorded.value)
    ensures
      var d, events := LastDeployment(x), LastOf(x).events;
      Whole(x).trace == Emissions(x.cast, Attempted(x))
        + [OutUsage(LastUsage(events), d), OutDone(LastReason(events), LastUsage(events), d)]
  {
    WholeIs(x, Attempted(x));
    AttemptHolds(LastOf(x));
    AttemptEnds(LastOf(x));
  }

  /** A run that is not aborted and succeeds is settled once, at the price of the usage that was reported last. */
  lemma ChargedAsReported(usd: Price, x: Setting, cuts: Cuts, run: StreamRun)
    requires Agrees(usd, x, cuts, run) && WonLast(x) && !run.aborted
    ensures run.books.settled == [Settlement(run.books.hold, usd(LastDeployment(x), LastUsage(LastOf(x).events)), true)]
    ensures run.recorded.Some? && RecordsEvents(x, run.recorded.value)
  {
    WholeIs(x, Attempted(x));
    assert Calm(cuts, 0, SettlePoint(x) + 1);
    SuccessRecords(x);
  }

  /** The events of the last attempt are shown as they are said, and a failed run ends with the class of its failure. */
  lemma FailureIsNamed(x: Setting)
    requires Reached(x) && LastOf(x).setup.None? && EndingOfEvents(LastOf(x)).Broke?
    ensures
      var s, d := LastOf(x), LastDeployment(x);
      var c := EndingOfEvents(s).cls;
      Whole(x).trace == Emissions(x.cast, Attempted(x)) +
                        [OutError(if AnyLoud(Live(s.events)) then MidStream(d, c) else ChainExhausted(c))]
  {
    var s := LastOf(x);
    WholeIs(x, Attempted(x));
    AttemptEnds(s);
    RenderFromHeard(s.events, s.raises, FRESH, false);
  }
}
