/** What every stream looks like to its consumer. */
module StreamingSafety {
  import opened Text
  import opened Catalog
  import opened Fallback
  import opened FallbackLoop
  import opened Streaming

  predicate IsContent(e: StreamEvent) {
    e.OutDelta? || e.OutToolStart? || e.OutToolDelta? || e.OutToolEnd?
  }

  predicate AllContent(es: seq<StreamEvent>) {
    forall i :: 0 <= i < |es| ==> IsContent(es[i])
  }

  /** The text a consumer has after concatenating its deltas. */
  function DeltaText(es: seq<StreamEvent>): string {
    if es == [] then ""
    else
      var e := es[|es| - 1];
      DeltaText(es[..|es| - 1]) + (if e.OutDelta? then e.content else "")
  }

  lemma {:induction false} DeltaTextConcat(a: seq<StreamEvent>, b: seq<StreamEvent>)
    ensures DeltaText(a + b) == DeltaText(a) + DeltaText(b)
  {
    if b == [] {
      assert a + b == a;
    } else {
      var n := |b| - 1;
      assert (a + b)[..|a + b| - 1] == a + b[..n];
      DeltaTextConcat(a, b[..n]);
    }
  }

  lemma {:induction false} JoinAppend(parts: seq<string>, p: string)
    ensures Join(parts + [p]) == Join(parts) + p
  {
    assert (parts + [p])[..|parts|] == parts;
  }

  /** An attempt yields content only, and its deltas spell the parts it accumulates. */
  lemma {:induction false} RenderFromText(events: seq<AdapterEvent>, raises: Option<FailureClass>, st: Attempt, started: bool)
    ensures
      var r := RenderFrom(events, raises, st, started);
      AllContent(r.outs) && Join(r.st.parts) == Join(st.parts) + DeltaText(r.outs)
    decreases |events|
  {
    if events != [] && Handle(st, events[0]).Handled? {
      var h := Handle(st, events[0]);
      RenderFromText(events[1..], raises, h.st, true);
      HandleText(st, events[0]);
      DeltaTextConcat(OutOf(h.out), RenderFrom(events[1..], raises, h.st, true).outs);
    }
  }

  lemma HandleText(st: Attempt, ev: AdapterEvent)
    requires Handle(st, ev).Handled?
    ensures
      var h := Handle(st, ev);
      AllContent(OutOf(h.out)) && Join(h.st.parts) == Join(st.parts) + DeltaText(OutOf(h.out))
  {
    var h := Handle(st, ev);
    if ev.Delta? && ev.content != "" {
      JoinAppend(st.parts, ev.content);
      assert [OutDelta(ev.content)][..0] == [];
    } else if h.out.Some? {
      assert [h.out.value][..0] == [];
    }
  }

  // ----- When an attempt is heard --------------------------------------------------------

  /** The events before the adapter reports a failure. */
  function Live(events: seq<AdapterEvent>): seq<AdapterEvent> {
    if events == [] || events[0].Failure? then [] else [events[0]] + Live(events[1..])
  }

  /** Events that set the `emitted` flag. */
  predicate Loud(e: AdapterEvent) {
    (e.Delta? && e.content != "") || e.ToolStart?
  }

  /** Events that are passed on without setting it. */
  predicate Fragment(e: AdapterEvent) {
    e.ToolDelta? || e.ToolEnd?
  }

  lemma HandleHeard(st: Attempt, ev: AdapterEvent)
    requires !ev.Failure?
    ensures
      var h := Handle(st, ev);
      && h.Handled?
      && (h.st.emitted <==> st.emitted || Loud(ev))
      && (h.out.Some? <==> Loud(ev) || Fragment(ev))
  {
  }

  predicate AnyLoud(events: seq<AdapterEvent>) {
    exists i :: 0 <= i < |events| && Loud(events[i])
  }

  predicate AnyFragment(events: seq<AdapterEvent>) {
    exists i :: 0 <= i < |events| && Fragment(events[i])
  }

  lemma AnyStep(e: AdapterEvent, rest: seq<AdapterEvent>)
    ensures AnyLoud([e] + rest) <==> Loud(e) || AnyLoud(rest)
    ensures AnyFragment([e] + rest) <==> Fragment(e) || AnyFragment(rest)
  {
    var all := [e] + rest;
    assert all[0] == e;
    assert forall i :: 0 <= i < |rest| ==> all[i + 1] == rest[i];
    assert forall i :: 0 < i < |all| ==> all[i] == rest[i - 1];
  }

  lemma {:induction false} RenderFromHeard(events: seq<AdapterEvent>, raises: Option<FailureClass>, st: Attempt, started: bool)
    ensures
      var r := RenderFrom(events, raises, st, started);
      && (r.st.emitted <==> st.emitted || AnyLoud(Live(events)))
      && (r.outs == [] <==> !AnyLoud(Live(events)) && !AnyFragment(Live(events)))
      && (r.end.Broke? <==> Live(events) != events || raises.Some? || (!started && events == []))
    decreases |events|
  {
    if events != [] && !events[0].Failure? {
      var h := Handle(st, events[0]);
      HandleHeard(st, events[0]);
      RenderFromHeard(events[1..], raises, h.st, true);
      AnyStep(events[0], Live(events[1..]));
      LiveStep(events);
    }
  }

  lemma LiveStep(events: seq<AdapterEvent>)
    requires events != [] && !events[0].Failure?
    ensures Live(events) == [events[0]] + Live(events[1..])
    ensures Live(events) == events <==> Live(events[1..]) == events[1..]
  {
    assert events == [events[0]] + events[1..];
    assert Live(events)[1..] == Live(events[1..]);
  }

  /** Content of this deployment reaches the consumer and yet the engine fails over. */
  predicate Leaks(s: Script) {
    StreamFate(s).Lost? && Outs(s) != []
  }

  /**
   The flag misses exactly the scripts that fail after tool fragments with no text and
   no tool start before them.
   */
  lemma LeaksIff(s: Script)
    ensures Leaks(s) <==>
              && s.setup.None?
              && (Live(s.events) != s.events || s.raises.Some?)
              && AnyFragment(Live(s.events))
              && !AnyLoud(Live(s.events))
  {
    RenderFromHeard(s.events, s.raises, FRESH, false);
    if s.setup.None? {
      var r := Render(s);
      assert Leaks(s) <==> r.end.Broke? && !r.st.emitted && r.outs != [];
      if s.events == [] {
        assert Live(s.events) == [];
      }
    }
  }

  /** Every tool fragment comes after the start of its own tool call. */
  predicate Bracketed(events: seq<AdapterEvent>) {
    forall i :: 0 <= i < |events| && Fragment(events[i]) ==> Opened(events, i)
  }

  predicate Opened(events: seq<AdapterEvent>, i: nat)
    requires i < |events| && Fragment(events[i])
  {
    exists j :: 0 <= j < i && events[j].ToolStart? && Slot(events[j].index) == Slot(events[i].index)
  }

  lemma {:induction false} LivePrefix(events: seq<AdapterEvent>)
    ensures Live(events) <= events
  {
    if events != [] && !events[0].Failure? {
      LivePrefix(events[1..]);
      assert events == [events[0]] + events[1..];
    }
  }

  lemma BracketedNeverLeaks(s: Script)
    requires Bracketed(s.events)
    ensures !Leaks(s)
  {
    LeaksIff(s);
    LivePrefix(s.events);
    var live := Live(s.events);
    if AnyFragment(live) {
      var i :| 0 <= i < |live| && Fragment(live[i]);
      assert s.events[i] == live[i];
      assert Opened(s.events, i);
      var j :| 0 <= j < i && s.events[j].ToolStart?;
      assert live[j] == s.events[j];
      assert Loud(live[j]);
    }
  }

  // ----- The shape of the whole trace ------------------------------------------------------

  predicate OneTerminal(es: seq<StreamEvent>) {
    || (|es| == 1 && es[0].OutError?)
    || (|es| == 2 && es[0].OutUsage? && es[1].OutDone? && es[0].d == es[1].d && es[0].usage == es[1].usage)
  }

  lemma {:induction false} ConcatSilent(shows: Shows, tried: seq<Deployment>)
    ensures Concat(shows, tried) == [] <==> forall i :: 0 <= i < |tried| ==> shows(tried[i]) == []
  {
    if tried != [] {
      var n := |tried| - 1;
      ConcatSilent(shows, tried[..n]);
      assert forall i :: 0 <= i < n ==> tried[..n][i] == tried[i];
    }
  }

  /** Content from the last attempted deployment only, then its terminal events. */
  predicate SingleSource(x: Setting)
    requires Reached(x)
  {
    var d := Attempted(x)[|Attempted(x)| - 1];
    Whole(x).trace == Outs(x.cast(d)) + Terminal(x.cast, d)
  }

  /**
   Trace safety, exactly: a fully consumed stream is content of the last attempted
   deployment followed by its terminal events if and only if no earlier attempt leaked.
   */
  lemma SingleSourceIff(x: Setting)
    requires Reached(x)
    ensures SingleSource(x) <==>
              forall i :: 0 <= i < |Attempted(x)| - 1 ==> !Leaks(x.cast(Attempted(x)[i]))
  {
    var tried := Attempted(x);
    var n := |tried| - 1;
    var d := tried[n];
    var before := Emissions(x.cast, tried[..n]);
    ConcatSilent(OutsOf(x.cast), tried[..n]);
    SourceIsBefore(before, Outs(x.cast(d)), Terminal(x.cast, d));
    assert Whole(x).trace == before + Outs(x.cast(d)) + Terminal(x.cast, d);
    forall i | 0 <= i < n ensures Leaks(x.cast(tried[i])) <==> OutsOf(x.cast)(tried[..n][i]) != [] {
      EarlierAttemptsLost(x, i);
      assert tried[..n][i] == tried[i];
    }
  }

  lemma SourceIsBefore(a: seq<StreamEvent>, b: seq<StreamEvent>, c: seq<StreamEvent>)
    ensures a + b + c == b + c <==> a == []
  {
    if a != [] {
      assert |a + b + c| > |b + c|;
    } else {
      assert a + b + c == b + c;
    }
  }

  /** With adapters that open a tool call before its fragments, every stream is safe. */
  lemma BracketedStreamsAreSafe(x: Setting)
    requires Reached(x) && forall d :: Bracketed(x.cast(d).events)
    ensures SingleSource(x)
  {
    SingleSourceIff(x);
    forall i | 0 <= i < |Attempted(x)| - 1 ensures !Leaks(x.cast(Attempted(x)[i])) {
      BracketedNeverLeaks(x.cast(Attempted(x)[i]));
    }
  }

  lemma TerminalIsOne(cast: Cast, d: Deployment)
    ensures OneTerminal(Terminal(cast, d))
    ensures Terminal(cast, d)[0].OutUsage? <==> StreamFate(cast(d)) == Won
  {
  }

  lemma {:induction false} ConcatContent(shows: Shows, tried: seq<Deployment>)
    requires forall i :: 0 <= i < |tried| ==> AllContent(shows(tried[i]))
    ensures AllContent(Concat(shows, tried))
  {
    if tried != [] {
      ConcatContent(shows, tried[..|tried| - 1]);
    }
  }

  lemma EmissionsAreContent(cast: Cast, tried: seq<Deployment>)
    ensures AllContent(Emissions(cast, tried))
  {
    forall i | 0 <= i < |tried| ensures AllContent(OutsOf(cast)(tried[i])) {
      var s := cast(tried[i]);
      RenderFromText(s.events, s.raises, FRESH, false);
    }
    ConcatContent(OutsOf(cast), tried);
  }

  /** Every stream, safe or not, is content followed by exactly one terminal. */
  lemma ContentThenOneTerminal(x: Setting)
    requires Reached(x)
    ensures
      var tried := Attempted(x);
      var content := Emissions(x.cast, tried);
      var terminal := Terminal(x.cast, tried[|tried| - 1]);
      && Whole(x).trace == content + terminal
      && AllContent(content) && OneTerminal(terminal)
      && (terminal[0].OutUsage? <==> Whole(x).recorded.Some?)
  {
    var tried := Attempted(x);
    EmissionsAreContent(x.cast, tried);
    TerminalIsOne(x.cast, tried[|tried| - 1]);
  }

  lemma {:induction false} ConcatText(shows: Shows, tried: seq<Deployment>)
    requires tried != []
    requires forall i :: 0 <= i < |tried| - 1 ==> DeltaText(shows(tried[i])) == ""
    ensures DeltaText(Concat(shows, tried)) == DeltaText(shows(tried[|tried| - 1]))
  {
    var n := |tried| - 1;
    DeltaTextConcat(Concat(shows, tried[..n]), shows(tried[n]));
    if n > 0 {
      ConcatText(shows, tried[..n]);
    }
  }

  lemma {:induction false} QuietHasNoParts(events: seq<AdapterEvent>, raises: Option<FailureClass>, st: Attempt, started: bool)
    requires !RenderFrom(events, raises, st, started).st.emitted
    ensures RenderFrom(events, raises, st, started).st.parts == st.parts
    decreases |events|
  {
    if events != [] && Handle(st, events[0]).Handled? {
      var h := Handle(st, events[0]);
      QuietHasNoParts(events[1..], raises, h.st, true);
      if h.st.emitted { EmittedStays(events[1..], raises, h.st); }
    }
  }

  lemma {:induction false} EmittedStays(events: seq<AdapterEvent>, raises: Option<FailureClass>, st: Attempt)
    requires st.emitted
    ensures RenderFrom(events, raises, st, true).st.emitted
    decreases |events|
  {
    if events != [] && Handle(st, events[0]).Handled? {
      EmittedStays(events[1..], raises, Handle(st, events[0]).st);
    }
  }

  lemma LostHasNoText(s: Script)
    requires StreamFate(s).Lost?
    ensures DeltaText(Outs(s)) == ""
  {
    RenderFromText(s.events, s.raises, FRESH, false);
    QuietHasNoParts(s.events, s.raises, FRESH, false);
    assert Join(Render(s).st.parts) == "";
  }

  /**
   On `done`, the concatenated deltas the consumer saw are exactly the recorded content,
   even when an earlier attempt leaked tool fragments.
   */
  lemma DeltasSpellTheResult(x: Setting)
    requires Reached(x) && Whole(x).recorded.Some?
    ensures DeltaText(Whole(x).trace) == Whole(x).recorded.value.content
  {
    var tried := Attempted(x);
    var n := |tried| - 1;
    forall i | 0 <= i < n ensures DeltaText(OutsOf(x.cast)(tried[i])) == "" {
      EarlierAttemptsLost(x, i);
      LostHasNoText(x.cast(tried[i]));
    }
    ConcatText(OutsOf(x.cast), tried);
    DeltaTextConcat(Emissions(x.cast, tried), Terminal(x.cast, tried[n]));
    TerminalHasNoText(x.cast, tried[n]);
    WonText(x.cast(tried[n]));
  }

  lemma WonText(s: Script)
    requires StreamFate(s).Won?
    ensures DeltaText(Outs(s)) == Join(Render(s).st.parts)
  {
    RenderFromText(s.events, s.raises, FRESH, false);
  }

  lemma TerminalHasNoText(cast: Cast, d: Deployment)
    ensures DeltaText(Terminal(cast, d)) == ""
  {
    var t := Terminal(cast, d);
    TerminalIsOne(cast, d);
    if |t| == 2 {
      DeltaTextConcat([t[0]], [t[1]]);
      assert t == [t[0]] + [t[1]];
    }
    assert forall e: StreamEvent :: [e][..0] == [];
  }

  // ----- The unguarded case is real ---------------------------------------------------------

  /** A first adapter that sends a tool fragment without its start and then fails; a second that answers. */
  function OrphanSetting(): Setting {
    var a, b := Deployment("openai", "a"), Deployment("openai", "b");
    Setting(Granted(None), None, _ => [a, b], a,
            d => if d == a then Script(None, [ToolDelta(Some(0), "", "", "{}"), Failure(General)], None)
                 else Script(None, [Delta("ok")], None))
  }

  /** That adapter is failed over although its fragment was delivered: the trace mixes two deployments. */
  lemma OrphanFragmentMixesSources()
    ensures Reached(OrphanSetting()) && !SingleSource(OrphanSetting())
  {
    OrphanRun(OrphanSetting(), Deployment("openai", "a"), Deployment("openai", "b"));
  }

  lemma OrphanRun(x: Setting, a: Deployment, b: Deployment)
    requires Reached(x) && x.decision == a && a != b && x.plan(General) == [a, b]
    requires x.cast(a) == Script(None, [ToolDelta(Some(0), "", "", "{}"), Failure(General)], None)
    ensures !SingleSource(x)
  {
    var s := x.cast(a);
    var frag := ToolDelta(Some(0), "", "", "{}");
    assert s.events[1..] == [Failure(General)];
    var h := Handle(FRESH, frag);
    assert RenderFrom(s.events[1..], None, h.st, true) == Rendering([], h.st, Broke(General));
    assert Render(s).outs == [h.out.value] && Render(s).end == Broke(General) && !Render(s).st.emitted;
    assert StreamFate(s) == Lost(General) && Leaks(s);
    SingleSourceIff(x);
    WalkIsComplete(x.plan, StreamFates(x.cast), a);
    var tried := Attempted(x);
    assert StreamFates(x.cast)(a) == Lost(General);
    assert x.plan(General)[1] == b && b in x.plan(General);
    assert tried != [a] by {
      assert b !in [a];
    }
    assert Leaks(x.cast(tried[0]));
  }
}
