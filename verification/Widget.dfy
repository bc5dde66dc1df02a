/** The widget's side of the stream: reading frames and keeping the visible text. */
module Widget {
  import opened Text
  import opened Splitter
  import opened Sse

  // ----- Reading one frame ----------------------------------------------------------

  function LineBreakAt(s: string, i: nat): nat {
    if i < |s| && s[i] == '\n' then 1
    else if i + 1 < |s| && s[i] == '\r' && s[i + 1] == '\n' then 2
    else 0
  }

  const BREAK: Matcher := LineBreakAt

  /** `frame.split(/\r?\n/)`. */
  function Lines(s: string): seq<string> {
    Whole(BREAK, s) + [Open(BREAK, s)]
  }

  predicate StartsWith(s: string, p: string) {
    |p| <= |s| && s[..|p|] == p
  }

  /** What the line loop of `handleFrame` has collected. */
  datatype Parsed = Parsed(id: Option<string>, event: string, data: seq<string>)

  function ReadTrimmed(p: Parsed, line: string): Parsed {
    if StartsWith(line, "id:") then p.(id := Some(Trim(line[3..])))
    else if StartsWith(line, "event:") then p.(event := Trim(line[6..]))
    else if StartsWith(line, "data:") then p.(data := p.data + [TrimStart(line[5..])])
    else p
  }

  function ReadLine(p: Parsed, rawLine: string): Parsed {
    ReadTrimmed(p, Trim(rawLine))
  }

  type Reader = (Parsed, string) -> Parsed

  function Gather(read: Reader, p: Parsed, lines: seq<string>): Parsed
    decreases |lines|
  {
    if lines == [] then p else Gather(read, read(p, lines[0]), lines[1..])
  }

  function ReadLines(p: Parsed, lines: seq<string>): Parsed {
    Gather(ReadLine, p, lines)
  }

  const NOTHING := Parsed(None, "", [])

  function ReadFrame(frame: string): Parsed {
    ReadLines(NOTHING, Lines(frame))
  }

  lemma BreakIsLocal(s: string, p: nat, y: string, j: nat)
    requires Remains(s, p, y)
    ensures BREAK(s, p + j) == BREAK(y, j)
  {
    assert forall i :: 0 <= i < |y| ==> y[i] == s[p + i];
    assert LineBreakAt(s, p + j) == LineBreakAt(y, j);
  }

  lemma BreakLocal()
    ensures Local(BREAK)
  {
    forall s, p: nat, y, j: nat | Remains(s, p, y) ensures BREAK(s, p + j) == BREAK(y, j) {
      BreakIsLocal(s, p, y, j);
    }
  }

  lemma BreakAfter(line: string, rest: string)
    requires OneLine(line)
    ensures BREAK(line + "\n" + rest, |line|) == 1
    ensures Remains(line + "\n" + rest, |line| + 1, rest)
    ensures forall j :: 0 <= j < |line| ==> !Hit(BREAK, line + "\n" + rest, j)
  {
    var s := line + "\n" + rest;
    assert s[|line|] == '\n';
    assert LineBreakAt(s, |line|) == 1;
    forall j | 0 <= j < |line| ensures !Hit(BREAK, s, j) {
      assert s[j] == line[j];
      assert LineBreakAt(s, j) == 0;
    }
  }

  lemma LinesCons(line: string, rest: string)
    requires OneLine(line)
    ensures Lines(line + "\n" + rest) == [line] + Lines(rest)
  {
    var s := line + "\n" + rest;
    BreakAfter(line, rest);
    BreakLocal();
    assert s[..|line|] == line;
    SplitOff(BREAK, s, line, 1, rest);
    Regroup([line], Whole(BREAK, rest), [Open(BREAK, rest)]);
  }

  lemma {:induction false} NoBreakFind(line: string, i: nat)
    requires OneLine(line) && i <= |line|
    ensures FindSep(BREAK, line, i) == |line|
    decreases |line| - i
  {
    if i < |line| {
      assert LineBreakAt(line, i) == 0;
      NoBreakFind(line, i + 1);
    }
  }

  lemma LinesOne(line: string)
    requires OneLine(line)
    ensures Lines(line) == [line]
  {
    NoBreakFind(line, 0);
    CutsEnd(BREAK, line, 0);
  }

  // ----- Printing and reading are inverse ---------------------------------------------

  lemma TrimTight(s: string)
    requires Tight(s)
    ensures TrimStart(s) == s && TrimEnd(s) == s && Trim(s) == s
  {
  }

  lemma TrimSpaced(s: string)
    requires Tight(s)
    ensures TrimStart(" " + s) == s && Trim(" " + s) == s
  {
    TrimTight(s);
    assert (" " + s)[1..] == s;
    assert TrimStart(" " + s) == TrimStart(s);
  }

  /** What trimming leaves of a printed field. */
  function Trimmed(tag: string, value: string): string {
    if value == [] then tag else Field(tag, value)
  }

  lemma TrimField(tag: string, value: string)
    requires tag != [] && Tight(tag) && Tight(value)
    ensures Trim(Field(tag, value)) == Trimmed(tag, value)
  {
    var raw := Field(tag, value);
    if value == [] {
      assert TrimStart(raw) == raw;
      assert raw[..|raw| - 1] == tag;
      TrimTight(tag);
    } else {
      assert raw[0] == tag[0] && raw[|raw| - 1] == value[|value| - 1];
      TrimTight(raw);
    }
  }

  /** The label and the value of a trimmed field are found again. */
  lemma FieldParts(tag: string, value: string)
    requires tag != [] && Tight(value)
    ensures
      var line := Trimmed(tag, value);
      && StartsWith(line, tag) && line[0] == tag[0]
      && Trim(line[|tag|..]) == value && TrimStart(line[|tag|..]) == value
  {
    var line := Trimmed(tag, value);
    if value == [] {
      assert line[|tag|..] == "";
    } else {
      assert line[|tag|..] == " " + value;
      assert line[..|tag|] == tag;
      TrimSpaced(value);
    }
  }

  lemma DecTight(n: nat)
    ensures Tight(Dec(n)) && OneLine(Dec(n))
  {
    var s := Dec(n);
    assert '0' <= s[0] <= '9' && '0' <= s[|s| - 1] <= '9';
  }

  lemma OneTagOnly(line: string, tag: string, other: string)
    requires tag != [] && other != [] && tag[0] != other[0] && StartsWith(line, tag)
    ensures !StartsWith(line, other)
  {
    assert line[..|tag|][0] == line[0];
  }

  lemma TrimmedId(p: Parsed, line: string, v: string)
    requires StartsWith(line, "id:") && Trim(line[3..]) == v
    ensures ReadTrimmed(p, line) == p.(id := Some(v))
  {
  }

  lemma TrimmedEvent(p: Parsed, line: string, v: string)
    requires StartsWith(line, "event:") && Trim(line[6..]) == v
    ensures ReadTrimmed(p, line) == p.(event := v)
  {
    OneTagOnly(line, "event:", "id:");
  }

  lemma TrimmedData(p: Parsed, line: string, v: string)
    requires StartsWith(line, "data:") && TrimStart(line[5..]) == v
    ensures ReadTrimmed(p, line) == p.(data := p.data + [v])
  {
    OneTagOnly(line, "data:", "id:");
    OneTagOnly(line, "data:", "event:");
  }

  lemma ReadId(p: Parsed, n: nat)
    ensures ReadLine(p, Field("id:", Dec(n))) == p.(id := Some(Dec(n)))
  {
    DecTight(n);
    TrimField("id:", Dec(n));
    FieldParts("id:", Dec(n));
    TrimmedId(p, Trimmed("id:", Dec(n)), Dec(n));
  }

  lemma ReadEvent(p: Parsed, event: string)
    requires Tight(event)
    ensures ReadLine(p, Field("event:", event)) == p.(event := event)
  {
    TrimField("event:", event);
    FieldParts("event:", event);
    TrimmedEvent(p, Trimmed("event:", event), event);
  }

  lemma ReadData(p: Parsed, data: string)
    requires Tight(data)
    ensures ReadLine(p, Field("data:", data)) == p.(data := p.data + [data])
  {
    TrimField("data:", data);
    FieldParts("data:", data);
    TrimmedData(p, Trimmed("data:", data), data);
  }

  function Expected(f: Frame): Parsed {
    Parsed(if f.id.Some? then Some(Dec(f.id.value)) else None, f.event, [f.data])
  }

  lemma TwoLines(p: Parsed, a: string, b: string)
    requires OneLine(a) && OneLine(b)
    ensures ReadLines(p, Lines(a + "\n" + b)) == ReadLine(ReadLine(p, a), b)
  {
    LinesCons(a, b);
    LinesOne(b);
    GatherTwo(ReadLine, p, a, b);
  }

  lemma GatherTwo(read: Reader, p: Parsed, a: string, b: string)
    ensures Gather(read, p, [a] + [b]) == read(read(p, a), b)
  {
    assert ([a] + [b])[1..] == [b];
    assert [b][1..] == [];
    assert Gather(read, read(p, a), [b]) == Gather(read, read(read(p, a), b), []);
  }

  lemma GatherFirst(read: Reader, p: Parsed, a: string, rest: seq<string>)
    ensures Gather(read, p, [a] + rest) == Gather(read, read(p, a), rest)
  {
    assert ([a] + rest)[1..] == rest;
  }

  lemma ReadEventData(p: Parsed, event: string, data: string)
    requires Tight(event) && Tight(data) && OneLine(event) && OneLine(data)
    ensures ReadLines(p, Lines(Field("event:", event) + "\n" + Field("data:", data))) ==
            p.(event := event, data := p.data + [data])
  {
    FieldOneLine("event:", event);
    FieldOneLine("data:", data);
    TwoLines(p, Field("event:", event), Field("data:", data));
    ReadEvent(p, event);
    ReadData(p.(event := event), data);
  }

  lemma ThreeLines(p: Parsed, a: string, rest: string)
    requires OneLine(a)
    ensures ReadLines(p, Lines(a + "\n" + rest)) == ReadLines(ReadLine(p, a), Lines(rest))
  {
    LinesCons(a, rest);
    GatherFirst(ReadLine, p, a, Lines(rest));
  }

  lemma NoPrefix(s: string)
    ensures "" + s == s
  {
  }

  /** Every printable frame is read back exactly. */
  lemma ReadPrinted(f: Frame)
    requires Printable(f)
    ensures ReadFrame(Body(f)) == Expected(f)
  {
    var tail := Field("event:", f.event) + "\n" + Field("data:", f.data);
    if f.id.None? {
      NoPrefix(tail);
      ReadEventData(NOTHING, f.event, f.data);
    } else {
      var n := f.id.value;
      DecTight(n);
      FieldOneLine("id:", Dec(n));
      ThreeLines(NOTHING, Field("id:", Dec(n)), tail);
      ReadId(NOTHING, n);
      ReadEventData(NOTHING.(id := Some(Dec(n))), f.event, f.data);
    }
  }

  /** The line loop of `handleFrame`. */
  method ParseFrame(frame: string) returns (p: Parsed)
    ensures p == ReadFrame(frame)
  {
    p := GatherAll(ReadLine, NOTHING, Lines(frame));
  }

  method GatherAll(read: Reader, start: Parsed, lines: seq<string>) returns (p: Parsed)
    ensures p == Gather(read, start, lines)
  {
    p := start;
    var i := 0;
    assert lines[0..] == lines;
    while i < |lines|
      invariant 0 <= i <= |lines|
      invariant Gather(read, p, lines[i..]) == Gather(read, start, lines)
    {
      assert lines[i..][1..] == lines[i + 1..];
      p := read(p, lines[i]);
      i := i + 1;
    }
  }
}
