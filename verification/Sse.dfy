/**
 Server-sent events: cutting a character stream into frames (sections 9.2.5 and 9.2.6
 of the WHATWG HTML Living Standard), printing a frame and reading it back.
 */
module Sse {
  import opened Text
  import opened Splitter

  // ----- Splitting on blank lines -------------------------------------------------

  /** The length of the match of `\r?\n\r?\n` at position `i`, or 0. */
  function SepAt(s: string, i: nat): (n: nat)
    ensures n == 0 || (2 <= n <= 4 && i + n <= |s|)
  {
    var a := if i < |s| && s[i] == '\r' then i + 1 else i;
    if a < |s| && s[a] == '\n' then
      var b := if a + 1 < |s| && s[a + 1] == '\r' then a + 2 else a + 1;
      if b < |s| && s[b] == '\n' then b + 1 - i else 0
    else 0
  }

  const BLANK: Matcher := SepAt

  /** `s.split(/\r?\n\r?\n/)` is `Frames(s) + [Rest(s)]`. */
  function Frames(s: string): seq<string> {
    Whole(BLANK, s)
  }

  function Rest(s: string): string {
    Open(BLANK, s)
  }

  lemma BlankKept(a: string, s: string, j: nat)
    requires Prefix(a, s) && Hit(BLANK, a, j)
    ensures BLANK(s, j) == BLANK(a, j) && Hit(BLANK, s, j)
  {
  }

  /** More text cannot complete a blank line in front of one that was already complete. */
  lemma NoEarlierBlank(a: string, s: string, j: nat, k: nat)
    requires Prefix(a, s) && j < k && Hit(BLANK, a, k) && !Hit(BLANK, a, j)
    ensures !Hit(BLANK, s, j)
  {
    assert SepAt(a, k) > 0 && SepAt(a, j) == 0;
    assert SepAt(s, j) == 0;
  }

  lemma BlankIsLocal(s: string, p: nat, y: string, j: nat)
    requires Remains(s, p, y)
    ensures BLANK(s, p + j) == BLANK(y, j)
  {
    assert forall i :: 0 <= i < |y| ==> y[i] == s[p + i];
    assert SepAt(s, p + j) == SepAt(y, j);
  }

  /** A blank line is recognised by its own text and is not affected by what follows. */
  lemma BlankIsStable()
    ensures PrefixStable(BLANK) && Local(BLANK)
  {
    forall a, s, j: nat | Prefix(a, s) && Hit(BLANK, a, j) ensures BLANK(s, j) == BLANK(a, j) && Hit(BLANK, s, j) {
      BlankKept(a, s, j);
    }
    forall a, s, j: nat, k: nat | Prefix(a, s) && j < k && Hit(BLANK, a, k) && !Hit(BLANK, a, j) ensures !Hit(BLANK, s, j) {
      NoEarlierBlank(a, s, j, k);
    }
    forall s, p: nat, y, j: nat | Remains(s, p, y) ensures BLANK(s, p + j) == BLANK(y, j) {
      BlankIsLocal(s, p, y, j);
    }
  }

  /** The widget's read loop is blind to chunk boundaries, for every string. */
  lemma ChunkBoundariesInvisible(a: string, b: string)
    ensures Frames(a + b) == Frames(a) + Frames(Rest(a) + b)
    ensures Rest(a + b) == Rest(Rest(a) + b)
  {
    BlankIsStable();
    SplitIncremental(BLANK, a, b);
  }

  // ----- Printing -------------------------------------------------------------------

  datatype Frame = Frame(id: Option<nat>, event: string, data: string)

  function Digit(d: nat): char
    requires d < 10
  {
    (d + '0' as int) as char
  }

  /** Decimal text of a number. */
  function Dec(n: nat): (s: string)
    ensures s != []
    ensures forall i :: 0 <= i < |s| ==> '0' <= s[i] <= '9'
  {
    if n < 10 then [Digit(n)] else Dec(n / 10) + [Digit(n % 10)]
  }

  function Field(tag: string, value: string): string {
    tag + " " + value
  }

  /** The text between the frame's separators. */
  function Body(f: Frame): string {
    (if f.id.Some? then Field("id:", Dec(f.id.value)) + "\n" else "") + (Field("event:", f.event) + "\n" + Field("data:", f.data))
  }

  /** `_sse`. */
  function Print(f: Frame): string {
    Body(f) + "\n\n"
  }

  function PrintAll(fs: seq<Frame>): string {
    if fs == [] then "" else Print(fs[0]) + PrintAll(fs[1..])
  }

  predicate OneLine(s: string) {
    forall i :: 0 <= i < |s| ==> s[i] != '\r' && s[i] != '\n'
  }

  /** No white space at either end. */
  predicate Tight(s: string) {
    s != [] ==> !IsSpace(s[0]) && !IsSpace(s[|s| - 1])
  }

  /**
   What the server prints: event names are plain words, and JSON text has no raw line
   break (section 7 of RFC 8259) and starts and ends with a brace.
   */
  predicate Printable(f: Frame) {
    OneLine(f.event) && Tight(f.event) && OneLine(f.data) && Tight(f.data)
  }

  /** Text in which no blank line starts, even when a blank line follows it. */
  predicate Calm(s: string) {
    && (forall i :: 0 <= i < |s| ==> s[i] != '\r')
    && (forall i :: 0 <= i < |s| && s[i] == '\n' ==> i + 1 < |s| && s[i + 1] != '\n')
  }

  lemma CalmLines(line: string, rest: string)
    requires OneLine(line) && Calm(rest) && rest != [] && rest[0] != '\n'
    ensures Calm(line + "\n" + rest)
  {
    var s := line + "\n" + rest;
    assert forall i :: 0 <= i < |line| ==> s[i] == line[i];
    assert forall i :: |line| < i < |s| ==> s[i] == rest[i - |line| - 1];
  }

  lemma FieldOneLine(tag: string, value: string)
    requires tag != [] && OneLine(tag) && OneLine(value)
    ensures OneLine(Field(tag, value)) && Calm(Field(tag, value))
    ensures Field(tag, value) != [] && Field(tag, value)[0] == tag[0]
  {
  }

  lemma BodyCalm(f: Frame)
    requires Printable(f)
    ensures Calm(Body(f))
  {
    var ev, da := Field("event:", f.event), Field("data:", f.data);
    FieldOneLine("event:", f.event);
    FieldOneLine("data:", f.data);
    CalmLines(ev, da);
    var tail := ev + "\n" + da;
    if f.id.Some? {
      var id := Field("id:", Dec(f.id.value));
      FieldOneLine("id:", Dec(f.id.value));
      CalmLines(id, tail);
    } else {
      assert Body(f) == tail;
    }
  }

  lemma CalmNoSep(body: string, s: string, j: nat)
    requires Calm(body) && body <= s && j < |body|
    ensures !Hit(BLANK, s, j)
  {
    assert SepAt(s, j) == 0;
  }

  lemma BlankAfter(body: string, more: string)
    ensures BLANK(body + "\n\n" + more, |body|) == 2
    ensures body <= body + "\n\n" + more
    ensures Remains(body + "\n\n" + more, |body| + 2, more)
  {
    var s := body + "\n\n" + more;
    assert s[|body|] == '\n' && s[|body| + 1] == '\n';
    assert SepAt(s, |body|) == 2;
  }

  /** A printed frame is exactly one piece of any stream it begins. */
  lemma FramesPrint(f: Frame, more: string)
    requires Printable(f)
    ensures Frames(Print(f) + more) == [Body(f)] + Frames(more)
    ensures Rest(Print(f) + more) == Rest(more)
  {
    BodyCalm(f);
    FramesCalm(Body(f), more);
  }

  lemma FramesCalm(body: string, more: string)
    requires Calm(body)
    ensures Frames(body + "\n\n" + more) == [body] + Frames(more)
    ensures Rest(body + "\n\n" + more) == Rest(more)
  {
    var s := body + "\n\n" + more;
    BlankAfter(body, more);
    forall j | 0 <= j < |body| ensures !Hit(BLANK, s, j) {
      CalmNoSep(body, s, j);
    }
    BlankIsStable();
    SplitOff(BLANK, s, body, 2, more);
  }

  function Bodies(fs: seq<Frame>): (bs: seq<string>)
    ensures |bs| == |fs|
  {
    seq(|fs|, i requires 0 <= i < |fs| => Body(fs[i]))
  }

  ghost predicate AllPrintable(fs: seq<Frame>) {
    forall i :: 0 <= i < |fs| ==> Printable(fs[i])
  }

  lemma BodiesCons(fs: seq<Frame>)
    requires fs != []
    ensures Bodies(fs) == [Body(fs[0])] + Bodies(fs[1..])
  {
  }

  /** Every printed sequence splits back into exactly its frames, with nothing left over. */
  lemma {:induction false} FramesPrintAll(fs: seq<Frame>)
    requires AllPrintable(fs)
    ensures Frames(PrintAll(fs)) == Bodies(fs) && Rest(PrintAll(fs)) == ""
  {
    if fs == [] {
      SplitNothing(BLANK);
    } else {
      FramesPrint(fs[0], PrintAll(fs[1..]));
      FramesPrintAll(fs[1..]);
      BodiesCons(fs);
    }
  }

  lemma Rejoin(s: string, p: string)
    requires p <= s
    ensures p + s[|p|..] == s
  {
  }

  lemma BodiesPrefix(fs: seq<Frame>, x: seq<string>, y: seq<string>)
    requires x + y == Bodies(fs)
    ensures |x| <= |fs| && x == Bodies(fs[..|x|])
  {
    assert |x| + |y| == |fs|;
    forall i | 0 <= i < |x| ensures x[i] == Bodies(fs[..|x|])[i] {
      assert x[i] == (x + y)[i];
    }
  }

  /** Any prefix of a printed stream holds the first few frames whole and no other complete frame. */
  lemma PrefixOfPrinted(fs: seq<Frame>, received: string)
    requires AllPrintable(fs) && received <= PrintAll(fs)
    ensures |Frames(received)| <= |fs| && Frames(received) == Bodies(fs[..|Frames(received)|])
  {
    var unseen := PrintAll(fs)[|received|..];
    Rejoin(PrintAll(fs), received);
    ChunkBoundariesInvisible(received, unseen);
    FramesPrintAll(fs);
    BodiesPrefix(fs, Frames(received), Frames(Rest(received) + unseen));
  }
}
