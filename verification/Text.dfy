/** Optional values and the few string operations that the gateway and the widget use. */
module Text {

  datatype Option<+T> = None | Some(value: T)

  /** The ASCII characters that `strip` and `trim` remove. */
  predicate IsSpace(c: char) {
    c == ' ' || c == '\t' || c == '\n' || c == '\r' || c == '\U{b}' || c == '\U{c}'
  }

  function TrimStart(s: string): (t: string)
    ensures |t| <= |s| && t == s[|s| - |t|..]
    ensures t != [] ==> !IsSpace(t[0])
  {
    if s != [] && IsSpace(s[0]) then TrimStart(s[1..]) else s
  }

  function TrimEnd(s: string): (t: string)
    ensures |t| <= |s| && t == s[..|t|]
    ensures t != [] ==> !IsSpace(t[|t| - 1])
  {
    if s != [] && IsSpace(s[|s| - 1]) then TrimEnd(s[..|s| - 1]) else s
  }

  function Trim(s: string): string {
    TrimEnd(TrimStart(s))
  }

  function LowerChar(c: char): char {
    if 'A' <= c <= 'Z' then (c as int + 32) as char else c
  }

  function Lower(s: string): (t: string)
    ensures |t| == |s|
  {
    seq(|s|, i requires 0 <= i < |s| => LowerChar(s[i]))
  }

  /** The position of the first `c` in `s`, or `|s|`. */
  function Find(s: string, c: char): (i: nat)
    ensures i <= |s| && c !in s[..i]
    ensures i < |s| ==> s[i] == c
  {
    if s == [] || s[0] == c then 0 else 1 + Find(s[1..], c)
  }

  predicate ColonFree(s: string) { ':' !in s }

  lemma ColonAt(x: string, u: string)
    requires ColonFree(x)
    ensures (x + ":" + u)[|x|] == ':' && forall i :: 0 <= i < |x| ==> (x + ":" + u)[i] != ':'
  {
  }

  /** What stands before the first colon can be read back. */
  lemma FirstColon(x: string, u: string, y: string, v: string)
    requires ColonFree(x) && ColonFree(y) && x + ":" + u == y + ":" + v
    ensures x == y && u == v
  {
    var s, t := x + ":" + u, y + ":" + v;
    ColonAt(x, u);
    ColonAt(y, v);
    assert |x| >= |y| && |y| >= |x|;
    assert x == s[..|x|] && y == t[..|y|];
    assert u == s[|x| + 1..] && v == t[|y| + 1..];
  }
}
