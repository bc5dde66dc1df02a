/**
 Ids and names that arrive after the first piece of a call. The adapter takes both from the
 first piece; this module says exactly when that is the same as taking the first that is not
 empty.
 */
module LateHeaders {
  import opened Text
  import opened Streaming
  import opened ToolCalls
  import opened UsageChunks

  function ExtendFull(message: map<int, ToolEntry>, p: Piece): map<int, ToolEntry> {
    message[p.index :=
      if p.index in message then
        var e := message[p.index];
        ToolEntry(Or(e.id, p.id), Or(e.name, p.name), e.args + p.args)
      else ToolEntry(p.id, p.name, p.args)]
  }

  /** The message, with the first id and the first name of each call that are not empty. */
  function MergedFull(ps: seq<Piece>): map<int, ToolEntry> {
    if ps == [] then map[] else ExtendFull(MergedFull(ps[..|ps| - 1]), ps[|ps| - 1])
  }

  /** One of the two header fields of a piece. */
  type Header = Piece -> string

  /** The first value of a field that is not empty, among the pieces of call `k`. */
  function FirstGiven(ps: seq<Piece>, k: int, field: Header): string {
    if ps == [] then ""
    else
      var s := FirstGiven(ps[..|ps| - 1], k, field);
      if ps[|ps| - 1].index == k then Or(s, field(ps[|ps| - 1])) else s
  }

  lemma {:induction false} FullMeans(ps: seq<Piece>, k: int)
    ensures k in MergedFull(ps) <==> FirstOf(ps, k).Some?
    ensures k in MergedFull(ps) ==>
              MergedFull(ps)[k] == ToolEntry(FirstGiven(ps, k, (p: Piece) => p.id), FirstGiven(ps, k, (p: Piece) => p.name), ArgsOf(ps, k))
    ensures k !in MergedFull(ps) ==>
              FirstGiven(ps, k, (p: Piece) => p.id) == "" && FirstGiven(ps, k, (p: Piece) => p.name) == "" && ArgsOf(ps, k) == ""
  {
    if ps != [] { FullMeans(ps[..|ps| - 1], k); }
  }

  /** The field is in the first piece of call `k`, or in none of its pieces. */
  predicate InTime(ps: seq<Piece>, k: int, field: Header) {
    FirstOf(ps, k).Some? ==>
      field(FirstOf(ps, k).value) != "" || forall i :: 0 <= i < |ps| && ps[i].index == k ==> field(ps[i]) == ""
  }

  lemma {:induction false} GivenIff(ps: seq<Piece>, k: int, field: Header)
    ensures FirstOf(ps, k).None? ==> forall i :: 0 <= i < |ps| ==> ps[i].index != k
    ensures FirstOf(ps, k).Some? && field(FirstOf(ps, k).value) != "" ==> FirstGiven(ps, k, field) == field(FirstOf(ps, k).value)
    ensures FirstGiven(ps, k, field) == "" <==> forall i :: 0 <= i < |ps| && ps[i].index == k ==> field(ps[i]) == ""
  {
    if ps != [] {
      var n := |ps| - 1;
      GivenIff(ps[..n], k, field);
      assert forall i :: 0 <= i < n ==> ps[..n][i] == ps[i];
    }
  }

  lemma InTimeIff(ps: seq<Piece>, k: int, field: Header)
    requires FirstOf(ps, k).Some?
    ensures FirstGiven(ps, k, field) == field(FirstOf(ps, k).value) <==> InTime(ps, k, field)
  {
    GivenIff(ps, k, field);
  }

  predicate BothInTime(ps: seq<Piece>, k: int) {
    InTime(ps, k, (p: Piece) => p.id) && InTime(ps, k, (p: Piece) => p.name)
  }

  ghost predicate HeadersInTime(ps: seq<Piece>) {
    forall k :: BothInTime(ps, k)
  }

  lemma EntryIff(ps: seq<Piece>, k: int)
    ensures SameEntry(Merged(ps), MergedFull(ps), k) <==> BothInTime(ps, k)
  {
    MergedMeans(ps, k);
    FullMeans(ps, k);
    if FirstOf(ps, k).Some? {
      InTimeIff(ps, k, (p: Piece) => p.id);
      InTimeIff(ps, k, (p: Piece) => p.name);
    }
  }

  /** Taking ids and names from the first pieces is right exactly when none arrives late. */
  lemma FirstPieceSufficesIff(ps: seq<Piece>)
    ensures Merged(ps) == MergedFull(ps) <==> HeadersInTime(ps)
  {
    MapsEqualIff(Merged(ps), MergedFull(ps));
    forall k ensures SameEntry(Merged(ps), MergedFull(ps), k) <==> BothInTime(ps, k) {
      EntryIff(ps, k);
    }
    if HeadersInTime(ps) {
      forall k ensures SameEntry(Merged(ps), MergedFull(ps), k) { EntryIff(ps, k); }
    }
    if forall k :: SameEntry(Merged(ps), MergedFull(ps), k) {
      forall k ensures BothInTime(ps, k) { EntryIff(ps, k); }
    }
  }

  /** A name that arrives with the second piece is lost. */
  lemma LateNameIsLost(id: string, name: string)
    requires name != ""
    ensures
      var ps := [Piece(0, id, "", ""), Piece(0, "", name, "")];
      !HeadersInTime(ps) && Merged(ps) != MergedFull(ps)
  {
    var a, b := Piece(0, id, "", ""), Piece(0, "", name, "");
    var ps := [a, b];
    assert ps[..1] == [a] && [a][..0] == [];
    assert FirstOf([a], 0) == Some(a) && FirstOf(ps, 0) == Some(a);
    assert ps[1].index == 0 && ps[1].name != "";
    assert !BothInTime(ps, 0);
    FirstPieceSufficesIff(ps);
  }
}
