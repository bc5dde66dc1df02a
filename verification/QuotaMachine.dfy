/**
 The quota protocol under interleaving: any number of requests, each script call
 one atomic step, in any order. A request that stops stepping stands for a crashed
 worker, or for a reservation, rollback or release that was cancelled. A settlement
 that is cancelled is followed by a release of the whole reservation.
 */
module QuotaMachine {
  import opened Quota

  datatype Charge = Charge(key: Key, limit: real)

  datatype Phase =
    | Reserving(next: nat)                          // charges[..next] have been made
    | RollingBack(upTo: nat, undone: nat)           // charges[undone..upTo] still stand
    | Holding                                       // all charges stand
    | Settling(actual: real, done: nat)             // charges[..done] are settled
    | Redoing(actual: real, cut: nat, redo: nat)    // cut after charges[..cut], released again up to `redo`
    | Rejected
    | Settled(actual: real)

  datatype Request = Request(est: real, charges: seq<Charge>, phase: Phase) {
    ghost predicate Valid() {
      && est > 0.0
      && (forall i :: 0 <= i < |charges| ==> charges[i].limit > 0.0)
      && match phase
         case Reserving(next) => next < |charges|
         case RollingBack(upTo, undone) => undone < upTo < |charges|
         case Settling(_, done) => done <= |charges|
         case Redoing(_, cut, redo) => cut <= |charges| && redo <= |charges|
         case _ => true
    }

    /** Charge `j` has been made and not yet undone. */
    predicate Stands(j: nat) {
      match phase
      case Reserving(next) => j < next
      case RollingBack(upTo, undone) => undone <= j < upTo
      case Holding => true
      case Settling(_, done) => j >= done
      case Redoing(_, cut, redo) => j >= cut && j >= redo
      case Rejected => false
      case Settled(_) => false
    }

    /** Charge `j` has been converted into spend. */
    predicate IsPaid(j: nat) {
      match phase
      case Settling(_, done) => j < done
      case Redoing(_, cut, _) => j < cut
      case Settled(_) => true
      case _ => false
    }

    /** Charge `j` has been undone twice. */
    predicate IsDoubled(j: nat) {
      phase.Redoing? && j < phase.cut && j < phase.redo
    }

    function Actual(): real {
      match phase
      case Settling(a, _) => a
      case Redoing(a, _, _) => a
      case Settled(a) => a
      case _ => 0.0
    }

    predicate HasNextUndo() {
      match phase
      case RollingBack(_, undone) => undone < |charges|
      case Settling(_, done) => done < |charges|
      case Redoing(_, _, redo) => redo < |charges|
      case _ => false
    }

    /** The charge that the next reconcile script of this request undoes. */
    function NextIndex(): (j: nat)
      requires HasNextUndo()
      ensures j < |charges|
    {
      match phase
      case RollingBack(_, undone) => undone
      case Settling(_, done) => done
      case Redoing(_, _, redo) => redo
    }

    function NextUndo(): Charge
      requires HasNextUndo()
    {
      charges[NextIndex()]
    }

    /** The next undo hits a charge that the cut settlement has already undone. */
    predicate Doubles() {
      phase.Redoing? && phase.redo < phase.cut
    }
  }

  datatype World = World(store: Store, requests: seq<Request>)

  datatype Action =
    | Arrive(est: real, charges: seq<Charge>)   // `reserve` is called
    | TryCharge(i: nat)                         // one reserve script
    | BeginSettle(i: nat, actual: real)         // `reconcile` or `release` is called
    | Uncharge(i: nat)                          // one reconcile script
    | Finish(i: nat)                            // the settling call returns
    | Cut(i: nat)                               // it is cancelled instead, and the handler releases

  const INITIAL := World(map[], [])

  predicate Enabled(w: World, a: Action) {
    match a
    case Arrive(est, charges) => est > 0.0 && forall i :: 0 <= i < |charges| ==> charges[i].limit > 0.0
    case TryCharge(i) => i < |w.requests| && w.requests[i].phase.Reserving? && w.requests[i].phase.next < |w.requests[i].charges|
    case BeginSettle(i, _) => i < |w.requests| && w.requests[i].phase.Holding?
    case Uncharge(i) => i < |w.requests| && w.requests[i].HasNextUndo()
    case Finish(i) => i < |w.requests| && w.requests[i].phase.Settling? && w.requests[i].phase.done == |w.requests[i].charges|
    case Cut(i) => i < |w.requests| && w.requests[i].phase.Settling?
  }

  function AfterCharge(r: Request, ok: bool): Request
    requires r.phase.Reserving?
  {
    var n := r.phase.next;
    if !ok then r.(phase := if n == 0 then Rejected else RollingBack(n, 0))
    else if n + 1 == |r.charges| then r.(phase := Holding)
    else r.(phase := Reserving(n + 1))
  }

  function AfterUncharge(r: Request): Request
    requires r.HasNextUndo()
  {
    match r.phase
    case RollingBack(upTo, undone) => r.(phase := if undone + 1 == upTo then Rejected else RollingBack(upTo, undone + 1))
    case Settling(actual, done) => r.(phase := Settling(actual, done + 1))
    case Redoing(actual, cut, redo) => r.(phase := Redoing(actual, cut, redo + 1))
  }

  function Next(w: World, a: Action): World
    requires Enabled(w, a)
  {
    match a
    case Arrive(est, charges) =>
      World(w.store, w.requests + [Request(est, charges, if charges == [] then Holding else Reserving(0))])
    case TryCharge(i) =>
      var r := w.requests[i];
      var c := r.charges[r.phase.next];
      var reply := ReserveScript(Read(w.store, c.key), c.limit, r.est);
      World(w.store[c.key := reply.cell], w.requests[i := AfterCharge(r, reply.ok)])
    case BeginSettle(i, actual) =>
      World(w.store, w.requests[i := w.requests[i].(phase := Settling(actual, 0))])
    case Uncharge(i) =>
      var r := w.requests[i];
      var key := r.NextUndo().key;
      World(w.store[key := ReconcileScript(Read(w.store, key), r.est, if r.phase.Settling? then r.Actual() else 0.0)],
            w.requests[i := AfterUncharge(r)])
    case Finish(i) => World(w.store, w.requests[i := w.requests[i].(phase := Settled(w.requests[i].Actual()))])
    case Cut(i) =>
      var r := w.requests[i];
      World(w.store, w.requests[i := r.(phase := Redoing(r.Actual(), r.phase.done, 0))])
  }

  ghost predicate Runs(w: World, actions: seq<Action>)
    decreases |actions|
  {
    actions == [] || (Enabled(w, actions[0]) && Runs(Next(w, actions[0]), actions[1..]))
  }

  function Run(w: World, actions: seq<Action>): World
    requires Runs(w, actions)
    decreases |actions|
  {
    if actions == [] then w else Run(Next(w, actions[0]), actions[1..])
  }

  // ----- Accounting, recomputed from the request table alone ---------------------

  /** `amount` once for each charge on `key` that satisfies `f`. */
  function Tally(amount: real, charges: seq<Charge>, key: Key, f: nat -> bool): real {
    if charges == [] then 0.0
    else
      var n := |charges| - 1;
      Tally(amount, charges[..n], key, f) + (if charges[n].key == key && f(n) then amount else 0.0)
  }

  lemma {:induction false} TallyAgree(amount: real, charges: seq<Charge>, key: Key, f: nat -> bool, g: nat -> bool)
    requires forall j: nat :: j < |charges| ==> f(j) == g(j)
    ensures Tally(amount, charges, key, f) == Tally(amount, charges, key, g)
  {
    if charges != [] { TallyAgree(amount, charges[..|charges| - 1], key, f, g); }
  }

  /** Turning the flag of charge `k` on. */
  lemma {:induction false} TallyFlip(amount: real, charges: seq<Charge>, key: Key, f: nat -> bool, g: nat -> bool, k: nat)
    requires k < |charges| && !f(k) && g(k)
    requires forall j: nat :: j < |charges| && j != k ==> f(j) == g(j)
    ensures Tally(amount, charges, key, g) == Tally(amount, charges, key, f) + (if charges[k].key == key then amount else 0.0)
  {
    var n := |charges| - 1;
    if k < n {
      TallyFlip(amount, charges[..n], key, f, g, k);
    } else {
      TallyAgree(amount, charges[..n], key, f, g);
    }
  }

  lemma {:induction false} TallySign(amount: real, charges: seq<Charge>, key: Key, f: nat -> bool)
    requires amount >= 0.0
    ensures Tally(amount, charges, key, f) >= 0.0
  {
    if charges != [] { TallySign(amount, charges[..|charges| - 1], key, f); }
  }

  lemma {:induction false} TallyNone(amount: real, charges: seq<Charge>, key: Key, f: nat -> bool)
    requires amount == 0.0 || forall j: nat :: j < |charges| ==> !f(j)
    ensures Tally(amount, charges, key, f) == 0.0
  {
    if charges != [] { TallyNone(amount, charges[..|charges| - 1], key, f); }
  }

  type Share = Request -> real

  function Standing(key: Key): Share {
    (r: Request) => Tally(r.est, r.charges, key, (j: nat) => r.Stands(j))
  }

  function Paid(key: Key): Share {
    (r: Request) => Tally(r.Actual(), r.charges, key, (j: nat) => r.IsPaid(j))
  }

  /** How far a request has gone over its own estimate. */
  function Over(key: Key): Share {
    (r: Request) => Tally(Max(0.0, r.Actual() - r.est), r.charges, key, (j: nat) => r.IsPaid(j))
  }

  function Twice(key: Key): Share {
    (r: Request) => Tally(r.est, r.charges, key, (j: nat) => r.IsDoubled(j))
  }

  function Total(rs: seq<Request>, share: Share): real {
    if rs == [] then 0.0 else Total(rs[..|rs| - 1], share) + share(rs[|rs| - 1])
  }

  function Reserved(rs: seq<Request>, key: Key): real { Total(rs, Standing(key)) }

  function Spent(rs: seq<Request>, key: Key): real { Total(rs, Paid(key)) }

  function Overrun(rs: seq<Request>, key: Key): real { Total(rs, Over(key)) }

  /** The estimates that were undone twice. */
  function Doubled(rs: seq<Request>, key: Key): real { Total(rs, Twice(key)) }

  lemma {:induction false} TotalUpdate(rs: seq<Request>, i: nat, r: Request, share: Share)
    requires i < |rs|
    ensures Total(rs[i := r], share) == Total(rs, share) - share(rs[i]) + share(r)
  {
    var n := |rs| - 1;
    if i < n {
      assert rs[i := r][..n] == rs[..n][i := r];
      TotalUpdate(rs[..n], i, r, share);
    } else {
      assert rs[i := r][..n] == rs[..n];
    }
  }

  lemma TotalAppend(rs: seq<Request>, r: Request, share: Share)
    ensures Total(rs + [r], share) == Total(rs, share) + share(r)
  {
    assert (rs + [r])[..|rs|] == rs;
  }

  lemma {:induction false} TotalSign(rs: seq<Request>, share: Share)
    requires forall i :: 0 <= i < |rs| ==> share(rs[i]) >= 0.0
    ensures Total(rs, share) >= 0.0
  {
    if rs != [] { TotalSign(rs[..|rs| - 1], share); }
  }

  lemma {:induction false} TotalCovers(rs: seq<Request>, i: nat, share: Share)
    requires i < |rs| && forall k :: 0 <= k < |rs| ==> share(rs[k]) >= 0.0
    ensures Total(rs, share) >= share(rs[i])
  {
    var n := |rs| - 1;
    if i < n { TotalCovers(rs[..n], i, share); } else { TotalSign(rs[..n], share); }
  }

  lemma {:induction false} TotalZero(rs: seq<Request>, share: Share)
    requires forall r :: r in rs ==> share(r) == 0.0
    ensures Total(rs, share) == 0.0
  {
    if rs != [] { TotalZero(rs[..|rs| - 1], share); }
  }

  lemma {:induction false} TotalWithout(rs: seq<Request>, i: nat, share: Share)
    requires i < |rs| && share(rs[i]) == 0.0
    ensures Total(rs[..i] + rs[i + 1..], share) == Total(rs, share)
  {
    var n := |rs| - 1;
    var without := rs[..i] + rs[i + 1..];
    if i == n {
      assert without == rs[..n];
    } else {
      assert without[..|without| - 1] == rs[..n][..i] + rs[..n][i + 1..];
      TotalWithout(rs[..n], i, share);
    }
  }

  // ----- What each step does to the shares of its request -----------------------------

  /** How the four shares of one request on one key change. */
  datatype Change = Change(standing: real, paid: real, over: real, twice: real)

  const NOTHING := Change(0.0, 0.0, 0.0, 0.0)

  ghost predicate Changes(r: Request, s: Request, key: Key, d: Change) {
    && Standing(key)(s) == Standing(key)(r) + d.standing
    && Paid(key)(s) == Paid(key)(r) + d.paid
    && Over(key)(s) == Over(key)(r) + d.over
    && Twice(key)(s) == Twice(key)(r) + d.twice
  }

  lemma SameStanding(r: Request, s: Request, key: Key)
    requires s == r.(phase := s.phase) && forall j: nat :: j < |r.charges| ==> r.Stands(j) == s.Stands(j)
    ensures Standing(key)(s) == Standing(key)(r)
  {
    TallyAgree(r.est, r.charges, key, (j: nat) => r.Stands(j), (j: nat) => s.Stands(j));
  }

  lemma SamePaid(r: Request, s: Request, key: Key)
    requires s == r.(phase := s.phase)
    requires
      || (r.Actual() == s.Actual() && forall j: nat :: j < |r.charges| ==> r.IsPaid(j) == s.IsPaid(j))
      || (forall j: nat :: j < |r.charges| ==> !r.IsPaid(j) && !s.IsPaid(j))
    ensures Paid(key)(s) == Paid(key)(r) && Over(key)(s) == Over(key)(r)
  {
    if r.Actual() == s.Actual() && forall j: nat :: j < |r.charges| ==> r.IsPaid(j) == s.IsPaid(j) {
      TallyAgree(r.Actual(), r.charges, key, (j: nat) => r.IsPaid(j), (j: nat) => s.IsPaid(j));
      TallyAgree(Max(0.0, r.Actual() - r.est), r.charges, key, (j: nat) => r.IsPaid(j), (j: nat) => s.IsPaid(j));
    } else {
      TallyNone(r.Actual(), r.charges, key, (j: nat) => r.IsPaid(j));
      TallyNone(s.Actual(), r.charges, key, (j: nat) => s.IsPaid(j));
      TallyNone(Max(0.0, r.Actual() - r.est), r.charges, key, (j: nat) => r.IsPaid(j));
      TallyNone(Max(0.0, s.Actual() - r.est), r.charges, key, (j: nat) => s.IsPaid(j));
    }
  }

  lemma SameTwice(r: Request, s: Request, key: Key)
    requires s == r.(phase := s.phase) && forall j: nat :: j < |r.charges| ==> r.IsDoubled(j) == s.IsDoubled(j)
    ensures Twice(key)(s) == Twice(key)(r)
  {
    TallyAgree(r.est, r.charges, key, (j: nat) => r.IsDoubled(j), (j: nat) => s.IsDoubled(j));
  }

  /** A script on charge `k` counts on the key of that charge. */
  function On(r: Request, k: nat, key: Key, amount: real): real
    requires k < |r.charges|
  {
    if r.charges[k].key == key then amount else 0.0
  }

  lemma ChargeChanges(r: Request, ok: bool, key: Key)
    requires r.Valid() && r.phase.Reserving?
    ensures AfterCharge(r, ok).Valid()
    ensures Changes(r, AfterCharge(r, ok), key, NOTHING.(standing := if ok then On(r, r.phase.next, key, r.est) else 0.0))
  {
    var s := AfterCharge(r, ok);
    SamePaid(r, s, key);
    SameTwice(r, s, key);
    if ok {
      TallyFlip(r.est, r.charges, key, (j: nat) => r.Stands(j), (j: nat) => s.Stands(j), r.phase.next);
    } else {
      SameStanding(r, s, key);
    }
  }

  /** One undo: a standing charge falls, and is paid if it is settled; or a charge is undone a second time. */
  function UndoChange(r: Request, key: Key): Change
    requires r.HasNextUndo()
  {
    var k := r.NextIndex();
    if r.Doubles() then NOTHING.(twice := On(r, k, key, r.est))
    else if r.phase.Settling? then
      NOTHING.(standing := -On(r, k, key, r.est), paid := On(r, k, key, r.Actual()), over := On(r, k, key, Max(0.0, r.Actual() - r.est)))
    else NOTHING.(standing := -On(r, k, key, r.est))
  }

  lemma UndoStanding(r: Request, key: Key)
    requires r.Valid() && r.HasNextUndo()
    ensures Standing(key)(AfterUncharge(r)) == Standing(key)(r) + UndoChange(r, key).standing
  {
    var s := AfterUncharge(r);
    if r.Doubles() {
      SameStanding(r, s, key);
    } else {
      TallyFlip(r.est, r.charges, key, (j: nat) => s.Stands(j), (j: nat) => r.Stands(j), r.NextIndex());
    }
  }

  lemma UndoPaid(r: Request, key: Key)
    requires r.Valid() && r.HasNextUndo()
    ensures Paid(key)(AfterUncharge(r)) == Paid(key)(r) + UndoChange(r, key).paid
    ensures Over(key)(AfterUncharge(r)) == Over(key)(r) + UndoChange(r, key).over
  {
    var s := AfterUncharge(r);
    if r.phase.Settling? {
      TallyFlip(r.Actual(), r.charges, key, (j: nat) => r.IsPaid(j), (j: nat) => s.IsPaid(j), r.NextIndex());
      TallyFlip(Max(0.0, r.Actual() - r.est), r.charges, key, (j: nat) => r.IsPaid(j), (j: nat) => s.IsPaid(j), r.NextIndex());
    } else {
      SamePaid(r, s, key);
    }
  }

  lemma UndoTwice(r: Request, key: Key)
    requires r.Valid() && r.HasNextUndo()
    ensures Twice(key)(AfterUncharge(r)) == Twice(key)(r) + UndoChange(r, key).twice
  {
    var s := AfterUncharge(r);
    if r.Doubles() {
      TallyFlip(r.est, r.charges, key, (j: nat) => r.IsDoubled(j), (j: nat) => s.IsDoubled(j), r.NextIndex());
    } else {
      SameTwice(r, s, key);
    }
  }

  lemma UndoChanges(r: Request, key: Key)
    requires r.Valid() && r.HasNextUndo()
    ensures AfterUncharge(r).Valid() && Changes(r, AfterUncharge(r), key, UndoChange(r, key))
  {
    UndoStanding(r, key);
    UndoPaid(r, key);
    UndoTwice(r, key);
  }

  /** Beginning, finishing and cutting a settlement move no money. */
  lemma QuietChanges(r: Request, s: Request, key: Key)
    requires r.Valid() && s == r.(phase := s.phase)
    requires
      || (r.phase.Holding? && s.phase.Settling? && s.phase.done == 0)
      || (r.phase.Settling? && r.phase.done == |r.charges| && s.phase == Settled(r.Actual()))
      || (r.phase.Settling? && s.phase == Redoing(r.Actual(), r.phase.done, 0))
    ensures s.Valid() && Changes(r, s, key, NOTHING)
  {
    SameStanding(r, s, key);
    SamePaid(r, s, key);
    SameTwice(r, s, key);
  }

  lemma NewShares(r: Request, key: Key)
    requires r.phase == Reserving(0) || (r.phase == Holding && r.charges == [])
    ensures Standing(key)(r) == 0.0 && Paid(key)(r) == 0.0 && Over(key)(r) == 0.0 && Twice(key)(r) == 0.0
  {
    TallyNone(r.est, r.charges, key, (j: nat) => r.Stands(j));
    TallyNone(r.Actual(), r.charges, key, (j: nat) => r.IsPaid(j));
    TallyNone(Max(0.0, r.Actual() - r.est), r.charges, key, (j: nat) => r.IsPaid(j));
    TallyNone(r.est, r.charges, key, (j: nat) => r.IsDoubled(j));
  }

  lemma ShareSigns(r: Request, key: Key)
    requires r.Valid()
    ensures Standing(key)(r) >= 0.0 && Over(key)(r) >= 0.0 && Twice(key)(r) >= 0.0
  {
    TallySign(r.est, r.charges, key, (j: nat) => r.Stands(j));
    TallySign(Max(0.0, r.Actual() - r.est), r.charges, key, (j: nat) => r.IsPaid(j));
    TallySign(r.est, r.charges, key, (j: nat) => r.IsDoubled(j));
  }

  // ----- The totals of the whole table ----------------------------------------------------

  ghost predicate AllValid(rs: seq<Request>) {
    forall i :: 0 <= i < |rs| ==> rs[i].Valid()
  }

  /** How a step changes the four totals on a key. */
  function StepChange(w: World, a: Action, key: Key): Change
    requires Enabled(w, a)
  {
    match a
    case TryCharge(i) =>
      var r := w.requests[i];
      var c := r.charges[r.phase.next];
      NOTHING.(standing := if ReserveScript(Read(w.store, c.key), c.limit, r.est).ok then On(r, r.phase.next, key, r.est) else 0.0)
    case Uncharge(i) => UndoChange(w.requests[i], key)
    case _ => NOTHING
  }

  ghost predicate TotalsChange(rs: seq<Request>, ss: seq<Request>, key: Key, d: Change) {
    && Reserved(ss, key) == Reserved(rs, key) + d.standing
    && Spent(ss, key) == Spent(rs, key) + d.paid
    && Overrun(ss, key) == Overrun(rs, key) + d.over
    && Doubled(ss, key) == Doubled(rs, key) + d.twice
  }

  lemma ReplaceOne(rs: seq<Request>, i: nat, s: Request, key: Key, d: Change)
    requires i < |rs| && Changes(rs[i], s, key, d)
    ensures TotalsChange(rs, rs[i := s], key, d)
  {
    TotalUpdate(rs, i, s, Standing(key));
    TotalUpdate(rs, i, s, Paid(key));
    TotalUpdate(rs, i, s, Over(key));
    TotalUpdate(rs, i, s, Twice(key));
  }

  lemma AddOne(rs: seq<Request>, r: Request, key: Key)
    requires r.phase == Reserving(0) || (r.phase == Holding && r.charges == [])
    ensures TotalsChange(rs, rs + [r], key, NOTHING)
  {
    NewShares(r, key);
    TotalAppend(rs, r, Standing(key));
    TotalAppend(rs, r, Paid(key));
    TotalAppend(rs, r, Over(key));
    TotalAppend(rs, r, Twice(key));
  }

  lemma StepTotals(w: World, a: Action, key: Key)
    requires AllValid(w.requests) && Enabled(w, a)
    ensures TotalsChange(w.requests, Next(w, a).requests, key, StepChange(w, a, key))
  {
    var rs := Next(w, a).requests;
    match a
    case Arrive(est, charges) =>
      AddOne(w.requests, rs[|w.requests|], key);
    case TryCharge(i) =>
      var r := w.requests[i];
      var c := r.charges[r.phase.next];
      var ok := ReserveScript(Read(w.store, c.key), c.limit, r.est).ok;
      ChargeChanges(r, ok, key);
      ReplaceOne(w.requests, i, AfterCharge(r, ok), key, StepChange(w, a, key));
    case Uncharge(i) =>
      UndoChanges(w.requests[i], key);
      ReplaceOne(w.requests, i, AfterUncharge(w.requests[i]), key, StepChange(w, a, key));
    case _ =>
      QuietChanges(w.requests[a.i], rs[a.i], key);
      ReplaceOne(w.requests, a.i, rs[a.i], key, NOTHING);
  }

  lemma StepValid(w: World, a: Action)
    requires AllValid(w.requests) && Enabled(w, a)
    ensures AllValid(Next(w, a).requests)
  {
  }

  lemma TotalSigns(rs: seq<Request>, key: Key)
    requires AllValid(rs)
    ensures Reserved(rs, key) >= 0.0 && Overrun(rs, key) >= 0.0 && Doubled(rs, key) >= 0.0
  {
    forall i | 0 <= i < |rs| ensures Standing(key)(rs[i]) >= 0.0 && Over(key)(rs[i]) >= 0.0 && Twice(key)(rs[i]) >= 0.0 {
      ShareSigns(rs[i], key);
    }
    TotalSign(rs, Standing(key));
    TotalSign(rs, Over(key));
    TotalSign(rs, Twice(key));
  }

  /** The cell after a step, from the cell before it and the change of the totals. */
  lemma StoreStep(w: World, a: Action, key: Key)
    requires Enabled(w, a)
    ensures
      var c, d := Read(w.store, key), StepChange(w, a, key);
      var after := Read(Next(w, a).store, key);
      && after.spent == c.spent + d.paid
      && after.reserved == if a.Uncharge? && w.requests[a.i].NextUndo().key == key then Max(0.0, c.reserved - w.requests[a.i].est)
                           else c.reserved + d.standing
  {
  }
}
