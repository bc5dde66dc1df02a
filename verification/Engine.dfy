/** The request engine for chat: attempts with fallback, and the settling of the reservation. */
module Engine {
  import opened Text
  import opened Catalog
  import opened Fallback
  import opened FallbackLoop
  import opened Routing

  /**
   A settling call on the quota: `release` is a reconciliation with nothing spent. It is
   complete unless the caller was cancelled inside it.
   */
  datatype Settlement = Settlement(hold: Option<nat>, actual: real, complete: bool)

  /** `_result_usd`, as a function of the deployment that answered and its usage. */
  type Price = (Deployment, Usage) -> real

  datatype HealthNote = Failed(d: Deployment) | Succeeded(d: Deployment)

  function Failures(tried: seq<Deployment>): seq<HealthNote> {
    if tried == [] then [] else Failures(tried[..|tried| - 1]) + [Failed(tried[|tried| - 1])]
  }

  /** What one deployment does when it is asked once. */
  datatype Chat =
    | Answer(model: string, usage: Usage)       // the model name is the one the provider reports
    | Breaks(cls: FailureClass)
    | OverQuota                                 // GatewayQuotaExceeded passes through `_attempt`
    | Trouble                                   // any other exception that reaches the loop

  function ChatFate(c: Chat): Fate {
    match c
    case Answer(_, _) => Won
    case Breaks(cls) => Lost(cls)
    case OverQuota => Halted
    case Trouble => Halted
  }

  function ChatFates(world: Deployment -> Chat): Fates {
    d => ChatFate(world(d))
  }

  datatype ChainEnd =
    | Returned(d: Deployment, model: string, usage: Usage)
    | Exhausted(d: Deployment, cls: FailureClass, attempts: nat)
    | QuotaError
    | OtherError

  datatype ChainRun = ChainRun(
    attempted: seq<Deployment>,
    health: seq<HealthNote>,
    settled: seq<Settlement>,
    end: ChainEnd)

  function ChainOutcome(tried: seq<Deployment>, world: Deployment -> Chat): ChainEnd
    requires tried != []
  {
    var d := tried[|tried| - 1];
    match world(d)
    case Answer(model, usage) => Returned(d, model, usage)
    case Breaks(cls) => Exhausted(d, cls, |tried|)
    case OverQuota => QuotaError
    case Trouble => OtherError
  }

  function ChainCharge(usd: Price, tried: seq<Deployment>, world: Deployment -> Chat): real
    requires tried != []
  {
    var d := tried[|tried| - 1];
    if world(d).Answer? then usd(Deployment(d.provider, world(d).model), world(d).usage) else 0.0
  }

  function ChainHealth(tried: seq<Deployment>, world: Deployment -> Chat): seq<HealthNote>
    requires tried != []
  {
    var d := tried[|tried| - 1];
    match world(d)
    case Answer(_, _) => Failures(tried[..|tried| - 1]) + [Succeeded(d)]
    case Breaks(_) => Failures(tried)
    case OverQuota => Failures(tried[..|tried| - 1])
    case Trouble => Failures(tried[..|tried| - 1])
  }

  /** Everything a run of `_execute_chain` leaves behind, given the deployments it attempted. */
  function ChainSpec(usd: Price, tried: seq<Deployment>, world: Deployment -> Chat, hold: Option<nat>): ChainRun
    requires tried != []
  {
    ChainRun(tried, ChainHealth(tried, world), [Settlement(hold, ChainCharge(usd, tried, world), true)], ChainOutcome(tried, world))
  }

  /** How the `try` block is left: by its `return`, by an exception, or past its end. */
  datatype ChainExit = Answered(d: Deployment, model: string, usage: Usage) | Threw(quota: bool) | RanDry(d: Deployment, cls: FailureClass)

  function ExitOf(d: Deployment, c: Chat): ChainExit {
    match c
    case Answer(model, usage) => Answered(d, model, usage)
    case Breaks(cls) => RanDry(d, cls)
    case OverQuota => Threw(true)
    case Trouble => Threw(false)
  }

  datatype ChainState = ChainState(seen: seq<Deployment>, health: seq<HealthNote>, settled: seq<Settlement>)

  function NotesOn(d: Deployment, c: Chat): seq<HealthNote> {
    match c
    case Answer(_, _) => [Succeeded(d)]
    case Breaks(_) => [Failed(d)]
    case OverQuota => []
    case Trouble => []
  }

  function Reconciled(usd: Price, d: Deployment, c: Chat, hold: Option<nat>): seq<Settlement> {
    if c.Answer? then [Settlement(hold, usd(Deployment(d.provider, c.model), c.usage), true)] else []
  }

  /** What the `try` block has done when it is left after attempt `d`: notes on all attempts, and one reconciliation or none. */
  function Tried(usd: Price, seen: seq<Deployment>, d: Deployment, c: Chat, hold: Option<nat>): ChainState {
    ChainState(seen + [d], Failures(seen) + NotesOn(d, c), Reconciled(usd, d, c, hold))
  }

  lemma TriedAgrees(usd: Price, seen: seq<Deployment>, d: Deployment, world: Deployment -> Chat, hold: Option<nat>)
    ensures
      var all, state := seen + [d], Tried(usd, seen, d, world(d), hold);
      && state.health == ChainHealth(all, world)
      && (world(d).Answer? ==> state.settled == [Settlement(hold, ChainCharge(usd, all, world), true)])
      && (!world(d).Answer? ==> state.settled == [] && ChainCharge(usd, all, world) == 0.0)
  {
    var all := seen + [d];
    assert all[|all| - 1] == d && all[..|all| - 1] == seen;
    assert Failures(seen) + [] == Failures(seen);
  }

  lemma FailedOnce(seen: seq<Deployment>, d: Deployment)
    ensures Failures(seen + [d]) == Failures(seen) + [Failed(d)]
  {
    assert (seen + [d])[..|seen|] == seen;
  }

  /** The loop has made the attempts `seen` of the walk `all` and is about to use `targets`. */
  ghost predicate ChatMidway(plan: Plan, world: Deployment -> Chat, all: seq<Deployment>, seen: seq<Deployment>, targets: seq<Deployment>) {
    Midway(plan, ChatFates(world), all, seen, targets)
  }

  /** After the attempts `seen`, the last of them at `d`, the walk goes on or is over. */
  ghost predicate GoesOn(plan: Plan, world: Deployment -> Chat, all: seq<Deployment>, seen: seq<Deployment>, d: Deployment) {
    if world(d).Breaks? then ChatMidway(plan, world, all, seen, Unseen(plan(world(d).cls), seen)) else seen == all
  }

  lemma NextOne(
    plan: Plan, world: Deployment -> Chat, decision: Deployment, all: seq<Deployment>, seen: seq<Deployment>, targets: seq<Deployment>)
    requires CompleteWalk(plan, ChatFates(world), decision, all) && ChatMidway(plan, world, all, seen, targets) && targets != []
    ensures targets[0] !in seen && seen + [targets[0]] <= all
    ensures GoesOn(plan, world, all, seen + [targets[0]], targets[0])
  {
    Advance(plan, ChatFates(world), decision, all, seen, targets);
    var d, more := targets[0], seen + [targets[0]];
    assert more[|more| - 1] == d && ChatFates(world)(d) == ChatFate(world(d));
    if !world(d).Breaks? { StopsHere(plan, ChatFates(world), decision, all, more); }
  }

  /** The `try` block: the loop over the targets. The reconciliation is inside it. */
  method TryTargets(usd: Price, plan: Plan, decision: Deployment, world: Deployment -> Chat, hold: Option<nat>, ghost all: seq<Deployment>)
    returns (state: ChainState, exit: ChainExit, ghost front: seq<Deployment>, d: Deployment)
    requires CompleteWalk(plan, ChatFates(world), decision, all)
    ensures all == front + [d]
    ensures state == Tried(usd, front, d, world(d), hold) && exit == ExitOf(d, world(d))
  {
    var seen: seq<Deployment> := [];             // in the order of the attempts
    var health: seq<HealthNote> := [];
    var settled: seq<Settlement> := [];
    var targets := [decision];
    d, front := decision, [];
    while targets != []
      invariant health == Failures(seen) && settled == []
      invariant seen != [] ==> seen == front + [d] && world(d).Breaks?
      invariant ChatMidway(plan, world, all, seen, targets)
      decreases |all| - |seen|
    {
      NextOne(plan, world, decision, all, seen, targets);
      d := targets[0];
      if d in seen {
        assert false;                            // the skip of a repeated target is never taken
      }
      FailedOnce(seen, d);
      front, seen := seen, seen + [d];
      var reply := world(d);
      if reply.Breaks? {
        health := health + [Failed(d)];
        targets := Unseen(plan(reply.cls), seen);
      } else {
        health := health + NotesOn(d, reply);
        settled := settled + Reconciled(usd, d, reply, hold);
        return ChainState(seen, health, settled), ExitOf(d, reply), front, d;
      }
    }
    RunsDry(plan, ChatFates(world), decision, all, seen);
    FailedOnce(front, d);
    return ChainState(seen, health, settled), ExitOf(d, world(d)), front, d;
  }

  /** The handlers of the `try` block and what follows it: every way out but `return` releases. */
  method Handlers(state: ChainState, exit: ChainExit, hold: Option<nat>) returns (run: ChainRun)
    ensures run == AfterHandlers(state, exit, hold)
  {
    var settled := state.settled;
    match exit {
      case Answered(d, model, usage) =>
        return ChainRun(state.seen, state.health, settled, Returned(d, model, usage));
      case Threw(quota) =>                       // both handlers release and raise again
        settled := settled + [Settlement(hold, 0.0, true)];
        return ChainRun(state.seen, state.health, settled, if quota then QuotaError else OtherError);
      case RanDry(d, cls) =>
        settled := settled + [Settlement(hold, 0.0, true)];
        return ChainRun(state.seen, state.health, settled, Exhausted(d, cls, |state.seen|));
    }
  }

  function AfterHandlers(state: ChainState, exit: ChainExit, hold: Option<nat>): ChainRun {
    ChainRun(state.seen, state.health,
             if exit.Answered? then state.settled else state.settled + [Settlement(hold, 0.0, true)],
             match exit
             case Answered(d, model, usage) => Returned(d, model, usage)
             case Threw(quota) => if quota then QuotaError else OtherError
             case RanDry(d, cls) => Exhausted(d, cls, |state.seen|))
  }

  /** Whatever the last attempt did, the reservation has been settled exactly once. */
  lemma ChainSettlesOnce(usd: Price, seen: seq<Deployment>, d: Deployment, world: Deployment -> Chat, hold: Option<nat>)
    ensures AfterHandlers(Tried(usd, seen, d, world(d), hold), ExitOf(d, world(d)), hold) == ChainSpec(usd, seen + [d], world, hold)
  {
    TriedAgrees(usd, seen, d, world, hold);
    var all := seen + [d];
    assert all[|all| - 1] == d;
  }

  /** All attempts but the last are noted as failures of their deployments, in order. */
  lemma {:induction false} FailuresByIndex(tried: seq<Deployment>)
    ensures |Failures(tried)| == |tried|
    ensures forall i :: 0 <= i < |tried| ==> Failures(tried)[i] == Failed(tried[i])
  {
    if tried != [] { FailuresByIndex(tried[..|tried| - 1]); }
  }

  /** The deployments that are noted as failed, and the one that is noted as working. */
  ghost predicate NotesAreTrue(run: ChainRun, world: Deployment -> Chat) {
    && |run.attempted| - 1 <= |run.health| <= |run.attempted|
    && forall i :: 0 <= i < |run.health| ==>
         run.health[i] == if world(run.attempted[i]).Breaks? then Failed(run.attempted[i]) else Succeeded(run.attempted[i])
  }

  /** What a run returns is the answer of the last deployment, and only an answer is charged for, at the model that gave it. */
  ghost predicate ChargeIsTrue(usd: Price, run: ChainRun, world: Deployment -> Chat, hold: Option<nat>) {
    match run.end
    case Returned(d, model, usage) =>
      world(d) == Answer(model, usage) && run.settled == [Settlement(hold, usd(Deployment(d.provider, model), usage), true)]
    case _ => run.settled == [Settlement(hold, 0.0, true)]
  }

  /** The attempts before the last one broke. */
  ghost predicate BrokeBefore(tried: seq<Deployment>, world: Deployment -> Chat) {
    forall i :: 0 <= i < |tried| - 1 ==> world(tried[i]).Breaks?
  }

  lemma NotesOfChain(usd: Price, tried: seq<Deployment>, world: Deployment -> Chat, hold: Option<nat>)
    requires tried != [] && BrokeBefore(tried, world)
    ensures NotesAreTrue(ChainSpec(usd, tried, world, hold), world)
  {
    FailuresByIndex(tried);
    FailuresByIndex(tried[..|tried| - 1]);
  }

  lemma ChargeOfChain(usd: Price, tried: seq<Deployment>, world: Deployment -> Chat, hold: Option<nat>)
    requires tried != []
    ensures ChargeIsTrue(usd, ChainSpec(usd, tried, world, hold), world, hold)
  {
  }

  lemma WalkBroke(plan: Plan, world: Deployment -> Chat, decision: Deployment, tried: seq<Deployment>)
    requires CompleteWalk(plan, ChatFates(world), decision, tried)
    ensures tried != [] && BrokeBefore(tried, world)
  {
    forall i | 0 <= i < |tried| - 1 ensures world(tried[i]).Breaks? {
      assert Follows(plan, ChatFates(world), tried, i);
    }
  }

  /**
   `_execute_chain`: the `try` block and its two handlers. Every run attempts exactly the
   walk, settles the reservation exactly once, and charges the winner's cost or nothing.
   */
  method ExecuteChain(usd: Price, plan: Plan, decision: Deployment, world: Deployment -> Chat, hold: Option<nat>)
    returns (run: ChainRun)
    ensures run == ChainSpec(usd, Walk(plan, ChatFates(world), [decision]), world, hold)
    ensures NotesAreTrue(run, world) && ChargeIsTrue(usd, run, world, hold)
  {
    WalkIsComplete(plan, ChatFates(world), decision);
    WalkBroke(plan, world, decision, Walk(plan, ChatFates(world), [decision]));
    NotesOfChain(usd, Walk(plan, ChatFates(world), [decision]), world, hold);
    ChargeOfChain(usd, Walk(plan, ChatFates(world), [decision]), world, hold);
    var state, exit, front, last := TryTargets(usd, plan, decision, world, hold, Walk(plan, ChatFates(world), [decision]));
    ChainSettlesOnce(usd, front, last, world, hold);
    run := Handlers(state, exit, hold);
  }
}
