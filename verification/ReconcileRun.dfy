/** The runner of src/execution/autoReconcileCoordinator.js: it applies a plan's actions to the runtime. */
module ReconcileRun {
  import opened Common
  import opened Reconcile

  datatype SafetyStatus = Blocked | Ready | OtherStatus

  datatype Result = Applied | SkippedAction | BrokerUnavailable | ReviewRequired

  datatype Audit = Audit(kind: ActionType, symbol: string, result: Result)

  datatype Closure = Closure(symbol: string, positionId: nat)

  datatype Probation = Probation(active: bool, entriesThisCycle: nat)

  /** No broker at all, or one that offers `clearPositionReconcileFlags` only (as the command line passes). */
  datatype Broker = NoBroker | FlagClearingBroker

  const HISTORY_LIMIT: nat := 50

  /** The part of the runtime that reconciliation reads and writes. */
  datatype State = State(
    positions: seq<Position>,
    truthFreeze: bool,
    safetyFreeze: bool,
    globalFreeze: bool,
    status: SafetyStatus,
    probation: Probation,
    closures: seq<Closure>,
    trail: seq<Audit>)

  predicate Frozen(st: State) {
    st.truthFreeze || st.safetyFreeze || st.globalFreeze || st.status.Blocked?
  }

  predicate Matches(p: Position, a: Action) {
    (a.positionId != 0 && p.id == a.positionId) || p.symbol == a.symbol
  }

  /** Index of the position an action is about; the length when there is none. */
  function FindPosition(ps: seq<Position>, a: Action): (i: nat)
    ensures i <= |ps|
    ensures i < |ps| ==> Matches(ps[i], a)
    ensures forall j :: 0 <= j < i ==> !Matches(ps[j], a)
  {
    if ps == [] then 0
    else if Matches(ps[0], a) then 0
    else 1 + FindPosition(ps[1..], a)
  }

  function Adopted(p: Position, a: Action): Position {
    if a.adoptListId != 0 && p.protectiveListId == 0 then p.(protectiveListId := a.adoptListId) else p
  }

  function Cleared(p: Position, a: Action, broker: Broker): Position {
    var q := Adopted(p, a).(reconcileRequired := false, manualReviewRequired := false);
    match broker
    case NoBroker => q.(lifecycle := if q.protectiveListId != 0 then Protected else OpenState)
    case FlagClearingBroker =>
      if q.lifecycle in {NoState, ReconcileRequiredState, ManualReviewState, ProtectOnly, ProtectionPending} then
        q.(lifecycle := if q.protectiveListId != 0 || q.ocoListId != 0 then Protected else ProtectionPending)
      else q
  }

  function Without(ps: seq<Position>, id: nat): seq<Position> {
    if ps == [] then []
    else if ps[0].id == id then Without(ps[1..], id)
    else [ps[0]] + Without(ps[1..], id)
  }

  function ResultOf(st: State, a: Action): Result {
    var found := FindPosition(st.positions, a) < |st.positions|;
    match a.kind
    case ManualReview => ReviewRequired
    case ClearSafetyBlock => Applied
    case ClearLocalFlag => if found then Applied else SkippedAction
    case MarkFlat => if found then Applied else SkippedAction
    case RebuildProtection => if found then BrokerUnavailable else SkippedAction
  }

  /** The runtime after one action, before the audit is appended. */
  function Effect(st: State, a: Action, broker: Broker): State {
    var i := FindPosition(st.positions, a);
    if a.kind.ClearLocalFlag? && i < |st.positions| then
      st.(positions := st.positions[i := Cleared(st.positions[i], a, broker)])
    else if a.kind.MarkFlat? && i < |st.positions| then
      var p := st.positions[i];
      st.(positions := Without(st.positions, p.id),
          closures := Take([Closure(p.symbol, p.id)] + st.closures, HISTORY_LIMIT))
    else if a.kind.ClearSafetyBlock? then
      st.(truthFreeze := false, safetyFreeze := false, globalFreeze := false, status := Ready,
          probation := Probation(true, 0))
    else st
  }

  function Step(st: State, a: Action, broker: Broker): State {
    Effect(st, a, broker).(trail := Take([Audit(a.kind, a.symbol, ResultOf(st, a))] + st.trail, HISTORY_LIMIT))
  }

  function RunActions(st: State, actions: seq<Action>, broker: Broker): State
    decreases actions
  {
    if actions == [] then st else RunActions(Step(st, actions[0], broker), actions[1..], broker)
  }

  function Results(st: State, actions: seq<Action>, broker: Broker): seq<Result>
    decreases actions
  {
    if actions == [] then []
    else [ResultOf(st, actions[0])] + Results(Step(st, actions[0], broker), actions[1..], broker)
  }

  lemma NewestFirst(x: Audit, was: seq<Audit>, now: seq<Audit>)
    requires now != [] && now[0] == x
    requires |now| == if |was| < HISTORY_LIMIT then |was| + 1 else HISTORY_LIMIT
    requires now[1..] == was[..|now| - 1]
    ensures now == Take([x] + was, HISTORY_LIMIT)
  {
    assert now == [x] + now[1..];
  }

  method Summarize(results: seq<Result>) returns (appliedCount: nat, needsReview: bool)
    ensures appliedCount == multiset(results)[Applied]
    ensures needsReview <==> ReviewRequired in results
  {
    appliedCount, needsReview := 0, false;
    for i := 0 to |results|
      invariant appliedCount == multiset(results[..i])[Applied]
      invariant needsReview <==> ReviewRequired in results[..i]
    {
      assert results[..i + 1] == results[..i] + [results[i]];
      if results[i].Applied? {
        appliedCount := appliedCount + 1;
      } else if results[i].ReviewRequired? {
        needsReview := true;
      }
    }
    assert results[..|results|] == results;
  }

  class Runtime {
    var openPositions: seq<Position>
    var truthFreeze: bool
    var safetyFreeze: bool
    var globalFreeze: bool
    var status: SafetyStatus
    var probation: Probation
    var closures: seq<Closure>
    var trail: seq<Audit>

    constructor (st: State)
      ensures View() == st
    {
      openPositions, truthFreeze, safetyFreeze, globalFreeze, status, probation, closures, trail :=
        st.positions, st.truthFreeze, st.safetyFreeze, st.globalFreeze, st.status, st.probation, st.closures, st.trail;
    }

    function View(): State
      reads this
    {
      State(openPositions, truthFreeze, safetyFreeze, globalFreeze, status, probation, closures, trail)
    }

    method Find(a: Action) returns (i: nat)
      ensures i == FindPosition(openPositions, a)
    {
      i := 0;
      while i < |openPositions| && !Matches(openPositions[i], a)
        invariant i <= |openPositions|
        invariant i + FindPosition(openPositions[i..], a) == FindPosition(openPositions, a)
      {
        i := i + 1;
      }
    }

    /** Newest first, and at most 50: the oldest one is dropped when the trail was full. */
    method AppendAudit(a: Action, result: Result)
      modifies this`trail
      ensures trail != [] && trail[0] == Audit(a.kind, a.symbol, result)
      ensures |trail| == if |old(trail)| < HISTORY_LIMIT then |old(trail)| + 1 else HISTORY_LIMIT
      ensures trail[1..] == old(trail)[..|trail| - 1]
    {
      trail := Take([Audit(a.kind, a.symbol, result)] + trail, HISTORY_LIMIT);
    }

    method Drop(id: nat)
      modifies this`openPositions
      ensures openPositions == Without(old(openPositions), id)
    {
      var kept: seq<Position> := [];
      for i := 0 to |openPositions|
        invariant openPositions == old(openPositions)
        invariant kept + Without(openPositions[i..], id) == Without(openPositions, id)
      {
        if openPositions[i].id != id {
          kept := kept + [openPositions[i]];
        }
      }
      openPositions := kept;
    }

    /** The branches of the runner, before the audit. */
    method Perform(a: Action, broker: Broker) returns (result: Result)
      modifies this
      ensures View() == Effect(old(View()), a, broker)
      ensures result == ResultOf(old(View()), a)
    {
      hide Cleared, Without;
      result := SkippedAction;
      var i := Find(a);
      if a.kind.ClearLocalFlag? && i < |openPositions| {
        openPositions := openPositions[i := Cleared(openPositions[i], a, broker)];
        result := Applied;
      } else if a.kind.MarkFlat? && i < |openPositions| {
        var p := openPositions[i];
        closures := Take([Closure(p.symbol, p.id)] + closures, HISTORY_LIMIT);
        Drop(p.id);
        result := Applied;
      } else if a.kind.RebuildProtection? && i < |openPositions| {
        result := BrokerUnavailable;
      } else if a.kind.ClearSafetyBlock? {
        truthFreeze, safetyFreeze, globalFreeze, status := false, false, false, Ready;
        probation := Probation(true, 0);
        result := Applied;
      } else if a.kind.ManualReview? {
        result := ReviewRequired;
      }
    }

    method Apply(a: Action, broker: Broker) returns (result: Result)
      modifies this
      ensures View() == Step(old(View()), a, broker)
      ensures result == ResultOf(old(View()), a)
    {
      hide Effect, ResultOf;
      result := Perform(a, broker);
      EffectKeepsTrail(old(View()), a, broker);
      ghost var was := trail;
      AppendAudit(a, result);
      NewestFirst(Audit(a.kind, a.symbol, result), was, trail);
    }

    method RunAll(actions: seq<Action>, broker: Broker) returns (results: seq<Result>)
      modifies this
      ensures View() == RunActions(old(View()), actions, broker)
      ensures results == Results(old(View()), actions, broker)
    {
      hide Step, ResultOf;
      results := [];
      for i := 0 to |actions|
        invariant RunActions(View(), actions[i..], broker) == RunActions(old(View()), actions, broker)
        invariant results + Results(View(), actions[i..], broker) == Results(old(View()), actions, broker)
      {
        var result := Apply(actions[i], broker);
        results := results + [result];
      }
    }

    /** The results, how many actions were applied, and whether somebody has to look at it. */
    method Run(plan: Plan, broker: Broker) returns (results: seq<Result>, appliedCount: nat, manualReview: bool)
      modifies this
      ensures View() == RunActions(old(View()), plan.actions, broker)
      ensures results == Results(old(View()), plan.actions, broker)
      ensures appliedCount == multiset(results)[Applied]
      ensures manualReview <==> plan.manualReview || ReviewRequired in results
    {
      hide *;
      results := RunAll(plan.actions, broker);
      var needsReview: bool;
      appliedCount, needsReview := Summarize(results);
      manualReview := plan.manualReview || needsReview;
    }
  }

  lemma EffectKeepsTrail(st: State, a: Action, broker: Broker)
    ensures Effect(st, a, broker).trail == st.trail
  {
  }
}
