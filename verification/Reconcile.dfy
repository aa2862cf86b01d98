/** The exchange-safety coordinator of src/execution/autoReconcileCoordinator.js: the planner that
    turns local positions and exchange evidence into actions, and the runner that applies them. */
module Reconcile {
  import opened Common

  // ---------------------------------------------------------------------------------------------
  // Local state
  // ---------------------------------------------------------------------------------------------

  datatype Lifecycle =
    | NoState | OpenState | Protected | ProtectionPending | ProtectOnly | Closed
    | ManualReviewState | ReconcileRequiredState | IntentionallyUnmanaged | OtherState

  /** A local position. Id 0 is the source's missing id, the empty symbol its missing symbol, and an
      order-list id of 0 a missing one (the source tests all three for truthiness). */
  datatype Position = Position(
    id: nat,
    symbol: string,
    quantity: real,
    reconcileRequired: bool,
    manualReviewRequired: bool,
    lifecycle: Lifecycle,
    protectiveListId: int,
    ocoListId: int,
    intentionalUnmanaged: bool)

  predicate HasBlockingState(p: Position) {
    p.reconcileRequired || p.manualReviewRequired
    || p.lifecycle.ManualReviewState? || p.lifecycle.ReconcileRequiredState?
  }

  predicate IsProtected(p: Position) {
    p.quantity <= 0.0 || p.protectiveListId != 0 || p.ocoListId != 0
    || p.lifecycle.IntentionallyUnmanaged? || p.intentionalUnmanaged
  }

  /** `findPosition` matches on the id or on the symbol, so the model assumes what the source assumes:
      every position has its own id and its own symbol. */
  ghost predicate WellFormed(ps: seq<Position>) {
    (forall i :: 0 <= i < |ps| ==> ps[i].id != 0)
    && (forall i, j :: 0 <= i < j < |ps| ==> ps[i].id != ps[j].id && ps[i].symbol != ps[j].symbol)
  }

  // ---------------------------------------------------------------------------------------------
  // Exchange evidence and configuration
  // ---------------------------------------------------------------------------------------------

  datatype Side = Buy | Sell | OtherSide

  datatype OrderStatus = NoStatus | New | PartiallyFilled | PendingNew | Executing | ExecStarted | Inactive

  datatype Order = Order(symbol: string, side: Side, status: OrderStatus)

  datatype OrderList = OrderList(symbol: string, listId: int, status: OrderStatus)

  datatype TradeStatus = NoTradeStatus | Filled | PartFilled | Unknown | Expired | Rejected | OtherTradeStatus

  datatype Trade = Trade(symbol: string, side: Side, status: TradeStatus, ambiguous: bool)

  datatype Rules = Rules(minQty: real, dustThresholdQty: Option<real>, stepSize: real)

  datatype Snapshot = Snapshot(
    isFresh: bool,
    connected: bool,
    timestamped: bool,
    stale: bool,
    conflict: bool,
    balances: map<string, real>)

  datatype Evidence = Evidence(
    account: Snapshot,
    stream: Snapshot,
    orders: seq<Order>,
    lists: seq<OrderList>,
    trades: seq<Trade>,
    rules: map<string, Rules>,
    baseAsset: map<string, string>,
    validGeometry: set<string>)

  datatype Config = Config(
    autoReconcileEnabled: Option<bool>,
    enableAutoReconcile: Option<bool>,
    allowFlatClose: bool,
    allowProtectiveRebuild: bool,
    requireFreshStreamOrRest: bool,
    minConfidence: real,
    maxActionsPerRun: real,
    qtyMismatchTolerance: real,
    enableExchangeProtection: bool)

  const DEFAULT_MIN_CONFIDENCE := 0.78
  const BASE_CONFIDENCE := 0.96
  const BALANCE_EPSILON := 0.00000001
  const DUST_FLOOR := 0.000000001

  predicate Enabled(cfg: Config) {
    cfg.autoReconcileEnabled.GetOr(cfg.enableAutoReconcile.GetOr(true))
  }

  function MinConfidence(cfg: Config): real { Max(DEFAULT_MIN_CONFIDENCE, cfg.minConfidence) }

  function MaxActions(cfg: Config): nat {
    if Round(cfg.maxActionsPerRun) < 1 then 1 else Round(cfg.maxActionsPerRun)
  }

  predicate ActiveOrder(o: Order, symbol: string) {
    o.symbol == symbol && !o.status.Inactive? && !o.status.ExecStarted?
  }

  predicate ActiveList(l: OrderList, symbol: string) {
    l.symbol == symbol && !l.status.Inactive? && !l.status.PendingNew?
  }

  predicate HasOrders(ev: Evidence, symbol: string) {
    exists o | o in ev.orders :: ActiveOrder(o, symbol)
  }

  predicate HasLists(ev: Evidence, symbol: string) {
    exists l | l in ev.lists :: ActiveList(l, symbol)
  }

  predicate HasSellOrder(ev: Evidence, symbol: string) {
    exists o | o in ev.orders :: ActiveOrder(o, symbol) && o.side.Sell?
  }

  predicate HasPartialFill(ev: Evidence, symbol: string) {
    exists o | o in ev.orders :: ActiveOrder(o, symbol) && o.status.PartiallyFilled?
  }

  predicate HasUnexpectedSide(ev: Evidence, symbol: string) {
    exists o | o in ev.orders :: ActiveOrder(o, symbol) && !o.side.Sell?
  }

  function FirstListId(lists: seq<OrderList>, symbol: string): int {
    if lists == [] then 0
    else if ActiveList(lists[0], symbol) then lists[0].listId
    else FirstListId(lists[1..], symbol)
  }

  predicate ProtectiveEvidence(ev: Evidence, p: Position) {
    p.protectiveListId != 0 || p.ocoListId != 0 || HasLists(ev, p.symbol) || HasSellOrder(ev, p.symbol)
  }

  /** The order-list id that a cleared position adopts; 0 when the only protection seen is a sell order. */
  function AdoptableListId(ev: Evidence, p: Position): int {
    if p.protectiveListId != 0 then p.protectiveListId
    else if p.ocoListId != 0 then p.ocoListId
    else FirstListId(ev.lists, p.symbol)
  }

  /** A trade without a status counts as filled here and as unremarkable below. */
  predicate RecentSell(ev: Evidence, symbol: string) {
    exists t | t in ev.trades :: t.symbol == symbol && t.side.Sell?
                                 && (t.status.NoTradeStatus? || t.status.Filled? || t.status.PartFilled?)
  }

  predicate ContradictoryTrade(ev: Evidence, symbol: string) {
    exists t | t in ev.trades :: t.symbol == symbol
                                 && (t.status.Unknown? || t.status.Expired? || t.status.Rejected? || t.ambiguous)
  }

  function RulesOf(ev: Evidence, symbol: string): Rules {
    if symbol in ev.rules then ev.rules[symbol] else Rules(0.0, None, 0.0)
  }

  function DustThreshold(ev: Evidence, symbol: string): real {
    var rules := RulesOf(ev, symbol);
    Max(Max(Max(0.0, rules.minQty), rules.dustThresholdQty.GetOr(rules.stepSize)), DUST_FLOOR)
  }

  function ExchangeTotal(ev: Evidence, symbol: string): real {
    var asset := if symbol in ev.baseAsset then ev.baseAsset[symbol] else symbol;
    if asset in ev.account.balances then ev.account.balances[asset] else 0.0
  }

  predicate LocalOpen(ev: Evidence, p: Position) { p.quantity > DustThreshold(ev, p.symbol) }

  predicate ExchangeOpen(ev: Evidence, p: Position) { ExchangeTotal(ev, p.symbol) > DustThreshold(ev, p.symbol) }

  predicate OpenBoth(ev: Evidence, p: Position) { LocalOpen(ev, p) && ExchangeOpen(ev, p) }

  predicate WithinTolerance(cfg: Config, ev: Evidence, p: Position) {
    Abs(p.quantity - ExchangeTotal(ev, p.symbol)) <= Max(DustThreshold(ev, p.symbol), cfg.qtyMismatchTolerance)
  }

  /** `resolveFreshness`, given the value it finds under the key autoReconcileRequireFreshStreamOrRest. */
  predicate SufficientlyFresh(requireFlag: Option<bool>, ev: Evidence) {
    requireFlag == Some(false)
    || ((ev.stream.isFresh || (ev.stream.connected && !ev.stream.stale) || ev.account.isFresh || ev.account.timestamped)
        && !ev.stream.stale && !ev.account.stale)
  }

  datatype Setting = Flag(on: bool) | Number(value: real)

  /** The object that `resolveAutoReconcileConfig` makes of the configuration, under its own keys; the
      buffer of the geometry check is left out. */
  function ResolvedSettings(cfg: Config): map<string, Setting> {
    map["enabled" := Flag(Enabled(cfg)),
        "allowFlatClose" := Flag(cfg.allowFlatClose),
        "allowProtectiveRebuild" := Flag(cfg.allowProtectiveRebuild),
        "minConfidence" := Number(MinConfidence(cfg)),
        "requireFreshStreamOrRest" := Flag(cfg.requireFreshStreamOrRest),
        "maxActionsPerRun" := Number(MaxActions(cfg) as real)]
  }

  const FRESHNESS_KEY := "autoReconcileRequireFreshStreamOrRest"

  function FlagAt(settings: map<string, Setting>, key: string): Option<bool> {
    if key in settings && settings[key].Flag? then Some(settings[key].on) else None
  }

  /** The planner passes its resolved settings, and `resolveFreshness` looks its own key up in them. */
  predicate FreshEvidence(cfg: Config, ev: Evidence) {
    SufficientlyFresh(FlagAt(ResolvedSettings(cfg), FRESHNESS_KEY), ev)
  }

  /** The settings do not have that key, so fresh evidence is always required. */
  lemma FreshEvidenceIsRequired(cfg: Config, ev: Evidence)
    ensures FreshEvidence(cfg, ev) <==> SufficientlyFresh(None, ev)
  {
    assert |FRESHNESS_KEY| == 37;
    assert forall key :: key in ResolvedSettings(cfg) ==> |key| < 37;
  }

  predicate StreamConflict(ev: Evidence) {
    ev.stream.conflict || ev.account.conflict
    || exists asset | asset in ev.stream.balances ::
         asset in ev.account.balances
         && Abs(ev.stream.balances[asset] - ev.account.balances[asset]) > BALANCE_EPSILON
  }

  // ---------------------------------------------------------------------------------------------
  // Plans
  // ---------------------------------------------------------------------------------------------

  datatype ActionType = ManualReview | ClearLocalFlag | MarkFlat | RebuildProtection | ClearSafetyBlock

  /** Position id 0 and the empty symbol stand for the null fields of a global action. */
  datatype Action = Action(kind: ActionType, symbol: string, positionId: nat, adoptListId: int)

  datatype Problem =
    | AmbiguousTrade | PartialFill | UnexpectedSide | BalanceMismatch
    | ProtectionDisabled | RebuildDisabled | BadGeometry | StateNeedsReview

  datatype Reason =
    | Disabled | FreshEvidenceRequired | RestStreamConflict | ActionLimitReached | ConfidenceBelowMinimum
    | At(symbol: string, problem: Problem)

  datatype PlanStatus = NeedsManualReview | BlockedPlan | NeedsRebuild | CanAutoFix | NothingToDo

  datatype Plan = Plan(
    status: PlanStatus,
    eligible: bool,
    actions: seq<Action>,
    reasons: seq<Reason>,
    confidence: real,
    manualReview: bool)

  /** What the planner concludes about one position. */
  datatype Finding =
    | Skipped
    | Conflicting(problems: seq<Problem>)
    | Clearable(adoptListId: int)
    | Flat
    | NoProtectionAllowed
    | NoRebuildAllowed
    | InvalidGeometry
    | Rebuildable
    | StillFlagged
    | Quiet

  function Problems(cfg: Config, ev: Evidence, p: Position): seq<Problem> {
    (if ContradictoryTrade(ev, p.symbol) then [AmbiguousTrade] else [])
    + (if HasPartialFill(ev, p.symbol) then [PartialFill] else [])
    + (if HasUnexpectedSide(ev, p.symbol) then [UnexpectedSide] else [])
    + (if OpenBoth(ev, p) && !WithinTolerance(cfg, ev, p) then [BalanceMismatch] else [])
  }

  function Examine(cfg: Config, ev: Evidence, p: Position): Finding {
    if p.symbol == "" then Skipped
    else if Problems(cfg, ev, p) != [] then Conflicting(Problems(cfg, ev, p))
    else if p.reconcileRequired && OpenBoth(ev, p) && ProtectiveEvidence(ev, p) && FreshEvidence(cfg, ev) then
      Clearable(AdoptableListId(ev, p))
    else if cfg.allowFlatClose && LocalOpen(ev, p) && !ExchangeOpen(ev, p) && !HasOrders(ev, p.symbol)
            && !HasLists(ev, p.symbol) && RecentSell(ev, p.symbol) && FreshEvidence(cfg, ev) then Flat
    else if OpenBoth(ev, p) && !ProtectiveEvidence(ev, p) then
      if !cfg.enableExchangeProtection then NoProtectionAllowed
      else if !cfg.allowProtectiveRebuild then NoRebuildAllowed
      else if p.symbol !in ev.validGeometry then InvalidGeometry
      else Rebuildable
    else if HasBlockingState(p) then StillFlagged
    else Quiet
  }

  function ActionsFor(p: Position, f: Finding): seq<Action> {
    match f
    case Conflicting(_) => [Action(ManualReview, p.symbol, p.id, 0)]
    case NoProtectionAllowed => [Action(ManualReview, p.symbol, p.id, 0)]
    case InvalidGeometry => [Action(ManualReview, p.symbol, p.id, 0)]
    case Clearable(listId) => [Action(ClearLocalFlag, p.symbol, p.id, listId)]
    case Flat => [Action(MarkFlat, p.symbol, p.id, 0)]
    case Rebuildable => [Action(RebuildProtection, p.symbol, p.id, 0)]
    case _ => []
  }

  function AtSymbol(symbol: string, problems: seq<Problem>): seq<Reason> {
    seq(|problems|, i requires 0 <= i < |problems| => At(symbol, problems[i]))
  }

  function ReasonsFor(p: Position, f: Finding): seq<Reason> {
    match f
    case Conflicting(problems) => AtSymbol(p.symbol, problems)
    case NoProtectionAllowed => [At(p.symbol, ProtectionDisabled)]
    case NoRebuildAllowed => [At(p.symbol, RebuildDisabled)]
    case InvalidGeometry => [At(p.symbol, BadGeometry)]
    case StillFlagged => [At(p.symbol, StateNeedsReview)]
    case _ => []
  }

  function CapFor(f: Finding): real {
    match f
    case Conflicting(_) => 0.4
    case NoRebuildAllowed => 0.55
    case InvalidGeometry => 0.42
    case StillFlagged => 0.6
    case _ => 1.0
  }

  predicate NeedsReview(f: Finding) { f.Conflicting? || f.NoProtectionAllowed? || f.InvalidGeometry? }

  // What the planner accumulates over the first positions, last one outermost.

  function Proposed(cfg: Config, ev: Evidence, ps: seq<Position>): seq<Action> {
    if ps == [] then []
    else
      var p := ps[|ps| - 1];
      Proposed(cfg, ev, ps[..|ps| - 1]) + ActionsFor(p, Examine(cfg, ev, p))
  }

  function Objections(cfg: Config, ev: Evidence, ps: seq<Position>): seq<Reason> {
    if ps == [] then
      (if FreshEvidence(cfg, ev) then [] else [FreshEvidenceRequired])
      + (if StreamConflict(ev) then [RestStreamConflict] else [])
    else
      var p := ps[|ps| - 1];
      Objections(cfg, ev, ps[..|ps| - 1]) + ReasonsFor(p, Examine(cfg, ev, p))
  }

  function Trust(cfg: Config, ev: Evidence, ps: seq<Position>): real {
    if ps == [] then
      Min(Min(BASE_CONFIDENCE, if FreshEvidence(cfg, ev) then 1.0 else 0.45), if StreamConflict(ev) then 0.35 else 1.0)
    else
      Min(Trust(cfg, ev, ps[..|ps| - 1]), CapFor(Examine(cfg, ev, ps[|ps| - 1])))
  }

  predicate ReviewNeeded(cfg: Config, ev: Evidence, ps: seq<Position>) {
    StreamConflict(ev) || exists p | p in ps :: NeedsReview(Examine(cfg, ev, p))
  }

  predicate UnlockKind(a: Action) { a.kind.ClearLocalFlag? || a.kind.ClearSafetyBlock? }

  predicate Covered(p: Position, actions: seq<Action>) {
    !HasBlockingState(p)
    || exists a | a in actions :: a.kind.ClearLocalFlag? && a.positionId == p.id && p.id != 0
  }

  function StatusOf(actions: seq<Action>, manualReview: bool, reasons: seq<Reason>, eligible: bool): PlanStatus {
    if manualReview then NeedsManualReview
    else if reasons != [] && actions == [] then BlockedPlan
    else if exists a | a in actions :: a.kind.RebuildProtection? then NeedsRebuild
    else if actions != [] then CanAutoFix
    else if eligible then NothingToDo
    else BlockedPlan
  }

  const GLOBAL_REVIEW := Action(ManualReview, "", 0, 0)
  const GLOBAL_CLEAR := Action(ClearSafetyBlock, "", 0, 0)

  /** The second half of the planner: the action limit, the confidence floor and the unlock decision. */
  function Conclude(limit: nat, floor: real, ps: seq<Position>, frozen: bool,
                    proposed: seq<Action>, objections: seq<Reason>, confidence: real, review: bool): Plan
  {
    var limited := |proposed| > limit;
    var kept := if limited then proposed[..limit] else proposed;
    var reasons1 := if limited then objections + [ActionLimitReached] else objections;
    var unsure := confidence < floor;
    var reasons2 := if unsure then reasons1 + [ConfidenceBelowMinimum] else reasons1;
    var asks := exists a | a in kept :: a.kind.ManualReview?;
    var actions1 := if unsure && !asks then kept + [GLOBAL_REVIEW] else kept;
    var review1 := review || unsure;
    var eligible := !review1 && reasons2 == []
                    && (forall a | a in actions1 :: UnlockKind(a))
                    && (forall p | p in ps :: Covered(p, actions1));
    var actions2 := if eligible && (frozen || actions1 != []) then actions1 + [GLOBAL_CLEAR] else actions1;
    Plan(StatusOf(actions2, review1, reasons2, eligible), eligible, actions2, Dedup(reasons2),
         Clamp(confidence, 0.0, 1.0), review1)
  }

  const DISABLED_PLAN := Plan(BlockedPlan, false, [], [Disabled], 0.0, true)

  /** The plan as a function of its inputs. */
  function PlanFor(cfg: Config, ev: Evidence, ps: seq<Position>, frozen: bool): Plan {
    if !Enabled(cfg) then DISABLED_PLAN
    else Conclude(MaxActions(cfg), MinConfidence(cfg), ps, frozen, Proposed(cfg, ev, ps), Objections(cfg, ev, ps),
                  Trust(cfg, ev, ps), ReviewNeeded(cfg, ev, ps))
  }

  /** One pass of the planner's loop: what the position adds to the plan. */
  method ReviewPosition(cfg: Config, ev: Evidence, p: Position)
    returns (actions: seq<Action>, reasons: seq<Reason>, cap: real, review: bool)
    ensures actions == ActionsFor(p, Examine(cfg, ev, p))
    ensures reasons == ReasonsFor(p, Examine(cfg, ev, p))
    ensures cap == CapFor(Examine(cfg, ev, p))
    ensures review == NeedsReview(Examine(cfg, ev, p))
  {
    actions, reasons, cap, review := [], [], 1.0, false;
    if p.symbol == "" {
      return;
    }
    var problems := Problems(cfg, ev, p);
    if problems != [] {
      review, cap := true, 0.4;
      reasons := AtSymbol(p.symbol, problems);
      actions := [Action(ManualReview, p.symbol, p.id, 0)];
      return;
    }
    if p.reconcileRequired && OpenBoth(ev, p) && ProtectiveEvidence(ev, p) && FreshEvidence(cfg, ev) {
      actions := [Action(ClearLocalFlag, p.symbol, p.id, AdoptableListId(ev, p))];
      return;
    }
    if cfg.allowFlatClose && LocalOpen(ev, p) && !ExchangeOpen(ev, p) && !HasOrders(ev, p.symbol)
       && !HasLists(ev, p.symbol) && RecentSell(ev, p.symbol) && FreshEvidence(cfg, ev)
    {
      actions := [Action(MarkFlat, p.symbol, p.id, 0)];
      return;
    }
    if OpenBoth(ev, p) && !ProtectiveEvidence(ev, p) {
      if !cfg.enableExchangeProtection {
        review := true;
        reasons := [At(p.symbol, ProtectionDisabled)];
        actions := [Action(ManualReview, p.symbol, p.id, 0)];
      } else if !cfg.allowProtectiveRebuild {
        reasons := [At(p.symbol, RebuildDisabled)];
        cap := 0.55;
      } else if p.symbol !in ev.validGeometry {
        review, cap := true, 0.42;
        reasons := [At(p.symbol, BadGeometry)];
        actions := [Action(ManualReview, p.symbol, p.id, 0)];
      } else {
        actions := [Action(RebuildProtection, p.symbol, p.id, 0)];
      }
      return;
    }
    if HasBlockingState(p) {
      reasons := [At(p.symbol, StateNeedsReview)];
      cap := 0.6;
    }
  }

  method BuildPlan(cfg: Config, ev: Evidence, ps: seq<Position>, frozen: bool) returns (plan: Plan)
    ensures plan == PlanFor(cfg, ev, ps, frozen)
  {
    if !Enabled(cfg) {
      return DISABLED_PLAN;
    }
    var actions: seq<Action> := [];
    var reasons: seq<Reason> := [];
    var confidence := BASE_CONFIDENCE;
    var review := false;
    if !FreshEvidence(cfg, ev) {
      reasons := reasons + [FreshEvidenceRequired];
      confidence := Min(confidence, 0.45);
    }
    if StreamConflict(ev) {
      reasons := reasons + [RestStreamConflict];
      review := true;
      confidence := Min(confidence, 0.35);
    }
    for i := 0 to |ps|
      invariant actions == Proposed(cfg, ev, ps[..i])
      invariant reasons == Objections(cfg, ev, ps[..i])
      invariant confidence == Trust(cfg, ev, ps[..i])
      invariant review == ReviewNeeded(cfg, ev, ps[..i])
    {
      var moreActions, moreReasons, cap, needsReview := ReviewPosition(cfg, ev, ps[i]);
      actions := actions + moreActions;
      reasons := reasons + moreReasons;
      confidence := Min(confidence, cap);
      review := review || needsReview;
      OneMorePosition(cfg, ev, ps, i);
    }
    assert ps[..|ps|] == ps;
    plan := Conclude(MaxActions(cfg), MinConfidence(cfg), ps, frozen, actions, reasons, confidence, review);
  }

  lemma OneMorePosition(cfg: Config, ev: Evidence, ps: seq<Position>, i: nat)
    requires i < |ps|
    ensures var f := Examine(cfg, ev, ps[i]);
            && Proposed(cfg, ev, ps[..i + 1]) == Proposed(cfg, ev, ps[..i]) + ActionsFor(ps[i], f)
            && Objections(cfg, ev, ps[..i + 1]) == Objections(cfg, ev, ps[..i]) + ReasonsFor(ps[i], f)
            && Trust(cfg, ev, ps[..i + 1]) == Min(Trust(cfg, ev, ps[..i]), CapFor(f))
            && (ReviewNeeded(cfg, ev, ps[..i + 1]) <==> ReviewNeeded(cfg, ev, ps[..i]) || NeedsReview(f))
  {
    assert ps[..i + 1][..i] == ps[..i] && ps[..i + 1] == ps[..i] + [ps[i]];
  }
}
