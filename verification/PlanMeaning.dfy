/** What the planner decides, said of the raw evidence: quantities, order and trade statuses, flags and
    numbers, without the planner's own predicates. */
module PlanMeaning {
  import opened Common
  import opened Reconcile

  // ---------------------------------------------------------------------------------------------
  // The evidence
  // ---------------------------------------------------------------------------------------------

  ghost predicate OpenOrder(ev: Evidence, o: Order, symbol: string) {
    o in ev.orders && o.symbol == symbol && o.status in {NoStatus, New, PartiallyFilled, PendingNew, Executing}
  }

  ghost predicate OpenList(ev: Evidence, l: OrderList, symbol: string) {
    l in ev.lists && l.symbol == symbol && l.status in {NoStatus, ExecStarted, Executing, New, PartiallyFilled}
  }

  ghost predicate BaseIs(ev: Evidence, symbol: string, asset: string) {
    asset == if symbol in ev.baseAsset then ev.baseAsset[symbol] else symbol
  }

  /** The account holds this much of the symbol's base asset. */
  ghost predicate Held(ev: Evidence, symbol: string, total: real) {
    forall asset :: BaseIs(ev, symbol, asset) ==>
                      if asset in ev.account.balances then ev.account.balances[asset] == total else total == 0.0
  }

  /** The rule that replaces the step size, if the exchange states one. */
  function DustOrStep(rules: Rules): real {
    match rules.dustThresholdQty
    case Some(dust) => dust
    case None => rules.stepSize
  }

  /** More than every threshold below which a quantity is dust. */
  ghost predicate AboveDust(ev: Evidence, symbol: string, x: real) {
    && x > 0.000000001
    && (symbol in ev.rules ==> x > ev.rules[symbol].minQty && x > DustOrStep(ev.rules[symbol]))
  }

  /** No more than the largest threshold of all, the configured one included. */
  ghost predicate Tolerated(cfg: Config, ev: Evidence, symbol: string, gap: real) {
    || gap <= 0.000000001 || gap <= cfg.qtyMismatchTolerance
    || (symbol in ev.rules && (gap <= ev.rules[symbol].minQty || gap <= DustOrStep(ev.rules[symbol])))
  }

  ghost predicate BothOpen(ev: Evidence, p: Position, total: real) {
    AboveDust(ev, p.symbol, p.quantity) && AboveDust(ev, p.symbol, total)
  }

  ghost predicate Shielded(ev: Evidence, p: Position) {
    || p.protectiveListId != 0 || p.ocoListId != 0
    || (exists l :: OpenList(ev, l, p.symbol))
    || exists o :: OpenOrder(ev, o, p.symbol) && o.side == Sell
  }

  ghost predicate Flagged(p: Position) {
    p.reconcileRequired || p.manualReviewRequired || p.lifecycle in {ManualReviewState, ReconcileRequiredState}
  }

  ghost predicate Fresh(ev: Evidence) {
    && !ev.stream.stale && !ev.account.stale
    && (ev.stream.isFresh || ev.stream.connected || ev.account.isFresh || ev.account.timestamped)
  }

  ghost predicate Contradicting(ev: Evidence) {
    || ev.stream.conflict || ev.account.conflict
    || exists asset :: asset in ev.stream.balances && asset in ev.account.balances
                       && (ev.stream.balances[asset] > ev.account.balances[asset] + 0.00000001
                           || ev.account.balances[asset] > ev.stream.balances[asset] + 0.00000001)
  }

  ghost predicate SwitchedOn(cfg: Config) {
    match cfg.autoReconcileEnabled
    case Some(on) => on
    case None => cfg.enableAutoReconcile != Some(false)
  }

  /** `n` is the configured number of actions, rounded half up, and at least one. */
  ghost predicate LimitIs(cfg: Config, n: nat) {
    && n >= 1
    && (if cfg.maxActionsPerRun < 1.5 then n == 1
        else n as real - 0.5 <= cfg.maxActionsPerRun < n as real + 0.5)
  }

  // ---------------------------------------------------------------------------------------------
  // What is wrong with a position
  // ---------------------------------------------------------------------------------------------

  ghost predicate DoubtfulTrade(ev: Evidence, symbol: string) {
    exists t :: t in ev.trades && t.symbol == symbol && (t.status in {Unknown, Expired, Rejected} || t.ambiguous)
  }

  ghost predicate Sold(ev: Evidence, symbol: string) {
    exists t :: t in ev.trades && t.symbol == symbol && t.side == Sell
                && t.status in {NoTradeStatus, Filled, PartFilled}
  }

  ghost predicate HalfFilled(ev: Evidence, symbol: string) {
    exists o :: OpenOrder(ev, o, symbol) && o.status == PartiallyFilled
  }

  ghost predicate WrongSide(ev: Evidence, symbol: string) {
    exists o :: OpenOrder(ev, o, symbol) && o.side != Sell
  }

  /** Open on both sides, and one side exceeds the other by more than any tolerance. */
  ghost predicate Mismatched(cfg: Config, ev: Evidence, p: Position, total: real) {
    && BothOpen(ev, p, total)
    && (!Tolerated(cfg, ev, p.symbol, p.quantity - total) || !Tolerated(cfg, ev, p.symbol, total - p.quantity))
  }

  ghost predicate Troubled(cfg: Config, ev: Evidence, p: Position, total: real) {
    || DoubtfulTrade(ev, p.symbol) || HalfFilled(ev, p.symbol) || WrongSide(ev, p.symbol)
    || Mismatched(cfg, ev, p, total)
  }

  /** Held locally, gone from the exchange with nothing open there, and a sale that explains it. */
  ghost predicate SoldOut(ev: Evidence, p: Position, total: real) {
    && AboveDust(ev, p.symbol, p.quantity) && !AboveDust(ev, p.symbol, total)
    && (forall o :: !OpenOrder(ev, o, p.symbol)) && (forall l :: !OpenList(ev, l, p.symbol))
    && Sold(ev, p.symbol)
  }

  ghost predicate Naked(ev: Evidence, p: Position, total: real) { BothOpen(ev, p, total) && !Shielded(ev, p) }

  lemma HeldIsTotal(ev: Evidence, symbol: string, total: real)
    ensures Held(ev, symbol, total) <==> total == ExchangeTotal(ev, symbol)
  {
    var asset := if symbol in ev.baseAsset then ev.baseAsset[symbol] else symbol;
    assert BaseIs(ev, symbol, asset);
  }

  lemma DustMeaning(ev: Evidence, symbol: string, x: real)
    ensures x > DustThreshold(ev, symbol) <==> AboveDust(ev, symbol, x)
  {
  }

  lemma OpenMeaning(ev: Evidence, p: Position, total: real)
    requires Held(ev, p.symbol, total)
    ensures OpenBoth(ev, p) <==> BothOpen(ev, p, total)
    ensures LocalOpen(ev, p) <==> AboveDust(ev, p.symbol, p.quantity)
    ensures ExchangeOpen(ev, p) <==> AboveDust(ev, p.symbol, total)
  {
    HeldIsTotal(ev, p.symbol, total);
    DustMeaning(ev, p.symbol, p.quantity);
    DustMeaning(ev, p.symbol, total);
  }

  lemma ToleranceMeaning(cfg: Config, ev: Evidence, p: Position, total: real)
    requires Held(ev, p.symbol, total)
    ensures OpenBoth(ev, p) && !WithinTolerance(cfg, ev, p) <==> Mismatched(cfg, ev, p, total)
    ensures OpenBoth(ev, p) <==> BothOpen(ev, p, total)
    ensures LocalOpen(ev, p) <==> AboveDust(ev, p.symbol, p.quantity)
    ensures ExchangeOpen(ev, p) <==> AboveDust(ev, p.symbol, total)
  {
    HeldIsTotal(ev, p.symbol, total);
    OpenMeaning(ev, p, total);
    assert forall gap :: gap <= Max(DustThreshold(ev, p.symbol), cfg.qtyMismatchTolerance) <==>
                         Tolerated(cfg, ev, p.symbol, gap);
  }

  lemma OrderMeaning(ev: Evidence, o: Order, symbol: string)
    ensures o in ev.orders && ActiveOrder(o, symbol) <==> OpenOrder(ev, o, symbol)
  {
  }

  lemma OrdersMeaning(ev: Evidence, symbol: string)
    ensures HasOrders(ev, symbol) <==> exists o :: OpenOrder(ev, o, symbol)
    ensures HasSellOrder(ev, symbol) <==> exists o :: OpenOrder(ev, o, symbol) && o.side == Sell
    ensures HasPartialFill(ev, symbol) <==> HalfFilled(ev, symbol)
    ensures HasUnexpectedSide(ev, symbol) <==> WrongSide(ev, symbol)
  {
    hide ActiveOrder, OpenOrder;
    forall o
      ensures o in ev.orders && ActiveOrder(o, symbol) <==> OpenOrder(ev, o, symbol)
    {
      OrderMeaning(ev, o, symbol);
    }
  }

  lemma ListsMeaning(ev: Evidence, symbol: string)
    ensures HasLists(ev, symbol) <==> exists l :: OpenList(ev, l, symbol)
  {
    forall l
      ensures l in ev.lists && ActiveList(l, symbol) <==> OpenList(ev, l, symbol)
    {
    }
  }

  lemma TradesMeaning(ev: Evidence, symbol: string)
    ensures ContradictoryTrade(ev, symbol) <==> DoubtfulTrade(ev, symbol)
    ensures RecentSell(ev, symbol) <==> Sold(ev, symbol)
  {
  }

  lemma EvidenceMeaning(cfg: Config, ev: Evidence)
    ensures FreshEvidence(cfg, ev) <==> Fresh(ev)
    ensures StreamConflict(ev) <==> Contradicting(ev)
  {
    FreshEvidenceIsRequired(cfg, ev);
  }

  lemma ConfigMeaning(cfg: Config, n: nat)
    ensures Enabled(cfg) <==> SwitchedOn(cfg)
    ensures LimitIs(cfg, n) <==> n == MaxActions(cfg)
    ensures MinConfidence(cfg) <= BASE_CONFIDENCE <==> cfg.minConfidence <= 0.96
  {
  }

  // ---------------------------------------------------------------------------------------------
  // One position
  // ---------------------------------------------------------------------------------------------

  /** Which conclusion the planner draws about a position, from what the evidence says of it. */
  lemma FindingIff(cfg: Config, ev: Evidence, p: Position, total: real)
    requires Held(ev, p.symbol, total)
    ensures var f := Examine(cfg, ev, p);
            && (f.Skipped? <==> p.symbol == "")
            && (p.symbol != "" ==>
                  var calm := !Troubled(cfg, ev, p, total);
                  var clears := p.reconcileRequired && BothOpen(ev, p, total) && Shielded(ev, p) && Fresh(ev);
                  var flat := cfg.allowFlatClose && SoldOut(ev, p, total) && Fresh(ev);
                  var naked := calm && Naked(ev, p, total);
                  && (f.Conflicting? <==> Troubled(cfg, ev, p, total))
                  && (f.Clearable? <==> calm && clears)
                  && (f.Flat? <==> calm && flat)
                  && (f.NoProtectionAllowed? <==> naked && !cfg.enableExchangeProtection)
                  && (f.NoRebuildAllowed? <==> naked && cfg.enableExchangeProtection && !cfg.allowProtectiveRebuild)
                  && (f.InvalidGeometry? <==> naked && cfg.enableExchangeProtection && cfg.allowProtectiveRebuild
                                              && p.symbol !in ev.validGeometry)
                  && (f.Rebuildable? <==> naked && cfg.enableExchangeProtection && cfg.allowProtectiveRebuild
                                          && p.symbol in ev.validGeometry)
                  && (f.StillFlagged? <==> calm && !clears && !flat && !Naked(ev, p, total) && Flagged(p)))
  {
    hide ContradictoryTrade, HasPartialFill, HasUnexpectedSide, HasOrders, HasLists, HasSellOrder, RecentSell;
    hide LocalOpen, ExchangeOpen, WithinTolerance, FreshEvidence, Held, AboveDust, Mismatched, Fresh;
    hide DoubtfulTrade, Sold, HalfFilled, WrongSide, OpenOrder, OpenList;
    ToleranceMeaning(cfg, ev, p, total);
    OrdersMeaning(ev, p.symbol);
    ListsMeaning(ev, p.symbol);
    TradesMeaning(ev, p.symbol);
    EvidenceMeaning(cfg, ev);
  }

  /** The order list that a cleared position adopts: its own, or the first one open for its symbol. */
  lemma AdoptedIff(cfg: Config, ev: Evidence, p: Position, id: int)
    requires Examine(cfg, ev, p).Clearable?
    ensures var own := if p.protectiveListId != 0 then p.protectiveListId else p.ocoListId;
            Examine(cfg, ev, p).adoptListId == id <==>
            if own != 0 then id == own
            else if forall l :: !OpenList(ev, l, p.symbol) then id == 0
            else exists k :: 0 <= k < |ev.lists| && OpenList(ev, ev.lists[k], p.symbol) && ev.lists[k].listId == id
                             && forall j :: 0 <= j < k ==> !OpenList(ev, ev.lists[j], p.symbol)
  {
    var first := FirstList(ev, ev.lists, p.symbol);
    assert first < |ev.lists| ==> ev.lists[first] in ev.lists;
    assert forall l :: OpenList(ev, l, p.symbol) ==> exists k :: 0 <= k < |ev.lists| && ev.lists[k] == l;
  }

  lemma {:induction false} FirstList(ev: Evidence, lists: seq<OrderList>, symbol: string) returns (k: nat)
    requires forall l :: l in lists ==> l in ev.lists
    ensures k <= |lists|
    ensures forall j :: 0 <= j < k ==> !OpenList(ev, lists[j], symbol)
    ensures k < |lists| ==> OpenList(ev, lists[k], symbol) && FirstListId(lists, symbol) == lists[k].listId
    ensures k == |lists| ==> FirstListId(lists, symbol) == 0
  {
    if lists == [] {
      k := 0;
    } else {
      assert lists[0] in lists;
      if OpenList(ev, lists[0], symbol) {
        k := 0;
      } else {
        k := FirstList(ev, lists[1..], symbol);
        k := k + 1;
      }
    }
  }
}
