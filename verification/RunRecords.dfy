/** What a reconcile run records: its audit trail, and a closure for exactly the positions that leave. */
module RunRecords {
  import opened Common
  import opened Reconcile
  import opened ReconcileRun
  import opened Convergence

  function Reversed<T>(s: seq<T>): seq<T> {
    if s == [] then [] else Reversed(s[1..]) + [s[0]]
  }

  function Audits(st: State, actions: seq<Action>, broker: Broker): seq<Audit>
    decreases actions
  {
    if actions == [] then []
    else
      [Audit(actions[0].kind, actions[0].symbol, ResultOf(st, actions[0]))]
      + Audits(Step(st, actions[0], broker), actions[1..], broker)
  }

  /** The position that an action takes off the list, if it does. */
  function ClosedBy(st: State, a: Action): seq<Closure> {
    var i := FindPosition(st.positions, a);
    if a.kind.MarkFlat? && i < |st.positions| then [Closure(st.positions[i].symbol, st.positions[i].id)] else []
  }

  function Closed(st: State, actions: seq<Action>, broker: Broker): seq<Closure>
    decreases actions
  {
    if actions == [] then []
    else ClosedBy(st, actions[0]) + Closed(Step(st, actions[0], broker), actions[1..], broker)
  }

  lemma TakeTake<T>(s: seq<T>, t: seq<T>, n: nat)
    ensures Take(s + Take(t, n), n) == Take(s + t, n)
  {
  }

  lemma {:induction false} ReversedConcat<T>(s: seq<T>, t: seq<T>)
    ensures Reversed(s + t) == Reversed(t) + Reversed(s)
  {
    if s == [] {
      assert s + t == t;
    } else {
      assert (s + t)[1..] == s[1..] + t;
      ReversedConcat(s[1..], t);
    }
  }

  /** One more batch of records in front of a bounded history, newest first. */
  lemma OneMoreBatch<T>(first: seq<T>, rest: seq<T>, history: seq<T>, n: nat)
    requires |first| <= 1
    ensures Take(Reversed(rest) + Take(first + history, n), n) == Take(Reversed(first + rest) + history, n)
  {
    ReversedConcat(first, rest);
    assert Reversed(first) == first by {
      if first != [] {
        assert first[1..] == [];
      }
    }
    TakeTake(Reversed(rest), first + history, n);
    assert Reversed(rest) + (first + history) == Reversed(rest) + first + history;
  }

  /** The audit trail holds the run's audits, newest first, before what it held already: 50 in all. */
  lemma {:induction false} TrailRecordsRun(st: State, actions: seq<Action>, broker: Broker)
    ensures RunActions(st, actions, broker).trail
            == Take(Reversed(Audits(st, actions, broker)) + st.trail,
                    if actions == [] then |st.trail| else HISTORY_LIMIT)
    decreases actions
  {
    hide ResultOf, Effect, Reversed;
    if actions == [] {
      NothingReversed<Audit>();
      assert [] + st.trail == st.trail;
    } else {
      var a, rest := actions[0], actions[1..];
      var next := Step(st, a, broker);
      TrailRecordsRun(next, rest, broker);
      var audit := [Audit(a.kind, a.symbol, ResultOf(st, a))];
      OneMoreBatch(audit, Audits(next, rest, broker), st.trail, HISTORY_LIMIT);
      if rest == [] {
        NothingReversed<Audit>();
        assert [] + next.trail == next.trail;
      }
    }
  }

  lemma NothingReversed<T>()
    ensures Reversed<T>([]) == []
  {
  }

  /** The closure list likewise holds the positions the run closed. */
  lemma {:induction false} ClosuresRecordRun(st: State, actions: seq<Action>, broker: Broker)
    requires |st.closures| <= HISTORY_LIMIT
    ensures RunActions(st, actions, broker).closures
            == Take(Reversed(Closed(st, actions, broker)) + st.closures, HISTORY_LIMIT)
    decreases actions
  {
    hide ResultOf, Reversed, Cleared, FindPosition, ClosedBy;
    if actions == [] {
      NothingReversed<Closure>();
      assert [] + st.closures == st.closures;
    } else {
      var a, rest := actions[0], actions[1..];
      var next := Step(st, a, broker);
      StepCloses(st, a, broker);
      ClosuresRecordRun(next, rest, broker);
      OneMoreBatch(ClosedBy(st, a), Closed(next, rest, broker), st.closures, HISTORY_LIMIT);
    }
  }

  lemma StepCloses(st: State, a: Action, broker: Broker)
    requires |st.closures| <= HISTORY_LIMIT
    ensures |ClosedBy(st, a)| <= 1
    ensures Step(st, a, broker).closures == Take(ClosedBy(st, a) + st.closures, HISTORY_LIMIT)
  {
    hide FindPosition, Cleared, ResultOf;
    assert [] + st.closures == st.closures;
  }

  /** One action: a well-formed list stays so, and a position leaves it exactly when it is closed. */
  lemma StepLeavesIffClosed(st: State, a: Action, broker: Broker, p: Position) returns (kept: Position)
    requires WellFormed(st.positions) && p in st.positions
    ensures var after := Step(st, a, broker).positions;
            && WellFormed(after)
            && (Closure(p.symbol, p.id) in ClosedBy(st, a) ==> forall q :: q in after ==> q.id != p.id)
            && (Closure(p.symbol, p.id) !in ClosedBy(st, a) ==>
                kept in after && kept.id == p.id && kept.symbol == p.symbol)
  {
    hide Cleared, ResultOf, Without, WellFormed, FindPosition;
    var ps := st.positions;
    var i := FindPosition(ps, a);
    var k :| 0 <= k < |ps| && ps[k] == p;
    kept := p;
    if a.kind.ClearLocalFlag? && i < |ps| {
      SameKey(ps[i], a, broker);
      var after := ps[i := Cleared(ps[i], a, broker)];
      SameKeysStayWellFormed(ps, i, Cleared(ps[i], a, broker));
      kept := after[k];
      assert kept in after;
    } else if a.kind.MarkFlat? && i < |ps| {
      WithoutOne(ps, i);
      DropKeepsWellFormed(ps, i);
      DroppedPosition(ps, i, k);
    }
  }

  lemma SameKeysStayWellFormed(ps: seq<Position>, i: nat, q: Position)
    requires WellFormed(ps) && i < |ps| && q.id == ps[i].id && q.symbol == ps[i].symbol
    ensures WellFormed(ps[i := q])
  {
  }

  lemma DroppedPosition(ps: seq<Position>, i: nat, k: nat)
    requires WellFormed(ps) && i < |ps| && k < |ps|
    ensures var after := ps[..i] + ps[i + 1..];
            && (k != i ==> ps[k] in after && ps[k].id != ps[i].id)
            && (forall q :: q in after ==> q.id != ps[i].id)
  {
    var after := ps[..i] + ps[i + 1..];
    if k != i {
      assert after[if k < i then k else k - 1] == ps[k];
    }
  }

  /** No id appears that was not there. */
  lemma {:induction false} IdsFromStart(st: State, actions: seq<Action>, broker: Broker, id: nat)
    requires WellFormed(st.positions) && forall q :: q in st.positions ==> q.id != id
    ensures forall q :: q in RunActions(st, actions, broker).positions ==> q.id != id
    decreases actions
  {
    hide Step, WellFormed;
    if actions != [] {
      StepIds(st, actions[0], broker, id);
      IdsFromStart(Step(st, actions[0], broker), actions[1..], broker, id);
    }
  }

  lemma StepIds(st: State, a: Action, broker: Broker, id: nat)
    requires WellFormed(st.positions) && forall q :: q in st.positions ==> q.id != id
    ensures WellFormed(Step(st, a, broker).positions)
    ensures forall q :: q in Step(st, a, broker).positions ==> q.id != id
  {
    hide Cleared, ResultOf, Without, FindPosition;
    var ps := st.positions;
    var i := FindPosition(ps, a);
    if a.kind.ClearLocalFlag? && i < |ps| {
      SameKey(ps[i], a, broker);
    } else if a.kind.MarkFlat? && i < |ps| {
      WithoutOne(ps, i);
      DropKeepsWellFormed(ps, i);
    }
  }

  /** No position vanishes unrecorded and none is recorded that stays: over a whole run a position leaves
      the open list exactly when the run closed it. */
  lemma {:induction false} LeavesIffClosed(st: State, actions: seq<Action>, broker: Broker, p: Position)
    requires WellFormed(st.positions) && p in st.positions
    ensures (forall q :: q in RunActions(st, actions, broker).positions ==> q.id != p.id)
            <==> Closure(p.symbol, p.id) in Closed(st, actions, broker)
    decreases actions
  {
    hide Step, WellFormed, ClosedBy;
    if actions != [] {
      var a, rest := actions[0], actions[1..];
      var next := Step(st, a, broker);
      var kept := StepLeavesIffClosed(st, a, broker, p);
      if Closure(p.symbol, p.id) in ClosedBy(st, a) {
        IdsFromStart(next, rest, broker, p.id);
      } else {
        LeavesIffClosed(next, rest, broker, kept);
      }
    }
  }

  // ---------------------------------------------------------------------------------------------
  // The bot's own caller
  // ---------------------------------------------------------------------------------------------

  /** The bot hands over a plan without its review actions; the command line hands over all of it. */
  function SafeActions(actions: seq<Action>): seq<Action> {
    if actions == [] then []
    else (if actions[0].kind.ManualReview? then [] else [actions[0]]) + SafeActions(actions[1..])
  }

  ghost predicate SameButTrail(st: State, other: State) { st == other.(trail := st.trail) }

  lemma StepIgnoresTrail(st: State, other: State, a: Action, broker: Broker)
    requires SameButTrail(st, other)
    ensures SameButTrail(Step(st, a, broker), Step(other, a, broker))
    ensures a.kind.ManualReview? ==> SameButTrail(Step(st, a, broker), other)
  {
    hide Cleared, Without, FindPosition;
  }

  /** Both callers leave the same runtime, audit trails aside. */
  lemma {:induction false} ReviewsOnlyLeaveAudits(st: State, other: State, actions: seq<Action>, broker: Broker)
    requires SameButTrail(st, other)
    ensures SameButTrail(RunActions(st, actions, broker), RunActions(other, SafeActions(actions), broker))
    decreases actions
  {
    hide Step, SameButTrail;
    if actions != [] {
      var a, rest := actions[0], actions[1..];
      StepIgnoresTrail(st, other, a, broker);
      if a.kind.ManualReview? {
        assert SafeActions(actions) == SafeActions(rest);
        ReviewsOnlyLeaveAudits(Step(st, a, broker), other, rest, broker);
      } else {
        assert SafeActions(actions)[1..] == SafeActions(rest);
        ReviewsOnlyLeaveAudits(Step(st, a, broker), Step(other, a, broker), rest, broker);
      }
    }
  }
}
