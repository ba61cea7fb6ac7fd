/** What the scheduler grants a run's runner: the budgets of the dispatches it
    admits, added to the durable limits cycle after cycle. */
module Budgets {
  import opened Options

  type Unit = string

  const WORKSPACE_OPERATIONS: Unit := "workspace-operations"

  datatype Budget = Budget(unit: Unit, limit: nat)

  datatype Reservation = Reservation(unit: Unit, amount: nat)

  /** A task's scope and its identity; the authority keys scopes by task and generation. */
  datatype ScopeKey = ScopeKey(task: string, generation: nat)

  datatype Scope = Scope(key: ScopeKey, contextDigest: string, fence: nat)

  datatype Stored = Stored(scope: Scope, budgets: seq<Budget>, effect: Option<Reservation>)

  type Limits = map<Unit, nat>

  function Amount(limits: Limits, unit: Unit): nat { if unit in limits then limits[unit] else 0 }

  // ----- runnerBudgetAdditions

  function AddBudgets(limits: Limits, budgets: seq<Budget>): Limits {
    if budgets == [] then limits
    else
      var front := AddBudgets(limits, budgets[..|budgets| - 1]);
      var last := budgets[|budgets| - 1];
      front[last.unit := Amount(front, last.unit) + last.limit]
  }

  /** A dispatch's budgets, then its effect's unit if nothing has named that unit yet. */
  function AddDispatch(limits: Limits, d: Stored): Limits {
    var named := AddBudgets(limits, d.budgets);
    if d.effect.Some? && d.effect.value.unit !in named then named[d.effect.value.unit := d.effect.value.amount] else named
  }

  function Folded(ds: seq<Stored>): Limits {
    if ds == [] then map[] else AddDispatch(Folded(ds[..|ds| - 1]), ds[|ds| - 1])
  }

  function Additions(ds: seq<Stored>): Limits {
    if ds == [] then map[] else Folded(ds)[WORKSPACE_OPERATIONS := |ds| * 10]
  }

  method RunnerBudgetAdditions(dispatches: seq<Stored>) returns (budgets: Limits)
    ensures budgets == Additions(dispatches)
  {
    budgets := map[];
    for n := 0 to |dispatches|
      invariant budgets == Folded(dispatches[..n])
    {
      var d := dispatches[n];
      assert dispatches[..n + 1][..n] == dispatches[..n];
      ghost var before := budgets;
      for k := 0 to |d.budgets|
        invariant budgets == AddBudgets(before, d.budgets[..k])
      {
        assert d.budgets[..k + 1][..k] == d.budgets[..k];
        budgets := budgets[d.budgets[k].unit := Amount(budgets, d.budgets[k].unit) + d.budgets[k].limit];
      }
      assert d.budgets[..|d.budgets|] == d.budgets;
      if d.effect.Some? && d.effect.value.unit !in budgets {
        budgets := budgets[d.effect.value.unit := d.effect.value.amount];
      }
    }
    assert dispatches[..|dispatches|] == dispatches;
    if |dispatches| > 0 {
      budgets := budgets[WORKSPACE_OPERATIONS := |dispatches| * 10];
    }
  }

  // ----- what a unit receives

  function Named(budgets: seq<Budget>, unit: Unit): nat {
    if budgets == [] then 0
    else Named(budgets[..|budgets| - 1], unit) + (if budgets[|budgets| - 1].unit == unit then budgets[|budgets| - 1].limit else 0)
  }

  predicate Names(budgets: seq<Budget>, unit: Unit) { exists i :: 0 <= i < |budgets| && budgets[i].unit == unit }

  /** The budgets that name a unit, summed over all dispatches. */
  function Total(ds: seq<Stored>, unit: Unit): nat {
    if ds == [] then 0 else Total(ds[..|ds| - 1], unit) + Named(ds[|ds| - 1].budgets, unit)
  }

  predicate Mentions(d: Stored, unit: Unit) { Names(d.budgets, unit) || (d.effect.Some? && d.effect.value.unit == unit) }

  predicate Mentioned(ds: seq<Stored>, unit: Unit) { exists i :: 0 <= i < |ds| && Mentions(ds[i], unit) }

  /** What the first dispatch to mention a unit adds when only its effect does. */
  function Default(ds: seq<Stored>, unit: Unit): nat {
    if ds == [] then 0
    else if Mentioned(ds[..|ds| - 1], unit) then Default(ds[..|ds| - 1], unit)
    else if Mentions(ds[|ds| - 1], unit) && !Names(ds[|ds| - 1].budgets, unit) then ds[|ds| - 1].effect.value.amount
    else 0
  }

  lemma {:induction false} BudgetsAreSummed(limits: Limits, budgets: seq<Budget>, unit: Unit)
    ensures Amount(AddBudgets(limits, budgets), unit) == Amount(limits, unit) + Named(budgets, unit)
    ensures unit in AddBudgets(limits, budgets) <==> unit in limits || Names(budgets, unit)
  {
    if budgets != [] {
      var front := budgets[..|budgets| - 1];
      BudgetsAreSummed(limits, front, unit);
      NamesFront(budgets, unit);
    }
  }

  lemma NamesFront(budgets: seq<Budget>, unit: Unit)
    requires budgets != []
    ensures Names(budgets, unit) <==> Names(budgets[..|budgets| - 1], unit) || budgets[|budgets| - 1].unit == unit
  {
    var front := budgets[..|budgets| - 1];
    if Names(front, unit) {
      var i :| 0 <= i < |front| && front[i].unit == unit;
      assert budgets[i].unit == unit;
    }
    if Names(budgets, unit) {
      var i :| 0 <= i < |budgets| && budgets[i].unit == unit;
      assert i < |front| ==> front[i].unit == unit;
    }
  }

  lemma MentionedFront(ds: seq<Stored>, unit: Unit)
    requires ds != []
    ensures Mentioned(ds, unit) <==> Mentioned(ds[..|ds| - 1], unit) || Mentions(ds[|ds| - 1], unit)
  {
    var front := ds[..|ds| - 1];
    if Mentioned(front, unit) {
      var i :| 0 <= i < |front| && Mentions(front[i], unit);
      assert Mentions(ds[i], unit);
    }
    if Mentioned(ds, unit) {
      var i :| 0 <= i < |ds| && Mentions(ds[i], unit);
      assert i < |front| ==> Mentions(front[i], unit);
    }
  }

  lemma {:induction false} NamedOnlyIfNames(budgets: seq<Budget>, unit: Unit)
    requires !Names(budgets, unit)
    ensures Named(budgets, unit) == 0
  {
    if budgets != [] {
      NamesFront(budgets, unit);
      NamedOnlyIfNames(budgets[..|budgets| - 1], unit);
    }
  }

  lemma {:induction false} TotalOnlyIfMentioned(ds: seq<Stored>, unit: Unit)
    requires !Mentioned(ds, unit)
    ensures Total(ds, unit) == 0 && Default(ds, unit) == 0
  {
    if ds != [] {
      MentionedFront(ds, unit);
      NamedOnlyIfNames(ds[|ds| - 1].budgets, unit);
      TotalOnlyIfMentioned(ds[..|ds| - 1], unit);
    }
  }

  /** The loop's map holds, for each mentioned unit, its summed budgets and its default. */
  lemma {:induction false} FoldedIsTotal(ds: seq<Stored>, unit: Unit)
    ensures Amount(Folded(ds), unit) == Total(ds, unit) + Default(ds, unit)
    ensures unit in Folded(ds) <==> Mentioned(ds, unit)
  {
    if ds != [] {
      var front, last := ds[..|ds| - 1], ds[|ds| - 1];
      FoldedIsTotal(front, unit);
      BudgetsAreSummed(Folded(front), last.budgets, unit);
      MentionedFront(ds, unit);
      if !Mentioned(front, unit) {
        TotalOnlyIfMentioned(front, unit);
        if !Names(last.budgets, unit) { NamedOnlyIfNames(last.budgets, unit); }
      }
    }
  }

  lemma {:induction false} TotalOfBoth(a: seq<Stored>, b: seq<Stored>, unit: Unit)
    ensures Total(a + b, unit) == Total(a, unit) + Total(b, unit)
    ensures Mentioned(a + b, unit) <==> Mentioned(a, unit) || Mentioned(b, unit)
    ensures Default(a + b, unit) == if Mentioned(a, unit) then Default(a, unit) else Default(b, unit)
  {
    if b == [] {
      assert a + b == a;
      if !Mentioned(a, unit) { TotalOnlyIfMentioned(a, unit); }
    } else {
      assert (a + b)[..|a + b| - 1] == a + b[..|b| - 1];
      TotalOfBoth(a, b[..|b| - 1], unit);
      MentionedFront(a + b, unit);
      MentionedFront(b, unit);
    }
  }

  /** Additions over a concatenation are the sum of the additions, unit by unit,
      exactly when the later dispatches do not open the unit with an effect the
      earlier ones already mentioned. */
  lemma AdditionsConcatenate(a: seq<Stored>, b: seq<Stored>, unit: Unit)
    ensures Amount(Additions(a + b), unit) == Amount(Additions(a), unit) + Amount(Additions(b), unit)
            <==> (unit == WORKSPACE_OPERATIONS || !Mentioned(a, unit) || Default(b, unit) == 0)
  {
    if a == [] {
      assert a + b == b;
    } else if b == [] {
      assert a + b == a;
    } else {
      FoldedIsTotal(a, unit);
      FoldedIsTotal(b, unit);
      FoldedIsTotal(a + b, unit);
      TotalOfBoth(a, b, unit);
      if !Mentioned(a, unit) { TotalOnlyIfMentioned(a, unit); }
    }
  }

  /** A dispatch whose own budgets name its effect's unit never needs the default. */
  ghost predicate NamesItsEffect(d: Stored) { d.effect.Some? ==> Names(d.budgets, d.effect.value.unit) }

  ghost predicate NameTheirEffects(ds: seq<Stored>) { forall i :: 0 <= i < |ds| ==> NamesItsEffect(ds[i]) }

  lemma {:induction false} NoDefaultNeeded(ds: seq<Stored>, unit: Unit)
    requires NameTheirEffects(ds)
    ensures Default(ds, unit) == 0
  {
    if ds != [] {
      var front := ds[..|ds| - 1];
      assert NamesItsEffect(ds[|ds| - 1]);
      forall i | 0 <= i < |front| ensures NamesItsEffect(front[i]) { assert NamesItsEffect(ds[i]); }
      NoDefaultNeeded(front, unit);
    }
  }

  /** Otherwise the sum over two cycles can exceed the one-shot total. */
  lemma DefaultIsGrantedTwice(unit: Unit, amount: nat, a: Scope, b: Scope)
    requires unit != WORKSPACE_OPERATIONS && amount > 0
    ensures var x := [Stored(a, [], Some(Reservation(unit, amount)))];
            var y := [Stored(b, [], Some(Reservation(unit, amount)))];
            Amount(Additions(x), unit) + Amount(Additions(y), unit) == 2 * amount && Amount(Additions(x + y), unit) == amount
  {
    var x := [Stored(a, [], Some(Reservation(unit, amount)))];
    var y := [Stored(b, [], Some(Reservation(unit, amount)))];
    assert Mentions(x[0], unit) && Mentions(y[0], unit);
    assert x[..0] == [] && y[..0] == [];
    FoldedIsTotal(x, unit);
    FoldedIsTotal(y, unit);
    FoldedIsTotal(x + y, unit);
    TotalOfBoth(x, y, unit);
  }
}
