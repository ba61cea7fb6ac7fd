/** Budgets across scheduling cycles: what the runner's durable limits are after
    any sequence of cycles, and which scopes they were granted for. */
module BudgetCycles {
  import opened Options
  import opened Budgets

  /** The runner's scopes and limits. `granted` and `allowed` record the past: the
      dispatches whose budgets entered a limit, and what people added. */
  datatype Runner = Runner(scopes: map<ScopeKey, Scope>, limits: Option<Limits>, granted: seq<Stored>, allowed: Limits)

  const UNCONFIGURED: Runner := Runner(map[], None, [], map[])

  predicate IsAdmitted(scopes: map<ScopeKey, Scope>, scope: Scope) { exists key :: key in scopes && scopes[key] == scope }

  /** The dispatches whose scope the runner does not list yet. */
  function NewOnes(scopes: map<ScopeKey, Scope>, ds: seq<Stored>): seq<Stored> {
    if ds == [] then []
    else NewOnes(scopes, ds[..|ds| - 1]) + (if IsAdmitted(scopes, ds[|ds| - 1].scope) then [] else [ds[|ds| - 1]])
  }

  /** The authority refuses a task presented twice and one it holds another scope for. */
  predicate Admissible(scopes: map<ScopeKey, Scope>, ds: seq<Stored>) {
    && (forall i, j :: 0 <= i < j < |ds| ==> ds[i].scope.key != ds[j].scope.key)
    && forall i :: 0 <= i < |ds| && ds[i].scope.key in scopes ==> scopes[ds[i].scope.key] == ds[i].scope
  }

  function WithScopes(scopes: map<ScopeKey, Scope>, ds: seq<Stored>): map<ScopeKey, Scope> {
    if ds == [] then scopes else WithScopes(scopes, ds[..|ds| - 1])[ds[|ds| - 1].scope.key := ds[|ds| - 1].scope]
  }

  function Raised(limits: Limits, more: Limits): Limits {
    map unit | unit in limits.Keys + more.Keys :: Amount(limits, unit) + Amount(more, unit)
  }

  /** One cycle; a refusal leaves the runner as it was. */
  function Configured(r: Runner, ds: seq<Stored>): Runner {
    if !Admissible(r.scopes, ds) then r
    else if r.limits.None? then r.(scopes := WithScopes(r.scopes, ds), limits := Some(Additions(ds)), granted := ds, allowed := map[])
    else
      var added := NewOnes(r.scopes, ds);
      r.(scopes := WithScopes(r.scopes, ds), limits := Some(Raised(r.limits.value, Additions(added))), granted := r.granted + added)
  }

  class RunnerBudgets {
    var scopes: map<ScopeKey, Scope>
    var limits: Option<Limits>
    ghost var granted: seq<Stored>
    ghost var allowed: Limits

    ghost function State(): Runner
      reads this
    {
      Runner(scopes, limits, granted, allowed)
    }

    constructor ()
      ensures State() == UNCONFIGURED
    {
      scopes, limits, granted, allowed := map[], None, [], map[];
    }

    method ConfigureRunner(dispatches: seq<Stored>) returns (refused: bool)
      modifies this
      ensures State() == Configured(old(State()), dispatches)
      ensures refused == !Admissible(old(scopes), dispatches)
    {
      hide Admissible, Additions, NewOnes, Raised, WithScopes;
      var additions := RunnerBudgetAdditions(dispatches);
      if !Admissible(scopes, dispatches) {
        return true;
      }
      refused := false;
      if limits.None? {
        limits := Some(additions);
        granted, allowed := dispatches, map[];
      } else {
        var added := SelectNew(dispatches);
        var more := RunnerBudgetAdditions(added);
        var budgets := AddUnits(limits.value, more);
        limits := Some(budgets);
        granted := granted + added;
      }
      AdmitScopes(dispatches);
    }

    static method AddUnits(limits: Limits, more: Limits) returns (budgets: Limits)
      ensures budgets == Raised(limits, more)
    {
      hide Amount, Raised;
      budgets := limits;
      var todo := more.Keys;
      while todo != {}
        invariant todo <= more.Keys
        invariant forall unit :: unit in budgets <==> unit in limits || (unit in more && unit !in todo)
        invariant forall unit :: unit in budgets ==>
                    budgets[unit] == if unit in more && unit !in todo then Amount(limits, unit) + more[unit] else limits[unit]
        decreases |todo|
      {
        var unit :| unit in todo;
        todo := todo - {unit};
        SameAmount(budgets, limits, unit);
        budgets := budgets[unit := Amount(budgets, unit) + more[unit]];
      }
      AllUnitsRaised(limits, more, budgets);
    }

    method SelectNew(dispatches: seq<Stored>) returns (added: seq<Stored>)
      ensures added == NewOnes(scopes, dispatches)
    {
      added := [];
      for n := 0 to |dispatches|
        invariant added == NewOnes(scopes, dispatches[..n])
      {
        assert dispatches[..n + 1][..n] == dispatches[..n];
        if !IsAdmitted(scopes, dispatches[n].scope) {
          added := added + [dispatches[n]];
        }
      }
      assert dispatches[..|dispatches|] == dispatches;
    }

    method AdmitScopes(dispatches: seq<Stored>)
      modifies this`scopes
      ensures scopes == WithScopes(old(scopes), dispatches)
    {
      for n := 0 to |dispatches|
        invariant scopes == WithScopes(old(scopes), dispatches[..n])
      {
        assert dispatches[..n + 1][..n] == dispatches[..n];
        scopes := scopes[dispatches[n].scope.key := dispatches[n].scope];
      }
      assert dispatches[..|dispatches|] == dispatches;
    }
  }

  lemma SameAmount(budgets: Limits, limits: Limits, unit: Unit)
    requires (unit in budgets <==> unit in limits) && (unit in budgets ==> budgets[unit] == limits[unit])
    ensures Amount(budgets, unit) == Amount(limits, unit)
  {
  }

  lemma AllUnitsRaised(limits: Limits, more: Limits, budgets: Limits)
    requires forall unit :: unit in budgets <==> unit in limits || unit in more
    requires forall unit :: unit in budgets ==> budgets[unit] == if unit in more then Amount(limits, unit) + more[unit] else limits[unit]
    ensures budgets == Raised(limits, more)
  {
  }

  // ----- any sequence of cycles

  /** Besides cycles, the store the runner reads its scopes from may be told of a
      scope by another component, and a person may grant an allowance. */
  datatype Event = Cycle(dispatches: seq<Stored>) | Registered(scope: Scope) | Allowance(unit: Unit, amount: nat)

  function Apply(r: Runner, e: Event): Runner {
    match e
    case Cycle(ds) => Configured(r, ds)
    case Registered(scope) => r.(scopes := r.scopes[scope.key := scope])
    case Allowance(unit, amount) =>
      if r.limits.None? then r
      else r.(limits := Some(Raised(r.limits.value, map[unit := amount])), allowed := Raised(r.allowed, map[unit := amount]))
  }

  function After(r: Runner, events: seq<Event>): Runner {
    if events == [] then r else Apply(After(r, events[..|events| - 1]), events[|events| - 1])
  }

  ghost predicate NamesEffects(e: Event) { e.Cycle? ==> NameTheirEffects(e.dispatches) }

  /** Each scope under its own key; the granted dispatches are for distinct listed
      tasks; each limit is what was granted at once plus what people added. */
  ghost predicate RunnerOk(r: Runner) {
    && OwnKeys(r.scopes)
    && DistinctTasks(r.granted)
    && (forall i :: 0 <= i < |r.granted| ==> r.granted[i].scope.key in r.scopes)
    && NameTheirEffects(r.granted)
    && (r.limits.None? ==> r.granted == [] && r.allowed == map[])
    && (r.limits.Some? ==> LimitsAreExact(r))
  }

  ghost predicate DistinctTasks(ds: seq<Stored>) { forall i, j :: 0 <= i < j < |ds| ==> ds[i].scope.key != ds[j].scope.key }

  ghost predicate LimitsAreExact(r: Runner)
    requires r.limits.Some?
  {
    forall unit: Unit {:trigger Amount(r.limits.value, unit)} ::
      Amount(r.limits.value, unit) == Amount(Additions(r.granted), unit) + Amount(r.allowed, unit)
  }

  predicate Presents(ds: seq<Stored>, scope: Scope) { exists i :: 0 <= i < |ds| && ds[i].scope == scope }

  lemma {:induction false} WithScopesAt(scopes: map<ScopeKey, Scope>, ds: seq<Stored>, key: ScopeKey)
    ensures var all := WithScopes(scopes, ds);
            && (key in scopes ==> key in all)
            && (key in all ==> (key in scopes && all[key] == scopes[key]) || (Presents(ds, all[key]) && all[key].key == key))
  {
    if ds != [] {
      var front, last := ds[..|ds| - 1], ds[|ds| - 1];
      WithScopesAt(scopes, front, key);
      var all := WithScopes(scopes, ds);
      if key == last.scope.key {
        assert ds[|ds| - 1].scope == all[key];
      } else if key in all && Presents(front, all[key]) {
        var i :| 0 <= i < |front| && front[i].scope == all[key];
        assert ds[i].scope == all[key];
      }
    }
  }

  lemma {:induction false} PresentedIsListed(scopes: map<ScopeKey, Scope>, ds: seq<Stored>, i: nat)
    requires i < |ds| && DistinctTasks(ds)
    ensures ds[i].scope.key in WithScopes(scopes, ds) && WithScopes(scopes, ds)[ds[i].scope.key] == ds[i].scope
  {
    if i < |ds| - 1 {
      assert ds[..|ds| - 1][i] == ds[i];
      PresentedIsListed(scopes, ds[..|ds| - 1], i);
    }
  }

  ghost predicate OwnKeys(scopes: map<ScopeKey, Scope>) { forall key :: key in scopes ==> scopes[key].key == key }

  /** Listed scopes stay, presented ones are listed, and nothing else is. */
  lemma AdmittingScopes(scopes: map<ScopeKey, Scope>, ds: seq<Stored>)
    requires Admissible(scopes, ds) && OwnKeys(scopes)
    ensures var all := WithScopes(scopes, ds);
            && OwnKeys(all)
            && (forall key :: key in scopes ==> key in all && all[key] == scopes[key])
            && (forall i :: 0 <= i < |ds| ==> ds[i].scope.key in all && all[ds[i].scope.key] == ds[i].scope)
            && forall key :: key in all && key !in scopes ==> Presents(ds, all[key])
  {
    hide WithScopes;
    var all := WithScopes(scopes, ds);
    forall key | key in all || key in scopes
      ensures key in all && (if key in scopes then all[key] == scopes[key] else Presents(ds, all[key]) && all[key].key == key)
    {
      WithScopesAt(scopes, ds, key);
    }
    forall i | 0 <= i < |ds| ensures ds[i].scope.key in all && all[ds[i].scope.key] == ds[i].scope {
      PresentedIsListed(scopes, ds, i);
    }
  }

  lemma OneMoreScope(scopes: map<ScopeKey, Scope>, front: seq<Stored>, last: Stored)
    requires Admissible(scopes, front + [last]) && OwnKeys(scopes)
    ensures Admissible(scopes, front) && forall d :: d in front ==> d.scope.key != last.scope.key
    ensures NewOnes(scopes, front + [last]) == NewOnes(scopes, front) + (if last.scope.key in scopes then [] else [last])
  {
    hide NewOnes;
    var ds := front + [last];
    assert ds[..|front|] == front && ds[|front|] == last;
    assert forall i :: 0 <= i < |front| ==> ds[i] == front[i];
    assert last.scope.key in scopes <==> IsAdmitted(scopes, last.scope);
    NewOnesUnfold(scopes, front, last);
  }

  lemma NewOnesUnfold(scopes: map<ScopeKey, Scope>, front: seq<Stored>, last: Stored)
    ensures NewOnes(scopes, front + [last]) == NewOnes(scopes, front) + (if IsAdmitted(scopes, last.scope) then [] else [last])
  {
    hide IsAdmitted;
    var ds := front + [last];
    assert ds[..|ds| - 1] == front && ds[|ds| - 1] == last;
  }

  lemma {:induction false} NewOnesAreNew(scopes: map<ScopeKey, Scope>, ds: seq<Stored>)
    requires Admissible(scopes, ds) && OwnKeys(scopes)
    ensures var added := NewOnes(scopes, ds);
            && (forall i :: 0 <= i < |added| ==> added[i] in ds && added[i].scope.key !in scopes)
            && DistinctTasks(added)
            && forall i :: 0 <= i < |ds| && ds[i].scope.key !in scopes ==> ds[i] in added
  {
    if ds != [] {
      hide NewOnes, Admissible, OwnKeys;
      var front, last := ds[..|ds| - 1], ds[|ds| - 1];
      assert ds == front + [last];
      OneMoreScope(scopes, front, last);
      NewOnesAreNew(scopes, front);
    }
  }

  lemma GrantsAddUp(a: seq<Stored>, b: seq<Stored>, unit: Unit)
    requires NameTheirEffects(a) && NameTheirEffects(b)
    ensures NameTheirEffects(a + b)
    ensures Amount(Additions(a + b), unit) == Amount(Additions(a), unit) + Amount(Additions(b), unit)
  {
    NoDefaultNeeded(b, unit);
    AdditionsConcatenate(a, b, unit);
    forall i | 0 <= i < |a + b| ensures NamesItsEffect((a + b)[i]) {
      if i < |a| { assert NamesItsEffect(a[i]); } else { assert NamesItsEffect(b[i - |a|]); }
    }
  }

  lemma RaisingAdds(limits: Limits, more: Limits, unit: Unit)
    ensures Amount(Raised(limits, more), unit) == Amount(limits, unit) + Amount(more, unit)
  {
  }

  function AddedBy(r: Runner, ds: seq<Stored>): seq<Stored> { if r.limits.None? then ds else NewOnes(r.scopes, ds) }

  lemma AddedNameEffects(r: Runner, ds: seq<Stored>)
    requires NameTheirEffects(ds) && Admissible(r.scopes, ds) && OwnKeys(r.scopes)
    ensures NameTheirEffects(AddedBy(r, ds))
  {
    NewOnesAreNew(r.scopes, ds);
    var added := AddedBy(r, ds);
    forall i | 0 <= i < |added| ensures NamesItsEffect(added[i]) {
      var k :| 0 <= k < |ds| && ds[k] == added[i];
      assert NamesItsEffect(ds[k]);
    }
  }

  lemma CycleKeepsLimits(r: Runner, ds: seq<Stored>)
    requires RunnerOk(r) && NameTheirEffects(ds) && Admissible(r.scopes, ds)
    ensures var s := Configured(r, ds);
            s.granted == r.granted + AddedBy(r, ds) && NameTheirEffects(s.granted) && s.limits.Some? && LimitsAreExact(s)
  {
    AddedNameEffects(r, ds);
    hide Additions, NameTheirEffects, Raised, Amount, Admissible, WithScopes, NewOnes, DistinctTasks, OwnKeys;
    var s := Configured(r, ds);
    var added := AddedBy(r, ds);
    assert s.granted == r.granted + added;
    forall unit: Unit ensures Amount(s.limits.value, unit) == Amount(Additions(s.granted), unit) + Amount(s.allowed, unit) {
      GrantsAddUp(r.granted, added, unit);
      NothingIsGranted(unit);
      if r.limits.None? {
        NothingIsAllowed(unit);
      } else {
        RaisingAdds(r.limits.value, Additions(added), unit);
        assert Amount(r.limits.value, unit) == Amount(Additions(r.granted), unit) + Amount(r.allowed, unit);
      }
    }
    GrantsAddUp(r.granted, added, WORKSPACE_OPERATIONS);
  }

  lemma CycleKeepsTasks(r: Runner, ds: seq<Stored>)
    requires OwnKeys(r.scopes) && DistinctTasks(r.granted) && Admissible(r.scopes, ds)
    requires forall i :: 0 <= i < |r.granted| ==> r.granted[i].scope.key in r.scopes
    requires r.limits.None? ==> r.granted == []
    ensures var s := Configured(r, ds);
            OwnKeys(s.scopes) && DistinctTasks(s.granted) && forall i :: 0 <= i < |s.granted| ==> s.granted[i].scope.key in s.scopes
  {
    hide Additions, Raised, WithScopes, NewOnes, OwnKeys, Admissible, DistinctTasks;
    var s, added := Configured(r, ds), AddedBy(r, ds);
    assert s.granted == r.granted + added && s.scopes == WithScopes(r.scopes, ds);
    AddedAreListed(r, ds);
    ListedStay(r.scopes, ds);
    TogetherDistinct(r.granted, added, r.scopes);
    forall i | 0 <= i < |s.granted| ensures s.granted[i].scope.key in s.scopes {
      if i < |r.granted| {
        assert s.granted[i] == r.granted[i];
      } else {
        assert s.granted[i] == added[i - |r.granted|];
      }
    }
  }

  lemma ListedStay(scopes: map<ScopeKey, Scope>, ds: seq<Stored>)
    requires Admissible(scopes, ds) && OwnKeys(scopes)
    ensures OwnKeys(WithScopes(scopes, ds)) && forall key :: key in scopes ==> key in WithScopes(scopes, ds)
  {
    hide Admissible, WithScopes;
    AdmittingScopes(scopes, ds);
  }

  lemma AddedAreListed(r: Runner, ds: seq<Stored>)
    requires OwnKeys(r.scopes) && Admissible(r.scopes, ds)
    ensures var added := AddedBy(r, ds);
            && DistinctTasks(added)
            && (forall i :: 0 <= i < |added| ==> added[i].scope.key in WithScopes(r.scopes, ds))
            && (r.limits.Some? ==> forall i :: 0 <= i < |added| ==> added[i].scope.key !in r.scopes)
  {
    assert DistinctTasks(ds);
    hide Admissible, WithScopes, NewOnes, OwnKeys, DistinctTasks;
    AdmittingScopes(r.scopes, ds);
    NewOnesAreNew(r.scopes, ds);
    var added := AddedBy(r, ds);
    forall i | 0 <= i < |added| ensures added[i].scope.key in WithScopes(r.scopes, ds) {
      var k :| 0 <= k < |ds| && ds[k] == added[i];
    }
  }

  lemma TogetherDistinct(a: seq<Stored>, b: seq<Stored>, scopes: map<ScopeKey, Scope>)
    requires DistinctTasks(a) && DistinctTasks(b)
    requires a == [] || forall i :: 0 <= i < |b| ==> b[i].scope.key !in scopes
    requires forall i :: 0 <= i < |a| ==> a[i].scope.key in scopes
    ensures DistinctTasks(a + b)
  {
    var all := a + b;
    forall i, j | 0 <= i < j < |all| ensures all[i].scope.key != all[j].scope.key {
      if j >= |a| && i < |a| { assert b[j - |a|].scope.key !in scopes; }
    }
  }

  lemma CycleKeeps(r: Runner, ds: seq<Stored>)
    requires RunnerOk(r) && NameTheirEffects(ds)
    ensures RunnerOk(Configured(r, ds))
  {
    hide Additions, NameTheirEffects, Raised, Amount, WithScopes, NewOnes, DistinctTasks, OwnKeys, LimitsAreExact;
    if Admissible(r.scopes, ds) {
      CycleKeepsLimits(r, ds);
      CycleKeepsTasks(r, ds);
    }
  }

  lemma NothingIsAllowed(unit: Unit)
    ensures Amount(map[], unit) == 0
  {
  }

  lemma NothingIsGranted(unit: Unit)
    ensures Amount(Additions([]), unit) == 0
  {
  }

  lemma AllowanceKeeps(r: Runner, unit: Unit, amount: nat)
    requires RunnerOk(r)
    ensures RunnerOk(Apply(r, Allowance(unit, amount)))
  {
    hide Additions, NameTheirEffects, Raised, Amount;
    if r.limits.Some? {
      var s := Apply(r, Allowance(unit, amount));
      forall u: Unit ensures Amount(s.limits.value, u) == Amount(Additions(s.granted), u) + Amount(s.allowed, u) {
        RaisingAdds(r.limits.value, map[unit := amount], u);
        RaisingAdds(r.allowed, map[unit := amount], u);
        assert Amount(r.limits.value, u) == Amount(Additions(r.granted), u) + Amount(r.allowed, u);
      }
    }
  }

  lemma {:induction false} EventsKeep(events: seq<Event>)
    requires forall i :: 0 <= i < |events| ==> NamesEffects(events[i])
    ensures RunnerOk(After(UNCONFIGURED, events))
  {
    hide Additions, Configured;
    if events != [] {
      var front, last := events[..|events| - 1], events[|events| - 1];
      EventsKeep(front);
      var r := After(UNCONFIGURED, front);
      match last
      case Cycle(ds) => CycleKeeps(r, ds);
      case Allowance(unit, amount) => AllowanceKeeps(r, unit, amount);
      case Registered(_) =>
    }
  }

  /** After any cycles, registrations and allowances, refused ones included, every
      limit is the one-shot total over the granted dispatches plus the allowances,
      and no task was granted for twice. */
  lemma LimitsAreConserved(events: seq<Event>, unit: Unit)
    requires forall i :: 0 <= i < |events| ==> NamesEffects(events[i])
    requires After(UNCONFIGURED, events).limits.Some?
    ensures var r := After(UNCONFIGURED, events);
            && Amount(r.limits.value, unit) == Amount(Additions(r.granted), unit) + Amount(r.allowed, unit)
            && DistinctTasks(r.granted)
  {
    hide Additions, After;
    EventsKeep(events);
  }

  ghost predicate AllGranted(r: Runner) { forall key :: key in r.scopes ==> GrantedFor(r.granted, r.scopes[key]) }

  ghost predicate GrantedFor(ds: seq<Stored>, scope: Scope) { exists i :: 0 <= i < |ds| && ds[i].scope == scope }

  /** When only the scheduler admits scopes, each admitted scope is granted its
      budgets, and by the lemma above exactly once. */
  lemma {:induction false} AdmittedAreGranted(events: seq<Event>)
    requires forall i :: 0 <= i < |events| ==> NamesEffects(events[i]) && !events[i].Registered?
    ensures AllGranted(After(UNCONFIGURED, events))
  {
    hide Additions, Raised;
    if events != [] {
      var front, last := events[..|events| - 1], events[|events| - 1];
      AdmittedAreGranted(front);
      EventsKeep(front);
      var r, s := After(UNCONFIGURED, front), After(UNCONFIGURED, events);
      if last.Cycle? && Admissible(r.scopes, last.dispatches) {
        AdmittingScopes(r.scopes, last.dispatches);
        NewOnesAreNew(r.scopes, last.dispatches);
        forall key | key in s.scopes ensures GrantedFor(s.granted, s.scopes[key]) {
          GrantReaches(r, last.dispatches, key);
        }
      }
    }
  }

  lemma GrantReaches(r: Runner, ds: seq<Stored>, key: ScopeKey)
    requires RunnerOk(r) && AllGranted(r) && Admissible(r.scopes, ds) && key in Configured(r, ds).scopes
    ensures GrantedFor(Configured(r, ds).granted, Configured(r, ds).scopes[key])
  {
    hide Additions, Raised, NameTheirEffects, WithScopes, NewOnes, DistinctTasks, LimitsAreExact, Admissible, Presents, OwnKeys;
    var s, added := Configured(r, ds), AddedBy(r, ds);
    assert s.granted == r.granted + added && s.scopes == WithScopes(r.scopes, ds);
    AdmittingScopes(r.scopes, ds);
    if key in r.scopes {
      assert GrantedFor(r.granted, r.scopes[key]);
      GrantExtends(r.granted, added, r.scopes[key]);
    } else {
      assert OwnKeys(s.scopes) && Presents(ds, s.scopes[key]);
      NewIsGranted(r, ds, key);
      GrantExtends(r.granted, added, s.scopes[key]);
    }
  }

  lemma GrantExtends(a: seq<Stored>, b: seq<Stored>, scope: Scope)
    requires GrantedFor(a, scope) || GrantedFor(b, scope)
    ensures GrantedFor(a + b, scope)
  {
    if GrantedFor(a, scope) {
      var i :| 0 <= i < |a| && a[i].scope == scope;
      assert (a + b)[i].scope == scope;
    } else {
      var i :| 0 <= i < |b| && b[i].scope == scope;
      assert (a + b)[|a| + i].scope == scope;
    }
  }

  lemma NewIsGranted(r: Runner, ds: seq<Stored>, key: ScopeKey)
    requires Admissible(r.scopes, ds) && OwnKeys(r.scopes) && OwnKeys(WithScopes(r.scopes, ds))
    requires key in WithScopes(r.scopes, ds) && key !in r.scopes && Presents(ds, WithScopes(r.scopes, ds)[key])
    ensures GrantedFor(AddedBy(r, ds), WithScopes(r.scopes, ds)[key])
  {
    var scope := WithScopes(r.scopes, ds)[key];
    assert scope.key == key;
    NewOnesAreNew(r.scopes, ds);
    hide Admissible, WithScopes, NewOnes, OwnKeys, DistinctTasks;
    var i :| 0 <= i < |ds| && ds[i].scope == scope;
    var added := AddedBy(r, ds);
    assert ds[i] in added;
    var j :| 0 <= j < |added| && added[j] == ds[i];
    assert added[j].scope == scope;
  }

  // ----- which tasks are granted

  predicate Granted(ds: seq<Stored>, key: ScopeKey) { exists i :: 0 <= i < |ds| && ds[i].scope.key == key }

  /** A cycle that is not refused presents the task while the runner is not
      configured or lists no scope for it. */
  predicate Grants(r: Runner, e: Event, key: ScopeKey) {
    e.Cycle? && Admissible(r.scopes, e.dispatches) && Granted(e.dispatches, key) && (r.limits.None? || key !in r.scopes)
  }

  /** The presented dispatches whose budgets a cycle adds. */
  lemma AddedExactly(r: Runner, ds: seq<Stored>, i: nat)
    requires OwnKeys(r.scopes) && Admissible(r.scopes, ds) && i < |ds|
    ensures ds[i] in AddedBy(r, ds) <==> r.limits.None? || ds[i].scope.key !in r.scopes
    ensures forall k :: 0 <= k < |AddedBy(r, ds)| ==> AddedBy(r, ds)[k] in ds
  {
    hide Admissible, OwnKeys, NewOnes, DistinctTasks;
    NewOnesAreNew(r.scopes, ds);
  }

  lemma NoneAdded(r: Runner)
    ensures AddedBy(r, []) == []
  {
  }

  lemma CycleGrantsExactly(r: Runner, ds: seq<Stored>, key: ScopeKey)
    requires OwnKeys(r.scopes) && Admissible(r.scopes, ds)
    ensures Granted(AddedBy(r, ds), key) <==> Grants(r, Cycle(ds), key)
  {
    hide NewOnes, Admissible, OwnKeys, AddedBy, DistinctTasks;
    var added := AddedBy(r, ds);
    if ds != [] { AddedExactly(r, ds, 0); }
    NoneAdded(r);
    if Granted(added, key) {
      var k :| 0 <= k < |added| && added[k].scope.key == key;
      var i :| 0 <= i < |ds| && ds[i] == added[k];
      AddedExactly(r, ds, i);
    }
    if Grants(r, Cycle(ds), key) {
      var i :| 0 <= i < |ds| && ds[i].scope.key == key;
      AddedExactly(r, ds, i);
      var k :| 0 <= k < |added| && added[k] == ds[i];
    }
  }

  ghost predicate ScopesOk(r: Runner) { OwnKeys(r.scopes) && (r.limits.None? ==> r.granted == []) }

  lemma {:induction false} EventsKeepScopes(events: seq<Event>)
    ensures ScopesOk(After(UNCONFIGURED, events))
  {
    hide Additions, Raised, WithScopes;
    if events != [] {
      var front, last := events[..|events| - 1], events[|events| - 1];
      EventsKeepScopes(front);
      var r := After(UNCONFIGURED, front);
      if last.Cycle? && Admissible(r.scopes, last.dispatches) { ListedStay(r.scopes, last.dispatches); }
    }
  }

  lemma OneEventGrants(r: Runner, e: Event, key: ScopeKey)
    requires ScopesOk(r)
    ensures Granted(Apply(r, e).granted, key) <==> Granted(r.granted, key) || Grants(r, e, key)
  {
    hide Additions, Raised, WithScopes, NewOnes, Admissible, OwnKeys, Granted;
    if e.Cycle? && Admissible(r.scopes, e.dispatches) {
      var added := AddedBy(r, e.dispatches);
      assert Apply(r, e).granted == r.granted + added;
      GrantedTogether(r.granted, added, key);
      CycleGrantsExactly(r, e.dispatches, key);
    }
  }

  lemma GrantedTogether(a: seq<Stored>, b: seq<Stored>, key: ScopeKey)
    ensures Granted(a + b, key) <==> Granted(a, key) || Granted(b, key)
  {
    var all := a + b;
    if i :| 0 <= i < |a| && a[i].scope.key == key { assert all[i].scope.key == key; }
    if i :| 0 <= i < |b| && b[i].scope.key == key { assert all[|a| + i].scope.key == key; }
    if Granted(all, key) {
      var i :| 0 <= i < |all| && all[i].scope.key == key;
      assert if i < |a| then a[i].scope.key == key else b[i - |a|].scope.key == key;
    }
  }

  ghost predicate GrantedOnce(events: seq<Event>, key: ScopeKey) {
    exists n :: 0 <= n < |events| && Grants(After(UNCONFIGURED, events[..n]), events[n], key)
  }

  lemma GrantedOnceBefore(events: seq<Event>, key: ScopeKey)
    requires events != []
    ensures var front := events[..|events| - 1];
            GrantedOnce(events, key) <==> GrantedOnce(front, key) || Grants(After(UNCONFIGURED, front), events[|events| - 1], key)
  {
    hide Grants, After;
    var front := events[..|events| - 1];
    forall n | 0 <= n < |front| ensures events[..n] == front[..n] && events[n] == front[n] { }
    if GrantedOnce(front, key) {
      var n :| 0 <= n < |front| && Grants(After(UNCONFIGURED, front[..n]), front[n], key);
      assert Grants(After(UNCONFIGURED, events[..n]), events[n], key);
    }
    if GrantedOnce(events, key) {
      var n :| 0 <= n < |events| && Grants(After(UNCONFIGURED, events[..n]), events[n], key);
      if n < |front| { assert Grants(After(UNCONFIGURED, front[..n]), front[n], key); }
    }
  }

  /** A task is granted its budgets exactly when some cycle presented it while the
      runner was not configured or listed no scope for it. */
  lemma {:induction false} GrantedExactly(events: seq<Event>, key: ScopeKey)
    ensures Granted(After(UNCONFIGURED, events).granted, key) <==> GrantedOnce(events, key)
  {
    hide Grants, Apply, Granted, GrantedOnce;
    if events == [] {
      assert !Granted([], key) && !GrantedOnce([], key) by { NothingYet(key); }
    } else {
      var front := events[..|events| - 1];
      GrantedExactly(front, key);
      EventsKeepScopes(front);
      OneEventGrants(After(UNCONFIGURED, front), events[|events| - 1], key);
      GrantedOnceBefore(events, key);
    }
  }

  lemma NothingYet(key: ScopeKey)
    ensures !Granted([], key) && !GrantedOnce([], key)
  {
  }

  ghost predicate RegisteredIn(events: seq<Event>, key: ScopeKey) {
    exists n :: 0 <= n < |events| && events[n].Registered? && events[n].scope.key == key
  }

  /** Scopes stay listed, and a listed one was granted or registered. */
  lemma {:induction false} ListedExactly(events: seq<Event>, key: ScopeKey)
    ensures key in After(UNCONFIGURED, events).scopes <==> GrantedOnce(events, key) || RegisteredIn(events, key)
  {
    hide Additions, Raised, NewOnes, Grants, GrantedOnce, Admissible, WithScopes;
    if events == [] {
      NothingYet(key);
    } else {
      var front, last := events[..|events| - 1], events[|events| - 1];
      ListedExactly(front, key);
      EventsKeepScopes(front);
      GrantedOnceBefore(events, key);
      RegisteredBefore(events, key);
      ListedByOneEvent(After(UNCONFIGURED, front), last, key);
    }
  }

  lemma RegisteredBefore(events: seq<Event>, key: ScopeKey)
    requires events != []
    ensures var front, last := events[..|events| - 1], events[|events| - 1];
            RegisteredIn(events, key) <==> RegisteredIn(front, key) || (last.Registered? && last.scope.key == key)
  {
    var front := events[..|events| - 1];
    assert events == front + [events[|events| - 1]];
    if n :| 0 <= n < |front| && front[n].Registered? && front[n].scope.key == key { assert events[n] == front[n]; }
  }

  lemma ListedByOneEvent(r: Runner, e: Event, key: ScopeKey)
    requires ScopesOk(r)
    ensures key in Apply(r, e).scopes <==>
              key in r.scopes || Grants(r, e, key) || (e.Registered? && e.scope.key == key)
  {
    hide Additions, Raised, NewOnes, WithScopes;
    if e.Cycle? && Admissible(r.scopes, e.dispatches) {
      AdmittingScopes(r.scopes, e.dispatches);
      var all := WithScopes(r.scopes, e.dispatches);
      if key in all && key !in r.scopes {
        var i :| 0 <= i < |e.dispatches| && e.dispatches[i].scope == all[key];
        assert e.dispatches[i].scope.key == key;
      }
    }
  }

  ghost predicate AllListedAreGranted(r: Runner) { forall key :: key in r.scopes ==> Granted(r.granted, key) }

  ghost predicate AllRegisteredAreGranted(events: seq<Event>) {
    forall n :: 0 <= n < |events| && events[n].Registered? ==> GrantedOnce(events, events[n].scope.key)
  }

  /** Every listed task is granted exactly when every registered one is presented at
      some time by a cycle that grants it. */
  lemma ListedAreGrantedExactly(events: seq<Event>)
    ensures AllListedAreGranted(After(UNCONFIGURED, events)) <==> AllRegisteredAreGranted(events)
  {
    hide After, GrantedOnce, Granted;
    var r := After(UNCONFIGURED, events);
    if AllListedAreGranted(r) {
      forall n | 0 <= n < |events| && events[n].Registered? ensures GrantedOnce(events, events[n].scope.key) {
        var key := events[n].scope.key;
        assert RegisteredIn(events, key);
        ListedExactly(events, key);
        GrantedExactly(events, key);
      }
    }
    if AllRegisteredAreGranted(events) {
      forall key | key in r.scopes ensures Granted(r.granted, key) {
        ListedExactly(events, key);
        GrantedExactly(events, key);
        if RegisteredIn(events, key) {
          var n :| 0 <= n < |events| && events[n].Registered? && events[n].scope.key == key;
        }
      }
    }
  }

  /** Two scopes, the second listed by another component between two cycles: the
      second cycle presents both and grants neither. Listed before the configuring
      cycle instead, it is granted. */
  lemma RegisteredScopeIsPassedOver(a: Stored, b: Stored)
    requires a.scope.key != b.scope.key
    ensures After(UNCONFIGURED, [Cycle([a]), Registered(b.scope), Cycle([a, b])]).granted == [a]
    ensures After(UNCONFIGURED, [Cycle([a]), Cycle([a, b])]).granted == [a, b]
    ensures After(UNCONFIGURED, [Registered(b.scope), Cycle([a, b])]).granted == [a, b]
  {
    hide Additions, Raised, After, Configured;
    OneByOne(Cycle([a]), Registered(b.scope), Cycle([a, b]));
    OneByOne(Cycle([a]), Cycle([a, b]), Cycle([a, b]));
    OneByOne(Registered(b.scope), Cycle([a, b]), Cycle([a, b]));
    var first := Apply(UNCONFIGURED, Cycle([a]));
    ConfiguringGrantsAll(UNCONFIGURED, [a]);
    ConfiguringGrantsAll(Apply(UNCONFIGURED, Registered(b.scope)), [a, b]);
    PairIsAdded(first, a, b);
    PairIsAdded(Apply(first, Registered(b.scope)), a, b);
  }

  lemma ConfiguringGrantsAll(r: Runner, ds: seq<Stored>)
    requires r.limits.None? && Admissible(r.scopes, ds)
    ensures Configured(r, ds).granted == ds && Configured(r, ds).limits.Some? && Configured(r, ds).scopes == WithScopes(r.scopes, ds)
  {
  }

  /** A configured runner that lists the first of two scopes, and maybe the second. */
  lemma PairIsAdded(r: Runner, a: Stored, b: Stored)
    requires r.limits.Some? && a.scope.key != b.scope.key && a.scope.key in r.scopes && r.scopes[a.scope.key] == a.scope
    requires b.scope.key in r.scopes ==> r.scopes[b.scope.key] == b.scope
    requires b.scope.key !in r.scopes ==> OwnKeys(r.scopes)
    ensures Configured(r, [a, b]).granted == r.granted + if b.scope.key in r.scopes then [] else [b]
  {
    hide Additions, Raised, WithScopes;
    assert [a, b][..1] == [a] && [a][..0] == [];
    assert NewOnes(r.scopes, [a]) == [];
    assert IsAdmitted(r.scopes, b.scope) <==> b.scope.key in r.scopes;
  }

  lemma OneByOne(x: Event, y: Event, z: Event)
    ensures After(UNCONFIGURED, [x, y]) == Apply(Apply(UNCONFIGURED, x), y)
    ensures After(UNCONFIGURED, [x, y, z]) == Apply(Apply(Apply(UNCONFIGURED, x), y), z)
  {
    var one, two, three := [x], [x, y], [x, y, z];
    assert one[..0] == [] && After(UNCONFIGURED, one) == Apply(UNCONFIGURED, x);
    assert two[..1] == one && After(UNCONFIGURED, two) == Apply(After(UNCONFIGURED, one), y);
    assert three[..2] == two;
  }

  /** Once the runner is configured, a scope another component registers in its store
      before the scheduler first presents it is already listed when it is presented,
      and is never granted anything: no later cycle's limits count its task. */
  lemma {:induction false} RegisteredFirstIsNeverGranted(r: Runner, events: seq<Event>, key: ScopeKey)
    requires RunnerOk(r) && r.limits.Some? && key in r.scopes && forall i :: 0 <= i < |r.granted| ==> r.granted[i].scope.key != key
    requires forall i :: 0 <= i < |events| ==> NamesEffects(events[i])
    ensures var s := After(r, events);
            RunnerOk(s) && s.limits.Some? && key in s.scopes && forall i :: 0 <= i < |s.granted| ==> s.granted[i].scope.key != key
  {
    hide Additions, Raised, NameTheirEffects;
    if events != [] {
      var front, last := events[..|events| - 1], events[|events| - 1];
      RegisteredFirstIsNeverGranted(r, front, key);
      var s := After(r, front);
      match last
      case Cycle(ds) =>
        CycleKeeps(s, ds);
        if Admissible(s.scopes, ds) {
          AdmittingScopes(s.scopes, ds);
          NewOnesAreNew(s.scopes, ds);
        }
      case Allowance(unit, amount) => AllowanceKeeps(s, unit, amount);
      case Registered(_) =>
    }
  }
}
