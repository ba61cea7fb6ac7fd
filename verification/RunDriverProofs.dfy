/** What holds of every history of a run, and of every step. */
module RunDriverProofs {
  import opened CodeUnits
  import opened Options
  import opened DispatchSelection
  import opened RunDriverModel
  import opened RunDriverInvariants
  import opened RunDriverChanges
  import opened RunDriverRecords
  import opened RunDriverSteps

  // ----- the attempt ceiling

  /** Dispatches of a task whose turn did not end by asking. */
  function Tries(r: Run, task: Id): nat { CountIf(r.dispatches, d => NotSuspended(r, task, d)) }

  lemma CeilingBounds(r: Run, task: Id)
    requires Ceiling(r, task)
    ensures Tries(r, task) <= (AnswersFor(r.answered, task) + 1) * (Allowance(r.graph, task) + 1) - 1
    ensures AnswersFor(r.answered, task) == 0 ==> Tries(r, task) <= Allowance(r.graph, task)
  {
    hide NotSuspended, AnsweredOrdinal, CountIf, Allowance, AnswersFor;
    var after := AnsweredOrdinal(r, task);
    var a, e := Allowance(r.graph, task), AnswersFor(r.answered, task);
    CountOfEither(r.dispatches, d => NotSuspended(r, task, d),
                  d => NotSuspended(r, task, d) && d.id !in r.carrying, d => NotSuspended(r, task, d) && d.id in r.carrying);
    CountOfEither(r.dispatches, d => NotSuspended(r, task, d) && d.id !in r.carrying,
                  d => PlainNew(r, task, after, d), d => PlainOld(r, task, after, d));
    assert forall d :: NotSuspended(r, task, d) ==> Mine(r, task, d) by { SuspensionIsOfMine(r, task); }
    CountOfImplied(r.dispatches, d => NotSuspended(r, task, d) && d.id in r.carrying, d => Carries(r, task, d));
    assert (e + 1) * (a + 1) - 1 == a * e + a + e;
  }

  lemma SuspensionIsOfMine(r: Run, task: Id)
    ensures forall d :: NotSuspended(r, task, d) ==> Mine(r, task, d)
  {
  }

  /** Whatever happens to a run, a task holds at most its allowance of tries for
      each answer a person gave it and once more, and one dispatch for each answer;
      with no answer, never more than the allowance. */
  lemma AttemptCeiling(start: Run, events: seq<Event>, task: Id)
    requires NewRun(start) && History(start, events)
    ensures var r := After(start, events);
            && Tries(r, task) <= (AnswersFor(r.answered, task) + 1) * (Allowance(r.graph, task) + 1) - 1
            && (AnswersFor(r.answered, task) == 0 ==> Tries(r, task) <= Allowance(r.graph, task))
  {
    hide NewRun, After, History, Tries, RunOk, Ceiling;
    AfterIsOk(start, events);
    OkHasCeiling(After(start, events), task);
    CeilingBounds(After(start, events), task);
  }

  lemma AfterIsOk(start: Run, events: seq<Event>)
    requires NewRun(start) && History(start, events)
    ensures RunOk(After(start, events))
  {
    hide NewRun, After, History, RunOk;
    NewRunIsOk(start);
    HistoryKeepsOk(start, events);
  }

  lemma OkHasCeiling(r: Run, task: Id)
    requires RunOk(r)
    ensures Ceiling(r, task)
  {
  }

  // ----- ordinals and turns

  ghost predicate OneOpenTurn(r: Run) {
    forall i, j :: 0 <= i < |r.dispatches| && 0 <= j < |r.dispatches| && OpenTogether(r, r.dispatches[i], r.dispatches[j]) ==> i == j
  }

  predicate OpenTogether(r: Run, d: Dispatch, e: Dispatch) { d.task == e.task && AttemptOpen(r, d.id) && AttemptOpen(r, e.id) }

  lemma NewestIsAlone(r: Run)
    requires OpenIsNewest(r) && OrdinalsOk(r) && OwnersOk(r)
    ensures OneOpenTurn(r)
  {
    forall i, j | 0 <= i < |r.dispatches| && 0 <= j < |r.dispatches| && OpenTogether(r, r.dispatches[i], r.dispatches[j]) ensures i == j {
      assert Newest(r, r.dispatches[i]) && Newest(r, r.dispatches[j]);
      assert Mine(r, r.dispatches[i].task, r.dispatches[j]) && Mine(r, r.dispatches[j].task, r.dispatches[i]);
      assert SamePhase(r, r.dispatches[i], r.dispatches[j]) && SamePhase(r, r.dispatches[j], r.dispatches[i]);
    }
  }

  /** In every history the dispatches of one phase have distinct ordinals, and a
      task has at most one open turn. */
  lemma OrdinalsAndTurnsAreUnique(start: Run, events: seq<Event>)
    requires NewRun(start) && History(start, events)
    ensures OrdinalsOk(After(start, events)) && OneOpenTurn(After(start, events))
  {
    hide NewRun, After, History, OneOpenTurn;
    AfterIsOk(start, events);
    assert OpenIsNewest(After(start, events));
    NewestIsAlone(After(start, events));
  }

  /** So which dispatch of a task a phase stands on never depends on storage order. */
  lemma SelectionIsDetermined(start: Run, events: seq<Event>, other: seq<Dispatch>, task: Id, d: Dispatch)
    requires NewRun(start) && History(start, events) && Rearranged(After(start, events).dispatches, other)
    ensures var r := After(start, events);
            WinnerOf(ViewOf(r), r.dispatches, task, d) <==> WinnerOf(ViewOf(r), other, task, d)
  {
    AfterIsOk(start, events);
    var r := After(start, events);
    assert OrdinalsOk(r) && OwnersOk(r);
    hide RunOk, NewRun, After, History, Rearranged, Wins;
    MineAreDistinct(r);
    if WinnerOf(ViewOf(r), r.dispatches, task, d) {
      WinnerSurvives(r, r.dispatches, other, task, d);
    }
    if WinnerOf(ViewOf(r), other, task, d) {
      WinnerSurvives(r, other, r.dispatches, task, d);
    }
  }

  ghost predicate DistinctInRun(r: Run, ds: seq<Dispatch>) {
    forall d, e :: d in ds && e in ds && d.runId == e.runId == r.runId && d.task == e.task && d.ordinal == e.ordinal ==> d == e
  }

  lemma MineAreDistinct(r: Run)
    requires OrdinalsOk(r) && OwnersOk(r)
    ensures DistinctInRun(r, r.dispatches)
  {
    forall d, e | d in r.dispatches && e in r.dispatches && d.runId == e.runId == r.runId && d.task == e.task && d.ordinal == e.ordinal
      ensures d == e
    {
      var i :| 0 <= i < |r.dispatches| && r.dispatches[i] == d;
      var j :| 0 <= j < |r.dispatches| && r.dispatches[j] == e;
      assert SamePhase(r, r.dispatches[i], r.dispatches[j]) && SamePhase(r, r.dispatches[j], r.dispatches[i]);
    }
  }

  lemma WinnerSurvives(r: Run, ds: seq<Dispatch>, other: seq<Dispatch>, task: Id, d: Dispatch)
    requires DistinctInRun(r, r.dispatches) && Rearranged(r.dispatches, ds) && Rearranged(ds, other) && WinnerOf(ViewOf(r), ds, task, d)
    ensures WinnerOf(ViewOf(r), other, task, d)
  {
    var v := ViewOf(r);
    RearrangedHold(r.dispatches, ds);
    RearrangedHold(ds, other);
    WinnerIsOnTop(v, ds, task, d);
    var j :| 0 <= j < |other| && other[j] == d;
    HeldWins(v, other, task);
    var e := Held(v, other, task).value;
    WinnerIsOnTop(v, other, task, e);
    assert e in ds && e in r.dispatches && d in r.dispatches;
    assert !Below(v, d, e) && !Below(v, e, d);
  }

  // ----- recording ended turns

  /** After ended turns are recorded no stored dispatch that handed in, asked,
      returned or belongs to an accepted task is open; a turn that was not over
      takes the first of those facts, and nothing else changes. */
  lemma EndedTurnsAreRecorded(r: Run, id: Id)
    requires Stored(r, id)
    ensures AttemptOver(r, id) ==> id in CloseEnded(r).attempts && CloseEnded(r).attempts[id] == r.attempts[id]
    ensures !AttemptOver(r, id) && EndedAs(r, id).Some? ==> HasTurn(CloseEnded(r), id, EndedAs(r, id).value)
    ensures !AttemptOver(r, id) && EndedAs(r, id).None? ==>
              (id in CloseEnded(r).attempts <==> id in r.attempts) && (AttemptOpen(CloseEnded(r), id) <==> AttemptOpen(r, id))
    ensures EndedAs(r, id).Some? ==> AttemptOver(CloseEnded(r), id)
    ensures EndedAs(r, id) ==
            if id in r.completions then Some(Closed) else if HasAsked(r, id) then Some(Suspended)
            else if id in r.returned then Some(Fail) else if OnAccepted(r, id) then Some(Closed) else None
  {
    assert id in StoredIds(r);
  }

  /** Recording them again records nothing. */
  lemma RecordingIsIdempotent(r: Run)
    ensures CloseEnded(CloseEnded(r)) == CloseEnded(r)
  {
    NothingLeftToEnd(r);
    NothingToEnd(CloseEnded(r));
  }

  ghost predicate NoneToEnd(r: Run) { forall id: Id :: Stored(r, id) && EndedAs(r, id).Some? ==> AttemptOver(r, id) }

  lemma NothingLeftToEnd(r: Run)
    ensures NoneToEnd(CloseEnded(r))
  {
    var c := CloseEnded(r);
    forall id: Id | Stored(c, id) && EndedAs(c, id).Some? ensures AttemptOver(c, id) {
      assert HasAsked(c, id) <==> HasAsked(r, id);
      assert OnAccepted(c, id) <==> OnAccepted(r, id);
      assert Stored(r, id) <==> Stored(c, id);
      EndedTurnsAreRecorded(r, id);
    }
  }

  lemma NothingToEnd(r: Run)
    requires NoneToEnd(r)
    ensures CloseEnded(r) == r
  {
    hide EndedAs;
    assert CloseEnded(r).attempts == r.attempts;
  }

  /** Endings stay, only a turn that asked is suspended, and dispatches and
      questions are only appended. */
  ghost predicate TurnsFollow(r: Run, s: Run) {
    && (forall id :: AttemptOver(r, id) ==> id in s.attempts && s.attempts[id] == r.attempts[id])
    && (forall id :: id in r.attempts ==> id in s.attempts)
    && (forall id :: HasTurn(s, id, Suspended) ==> HasTurn(r, id, Suspended) || HasAsked(s, id))
    && r.questions <= s.questions
    && r.dispatches <= s.dispatches
  }

  lemma OneMoreFollows(r: Run, nd: Dispatch)
    requires nd.id !in r.attempts
    ensures TurnsFollow(r, r.(dispatches := r.dispatches + [nd]))
    ensures TurnsFollow(r, r.(dispatches := r.dispatches + [nd], attempts := r.attempts[nd.id := Attempt(nd.task, Opened)]))
  {
    hide HasAsked;
    assert forall id :: AttemptOver(r, id) ==> id in r.attempts;
  }

  lemma DispatchFollows(r: Run, id: Id, task: Id, ordinal: nat, made: Outcome)
    requires id !in r.attempts
    ensures TurnsFollow(r, DispatchAttempt(r, id, task, ordinal, made).run)
    ensures DispatchAttempt(r, id, task, ordinal, made).run.phaseKey == r.phaseKey
  {
    hide OtherOpen, TurnsFollow;
    OneMoreFollows(r, Dispatch(id, r.runId, task, ordinal));
  }

  lemma RetryFollows(r: Run, spec: PhaseSpec, d: Dispatch, reading: Reading)
    requires reading.freshId !in r.attempts
    ensures TurnsFollow(r, Retry(r, spec, d, reading).run) && Retry(r, spec, d, reading).run.phaseKey == r.phaseKey
  {
    hide DispatchAttempt, NextAttempt, TurnsFollow;
    if spec.tasks == [] {
      assert TurnsFollow(r, r) by { TurnsStay(r, r); }
    } else {
      DispatchFollows(r, reading.freshId, RetryTask(spec, d.task), NextAttempt(r, reading), Retrying(NextAttempt(r, reading), reading.freshId));
    }
  }

  lemma TurnsStay(r: Run, s: Run)
    requires s.attempts == r.attempts && s.questions == r.questions && s.dispatches == r.dispatches
    ensures TurnsFollow(r, s)
  {
  }

  lemma AbortFollows(r: Run, spec: PhaseSpec, d: Dispatch, reading: Reading)
    requires reading.freshId !in r.attempts && reading.freshId != d.id
    ensures TurnsFollow(r, AbortStep(r, spec, d, reading).run) && AbortStep(r, spec, d, reading).run.phaseKey == r.phaseKey
  {
    hide Retry;
    var ended := if AttemptOpen(r, d.id) then r.(attempts := r.attempts[d.id := Attempt(d.task, Refused)]) else r;
    RetryFollows(ended, spec, d, reading);
  }

  lemma AnswerFollows(r: Run, spec: PhaseSpec, d: Dispatch, reading: Reading)
    requires reading.freshId !in r.attempts
    ensures TurnsFollow(r, AnswerStep(r, spec, d, reading).run) && AnswerStep(r, spec, d, reading).run.phaseKey == r.phaseKey
  {
    hide NextAttempt, RetryTask, OtherOpen, TurnsFollow, Unowed;
    TurnsStay(r, r);
    var s := AnswerStep(r, spec, d, reading).run;
    if spec.tasks != [] {
      var nd := s.dispatches[|r.dispatches|];
      OneMoreFollows(r, nd);
      TurnsLand(r, r.(dispatches := s.dispatches, attempts := s.attempts), s);
    }
  }

  lemma TurnsLand(r: Run, s: Run, t: Run)
    requires s.attempts == t.attempts && s.questions == t.questions && s.dispatches == t.dispatches && TurnsFollow(r, s)
    ensures TurnsFollow(r, t)
  {
  }

  lemma RefusedFollows(r: Run, tries: nat, spec: PhaseSpec, d: Dispatch, reading: Reading)
    requires reading.freshId !in r.attempts
    ensures TurnsFollow(r, RefusedStep(r, tries, spec, d, reading).run) && RefusedStep(r, tries, spec, d, reading).run.phaseKey == r.phaseKey
  {
    hide Retry, Outstanding;
    RetryFollows(r, spec, d, reading);
  }

  lemma CloseFollows(r: Run, tries: nat, spec: PhaseSpec, d: Dispatch, reading: Reading)
    requires reading.freshId !in r.attempts
    ensures TurnsFollow(r, CloseStep(r, tries, spec, d, reading).run)
  {
    hide Retry, TurnsFollow;
    var s := CloseStep(r, tries, spec, d, reading).run;
    RetryFollows(r, spec, d, reading);
    if s != Retry(r, spec, d, reading).run { TurnsStay(r, s); }
  }

  lemma GateFollows(r: Run, spec: PhaseSpec, d: Dispatch, reading: Reading)
    requires reading.freshId !in r.attempts
    ensures TurnsFollow(r, GateStep(r, spec, d, reading).run)
  {
    hide RefusedStep, CloseStep, Covered, TaskAttempts, TurnsFollow;
    var s, tries := r.(accepted := reading.acceptedAfter), TaskAttempts(r, d.task);
    RefusedFollows(s, tries, spec, d, reading);
    CloseFollows(s, tries, spec, d, reading);
    TurnsStayFor(r, s, RefusedStep(s, tries, spec, d, reading).run);
    TurnsStayFor(r, s, CloseStep(s, tries, spec, d, reading).run);
    TurnsStay(r, s);
    TurnsStay(r, r);
  }

  lemma WorkFollows(r: Run, spec: PhaseSpec, d: Dispatch, reading: Reading)
    requires reading.freshId !in r.attempts
    ensures TurnsFollow(r, WorkStep(r, spec, d, reading).run)
  {
    hide Retry, GateStep, TaskAttempts;
    RetryFollows(r, spec, d, reading);
    GateFollows(r, spec, d, reading);
  }

  lemma CarriedFollows(r: Run, spec: PhaseSpec, d: Dispatch, reading: Reading)
    requires reading.freshId !in r.attempts && reading.freshId != d.id
    ensures TurnsFollow(r, CarriedStep(r, spec, d, reading).run)
  {
    hide AbortStep, AnswerStep, WorkStep, TaskAttempts, TaskDone, Owes, OwesExhausted, AttemptOpen, StillOwed, AnswersItsAsker;
    var settled := r.(undelivered := StillOwed(r.questions, r.undelivered, d));
    TurnsStay(r, settled);
    AbortFollows(r, spec, d, reading);
    AnswerFollows(r, spec, d, reading);
    WorkFollows(r, spec, d, reading);
    WorkFollows(settled, spec, d, reading);
    TurnsStayFor(r, settled, WorkStep(settled, spec, d, reading).run);
  }

  lemma TurnsStayFor(r: Run, s: Run, t: Run)
    requires s.attempts == r.attempts && s.questions == r.questions && s.dispatches == r.dispatches && TurnsFollow(s, t)
    ensures TurnsFollow(r, t)
  {
  }

  lemma FollowingChains(r: Run, s: Run, t: Run)
    requires TurnsFollow(r, s) && TurnsFollow(s, t)
    ensures TurnsFollow(r, t)
  {
    forall id | HasAsked(s, id) ensures HasAsked(t, id) { AskedStays(s, t, id); }
  }

  lemma AskedStays(r: Run, s: Run, id: Id)
    requires r.questions <= s.questions && HasAsked(r, id)
    ensures HasAsked(s, id)
  {
    var i :| 0 <= i < |r.questions| && r.questions[i].dispatch == id;
    assert s.questions[i].dispatch == id;
  }

  lemma PendingFollows(r: Run, spec: PhaseSpec, at: nat, reading: Reading)
    requires at < |spec.tasks| && reading.freshId !in r.attempts
    ensures TurnsFollow(r, PendingStep(r, spec, at, reading).run) && PendingStep(r, spec, at, reading).run.phaseKey == r.phaseKey
  {
    hide DispatchAttempt, StopsFast, TurnsFollow;
    TurnsStay(r, r);
    DispatchFollows(r, reading.freshId, spec.tasks[at].id, at + 1, Dispatched(reading.freshId));
  }

  lemma FirstFollows(r: Run, spec: PhaseSpec, reading: Reading)
    requires r.phaseKey in r.graph.phases && reading.freshId !in r.attempts
    ensures TurnsFollow(r, FirstStep(r, spec, reading).run) && FirstStep(r, spec, reading).run.phaseKey == r.phaseKey
  {
    hide DispatchAttempt, Materialised, TurnsFollow;
    if spec.tasks != [] {
      DispatchFollows(r, reading.freshId, spec.tasks[0].id, 1, Dispatched(reading.freshId));
    } else {
      TurnsStay(r, FirstStep(r, spec, reading).run);
    }
  }

  lemma OpenStepFollows(r: Run, reading: Reading)
    requires r.phaseKey in r.graph.phases && reading.freshId !in r.attempts && !Stored(r, reading.freshId)
    ensures TurnsFollow(r, OpenStep(r, r.graph.phases[r.phaseKey], reading).run)
  {
    hide PendingStep, FirstStep, CarriedStep, Carried, TurnsFollow, Stored;
    var spec := r.graph.phases[r.phaseKey];
    var pending := if spec.fanOut then Pending(r, spec.tasks, 0) else None;
    if pending.Some? {
      PendingFollows(r, spec, pending.value, reading);
    } else if Carried(ViewOf(r), r.dispatches).None? {
      FirstFollows(r, spec, reading);
    } else {
      var d := Carried(ViewOf(r), r.dispatches).value;
      CarriedIsNotFresh(r, d, reading.freshId);
      CarriedFollows(r, spec, d, reading);
    }
  }

  lemma CarriedIsNotFresh(r: Run, d: Dispatch, id: Id)
    requires Carried(ViewOf(r), r.dispatches) == Some(d) && !Stored(r, id)
    ensures d.id != id && d in r.dispatches && InPhase(ViewOf(r), d)
  {
    hide Carried;
    CarriedIsOnTop(r, d);
    OnTopIsStored(r, d);
  }

  lemma ClosingFollows(r: Run)
    ensures TurnsFollow(r, CloseEnded(r))
  {
    ClosingSettles(r);
    forall id | HasTurn(CloseEnded(r), id, Suspended) ensures HasTurn(r, id, Suspended) || HasAsked(CloseEnded(r), id) {
      assert HasAsked(CloseEnded(r), id) <==> HasAsked(r, id);
    }
  }

  lemma StepFollows(r: Run, reading: Reading)
    requires RunOk(r) && ReadingOk(r, reading)
    ensures TurnsFollow(r, StepIn(r, reading).run)
  {
    hide RunOk, OpenStep, CloseEnded, TurnsFollow;
    ClosingFollows(r);
    assert TurnsFollow(r, r) by { TurnsStay(r, r); }
    if r.phaseKey in r.graph.phases && !(r.closed && NextKey(r).None?) {
      ClosingSettles(r);
      ClosingKeeps(r);
      FreshIsUnrecorded(CloseEnded(r), reading.freshId);
      OpenStepFollows(CloseEnded(r), reading);
      FollowingChains(r, CloseEnded(r), StepIn(r, reading).run);
    }
  }

  lemma RecordedIsStored(r: Run, id: Id)
    requires RunOk(r) && id in r.attempts
    ensures Stored(r, id)
  {
    var i :| 0 <= i < |r.dispatches| && r.dispatches[i].id == id && r.dispatches[i].task == r.attempts[id].task;
  }

  lemma FreshIsUnrecorded(r: Run, id: Id)
    requires RunOk(r) && !Stored(r, id)
    ensures id !in r.attempts
  {
    hide RunOk;
    if id in r.attempts { RecordedIsStored(r, id); }
  }

  /** No later event rewrites how a turn ended, forgets a dispatch or a question. */
  lemma {:induction false} EndingsAreFinal(r: Run, events: seq<Event>)
    requires RunOk(r) && History(r, events)
    ensures TurnsFollow(r, After(r, events))
    decreases |events|
  {
    hide RunOk, EventOk, StepIn;
    if events != [] {
      var s := Apply(r, events[0]);
      EventKeepsOk(r, events[0]);
      EndingsAreFinal(s, events[1..]);
      EventFollows(r, events[0]);
      hide TurnsFollow, Apply;
      FollowingChains(r, s, After(s, events[1..]));
    } else {
      TurnsStay(r, r);
    }
  }

  lemma EventFollows(r: Run, e: Event)
    requires RunOk(r) && EventOk(r, e)
    ensures TurnsFollow(r, Apply(r, e))
  {
    hide RunOk, StepIn;
    if e.Step? {
      assert ReadingOk(r, e.reading) by { StepIsRead(r, e.reading); }
      StepFollows(r, e.reading);
    }
  }

  lemma StepIsRead(r: Run, reading: Reading)
    requires EventOk(r, Step(reading))
    ensures ReadingOk(r, reading)
  {
  }

  /** A task none of whose dispatches asked anything never holds more dispatches
      than its allowance, whichever of the retry paths made them. */
  lemma UnaskedCeiling(start: Run, events: seq<Event>, task: Id)
    requires NewRun(start) && History(start, events)
    requires forall i :: 0 <= i < |After(start, events).dispatches| && Mine(After(start, events), task, After(start, events).dispatches[i]) ==>
               !HasAsked(After(start, events), After(start, events).dispatches[i].id)
    requires AnswersFor(After(start, events).answered, task) == 0
    ensures CountIf(After(start, events).dispatches, d => Mine(After(start, events), task, d))
            <= Allowance(After(start, events).graph, task)
  {
    hide RunOk, NewRun, History, After, HasAsked, TurnsFollow, Allowance, AnswersFor;
    var r := After(start, events);
    AttemptCeiling(start, events, task);
    NewRunIsOk(start);
    EndingsAreFinal(start, events);
    SuspendedHasAsked(start, r);
    CountOfImplied(r.dispatches, d => Mine(r, task, d), d => NotSuspended(r, task, d));
  }

  lemma SuspendedHasAsked(start: Run, r: Run)
    requires NewRun(start) && TurnsFollow(start, r)
    ensures forall id :: HasTurn(r, id, Suspended) ==> HasAsked(r, id)
  {
    hide HasAsked, GraphOk, IdsOk;
  }
}
