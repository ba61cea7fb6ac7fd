/** What a retry changes: the dispatch the phase stands on afterwards, and how the
    tries of a task are spent while its gate keeps refusing. */
module RunDriverRetries {
  import opened CodeUnits
  import opened Options
  import opened DispatchSelection
  import opened RunDriverModel
  import opened RunDriverInvariants
  import opened RunDriverChanges
  import opened RunDriverSteps
  import opened RunDriverProofs
  import opened RunDriverOutcomes
  import Coverage = TaskCoverage

  // ----- the selection after another try

  lemma AnotherTryChangesNothing(v: View, ds: seq<Dispatch>, nd: Dispatch)
    requires InPhase(v, nd) && nd.task in v.accepted && nd.id !in v.handedIn
    requires Held(v, ds, nd.task).Some? && Held(v, ds, nd.task).value.id in v.handedIn
    ensures Current(v, ds + [nd]) == Current(v, ds)
  {
    var all := ds + [nd];
    assert all[..|ds|] == ds;
    assert nd.task in FirstSeen(v, ds);
    assert FirstSeen(v, all) == FirstSeen(v, ds);
    forall k | 0 <= k < |FirstSeen(v, ds)| ensures Current(v, all)[k] == Current(v, ds)[k] {
      var task := FirstSeen(v, ds)[k];
      assert Held(v, all, task) == Held(v, ds, task);
      assert Held(v, all, FirstSeen(v, all)[k]) == Some(Current(v, all)[k]);
      assert Held(v, ds, FirstSeen(v, ds)[k]) == Some(Current(v, ds)[k]);
    }
  }

  ghost predicate Above(v: View, ds: seq<Dispatch>, nd: Dispatch) {
    forall i :: 0 <= i < |ds| && InPhase(v, ds[i]) ==> ds[i].ordinal < nd.ordinal
  }

  lemma AnotherTryTakesOver(v: View, ds: seq<Dispatch>, nd: Dispatch)
    requires InPhase(v, nd) && nd.id !in v.handedIn && Above(v, ds, nd)
    requires Held(v, ds, nd.task).Some? && (nd.task !in v.accepted || Held(v, ds, nd.task).value.id !in v.handedIn)
    ensures nd in Current(v, ds + [nd])
  {
    var all := ds + [nd];
    assert all[..|ds|] == ds;
    HeldWins(v, ds, nd.task);
    assert Held(v, all, nd.task) == Some(nd);
    HeldWins(v, all, nd.task);
    SelectedAreTheWinners(v, all, nd);
  }

  lemma CurrentIsHeld(v: View, ds: seq<Dispatch>, d: Dispatch)
    requires d in Current(v, ds)
    ensures Held(v, ds, d.task) == Some(d)
  {
    SelectedAreTheWinners(v, ds, d);
    var i :| Wins(v, ds, i) && ds[i] == d;
    HeldWins(v, ds, d.task);
    WinnerIsUnique(v, ds, d.task, d, Held(v, ds, d.task).value);
  }

  // ----- the selection after an acceptance

  /** `w` is `v` with more tasks accepted. */
  ghost predicate AcceptsMore(v: View, w: View) { w == v.(accepted := w.accepted) && v.accepted <= w.accepted }

  lemma {:induction false} FirstSeenIgnoresAcceptance(v: View, w: View, ds: seq<Dispatch>)
    requires AcceptsMore(v, w)
    ensures FirstSeen(w, ds) == FirstSeen(v, ds)
  {
    if ds != [] { FirstSeenIgnoresAcceptance(v, w, ds[..|ds| - 1]); }
  }

  lemma HandedInStaysHeld(v: View, w: View, ds: seq<Dispatch>, task: Id)
    requires AcceptsMore(v, w) && Held(v, ds, task).Some? && Held(v, ds, task).value.id in v.handedIn
    ensures Held(w, ds, task) == Held(v, ds, task)
  {
    var d := Held(v, ds, task).value;
    HeldWins(v, ds, task);
    var i :| Wins(v, ds, i) && ds[i] == d;
    assert Wins(w, ds, i);
    HeldWins(w, ds, task);
    WinnerIsUnique(w, ds, task, d, Held(w, ds, task).value);
  }

  /** While every current dispatch has handed in, accepting tasks moves none. */
  lemma AcceptingMovesNothing(v: View, w: View, ds: seq<Dispatch>)
    requires AcceptsMore(v, w) && forall d :: d in Current(v, ds) ==> d.id in v.handedIn
    ensures Current(w, ds) == Current(v, ds)
  {
    FirstSeenIgnoresAcceptance(v, w, ds);
    var tasks := FirstSeen(v, ds);
    forall k | 0 <= k < |tasks| ensures Current(w, ds)[k] == Current(v, ds)[k] {
      assert Current(v, ds)[k] in Current(v, ds);
      assert Held(v, ds, FirstSeen(v, ds)[k]) == Some(Current(v, ds)[k]);
      assert Held(w, ds, FirstSeen(w, ds)[k]) == Some(Current(w, ds)[k]);
      HandedInStaysHeld(v, w, ds, tasks[k]);
    }
  }

  // ----- what a retrying step leaves

  /** `s` is `r` with one more try `nd` of the task of `d`. Tasks become accepted
      only in a step about handed-in, published work, and its own task then is. */
  ghost predicate RetryOf(r: Run, s: Run, d: Dispatch, nd: Dispatch) {
    && s == r.(dispatches := r.dispatches + [nd], attempts := s.attempts, accepted := s.accepted, undelivered := s.undelivered)
    && nd.runId == r.runId && nd.task == d.task && Above(ViewOf(r), r.dispatches, nd)
    && AcceptedIds(r) <= AcceptedIds(s)
    && if d.id in r.completions && d.id in r.published then d.task in AcceptedIds(s) else s.accepted == r.accepted
  }

  /** The facts about the carried dispatch that every retry path starts from. */
  ghost predicate About(r: Run, spec: PhaseSpec, d: Dispatch) {
    GraphOk(r.graph) && Reached(r) && InPhase(ViewOf(r), d) && spec == r.graph.phases[r.phaseKey]
  }

  lemma RetryMakesOne(r: Run, spec: PhaseSpec, d: Dispatch, reading: Reading)
    requires About(r, spec, d) && Retry(r, spec, d, reading).outcome.Retrying?
    ensures var nd := Dispatch(reading.freshId, r.runId, d.task, NextAttempt(r, reading));
            && Retry(r, spec, d, reading).run
               == r.(dispatches := r.dispatches + [nd], attempts := r.attempts[nd.id := Attempt(d.task, Opened)])
            && Retry(r, spec, d, reading).outcome == Retrying(nd.ordinal, nd.id) && Above(ViewOf(r), r.dispatches, nd)
  {
    hide GraphOk, Reached, NextAttempt;
    TaskIsDeclared(r, d);
    NextIsAbove(r, reading, d.task);
  }

  lemma NextIsAbove(r: Run, reading: Reading, task: Id)
    ensures Above(ViewOf(r), r.dispatches, Dispatch(reading.freshId, r.runId, task, NextAttempt(r, reading)))
  {
    HighestIsHighest(ViewOf(r), r.dispatches);
  }

  ghost function TryOf(r: Run, d: Dispatch, made: Stepped): Dispatch
    requires made.outcome.Retrying?
  {
    Dispatch(made.outcome.dispatchId, r.runId, d.task, made.outcome.attempt)
  }

  /** A stepped run that retried, and with the identity it was given. */
  ghost predicate Retried(r: Run, d: Dispatch, reading: Reading, made: Stepped) {
    made.outcome.Retrying? ==> RetryOf(r, made.run, d, TryOf(r, d, made)) && made.outcome.dispatchId == reading.freshId
  }

  lemma WorkRetried(r: Run, spec: PhaseSpec, d: Dispatch, reading: Reading)
    requires About(r, spec, d) && StaysAccepted(r, reading.acceptedAfter)
    ensures Retried(r, d, reading, WorkStep(r, spec, d, reading))
  {
    hide About, Retry, GateStep, TaskAttempts, HasAsked, AttemptOver, Above;
    if d.id in r.completions && d.id in r.published {
      GateRetried(r, spec, d, reading);
    } else if Retry(r, spec, d, reading).outcome.Retrying? {
      RetryMakesOne(r, spec, d, reading);
    }
  }

  lemma MoreIsAccepted(r: Run, after: seq<Coverage.TaskRef>)
    requires StaysAccepted(r, after)
    ensures AcceptedIds(r) <= AcceptedIds(r.(accepted := after))
  {
    forall task | task in AcceptedIds(r) ensures task in AcceptedIds(r.(accepted := after)) {
      var i :| 0 <= i < |r.accepted| && r.accepted[i].id == task;
      assert AcceptedIn(after, r.accepted[i].id);
    }
  }

  lemma GateRetried(r: Run, spec: PhaseSpec, d: Dispatch, reading: Reading)
    requires About(r, spec, d) && StaysAccepted(r, reading.acceptedAfter) && d.id in r.completions && d.id in r.published
    ensures Retried(r, d, reading, GateStep(r, spec, d, reading))
  {
    hide About, Retry, GateStep, Covered, Above, StaysAccepted, RetryOf, AcceptedIds, TaskAccepted, NextAttempt, ViewOf;
    var s := r.(accepted := reading.acceptedAfter);
    if GateStep(r, spec, d, reading).outcome.Retrying? {
      AboutIgnores(r, s, spec, d);
      GateRetries(r, spec, d, reading);
      AboutCovered(s, spec, d);
      RetryMakesOne(s, spec, d, reading);
      MoreIsAccepted(r, reading.acceptedAfter);
      RetriedOnceAccepted(r, s, Retry(s, spec, d, reading).run, d, TryOf(r, d, Retry(s, spec, d, reading)));
    }
  }

  lemma GateRetries(r: Run, spec: PhaseSpec, d: Dispatch, reading: Reading)
    requires GateStep(r, spec, d, reading).outcome.Retrying?
    ensures var s := r.(accepted := reading.acceptedAfter); GateStep(r, spec, d, reading) == Retry(s, spec, d, reading) && Covered(s, spec)
  {
    hide Retry, TaskAttempts, Covered, Outstanding;
  }

  lemma AboutIgnores(r: Run, s: Run, spec: PhaseSpec, d: Dispatch)
    requires About(r, spec, d) && s == r.(attempts := s.attempts, accepted := s.accepted, undelivered := s.undelivered)
    ensures About(s, spec, d)
  {
    hide GraphOk;
  }

  lemma AboutCovered(r: Run, spec: PhaseSpec, d: Dispatch)
    requires About(r, spec, d) && Covered(r, spec)
    ensures d.task in AcceptedIds(r)
  {
    hide GraphOk, Reached, Covered;
    CoveredIsAccepted(r, spec, d);
  }

  lemma RetriedOnceAccepted(r: Run, s: Run, t: Run, d: Dispatch, nd: Dispatch)
    requires s == r.(accepted := s.accepted) && t == s.(dispatches := s.dispatches + [nd], attempts := t.attempts)
    requires nd.runId == r.runId && nd.task == d.task && Above(ViewOf(s), r.dispatches, nd)
    requires AcceptedIds(r) <= AcceptedIds(s) && d.task in AcceptedIds(s) && d.id in r.completions && d.id in r.published
    ensures RetryOf(r, t, d, nd)
  {
    AboveIgnoresAcceptance(r, s, nd);
    assert AcceptedIds(t) == AcceptedIds(s);
    hide Above, AcceptedIds;
  }

  lemma AboveIgnoresAcceptance(r: Run, s: Run, nd: Dispatch)
    requires s == r.(attempts := s.attempts, accepted := s.accepted, undelivered := s.undelivered) && Above(ViewOf(s), r.dispatches, nd)
    ensures Above(ViewOf(r), r.dispatches, nd)
  {
    forall i | 0 <= i < |r.dispatches| && InPhase(ViewOf(r), r.dispatches[i]) ensures r.dispatches[i].ordinal < nd.ordinal {
      assert InPhase(ViewOf(s), r.dispatches[i]);
    }
  }

  /** A retry made after the turn was ended or an answer settled is one made before. */
  lemma RetriedFrom(r: Run, s: Run, d: Dispatch, reading: Reading, made: Stepped)
    requires s == r.(attempts := s.attempts, undelivered := s.undelivered) && Retried(s, d, reading, made)
    ensures Retried(r, d, reading, made)
  {
    assert ViewOf(s) == ViewOf(r);
    assert AcceptedIds(s) == AcceptedIds(r);
  }

  lemma AbortRetried(r: Run, spec: PhaseSpec, d: Dispatch, reading: Reading)
    requires About(r, spec, d) && d.id !in r.completions
    ensures Retried(r, d, reading, AbortStep(r, spec, d, reading))
  {
    hide About, Retry, Above;
    var ended := if AttemptOpen(r, d.id) then r.(attempts := r.attempts[d.id := Attempt(d.task, Refused)]) else r;
    AboutIgnores(r, ended, spec, d);
    if AbortStep(r, spec, d, reading).outcome.Retrying? { RetryMakesOne(ended, spec, d, reading); }
    RetriedFrom(r, ended, d, reading, AbortStep(r, spec, d, reading));
  }

  lemma CarriedRetried(r: Run, spec: PhaseSpec, d: Dispatch, reading: Reading)
    requires About(r, spec, d) && StaysAccepted(r, reading.acceptedAfter)
    ensures Retried(r, d, reading, CarriedStep(r, spec, d, reading))
  {
    hide About, AbortStep, AnswerStep, WorkStep, TaskAttempts, TaskDone, Owes, OwesExhausted, AttemptOpen, StillOwed, AnswersItsAsker,
         Retried, StaysAccepted;
    var settled := r.(undelivered := StillOwed(r.questions, r.undelivered, d));
    AboutIgnores(r, settled, spec, d);
    if d.id !in r.completions { AbortRetried(r, spec, d, reading); }
    AnswerDoesNotRetry(r, spec, d, reading);
    WorkRetried(r, spec, d, reading);
    StillAccepted(r, settled, reading.acceptedAfter);
    WorkRetried(settled, spec, d, reading);
    RetriedFrom(r, settled, d, reading, WorkStep(settled, spec, d, reading));
    assert Retried(r, d, reading, Stepped(settled, Thrown(DeliveryRefused))) by { NoRetry(r, d, reading, settled); }
  }

  lemma NoRetry(r: Run, d: Dispatch, reading: Reading, s: Run)
    ensures Retried(r, d, reading, Stepped(s, Thrown(DeliveryRefused)))
  {
  }

  lemma StillAccepted(r: Run, s: Run, after: seq<Coverage.TaskRef>)
    requires s.accepted == r.accepted && StaysAccepted(r, after)
    ensures StaysAccepted(s, after)
  {
  }

  lemma AnswerDoesNotRetry(r: Run, spec: PhaseSpec, d: Dispatch, reading: Reading)
    ensures Retried(r, d, reading, AnswerStep(r, spec, d, reading))
  {
    hide NextAttempt, RetryTask, OtherOpen;
  }

  lemma OpenRetried(r: Run, reading: Reading)
    requires RunOk(r) && ReadingOk(r, reading) && r.phaseKey in r.graph.phases
    requires OpenStep(r, r.graph.phases[r.phaseKey], reading).outcome.Retrying?
    ensures Carried(ViewOf(r), r.dispatches).Some?
    ensures Retried(r, Carried(ViewOf(r), r.dispatches).value, reading, OpenStep(r, r.graph.phases[r.phaseKey], reading))
  {
    hide RunOk, CarriedStep, StopsFast, Carried, Retried, About, OtherOpen;
    var spec := r.graph.phases[r.phaseKey];
    if !(spec.fanOut && Pending(r, spec.tasks, 0).Some?) && Carried(ViewOf(r), r.dispatches).Some? {
      var d := Carried(ViewOf(r), r.dispatches).value;
      CarriedIsAbout(r, d);
      CarriedRetried(r, spec, d, reading);
    }
  }

  lemma CarriedIsAbout(r: Run, d: Dispatch)
    requires RunOk(r) && Carried(ViewOf(r), r.dispatches) == Some(d)
    ensures r.phaseKey in r.graph.phases && About(r, r.graph.phases[r.phaseKey], d)
  {
    PartsOfSelection(r);
    hide RunOk, Carried, GraphOk;
    CarriedIsOnTop(r, d);
    OnTopIsStored(r, d);
  }

  lemma StepRetried(r: Run, reading: Reading)
    requires RunOk(r) && ReadingOk(r, reading) && StepIn(r, reading).outcome.Retrying?
    ensures Carried(ViewOf(r), r.dispatches).Some?
    ensures Retried(r, Carried(ViewOf(r), r.dispatches).value, reading, StepIn(r, reading))
  {
    var c := CloseEnded(r);
    hide RunOk, OpenStep, CloseEnded, ReadingOk, Carried, Retried, AcceptedAreOver, CompletedAreOver;
    ClosingSettles(r);
    ClosingKeeps(r);
    ClosingKeepsReading(r, reading);
    SameView(r, c);
    OpenRetried(c, reading);
    RetriedFrom(r, c, Carried(ViewOf(r), r.dispatches).value, reading, StepIn(r, reading));
  }

  lemma SameView(r: Run, s: Run)
    requires s == r.(attempts := s.attempts, undelivered := s.undelivered)
    ensures ViewOf(s) == ViewOf(r)
  {
    assert AcceptedIds(s) == AcceptedIds(r);
  }

  // ----- whether the retry becomes current

  /** The work a dispatch handed in is published, or its task is accepted. */
  predicate WorkIsDone(r: Run, d: Dispatch) {
    d.id in r.completions && (d.id in r.published || d.task in AcceptedIds(r))
  }

  lemma FreshIsNew(r: Run, id: Id)
    requires RunOk(r) && !Stored(r, id)
    ensures id !in r.completions && !HasAsked(r, id) && !IsStored(r.dispatches, id)
    ensures forall d :: d in r.dispatches ==> d.id != id
  {
    assert NamesStored(r);
    assert !IsStored(r.dispatches, id);
  }

  lemma ViewAfterRetry(r: Run, s: Run, d: Dispatch, nd: Dispatch)
    requires RetryOf(r, s, d, nd)
    ensures AcceptsMore(ViewOf(r), ViewOf(s)) && (s.accepted == r.accepted ==> ViewOf(s) == ViewOf(r))
  {
    assert s.accepted == r.accepted ==> AcceptedIds(s) == AcceptedIds(r);
  }

  /** A retry of work that is done moves nothing: the phase stands where it stood. */
  lemma DoneWorkStaysCurrent(r: Run, s: Run, d: Dispatch, nd: Dispatch)
    requires Carried(ViewOf(r), r.dispatches) == Some(d) && RetryOf(r, s, d, nd) && nd.id !in r.completions && WorkIsDone(r, d)
    ensures Current(ViewOf(s), s.dispatches) == Current(ViewOf(r), r.dispatches)
    ensures d.task in AcceptedIds(s)
  {
    var v, w, ds := ViewOf(r), ViewOf(s), r.dispatches;
    ViewAfterRetry(r, s, d, nd);
    CarriedMeans(v, ds);
    CarriedIsOnTop(r, d);
    OnTopIsStored(r, d);
    CurrentIsHeld(v, ds, d);
    AcceptingMovesNothing(v, w, ds);
    HandedInStaysHeld(v, w, ds, d.task);
    AnotherTryChangesNothing(w, ds, nd);
  }

  lemma UnfinishedWorkIsReplaced(r: Run, s: Run, d: Dispatch, nd: Dispatch)
    requires Carried(ViewOf(r), r.dispatches) == Some(d) && RetryOf(r, s, d, nd) && nd.id !in r.completions && !WorkIsDone(r, d)
    ensures nd in Current(ViewOf(s), s.dispatches)
  {
    ViewAfterRetry(r, s, d, nd);
    CarriedIsOnTop(r, d);
    OnTopIsStored(r, d);
    CurrentIsHeld(ViewOf(r), r.dispatches, d);
    AnotherTryTakesOver(ViewOf(r), r.dispatches, nd);
  }

  /** The fresh dispatch of a retry becomes current exactly when the work of the
      dispatch the step was about is not done; and the next step is about work that
      was handed in exactly when it is. */
  lemma RetryTakesOverUnfinishedWork(r: Run, reading: Reading)
    requires RunOk(r) && ReadingOk(r, reading) && StepIn(r, reading).outcome.Retrying?
    ensures Carried(ViewOf(r), r.dispatches).Some?
    ensures var d, made := Carried(ViewOf(r), r.dispatches).value, StepIn(r, reading);
            var nd := Dispatch(made.outcome.dispatchId, r.runId, d.task, made.outcome.attempt);
            && made.run.dispatches == r.dispatches + [nd] && nd.id !in made.run.completions
            && (nd in Current(ViewOf(made.run), made.run.dispatches) <==> !WorkIsDone(r, d))
            && Carried(ViewOf(made.run), made.run.dispatches).Some?
            && (Carried(ViewOf(made.run), made.run.dispatches).value.id in made.run.completions <==> WorkIsDone(r, d))
  {
    hide RunOk, ReadingOk, Carried, WorkIsDone, StepIn, Current, RetryOf, ViewOf, Stored;
    StepRetried(r, reading);
    FreshOfReading(r, reading);
    FreshIsNew(r, reading.freshId);
    var d, made := Carried(ViewOf(r), r.dispatches).value, StepIn(r, reading);
    var nd := TryOf(r, d, made);
    RetryAdds(r, made.run, d, nd);
    if WorkIsDone(r, d) {
      DoneWorkIsCarried(r, made.run, d, nd);
    } else {
      UnfinishedWorkIsReplaced(r, made.run, d, nd);
      UnhandedIsCarried(made.run, nd);
    }
  }

  lemma RetryAdds(r: Run, s: Run, d: Dispatch, nd: Dispatch)
    requires RetryOf(r, s, d, nd)
    ensures s.dispatches == r.dispatches + [nd] && s.completions == r.completions && s.questions == r.questions
  {
  }

  lemma DoneWorkIsCarried(r: Run, s: Run, d: Dispatch, nd: Dispatch)
    requires Carried(ViewOf(r), r.dispatches) == Some(d) && RetryOf(r, s, d, nd) && WorkIsDone(r, d)
    requires nd.id !in r.completions && forall e :: e in r.dispatches ==> e.id != nd.id
    ensures Carried(ViewOf(s), s.dispatches) == Some(d) && d.id in s.completions && nd !in Current(ViewOf(s), s.dispatches)
  {
    hide Carried, Current, RetryOf, WorkIsDone;
    RetryAdds(r, s, d, nd);
    DoneWorkStaysCurrent(r, s, d, nd);
    DoneWorkIsHandedIn(r, d);
    SameCarried(ViewOf(r), ViewOf(s), r.dispatches, s.dispatches);
    if nd in Current(ViewOf(r), r.dispatches) { CurrentIsStored(r, nd); }
  }

  lemma UnhandedIsCarried(r: Run, nd: Dispatch)
    requires nd in Current(ViewOf(r), r.dispatches) && nd.id !in r.completions
    ensures Carried(ViewOf(r), r.dispatches).Some? && Carried(ViewOf(r), r.dispatches).value.id !in r.completions
  {
    hide Carried, Current;
    CarriedMeans(ViewOf(r), r.dispatches);
    NoneIsCurrent(ViewOf(r), r.dispatches);
  }

  lemma DoneWorkIsHandedIn(r: Run, d: Dispatch)
    requires WorkIsDone(r, d)
    ensures d.id in r.completions
  {
  }

  lemma SameCarried(v: View, w: View, ds: seq<Dispatch>, es: seq<Dispatch>)
    requires Current(w, es) == Current(v, ds) && w.handedIn == v.handedIn
    ensures Carried(w, es) == Carried(v, ds)
  {
  }

  lemma CurrentIsStored(r: Run, d: Dispatch)
    requires d in Current(ViewOf(r), r.dispatches)
    ensures d in r.dispatches
  {
    SelectedAreTheWinners(ViewOf(r), r.dispatches, d);
    WinnerIsOnTop(ViewOf(r), r.dispatches, d.task, d);
  }

  // ----- the newest try of a task

  lemma TopIsCurrent(v: View, ds: seq<Dispatch>, nd: Dispatch)
    requires nd in ds && InPhase(v, nd)
    requires forall e :: e in ds && InPhase(v, e) && e.task == nd.task && e != nd ==> Below(v, e, nd)
    ensures nd in Current(v, ds)
  {
    hide Current, Below, WinnerOf;
    var k :| 0 <= k < |ds| && ds[k] == nd;
    HeldWins(v, ds, nd.task);
    WinnerIsOnTop(v, ds, nd.task, Held(v, ds, nd.task).value);
    SelectedAreTheWinners(v, ds, nd);
  }

  predicate NobodyHandedIn(r: Run, task: Id) {
    forall i :: 0 <= i < |r.dispatches| && Mine(r, task, r.dispatches[i]) ==> r.dispatches[i].id !in r.completions
  }

  lemma NewestIsAbove(r: Run, nd: Dispatch, e: Dispatch)
    requires DistinctInRun(r, r.dispatches) && Newest(r, nd) && nd in r.dispatches && e in r.dispatches && Mine(r, nd.task, e) && e != nd
    ensures e.ordinal < nd.ordinal
  {
    var i :| 0 <= i < |r.dispatches| && r.dispatches[i] == e;
    assert Mine(r, nd.task, r.dispatches[i]);
  }

  lemma NewestIsOnTop(r: Run, nd: Dispatch)
    requires DistinctInRun(r, r.dispatches) && nd in r.dispatches && InPhase(ViewOf(r), nd) && Newest(r, nd)
    requires nd.id in r.completions || nd.task !in AcceptedIds(r) || NobodyHandedIn(r, nd.task)
    ensures nd in Current(ViewOf(r), r.dispatches)
  {
    hide DistinctInRun, Newest, AcceptedIds, Current;
    forall e | e in r.dispatches && InPhase(ViewOf(r), e) && e.task == nd.task && e != nd ensures Below(ViewOf(r), e, nd) {
      var i :| 0 <= i < |r.dispatches| && r.dispatches[i] == e;
      NewestIsAbove(r, nd, e);
      assert NobodyHandedIn(r, nd.task) ==> e.id !in r.completions && nd.id !in r.completions by {
        var k :| 0 <= k < |r.dispatches| && r.dispatches[k] == nd;
      }
    }
    TopIsCurrent(ViewOf(r), r.dispatches, nd);
  }

  lemma OvertakenIsNotCurrent(r: Run, nd: Dispatch, e: Dispatch)
    requires InPhase(ViewOf(r), nd) && nd.id !in r.completions && nd.task in AcceptedIds(r)
    requires e in r.dispatches && Mine(r, nd.task, e) && e.id in r.completions
    ensures nd !in Current(ViewOf(r), r.dispatches)
  {
    hide Current, AcceptedIds, WinnerOf;
    assert Below(ViewOf(r), nd, e) && InPhase(ViewOf(r), e);
    hide Below;
    if nd in Current(ViewOf(r), r.dispatches) {
      SelectedAreTheWinners(ViewOf(r), r.dispatches, nd);
      WinnerIsOnTop(ViewOf(r), r.dispatches, nd.task, nd);
    }
  }

  /** The newest dispatch of a task is the one the phase stands on exactly when it has
      handed in, its task is not accepted, or no dispatch of the task has handed in. */
  lemma NewestIsCurrent(r: Run, nd: Dispatch)
    requires RunOk(r) && nd in r.dispatches && InPhase(ViewOf(r), nd) && Newest(r, nd)
    ensures nd in Current(ViewOf(r), r.dispatches) <==>
              nd.id in r.completions || nd.task !in AcceptedIds(r) || NobodyHandedIn(r, nd.task)
  {
    hide RunOk, OrdinalsOk, OwnersOk, OpenIsNewest, DistinctInRun, Newest, Current, AcceptedIds;
    PartsOfTurns(r);
    MineAreDistinct(r);
    if nd.id in r.completions || nd.task !in AcceptedIds(r) || NobodyHandedIn(r, nd.task) {
      NewestIsOnTop(r, nd);
    } else {
      var i :| 0 <= i < |r.dispatches| && Mine(r, nd.task, r.dispatches[i]) && r.dispatches[i].id in r.completions;
      OvertakenIsNotCurrent(r, nd, r.dispatches[i]);
    }
  }

  lemma RetryIsNewest(r: Run, s: Run, d: Dispatch, nd: Dispatch)
    requires RetryOf(r, s, d, nd) && InPhase(ViewOf(r), d)
    ensures nd in s.dispatches && Stored(s, nd.id) && InPhase(ViewOf(s), nd) && Newest(s, nd)
  {
    hide AcceptedIds;
    assert s.dispatches[|r.dispatches|] == nd;
    forall j | 0 <= j < |s.dispatches| && Mine(s, nd.task, s.dispatches[j]) ensures s.dispatches[j].ordinal <= nd.ordinal {
      if j < |r.dispatches| { assert InPhase(ViewOf(r), r.dispatches[j]); }
    }
  }

  /** Once the retry of any step hands in, the phase stands on it, accepted work included. */
  lemma RetryTakesOverOnceHandedIn(r: Run, reading: Reading, blocked: bool)
    requires RunOk(r) && ReadingOk(r, reading) && StepIn(r, reading).outcome.Retrying?
    ensures Carried(ViewOf(r), r.dispatches).Some?
    ensures var s := StepIn(r, reading).run;
            var nd := TryOf(r, Carried(ViewOf(r), r.dispatches).value, StepIn(r, reading));
            var t := Apply(s, HandIn(nd.id, blocked));
            EventOk(s, HandIn(nd.id, blocked)) && nd in Current(ViewOf(t), t.dispatches)
  {
    hide RunOk, ReadingOk, StepIn, Carried, Current, RetryOf, Stored, Newest, Above, NobodyHandedIn;
    StepRetried(r, reading);
    FreshOfReading(r, reading);
    FreshIsNew(r, reading.freshId);
    StepKeepsOk(r, reading);
    var d, s := Carried(ViewOf(r), r.dispatches).value, StepIn(r, reading).run;
    var nd := TryOf(r, d, StepIn(r, reading));
    CarriedIsNotFresh(r, d, reading.freshId);
    RetryAdds(r, s, d, nd);
    RetryIsNewest(r, s, d, nd);
    var e := HandIn(nd.id, blocked);
    EventKeepsOk(s, e);
    NewestIgnoresCompletions(s, Apply(s, e), nd);
    NewestIsCurrent(Apply(s, e), nd);
  }

  lemma NewestIgnoresCompletions(r: Run, s: Run, nd: Dispatch)
    requires s == r.(completions := s.completions) && Newest(r, nd) && InPhase(ViewOf(r), nd)
    ensures Newest(s, nd) && InPhase(ViewOf(s), nd)
  {
    hide AcceptedIds;
  }

  // ----- what is not awaited

  /** A step that retries work that is done leaves the phase standing on that work,
      and no next step, whatever it reads, waits for the agent of the retry. */
  lemma RetryOfAcceptedWorkIsNotAwaited(r: Run, reading: Reading, next: Reading)
    requires RunOk(r) && ReadingOk(r, reading) && StepIn(r, reading).outcome.Retrying?
    requires Carried(ViewOf(r), r.dispatches).Some? && WorkIsDone(r, Carried(ViewOf(r), r.dispatches).value)
    ensures var s := StepIn(r, reading).run;
            && Carried(ViewOf(s), s.dispatches) == Carried(ViewOf(r), r.dispatches)
            && StepIn(s, next).outcome != AwaitingAgent(Some(StepIn(r, reading).outcome.dispatchId))
  {
    hide RunOk, ReadingOk, WorkIsDone, StepIn, Current, HasAsked, Carried, RetryOf, OnAccepted, Stored, ViewOf;
    StepRetried(r, reading);
    FreshOfReading(r, reading);
    FreshIsNew(r, reading.freshId);
    var d, made := Carried(ViewOf(r), r.dispatches).value, StepIn(r, reading);
    var s, nd := made.run, TryOf(r, d, made);
    RetryAdds(r, s, d, nd);
    DoneWorkIsCarried(r, s, d, nd);
    RetryIsOfAccepted(r, s, d, nd);
    SameQuestions(r, s, nd.id);
    if StepIn(s, next).outcome == AwaitingAgent(Some(nd.id)) {
      WaitIsJustified(s, next, nd.id);
    }
  }

  lemma RetryIsOfAccepted(r: Run, s: Run, d: Dispatch, nd: Dispatch)
    requires Carried(ViewOf(r), r.dispatches) == Some(d) && RetryOf(r, s, d, nd) && nd.id !in r.completions && WorkIsDone(r, d)
    ensures OnAccepted(s, nd.id)
  {
    hide Carried, WorkIsDone, Above, AcceptedIds;
    DoneWorkStaysCurrent(r, s, d, nd);
    assert s.dispatches[|r.dispatches|] == nd;
  }

  lemma SameQuestions(r: Run, s: Run, id: Id)
    requires s.questions == r.questions
    ensures HasAsked(s, id) <==> HasAsked(r, id)
  {
  }

  // ----- a gate that keeps refusing

  /** The phase stands on published work whose task is owed no answer. */
  ghost predicate AtGate(r: Run, d: Dispatch) {
    && RunOk(r) && NonePending(r) && !(r.closed && NextKey(r).None?)
    && Carried(ViewOf(r), r.dispatches) == Some(d) && d.id in r.completions && d.id in r.published && !Owes(r, d.task)
  }

  /** The tries a step counts: ended turns are recorded before it counts them. */
  function TriesOf(r: Run, task: Id): nat { TaskAttempts(CloseEnded(r), task) }

  /** Nothing goes wrong before the gate, which refuses. */
  ghost predicate RefusesWork(r: Run, reading: Reading) {
    && ReadingOk(r, reading) && r.phaseKey in r.graph.phases
    && !reading.publishRefused && !reading.deliveryFails && Covered(r.(accepted := reading.acceptedAfter), r.graph.phases[r.phaseKey])
    && !reading.gateCommandFails && !reading.gateAccepted
  }

  lemma WorkGoesToItsGate(r: Run, spec: PhaseSpec, d: Dispatch, reading: Reading)
    requires NonePending(r) && spec == r.graph.phases[r.phaseKey]
    requires Carried(ViewOf(r), r.dispatches) == Some(d) && d.id in r.completions && d.id in r.published && !Owes(r, d.task)
    ensures OpenStep(r, spec, reading) == GateStep(r, spec, d, reading)
  {
    hide GateStep, Carried, TaskAttempts, TaskDone, OwesExhausted, Owes, AbortStep, AnswerStep;
    PendingIsNoneTried(r, spec.tasks);
  }

  lemma GateRefuses(r: Run, d: Dispatch, reading: Reading)
    requires AtGate(r, d) && RefusesWork(r, reading)
    ensures StepIn(r, reading) == RefusedStep(CloseEnded(r).(accepted := reading.acceptedAfter), TriesOf(r, d.task),
                                              r.graph.phases[r.phaseKey], d, reading)
  {
    var c, spec := CloseEnded(r), r.graph.phases[r.phaseKey];
    ClosingSettles(r);
    hide RunOk, CloseEnded, ReadingOk, Carried, Covered, RefusedStep, TaskAttempts;
    SameView(r, c);
    NonePendingSame(r, c);
    assert Owes(c, d.task) <==> Owes(r, d.task);
    assert Covered(c.(accepted := reading.acceptedAfter), spec) by { SameCoverage(r, c, spec, reading); }
    hide NonePending, Owes, GateStep;
    WorkGoesToItsGate(c, spec, d, reading);
    GateReaches(c, spec, d, reading);
  }

  lemma SameCoverage(r: Run, s: Run, spec: PhaseSpec, reading: Reading)
    requires s == r.(attempts := s.attempts)
    ensures Covered(s.(accepted := reading.acceptedAfter), spec) <==> Covered(r.(accepted := reading.acceptedAfter), spec)
  {
  }

  lemma GateReaches(r: Run, spec: PhaseSpec, d: Dispatch, reading: Reading)
    requires !reading.publishRefused && !reading.deliveryFails && Covered(r.(accepted := reading.acceptedAfter), spec)
    requires !reading.gateCommandFails && !reading.gateAccepted
    ensures GateStep(r, spec, d, reading) == RefusedStep(r.(accepted := reading.acceptedAfter), TaskAttempts(r, d.task), spec, d, reading)
  {
    hide Covered, RefusedStep, TaskAttempts;
  }

  // ----- counting the tries of one more

  lemma CountOneMore(ds: seq<Dispatch>, nd: Dispatch, p: Dispatch -> bool, q: Dispatch -> bool)
    requires p(nd) && forall i :: 0 <= i < |ds| ==> (p(ds[i]) <==> q(ds[i]))
    ensures CountIf(ds + [nd], p) == CountIf(ds, q) + 1
  {
    assert (ds + [nd])[..|ds|] == ds;
    CountOfImplied(ds, p, q);
    CountOfImplied(ds, q, p);
  }

  /** Recording ended turns again suspends nothing: what asked was recorded, and
      what a later acceptance ends is closed. */
  lemma NothingIsSuspended(c: Run, s: Run, nd: Dispatch, id: Id)
    requires NoneToEnd(c) && Stored(c, id) && id != nd.id
    requires s == c.(dispatches := c.dispatches + [nd], attempts := c.attempts[nd.id := Attempt(nd.task, Opened)], accepted := s.accepted)
    ensures HasTurn(CloseEnded(s), id, Suspended) <==> HasTurn(c, id, Suspended)
  {
    assert Stored(s, id) by {
      var i :| 0 <= i < |c.dispatches| && c.dispatches[i].id == id;
      assert s.dispatches[i].id == id;
    }
    SameQuestions(c, s, id);
    hide HasAsked, OnAccepted, CloseEnded;
    EndedTurnsAreRecorded(s, id);
    EndedTurnsAreRecorded(c, id);
  }

  lemma TheTryIsNotSuspended(c: Run, s: Run, nd: Dispatch)
    requires !HasAsked(c, nd.id)
    requires s == c.(dispatches := c.dispatches + [nd], attempts := c.attempts[nd.id := Attempt(nd.task, Opened)], accepted := s.accepted)
    ensures !HasTurn(CloseEnded(s), nd.id, Suspended)
  {
    SameQuestions(c, s, nd.id);
    assert s.dispatches[|c.dispatches|] == nd;
    hide HasAsked, OnAccepted, CloseEnded;
    EndedTurnsAreRecorded(s, nd.id);
  }

  lemma OrdinalStays(c: Run, s: Run, nd: Dispatch, task: Id)
    requires NamesStored(c) && nd.runId == c.runId && !IsStored(c.dispatches, nd.id)
    requires s == c.(dispatches := c.dispatches + [nd], attempts := c.attempts[nd.id := Attempt(nd.task, Opened)], accepted := s.accepted)
    ensures AnsweredOrdinal(CloseEnded(s), task) == AnsweredOrdinal(c, task)
  {
    var accepting := c.(accepted := s.accepted);
    ClosingSettles(s);
    hide NamesStored, AnsweredOrdinal, CloseEnded;
    AnsweredSame(s, CloseEnded(s), task);
    AnsweredSame(c, accepting, task);
    NamesIgnoreAcceptance(c, accepting);
    OpeningKeepsAnswered(accepting, s, nd, task);
  }

  lemma NamesIgnoreAcceptance(r: Run, s: Run)
    requires s == r.(accepted := s.accepted) && NamesStored(r)
    ensures NamesStored(s)
  {
  }

  lemma OneMoreTry(c: Run, s: Run, nd: Dispatch)
    requires RunOk(c) && NoneToEnd(c) && !Stored(c, nd.id) && InPhase(ViewOf(c), nd) && AnsweredOrdinal(c, nd.task) < nd.ordinal
    requires s == c.(dispatches := c.dispatches + [nd], attempts := c.attempts[nd.id := Attempt(nd.task, Opened)], accepted := s.accepted)
    ensures TriesOf(s, nd.task) == TaskAttempts(c, nd.task) + 1
  {
    hide RunOk, NoneToEnd, AnsweredOrdinal, CloseEnded, NamesStored, HasAsked, HasTurn, CountIf, IsStored;
    var after, e := AnsweredOrdinal(c, nd.task), CloseEnded(s);
    FreshIsNew(c, nd.id);
    PartsOfRunOk(c);
    ClosingSettles(s);
    OrdinalStays(c, s, nd, nd.task);
    TheTryIsNotSuspended(c, s, nd);
    forall i | 0 <= i < |c.dispatches| ensures Spent(e, nd.task, after, c.dispatches[i]) <==> Spent(c, nd.task, after, c.dispatches[i]) {
      NothingIsSuspended(c, s, nd, c.dispatches[i].id);
    }
    CountOneMore(c.dispatches, nd, d => Spent(e, nd.task, after, d), d => Spent(c, nd.task, after, d));
  }

  // ----- the whole allowance

  /** One more try of the task of `d`, made from the recorded run with new acceptances. */
  ghost predicate MoreTried(c: Run, s: Run, nd: Dispatch) {
    s == c.(dispatches := c.dispatches + [nd], attempts := c.attempts[nd.id := Attempt(nd.task, Opened)], accepted := s.accepted)
  }

  lemma AboutDelivered(r: Run, d: Dispatch, reading: Reading)
    requires AtGate(r, d) && RefusesWork(r, reading)
    ensures var c := CloseEnded(r);
            && RunOk(c) && NoneToEnd(c) && !Stored(c, reading.freshId) && InPhase(ViewOf(c), d)
            && About(c.(accepted := reading.acceptedAfter), r.graph.phases[r.phaseKey], d) && OwnersOk(c)
  {
    var c := CloseEnded(r);
    ClosingKeeps(r);
    ClosingKeepsReading(r, reading);
    NothingLeftToEnd(r);
    ClosingSettles(r);
    hide CloseEnded, Carried, NoneToEnd, Covered;
    CarriedIsOnTop(r, d);
    OnTopIsStored(r, d);
    PartsOfSelection(c);
    SameView(r, c);
    assert OwnersOk(c);
    hide RunOk, GraphOk, AcceptedAreOver, CompletedAreOver, NonePending;
    AboutIgnoresAcceptance(c, c.(accepted := reading.acceptedAfter), d);
  }

  lemma AboutIgnoresAcceptance(r: Run, s: Run, d: Dispatch)
    requires s == r.(accepted := s.accepted) && GraphOk(r.graph) && Reached(r) && InPhase(ViewOf(r), d)
    ensures About(s, r.graph.phases[r.phaseKey], d)
  {
  }

  lemma RetryOutcome(r: Run, spec: PhaseSpec, d: Dispatch, reading: Reading)
    requires About(r, spec, d)
    ensures Retry(r, spec, d, reading).outcome.Retrying? || Retry(r, spec, d, reading).outcome == Thrown(AttemptAlreadyOpen)
  {
    hide GraphOk, Reached, NextAttempt;
    TaskIsDeclared(r, d);
  }

  lemma RefusalRetries(r: Run, d: Dispatch, reading: Reading)
    requires AtGate(r, d) && RefusesWork(r, reading)
    requires r.graph.phases[r.phaseKey].iterateOnGate && TriesOf(r, d.task) < r.graph.phases[r.phaseKey].maximumAttempts
    ensures var made, delivered := StepIn(r, reading), CloseEnded(r).(accepted := reading.acceptedAfter);
            && made.outcome == Retrying(NextAttempt(delivered, reading), reading.freshId)
            && made.run.accepted == reading.acceptedAfter
            && MoreTried(CloseEnded(r), made.run, Dispatch(reading.freshId, r.runId, d.task, NextAttempt(delivered, reading)))
  {
    var spec := r.graph.phases[r.phaseKey];
    var delivered := CloseEnded(r).(accepted := reading.acceptedAfter);
    GateRefuses(r, d, reading);
    AboutDelivered(r, d, reading);
    StepKeepsOk(r, reading);
    ClosingSettles(r);
    hide AtGate, RunOk, StepIn, CloseEnded, TaskAttempts, Retry, About, NoneToEnd, InPhase, Stored, OwnersOk, NextAttempt, Covered;
    RetryOutcome(delivered, spec, d, reading);
    RetryMakesOne(delivered, spec, d, reading);
  }

  lemma RefusalCounts(r: Run, d: Dispatch, reading: Reading)
    requires AtGate(r, d) && RefusesWork(r, reading)
    requires r.graph.phases[r.phaseKey].iterateOnGate && TriesOf(r, d.task) < r.graph.phases[r.phaseKey].maximumAttempts
    ensures TriesOf(StepIn(r, reading).run, d.task) == TriesOf(r, d.task) + 1
  {
    var c, s := CloseEnded(r), StepIn(r, reading).run;
    var delivered := c.(accepted := reading.acceptedAfter);
    var nd := Dispatch(reading.freshId, r.runId, d.task, NextAttempt(delivered, reading));
    RefusalRetries(r, d, reading);
    AboutDelivered(r, d, reading);
    ClosingSettles(r);
    hide AtGate, RunOk, StepIn, CloseEnded, TaskAttempts, About, NoneToEnd, Stored, OwnersOk, NextAttempt, Covered, AnsweredOrdinal, RefusesWork;
    OwnedHere(c, d);
    assert OwnersOk(delivered) by { OwnersIgnoreAcceptance(c, delivered); }
    NextIsFree(delivered, reading, d.task);
    AnsweredSame(c, delivered, d.task);
    OneMoreTry(c, s, nd);
  }

  lemma OwnersIgnoreAcceptance(r: Run, s: Run)
    requires s == r.(accepted := s.accepted) && OwnersOk(r)
    ensures OwnersOk(s)
  {
  }

  lemma RefusalStaysAtGate(r: Run, d: Dispatch, reading: Reading)
    requires AtGate(r, d) && RefusesWork(r, reading)
    requires r.graph.phases[r.phaseKey].iterateOnGate && TriesOf(r, d.task) < r.graph.phases[r.phaseKey].maximumAttempts
    ensures AtGate(StepIn(r, reading).run, d)
  {
    var s := StepIn(r, reading).run;
    RefusalRetries(r, d, reading);
    RetryOfAcceptedWorkIsNotAwaited(r, reading, reading);
    StepKeepsOk(r, reading);
    ClosingSettles(r);
    hide RunOk, StepIn, CloseEnded, TaskAttempts, NextAttempt, Covered, ReadingOk, Carried;
    var nd := s.dispatches[|r.dispatches|];
    MembersStayTried(r, s, nd);
    assert Owes(s, d.task) <==> Owes(r, d.task);
  }

  lemma MembersStayTried(r: Run, s: Run, nd: Dispatch)
    requires NonePending(r) && s.runId == r.runId && s.graph == r.graph && s.phaseKey == r.phaseKey && s.dispatches == r.dispatches + [nd]
    ensures NonePending(s)
  {
    forall task | Tried(r, task) ensures Tried(s, task) { TriedStays(r, s, nd, task); }
  }

  /** What consecutive steps answer. */
  function Outcomes(r: Run, readings: seq<Reading>): (outcomes: seq<Outcome>)
    ensures |outcomes| == |readings|
    decreases |readings|
  {
    if readings == [] then [] else [StepIn(r, readings[0]).outcome] + Outcomes(StepIn(r, readings[0]).run, readings[1..])
  }

  function Stepping(r: Run, readings: seq<Reading>): Run
    decreases |readings|
  {
    if readings == [] then r else Stepping(StepIn(r, readings[0]).run, readings[1..])
  }

  ghost predicate KeepsRefusing(r: Run, readings: seq<Reading>)
    decreases |readings|
  {
    readings == [] || (RefusesWork(r, readings[0]) && KeepsRefusing(StepIn(r, readings[0]).run, readings[1..]))
  }

  ghost predicate AllRetry(outcomes: seq<Outcome>, readings: seq<Reading>)
    requires |outcomes| == |readings|
  {
    forall k :: 0 <= k < |readings| ==> outcomes[k].Retrying? && outcomes[k].dispatchId == readings[k].freshId
  }

  /** Consecutive steps whose gate refuses each make a try at once: none of them
      waits for an agent, and the tries left shrink by one a step. */
  lemma {:induction false} RefusalsSpendEveryTry(r: Run, d: Dispatch, readings: seq<Reading>)
    requires AtGate(r, d) && KeepsRefusing(r, readings) && r.graph.phases[r.phaseKey].iterateOnGate
    requires TriesOf(r, d.task) + |readings| <= r.graph.phases[r.phaseKey].maximumAttempts
    ensures AllRetry(Outcomes(r, readings), readings)
    ensures var s := Stepping(r, readings);
            && AtGate(s, d) && s.graph == r.graph && s.phaseKey == r.phaseKey
            && |s.dispatches| == |r.dispatches| + |readings| && TriesOf(s, d.task) == TriesOf(r, d.task) + |readings|
    decreases |readings|
  {
    hide AtGate, RefusesWork, StepIn, TriesOf, NextAttempt, CloseEnded;
    if readings != [] {
      var s := StepIn(r, readings[0]).run;
      RefusalRetries(r, d, readings[0]);
      ClosingSettles(r);
      RefusalCounts(r, d, readings[0]);
      RefusalStaysAtGate(r, d, readings[0]);
      RefusalsSpendEveryTry(s, d, readings[1..]);
      var rest := Outcomes(s, readings[1..]);
      assert Outcomes(r, readings) == [StepIn(r, readings[0]).outcome] + rest;
      forall k | 0 <= k < |readings| ensures Outcomes(r, readings)[k].Retrying? && Outcomes(r, readings)[k].dispatchId == readings[k].freshId {
        if k > 0 { assert readings[k] == readings[1..][k - 1] && Outcomes(r, readings)[k] == rest[k - 1]; }
      }
    }
  }

  lemma RefusedAtCeiling(r: Run, tries: nat, spec: PhaseSpec, d: Dispatch, reading: Reading)
    requires tries >= spec.maximumAttempts
    ensures RefusedStep(r, tries, spec, d, reading).outcome in {Escalated, GateRefused}
    ensures spec.escalateOnExhaustion || RefusedStep(r, tries, spec, d, reading).outcome == GateRefused
    ensures RefusedStep(r, tries, spec, d, reading).run.dispatches == r.dispatches
  {
    hide Outstanding;
  }

  /** With no try left the refusal goes to a person or stands, and makes no dispatch. */
  lemma RefusalStands(r: Run, d: Dispatch, reading: Reading)
    requires AtGate(r, d) && RefusesWork(r, reading) && TriesOf(r, d.task) >= r.graph.phases[r.phaseKey].maximumAttempts
    ensures StepIn(r, reading).outcome in {Escalated, GateRefused} && StepIn(r, reading).run.dispatches == r.dispatches
    ensures r.graph.phases[r.phaseKey].escalateOnExhaustion || StepIn(r, reading).outcome == GateRefused
  {
    var spec, delivered := r.graph.phases[r.phaseKey], CloseEnded(r).(accepted := reading.acceptedAfter);
    GateRefuses(r, d, reading);
    ClosingSettles(r);
    hide AtGate, RefusesWork, StepIn, TriesOf, CloseEnded, RefusedStep;
    RefusedAtCeiling(delivered, TriesOf(r, d.task), spec, d, reading);
  }

  lemma {:induction false} LastReading(r: Run, front: seq<Reading>, last: Reading)
    requires KeepsRefusing(r, front + [last])
    ensures KeepsRefusing(r, front) && RefusesWork(Stepping(r, front), last)
    ensures Outcomes(r, front + [last]) == Outcomes(r, front) + [StepIn(Stepping(r, front), last).outcome]
    ensures Stepping(r, front + [last]) == StepIn(Stepping(r, front), last).run
    decreases |front|
  {
    hide RefusesWork, StepIn;
    var all := front + [last];
    if front == [] {
      assert all == [last];
      assert all[1..] == [];
    } else {
      assert all[0] == front[0] && all[1..] == front[1..] + [last];
      LastReading(StepIn(r, front[0]).run, front[1..], last);
    }
  }

  /** A gate that keeps refusing spends all tries of the task in consecutive steps,
      none of which waits for the agent of a try, and the next one asks a person or
      gives up. */
  lemma RefusedGateSpendsTheAllowance(r: Run, d: Dispatch, readings: seq<Reading>)
    requires AtGate(r, d) && readings != [] && KeepsRefusing(r, readings) && r.graph.phases[r.phaseKey].iterateOnGate
    requires TriesOf(r, d.task) + |readings| == r.graph.phases[r.phaseKey].maximumAttempts + 1
    ensures var outcomes, n := Outcomes(r, readings), |readings| - 1;
            && AllRetry(outcomes[..n], readings[..n]) && outcomes[n] in {Escalated, GateRefused}
            && (r.graph.phases[r.phaseKey].escalateOnExhaustion || outcomes[n] == GateRefused)
            && |Stepping(r, readings).dispatches| == |r.dispatches| + n
  {
    hide RunOk, Carried, Owes, RefusesWork, StepIn, TriesOf, KeepsRefusing, Outcomes, Stepping, AllRetry;
    var front, last := readings[..|readings| - 1], readings[|readings| - 1];
    assert readings == front + [last];
    LastReading(r, front, last);
    RefusalsSpendEveryTry(r, d, front);
    RefusalStands(Stepping(r, front), d, last);
    assert Outcomes(r, readings)[..|front|] == Outcomes(r, front);
  }

  // ----- a run whose second try is never waited for

  const HANDED_IN: seq<Event> := [HandIn(FIRST_TRY.id, false), Publish(FIRST_TRY.id)]

  /** The gate refuses; the delivery accepted the task. */
  function Refusing(freshId: Id): Reading {
    Reading(freshId, 1, NoUpstream, false, false, [Coverage.TaskRef(THE_TASK, 1)], false, false, NotAsked, false, Completed, false)
  }

  lemma TheWorkIsHandedIn()
    ensures History(THE_RUN, HANDED_IN)
    ensures After(THE_RUN, HANDED_IN) == THE_RUN.(completions := map[FIRST_TRY.id := false], published := {FIRST_TRY.id})
  {
    var one := Apply(THE_RUN, HANDED_IN[0]);
    var two := Apply(one, HANDED_IN[1]);
    assert THE_RUN.dispatches[0] == FIRST_TRY;
    assert HANDED_IN[1..] == [HANDED_IN[1]];
    assert After(two, []) == two && After(one, HANDED_IN[1..]) == two;
    assert History(two, []) && History(one, HANDED_IN[1..]);
  }

  lemma TheTaskIsCovered(r: Run)
    requires r.graph == THE_RUN.graph && r.phaseKey == "p" && r.accepted == [Coverage.TaskRef(THE_TASK, 1)]
    ensures Covered(r, THE_PHASE)
  {
    Coverage.CoverageComparesTaskSets(THE_PHASE.tasks, r.accepted, r.graph.owner, r.phaseKey);
    assert r.accepted[1..] == [] && THE_PHASE.tasks[1..] == [];
    assert Coverage.InPhase(r.accepted, r.graph.owner, r.phaseKey) == r.accepted;
    assert Coverage.Ids(r.accepted) == [THE_TASK] == Coverage.Unsuperseded(THE_PHASE.tasks, THE_PHASE.tasks);
  }

  lemma TheWorkIsAtItsGate(r: Run)
    requires r == THE_RUN.(completions := map[FIRST_TRY.id := false], published := {FIRST_TRY.id}) && RunOk(r)
    ensures AtGate(r, FIRST_TRY) && TriesOf(r, THE_TASK) == 1
  {
    hide RunOk;
    assert InPhase(ViewOf(r), FIRST_TRY) && FIRST_TRY in r.dispatches;
    CarriedMeans(ViewOf(r), r.dispatches);
    CurrentIsStored(r, Carried(ViewOf(r), r.dispatches).value);
    TheOneTryCounts(r);
  }

  lemma TheOneTryCounts(r: Run)
    requires r == THE_RUN.(completions := map[FIRST_TRY.id := false], published := {FIRST_TRY.id})
    ensures TriesOf(r, THE_TASK) == 1
  {
    var c := CloseEnded(r);
    ClosingSettles(r);
    assert r.dispatches[0] == FIRST_TRY;
    EndedTurnsAreRecorded(r, FIRST_TRY.id);
    hide CloseEnded;
    LastAnsweredIsAnOrdinal(c, c.dispatches, THE_TASK);
    assert AnsweredOrdinal(c, THE_TASK) == 0;
    var p := (d: Dispatch) => Spent(c, THE_TASK, 0, d);
    assert c.dispatches == [FIRST_TRY] && c.dispatches[..0] == [];
    assert p(FIRST_TRY);
    assert CountIf(c.dispatches, p) == 1;
  }

  /** A new run under a ceiling of two tries hands in; its gate refuses twice. The
      second try is made and the work given up in two steps in a row, and no step
      waited for the agent of that try. */
  lemma SecondTryIsNeverAwaited(second: Id, third: Id)
    requires second != FIRST_TRY.id && third != FIRST_TRY.id && third != second
    ensures NewRun(THE_RUN) && History(THE_RUN, HANDED_IN)
    ensures var r := After(THE_RUN, HANDED_IN);
            && EventOk(r, Step(Refusing(second))) && EventOk(StepIn(r, Refusing(second)).run, Step(Refusing(third)))
            && StepIn(r, Refusing(second)).outcome.Retrying? && StepIn(r, Refusing(second)).outcome.dispatchId == second
            && StepIn(StepIn(r, Refusing(second)).run, Refusing(third)).outcome == GateRefused
  {
    hide RunOk, NewRun, History, After, StepIn, AtGate, TriesOf, RefusesWork, ReadingOk, Refusing, GraphOk;
    TheRunIsNew();
    TheWorkIsHandedIn();
    NewRunIsOk(THE_RUN);
    HistoryKeepsOk(THE_RUN, HANDED_IN);
    var r := After(THE_RUN, HANDED_IN);
    TheWorkIsAtItsGate(r);
    TheGateRefuses(r, second);
    TheSecondRefusal(r, second, third);
  }

  lemma TheGateRefuses(r: Run, id: Id)
    requires r.graph == THE_RUN.graph && r.phaseKey == "p" && !Stored(r, id)
    requires r.accepted == [] || r.accepted == [Coverage.TaskRef(THE_TASK, 1)]
    ensures RefusesWork(r, Refusing(id)) && ReadingOk(r, Refusing(id))
  {
    TheTaskIsCovered(r.(accepted := Refusing(id).acceptedAfter));
    assert Refusing(id).acceptedAfter[0].id == THE_TASK;
    hide Covered;
  }

  lemma TheSecondRefusal(r: Run, second: Id, third: Id)
    requires r.dispatches == [FIRST_TRY] && r.graph == THE_RUN.graph && r.phaseKey == "p"
    requires AtGate(r, FIRST_TRY) && TriesOf(r, THE_TASK) == 1 && RefusesWork(r, Refusing(second))
    requires second != FIRST_TRY.id && third != FIRST_TRY.id && third != second
    ensures ReadingOk(StepIn(r, Refusing(second)).run, Refusing(third))
    ensures StepIn(r, Refusing(second)).outcome.Retrying? && StepIn(r, Refusing(second)).outcome.dispatchId == second
    ensures StepIn(StepIn(r, Refusing(second)).run, Refusing(third)).outcome == GateRefused
  {
    var s := StepIn(r, Refusing(second)).run;
    hide AtGate, TriesOf, StepIn, RefusesWork, ReadingOk, CloseEnded, NextAttempt;
    RefusalRetries(r, FIRST_TRY, Refusing(second));
    RefusalStaysAtGate(r, FIRST_TRY, Refusing(second));
    RefusalCounts(r, FIRST_TRY, Refusing(second));
    ClosingSettles(r);
    assert !Stored(s, third);
    TheGateRefuses(s, third);
    RefusalStands(s, FIRST_TRY, Refusing(third));
  }
}
