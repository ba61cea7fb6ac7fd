/** Which conversation a dispatch joins: the line it belongs to, the turn it
    takes, and whether it resumes, renews or loses its predecessor. */
module Sessions {
  import opened CodeUnits
  import opened Options
  import opened UriComponents

  datatype Scope = AttemptScope | PhaseScope | RunScope

  /** `content` stands for the fields only an attempt-scoped comparison reads. */
  datatype Binding = Binding(
    dispatchId: Text, sessionId: Text, taskId: Text, taskGeneration: nat, graph: Text, configuration: Text, content: Text)

  datatype Field = TaskId | TaskGeneration | GraphRevision | Configuration | Rest

  datatype Row = Row(lineKey: Text, binding: Binding)

  datatype Input = Input(
    hasLedger: bool, scope: Scope, maxTurns: nat, runId: Text, role: Text, isMember: bool,
    taskId: Text, taskGeneration: nat, graph: Text, configuration: Text, content: Text, dispatchId: Text)

  datatype Session = Session(
    lineKey: Text, sessionId: Text, turn: nat, resumed: Option<Binding>, renewedAfterTurns: Option<nat>,
    lost: Option<set<Field>>, binding: Binding)

  // ----- the line

  function ScopeText(scope: Scope): Text {
    match scope
    case AttemptScope => [97, 116, 116, 101, 109, 112, 116]
    case PhaseScope => [112, 104, 97, 115, 101]
    case RunScope => [114, 117, 110]
  }

  predicate NamesTask(request: Input) { request.scope == PhaseScope || request.isMember }

  /** None stands for the exception a lone surrogate raises. */
  function LineKey(request: Input): Option<Text> {
    var role := Encode(request.role);
    var task := Encode(request.taskId);
    var run := Encode(request.runId);
    if role.None? || run.None? || (NamesTask(request) && task.None?) then None
    else
      var identity := if NamesTask(request) then role.value + ([SEPARATOR] + task.value) else role.value;
      Some(run.value + ([SEPARATOR] + (ScopeText(request.scope) + ([SEPARATOR] + identity))))
  }

  // ----- the ledger's queries

  function LineOf(rows: seq<Row>, line: Text): seq<Binding> {
    if rows == [] then []
    else
      var front := LineOf(rows[..|rows| - 1], line);
      if rows[|rows| - 1].lineKey == line then front + [rows[|rows| - 1].binding] else front
  }

  function Latest(rows: seq<Row>, line: Text): Option<Binding> {
    var bindings := LineOf(rows, line);
    if bindings == [] then None else Some(bindings[|bindings| - 1])
  }

  function CountOf(bindings: seq<Binding>, sessionId: Text): nat {
    if bindings == [] then 0
    else CountOf(bindings[..|bindings| - 1], sessionId) + (if bindings[|bindings| - 1].sessionId == sessionId then 1 else 0)
  }

  function Count(rows: seq<Row>, line: Text, sessionId: Text): nat { CountOf(LineOf(rows, line), sessionId) }

  /** A binding recorded before is replayed rather than recorded again. */
  function Put(rows: seq<Row>, binding: Binding, line: Text): seq<Row> {
    if exists i :: 0 <= i < |rows| && rows[i].binding == binding then rows else rows + [Row(line, binding)]
  }

  // ----- the decision

  function Own(request: Input, sessionId: Text): Binding {
    Binding(request.dispatchId, sessionId, request.taskId, request.taskGeneration, request.graph, request.configuration, request.content)
  }

  /** The fields a scope holds fixed that differ. */
  function Mismatches(scope: Scope, requested: Binding, predecessor: Binding): set<Field> {
    (if scope != RunScope && requested.taskId != predecessor.taskId then {TaskId} else {})
    + (if scope != RunScope && requested.taskGeneration != predecessor.taskGeneration then {TaskGeneration} else {})
    + (if scope != RunScope && requested.graph != predecessor.graph then {GraphRevision} else {})
    + (if requested.configuration != predecessor.configuration then {Configuration} else {})
    + (if scope == AttemptScope && (requested.content != predecessor.content || requested.dispatchId != predecessor.dispatchId)
       then {Rest} else {})
  }

  function Predecessor(rows: seq<Row>, request: Input, line: Text): Option<Binding> {
    if request.scope == AttemptScope || !request.hasLedger then None else Latest(rows, line)
  }

  function Resolve(rows: seq<Row>, request: Input): Option<Session> {
    var line := LineKey(request);
    if line.None? then None
    else
      var predecessor := Predecessor(rows, request, line.value);
      if predecessor.None? then
        Some(Session(line.value, request.dispatchId, 1, None, None, None, Own(request, request.dispatchId)))
      else
        var turn := Count(rows, line.value, predecessor.value.sessionId) + 1;
        var candidate := Own(request, predecessor.value.sessionId);
        var mismatches := Mismatches(request.scope, candidate, predecessor.value);
        if turn > request.maxTurns then
          Some(Session(line.value, request.dispatchId, turn, None, Some(request.maxTurns), None, Own(request, request.dispatchId)))
        else if mismatches != {} then
          Some(Session(line.value, request.dispatchId, turn, None, None, Some(mismatches), Own(request, request.dispatchId)))
        else Some(Session(line.value, predecessor.value.sessionId, turn, predecessor, None, None, candidate))
  }

  /** The ledger once the dispatch is registered and its binding recorded. */
  function Recorded(rows: seq<Row>, request: Input): seq<Row> {
    var session := Resolve(rows, request);
    if session.None? || !request.hasLedger || request.scope == AttemptScope then rows
    else Put(rows, session.value.binding, session.value.lineKey)
  }

  class SessionLedger {
    var rows: seq<Row>

    constructor ()
      ensures rows == []
    {
      rows := [];
    }

    method PutBinding(binding: Binding, line: Text)
      modifies this
      ensures rows == Put(old(rows), binding, line)
    {
      if !(exists i :: 0 <= i < |rows| && rows[i].binding == binding) {
        rows := rows + [Row(line, binding)];
      }
    }

    /** Decides, and records only after the dispatch was registered. */
    method Dispatch(request: Input, registered: bool) returns (session: Option<Session>)
      modifies this
      ensures session == Resolve(old(rows), request)
      ensures rows == if registered then Recorded(old(rows), request) else old(rows)
    {
      session := Resolve(rows, request);
      if session.Some? && registered && request.hasLedger && request.scope != AttemptScope {
        PutBinding(session.value.binding, session.value.lineKey);
      }
    }
  }

  // ----- distinct lines have distinct keys

  lemma ScopesAreDistinct(a: Scope, b: Scope)
    requires ScopeText(a) == ScopeText(b)
    ensures a == b
  {
    assert |ScopeText(a)| == |ScopeText(b)|;
  }

  lemma FreeHasNoSeparator(a: Text, b: Text, x: Text)
    requires Free(a)
    ensures a != b + ([SEPARATOR] + x)
  {
    assert (b + ([SEPARATOR] + x))[|b|] == SEPARATOR;
  }

  /** Two dispatches share a line only if they agree on the run, the scope, the
      role, whether a task is named, and on the task when one is. */
  lemma LineKeysAreDistinct(a: Input, b: Input)
    requires LineKey(a).Some? && LineKey(a) == LineKey(b)
    ensures a.runId == b.runId && a.scope == b.scope && a.role == b.role
    ensures NamesTask(a) == NamesTask(b) && (NamesTask(a) ==> a.taskId == b.taskId)
  {
    hide Encode, ScopeText;
    EncodedIsFree(a.runId); EncodedIsFree(b.runId);
    EncodedIsFree(a.role); EncodedIsFree(b.role);
    ScopesAreFree(a.scope); ScopesAreFree(b.scope);
    var ra, rb := Encode(a.role).value, Encode(b.role).value;
    var ia := if NamesTask(a) then ra + ([SEPARATOR] + Encode(a.taskId).value) else ra;
    var ib := if NamesTask(b) then rb + ([SEPARATOR] + Encode(b.taskId).value) else rb;
    PartsAreKept(Encode(a.runId).value, Encode(b.runId).value,
                 ScopeText(a.scope) + ([SEPARATOR] + ia), ScopeText(b.scope) + ([SEPARATOR] + ib));
    PartsAreKept(ScopeText(a.scope), ScopeText(b.scope), ia, ib);
    ScopesAreDistinct(a.scope, b.scope);
    EncodeIsInjective(a.runId, b.runId);
    if NamesTask(a) && NamesTask(b) {
      PartsAreKept(ra, rb, Encode(a.taskId).value, Encode(b.taskId).value);
      EncodeIsInjective(a.taskId, b.taskId);
    } else if NamesTask(a) {
      FreeHasNoSeparator(rb, ra, Encode(a.taskId).value);
    } else if NamesTask(b) {
      FreeHasNoSeparator(ra, rb, Encode(b.taskId).value);
    }
    EncodeIsInjective(a.role, b.role);
  }

  lemma ScopesAreFree(scope: Scope)
    ensures Free(ScopeText(scope))
  {
  }

  // ----- conversations over any sequence of dispatches

  function DispatchAll(rows: seq<Row>, inputs: seq<Input>): seq<Row>
    decreases |inputs|
  {
    if inputs == [] then rows else DispatchAll(Recorded(rows, inputs[0]), inputs[1..])
  }

  ghost predicate Unused(rows: seq<Row>, id: Text) { forall i :: 0 <= i < |rows| ==> rows[i].binding.dispatchId != id }

  /** Every dispatch has an identity nothing recorded used. */
  ghost predicate FreshAll(rows: seq<Row>, inputs: seq<Input>)
    decreases |inputs|
  {
    inputs == [] || (Unused(rows, inputs[0].dispatchId) && FreshAll(Recorded(rows, inputs[0]), inputs[1..]))
  }

  /** The authored bound of each line. */
  ghost predicate Bounded(inputs: seq<Input>, limit: Text -> nat) {
    forall i :: 0 <= i < |inputs| && LineKey(inputs[i]).Some? ==> inputs[i].maxTurns == limit(LineKey(inputs[i]).value)
  }

  /** The place of an entry within its conversation, from one. */
  function Position(bindings: seq<Binding>, i: nat): nat
    requires i < |bindings|
  {
    CountOf(bindings[..i + 1], bindings[i].sessionId)
  }

  /** Each entry opens its own conversation or continues that of the entry before it. */
  predicate Continues(bindings: seq<Binding>, i: nat)
    requires i < |bindings|
  {
    bindings[i].sessionId == bindings[i].dispatchId || (i > 0 && bindings[i].sessionId == bindings[i - 1].sessionId)
  }

  ghost predicate Chained(bindings: seq<Binding>) {
    && (forall i {:trigger Continues(bindings, i)} :: 0 <= i < |bindings| ==> Continues(bindings, i))
    && forall i, j :: 0 <= i < j < |bindings| ==> bindings[i].dispatchId != bindings[j].dispatchId
  }

  ghost predicate WithinTurns(bindings: seq<Binding>, limit: nat) {
    forall i :: 0 <= i < |bindings| ==> Position(bindings, i) <= (if limit > 1 then limit else 1)
  }

  ghost predicate LedgerOk(rows: seq<Row>, limit: Text -> nat) {
    forall line: Text {:trigger LineOf(rows, line)} :: Chained(LineOf(rows, line)) && WithinTurns(LineOf(rows, line), limit(line))
  }

  lemma {:induction false} UnusedOnLine(rows: seq<Row>, line: Text, id: Text)
    requires Unused(rows, id)
    ensures forall k :: 0 <= k < |LineOf(rows, line)| ==> LineOf(rows, line)[k].dispatchId != id
  {
    if rows != [] {
      UnusedOnLine(rows[..|rows| - 1], line, id);
    }
  }

  lemma PutExtendsLine(rows: seq<Row>, binding: Binding, line: Text, other: Text)
    requires Unused(rows, binding.dispatchId)
    ensures LineOf(Put(rows, binding, line), other) == LineOf(rows, other) + (if other == line then [binding] else [])
  {
    assert forall i :: 0 <= i < |rows| ==> rows[i].binding != binding;
    assert (rows + [Row(line, binding)])[..|rows|] == rows;
  }

  lemma {:induction false} StrangersAreUncounted(bindings: seq<Binding>, sessionId: Text)
    requires forall k :: 0 <= k < |bindings| ==> bindings[k].sessionId != sessionId
    ensures CountOf(bindings, sessionId) == 0
  {
    if bindings != [] { StrangersAreUncounted(bindings[..|bindings| - 1], sessionId); }
  }

  /** Where the conversation of an entry began: there and from there on it is the
      conversation of every entry up to this one. */
  lemma {:induction false} Beginning(bindings: seq<Binding>, k: nat) returns (s: nat)
    requires Chained(bindings) && k < |bindings|
    ensures s <= k && bindings[s].dispatchId == bindings[k].sessionId
    ensures forall t :: s <= t <= k ==> bindings[t].sessionId == bindings[k].sessionId
  {
    assert Continues(bindings, k);
    if bindings[k].sessionId == bindings[k].dispatchId {
      s := k;
    } else {
      s := Beginning(bindings, k - 1);
    }
  }

  lemma SessionsAreDispatches(bindings: seq<Binding>, id: Text)
    requires Chained(bindings) && forall k :: 0 <= k < |bindings| ==> bindings[k].dispatchId != id
    ensures forall k :: 0 <= k < |bindings| ==> bindings[k].sessionId != id
  {
    forall k | 0 <= k < |bindings| ensures bindings[k].sessionId != id {
      var s := Beginning(bindings, k);
    }
  }

  lemma ExtendingKeeps(bindings: seq<Binding>, b: Binding, limit: nat)
    requires Chained(bindings) && WithinTurns(bindings, limit)
    requires forall k :: 0 <= k < |bindings| ==> bindings[k].dispatchId != b.dispatchId
    requires b.sessionId == b.dispatchId
             || (bindings != [] && b.sessionId == bindings[|bindings| - 1].sessionId && CountOf(bindings, b.sessionId) + 1 <= limit)
    ensures Chained(bindings + [b]) && WithinTurns(bindings + [b], limit)
  {
    ExtendingChains(bindings, b);
    ExtendingCounts(bindings, b, limit);
  }

  lemma ExtendingChains(bindings: seq<Binding>, b: Binding)
    requires Chained(bindings)
    requires forall k :: 0 <= k < |bindings| ==> bindings[k].dispatchId != b.dispatchId
    requires b.sessionId == b.dispatchId || (bindings != [] && b.sessionId == bindings[|bindings| - 1].sessionId)
    ensures Chained(bindings + [b])
  {
    var all := bindings + [b];
    forall i | 0 <= i < |all| ensures Continues(all, i) {
      if i < |bindings| { assert Continues(bindings, i); }
    }
  }

  lemma ExtendingCounts(bindings: seq<Binding>, b: Binding, limit: nat)
    requires Chained(bindings) && WithinTurns(bindings, limit)
    requires forall k :: 0 <= k < |bindings| ==> bindings[k].dispatchId != b.dispatchId
    requires b.sessionId == b.dispatchId || CountOf(bindings, b.sessionId) + 1 <= limit
    ensures WithinTurns(bindings + [b], limit)
  {
    hide Chained;
    var all := bindings + [b];
    assert all[..|bindings|] == bindings;
    SessionsAreDispatches(bindings, b.dispatchId);
    if b.sessionId == b.dispatchId { StrangersAreUncounted(bindings, b.sessionId); }
    forall i | 0 <= i < |all| ensures Position(all, i) <= (if limit > 1 then limit else 1) {
      if i < |bindings| {
        assert all[..i + 1] == bindings[..i + 1];
        assert Position(bindings, i) <= (if limit > 1 then limit else 1);
      } else {
        assert all[..i + 1] == all;
      }
    }
  }

  lemma RecordingKeeps(rows: seq<Row>, request: Input, limit: Text -> nat)
    requires LedgerOk(rows, limit) && Unused(rows, request.dispatchId)
    requires LineKey(request).Some? ==> request.maxTurns == limit(LineKey(request).value)
    ensures LedgerOk(Recorded(rows, request), limit)
  {
    hide LineKey, Chained, WithinTurns, Unused, LineOf;
    var session := Resolve(rows, request);
    if session.Some? && request.hasLedger && request.scope != AttemptScope {
      var b, line := session.value.binding, session.value.lineKey;
      forall other: Text ensures Chained(LineOf(Recorded(rows, request), other)) && WithinTurns(LineOf(Recorded(rows, request), other), limit(other)) {
        assert Chained(LineOf(rows, other)) && WithinTurns(LineOf(rows, other), limit(other));
        PutExtendsLine(rows, b, line, other);
        if other == line {
          UnusedOnLine(rows, line, request.dispatchId);
          ExtendingKeeps(LineOf(rows, line), b, limit(line));
        } else {
          assert LineOf(rows, other) + [] == LineOf(rows, other);
        }
      }
    }
  }

  lemma {:induction false} DispatchesKeep(rows: seq<Row>, inputs: seq<Input>, limit: Text -> nat)
    requires LedgerOk(rows, limit) && FreshAll(rows, inputs) && Bounded(inputs, limit)
    ensures LedgerOk(DispatchAll(rows, inputs), limit)
    decreases |inputs|
  {
    hide LedgerOk, LineKey;
    if inputs != [] {
      assert LineKey(inputs[0]).Some? ==> inputs[0].maxTurns == limit(LineKey(inputs[0]).value);
      RecordingKeeps(rows, inputs[0], limit);
      assert Bounded(inputs[1..], limit) by {
        forall i | 0 <= i < |inputs[1..]| ensures inputs[1..][i] == inputs[i + 1] { }
      }
      DispatchesKeep(Recorded(rows, inputs[0]), inputs[1..], limit);
    }
  }

  lemma {:induction false} CountIsAPosition(bindings: seq<Binding>, sessionId: Text)
    ensures CountOf(bindings, sessionId) == 0
            || exists i :: 0 <= i < |bindings| && bindings[i].sessionId == sessionId && Position(bindings, i) == CountOf(bindings, sessionId)
  {
    if bindings != [] {
      var front, n := bindings[..|bindings| - 1], |bindings| - 1;
      if bindings[n].sessionId == sessionId {
        assert bindings[..n + 1] == bindings;
        assert Position(bindings, n) == CountOf(bindings, sessionId);
      } else {
        CountIsAPosition(front, sessionId);
        if CountOf(front, sessionId) != 0 {
          var i :| 0 <= i < |front| && front[i].sessionId == sessionId && Position(front, i) == CountOf(front, sessionId);
          assert bindings[..i + 1] == front[..i + 1];
          assert bindings[i].sessionId == sessionId && Position(bindings, i) == CountOf(bindings, sessionId);
        }
      }
    }
  }

  /** Whatever is dispatched in whatever order, no conversation of a line carries
      more bindings than the line's bound, and one even under a bound of zero. */
  lemma ConversationsAreBounded(inputs: seq<Input>, limit: Text -> nat, line: Text, sessionId: Text)
    requires FreshAll([], inputs) && Bounded(inputs, limit)
    ensures Count(DispatchAll([], inputs), line, sessionId) <= (if limit(line) > 1 then limit(line) else 1)
  {
    assert LedgerOk([], limit);
    DispatchesKeep([], inputs, limit);
    var bindings := LineOf(DispatchAll([], inputs), line);
    CountIsAPosition(bindings, sessionId);
  }

  // ----- conversations never mix

  /** Every line is chained, whatever the bounds of its dispatches, and no dispatch
      is recorded twice. */
  ghost predicate LinesOk(rows: seq<Row>) {
    && (forall line: Text {:trigger LineOf(rows, line)} :: Chained(LineOf(rows, line)))
    && forall i, j :: 0 <= i < j < |rows| ==> rows[i].binding.dispatchId != rows[j].binding.dispatchId
  }

  lemma RecordingKeepsLines(rows: seq<Row>, request: Input)
    requires LinesOk(rows) && Unused(rows, request.dispatchId)
    ensures LinesOk(Recorded(rows, request))
  {
    hide LineKey, Chained, LineOf;
    var session := Resolve(rows, request);
    if session.Some? && request.hasLedger && request.scope != AttemptScope {
      var b, line := session.value.binding, session.value.lineKey;
      forall other: Text ensures Chained(LineOf(Recorded(rows, request), other)) {
        assert Chained(LineOf(rows, other));
        PutExtendsLine(rows, b, line, other);
        if other == line {
          UnusedOnLine(rows, line, request.dispatchId);
          ExtendingChains(LineOf(rows, line), b);
        } else {
          assert LineOf(rows, other) + [] == LineOf(rows, other);
        }
      }
    }
  }

  lemma {:induction false} DispatchesKeepLines(rows: seq<Row>, inputs: seq<Input>)
    requires LinesOk(rows) && FreshAll(rows, inputs)
    ensures LinesOk(DispatchAll(rows, inputs))
    decreases |inputs|
  {
    hide LinesOk, LineKey;
    if inputs != [] {
      RecordingKeepsLines(rows, inputs[0]);
      DispatchesKeepLines(Recorded(rows, inputs[0]), inputs[1..]);
    }
  }

  lemma {:induction false} LineIsOfRows(rows: seq<Row>, line: Text, k: nat) returns (i: nat)
    requires k < |LineOf(rows, line)|
    ensures i < |rows| && rows[i] == Row(line, LineOf(rows, line)[k])
  {
    if rows[|rows| - 1].lineKey == line && k == |LineOf(rows, line)| - 1 {
      i := |rows| - 1;
    } else {
      i := LineIsOfRows(rows[..|rows| - 1], line, k);
    }
  }

  /** A conversation is one unbroken stretch of its line; once another one has
      begun, by renewal or by loss, it is never joined again. */
  lemma ConversationsAreContiguous(inputs: seq<Input>, line: Text, i: nat, j: nat, k: nat)
    requires FreshAll([], inputs)
    requires i <= j <= k < |LineOf(DispatchAll([], inputs), line)|
    ensures var bindings := LineOf(DispatchAll([], inputs), line);
            bindings[i].sessionId == bindings[k].sessionId ==> bindings[j].sessionId == bindings[k].sessionId
  {
    assert LinesOk([]);
    DispatchesKeepLines([], inputs);
    var bindings := LineOf(DispatchAll([], inputs), line);
    assert Chained(bindings);
    var s := Beginning(bindings, k);
    var t := Beginning(bindings, i);
    assert bindings[i].sessionId == bindings[k].sessionId ==> s == t;
  }

  /** A conversation belongs to one line: no two lines ever share one. */
  lemma ConversationsHaveOneLine(inputs: seq<Input>, a: Text, b: Text, i: nat, j: nat)
    requires FreshAll([], inputs)
    requires i < |LineOf(DispatchAll([], inputs), a)| && j < |LineOf(DispatchAll([], inputs), b)|
    requires LineOf(DispatchAll([], inputs), a)[i].sessionId == LineOf(DispatchAll([], inputs), b)[j].sessionId
    ensures a == b
  {
    var rows := DispatchAll([], inputs);
    assert LinesOk([]);
    DispatchesKeepLines([], inputs);
    assert Chained(LineOf(rows, a)) && Chained(LineOf(rows, b));
    hide Chained, LineOf;
    var s := Beginning(LineOf(rows, a), i);
    var t := Beginning(LineOf(rows, b), j);
    var m := LineIsOfRows(rows, a, s);
    var n := LineIsOfRows(rows, b, t);
    assert m == n;
  }

  /** So no other run, scope, role or named task ever takes part in a conversation. */
  lemma ConversationsAreNotShared(inputs: seq<Input>, a: Input, b: Input, i: nat, j: nat)
    requires FreshAll([], inputs) && LineKey(a).Some? && LineKey(b).Some?
    requires i < |LineOf(DispatchAll([], inputs), LineKey(a).value)| && j < |LineOf(DispatchAll([], inputs), LineKey(b).value)|
    requires LineOf(DispatchAll([], inputs), LineKey(a).value)[i].sessionId == LineOf(DispatchAll([], inputs), LineKey(b).value)[j].sessionId
    ensures a.runId == b.runId && a.scope == b.scope && a.role == b.role
    ensures NamesTask(a) == NamesTask(b) && (NamesTask(a) ==> a.taskId == b.taskId)
  {
    ConversationsHaveOneLine(inputs, LineKey(a).value, LineKey(b).value, i, j);
    LineKeysAreDistinct(a, b);
  }

  // ----- what is reported

  lemma LatestIsCounted(rows: seq<Row>, line: Text)
    requires Latest(rows, line).Some?
    ensures Count(rows, line, Latest(rows, line).value.sessionId) >= 1
  {
  }

  lemma OwnIsOfRequest(request: Input)
    ensures forall sessionId: Text :: Own(request, sessionId).sessionId == sessionId && Own(request, sessionId).dispatchId == request.dispatchId
  {
  }

  /** The dispatch finds no conversation on its line, or one that is neither spent
      nor recorded for other inputs. */
  predicate MayContinue(rows: seq<Row>, request: Input, line: Text) {
    Latest(rows, line).None? ||
    var predecessor := Latest(rows, line).value;
    && Count(rows, line, predecessor.sessionId) + 1 <= request.maxTurns
    && Mismatches(request.scope, Own(request, predecessor.sessionId), predecessor) == {}
  }

  /** The reported turn is the dispatch's place in its conversation exactly when it
      finds none to continue or may continue the one it finds: a renewal or a loss
      opens a new conversation but reports the place it would have had in the old one. */
  lemma TurnIsPositionUnlessRestarted(rows: seq<Row>, request: Input)
    requires Unused(rows, request.dispatchId) && request.hasLedger && request.scope != AttemptScope && LineKey(request).Some?
    requires Chained(LineOf(rows, LineKey(request).value))
    ensures var session := Resolve(rows, request).value;
            var bindings := LineOf(Recorded(rows, request), session.lineKey);
            && bindings == LineOf(rows, session.lineKey) + [session.binding]
            && (session.turn == Position(bindings, |bindings| - 1) <==> MayContinue(rows, request, LineKey(request).value))
            && (MayContinue(rows, request, LineKey(request).value) <==> session.renewedAfterTurns.None? && session.lost.None?)
  {
    hide LineKey, Chained, Unused, LineOf, Mismatches, Own;
    OwnIsOfRequest(request);
    var session := Resolve(rows, request).value;
    var line, b := session.lineKey, session.binding;
    var before := LineOf(rows, line);
    var bindings := LineOf(Recorded(rows, request), line);
    PutExtendsLine(rows, b, line, line);
    assert bindings[..|bindings|] == bindings && bindings[..|before|] == before;
    UnusedOnLine(rows, line, request.dispatchId);
    SessionsAreDispatches(before, request.dispatchId);
    if b.sessionId == request.dispatchId { StrangersAreUncounted(before, b.sessionId); }
    if Latest(rows, line).Some? { LatestIsCounted(rows, line); }
  }

  /** A dispatch on a run-long line bounded to one turn. */
  const BOUNDED_TO_ONE: Input := Input(true, RunScope, 1, [114], [119], false, [116], 1, [103], [99], [], [100])

  lemma BoundedLineHasAKey()
    ensures LineKey(BOUNDED_TO_ONE).Some?
  {
    assert Encode([114]).Some? && Encode([119]).Some?;
  }

  lemma FirstOfLine(request: Input)
    requires LineKey(request).Some? && request.hasLedger && request.scope != AttemptScope
    ensures Recorded([], request) == [Row(LineKey(request).value, Own(request, request.dispatchId))]
  {
    hide LineKey;
  }

  lemma LineOfOne(line: Text, b: Binding)
    ensures LineOf([Row(line, b)], line) == [b] && CountOf([b], b.sessionId) == 1
  {
    assert [Row(line, b)][..0] == [] && [b][..0] == [];
  }

  lemma SecondIsRenewed(earlier: Binding, request: Input)
    requires LineKey(request).Some? && request.hasLedger && request.scope != AttemptScope && request.maxTurns == 1
    ensures var session := Resolve([Row(LineKey(request).value, earlier)], request).value;
            session.turn == 2 && session.binding == Own(request, request.dispatchId) && session.lineKey == LineKey(request).value
  {
    hide LineKey, LineOf, CountOf, Mismatches;
    LineOfOne(LineKey(request).value, earlier);
  }

  /** The second dispatch of such a line renews the conversation, and reports turn two
      at position one of the new one. */
  lemma RenewalReportsTheOldTurn(earlier: Text)
    requires earlier != BOUNDED_TO_ONE.dispatchId
    ensures LineKey(BOUNDED_TO_ONE).Some?
    ensures var rows := Recorded([], BOUNDED_TO_ONE.(dispatchId := earlier));
            var session := Resolve(rows, BOUNDED_TO_ONE).value;
            var bindings := LineOf(Recorded(rows, BOUNDED_TO_ONE), session.lineKey);
            session.turn == 2 && |bindings| == 2 && Position(bindings, 1) == 1
  {
    BoundedLineHasAKey();
    hide LineKey, LineOf, CountOf, Resolve, Recorded, Put;
    var request := BOUNDED_TO_ONE;
    var first := request.(dispatchId := earlier);
    SameLine(request, first);
    var line, own, before := LineKey(request).value, Own(request, request.dispatchId), Own(first, earlier);
    var rows := [Row(line, before)];
    FirstOfLine(first);
    SecondIsRenewed(before, request);
    LineOfOne(line, before);
    RecordsItsBinding(rows, request);
    PutExtendsLine(rows, own, line, line);
    PositionOfSecond(before, own);
  }

  lemma RecordsItsBinding(rows: seq<Row>, request: Input)
    requires LineKey(request).Some? && request.hasLedger && request.scope != AttemptScope
    ensures Resolve(rows, request).Some?
    ensures Recorded(rows, request) == Put(rows, Resolve(rows, request).value.binding, Resolve(rows, request).value.lineKey)
  {
    hide LineKey, LineOf, CountOf, Mismatches, Put;
  }

  lemma PositionOfSecond(a: Binding, b: Binding)
    requires a.sessionId != b.sessionId
    ensures Position([a] + [b], 1) == 1
  {
    assert ([a] + [b])[..2] == [a] + [b] && ([a] + [b])[..1] == [a] && [a][..0] == [];
    assert CountOf([a], b.sessionId) == 0;
  }

  lemma SameLine(a: Input, b: Input)
    requires b == a.(dispatchId := b.dispatchId)
    ensures LineKey(b) == LineKey(a)
  {
  }
}
