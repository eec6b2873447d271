/**
 * Two runs in which a context receives a second submission while the first is unsettled. Each uses one of
 * the two ways that `OverruledExactly` names.
 */
module ToolWitness {
  import opened Prelude
  import A2A
  import opened ToolJournal
  import opened ToolJournalProofs

  /** No call is under way. */
  predicate Idle(s: State) {
    s.calls == map[] && s.locks == map[]
  }

  /** A call that knows its context, from its beginning to its submission. */
  function Started(s: State, i: nat, input: Input): State {
    DoTakeContext(DoReadBinding(DoTakeBinding(DoBegin(s, i, input), i), i, None, false), i)
  }

  function Submitting(s: State, i: nat): State {
    DoSubmit(DoWriteContextNote(DoWriteNote(s, i), i), i)
  }

  lemma ReachStarted(s: State, i: nat, input: Input)
    requires Reachable(s)
    ensures Reachable(Started(s, i, input))
  {
    hide DoBegin, DoTakeBinding, DoReadBinding, DoTakeContext;
    Reach(s, Begin(i, input));
    var s1 := DoBegin(s, i, input);
    Reach(s1, TakeBinding(i));
    var s2 := DoTakeBinding(s1, i);
    Reach(s2, ReadBinding(i, None, false));
    Reach(DoReadBinding(s2, i, None, false), TakeContext(i));
  }

  lemma ReachSubmitting(s: State, i: nat)
    requires Reachable(s)
    ensures Reachable(Submitting(s, i))
  {
    hide DoWriteNote, DoWriteContextNote, DoSubmit;
    Reach(s, WriteNote(i));
    Reach(DoWriteNote(s, i), WriteContextNote(i));
    Reach(DoWriteContextNote(DoWriteNote(s, i), i), Submit(i));
  }

  /** The call as it stands when it has entered its context. */
  function EnteredCall(input: Input, binding: Rec, context: Option<string>): Call {
    Call(input, Entered, binding, context, context, NOTHING, None, false, NOTHING)
  }

  function EnteredState(s: State, i: nat, input: Input, context: Option<string>): State {
    var b := Binding(input.scope, input.endpoint);
    var c := EnteredCall(input, Load(s.store, b), context);
    s.(calls := map[i := c], used := s.used[input.messageId := b],
       locks := if context.Some? then map[b := i, Execution(input.endpoint, context.value) := i] else map[b := i])
  }

  lemma StartedIs(s: State, i: nat, input: Input)
    requires Idle(s) && input.messageId !in s.used && input.taskId.None? && (input.newContext ==> input.contextId.None?)
    requires !Fenced(Load(s.store, Binding(input.scope, input.endpoint)))
    ensures var context := if input.contextId.Some? then input.contextId else if input.newContext then None
                           else Load(s.store, Binding(input.scope, input.endpoint)).contextId;
      Started(s, i, input) == EnteredState(s, i, input, context)
  {
    var b := Binding(input.scope, input.endpoint);
    var s1 := DoBegin(s, i, input);
    assert s1.calls == map[i := s1.calls[i]];
    var s2 := DoTakeBinding(s1, i);
    assert s2.calls == map[i := s1.calls[i].(pc := Bound)] && s2.locks == map[b := i];
    var s3 := DoReadBinding(s2, i, None, false);
    assert s3.calls == map[i := s3.calls[i]];
    var s4 := DoTakeContext(s3, i);
    assert s4.calls == map[i := s4.calls[i]];
  }

  /** What the peer says lets the check pass: the merged record asks for nothing, or its task has ended. */
  predicate Passes(merged: Rec, k: string, current: Option<Reply>) {
    && !Fenced(merged)
    && (Unfinished(merged) ==>
          current.Some? && Matches(current.value, merged.taskId, Some(k)) && Terminal(current.value.state))
  }

  /** One call that knows its context is alone in the service and has submitted. */
  ghost predicate OneOpen(s: State, t: State, i: nat, input: Input, k: string) {
    var b, e := Binding(input.scope, input.endpoint), Execution(input.endpoint, k);
    var note := Note(Some(k), None, input.messageId);
    && t.store == s.store[b := note][e := note]
    && t.locks == map[b := i, e := i]
    && i in t.calls && t.calls == map[i := t.calls[i]]
    && t.calls[i] == Call(input, Open, t.calls[i].binding, Some(k), Some(k), t.calls[i].previous, None, false, NOTHING)
    && t.used == s.used[input.messageId := b]
    && t.settled == s.settled
    && |t.subs| == |s.subs| + 1 && t.subs[..|s.subs|] == s.subs
    && t.subs[|s.subs|] == Submission(input.messageId, b, Some(e), None, t.subs[|s.subs|].previous)
  }

  lemma CallIs(s: State, i: nat, input: Input, k: string, current: Option<Reply>)
    requires Idle(s) && input.messageId !in s.used && input.taskId.None? && !input.newContext
    requires var binding := Load(s.store, Binding(input.scope, input.endpoint));
      && !Fenced(binding)
      && Some(k) == (if input.contextId.Some? then input.contextId else binding.contextId)
      && Passes(Merge(Some(k), binding, Load(s.store, Execution(input.endpoint, k))), k, current)
    ensures OneOpen(s, Submitting(DoCheck(Started(s, i, input), i, current, None), i), i, input, k)
  {
    StartedIs(s, i, input);
    var binding := Load(s.store, Binding(input.scope, input.endpoint));
    var e := EnteredState(s, i, input, Some(k));
    CheckIs(s, e, i, input, k, current);
    hide Started, EnteredState, DoCheck, Merge, Fenced, Passes;
    SubmittingIs(s, DoCheck(e, i, current, None), i, input, k);
  }

  /** The check has passed; it may have stored what it read. */
  ghost predicate OneCleared(s: State, t: State, i: nat, input: Input, k: string) {
    var b, e := Binding(input.scope, input.endpoint), Execution(input.endpoint, k);
    && (t.store == s.store || (e in t.store && t.store == s.store[e := t.store[e]]))
    && t.locks == map[b := i, e := i]
    && i in t.calls && t.calls == map[i := t.calls[i]]
    && t.calls[i] == Call(input, Cleared, t.calls[i].binding, Some(k), Some(k), t.calls[i].previous, None, false,
                          NOTHING)
    && t.used == s.used[input.messageId := b]
    && t.settled == s.settled && t.subs == s.subs
  }

  lemma CheckIs(s: State, e: State, i: nat, input: Input, k: string, current: Option<Reply>)
    requires e == EnteredState(s, i, input, Some(k)) && input.taskId.None?
    requires Passes(Merge(Some(k), Load(s.store, Binding(input.scope, input.endpoint)),
                          Load(s.store, Execution(input.endpoint, k))), k, current)
    ensures OneCleared(s, DoCheck(e, i, current, None), i, input, k)
  {
    var c := EnteredCall(input, Load(s.store, Binding(input.scope, input.endpoint)), Some(k));
    var merged := Merge(Some(k), c.binding, ContextRecord(s, c));
    assert ContextRecord(e, c) == ContextRecord(s, c) && e.calls[i] == c && At(e, i, Entered);
    CheckOutcome(e, i, c, merged, current);
    hide DoCheck, Merge, Fenced;
    var t := DoCheck(e, i, current, None);
    assert t.calls == map[i := t.calls[i]];
  }

  /** A check that passes moves its call and at most stores what it read. */
  lemma CheckOutcome(e: State, i: nat, c: Call, merged: Rec, current: Option<Reply>)
    requires i in e.calls && e.calls[i] == c && c.pc.Entered? && c.context.Some? && c.input.taskId.None?
    requires merged == Merge(c.context, c.binding, ContextRecord(e, c)) && Passes(merged, c.context.value, current)
    ensures var t := DoCheck(e, i, current, None);
      && i in t.calls && t.calls == e.calls[i := t.calls[i]]
         && t.calls[i] == c.(pc := Cleared, previous := t.calls[i].previous)
      && (t.store == e.store || (ExecutionOf(c, c.context.value) in t.store
                                 && t.store == e.store[ExecutionOf(c, c.context.value) :=
                                                       t.store[ExecutionOf(c, c.context.value)]]))
      && t.locks == e.locks && t.used == e.used && t.subs == e.subs && t.settled == e.settled
  {
    hide Merge, ContextRecord;
    if Unfinished(merged) {
      assert !Unfinished(Snapshot(current.value, merged.messageId));
    }
  }

  lemma SubmittingIs(s: State, t: State, i: nat, input: Input, k: string)
    requires OneCleared(s, t, i, input, k) && input.taskId.None?
    ensures OneOpen(s, Submitting(t, i), i, input, k)
  {
    var u := Submitting(t, i);
    var b, e := Binding(input.scope, input.endpoint), Execution(input.endpoint, k);
    var note := Note(Some(k), None, input.messageId);
    assert u.calls == map[i := u.calls[i]];
    assert t.store[b := note][e := note] == s.store[b := note][e := note];
  }

  lemma ReachCall(s: State, i: nat, input: Input, current: Option<Reply>)
    requires Reachable(s)
    ensures Reachable(Submitting(DoCheck(Started(s, i, input), i, current, None), i))
  {
    hide Started, Submitting, DoCheck;
    ReachStarted(s, i, input);
    Reach(Started(s, i, input), Check(i, current, None));
    ReachSubmitting(DoCheck(Started(s, i, input), i, current, None), i);
  }

  /** A task is heard and written to both records, and the call ends. */
  function Answered(s: State, i: nat, task: Reply, acceptance: bool): State {
    DoStop(DoRelay(DoTakeLearned(DoHear(s, i, task, acceptance), i), i), i)
  }

  lemma ReachAnswered(s: State, i: nat, task: Reply, acceptance: bool)
    requires Reachable(s)
    ensures Reachable(Answered(s, i, task, acceptance))
  {
    hide DoHear, DoTakeLearned, DoRelay, DoStop;
    Reach(s, Hear(i, task, acceptance));
    var s1 := DoHear(s, i, task, acceptance);
    Reach(s1, TakeLearned(i));
    Reach(DoTakeLearned(s1, i), Relay(i));
    Reach(DoRelay(DoTakeLearned(s1, i), i), Stop(i));
  }

  lemma HearIs(s: State, t: State, i: nat, input: Input, k: string, task: Reply, acceptance: bool)
    requires OneOpen(s, t, i, input, k) && Matches(task, input.taskId, Some(k))
    ensures var u := DoHear(t, i, task, acceptance);
      var record := Snapshot(task, Some(input.messageId)).(unknown := !acceptance);
      && u == t.(calls := u.calls, store := t.store[Binding(input.scope, input.endpoint) := record],
                 settled := s.settled + if acceptance then {input.messageId} else {})
      && i in u.calls && u.calls == map[i := u.calls[i]]
      && u.calls[i] == t.calls[i].(pc := Relaying(false), accepted := Some(task), observed := acceptance,
                                   record := record)
  {
    var u := DoHear(t, i, task, acceptance);
    assert u.calls == map[i := u.calls[i]];
  }

  lemma RelayIs(u: State, i: nat, k: string)
    requires i in u.calls && u.calls == map[i := u.calls[i]] && u.calls[i].pc == Relaying(false)
    requires u.calls[i].locked == Some(k) && u.calls[i].context == Some(k) && u.calls[i].record.contextId == Some(k)
    requires forall q :: q in u.locks ==> u.locks[q] == i
    ensures var v := DoStop(DoRelay(DoTakeLearned(u, i), i), i);
      && Idle(v) && v.store == u.store[ExecutionOf(u.calls[i], k) := u.calls[i].record]
      && v.subs == u.subs && v.used == u.used && v.settled == u.settled
  {
    assert DoTakeLearned(u, i) == u;
    var w := DoRelay(u, i);
    assert w.calls == map[i := w.calls[i]];
  }

  lemma AnsweredIs(s: State, t: State, i: nat, input: Input, k: string, task: Reply, acceptance: bool)
    requires OneOpen(s, t, i, input, k) && Matches(task, input.taskId, Some(k))
    ensures var u, b, e := Answered(t, i, task, acceptance), Binding(input.scope, input.endpoint),
      Execution(input.endpoint, k);
      var record := Snapshot(task, Some(input.messageId)).(unknown := !acceptance);
      && Idle(u) && u.store == s.store[b := record][e := record] && u.subs == t.subs && u.used == t.used
      && u.settled == s.settled + (if acceptance then {input.messageId} else {})
  {
    hide DoHear, DoTakeLearned, DoRelay, DoStop;
    HearIs(s, t, i, input, k, task, acceptance);
    RelayIs(DoHear(t, i, task, acceptance), i, k);
    var b, e := Binding(input.scope, input.endpoint), Execution(input.endpoint, k);
    var record := Snapshot(task, Some(input.messageId)).(unknown := !acceptance);
    assert t.store[b := record][e := record] == s.store[b := record][e := record];
  }

  lemma StoppedIs(s: State, t: State, i: nat, input: Input, k: string)
    requires OneOpen(s, t, i, input, k)
    ensures Idle(DoStop(t, i)) && DoStop(t, i).store == t.store && DoStop(t, i).subs == t.subs
    ensures DoStop(t, i).used == t.used && DoStop(t, i).settled == t.settled
  {
  }

  // ----- reachable states, one call at a time -----

  lemma OneCall(s: State, i: nat, input: Input, k: string, current: Option<Reply>) returns (t: State)
    requires Reachable(s) && Idle(s) && input.messageId !in s.used && input.taskId.None? && !input.newContext
    requires var binding := Load(s.store, Binding(input.scope, input.endpoint));
      && !Fenced(binding)
      && Some(k) == (if input.contextId.Some? then input.contextId else binding.contextId)
      && Passes(Merge(Some(k), binding, Load(s.store, Execution(input.endpoint, k))), k, current)
    ensures Reachable(t) && OneOpen(s, t, i, input, k)
  {
    hide *;
    t := Submitting(DoCheck(Started(s, i, input), i, current, None), i);
    CallIs(s, i, input, k, current);
    ReachCall(s, i, input, current);
  }

  lemma OneAnswer(s: State, t: State, i: nat, input: Input, k: string, task: Reply, acceptance: bool) returns (u: State)
    requires Reachable(t) && OneOpen(s, t, i, input, k) && Matches(task, input.taskId, Some(k))
    ensures var b, e := Binding(input.scope, input.endpoint), Execution(input.endpoint, k);
      var record := Snapshot(task, Some(input.messageId)).(unknown := !acceptance);
      && Reachable(u) && Idle(u) && u.store == s.store[b := record][e := record] && u.subs == t.subs && u.used == t.used
      && u.settled == s.settled + (if acceptance then {input.messageId} else {})
  {
    hide *;
    u := Answered(t, i, task, acceptance);
    AnsweredIs(s, t, i, input, k, task, acceptance);
    ReachAnswered(t, i, task, acceptance);
  }

  lemma OneStop(s: State, t: State, i: nat, input: Input, k: string) returns (u: State)
    requires Reachable(t) && OneOpen(s, t, i, input, k)
    ensures Reachable(u) && Idle(u) && u.store == t.store && u.subs == t.subs && u.used == t.used
      && u.settled == t.settled
  {
    u := DoStop(t, i);
    StoppedIs(s, t, i, input, k);
    hide DoStop, OneOpen, Reachable;
    Reach(t, Stop(i));
  }

  /** A call without a known context, from its beginning to its submission. */
  lemma ContextlessCall(s: State, i: nat, input: Input)
    requires Idle(s) && input.messageId !in s.used && input.taskId.None? && input.newContext && input.contextId.None?
    requires Load(s.store, Binding(input.scope, input.endpoint)) == NOTHING
    ensures var t := Submitting(DoCheck(Started(s, i, input), i, None, None), i);
      var b := Binding(input.scope, input.endpoint);
      && t.calls == map[i := EnteredCall(input, NOTHING, None).(pc := Open)] && t.locks == map[b := i]
      && t.store == s.store[b := Note(None, None, input.messageId)] && t.settled == s.settled
      && t.used == s.used[input.messageId := b] && |t.subs| == |s.subs| + 1 && t.subs[..|s.subs|] == s.subs
  {
    var entered := EnteredState(s, i, input, None);
    ContextlessCheck(s, entered, i, input);
    hide Started, DoCheck, Submitting;
    StartedIs(s, i, input);
    ContextlessSubmit(DoCheck(entered, i, None, None), i, input);
  }

  lemma ContextlessSubmit(t: State, i: nat, input: Input)
    requires t.calls == map[i := EnteredCall(input, NOTHING, None).(pc := Cleared)] && input.taskId.None?
    ensures var u := Submitting(t, i);
      && u.calls == map[i := EnteredCall(input, NOTHING, None).(pc := Open)] && u.locks == t.locks && u.used == t.used
      && u.store == t.store[Binding(input.scope, input.endpoint) := Note(None, None, input.messageId)]
      && u.settled == t.settled && |u.subs| == |t.subs| + 1 && u.subs[..|t.subs|] == t.subs
  {
    ContextlessNotes(t, i, input);
    var u2 := DoWriteContextNote(DoWriteNote(t, i), i);
    hide DoWriteNote, DoWriteContextNote;
    assert DoSubmit(u2, i).calls == map[i := EnteredCall(input, NOTHING, None).(pc := Open)];
  }

  lemma ContextlessNotes(t: State, i: nat, input: Input)
    requires t.calls == map[i := EnteredCall(input, NOTHING, None).(pc := Cleared)] && input.taskId.None?
    ensures var u := DoWriteContextNote(DoWriteNote(t, i), i);
      && u.calls == map[i := EnteredCall(input, NOTHING, None).(pc := Prepared)]
      && u.store == t.store[Binding(input.scope, input.endpoint) := Note(None, None, input.messageId)]
      && u.locks == t.locks && u.used == t.used && u.settled == t.settled && u.subs == t.subs
  {
    var u1 := DoWriteNote(t, i);
    assert u1.calls == map[i := EnteredCall(input, NOTHING, None).(pc := Noted)];
    assert DoWriteContextNote(u1, i).calls == map[i := EnteredCall(input, NOTHING, None).(pc := Prepared)];
  }

  lemma ContextlessCheck(s: State, entered: State, i: nat, input: Input)
    requires entered == EnteredState(s, i, input, None) && input.taskId.None?
    requires Load(s.store, Binding(input.scope, input.endpoint)) == NOTHING
    ensures var b := Binding(input.scope, input.endpoint);
      DoCheck(entered, i, None, None) ==
        entered.(calls := map[i := EnteredCall(input, NOTHING, None).(pc := Cleared)])
  {
    assert DoCheck(entered, i, None, None).calls == map[i := EnteredCall(input, NOTHING, None).(pc := Cleared)];
  }

  lemma LearnedRelay(u: State, i: nat, b: Key)
    requires i in u.calls && u.calls == map[i := u.calls[i]] && u.calls[i].pc == Relaying(false)
    requires u.calls[i].locked.None? && u.calls[i].record.contextId.Some? && u.locks == map[b := i] && b.Binding?
    ensures var v := DoStop(DoRelay(DoTakeLearned(u, i), i), i);
      && Idle(v) && v.store == u.store[ExecutionOf(u.calls[i], u.calls[i].record.contextId.value) := u.calls[i].record]
      && v.subs == u.subs && v.used == u.used && v.settled == u.settled
  {
    LearnedTake(u, i, b);
    hide DoTakeLearned;
    LearnedWrite(DoTakeLearned(u, i), i);
  }

  lemma LearnedTake(u: State, i: nat, b: Key)
    requires i in u.calls && u.calls == map[i := u.calls[i]] && u.calls[i].pc == Relaying(false)
    requires u.calls[i].locked.None? && u.calls[i].record.contextId.Some? && u.locks == map[b := i] && b.Binding?
    ensures var e := ExecutionOf(u.calls[i], u.calls[i].record.contextId.value);
      DoTakeLearned(u, i) == u.(calls := map[i := u.calls[i].(locked := u.calls[i].record.contextId)],
                                locks := map[b := i, e := i])
  {
    assert DoTakeLearned(u, i).calls == map[i := u.calls[i].(locked := u.calls[i].record.contextId)];
  }

  lemma LearnedWrite(u: State, i: nat)
    requires i in u.calls && u.calls == map[i := u.calls[i]] && u.calls[i].pc == Relaying(false)
    requires u.calls[i].locked.Some? && u.calls[i].record.contextId.Some?
      && forall k :: k in u.locks ==> u.locks[k] == i
    ensures var v := DoStop(DoRelay(u, i), i);
      && Idle(v) && v.store == u.store[ExecutionOf(u.calls[i], u.calls[i].record.contextId.value) := u.calls[i].record]
      && v.subs == u.subs && v.used == u.used && v.settled == u.settled
  {
    var w := DoRelay(u, i);
    assert w.calls == map[i := w.calls[i]];
  }

  lemma LearnedHear(t: State, i: nat, input: Input, task: Reply)
    requires t.calls == map[i := EnteredCall(input, NOTHING, None).(pc := Open)] && input.taskId.None?
      && Matches(task, None, None)
    ensures var u := DoHear(t, i, task, true);
      var record := Snapshot(task, Some(input.messageId));
      && i in u.calls && u.calls == map[i := u.calls[i]] && u.calls[i].pc == Relaying(false) && u.calls[i].locked.None?
      && u.calls[i].input == input && u.calls[i].record == record && u.locks == t.locks && u.subs == t.subs
         && u.used == t.used
      && u.store == t.store[Binding(input.scope, input.endpoint) := record]
         && u.settled == t.settled + {input.messageId}
  {
    var u := DoHear(t, i, task, true);
    assert u.calls == map[i := u.calls[i]];
  }

  /** A call that did not know its context is answered with a task of some context, and ends. */
  lemma OneContextless(s: State, i: nat, input: Input, task: Reply) returns (u: State)
    requires Reachable(s) && Idle(s) && input.messageId !in s.used && input.taskId.None? && input.newContext
      && input.contextId.None?
    requires Load(s.store, Binding(input.scope, input.endpoint)) == NOTHING && Matches(task, None, None)
    ensures var b, e := Binding(input.scope, input.endpoint), Execution(input.endpoint, task.contextId);
      && Reachable(u) && Idle(u)
      && u.store == s.store[b := Snapshot(task, Some(input.messageId))][e := Snapshot(task, Some(input.messageId))]
      && |u.subs| == |s.subs| + 1 && u.subs[..|s.subs|] == s.subs && u.used == s.used[input.messageId := b]
      && u.settled == s.settled + {input.messageId}
  {
    var b, e := Binding(input.scope, input.endpoint), Execution(input.endpoint, task.contextId);
    var record := Snapshot(task, Some(input.messageId));
    hide Reachable, Idle, Submitting, DoCheck, Started, DoHear, DoTakeLearned, DoRelay, DoStop, Load, Matches;
    var t := Submitting(DoCheck(Started(s, i, input), i, None, None), i);
    ContextlessCall(s, i, input);
    ReachCall(s, i, input, None);
    LearnedHear(t, i, input, task);
    LearnedRelay(DoHear(t, i, task, true), i, b);
    u := Answered(t, i, task, true);
    ReachAnswered(t, i, task, true);
    assert t.store[b := record][e := record] == s.store[b := record][e := record];
  }

  // ----- the two ways past a fence -----

  /** Two submissions to one known context, the first of them unsettled. */
  ghost predicate Overlaps(s: State) {
    exists i: nat, n: nat :: i < n < |s.subs| && s.subs[i].context.Some? && s.subs[i].context == s.subs[n].context
      && s.subs[i].messageId !in s.settled
  }

  lemma OverlapsAt(s: State, i: nat, n: nat)
    requires i < n < |s.subs| && s.subs[i].context.Some? && s.subs[i].context == s.subs[n].context
      && s.subs[i].messageId !in s.settled
    ensures Overlaps(s)
  {
  }

  const DONE := Reply("t", "c", Some(A2A.Completed))

  /**
   * The merge passes a fence: a binding still remembers an interrupted task of the context, while the
   * context's own record holds the unaccepted but terminal readback of another binding's message.
   */
  lemma MergePassesFence() returns (s: State)
    ensures Reachable(s) && Overlaps(s)
  {
    var third := Input("b", "e", None, None, false, "m3");
    hide Reachable, Overlaps;
    var s2 := TwoAnswered();
    s := OneCall(s2, 2, third, "c", Some(DONE));
    assert s.subs[1] == s.subs[..2][1];
    OverlapsAt(s, 1, 2);
  }

  /**
   * One binding remembers an interrupted task of the context; the context's record is of another, unaccepted and
   * ended.
   */
  lemma TwoAnswered() returns (s: State)
    ensures Reachable(s) && Idle(s) && "m3" !in s.used && "m2" !in s.settled
    ensures Load(s.store, Binding("b", "e")) == Snapshot(Reply("t", "c", Some(A2A.InputRequired)), Some("m1"))
    ensures Load(s.store, Execution("e", "c")) ==
      Snapshot(Reply("u", "c", Some(A2A.Canceled)), Some("m2")).(unknown := true)
    ensures |s.subs| == 2 && s.subs[1].messageId == "m2" && s.subs[1].context == Some(Execution("e", "c"))
  {
    var second := Input("a", "e", Some("c"), None, false, "m2");
    hide Reachable;
    var s1 := OneAnswered();
    var t1 := OneCall(s1, 1, second, "c", Some(DONE));
    s := OneAnswer(s1, t1, 1, second, "c", Reply("u", "c", Some(A2A.Canceled)), false);
  }

  lemma OneAnswered() returns (s: State)
    ensures Reachable(s) && Idle(s) && s.used.Keys == {"m1"} && s.settled == {"m1"} && |s.subs| == 1
    ensures var r := Snapshot(Reply("t", "c", Some(A2A.InputRequired)), Some("m1"));
      s.store == map[Binding("b", "e") := r, Execution("e", "c") := r]
  {
    var first := Input("b", "e", Some("c"), None, false, "m1");
    hide Reachable;
    ReachInit();
    var t0 := OneCall(INIT, 0, first, "c", None);
    s := OneAnswer(INIT, t0, 0, first, "c", Reply("t", "c", Some(A2A.InputRequired)), true);
  }

  /** A call that did not know the context overwrites its record without reading it. */
  lemma LearnedContextOverwritesFence() returns (s: State)
    ensures Reachable(s) && Overlaps(s)
  {
    var first := Input("a", "e", Some("c"), None, false, "m1");
    var second := Input("b", "e", None, None, true, "m2");
    var third := Input("d", "e", Some("c"), None, false, "m3");
    hide Reachable, Overlaps;
    ReachInit();
    var t0 := OneCall(INIT, 0, first, "c", None);
    var s1 := OneStop(INIT, t0, 0, first, "c");
    var s2 := OneContextless(s1, 1, second, DONE);
    s := OneCall(s2, 2, third, "c", None);
    assert s.subs[0] == s.subs[..2][0] && s2.subs[0] == s2.subs[..1][0];
    OverlapsAt(s, 0, 2);
  }
}
