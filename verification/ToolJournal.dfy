/**
 * The client's submission journal: every call runs under its binding's lock, notes its message in two
 * records, one under the binding and one under the remote context, and submits only then.
 *
 * A step is the code between two awaits, except that a read of the peer is one step with the read of the
 * record it belongs to: the locks held make nothing observable in between. A call may stop at any point,
 * by an error, an abort or the death of its process; its locks are then free (for a file store: after the
 * manual recovery its error message asks for).
 */
module ToolJournal {
  import opened Prelude
  import A2A

  type TaskState = A2A.TaskState

  /** The two kinds of record: one per local binding and endpoint, one per remote context. */
  datatype Key = Binding(scope: string, endpoint: string) | Execution(endpoint: string, contextId: string)

  datatype Rec = Rec(
    contextId: Option<string>,
    taskId: Option<string>,
    state: Option<TaskState>,
    messageId: Option<string>,
    pending: bool,
    unknown: bool)          // `submissionUnknown`

  const NOTHING := Rec(None, None, None, None, false, false)

  /** A task as the peer reports it. */
  datatype Reply = Reply(id: string, contextId: string, state: Option<TaskState>)

  function Load(store: map<Key, Rec>, key: Key): Rec {
    if key in store then store[key] else NOTHING
  }

  predicate Terminal(state: Option<TaskState>) {
    state.Some? && A2A.Final(state.value)
  }

  predicate Interrupted(state: Option<TaskState>) {
    state.Some? && A2A.Interrupted(state.value)
  }

  /** `requireReadback` throws. */
  predicate Fenced(r: Rec) {
    r.unknown || (r.pending && (r.taskId.None? || r.state.None?))
  }

  /** The binding repairs the context's record when a process died between the two writes. */
  predicate Repairs(context: Option<string>, binding: Rec, record: Rec) {
    && context == binding.contextId
    && ((binding.pending && !record.pending)
        || (binding.taskId.Some? && binding.messageId == record.messageId
            && (record.taskId.None? || (record.unknown && !binding.unknown))))
  }

  function Merge(context: Option<string>, binding: Rec, record: Rec): Rec {
    if Repairs(context, binding, record) then binding else record
  }

  function Snapshot(t: Reply, messageId: Option<string>): Rec {
    Rec(Some(t.contextId), Some(t.id), t.state, messageId, !Terminal(t.state), false)
  }

  function Note(context: Option<string>, taskId: Option<string>, messageId: string): Rec {
    Rec(context, taskId, None, Some(messageId), true, true)
  }

  /** `check` accepts the reply. */
  predicate Matches(t: Reply, taskId: Option<string>, contextId: Option<string>) {
    && t.id != "" && t.contextId != ""
    && (taskId.Some? ==> t.id == taskId.value)
    && (contextId.Some? ==> t.contextId == contextId.value)
  }

  datatype Input = Input(scope: string, endpoint: string, contextId: Option<string>, taskId: Option<string>,
                         newContext: bool, messageId: string)

  datatype Pc =
    | Queued                    // waits for the binding's lock
    | Bound                     // holds it
    | Located                   // binding read and passed, context determined
    | Entered                   // holds the context's lock too, if the context is known
    | Cleared                   // records merged and re-read: a submission is allowed
    | Noted                     // note written under the binding
    | Prepared                  // note written in both records
    | Withdrawing               // binding restored after a failure before the submission
    | Open                      // submitted; callbacks are heard
    | Relaying(last: bool)      // written under the binding, not yet under the context

  datatype Call = Call(
    input: Input,
    pc: Pc,
    binding: Rec,               // what the binding said
    context: Option<string>,    // the context known before the submission
    locked: Option<string>,     // the context whose lock this call holds
    previous: Rec,              // merged and re-read record the submission was allowed by
    accepted: Option<Reply>,
    observed: bool,             // `acceptanceObserved`
    record: Rec)                // the record being written

  /** One submission: through which binding, in which known context, continuing which task, allowed by which record. */
  datatype Submission = Submission(messageId: string, binding: Key, context: Option<Key>, taskId: Option<string>,
                                   previous: Rec)

  /** A message that a context's record marks as unsettled. */
  datatype Mark = Mark(record: Key, messageId: string)

  datatype State = State(
    store: map<Key, Rec>,       // survives everything
    locks: map<Key, nat>,
    calls: map<nat, Call>,
    used: map<string, Key>,     // message ids, each with the binding of its call
    subs: seq<Submission>,      // history: every submission, in order
    settled: set<string>,       // history: messages whose acceptance or response was recorded
    noted: set<string>,         // history: messages some record was written for
    overruled: set<Mark>)  // history: unsettled messages' marks that a context's record lost

  const INIT := State(map[], map[], map[], map[], [], {}, {}, {})

  datatype Action =
    | Begin(i: nat, input: Input)
    | TakeBinding(i: nat)
    | ReadBinding(i: nat, found: Option<Reply>, legacy: bool)
    | TakeContext(i: nat)
    | Check(i: nat, current: Option<Reply>, target: Option<Reply>)
    | WriteNote(i: nat)
    | WriteContextNote(i: nat)
    | Withdraw(i: nat)
    | WithdrawContext(i: nat)
    | Submit(i: nat)
    | Hear(i: nat, task: Reply, acceptance: bool)
    | Respond(i: nat, contextId: Option<string>)
    | TakeLearned(i: nat)
    | Relay(i: nat)
    | Stop(i: nat)

  function BindingOf(c: Call): Key {
    Binding(c.input.scope, c.input.endpoint)
  }

  function ExecutionOf(c: Call, contextId: string): Key {
    Execution(c.input.endpoint, contextId)
  }

  predicate At(s: State, i: nat, pc: Pc) {
    i in s.calls && s.calls[i].pc == pc
  }

  function Goto(s: State, i: nat, c: Call): State {
    s.(calls := s.calls[i := c])
  }

  function End(s: State, i: nat): State {
    s.(calls := map n | n in s.calls && n != i :: s.calls[n],
       locks := map k | k in s.locks && s.locks[k] != i :: s.locks[k])
  }

  /** The record still says that this message may have been submitted. */
  predicate Marks(r: Rec, messageId: string) {
    r.unknown && r.messageId == Some(messageId)
  }

  /** The unsettled message that a context's record no longer marks once r is written over it. */
  function Lost(s: State, key: Key, r: Rec): set<Mark> {
    var was := Load(s.store, key);
    if was.unknown && was.messageId.Some? && was.messageId.value !in s.settled && !Marks(r, was.messageId.value)
    then {Mark(key, was.messageId.value)} else {}
  }

  /** A context's record is written. */
  function Put(s: State, key: Key, r: Rec): State {
    s.(store := s.store[key := r], overruled := s.overruled + Lost(s, key, r))
  }

  function DoBegin(s: State, i: nat, input: Input): State {
    if i in s.calls || input.messageId in s.used
      || (input.newContext && (input.contextId.Some? || input.taskId.Some?)) then s
    else
      Goto(s, i, Call(input, Queued, NOTHING, None, None, NOTHING, None, false, NOTHING))
        .(used := s.used[input.messageId := Binding(input.scope, input.endpoint)])
  }

  function DoTakeBinding(s: State, i: nat): State {
    if !At(s, i, Queued) || BindingOf(s.calls[i]) in s.locks then s
    else Goto(s, i, s.calls[i].(pc := Bound)).(locks := s.locks[BindingOf(s.calls[i]) := i])
  }

  /** `legacy`: the store holds an entry of the old format for this scope and target, which is never guessed at. */
  function DoReadBinding(s: State, i: nat, found: Option<Reply>, legacy: bool): State {
    if !At(s, i, Bound) then s
    else
      var c := s.calls[i];
      var binding := Load(s.store, BindingOf(c));
      var context := if c.input.contextId.Some? then c.input.contextId
                     else if c.input.newContext then None else binding.contextId;
      if Fenced(binding) then End(s, i)
      else if binding.contextId.None? && c.input.contextId.None? && !c.input.newContext && legacy then End(s, i)
      else if c.input.taskId.None? then Goto(s, i, c.(pc := Located, binding := binding, context := context))
      else if found.Some? && Matches(found.value, c.input.taskId, context)
      then Goto(s, i, c.(pc := Located, binding := binding, context := Some(found.value.contextId)))
      else End(s, i)
  }

  function DoTakeContext(s: State, i: nat): State {
    if !At(s, i, Located) then s
    else
      var c := s.calls[i];
      if c.context.None? then Goto(s, i, c.(pc := Entered))
      else if ExecutionOf(c, c.context.value) in s.locks then s
      else Goto(s, i, c.(pc := Entered, locked := c.context)).(locks := s.locks[ExecutionOf(c, c.context.value) := i])
  }

  /** The context's own record; empty when no context is known. */
  function ContextRecord(s: State, c: Call): Rec {
    if c.context.Some? then Load(s.store, ExecutionOf(c, c.context.value)) else NOTHING
  }

  predicate Unfinished(r: Rec) {
    r.taskId.Some? && !Terminal(r.state)
  }

  /** After the re-read: the task has ended, or it is the interrupted one being continued. */
  predicate Allows(r: Rec, taskId: Option<string>) {
    Unfinished(r) ==> Interrupted(r.state) && taskId == r.taskId
  }

  predicate Continues(c: Call, target: Option<Reply>) {
    c.input.taskId.Some? ==>
      target.Some? && Matches(target.value, c.input.taskId, c.context) && Interrupted(target.value.state)
  }

  /** Past the merge: an unfinished task is read again and stored, and the caller's own task must be interrupted. */
  function Reread(s: State, i: nat, merged: Rec, current: Option<Reply>, target: Option<Reply>): State
    requires i in s.calls
  {
    var c := s.calls[i];
    if !Unfinished(merged) then
      if Continues(c, target) then Goto(s, i, c.(pc := Cleared, previous := merged)) else End(s, i)
    else if c.context.None? || current.None? || !Matches(current.value, merged.taskId, c.context) then End(s, i)
    else
      var read := Snapshot(current.value, merged.messageId);
      var saved := Put(s, ExecutionOf(c, c.context.value), read);
      if Allows(read, c.input.taskId) && Continues(c, target)
      then Goto(saved, i, c.(pc := Cleared, previous := read)) else End(saved, i)
  }

  function DoCheck(s: State, i: nat, current: Option<Reply>, target: Option<Reply>): State {
    if !At(s, i, Entered) then s
    else
      var c := s.calls[i];
      var merged := Merge(c.context, c.binding, ContextRecord(s, c));
      if Fenced(merged) then End(s, i) else Reread(s, i, merged, current, target)
  }

  function NoteOf(c: Call): Rec {
    Note(c.context, c.input.taskId, c.input.messageId)
  }

  function DoWriteNote(s: State, i: nat): State {
    if !At(s, i, Cleared) then s
    else Goto(s, i, s.calls[i].(pc := Noted))
      .(store := s.store[BindingOf(s.calls[i]) := NoteOf(s.calls[i])], noted := s.noted + {s.calls[i].input.messageId})
  }

  function DoWriteContextNote(s: State, i: nat): State {
    if !At(s, i, Noted) then s
    else
      var c := s.calls[i];
      Goto(if c.context.Some? then Put(s, ExecutionOf(c, c.context.value), NoteOf(c)) else s, i, c.(pc := Prepared))
  }

  /** The invoker failed before it submitted: both records are put back. */
  function DoWithdraw(s: State, i: nat): State {
    if !At(s, i, Prepared) then s
    else Goto(s, i, s.calls[i].(pc := Withdrawing)).(store := s.store[BindingOf(s.calls[i]) := s.calls[i].binding])
  }

  function DoWithdrawContext(s: State, i: nat): State {
    if !At(s, i, Withdrawing) then s
    else
      var c := s.calls[i];
      End(if c.context.Some? then Put(s, ExecutionOf(c, c.context.value), c.previous) else s, i)
  }

  function SubmissionOf(c: Call): Submission {
    Submission(c.input.messageId, BindingOf(c),
               if c.context.Some? then Some(ExecutionOf(c, c.context.value)) else None, c.input.taskId, c.previous)
  }

  function DoSubmit(s: State, i: nat): State {
    if !At(s, i, Prepared) then s
    else Goto(s, i, s.calls[i].(pc := Open)).(subs := s.subs + [SubmissionOf(s.calls[i])])
  }

  /** What a task heard must match: the accepted one, else the caller's ids. */
  predicate Heard(c: Call, t: Reply) {
    Matches(t, if c.accepted.Some? then Some(c.accepted.value.id) else c.input.taskId,
            if c.context.Some? then c.context
            else if c.accepted.Some? then Some(c.accepted.value.contextId) else None)
  }

  /** The first half of `writeTask`: the binding's record, before any wait for a newly learned context. */
  function DoHear(s: State, i: nat, task: Reply, acceptance: bool): State {
    if !At(s, i, Open) || !Heard(s.calls[i], task) then s
    else
      var c := s.calls[i];
      var observed := c.observed || acceptance;
      var record := Snapshot(task, Some(c.input.messageId)).(unknown := !observed);
      Goto(s, i, c.(pc := Relaying(false), accepted := Some(task), observed := observed, record := record))
        .(store := s.store[BindingOf(c) := record], settled := s.settled + if observed then {c.input.messageId} else {})
  }

  /** A message is a completed response to the submission itself, before any task; it may name the context. */
  function DoRespond(s: State, i: nat, contextId: Option<string>): State {
    if !At(s, i, Open) || s.calls[i].accepted.Some?
      || (s.calls[i].context.Some? && contextId != s.calls[i].context) then s
    else
      var c := s.calls[i];
      var record := NOTHING.(contextId := contextId);
      var told := s.(store := s.store[BindingOf(c) := record], settled := s.settled + {c.input.messageId});
      if contextId.None? then End(told, i) else Goto(told, i, c.(pc := Relaying(true), record := record))
  }

  function DoTakeLearned(s: State, i: nat): State {
    if i !in s.calls || !s.calls[i].pc.Relaying? || s.calls[i].locked.Some? || s.calls[i].record.contextId.None? then s
    else
      var c := s.calls[i];
      var key := ExecutionOf(c, c.record.contextId.value);
      if key in s.locks then s
      else Goto(s, i, c.(locked := c.record.contextId)).(locks := s.locks[key := i])
  }

  /** The second half of `writeTask`: the context's record. */
  function DoRelay(s: State, i: nat): State {
    if i !in s.calls || !s.calls[i].pc.Relaying? || s.calls[i].locked.None? || s.calls[i].record.contextId.None? then s
    else
      var c := s.calls[i];
      var saved := Put(s, ExecutionOf(c, c.record.contextId.value), c.record);
      if c.pc.last then End(saved, i) else Goto(saved, i, c.(pc := Open))
  }

  function DoStop(s: State, i: nat): State {
    if i in s.calls then End(s, i) else s
  }

  function Exec(s: State, a: Action): State {
    match a
    case Begin(i, input) => DoBegin(s, i, input)
    case TakeBinding(i) => DoTakeBinding(s, i)
    case ReadBinding(i, found, legacy) => DoReadBinding(s, i, found, legacy)
    case TakeContext(i) => DoTakeContext(s, i)
    case Check(i, current, target) => DoCheck(s, i, current, target)
    case WriteNote(i) => DoWriteNote(s, i)
    case WriteContextNote(i) => DoWriteContextNote(s, i)
    case Withdraw(i) => DoWithdraw(s, i)
    case WithdrawContext(i) => DoWithdrawContext(s, i)
    case Submit(i) => DoSubmit(s, i)
    case Hear(i, task, acceptance) => DoHear(s, i, task, acceptance)
    case Respond(i, contextId) => DoRespond(s, i, contextId)
    case TakeLearned(i) => DoTakeLearned(s, i)
    case Relay(i) => DoRelay(s, i)
    case Stop(i) => DoStop(s, i)
  }

  function Run(actions: seq<Action>): State {
    if actions == [] then INIT else Exec(Run(actions[..|actions| - 1]), actions[|actions| - 1])
  }

  /** What any number of calls, service instances and deaths can come to. */
  ghost predicate Reachable(s: State) {
    exists actions :: Run(actions) == s
  }
}
