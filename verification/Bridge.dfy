/**
 * The bridge as a state machine: one durable journal, at most one live process.
 *
 * A step is the code between two awaits of the request handler, the executor, the turn runner or
 * the durable binding. A crash may come between any two steps; it keeps the journal and nothing
 * else. A step that is not enabled leaves the state as it is, so every sequence of actions is a run.
 *
 * What the environment is held to: a request's task id is never used under two contexts (`home`);
 * the SDK calls the executor at most once per admitted request, and before the handler call ends;
 * at most one process is alive.
 */
module Bridge {
  import opened Prelude
  import opened A2A
  import opened Journal
  import opened JournalProofs

  /** How a runner turn ended, as the executor sees it. */
  datatype Outcome = Finished(state: TaskState) | Cancelled | Errored

  /** Where an attempt is between two awaits. */
  datatype Pc =
    | Accepting                                      // executor: `accept` in flight
    | Admitted                                       // accepted; dispatch is next
    | Queued                                         // dispatched; waiting for the context lock
    | Entered                                        // runner, under the lock: quarantine check passed
    | Guarded                                        // durable guard passed, record is preparing
    | Opening(known: Option<string>)                 // session opened for the known conversation, if any
    | Mapped(conversation: string)                   // session ready, conversation mapped
    | Correlating(conversation: string)              // second guard passed, mapping set again
    | Ready(conversation: string)                    // intent committed; nothing is sent yet
    | Sending                                        // `session.send` called
    | Streaming(good: bool)                          // `good`: the last result seen is a settled success
    | Observing(record: Record, preview: Task, good: bool)
    | Closing(good: bool)                            // stream left, owned cleanup in flight
    | Succeeded                                      // `stopped` committed, lock still held
    | Thrown(cancelled: bool)                        // error on its way out, lock still held
    | Settled(outcome: Outcome)                      // runner call settled, lock released
    | Reducing(marked: Record, snapshot: Task, state: TaskState)
    | Announced(state: TaskState)                    // publication committed
    | Awaiting(state: TaskState)                     // waits for its acknowledgment
    | Acknowledged(state: TaskState)

  datatype Attempt = Attempt(context: ContextKey, taskId: string, pc: Pc)

  /** `cancelTask` of the executor on an interrupted task. */
  datatype CancelJob =
    | CancelReducing(key: RecordKey, record: Record, snapshot: Task)
    | CancelAnnounced(key: RecordKey, context: ContextKey)
    | CancelAwaiting(key: RecordKey)

  /** A settled input or auth interruption, kept for same-task continuation or cancellation. */
  datatype Parked = Parked(key: RecordKey, context: ContextKey)

  datatype Life = Dead | Recovering(todo: set<RecordKey>) | Detached | Attached

  datatype Sent = Sent(context: ContextKey, conversation: string)

  datatype State = State(
    j: Journal,                               // survives a crash
    lim: Limits,
    life: Life,
    reserved: map<RecordKey, nat>,            // admitted by a handler call, not yet executed
    attempts: map<RecordKey, Attempt>,        // the executor's `executions` and `activeTasks`
    lock: map<ContextKey, RecordKey>,         // who runs under each context lock
    quarantine: set<ContextKey>,              // the runner's `unresolved`
    cache: map<ContextKey, string>,           // the runner's `conversations`
    interrupted: map<string, Parked>,
    cancels: map<string, CancelJob>,
    failures: set<ContextKey>,                // `finalizationFailures`
    acks: set<RecordKey>,
    resolving: map<RecordKey, multiset<Reading>>, // operator calls between their read and their commit
    pending: set<nat>,                        // handler tokens
    closed: bool,
    requestsDone: Option<bool>,               // what the handler's close reported
    verdict: Option<bool>,                    // what the final drain reported
    sends: seq<RecordKey>,                    // history: every `session.send`, in order
    sent: map<RecordKey, Sent>,               // history: where each input went
    stops: set<RecordKey>,                    // history: committed `stopped` hooks
    attested: set<RecordKey>)                 // history: operator-verified stops

  datatype Action =
    | Open(lim: Limits)
    | Recover(k: RecordKey, stamp: Stamp)
    | FinishOpen
    | Attach(agentId: string, domain: string)
    | Crash
    | Enter(call: nat)
    | Leave(call: nat)
    | HandOver(call: nat, next: nat)
    | Reserve(k: RecordKey, call: nat, now: int)
    | Execute(k: RecordKey, contextId: string, taskId: string)
    | AcceptStep(k: RecordKey, task: Task, artifactId: string, now: int)
    | Dispatch(k: RecordKey, refused: bool, now: int)
    | AbandonQueue(k: RecordKey)
    | Acquire(k: RecordKey, aborted: bool)
    | Guard(k: RecordKey, now: int)
    | Lookup(k: RecordKey)
    | SessionReady(k: RecordKey, conversation: string)
    | Correlate(k: RecordKey, agentId: string)
    | Intend(k: RecordKey, agentId: string, now: int)
    | GiveUp(k: RecordKey, aborted: bool)
    | Send(k: RecordKey)
    | SendOk(k: RecordKey, now: int)
    | Observe(k: RecordKey, message: SdkMessage, stamp: Stamp)
    | ObserveStep(k: RecordKey, now: int)
    | LeaveStream(k: RecordKey, error: bool)
    | CloseSession(k: RecordKey, cleanup: bool, now: int)
    | Release(k: RecordKey, aborted: bool, state: TaskState)
    | Conclude(k: RecordKey, aborted: bool, text: Option<Artifact>, stamp: Stamp)
    | Publish(k: RecordKey, now: int)
    | WaitPublished(k: RecordKey)
    | Finish(k: RecordKey)
    | Save(owner: string, tenant: string, task: Task, now: int)
    | CancelInterrupted(call: nat, taskId: string, stamp: Stamp)
    | CancelStep(taskId: string, now: int)
    | CancelWait(taskId: string)
    | CancelIntent(k: RecordKey, now: int)
    | Resolve(k: RecordKey, v: Verdict, stamp: Stamp)
    | ResolveStep(k: RecordKey, read: Reading, now: int)
    | Prune(tk: TaskKey, before: int)
    | Close
    | ReportRequests
    | FinalDrain
    | ReleaseOwner

  function TurnOf(k: RecordKey, a: Attempt): Turn {
    Turn(a.context, k.messageId, a.taskId)
  }

  /** The attempt runs under its context lock. */
  predicate Holds(pc: Pc) {
    pc.Entered? || pc.Guarded? || pc.Opening? || pc.Mapped? || pc.Correlating? || pc.Ready?
    || pc.Sending? || pc.Streaming? || pc.Observing? || pc.Closing? || pc.Succeeded? || pc.Thrown?
  }

  /** Between the durable guard and `session.send`. */
  predicate Cleared(pc: Pc) {
    pc.Guarded? || pc.Opening? || pc.Mapped? || pc.Correlating? || pc.Ready?
  }

  /** Input was handed to the session and its fate is not settled yet. */
  predicate Exposed(pc: Pc) {
    pc.Sending? || pc.Streaming? || pc.Observing? || pc.Closing?
  }

  predicate Live(s: State) {
    s.life.Attached?
  }

  /** The attempt is at this point of a live process. */
  predicate At(s: State, k: RecordKey) {
    s.life.Attached? && k in s.attempts
  }

  function Move(s: State, k: RecordKey, pc: Pc): State
    requires k in s.attempts
  {
    s.(attempts := s.attempts[k := s.attempts[k].(pc := pc)])
  }

  function Drop(s: State, k: RecordKey): State {
    s.(attempts := map q | q in s.attempts && q != k :: s.attempts[q])
  }

  /** The executor's catch: the attempt ends and its context is reported unresolved at close. */
  function Broken(s: State, k: RecordKey): State
    requires k in s.attempts
  {
    Drop(s, k).(failures := s.failures + {s.attempts[k].context})
  }

  predicate Active(s: State, taskId: string) {
    taskId in s.cancels || exists k :: k in s.attempts && s.attempts[k].taskId == taskId
  }

  function Fresh(j: Journal, lim: Limits, life: Life, s: State): State {
    State(j, lim, life, map[], map[], map[], {}, map[], map[], map[], {}, {}, map[], {}, false, None, None,
          s.sends, s.sent, s.stops, s.attested)
  }

  const NO_LIMITS := Limits(0, 0, _ => true)

  const INIT := State(EMPTY, NO_LIMITS, Dead, map[], map[], map[], {}, map[], map[], map[], {}, {}, map[], {},
                      false, None, None, [], map[], {}, {})

  // ----- process life -----

  ghost function DoOpen(s: State, lim: Limits): State {
    if !s.life.Dead? || !Validates(s.j) then s
    else Fresh(s.j.(version := Some(1)), lim, Recovering(s.j.executions.Keys), s)
  }

  function DoRecover(s: State, k: RecordKey, stamp: Stamp): State {
    if !s.life.Recovering? || k !in s.life.todo || k !in s.j.executions then s
    else
      match RecoverOne(s.j, k, stamp)
      case Ok(j) => s.(j := j, life := Recovering(s.life.todo - {k}))
      case Err => s.(life := Dead)
  }

  function DoFinishOpen(s: State): State {
    if s.life == Recovering({}) then s.(life := Detached) else s
  }

  /** The agent is bound first; a journal of another sharing domain is then not attached. */
  function DoAttach(s: State, agentId: string, domain: string): State {
    if !s.life.Detached? then s
    else
      match BindAgent(s.j, agentId)
      case Err => s
      case Ok(j) =>
        match BindDomain(j, domain)
        case Err => s.(j := j)
        case Ok(shared) => s.(j := shared, life := Attached)
  }

  function DoCrash(s: State): State {
    Fresh(s.j, s.lim, Dead, s)
  }

  // ----- handler calls -----

  function DoEnter(s: State, call: nat): State {
    if Live(s) && !s.closed && call !in s.pending then s.(pending := s.pending + {call}) else s
  }

  function DoLeave(s: State, call: nat): State {
    if Live(s) && call in s.pending
    then s.(pending := s.pending - {call},
            reserved := map k | k in s.reserved && s.reserved[k] != call :: s.reserved[k])
    else s
  }

  /** A disconnected stream keeps draining under a second token, taken before the first is given back. */
  function DoHandOver(s: State, call: nat, next: nat): State {
    if Live(s) && call in s.pending && next !in s.pending
    then s.(pending := s.pending + {next},
            reserved := map k | k in s.reserved :: if s.reserved[k] == call then next else s.reserved[k])
    else s
  }

  function DoReserve(s: State, k: RecordKey, call: nat, now: int): State {
    if !Live(s) || s.closed || call !in s.pending || k.messageId == "" then s
    else
      match ReserveMessage(s.lim, s.j, k, now)
      case Ok(j) => s.(j := j, reserved := s.reserved[k := call])
      case Err => s
  }

  ghost function DoExecute(home: Home, s: State, k: RecordKey, contextId: string, taskId: string): State {
    if !Live(s) || k !in s.reserved || s.reserved[k] !in s.pending || taskId == "" || contextId == ""
       || home(TaskKey(k.tenant, k.owner, taskId)) != contextId then s
    else
      var context := ContextKey(k.owner, k.tenant, contextId);
      var once := s.(reserved := map q | q in s.reserved && q != k :: s.reserved[q]);
      if s.closed then once.(failures := s.failures + {context})
      else if Active(s, taskId) then once
      else once.(attempts := s.attempts[k := Attempt(context, taskId, Accepting)],
                 interrupted := map t | t in s.interrupted && t != taskId :: s.interrupted[t])
  }

  // ----- executor, before the turn -----

  function DoAccept(s: State, k: RecordKey, task: Task, artifactId: string, now: int): State {
    if !At(s, k) || !s.attempts[k].pc.Accepting? || artifactId == ""
       || task.id != s.attempts[k].taskId || task.contextId != s.attempts[k].context.contextId then s
    else
      match Accept(s.lim, s.j, k, task, artifactId, now)
      case Ok(j) => Move(s.(j := j), k, Admitted)
      case Err => Drop(s, k)
  }

  /** `refused`: the executor throws before `dispatched` (closed bridge, unsupported output or empty text). */
  ghost function DoDispatch(s: State, k: RecordKey, refused: bool, now: int): State {
    if !At(s, k) || !s.attempts[k].pc.Admitted? then s
    else if refused || s.closed then Move(s, k, Settled(Errored))
    else
      match Dispatched(s.lim, s.j, k, s.attempts[k].taskId, now)
      case Ok(j) => Move(s.(j := j), k, Queued)
      case Err => Move(s, k, Settled(Errored))
  }

  // ----- runner, under the context lock -----

  function DoAbandonQueue(s: State, k: RecordKey): State {
    if At(s, k) && s.attempts[k].pc.Queued? then Move(s, k, Settled(Cancelled)) else s
  }

  function DoAcquire(s: State, k: RecordKey, aborted: bool): State {
    if !At(s, k) || !s.attempts[k].pc.Queued? || s.attempts[k].context in s.lock then s
    else
      var pc := if aborted then Thrown(true)
                else if s.attempts[k].context in s.quarantine then Thrown(false) else Entered;
      Move(s.(lock := s.lock[s.attempts[k].context := k]), k, pc)
  }

  ghost function DoGuard(s: State, k: RecordKey, now: int): State {
    if !At(s, k) || !s.attempts[k].pc.Entered? then s
    else
      match BeforeTurn(s.lim, s.j, TurnOf(k, s.attempts[k]), now)
      case Ok(j) => Move(s.(j := j), k, Guarded)
      case Err => Move(s, k, Thrown(false))
  }

  function DoLookup(s: State, k: RecordKey): State {
    if !At(s, k) || !s.attempts[k].pc.Guarded? then s
    else
      var c := s.attempts[k].context;
      Move(s, k, Opening(if c in s.cache then Some(s.cache[c])
                         else if c in s.j.mappings then Some(s.j.mappings[c]) else None))
  }

  ghost function DoSessionReady(s: State, k: RecordKey, conversation: string): State {
    if !At(s, k) || !s.attempts[k].pc.Opening? || conversation == "" then s
    else
      match SetMapping(s.lim, s.j, s.attempts[k].context, conversation)
      case Ok(j) => Move(s.(j := j), k, Mapped(conversation))
      case Err => Move(s, k, Thrown(false))
  }

  ghost function DoCorrelate(s: State, k: RecordKey, agentId: string): State {
    if !At(s, k) || !s.attempts[k].pc.Mapped? then s
    else
      var conversation := s.attempts[k].pc.conversation;
      var cached := s.(cache := s.cache[s.attempts[k].context := conversation]);
      match BeforeSend(s.lim, s.j, TurnOf(k, s.attempts[k]), Correlation(agentId, conversation, k.messageId))
      case Ok(j) => Move(cached.(j := j), k, Correlating(conversation))
      case Err => Move(cached, k, Thrown(false))
  }

  function DoIntend(s: State, k: RecordKey, agentId: string, now: int): State {
    if !At(s, k) || !s.attempts[k].pc.Correlating? then s
    else
      var conversation := s.attempts[k].pc.conversation;
      match CommitIntent(s.lim, s.j, TurnOf(k, s.attempts[k]), Correlation(agentId, conversation, k.messageId), now)
      case Ok(j) => Move(s.(j := j), k, Ready(conversation))
      case Err => Move(s, k, Thrown(false))
  }

  /** Any error or observed cancellation before `sent` is set. */
  function DoGiveUp(s: State, k: RecordKey, aborted: bool): State {
    if At(s, k) && (s.attempts[k].pc.Entered? || Cleared(s.attempts[k].pc)) then Move(s, k, Thrown(aborted)) else s
  }

  function DoSend(s: State, k: RecordKey): State {
    if !At(s, k) || !s.attempts[k].pc.Ready? then s
    else
      Move(s, k, Sending).(sends := s.sends + [k],
                           sent := s.sent[k := Sent(s.attempts[k].context, s.attempts[k].pc.conversation)])
  }

  function DoSendOk(s: State, k: RecordKey, now: int): State {
    if !At(s, k) || !s.attempts[k].pc.Sending? then s
    else
      match SendReturned(s.lim, s.j, TurnOf(k, s.attempts[k]), now)
      case Ok(j) => Move(s.(j := j), k, Streaming(false))
      case Err => Move(s, k, Closing(false))
  }

  function AfterRead(j: Journal, t: Turn, m: SdkMessage, stamp: Stamp, good: bool): Pc {
    match ReadObservation(j, t, m, stamp)
    case Ok(read) => Observing(read.record, read.snapshot, if m.ResultMessage? then m.success && m.settled else good)
    case Err => Closing(false)
  }

  function DoObserve(s: State, k: RecordKey, m: SdkMessage, stamp: Stamp): State {
    if !At(s, k) || !s.attempts[k].pc.Streaming? then s
    else Move(s, k, AfterRead(s.j, TurnOf(k, s.attempts[k]), m, stamp, s.attempts[k].pc.good))
  }

  function DoObserveStep(s: State, k: RecordKey, now: int): State {
    if !At(s, k) || !s.attempts[k].pc.Observing? then s
    else
      var pc := s.attempts[k].pc;
      match CommitObservation(s.lim, s.j, pc.record, pc.preview, now)
      case Ok(j) => Move(s.(j := j), k, Streaming(pc.good))
      case Err => Move(s, k, Closing(false))
  }

  function DoLeaveStream(s: State, k: RecordKey, error: bool): State {
    if !At(s, k) || !(s.attempts[k].pc.Sending? || s.attempts[k].pc.Streaming?) then s
    else Move(s, k, Closing(s.attempts[k].pc.Streaming? && s.attempts[k].pc.good && !error))
  }

  /** The runner's catch after a send: quarantine first, then mark the record if it can be written. */
  function Quarantine(s: State, k: RecordKey, now: int): State
    requires k in s.attempts
  {
    var m := MarkUnresolved(s.lim, s.j, TurnOf(k, s.attempts[k]), now);
    Move(s.(quarantine := s.quarantine + {s.attempts[k].context}, j := if m.Ok? then m.value else s.j), k,
         Thrown(false))
  }

  /** The stop is committed. */
  function Stop(s: State, k: RecordKey, j: Journal): State
    requires k in s.attempts
  {
    Move(s.(j := j), k, Succeeded).(stops := s.stops + {k})
  }

  /** Owned cleanup settles; then success is committed, or the context is quarantined. */
  function DoCloseSession(s: State, k: RecordKey, cleanup: bool, now: int): State {
    if !At(s, k) || !s.attempts[k].pc.Closing? then s
    else
      var stopped := MarkStopped(s.lim, s.j, TurnOf(k, s.attempts[k]), now);
      if s.attempts[k].pc.good && cleanup && stopped.Ok? then Stop(s, k, stopped.value) else Quarantine(s, k, now)
  }

  /** `state` is what the runner reports; only an interruption differs from completion. */
  function DoRelease(s: State, k: RecordKey, aborted: bool, state: TaskState): State {
    if !At(s, k) || !(s.attempts[k].pc.Succeeded? || s.attempts[k].pc.Thrown?)
       || !(state.Completed? || Interrupted(state)) then s
    else
      var outcome := if s.attempts[k].pc.Thrown? then (if s.attempts[k].pc.cancelled then Cancelled else Errored)
                     else if aborted then Cancelled else Finished(state);
      Move(s, k, Settled(outcome)).(lock := s.lock - {s.attempts[k].context})
  }

  // ----- executor, after the turn -----

  /** The stop the executor vouches for, and the terminal state it publishes. */
  function Conclusion(o: Outcome, quarantined: bool, aborted: bool): (bool, TaskState) {
    if quarantined || o.Errored? then (false, Failed)
    else if o.Cancelled? || aborted then (true, Canceled)
    else (true, o.state)
  }

  /** The executor's last words: what it marks, reduces and will publish, unless the record is gone. */
  function Concluding(s: State, k: RecordKey, aborted: bool, text: Option<Artifact>, stamp: Stamp): Option<Pc>
    requires k in s.attempts && s.attempts[k].pc.Settled?
  {
    var a := s.attempts[k];
    var (confirmed, state) := Conclusion(a.pc.outcome, a.context in s.quarantine, aborted);
    var terminal := StatusUpdate(Status(state, Some(stamp.messageId), TurnSettled, Some(stamp.now)));
    var events := (if text.Some? then [ArtifactUpdate(text.value, state.Completed?)] else []) + [terminal];
    match ReadPublication(s.j, k, a.taskId, events, confirmed)
    case Ok(read) => Some(Reducing(read.record, read.snapshot, state))
    case Err => None
  }

  function DoConclude(s: State, k: RecordKey, aborted: bool, text: Option<Artifact>, stamp: Stamp): State {
    if !At(s, k) || !s.attempts[k].pc.Settled? then s
    else
      match Concluding(s, k, aborted, text, stamp)
      case Some(pc) => Move(s, k, pc)
      case None => Broken(s, k)
  }

  function DoPublish(s: State, k: RecordKey, now: int): State {
    if !At(s, k) || !s.attempts[k].pc.Reducing? then s
    else
      var pc := s.attempts[k].pc;
      match CommitPublication(s.lim, s.j, pc.marked, pc.snapshot, now)
      case Ok(j) => Move(s.(j := j), k, Announced(pc.state))
      case Err => Broken(s, k)
  }

  function DoWaitPublished(s: State, k: RecordKey): State {
    if !At(s, k) || !s.attempts[k].pc.Announced? then s
    else if k !in s.j.executions || s.j.executions[k].taskId != s.attempts[k].taskId then Broken(s, k)
    else if s.j.executions[k].phase.Publishing?
    then Move(s.(acks := s.acks + {k}), k, Awaiting(s.attempts[k].pc.state))
    else Move(s, k, Acknowledged(s.attempts[k].pc.state))
  }

  function DoFinish(s: State, k: RecordKey): State {
    if !At(s, k) || !s.attempts[k].pc.Acknowledged? then s
    else if Interrupted(s.attempts[k].pc.state)
    then Drop(s, k).(interrupted := s.interrupted[s.attempts[k].taskId := Parked(k, s.attempts[k].context)])
    else Drop(s, k)
  }

  // ----- the SDK's saves -----

  function Wake(a: Attempt): Attempt {
    if a.pc.Awaiting? then a.(pc := Acknowledged(a.pc.state)) else a
  }

  ghost function DoSave(home: Home, s: State, owner: string, tenant: string, task: Task, now: int): State {
    if !Live(s) || task.id == "" || home(TaskKey(tenant, owner, task.id)) != task.contextId then s
    else
      match SaveTask(s.lim, s.j, owner, tenant, task, now)
      case Err => s
      case Ok(j) =>
        var woken := set k | k in s.acks && Acknowledges(s.j, k, owner, tenant, task);
        s.(j := j, acks := s.acks - woken,
           attempts := map k | k in s.attempts :: if k in woken then Wake(s.attempts[k]) else s.attempts[k],
           cancels := map t | t in s.cancels && !(s.cancels[t].CancelAwaiting? && s.cancels[t].key in woken) ::
                        s.cancels[t])
  }

  // ----- cancelling an interrupted task -----

  predicate Cancellable(s: State, call: nat, taskId: string) {
    Live(s) && call in s.pending && taskId in s.interrupted && !Active(s, taskId)
  }

  function Unpark(s: State, taskId: string): State {
    s.(interrupted := map t | t in s.interrupted && t != taskId :: s.interrupted[t])
  }

  /** The cancellation `publication` reads and reduces, unless the record is gone. */
  function Cancelling(s: State, taskId: string, stamp: Stamp): Option<CancelJob>
    requires taskId in s.interrupted
  {
    var terminal := StatusUpdate(Status(Canceled, Some(stamp.messageId), RequestCanceled, Some(stamp.now)));
    match ReadPublication(s.j, s.interrupted[taskId].key, taskId, [terminal], true)
    case Ok(read) => Some(CancelReducing(s.interrupted[taskId].key, read.record, read.snapshot))
    case Err => None
  }

  function DoCancelInterrupted(s: State, call: nat, taskId: string, stamp: Stamp): State {
    if !Cancellable(s, call, taskId) then s
    else
      var job := Cancelling(s, taskId, stamp);
      Unpark(s, taskId).(cancels := if job.Some? then s.cancels[taskId := job.value] else s.cancels,
                         failures := if job.Some? then s.failures else s.failures + {s.interrupted[taskId].context})
  }

  function DoCancelStep(s: State, taskId: string, now: int): State {
    if !Live(s) || taskId !in s.cancels || !s.cancels[taskId].CancelReducing? then s
    else
      var job := s.cancels[taskId];
      match CommitPublication(s.lim, s.j, job.record, job.snapshot, now)
      case Ok(j) => s.(j := j, cancels := s.cancels[taskId := CancelAnnounced(job.key, job.record.contextKey)])
      case Err => s.(cancels := map t | t in s.cancels && t != taskId :: s.cancels[t],
                     failures := s.failures + {job.record.contextKey})
  }

  /** The call returns here; its waiter registers, or finds the record settled, or gone. */
  function DoCancelWait(s: State, taskId: string): State {
    if !Live(s) || taskId !in s.cancels || !s.cancels[taskId].CancelAnnounced? then s
    else
      var job := s.cancels[taskId];
      var over := s.(cancels := map t | t in s.cancels && t != taskId :: s.cancels[t]);
      if job.key !in s.j.executions || s.j.executions[job.key].taskId != taskId
      then over.(failures := s.failures + {job.context})
      else if s.j.executions[job.key].phase.Publishing?
      then s.(cancels := s.cancels[taskId := CancelAwaiting(job.key)], acks := s.acks + {job.key})
      else over
  }

  function DoCancelIntent(s: State, k: RecordKey, now: int): State {
    if !(s.life.Detached? || s.life.Attached?) then s
    else
      match RequestCancellation(s.lim, s.j, k, now)
      case Ok(j) => s.(j := j)
      case Err => s
  }

  // ----- operator -----

  /** What the operator calls for this attempt have read; several may be under way. */
  function Calls(s: State, k: RecordKey): multiset<Reading> {
    if k in s.resolving then s.resolving[k] else multiset{}
  }

  function DoResolve(s: State, k: RecordKey, v: Verdict, stamp: Stamp): State {
    if !s.life.Detached? then s
    else
      match ReadResolution(s.j, k, v, stamp)
      case Ok(read) => s.(resolving := s.resolving[k := Calls(s, k) + multiset{read}])
      case Err => s
  }

  /** The commit may land after a bridge has attached. */
  function DoResolveStep(s: State, k: RecordKey, read: Reading, now: int): State {
    if !(s.life.Detached? || s.life.Attached?) || read !in Calls(s, k) then s
    else
      var rest := s.(resolving := s.resolving[k := s.resolving[k] - multiset{read}]);
      match CommitResolution(s.lim, s.j, read.record, read.snapshot, now)
      case Ok(j) => rest.(j := j, attested := s.attested + {k})
      case Err => rest
  }

  ghost function DoPrune(s: State, tk: TaskKey, before: int): State {
    if s.life.Detached? || s.life.Attached? then s.(j := PruneTask(s.j, tk, before)) else s
  }

  // ----- closing -----

  function DoClose(s: State): State {
    if Live(s) then s.(closed := true) else s
  }

  function DoReportRequests(s: State): State {
    if Live(s) && s.closed && s.requestsDone.None? then s.(requestsDone := Some(s.pending == {})) else s
  }

  /** Every context still reported as unresolved when the executor drains. */
  ghost predicate Unsettled(s: State) {
    s.quarantine != {} || s.failures != {}
    || exists k :: k in s.j.executions && s.j.executions[k].phase.Unresolved?
  }

  ghost function DoFinalDrain(s: State): State {
    if !Live(s) || s.requestsDone.None? || s.verdict.Some? then s
    else s.(verdict := Some(s.requestsDone.value && s.attempts == map[] && s.cancels == map[] && !Unsettled(s)))
  }

  /** A complete close gives the owner lock back; an incomplete one keeps it. */
  function DoReleaseOwner(s: State): State {
    if Live(s) && s.verdict == Some(true) then Fresh(s.j, s.lim, Dead, s) else s
  }

  /** The attempt up to the commit of its intent. */
  predicate BeforeSendAction(a: Action) {
    a.Dispatch? || a.AbandonQueue? || a.Acquire? || a.Guard? || a.Lookup? || a.SessionReady?
    || a.Correlate? || a.Intend? || a.GiveUp?
  }

  ghost function ExecBeforeSend(s: State, a: Action): State
    requires BeforeSendAction(a)
  {
    match a
    case Dispatch(k, refused, now) => DoDispatch(s, k, refused, now)
    case AbandonQueue(k) => DoAbandonQueue(s, k)
    case Acquire(k, aborted) => DoAcquire(s, k, aborted)
    case Guard(k, now) => DoGuard(s, k, now)
    case Lookup(k) => DoLookup(s, k)
    case SessionReady(k, conversation) => DoSessionReady(s, k, conversation)
    case Correlate(k, agentId) => DoCorrelate(s, k, agentId)
    case Intend(k, agentId, now) => DoIntend(s, k, agentId, now)
    case GiveUp(k, aborted) => DoGiveUp(s, k, aborted)
  }

  /** The send, the stream and the settlement. */
  predicate TurnAction(a: Action) {
    a.Send? || a.SendOk? || a.Observe? || a.ObserveStep? || a.LeaveStream? || a.CloseSession?
    || a.Release?
  }

  function ExecTurn(s: State, a: Action): State
    requires TurnAction(a)
  {
    match a
    case Send(k) => DoSend(s, k)
    case SendOk(k, now) => DoSendOk(s, k, now)
    case Observe(k, message, stamp) => DoObserve(s, k, message, stamp)
    case ObserveStep(k, now) => DoObserveStep(s, k, now)
    case LeaveStream(k, error) => DoLeaveStream(s, k, error)
    case CloseSession(k, cleanup, now) => DoCloseSession(s, k, cleanup, now)
    case Release(k, aborted, state) => DoRelease(s, k, aborted, state)
  }

  /** Acceptance, and the end of an attempt. */
  predicate EndingAction(a: Action) {
    a.AcceptStep? || a.Conclude? || a.Publish? || a.WaitPublished? || a.Finish?
  }

  function ExecEnding(s: State, a: Action): State
    requires EndingAction(a)
  {
    match a
    case AcceptStep(k, task, artifactId, now) => DoAccept(s, k, task, artifactId, now)
    case Conclude(k, aborted, text, stamp) => DoConclude(s, k, aborted, text, stamp)
    case Publish(k, now) => DoPublish(s, k, now)
    case WaitPublished(k) => DoWaitPublished(s, k)
    case Finish(k) => DoFinish(s, k)
  }

  /** Handler calls and admission. */
  predicate HandlerAction(a: Action) {
    a.Enter? || a.Leave? || a.HandOver? || a.Reserve? || a.Execute?
  }

  ghost function ExecHandler(home: Home, s: State, a: Action): State
    requires HandlerAction(a)
  {
    match a
    case Enter(call) => DoEnter(s, call)
    case Leave(call) => DoLeave(s, call)
    case HandOver(call, next) => DoHandOver(s, call, next)
    case Reserve(k, call, now) => DoReserve(s, k, call, now)
    case Execute(k, contextId, taskId) => DoExecute(home, s, k, contextId, taskId)
  }

  /** What the SDK saves and cancels. */
  predicate TaskAction(a: Action) {
    a.Save? || a.CancelInterrupted? || a.CancelStep? || a.CancelWait? || a.CancelIntent?
  }

  ghost function ExecTask(home: Home, s: State, a: Action): State
    requires TaskAction(a)
  {
    match a
    case Save(owner, tenant, task, now) => DoSave(home, s, owner, tenant, task, now)
    case CancelInterrupted(call, taskId, stamp) => DoCancelInterrupted(s, call, taskId, stamp)
    case CancelStep(taskId, now) => DoCancelStep(s, taskId, now)
    case CancelWait(taskId) => DoCancelWait(s, taskId)
    case CancelIntent(k, now) => DoCancelIntent(s, k, now)
  }

  /** The life of the process. */
  predicate LifeAction(a: Action) {
    a.Open? || a.Recover? || a.FinishOpen? || a.Attach? || a.Crash? || a.ReleaseOwner?
  }

  ghost function ExecLife(s: State, a: Action): State
    requires LifeAction(a)
  {
    match a
    case Open(lim) => DoOpen(s, lim)
    case Recover(k, stamp) => DoRecover(s, k, stamp)
    case FinishOpen => DoFinishOpen(s)
    case Attach(agentId, domain) => DoAttach(s, agentId, domain)
    case Crash => DoCrash(s)
    case ReleaseOwner => DoReleaseOwner(s)
  }

  /** The operator, retention and closing. */
  predicate ClosingAction(a: Action) {
    a.Resolve? || a.ResolveStep? || a.Prune? || a.Close? || a.ReportRequests? || a.FinalDrain?
  }

  ghost function ExecClosing(s: State, a: Action): State
    requires ClosingAction(a)
  {
    match a
    case Resolve(k, v, stamp) => DoResolve(s, k, v, stamp)
    case ResolveStep(k, read, now) => DoResolveStep(s, k, read, now)
    case Prune(tk, before) => DoPrune(s, tk, before)
    case Close => DoClose(s)
    case ReportRequests => DoReportRequests(s)
    case FinalDrain => DoFinalDrain(s)
  }

  /** One step. An action that is not enabled changes nothing. */
  ghost function Exec(home: Home, s: State, a: Action): State {
    if BeforeSendAction(a) then ExecBeforeSend(s, a)
    else if TurnAction(a) then ExecTurn(s, a)
    else if EndingAction(a) then ExecEnding(s, a)
    else if HandlerAction(a) then ExecHandler(home, s, a)
    else if TaskAction(a) then ExecTask(home, s, a)
    else if LifeAction(a) then ExecLife(s, a)
    else ExecClosing(s, a)
  }

  /** Where a sequence of actions leads from s. */
  ghost function Run(home: Home, s: State, actions: seq<Action>): State {
    if actions == [] then s
    else Exec(home, Run(home, s, actions[..|actions| - 1]), actions[|actions| - 1])
  }

  /** What any number of processes, with any crashes and interleavings, can come to. */
  ghost predicate Reachable(home: Home, s: State) {
    exists actions :: Run(home, INIT, actions) == s
  }

  /** A later state of the same history. */
  ghost predicate Onward(home: Home, s: State, t: State) {
    exists actions :: Run(home, s, actions) == t
  }
}
