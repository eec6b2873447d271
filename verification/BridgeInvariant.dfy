/** What every step of the bridge keeps. */
module BridgeInvariant {
  import opened Prelude
  import opened A2A
  import opened Journal
  import opened JournalProofs
  import opened Bridge

  /** The input of this attempt is known to have stopped. */
  predicate Safe(s: State, k: RecordKey) {
    k in s.stops || k in s.attested
  }

  /** Every input that went to this context is known to have stopped. */
  ghost predicate AllSafe(s: State, c: ContextKey) {
    forall q :: q in s.sent && s.sent[q].context == c ==> Safe(s, q)
  }

  /** What a sent attempt leaves in the journal, whatever crashes. */
  ghost predicate SentOk(s: State, k: RecordKey)
    requires k in s.sent
  {
    var c := s.sent[k].context;
    && k in s.j.messages
    && c.owner == k.owner && c.tenant == k.tenant
    && c in s.j.mappings && s.j.mappings[c] == s.sent[k].conversation
    && (k in s.j.executions ==>
          s.j.executions[k].contextKey == c
          && !s.j.executions[k].phase.Accepted? && !s.j.executions[k].phase.Dispatching?
             && !s.j.executions[k].phase.Preparing?)
    && (!Safe(s, k) ==> Fenced(s, k))
  }

  /** The journal still says that this attempt may be running. */
  ghost predicate Fenced(s: State, k: RecordKey) {
    && k in s.j.executions && !s.j.executions[k].stopped
    && (s.j.executions[k].phase.Intent? || s.j.executions[k].phase.Unresolved? || s.j.executions[k].phase.Publishing?)
  }

  /** In a recovered process something blocks the context of every input that may be running. */
  ghost predicate Blocked(s: State, k: RecordKey)
    requires k in s.sent
  {
    || (k in s.attempts && Exposed(s.attempts[k].pc))
    || s.sent[k].context in s.quarantine
    || (k !in s.attempts && k in s.j.executions && s.j.executions[k].phase.Unresolved?)
  }

  /** A record held in memory across an await still describes its attempt. */
  ghost predicate HeldOk(home: Home, s: State, k: RecordKey, taskId: string, r: Record) {
    && r.id == k && r.taskId == taskId && r.taskId != "" && k.messageId != "" && r.contextId != "" && r.artifactId != ""
    && r.contextKey == ContextKey(k.owner, k.tenant, r.contextId)
    && r.contextId == home(TaskKeyOf(r))
    && (k in s.sent ==> s.sent[k].context == r.contextKey)
    && (k in s.sent && r.stopped ==> Safe(s, k))
  }

  /** The stored record of an attempt under way. */
  ghost predicate HasRecord(s: State, k: RecordKey, a: Attempt) {
    && k in s.j.executions && s.j.executions[k].id == k
    && s.j.executions[k].contextKey == a.context && s.j.executions[k].taskId == a.taskId
  }

  ghost predicate InPhase(s: State, k: RecordKey, a: Attempt, p: Phase) {
    && HasRecord(s, k, a) && s.j.executions[k].phase == p && !s.j.executions[k].publication
    && (!p.Stopped? ==> !s.j.executions[k].stopped)
  }

  /** The record is settled, and not by this attempt's own publication yet. */
  ghost predicate Working(s: State, k: RecordKey, a: Attempt) {
    && HasRecord(s, k, a) && !s.j.executions[k].publication
    && !s.j.executions[k].phase.Publishing? && !s.j.executions[k].phase.Done?
  }

  ghost predicate AttemptOk(home: Home, s: State, k: RecordKey)
    requires k in s.attempts
  {
    var a := s.attempts[k];
    && k in s.j.messages && k !in s.resolving && k !in s.reserved
    && k.messageId != "" && a.taskId != "" && a.context.contextId != ""
    && a.context.owner == k.owner && a.context.tenant == k.tenant
    && home(TaskKey(k.tenant, k.owner, a.taskId)) == a.context.contextId
    && (Holds(a.pc) ==> a.context in s.lock && s.lock[a.context] == k)
    && (k in s.sent ==> s.sent[k].context == a.context)
    && PcOk(home, s, k, a)
  }

  /** What is known at each point of an attempt. */
  ghost predicate PcOk(home: Home, s: State, k: RecordKey, a: Attempt) {
    UnsentOk(s, k, a) && InTurnOk(s, k, a) && AfterTurnOk(home, s, k, a)
  }

  /** Points before `session.send`. */
  ghost predicate UnsentOk(s: State, k: RecordKey, a: Attempt) {
    match a.pc
    case Accepting => k !in s.j.executions && k !in s.sent
    case Admitted => InPhase(s, k, a, Phase.Accepted) && k !in s.sent
    case Queued => InPhase(s, k, a, Dispatching) && k !in s.sent
    case Entered => InPhase(s, k, a, Dispatching) && k !in s.sent && a.context !in s.quarantine
    case Guarded => InPhase(s, k, a, Preparing) && ClearToSend(s, k, a)
    case Opening(_) => InPhase(s, k, a, Preparing) && ClearToSend(s, k, a)
    case Mapped(v) => InPhase(s, k, a, Preparing) && ClearToSend(s, k, a) && MappedTo(s, a, v)
    case Correlating(v) => InPhase(s, k, a, Preparing) && ClearToSend(s, k, a) && MappedTo(s, a, v)
    case Ready(v) => InPhase(s, k, a, Intent) && ClearToSend(s, k, a) && MappedTo(s, a, v)
    case _ => true
  }

  /** Points between `session.send` and the release of the lock. */
  ghost predicate InTurnOk(s: State, k: RecordKey, a: Attempt) {
    match a.pc
    case Sending => InPhase(s, k, a, Intent) && k in s.sent
    case Streaming(_) => InPhase(s, k, a, Intent) && k in s.sent
    case Observing(r, _, _) =>
      && InPhase(s, k, a, Intent) && k in s.sent
      && r.id == k && r.taskId == a.taskId && r.contextKey == a.context && r.contextId == s.j.executions[k].contextId
      && r.artifactId == s.j.executions[k].artifactId && r.phase == Intent && !r.stopped && !r.publication
    case Closing(_) => InPhase(s, k, a, Intent) && k in s.sent
    case Succeeded => InPhase(s, k, a, Stopped) && k in s.stops
    case Thrown(_) => Working(s, k, a) && (k in s.sent ==> a.context in s.quarantine)
    case _ => true
  }

  /** Points after the runner call settled. */
  ghost predicate AfterTurnOk(home: Home, s: State, k: RecordKey, a: Attempt) {
    match a.pc
    case Settled(o) =>
      && Working(s, k, a) && (k in s.sent ==> Safe(s, k) || a.context in s.quarantine)
      && (o.Finished? ==> k in s.stops && (o.state.Completed? || Interrupted(o.state)))
    case Reducing(r, snapshot, state) =>
      && Working(s, k, a) && (k in s.sent ==> Safe(s, k) || a.context in s.quarantine)
      && HeldOk(home, s, k, a.taskId, r) && TaskOk(home, TaskKeyOf(r), snapshot) && r.contextKey == a.context
      && snapshot.status.state == state && snapshot.status.detail.TurnSettled? && snapshot.status.messageId.Some?
      && (Interrupted(state) || state.Completed? ==> k in s.stops)
    case Announced(state) => Published(s, k, a, state)
    case Awaiting(state) =>
      && Published(s, k, a, state) && k in s.acks && k in s.j.executions && s.j.executions[k].phase.Publishing?
    case Acknowledged(state) =>
      && Published(s, k, a, state)
      && (k in s.j.executions ==> s.j.executions[k].phase.Done? || s.j.executions[k].phase.Unresolved?)
    case _ => true
  }

  ghost predicate ClearToSend(s: State, k: RecordKey, a: Attempt) {
    k !in s.sent && a.context !in s.quarantine && AllSafe(s, a.context)
  }

  predicate MappedTo(s: State, a: Attempt, conversation: string) {
    a.context in s.j.mappings && s.j.mappings[a.context] == conversation
  }

  ghost predicate Published(s: State, k: RecordKey, a: Attempt, state: TaskState) {
    && (k in s.j.executions ==>
          HasRecord(s, k, a)
          && (s.j.executions[k].phase.Publishing? || s.j.executions[k].phase.Done?
              || s.j.executions[k].phase.Unresolved?))
    && (Interrupted(state) ==> k in s.stops)
    && (k in s.sent ==> Safe(s, k) || a.context in s.quarantine)
  }

  /** What holds a record that is not done back from a complete close. */
  ghost predicate Accounted(s: State, k: RecordKey)
    requires k in s.j.executions
  {
    var r := s.j.executions[k];
    || r.phase.Done? || r.phase.Unresolved?
    || k in s.attempts
    || (r.taskId in s.cancels && s.cancels[r.taskId].key == k)
    || r.contextKey in s.failures
  }

  ghost predicate CancelOk(home: Home, s: State, t: string)
    requires t in s.cancels
  {
    var job := s.cancels[t];
    && job.key in s.j.messages && job.key in s.stops
    && job.key !in s.attempts && job.key !in s.reserved && job.key !in s.resolving
    && (forall u :: u in s.cancels && s.cancels[u].key == job.key ==> u == t)
    && (job.CancelReducing? ==> HeldOk(home, s, job.key, t, job.record)
                                && TaskOk(home, TaskKeyOf(job.record), job.snapshot)
                                && job.snapshot.status.detail.RequestCanceled?
                                && (job.key in s.j.executions ==>
                                      s.j.executions[job.key].taskId == t
                                      && (s.j.executions[job.key].phase.Done?
                                          || s.j.executions[job.key].phase.Unresolved?)))
    && (job.CancelAnnounced? && job.key in s.j.executions ==>
          var r := s.j.executions[job.key];
          r.taskId == t && (r.phase.Publishing? || r.phase.Done? || r.phase.Unresolved?))
    && (job.CancelAwaiting? ==> job.key in s.acks && job.key in s.j.executions
                                && s.j.executions[job.key].phase.Publishing? && s.j.executions[job.key].taskId == t)
  }

  ghost predicate ParkedOk(s: State, t: string)
    requires t in s.interrupted
  {
    var k := s.interrupted[t].key;
    && k in s.j.messages && k in s.stops
    && k !in s.attempts && k !in s.reserved && k !in s.resolving
    && (k in s.j.executions ==> s.j.executions[k].phase.Done? || s.j.executions[k].phase.Unresolved?)
    && (forall u :: u in s.cancels ==> s.cancels[u].key != k)
    && (forall u :: u in s.interrupted && s.interrupted[u].key == k ==> u == t)
  }

  ghost predicate ResolvingOk(home: Home, s: State, k: RecordKey)
    requires k in s.resolving
  {
    && k in s.j.messages
    && (forall read :: read in s.resolving[k] ==> ReadOk(home, s, k, read))
    && (k in s.j.executions ==> s.j.executions[k].phase.Unresolved? || s.j.executions[k].phase.Done?)
  }

  ghost predicate ReadOk(home: Home, s: State, k: RecordKey, read: Reading) {
    read.record.stopped && HeldStatic(home, s, k, read.record) && TaskOk(home, TaskKeyOf(read.record), read.snapshot)
    && read.snapshot.status.detail.OperatorResolved?
  }

  ghost predicate HeldStatic(home: Home, s: State, k: RecordKey, r: Record) {
    && r.id == k && r.taskId != "" && k.messageId != "" && r.contextId != "" && r.artifactId != ""
    && r.contextKey == ContextKey(k.owner, k.tenant, r.contextId)
    && r.contextId == home(TaskKeyOf(r))
    && (k in s.sent ==> s.sent[k].context == r.contextKey)
  }

  /** Nothing volatile survives outside an attached process. */
  ghost predicate LifeOk(s: State) {
    && (!s.life.Attached? ==>
          s.reserved == map[] && s.attempts == map[] && s.lock == map[] && s.quarantine == {} && s.cache == map[]
          && s.interrupted == map[] && s.cancels == map[] && s.failures == {} && s.acks == {} && s.pending == {}
          && !s.closed && s.requestsDone.None? && s.verdict.None?)
    && (s.life.Dead? || s.life.Recovering? ==> s.resolving == map[])
    && (!s.life.Dead? ==> s.j.version == Some(1))
    && (s.life.Recovering? ==> s.life.todo <= s.j.executions.Keys)
  }

  /** During recovery every attempt already visited is recovered; afterwards all are. */
  ghost predicate RecoveryOk(s: State, k: RecordKey)
    requires k in s.j.executions
  {
    && (s.life.Recovering? && k !in s.life.todo ==> Recovered(s.j.executions[k]))
    && (s.life.Detached? ==> Recovered(s.j.executions[k]))
  }

  ghost predicate HistoryOk(s: State) {
    && (forall i :: 0 <= i < |s.sends| ==> s.sends[i] in s.sent)
    && (forall i, n :: 0 <= i < n < |s.sends| ==> s.sends[i] != s.sends[n])
    && (forall i, n :: 0 <= i < n < |s.sends| && s.sent[s.sends[i]].context == s.sent[s.sends[n]].context ==>
          Safe(s, s.sends[i]))
  }

  ghost predicate CacheOk(s: State) {
    forall c :: c in s.cache ==> c in s.j.mappings && s.j.mappings[c] == s.cache[c]
  }

  ghost predicate RecordsOk(s: State, k: RecordKey)
    requires k in s.j.executions
  {
    && (s.j.executions[k].phase.Stopped? ==> k in s.stops)
    && (s.life.Attached? ==> Accounted(s, k))
    && RecoveryOk(s, k)
  }

  ghost predicate ClosingOk(s: State) {
    && (s.requestsDone.Some? ==> s.closed)
    && (s.requestsDone == Some(true) ==> s.pending == {})
    && (s.verdict == Some(true) ==>
          s.requestsDone == Some(true) && s.attempts == map[] && s.cancels == map[] && s.failures == {}
          && forall k :: k in s.j.executions ==> s.j.executions[k].phase.Done?)
  }

  ghost predicate AllRecords(s: State) {
    forall k :: k in s.j.executions ==> RecordsOk(s, k)
  }

  ghost predicate AllSent(s: State) {
    forall k :: k in s.sent ==> SentOk(s, k)
  }

  ghost predicate AllBlocked(s: State) {
    forall k :: k in s.sent && !Safe(s, k) && (s.life.Attached? || s.life.Detached?) ==> Blocked(s, k)
  }

  ghost predicate AllAttempts(home: Home, s: State) {
    forall k :: k in s.attempts ==> AttemptOk(home, s, k)
  }

  ghost predicate AllCancels(home: Home, s: State) {
    forall t :: t in s.cancels ==> CancelOk(home, s, t)
  }

  ghost predicate AllParked(s: State) {
    forall t :: t in s.interrupted ==> ParkedOk(s, t)
  }

  ghost predicate AllResolving(home: Home, s: State) {
    forall k :: k in s.resolving ==> ResolvingOk(home, s, k)
  }

  ghost predicate AllReserved(s: State) {
    forall k :: k in s.reserved ==>
      k in s.j.messages && k.messageId != "" && k !in s.j.executions && k !in s.sent && k !in s.resolving
        && k !in s.attempts
  }

  ghost predicate Inv(home: Home, s: State) {
    && JournalOk(home, s.j) && LifeOk(s) && HistoryOk(s) && CacheOk(s) && ClosingOk(s)
    && AllRecords(s) && AllSent(s) && AllBlocked(s) && AllAttempts(home, s)
    && AllCancels(home, s) && AllParked(s) && AllResolving(home, s) && AllReserved(s)
  }
}
