/** What a recorded stop and a journalled outcome rest on, over every run. */
module BridgeOutcomes {
  import opened Prelude
  import opened A2A
  import opened Journal
  import opened JournalProofs
  import opened Bridge
  import opened BridgeInvariant
  import opened BridgeSteps
  import opened BridgeProcess
  import opened BridgeCancels
  import opened BridgeLife
  import opened BridgeTheorems

  // ----- what a step does to stops, snapshots and the results that streams deliver -----

  /** The last result seen is a settled success. */
  predicate Good(pc: Pc) {
    (pc.Streaming? || pc.Observing? || pc.Closing?) && pc.good
  }

  /** No stream turns good. */
  ghost predicate NoneTurnsGood(s: State, t: State) {
    forall k :: k in t.attempts && Good(t.attempts[k].pc) ==> k in s.attempts && Good(s.attempts[k].pc)
  }

  /** No snapshot is written. */
  ghost predicate NoneJournalled(s: State, t: State) {
    forall q :: q in t.j.publications ==> q in s.j.publications && t.j.publications[q] == s.j.publications[q]
  }

  /** What a snapshot may say: COMPLETED only of an input known to have stopped, "no input was sent" only of none. */
  predicate Honest(s: State, q: RecordKey, snapshot: Task) {
    && (snapshot.status.state.Completed? ==> Safe(s, q))
    && (snapshot.status.detail == NoInputSent ==> q !in s.sent)
  }

  /** A snapshot that is written is honest. */
  ghost predicate Vouches(s: State, t: State) {
    forall q :: q in t.j.publications && !(q in s.j.publications && t.j.publications[q] == s.j.publications[q]) ==>
      Honest(t, q, t.j.publications[q])
  }

  /** Nothing is sent, no stop is recorded and no stream turns good. */
  ghost predicate Plain(s: State, t: State) {
    t.sent == s.sent && t.stops == s.stops && NoneTurnsGood(s, t)
  }

  ghost predicate Quiet(s: State, t: State) {
    NoneJournalled(s, t) && Plain(s, t)
  }

  lemma SameQuiet(s: State)
    ensures Quiet(s, s)
  {
  }

  /** What matters here of a state. */
  ghost predicate Alike(s: State, t: State) {
    t.attempts == s.attempts && t.sent == s.sent && t.stops == s.stops && t.j.publications == s.j.publications
  }

  lemma AlikeQuiet(s: State, t: State, u: State)
    requires Quiet(s, t) && Alike(t, u)
    ensures Quiet(s, u)
  {
  }

  /** An attempt moves on. */
  lemma MovedQuiet(s: State, base: State, k: RecordKey, pc: Pc)
    requires k in s.attempts && k in base.attempts && Alike(s, base) && (Good(pc) ==> Good(s.attempts[k].pc))
    ensures Quiet(s, Move(base, k, pc))
  {
  }

  lemma WithJournal(s: State, j: Journal)
    requires j.publications == s.j.publications
    ensures Alike(s, s) && Alike(s, s.(j := j))
  {
  }

  /** An attempt leaves. */
  lemma DroppedQuiet(s: State, k: RecordKey)
    ensures Quiet(s, Drop(s, k))
  {
  }

  // Which transactions keep the snapshots.

  lemma TurnPubs(lim: Limits, j: Journal, t: Turn, c: Correlation, now: int)
    ensures var m := BeforeTurn(lim, j, t, now); m.Ok? ==> m.value.publications == j.publications
    ensures var m := CommitIntent(lim, j, t, c, now); m.Ok? ==> m.value.publications == j.publications
    ensures var m := SendReturned(lim, j, t, now); m.Ok? ==> m.value.publications == j.publications
    ensures var m := MarkStopped(lim, j, t, now); m.Ok? ==> m.value.publications == j.publications
    ensures var m := MarkUnresolved(lim, j, t, now); m.Ok? ==> m.value.publications == j.publications
  {
    hide Available, HasTurn;
  }

  lemma MappingPubs(lim: Limits, j: Journal, t: Turn, c: Correlation)
    ensures var m := SetMapping(lim, j, t.context, c.conversationId); m.Ok? ==> m.value.publications == j.publications
    ensures var m := BeforeSend(lim, j, t, c); m.Ok? ==> m.value.publications == j.publications
  {
    hide Available;
  }

  lemma AcceptPubs(lim: Limits, j: Journal, k: RecordKey, task: Task, artifactId: string, now: int)
    ensures var m := Accept(lim, j, k, task, artifactId, now); m.Ok? ==> m.value.publications == j.publications
  {
  }

  lemma DispatchedPubs(lim: Limits, j: Journal, k: RecordKey, taskId: string, now: int)
    ensures var m := Dispatched(lim, j, k, taskId, now); m.Ok? ==> m.value.publications == j.publications
  {
    hide Available;
  }

  lemma SavePubs(lim: Limits, j: Journal, owner: string, tenant: string, task: Task, now: int)
    ensures var m := SaveTask(lim, j, owner, tenant, task, now); m.Ok? ==> m.value.publications == j.publications
  {
    hide Acknowledges;
  }

  // The steps of one attempt.

  lemma DispatchQuiet(s: State, k: RecordKey, refused: bool, now: int)
    ensures Quiet(s, DoDispatch(s, k, refused, now))
  {
    hide Quiet, Alike, Dispatched, Move;
    SameQuiet(s);
    if At(s, k) && s.attempts[k].pc.Admitted? {
      var m := Dispatched(s.lim, s.j, k, s.attempts[k].taskId, now);
      DispatchedPubs(s.lim, s.j, k, s.attempts[k].taskId, now);
      Stays(s, k, m, Queued, Settled(Errored));
    }
  }

  /** The two outcomes of a transaction. */
  lemma Stays(s: State, k: RecordKey, m: Result<Journal>, done: Pc, failed: Pc)
    requires k in s.attempts && !Good(done) && !Good(failed) && (m.Ok? ==> m.value.publications == s.j.publications)
    ensures Quiet(s, Move(s, k, failed)) && (m.Ok? ==> Quiet(s, Move(s.(j := m.value), k, done)))
  {
    hide Quiet, Move;
    MovedQuiet(s, s, k, failed);
    if m.Ok? { MovedQuiet(s, s.(j := m.value), k, done); }
  }

  lemma QueueQuiet(s: State, k: RecordKey, aborted: bool)
    ensures Quiet(s, DoAbandonQueue(s, k)) && Quiet(s, DoAcquire(s, k, aborted))
  {
    hide Quiet, Move;
    SameQuiet(s);
    if At(s, k) && s.attempts[k].pc.Queued? {
      MovedQuiet(s, s, k, Settled(Cancelled));
      var base := s.(lock := s.lock[s.attempts[k].context := k]);
      MovedQuiet(s, base, k, Thrown(true));
      MovedQuiet(s, base, k, Thrown(false));
      MovedQuiet(s, base, k, Entered);
    }
  }

  lemma GuardQuiet(s: State, k: RecordKey, now: int)
    ensures Quiet(s, DoGuard(s, k, now))
  {
    hide Quiet, Alike, BeforeTurn, Move;
    SameQuiet(s);
    if At(s, k) && s.attempts[k].pc.Entered? {
      var m := BeforeTurn(s.lim, s.j, TurnOf(k, s.attempts[k]), now);
      TurnPubs(s.lim, s.j, TurnOf(k, s.attempts[k]), Correlation("", "", ""), now);
      Stays(s, k, m, Guarded, Thrown(false));
    }
  }

  lemma LookupQuiet(s: State, k: RecordKey, aborted: bool)
    ensures Quiet(s, DoLookup(s, k)) && Quiet(s, DoGiveUp(s, k, aborted))
  {
    hide Quiet, Move;
    SameQuiet(s);
    if At(s, k) {
      MovedQuiet(s, s, k, Thrown(aborted));
      var c := s.attempts[k].context;
      MovedQuiet(s, s, k, Opening(if c in s.cache then Some(s.cache[c])
                                  else if c in s.j.mappings then Some(s.j.mappings[c]) else None));
    }
  }

  lemma SessionQuiet(s: State, k: RecordKey, conversation: string)
    ensures Quiet(s, DoSessionReady(s, k, conversation))
  {
    hide Quiet, Alike, SetMapping, Move;
    SameQuiet(s);
    if At(s, k) && s.attempts[k].pc.Opening? {
      MappingPubs(s.lim, s.j, TurnOf(k, s.attempts[k]), Correlation("", conversation, ""));
      Stays(s, k, SetMapping(s.lim, s.j, s.attempts[k].context, conversation), Mapped(conversation), Thrown(false));
    }
  }

  lemma CorrelateQuiet(s: State, k: RecordKey, agentId: string)
    ensures Quiet(s, DoCorrelate(s, k, agentId))
  {
    hide Quiet, BeforeSend, Move;
    SameQuiet(s);
    if At(s, k) && s.attempts[k].pc.Mapped? {
      var conversation := s.attempts[k].pc.conversation;
      var cached := s.(cache := s.cache[s.attempts[k].context := conversation]);
      var m := BeforeSend(s.lim, s.j, TurnOf(k, s.attempts[k]), Correlation(agentId, conversation, k.messageId));
      MappingPubs(s.lim, s.j, TurnOf(k, s.attempts[k]), Correlation(agentId, conversation, k.messageId));
      MovedQuiet(s, cached, k, Thrown(false));
      if m.Ok? { MovedQuiet(s, cached.(j := m.value), k, Correlating(conversation)); }
    }
  }

  lemma IntendQuiet(s: State, k: RecordKey, agentId: string, now: int)
    ensures Quiet(s, DoIntend(s, k, agentId, now))
  {
    hide Quiet, Alike, CommitIntent, Move;
    SameQuiet(s);
    if At(s, k) && s.attempts[k].pc.Correlating? {
      var t, c := TurnOf(k, s.attempts[k]), Correlation(agentId, s.attempts[k].pc.conversation, k.messageId);
      TurnPubs(s.lim, s.j, t, c, now);
      Stays(s, k, CommitIntent(s.lim, s.j, t, c, now), Ready(c.conversationId), Thrown(false));
    }
  }

  /** A send writes nothing. */
  lemma SendTells(s: State, k: RecordKey)
    ensures var t := DoSend(s, k);
      && NoneJournalled(s, t) && t.stops == s.stops && NoneTurnsGood(s, t)
      && (forall q :: q in t.sent && q !in s.sent ==> q == k && At(s, k) && s.attempts[k].pc.Ready?)
  {
    if At(s, k) && s.attempts[k].pc.Ready? {
      MovedQuiet(s, s, k, Sending);
      assert DoSend(s, k).sent == s.sent[k := Sent(s.attempts[k].context, s.attempts[k].pc.conversation)];
      hide Move;
    }
  }

  /** Nothing was ever journalled for an input that is about to be sent. */
  lemma ReadyIsNew(home: Home, s: State, k: RecordKey)
    requires At(s, k) && s.attempts[k].pc.Ready? && Inv(home, s)
    ensures k !in s.j.publications
  {
    hide AllSent, AllBlocked, AllRecords, AllAttempts, AllCancels, AllParked, AllResolving, AllReserved, HistoryOk,
         CacheOk, LifeOk, ClosingOk, AttemptOk;
    AttemptOf(home, s, k);
    ReadyPhase(home, s, k);
  }

  lemma ReadyPhase(home: Home, s: State, k: RecordKey)
    requires k in s.attempts && s.attempts[k].pc.Ready? && AttemptOk(home, s, k)
    ensures k in s.j.executions && !s.j.executions[k].publication
  {
  }

  lemma SendOkQuiet(s: State, k: RecordKey, now: int)
    ensures Quiet(s, DoSendOk(s, k, now))
  {
    hide Quiet, Alike, SendReturned, Move;
    SameQuiet(s);
    if At(s, k) && s.attempts[k].pc.Sending? {
      TurnPubs(s.lim, s.j, TurnOf(k, s.attempts[k]), Correlation("", "", ""), now);
      Stays(s, k, SendReturned(s.lim, s.j, TurnOf(k, s.attempts[k]), now), Streaming(false), Closing(false));
    }
  }

  lemma StreamQuiet(s: State, k: RecordKey, error: bool, now: int)
    ensures Quiet(s, DoObserveStep(s, k, now)) && Quiet(s, DoLeaveStream(s, k, error))
  {
    hide Quiet, Move, CommitObservation;
    SameQuiet(s);
    if At(s, k) {
      var pc := s.attempts[k].pc;
      if pc.Observing? {
        ObservationPubs(s.lim, s.j, pc.record, pc.preview, now);
        var m := CommitObservation(s.lim, s.j, pc.record, pc.preview, now);
        MovedQuiet(s, s, k, Closing(false));
        if m.Ok? { MovedQuiet(s, s.(j := m.value), k, Streaming(pc.good)); }
      }
      if pc.Sending? || pc.Streaming? { MovedQuiet(s, s, k, Closing(pc.Streaming? && pc.good && !error)); }
    }
  }

  lemma ObservationPubs(lim: Limits, j: Journal, r: Record, preview: Task, now: int)
    ensures var m := CommitObservation(lim, j, r, preview, now); m.Ok? ==> m.value.publications == j.publications
  {
  }

  lemma ReleaseQuiet(s: State, k: RecordKey, aborted: bool, state: TaskState)
    ensures Quiet(s, DoRelease(s, k, aborted, state))
  {
    hide Quiet, Move;
    SameQuiet(s);
    var t := DoRelease(s, k, aborted, state);
    if t != s {
      var outcome := if s.attempts[k].pc.Thrown? then (if s.attempts[k].pc.cancelled then Cancelled else Errored)
                     else if aborted then Cancelled else Finished(state);
      MovedQuiet(s, s, k, Settled(outcome));
      AlikeQuiet(s, Move(s, k, Settled(outcome)), t);
    }
  }

  /** The stream delivered a result. */
  predicate Delivers(s: State, k: RecordKey, m: SdkMessage) {
    m.ResultMessage? && At(s, k) && s.attempts[k].pc.Streaming?
  }

  lemma ObserveTells(s: State, k: RecordKey, m: SdkMessage, stamp: Stamp)
    ensures var t := DoObserve(s, k, m, stamp);
      && NoneJournalled(s, t) && t.stops == s.stops && t.sent == s.sent
      && (forall q :: q in t.attempts && Good(t.attempts[q].pc) && !(q == k && Delivers(s, k, m)) ==>
            q in s.attempts && Good(s.attempts[q].pc))
      && (Delivers(s, k, m) && k in t.attempts && Good(t.attempts[k].pc) ==> m.success && m.settled)
  {
    if At(s, k) && s.attempts[k].pc.Streaming? {
      var pc := AfterRead(s.j, TurnOf(k, s.attempts[k]), m, stamp, s.attempts[k].pc.good);
      AfterReadTells(s.j, TurnOf(k, s.attempts[k]), m, stamp, s.attempts[k].pc.good);
      hide AfterRead;
      assert DoObserve(s, k, m, stamp) == Move(s, k, pc);
    }
  }

  lemma AfterReadTells(j: Journal, t: Turn, m: SdkMessage, stamp: Stamp, good: bool)
    ensures Good(AfterRead(j, t, m, stamp, good)) ==> if m.ResultMessage? then m.success && m.settled else good
  {
    hide ReadObservation;
  }

  /** A stop is recorded by the settlement of a turn whose last result was good, and by nothing else. */
  lemma CloseTells(s: State, k: RecordKey, cleanup: bool, now: int)
    ensures var t := DoCloseSession(s, k, cleanup, now);
      Quiet(s, t) || (Stopping(s, t, k) && cleanup)
  {
    hide Quiet, Move, MarkStopped, MarkUnresolved, Stopping;
    SameQuiet(s);
    if At(s, k) && s.attempts[k].pc.Closing? {
      var turn := TurnOf(k, s.attempts[k]);
      TurnPubs(s.lim, s.j, turn, Correlation("", "", ""), now);
      QuarantineQuiet(s, k, now);
      hide Quarantine;
      var m := MarkStopped(s.lim, s.j, turn, now);
      if s.attempts[k].pc.good && cleanup && m.Ok? { StoppingIs(s, k, m.value); }
    }
  }

  /** The settlement of a good turn. */
  ghost predicate Stopping(s: State, t: State, k: RecordKey) {
    && At(s, k) && s.attempts[k].pc == Closing(true) && At(t, k) && t.attempts[k].pc.Succeeded?
    && t.stops == s.stops + {k} && t.sent == s.sent && NoneJournalled(s, t) && NoneTurnsGood(s, t)
  }

  lemma StoppingIs(s: State, k: RecordKey, j: Journal)
    requires At(s, k) && s.attempts[k].pc == Closing(true) && j.publications == s.j.publications
    ensures Stopping(s, Move(s.(j := j), k, Succeeded).(stops := s.stops + {k}), k)
  {
    var t := Move(s.(j := j), k, Succeeded);
    MovedQuiet(s, s.(j := j), k, Succeeded);
    assert At(t, k) && t.attempts[k].pc.Succeeded?;
    hide Move;
  }

  lemma QuarantineQuiet(s: State, k: RecordKey, now: int)
    requires k in s.attempts
    ensures Quiet(s, Quarantine(s, k, now))
  {
    hide Quiet, Move, MarkUnresolved;
    TurnPubs(s.lim, s.j, TurnOf(k, s.attempts[k]), Correlation("", "", ""), now);
    var m := MarkUnresolved(s.lim, s.j, TurnOf(k, s.attempts[k]), now);
    MovedQuiet(s, s.(quarantine := s.quarantine + {s.attempts[k].context}, j := if m.Ok? then m.value else s.j), k,
               Thrown(false));
  }

  // The end of an attempt, the handler, the SDK and the process.

  lemma AcceptQuiet(s: State, k: RecordKey, task: Task, artifactId: string, now: int)
    ensures Quiet(s, DoAccept(s, k, task, artifactId, now))
  {
    hide Quiet, Accept, Move, Drop;
    SameQuiet(s);
    AcceptPubs(s.lim, s.j, k, task, artifactId, now);
    DroppedQuiet(s, k);
    if At(s, k) {
      var m := Accept(s.lim, s.j, k, task, artifactId, now);
      if m.Ok? { MovedQuiet(s, s.(j := m.value), k, Admitted); }
    }
  }

  lemma BrokenQuiet(s: State, k: RecordKey)
    requires k in s.attempts
    ensures Quiet(s, Broken(s, k))
  {
    hide Quiet, Drop;
    DroppedQuiet(s, k);
    AlikeQuiet(s, Drop(s, k), Broken(s, k));
  }

  lemma ConcludeQuiet(s: State, k: RecordKey, aborted: bool, text: Option<Artifact>, stamp: Stamp)
    ensures Quiet(s, DoConclude(s, k, aborted, text, stamp))
  {
    hide Quiet, Concluding, Move, Broken;
    SameQuiet(s);
    if At(s, k) && s.attempts[k].pc.Settled? {
      ConcludingShape(s, k, aborted, text, stamp);
      BrokenQuiet(s, k);
      var pc := Concluding(s, k, aborted, text, stamp);
      if pc.Some? { MovedQuiet(s, s, k, pc.value); }
    }
  }

  lemma WaitQuiet(s: State, k: RecordKey)
    ensures Quiet(s, DoWaitPublished(s, k))
  {
    hide Quiet, Move, Broken;
    SameQuiet(s);
    if At(s, k) && s.attempts[k].pc.Announced? {
      var state := s.attempts[k].pc.state;
      BrokenQuiet(s, k);
      MovedQuiet(s, s.(acks := s.acks + {k}), k, Awaiting(state));
      MovedQuiet(s, s, k, Pc.Acknowledged(state));
    }
  }

  lemma FinishQuiet(s: State, k: RecordKey)
    ensures Quiet(s, DoFinish(s, k))
  {
    hide Quiet, Drop;
    SameQuiet(s);
    DroppedQuiet(s, k);
    if At(s, k) && s.attempts[k].pc.Acknowledged? {
      AlikeQuiet(s, Drop(s, k), DoFinish(s, k));
    }
  }

  /** A step that leaves the attempts, the stops and the journal alone. */
  lemma TokensAlike(s: State, pending: set<nat>, reserved: map<RecordKey, nat>)
    ensures Alike(s, s.(pending := pending)) && Alike(s, s.(pending := pending, reserved := reserved))
  {
  }

  lemma EnterQuiet(s: State, call: nat)
    ensures Quiet(s, DoEnter(s, call))
  {
    hide Quiet, Alike;
    SameQuiet(s);
    TokensAlike(s, s.pending + {call}, map[]);
    AlikeQuiet(s, s, s.(pending := s.pending + {call}));
  }

  lemma LeaveQuiet(s: State, call: nat)
    ensures Quiet(s, DoLeave(s, call))
  {
    hide Quiet, Alike;
    SameQuiet(s);
    var reserved := map k | k in s.reserved && s.reserved[k] != call :: s.reserved[k];
    TokensAlike(s, s.pending - {call}, reserved);
    AlikeQuiet(s, s, s.(pending := s.pending - {call}, reserved := reserved));
  }

  lemma HandOverQuiet(s: State, call: nat, next: nat)
    ensures Quiet(s, DoHandOver(s, call, next))
  {
    hide Quiet, Alike;
    SameQuiet(s);
    var reserved := map k | k in s.reserved :: if s.reserved[k] == call then next else s.reserved[k];
    TokensAlike(s, s.pending + {next}, reserved);
    AlikeQuiet(s, s, s.(pending := s.pending + {next}, reserved := reserved));
  }

  lemma ReserveQuiet(s: State, k: RecordKey, call: nat, now: int)
    ensures Quiet(s, DoReserve(s, k, call, now))
  {
    hide Quiet, Alike, ReserveMessage;
    SameQuiet(s);
    var m := ReserveMessage(s.lim, s.j, k, now);
    ReservePubs(s.lim, s.j, k, now);
    if m.Ok? {
      ReservedAlike(s, m.value, s.reserved[k := call]);
      AlikeQuiet(s, s, s.(j := m.value, reserved := s.reserved[k := call]));
    }
  }

  lemma ReservePubs(lim: Limits, j: Journal, k: RecordKey, now: int)
    ensures var m := ReserveMessage(lim, j, k, now); m.Ok? ==> m.value.publications == j.publications
  {
  }

  lemma ReservedAlike(s: State, j: Journal, reserved: map<RecordKey, nat>)
    requires j.publications == s.j.publications
    ensures Alike(s, s.(j := j, reserved := reserved))
  {
  }

  lemma ExecuteQuiet(home: Home, s: State, k: RecordKey, contextId: string, taskId: string)
    ensures Quiet(s, DoExecute(home, s, k, contextId, taskId))
  {
    hide Quiet, Active;
    SameQuiet(s);
    var t := DoExecute(home, s, k, contextId, taskId);
    var started := s.(attempts := s.attempts[k :=
                                             Attempt(ContextKey(k.owner, k.tenant, contextId), taskId, Accepting)]);
    StartedQuiet(s, k, ContextKey(k.owner, k.tenant, contextId), taskId);
    if t.attempts == s.attempts { AlikeQuiet(s, s, t); } else { AlikeQuiet(s, started, t); }
  }

  lemma StartedQuiet(s: State, k: RecordKey, context: ContextKey, taskId: string)
    ensures Quiet(s, s.(attempts := s.attempts[k := Attempt(context, taskId, Accepting)]))
  {
  }

  lemma HandlerQuiet(home: Home, s: State, a: Action)
    requires HandlerAction(a)
    ensures Quiet(s, ExecHandler(home, s, a))
  {
    hide Quiet, DoEnter, DoLeave, DoHandOver, DoReserve, DoExecute;
    match a {
      case Enter(call) => EnterQuiet(s, call);
      case Leave(call) => LeaveQuiet(s, call);
      case HandOver(call, next) => HandOverQuiet(s, call, next);
      case Reserve(k, call, now) => ReserveQuiet(s, k, call, now);
      case Execute(k, contextId, taskId) => ExecuteQuiet(home, s, k, contextId, taskId);
    }
  }

  lemma WokenQuiet(s: State, woken: set<RecordKey>)
    ensures Quiet(s, s.(attempts := map k | k in s.attempts :: if k in woken then Wake(s.attempts[k])
                        else s.attempts[k]))
  {
  }

  lemma SaveQuiet(home: Home, s: State, owner: string, tenant: string, task: Task, now: int)
    ensures Quiet(s, DoSave(home, s, owner, tenant, task, now))
  {
    hide Quiet, SaveTask, Acknowledges, Wake;
    SameQuiet(s);
    SavePubs(s.lim, s.j, owner, tenant, task, now);
    var woken := set k | k in s.acks && Acknowledges(s.j, k, owner, tenant, task);
    WokenQuiet(s, woken);
    var t := DoSave(home, s, owner, tenant, task, now);
    if t != s {
      AlikeQuiet(s, s.(attempts := map k | k in s.attempts :: if k in woken then Wake(s.attempts[k])
                       else s.attempts[k]), t);
    }
  }

  lemma FailsQuiet(s: State, cancels: map<string, CancelJob>, failures: set<ContextKey>)
    ensures Quiet(s, s.(cancels := cancels, failures := failures))
  {
  }

  lemma JobsQuiet(s: State, cancels: map<string, CancelJob>, failures: set<ContextKey>, acks: set<RecordKey>)
    ensures Quiet(s, s.(cancels := cancels)) && Quiet(s, s.(cancels := cancels, acks := acks))
    ensures Quiet(s, s.(cancels := cancels).(failures := failures))
  {
  }

  lemma UnparkQuiet(s: State, interrupted: map<string, Parked>, cancels: map<string, CancelJob>,
                    failures: set<ContextKey>)
    ensures Quiet(s, s.(interrupted := interrupted).(cancels := cancels, failures := failures))
  {
  }

  lemma CancelInterruptedQuiet(s: State, call: nat, taskId: string, stamp: Stamp)
    ensures Quiet(s, DoCancelInterrupted(s, call, taskId, stamp))
  {
    hide Quiet, Cancelling;
    SameQuiet(s);
    if Cancellable(s, call, taskId) {
      hide Cancellable;
      var job := Cancelling(s, taskId, stamp);
      UnparkQuiet(s, map t | t in s.interrupted && t != taskId :: s.interrupted[t],
                  if job.Some? then s.cancels[taskId := job.value] else s.cancels,
                  if job.Some? then s.failures else s.failures + {s.interrupted[taskId].context});
    }
  }

  lemma CancelWaitQuiet(s: State, taskId: string)
    ensures Quiet(s, DoCancelWait(s, taskId))
  {
    hide Quiet;
    SameQuiet(s);
    if Live(s) && taskId in s.cancels && s.cancels[taskId].CancelAnnounced? {
      var job := s.cancels[taskId];
      JobsQuiet(s, map t | t in s.cancels && t != taskId :: s.cancels[t], s.failures + {job.context}, s.acks);
      JobsQuiet(s, s.cancels[taskId := CancelAwaiting(job.key)], s.failures, s.acks + {job.key});
    }
  }

  lemma CancelIntentQuiet(s: State, k: RecordKey, now: int)
    ensures Quiet(s, DoCancelIntent(s, k, now))
  {
    hide Quiet, Alike, RequestCancellation;
    SameQuiet(s);
    var m := RequestCancellation(s.lim, s.j, k, now);
    RequestPubs(s.lim, s.j, k, now);
    if m.Ok? {
      WithJournal(s, m.value);
      AlikeQuiet(s, s, s.(j := m.value));
    }
  }

  lemma RequestPubs(lim: Limits, j: Journal, k: RecordKey, now: int)
    ensures var m := RequestCancellation(lim, j, k, now); m.Ok? ==> m.value.publications == j.publications
  {
  }

  /** Nothing survives but the journal and the history. */
  lemma FreshQuiet(s: State, j: Journal, lim: Limits, life: Life)
    requires j.publications == s.j.publications
    ensures Quiet(s, Fresh(j, lim, life, s))
  {
  }

  lemma LivesQuiet(s: State, j: Journal, life: Life)
    requires j.publications == s.j.publications
    ensures Quiet(s, s.(life := life)) && Quiet(s, s.(j := j, life := life))
  {
  }

  lemma AttachQuiet(s: State, agentId: string, domain: string)
    ensures Quiet(s, DoAttach(s, agentId, domain))
  {
    hide Quiet, OnlyBound;
    SameQuiet(s);
    AttachBinds(s, agentId, domain);
    if Binds(s, DoAttach(s, agentId, domain)) { BindsQuiet(s, DoAttach(s, agentId, domain)); }
  }

  lemma BindsQuiet(s: State, t: State)
    requires Binds(s, t)
    ensures Quiet(s, t)
  {
    LivesQuiet(s, t.j, t.life);
  }

  lemma LifeQuiet(s: State, a: Action)
    requires LifeAction(a) && !a.Recover?
    ensures Quiet(s, ExecLife(s, a))
  {
    hide Quiet, Validates, Fresh, DoAttach;
    SameQuiet(s);
    match a {
      case Open(lim) => FreshQuiet(s, s.j.(version := Some(1)), lim, Recovering(s.j.executions.Keys));
      case FinishOpen => LivesQuiet(s, s.j, Detached);
      case Attach(agentId, domain) =>
        AttachQuiet(s, agentId, domain);
      case Crash => FreshQuiet(s, s.j, s.lim, Dead);
      case ReleaseOwner => FreshQuiet(s, s.j, s.lim, Dead);
    }
  }

  lemma CloseQuiet(s: State, closed: bool, requestsDone: Option<bool>, verdict: Option<bool>)
    ensures Quiet(s, s.(closed := closed)) && Quiet(s, s.(requestsDone := requestsDone))
      && Quiet(s, s.(verdict := verdict))
  {
  }

  lemma ResolveQuiet(s: State, k: RecordKey, v: Verdict, stamp: Stamp)
    ensures Quiet(s, DoResolve(s, k, v, stamp))
  {
    hide Quiet, ReadResolution;
    SameQuiet(s);
    var m := ReadResolution(s.j, k, v, stamp);
    if m.Ok? { ResolvingQuiet(s, s.resolving[k := Calls(s, k) + multiset{m.value}]); }
  }

  lemma ResolvingQuiet(s: State, resolving: map<RecordKey, multiset<Reading>>)
    ensures Quiet(s, s.(resolving := resolving))
  {
  }

  lemma ClosingQuiet(s: State, a: Action)
    requires a.Resolve? || a.Close? || a.ReportRequests? || a.FinalDrain?
    ensures Quiet(s, ExecClosing(s, a))
  {
    hide Quiet, Unsettled, DoResolve;
    SameQuiet(s);
    match a {
      case Resolve(k, v, stamp) => ResolveQuiet(s, k, v, stamp);
      case Close => CloseQuiet(s, true, None, None);
      case ReportRequests => CloseQuiet(s, true, Some(s.pending == {}), None);
      case FinalDrain =>
        if s.requestsDone.Some? {
          CloseQuiet(s, true, None, Some(s.requestsDone.value && s.attempts == map[] && s.cancels == map[]
                                         && !Unsettled(s)));
        }
    }
  }

  lemma PrunedPubs(j: Journal, tk: TaskKey, before: int)
    ensures var later := PruneTask(j, tk, before);
      forall q :: q in later.publications ==> q in j.publications && later.publications[q] == j.publications[q]
  {
    hide CanPrune, Attempts;
  }

  lemma PruneQuiet(s: State, tk: TaskKey, before: int)
    ensures Quiet(s, DoPrune(s, tk, before))
  {
    hide Quiet, PruneTask;
    SameQuiet(s);
    PrunedPubs(s.j, tk, before);
    ShrunkQuiet(s, PruneTask(s.j, tk, before));
  }

  lemma ShrunkQuiet(s: State, j: Journal)
    requires forall q :: q in j.publications ==> q in s.j.publications && j.publications[q] == s.j.publications[q]
    ensures Quiet(s, s.(j := j))
  {
  }

  lemma PublicationWrites(lim: Limits, j: Journal, r: Record, snapshot: Task, now: int)
    ensures var m := CommitPublication(lim, j, r, snapshot, now);
      m.Ok? ==> m.value.publications == j.publications[r.id := snapshot]
  {
  }

  lemma QuietVouches(s: State, t: State)
    requires Quiet(s, t)
    ensures Vouches(s, t) && Plain(s, t)
  {
  }

  /** One snapshot is written; nothing else turns good. */
  lemma WritesVouch(s: State, t: State, u: State, k: RecordKey, snapshot: Task)
    requires Quiet(s, u) && t.attempts == u.attempts && t.stops == u.stops && t.sent == u.sent
    requires t.j.publications == s.j.publications[k := snapshot] && Honest(t, k, snapshot)
    ensures Vouches(s, t) && Plain(s, t)
  {
  }

  /** The same for a step that moves no attempt. */
  lemma JournalVouches(s: State, j: Journal, cancels: map<string, CancelJob>, k: RecordKey, snapshot: Task)
    requires j.publications == s.j.publications[k := snapshot] && Honest(s, k, snapshot)
    ensures var t := s.(j := j, cancels := cancels); Vouches(s, t) && Plain(s, t)
  {
  }

  lemma PublishVouches(home: Home, s: State, k: RecordKey, now: int)
    requires k in s.attempts ==> AttemptOk(home, s, k)
    ensures var t := DoPublish(s, k, now); Vouches(s, t) && Plain(s, t)
  {
    var t := DoPublish(s, k, now);
    SameQuiet(s);
    QuietVouches(s, s);
    if At(s, k) && s.attempts[k].pc.Reducing? {
      var pc := s.attempts[k].pc;
      PublicationWrites(s.lim, s.j, pc.marked, pc.snapshot, now);
      ReducingSays(home, s, k);
      hide CommitPublication, AttemptOk, Vouches, Plain, Quiet, Move, Broken;
      var m := CommitPublication(s.lim, s.j, pc.marked, pc.snapshot, now);
      if m.Ok? {
        MovedQuiet(s, s, k, Announced(pc.state));
        MoveSame(s, m.value, k, Announced(pc.state));
        WritesVouch(s, t, Move(s, k, Announced(pc.state)), k, pc.snapshot);
      } else {
        BrokenQuiet(s, k);
        QuietVouches(s, t);
      }
    }
  }

  lemma MoveSame(s: State, j: Journal, k: RecordKey, pc: Pc)
    requires k in s.attempts
    ensures var t, u := Move(s.(j := j), k, pc), Move(s, k, pc);
      t.attempts == u.attempts && t.stops == s.stops && u.stops == s.stops && t.attested == s.attested
      && t.sent == s.sent && u.sent == s.sent && t.j == j
  {
  }

  lemma ReducingSays(home: Home, s: State, k: RecordKey)
    requires k in s.attempts && s.attempts[k].pc.Reducing? && AttemptOk(home, s, k)
    ensures s.attempts[k].pc.marked.id == k && s.attempts[k].pc.snapshot.status.detail.TurnSettled?
    ensures s.attempts[k].pc.snapshot.status.state.Completed? ==> k in s.stops
  {
  }

  lemma CancelVouches(home: Home, s: State, taskId: string, now: int)
    requires taskId in s.cancels ==> CancelOk(home, s, taskId)
    ensures var t := DoCancelStep(s, taskId, now); Vouches(s, t) && Plain(s, t)
  {
    if Live(s) && taskId in s.cancels && s.cancels[taskId].CancelReducing? {
      assert s.cancels[taskId].record.id == s.cancels[taskId].key && s.cancels[taskId].key in s.stops;
      assert s.cancels[taskId].snapshot.status.detail.RequestCanceled?;
      hide CancelOk;
      CancelledVouches(s, taskId, now);
    } else {
      SameQuiet(s);
      QuietVouches(s, s);
    }
  }

  lemma CancelledVouches(s: State, taskId: string, now: int)
    requires Live(s) && taskId in s.cancels && s.cancels[taskId].CancelReducing?
    requires s.cancels[taskId].record.id == s.cancels[taskId].key && s.cancels[taskId].key in s.stops
    requires s.cancels[taskId].snapshot.status.detail.RequestCanceled?
    ensures var t := DoCancelStep(s, taskId, now); Vouches(s, t) && Plain(s, t)
  {
    var job := s.cancels[taskId];
    assert Honest(s, job.key, job.snapshot);
    hide *;
    var m := CommitPublication(s.lim, s.j, job.record, job.snapshot, now);
    CancelStepShape(s, taskId, now);
    if m.Ok? {
      PublicationWrites(s.lim, s.j, job.record, job.snapshot, now);
      JournalVouches(s, m.value, s.cancels[taskId := CancelAnnounced(job.key, job.record.contextKey)], job.key,
                     job.snapshot);
    } else {
      var over := map u | u in s.cancels && u != taskId :: s.cancels[u];
      FailsQuiet(s, over, s.failures + {job.record.contextKey});
      QuietVouches(s, s.(cancels := over, failures := s.failures + {job.record.contextKey}));
    }
  }

  /** Recovery writes COMPLETED only for a stored `stopped` phase. */
  lemma RepairWrites(j: Journal, k: RecordKey, stamp: Stamp)
    requires k in j.executions && j.executions[k].id == k && RecoverOne(j, k, stamp).Ok?
    ensures var later := RecoverOne(j, k, stamp).value;
      || later.publications == j.publications
      || (k in later.publications && later.publications == j.publications[k := later.publications[k]]
          && (later.publications[k].status.state.Completed? ==> j.executions[k].phase.Stopped?)
          && (later.publications[k].status.detail == NoInputSent ==> KnownUnsent(j.executions[k])))
  {
    hide Reduce, RecoveryEvents;
  }

  lemma RecoverVouches(s: State, k: RecordKey, stamp: Stamp)
    requires k in s.j.executions ==>
      && s.j.executions[k].id == k && (s.j.executions[k].phase.Stopped? ==> k in s.stops)
      && (KnownUnsent(s.j.executions[k]) ==> k !in s.sent)
    ensures var t := DoRecover(s, k, stamp); Vouches(s, t) && Plain(s, t)
  {
    hide RecoverOne, Vouches, Plain, Quiet;
    SameQuiet(s);
    QuietVouches(s, s);
    if s.life.Recovering? && k in s.life.todo && k in s.j.executions {
      var m := RecoverOne(s.j, k, stamp);
      LivesQuiet(s, s.j, Dead);
      QuietVouches(s, s.(life := Dead));
      if m.Ok? {
        RepairWrites(s.j, k, stamp);
        RecoveredVouches(s, m.value, Recovering(s.life.todo - {k}), k);
      }
    }
  }

  lemma RecoveredVouches(s: State, j: Journal, life: Life, k: RecordKey)
    requires j.publications == s.j.publications
      || (k in j.publications && j.publications == s.j.publications[k := j.publications[k]]
          && Honest(s, k, j.publications[k]))
    ensures var t := s.(j := j, life := life); Vouches(s, t) && Plain(s, t)
  {
  }

  lemma ResolveVouches(home: Home, s: State, k: RecordKey, read: Reading, now: int)
    requires k in s.resolving ==> ResolvingOk(home, s, k)
    ensures var t := DoResolveStep(s, k, read, now); Vouches(s, t) && Plain(s, t)
  {
    if (s.life.Detached? || s.life.Attached?) && read in Calls(s, k) {
      ReadIs(home, s, k, read);
      ResolvedVouches(s, k, read, now);
    } else {
      SameQuiet(s);
      QuietVouches(s, s);
    }
  }

  lemma ResolvedVouches(s: State, k: RecordKey, read: Reading, now: int)
    requires (s.life.Detached? || s.life.Attached?) && read in Calls(s, k)
    requires read.record.id == k && read.snapshot.status.detail.OperatorResolved?
    ensures var t := DoResolveStep(s, k, read, now); Vouches(s, t) && Plain(s, t)
  {
    assert k in s.resolving;
    hide *;
    var rest := s.resolving[k := s.resolving[k] - multiset{read}];
    var m := CommitResolution(s.lim, s.j, read.record, read.snapshot, now);
    ResolveStepShape(s, k, read, now);
    if m.Ok? {
      ResolutionWrites(s.lim, s.j, read.record, read.snapshot, now);
      AttestedVouches(s, m.value, rest, k, read.snapshot);
    } else {
      ResolvingQuiet(s, rest);
      QuietVouches(s, s.(resolving := rest));
    }
  }

  lemma ReadIs(home: Home, s: State, k: RecordKey, read: Reading)
    requires k in s.resolving && ResolvingOk(home, s, k) && read in s.resolving[k]
    ensures read.record.id == k && read.snapshot.status.detail.OperatorResolved?
  {
    assert ReadOk(home, s, k, read);
  }

  lemma ResolutionWrites(lim: Limits, j: Journal, r: Record, snapshot: Task, now: int)
    ensures var m := CommitResolution(lim, j, r, snapshot, now);
      m.Ok? ==> m.value.publications == j.publications[r.id := snapshot]
  {
  }

  lemma AttestedVouches(s: State, j: Journal, rest: map<RecordKey, multiset<Reading>>, k: RecordKey, snapshot: Task)
    requires j.publications == s.j.publications[k := snapshot] && snapshot.status.detail != NoInputSent
    ensures var t := s.(j := j, attested := s.attested + {k}, resolving := rest);
      Vouches(s, t) && Plain(s, t)
  {
  }

  lemma RecordSays(home: Home, s: State, k: RecordKey)
    requires k in s.j.executions && Inv(home, s)
    ensures s.j.executions[k].id == k && (s.j.executions[k].phase.Stopped? ==> k in s.stops)
    ensures KnownUnsent(s.j.executions[k]) ==> k !in s.sent
  {
    hide AllBlocked, AllAttempts, AllCancels, AllParked, AllResolving, AllReserved, HistoryOk, CacheOk, LifeOk,
         ClosingOk;
    assert RecordsOk(s, k) && RecordOk(home, s.j, s.j.executions[k]);
    if k in s.sent { assert SentOk(s, k); }
  }

  lemma CancelOf(home: Home, s: State, taskId: string)
    requires taskId in s.cancels && Inv(home, s)
    ensures CancelOk(home, s, taskId)
  {
    hide CancelOk;
  }

  // ----- every step -----

  /** Every step but an observation and a settlement. */
  lemma StepOutcome(home: Home, s: State, a: Action)
    requires !a.Send? && !a.Observe? && !a.CloseSession? && Inv(home, s)
    ensures var t := Exec(home, s, a); Vouches(s, t) && Plain(s, t)
  {
    var t := Exec(home, s, a);
    hide ExecBeforeSend, ExecTurn, ExecHandler, DoPublish, DoCancelStep, DoRecover, DoResolveStep, DoSave, DoPrune,
         Inv, Vouches, Plain, Quiet, CancelOk, AttemptOk, ResolvingOk;
    if a.Publish? {
      if a.k in s.attempts { AttemptOf(home, s, a.k); }
      PublishVouches(home, s, a.k, a.now);
    } else if a.CancelStep? {
      if a.taskId in s.cancels { CancelOf(home, s, a.taskId); }
      CancelVouches(home, s, a.taskId, a.now);
    } else if a.Recover? {
      if a.k in s.j.executions { RecordSays(home, s, a.k); }
      RecoverVouches(s, a.k, a.stamp);
    } else if a.ResolveStep? {
      if a.k in s.resolving { ResolvingOf(home, s, a.k); }
      ResolveVouches(home, s, a.k, a.read, a.now);
    } else {
      QuietSteps(home, s, a);
      QuietVouches(s, t);
    }
  }

  lemma BeforeSendQuiet(s: State, a: Action)
    requires BeforeSendAction(a)
    ensures Quiet(s, ExecBeforeSend(s, a))
  {
    hide Quiet, DoDispatch, DoAbandonQueue, DoAcquire, DoGuard, DoLookup, DoSessionReady, DoCorrelate, DoIntend,
         DoGiveUp;
    match a {
      case Dispatch(k, refused, now) => DispatchQuiet(s, k, refused, now);
      case AbandonQueue(k) => QueueQuiet(s, k, false);
      case Acquire(k, aborted) => QueueQuiet(s, k, aborted);
      case Guard(k, now) => GuardQuiet(s, k, now);
      case Lookup(k) => LookupQuiet(s, k, false);
      case SessionReady(k, conversation) => SessionQuiet(s, k, conversation);
      case Correlate(k, agentId) => CorrelateQuiet(s, k, agentId);
      case Intend(k, agentId, now) => IntendQuiet(s, k, agentId, now);
      case GiveUp(k, aborted) => LookupQuiet(s, k, aborted);
    }
  }

  lemma TurnQuiet(s: State, a: Action)
    requires TurnAction(a) && !a.Send? && !a.Observe? && !a.CloseSession?
    ensures Quiet(s, ExecTurn(s, a))
  {
    hide Quiet, DoSendOk, DoObserveStep, DoLeaveStream, DoRelease;
    match a {
      case SendOk(k, now) => SendOkQuiet(s, k, now);
      case ObserveStep(k, now) => StreamQuiet(s, k, false, now);
      case LeaveStream(k, error) => StreamQuiet(s, k, error, 0);
      case Release(k, aborted, state) => ReleaseQuiet(s, k, aborted, state);
    }
  }

  lemma EndingQuiet(s: State, a: Action)
    requires EndingAction(a) && !a.Publish?
    ensures Quiet(s, ExecEnding(s, a))
  {
    hide Quiet, DoAccept, DoConclude, DoWaitPublished, DoFinish;
    match a {
      case AcceptStep(k, task, artifactId, now) => AcceptQuiet(s, k, task, artifactId, now);
      case Conclude(k, aborted, text, stamp) => ConcludeQuiet(s, k, aborted, text, stamp);
      case WaitPublished(k) => WaitQuiet(s, k);
      case Finish(k) => FinishQuiet(s, k);
    }
  }

  lemma QuietSteps(home: Home, s: State, a: Action)
    requires !a.Send? && !a.Observe? && !a.CloseSession? && !a.Publish? && !a.CancelStep? && !a.Recover?
      && !a.ResolveStep?
    ensures Quiet(s, Exec(home, s, a))
  {
    hide ExecBeforeSend, ExecTurn, ExecEnding, ExecHandler, ExecLife, Quiet, DoSave, DoPrune, DoCancelInterrupted,
         DoCancelWait, DoCancelIntent, DoResolve, DoClose, DoReportRequests, DoFinalDrain;
    if BeforeSendAction(a) {
      BeforeSendQuiet(s, a);
    } else if TurnAction(a) {
      TurnQuiet(s, a);
    } else if EndingAction(a) {
      EndingQuiet(s, a);
    } else if HandlerAction(a) {
      HandlerQuiet(home, s, a);
    } else if a.Save? {
      SaveQuiet(home, s, a.owner, a.tenant, a.task, a.now);
    } else if TaskAction(a) {
      match a {
        case CancelInterrupted(call, taskId, stamp) => CancelInterruptedQuiet(s, call, taskId, stamp);
        case CancelWait(taskId) => CancelWaitQuiet(s, taskId);
        case CancelIntent(k, now) => CancelIntentQuiet(s, k, now);
      }
    } else if LifeAction(a) {
      LifeQuiet(s, a);
    } else if a.Prune? {
      PruneQuiet(s, a.tk, a.before);
    } else {
      ClosingQuiet(s, a);
    }
  }

  // ----- journalled outcomes -----

  /** Every journalled snapshot is honest. */
  ghost predicate Vouched(s: State) {
    forall q :: q in s.j.publications ==> Honest(s, q, s.j.publications[q])
  }

  /** What every step does to what a snapshot may say. */
  ghost predicate Truly(s: State, t: State) {
    && Vouches(s, t) && (forall q :: Safe(s, q) ==> Safe(t, q))
    && (forall q :: q in t.sent && q !in s.sent ==> q !in t.j.publications)
  }

  lemma StepVouches(home: Home, s: State, a: Action)
    requires Inv(home, s)
    ensures Truly(s, Exec(home, s, a))
  {
    var t := Exec(home, s, a);
    hide Inv, Grows, Moves, DoSend, DoObserve, DoCloseSession;
    StepKeeps(home, s, a);
    MovesGrow(s, t, a);
    GrowsSafe(s, t);
    hide Exec;
    if a.Send? {
      SendIs(home, s, a);
      SendTells(s, a.k);
      if At(s, a.k) && s.attempts[a.k].pc.Ready? { ReadyIsNew(home, s, a.k); }
    } else if a.Observe? {
      ObserveIs(home, s, a);
      ObserveTells(s, a.k, a.message, a.stamp);
    } else if a.CloseSession? {
      CloseIs(home, s, a);
      CloseTells(s, a.k, a.cleanup, a.now);
    } else {
      StepOutcome(home, s, a);
    }
  }

  lemma GrowsSafe(s: State, t: State)
    requires Grows(s, t)
    ensures forall q :: Safe(s, q) ==> Safe(t, q)
  {
  }

  lemma SendIs(home: Home, s: State, a: Action)
    requires a.Send?
    ensures Exec(home, s, a) == DoSend(s, a.k)
  {
    hide DoSend;
  }

  lemma ObserveIs(home: Home, s: State, a: Action)
    requires a.Observe?
    ensures Exec(home, s, a) == DoObserve(s, a.k, a.message, a.stamp)
  {
    hide DoObserve;
  }

  lemma CloseIs(home: Home, s: State, a: Action)
    requires a.CloseSession?
    ensures Exec(home, s, a) == DoCloseSession(s, a.k, a.cleanup, a.now)
  {
    hide DoCloseSession;
  }

  lemma VouchedStays(s: State, t: State)
    requires Vouched(s) && Truly(s, t)
    ensures Vouched(t)
  {
  }

  lemma {:induction false} RunVouched(home: Home, actions: seq<Action>)
    ensures Inv(home, Run(home, INIT, actions)) && Vouched(Run(home, INIT, actions))
  {
    hide Inv, Exec, Truly;
    if actions == [] {
      InitOk(home);
    } else {
      var s, a := Run(home, INIT, actions[..|actions| - 1]), actions[|actions| - 1];
      RunVouched(home, actions[..|actions| - 1]);
      StepVouches(home, s, a);
      StepKeeps(home, s, a);
      hide Vouched, Moves;
      VouchedStays(s, Exec(home, s, a));
    }
  }

  /**
   * The journal is honest at every moment of every run: no snapshot says COMPLETED of an input that may
   * still be running, and none says that no input was sent where one was.
   */
  lemma JournalIsHonest(home: Home, s: State, k: RecordKey)
    requires Reachable(home, s) && k in s.j.publications
    ensures s.j.publications[k].status.state.Completed? ==> k in s.stops || k in s.attested
    ensures s.j.publications[k].status.detail == NoInputSent ==> k !in s.sent
  {
    hide Run, Inv;
    var actions :| Run(home, INIT, actions) == s;
    RunVouched(home, actions);
    assert Honest(s, k, s.j.publications[k]);
  }

  // ----- recorded stops -----

  /** This run ends in s. */
  ghost predicate Ends(home: Home, actions: seq<Action>, s: State) {
    Run(home, INIT, actions) == s
  }

  /** The last result that the stream of k delivered in this run. */
  ghost function LastResult(home: Home, actions: seq<Action>, k: RecordKey): Option<SdkMessage> {
    if actions == [] then None
    else
      var s, a := Run(home, INIT, actions[..|actions| - 1]), actions[|actions| - 1];
      if a.Observe? && a.k == k && Delivers(s, k, a.message) then Some(a.message)
      else LastResult(home, actions[..|actions| - 1], k)
  }

  predicate SettledSuccess(m: Option<SdkMessage>) {
    m.Some? && m.value.ResultMessage? && m.value.success && m.value.settled
  }

  lemma StepGood(home: Home, s: State, a: Action, k: RecordKey)
    requires k in Exec(home, s, a).attempts && Good(Exec(home, s, a).attempts[k].pc) && Inv(home, s)
    ensures if a.Observe? && a.k == k && Delivers(s, k, a.message) then a.message.success && a.message.settled
            else k in s.attempts && Good(s.attempts[k].pc)
  {
    hide Inv, DoSend, DoObserve, DoCloseSession;
    if a.Send? {
      SendIs(home, s, a);
      SendTells(s, a.k);
    } else if a.Observe? {
      ObserveIs(home, s, a);
      ObserveTells(s, a.k, a.message, a.stamp);
    } else if a.CloseSession? {
      CloseIs(home, s, a);
      CloseTells(s, a.k, a.cleanup, a.now);
    } else {
      StepOutcome(home, s, a);
    }
    hide Exec;
  }

  /** A stream counts as good only if the last result it delivered is a settled success. */
  lemma {:induction false} RunGood(home: Home, actions: seq<Action>, k: RecordKey)
    requires var s := Run(home, INIT, actions); k in s.attempts && Good(s.attempts[k].pc)
    ensures SettledSuccess(LastResult(home, actions, k))
  {
    hide Exec, Inv;
    if actions != [] {
      var init, a := actions[..|actions| - 1], actions[|actions| - 1];
      RunVouched(home, init);
      StepGood(home, Run(home, INIT, init), a, k);
      if !(a.Observe? && a.k == k && Delivers(Run(home, INIT, init), k, a.message)) {
        RunGood(home, init, k);
      }
    }
  }

  lemma StopEnters(home: Home, actions: seq<Action>, a: Action, s: State, t: State, q: RecordKey)
    requires Ends(home, actions, s) && t == Exec(home, s, a) && q in t.stops && q !in s.stops
    ensures
      && a.CloseSession? && a.k == q && a.cleanup && At(s, q) && s.attempts[q].pc == Closing(true)
      && SettledSuccess(LastResult(home, actions, q))
      && q in t.j.executions && t.j.executions[q].phase.Stopped? && t.j.executions[q].stopped
  {
    hide Run, Inv, DoSend, DoCloseSession, DoObserve;
    RunVouched(home, actions);
    if a.Send? {
      SendIs(home, s, a);
      SendTells(s, a.k);
    } else if a.Observe? {
      ObserveIs(home, s, a);
      ObserveTells(s, a.k, a.message, a.stamp);
    } else if !a.CloseSession? {
      StepOutcome(home, s, a);
    } else {
      CloseIs(home, s, a);
      CloseTells(s, a.k, a.cleanup, a.now);
      RunGood(home, actions, q);
      StepKeeps(home, s, a);
      hide Exec;
      SucceededSays(home, t, q);
    }
  }

  lemma SucceededSays(home: Home, s: State, k: RecordKey)
    requires k in s.attempts && s.attempts[k].pc.Succeeded? && Inv(home, s)
    ensures k in s.j.executions && s.j.executions[k].phase.Stopped? && s.j.executions[k].stopped
  {
    hide AllSent, AllBlocked, AllRecords, AllAttempts, AllCancels, AllParked, AllResolving, AllReserved, HistoryOk,
         CacheOk, LifeOk, ClosingOk, AttemptOk;
    AttemptOf(home, s, k);
    SucceededPhase(home, s, k);
    assert RecordOk(home, s.j, s.j.executions[k]);
  }

  lemma SucceededPhase(home: Home, s: State, k: RecordKey)
    requires k in s.attempts && s.attempts[k].pc.Succeeded? && AttemptOk(home, s, k)
    ensures k in s.j.executions && s.j.executions[k].phase.Stopped?
  {
  }

  /**
   * Action p of this run settled the turn of q: its owned cleanup was done, the last result its stream had
   * delivered was a settled success, and with the stop the stored record says so.
   */
  ghost predicate SettledAt(home: Home, actions: seq<Action>, p: nat, q: RecordKey) {
    && p < |actions|
    && var a, s, t := actions[p], Run(home, INIT, actions[..p]), Run(home, INIT, actions[..p + 1]);
      && a.CloseSession? && a.k == q && a.cleanup && At(s, q) && s.attempts[q].pc == Closing(true)
      && SettledSuccess(LastResult(home, actions[..p], q))
      && q !in s.stops && q in t.stops
      && q in t.j.executions && t.j.executions[q].phase.Stopped? && t.j.executions[q].stopped
  }

  lemma SettledStill(home: Home, actions: seq<Action>, a: Action, p: nat, q: RecordKey)
    requires SettledAt(home, actions, p, q)
    ensures SettledAt(home, actions + [a], p, q)
  {
    hide Run, LastResult;
    assert (actions + [a])[..p] == actions[..p] && (actions + [a])[..p + 1] == actions[..p + 1];
  }

  lemma SettledNow(home: Home, actions: seq<Action>, a: Action, q: RecordKey)
    requires q in Exec(home, Run(home, INIT, actions), a).stops && q !in Run(home, INIT, actions).stops
    ensures SettledAt(home, actions + [a], |actions|, q)
  {
    hide Run, Exec, LastResult;
    RunSnoc(home, INIT, actions, a);
    StopEnters(home, actions, a, Run(home, INIT, actions), Exec(home, Run(home, INIT, actions), a), q);
    assert (actions + [a])[..|actions|] == actions && (actions + [a])[..|actions| + 1] == actions + [a];
  }

  /** Every stop in the history of every run was put there by the settlement of its own turn, and by nothing else. */
  lemma {:induction false} StopIsCommitted(home: Home, actions: seq<Action>, s: State, q: RecordKey)
    requires Ends(home, actions, s) && q in s.stops
    ensures exists p :: SettledAt(home, actions, p, q)
  {
    hide Exec, SettledAt;
    if actions != [] {
      var init, a := actions[..|actions| - 1], actions[|actions| - 1];
      assert actions == init + [a];
      if q in Run(home, INIT, init).stops {
        StopIsCommitted(home, init, Run(home, INIT, init), q);
        var p :| SettledAt(home, init, p, q);
        SettledStill(home, init, a, p, q);
      } else {
        SettledNow(home, init, a, q);
      }
    }
  }
}
