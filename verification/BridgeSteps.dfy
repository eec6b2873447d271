/** Every step keeps the invariant: steps of one attempt first, then the steps of the process. */
module BridgeSteps {
  import opened Prelude
  import opened A2A
  import opened Journal
  import opened JournalProofs
  import opened Bridge
  import opened BridgeInvariant

  // ----- what only grows -----

  /** History and knowledge are never forgotten: the sends, the stops, the tombstones and the mappings. */
  ghost predicate Grows(s: State, t: State) {
    && s.sends <= t.sends && (forall k :: k in s.sent ==> k in t.sent && t.sent[k] == s.sent[k])
    && s.stops <= t.stops && s.attested <= t.attested
    && Keeps(s.j, t.j)
  }

  predicate Announcing(j: Journal, k: RecordKey) {
    k in j.executions && j.executions[k].phase.Publishing?
  }

  /** The announcement of k stands, with the same snapshot. */
  predicate Stands(j: Journal, later: Journal, k: RecordKey) {
    Announcing(later, k) && SameSnapshot(j, later, k)
  }

  predicate SameSnapshot(j: Journal, later: Journal, k: RecordKey) {
    && (k in later.publications <==> k in j.publications)
    && (k in j.publications ==> later.publications[k] == j.publications[k])
  }

  /** What every step but a save keeps of the past. */
  ghost predicate Evolves(s: State, t: State) {
    && Grows(s, t)
    && (s.life.Attached? && t.life.Attached? ==> forall k :: Announcing(s.j, k) ==> Stands(s.j, t.j, k))
  }

  /** The step keeps the invariant and the past. */
  ghost predicate Safely(home: Home, s: State, t: State) {
    Inv(home, t) && Evolves(s, t)
  }

  lemma NothingSafely(home: Home, s: State)
    requires Inv(home, s)
    ensures Safely(home, s, s)
  {
    hide Inv;
  }

  // ----- steps of one attempt -----

  /** A step of attempt k: it moves k, may rewrite k's own record, and only grows what others rely on. */
  ghost predicate Local(s: State, t: State, k: RecordKey) {
    && k in s.attempts && k in t.attempts && t.attempts == s.attempts[k := t.attempts[k]]
    && t.attempts[k].context == s.attempts[k].context && t.attempts[k].taskId == s.attempts[k].taskId
    && OwnJournal(s.j, t.j, k)
    && t.life == s.life && t.reserved == s.reserved && t.interrupted == s.interrupted && t.cancels == s.cancels
    && t.failures == s.failures && t.resolving == s.resolving && t.pending == s.pending && t.closed == s.closed
    && t.requestsDone == s.requestsDone && t.verdict == s.verdict && t.attested == s.attested
    && s.acks <= t.acks && s.sends <= t.sends
    && (forall c :: c in s.lock && s.lock[c] != k ==> c in t.lock && t.lock[c] == s.lock[c])
    && (t.quarantine == s.quarantine
        || (Holds(s.attempts[k].pc) && t.quarantine == s.quarantine + {s.attempts[k].context}))
    && (t.sent == s.sent
        || (Holds(s.attempts[k].pc) && k !in s.sent
            && exists v :: t.sent == s.sent[k := Sent(s.attempts[k].context, v)]))
    && (t.stops == s.stops || t.stops == s.stops + {k})
  }

  /** Only the record of k changes, no tombstone is lost, and mappings only grow. */
  ghost predicate OwnJournal(j: Journal, later: Journal, k: RecordKey) {
    && later.messages == j.messages && later.version == j.version
    && (forall q :: q != k ==> (q in later.executions <==> q in j.executions))
    && (forall q :: q != k && q in j.executions ==> later.executions[q] == j.executions[q] && SameSnapshot(j, later, q))
    && (forall c :: c in j.mappings ==> c in later.mappings && later.mappings[c] == j.mappings[c])
  }

  lemma LocalAttempts(home: Home, s: State, t: State, k: RecordKey, q: RecordKey)
    requires Local(s, t, k) && q in t.attempts && q != k && q in s.attempts
    requires AttemptOk(home, s, q) && AttemptOk(home, s, k)
    ensures AttemptOk(home, t, q)
  {
    assert t.attempts[q] == s.attempts[q];
    assert q in t.sent <==> q in s.sent;
    LocalUnsent(s, t, k, q);
    LocalInTurn(s, t, k, q);
    LocalAfterTurn(home, s, t, k, q);
  }

  lemma LocalUnsent(s: State, t: State, k: RecordKey, q: RecordKey)
    requires Local(s, t, k) && q in s.attempts && q != k
    requires UnsentOk(s, q, s.attempts[q])
    requires Holds(s.attempts[k].pc) && Holds(s.attempts[q].pc) ==> s.attempts[q].context != s.attempts[k].context
    ensures UnsentOk(t, q, s.attempts[q])
  {
    assert q in t.sent <==> q in s.sent;
    if Cleared(s.attempts[q].pc) {
      ClearStays(s, t, k, q);
    }
  }

  lemma LocalInTurn(s: State, t: State, k: RecordKey, q: RecordKey)
    requires Local(s, t, k) && q in s.attempts && q != k
    requires InTurnOk(s, q, s.attempts[q])
    ensures InTurnOk(t, q, s.attempts[q])
  {
    assert q in t.sent <==> q in s.sent;
  }

  lemma LocalAfterTurn(home: Home, s: State, t: State, k: RecordKey, q: RecordKey)
    requires Local(s, t, k) && q in s.attempts && q != k
    requires AfterTurnOk(home, s, q, s.attempts[q])
    ensures AfterTurnOk(home, t, q, s.attempts[q])
  {
    assert q in t.sent <==> q in s.sent;
    assert q in s.sent ==> t.sent[q] == s.sent[q];
  }

  lemma ClearStays(s: State, t: State, k: RecordKey, q: RecordKey)
    requires Local(s, t, k) && q in s.attempts && q != k
    requires ClearToSend(s, q, s.attempts[q])
    requires Holds(s.attempts[k].pc) ==> s.attempts[q].context != s.attempts[k].context
    ensures ClearToSend(t, q, s.attempts[q])
  {
  }

  lemma LocalSent(home: Home, s: State, t: State, k: RecordKey, q: RecordKey)
    requires Inv(home, s) && Local(s, t, k) && q in t.sent && q != k && s.life.Attached?
    ensures SentOk(t, q) && (!Safe(t, q) ==> Blocked(t, q))
  {
    assert q in s.sent;
    hide Local;
    SentOf(home, s, q);
    hide Inv;
    LocalInput(s, t, k, q);
  }

  lemma SentOf(home: Home, s: State, q: RecordKey)
    requires Inv(home, s) && q in s.sent && s.life.Attached?
    ensures SentOk(s, q) && (!Safe(s, q) ==> Blocked(s, q))
  {
    hide JournalOk, HistoryOk, CacheOk, ClosingOk, LifeOk, AllRecords, AllAttempts, AllCancels, AllParked, AllResolving,
         AllReserved, SentOk, Blocked;
  }

  lemma LocalInput(s: State, t: State, k: RecordKey, q: RecordKey)
    requires Local(s, t, k) && q in s.sent && q != k && SentOk(s, q) && (!Safe(s, q) ==> Blocked(s, q))
    ensures q in t.sent && SentOk(t, q) && (!Safe(t, q) ==> Blocked(t, q))
  {
  }

  lemma LocalRecords(home: Home, s: State, t: State, k: RecordKey, q: RecordKey)
    requires Inv(home, s) && Local(s, t, k) && q in t.j.executions && q != k && s.life.Attached?
    ensures RecordsOk(t, q)
  {
    assert RecordsOk(s, q);
  }

  lemma LocalJobs(home: Home, s: State, t: State, k: RecordKey)
    requires Inv(home, s) && Local(s, t, k)
    ensures forall u :: u in t.cancels ==> CancelOk(home, t, u)
    ensures forall u :: u in t.interrupted ==> ParkedOk(t, u)
    ensures forall q :: q in t.resolving ==> ResolvingOk(home, t, q)
    ensures AllReserved(t)
  {
    assert AttemptOk(home, s, k);
    hide JournalOk, HistoryOk, CacheOk, ClosingOk, LifeOk, AllRecords, AllSent, AllBlocked, AllAttempts, CancelOk,
         ParkedOk, ResolvingOk;
    forall u | u in t.cancels ensures CancelOk(home, t, u) { LocalCancel(home, s, t, k, u); }
    forall u | u in t.interrupted ensures ParkedOk(t, u) { LocalParked(s, t, k, u); }
    forall q | q in t.resolving ensures ResolvingOk(home, t, q) { LocalResolving(home, s, t, k, q); }
  }

  lemma LocalCancel(home: Home, s: State, t: State, k: RecordKey, u: string)
    requires Local(s, t, k) && u in s.cancels && CancelOk(home, s, u)
    ensures CancelOk(home, t, u)
  {
  }

  lemma LocalParked(s: State, t: State, k: RecordKey, u: string)
    requires Local(s, t, k) && u in s.interrupted && ParkedOk(s, u)
    ensures ParkedOk(t, u)
  {
  }

  lemma LocalResolving(home: Home, s: State, t: State, k: RecordKey, q: RecordKey)
    requires Local(s, t, k) && k !in s.resolving && q in s.resolving && ResolvingOk(home, s, q)
    ensures ResolvingOk(home, t, q)
  {
  }

  /** What is known of one attempt of a live process. */
  ghost predicate OwnOk(home: Home, s: State, k: RecordKey) {
    && At(s, k) && AttemptOk(home, s, k)
    && (k in s.j.executions && s.j.executions[k].phase.Stopped? ==> k in s.stops)
    && (k in s.sent ==> SentOk(s, k) && (!Safe(s, k) ==> Blocked(s, k)))
  }

  lemma OwnOf(home: Home, s: State, k: RecordKey)
    requires Inv(home, s) && At(s, k)
    ensures OwnOk(home, s, k)
  {
    hide JournalOk, HistoryOk, CacheOk, ClosingOk, LifeOk, AllCancels, AllParked, AllResolving, AllReserved, AttemptOk,
         SentOk, Blocked;
    if k in s.j.executions { assert RecordsOk(s, k); }
  }

  /** A step of attempt k that does right by k itself. */
  ghost predicate Step(home: Home, s: State, t: State, k: RecordKey) {
    && Local(s, t, k) && OwnOk(home, t, k)
    && (JournalOk(home, s.j) && s.j.version == Some(1) ==> JournalOk(home, t.j))
    && (HistoryOk(s) ==> HistoryOk(t))
    && (CacheOk(s) ==> CacheOk(t))
    && (Announcing(s.j, k) ==> Stands(s.j, t.j, k))
  }

  lemma LocalEvolves(s: State, t: State, k: RecordKey)
    requires Local(s, t, k) && (Announcing(s.j, k) ==> Stands(s.j, t.j, k))
    ensures Evolves(s, t)
  {
  }

  /** Such a step keeps the invariant. */
  lemma Glue(home: Home, s: State, t: State, k: RecordKey)
    requires Inv(home, s) && Step(home, s, t, k)
    ensures Safely(home, s, t)
  {
    LocalEvolves(s, t, k);
    GlueInv(home, s, t, k);
  }

  lemma GlueAttempts(home: Home, s: State, t: State, k: RecordKey)
    requires AllAttempts(home, s) && Local(s, t, k) && AttemptOk(home, t, k)
    ensures AllAttempts(home, t)
  {
    assert AttemptOk(home, s, k) && forall q :: q in t.attempts ==> q == k || q in s.attempts;
    hide AttemptOk, Local;
    forall q | q in t.attempts ensures AttemptOk(home, t, q) {
      if q != k {
        assert AttemptOk(home, s, q);
        LocalAttempts(home, s, t, k, q);
      }
    }
  }

  lemma GlueSent(home: Home, s: State, t: State, k: RecordKey)
    requires Local(s, t, k) && s.life.Attached? && (k in t.sent ==> SentOk(t, k) && (!Safe(t, k) ==> Blocked(t, k)))
    requires Inv(home, s)
    ensures AllSent(t) && AllBlocked(t)
  {
    hide Inv, Local, SentOk, Blocked;
    forall q | q in t.sent ensures SentOk(t, q) && (!Safe(t, q) ==> Blocked(t, q)) {
      if q != k { LocalSent(home, s, t, k, q); }
    }
  }

  lemma GlueRecords(home: Home, s: State, t: State, k: RecordKey)
    requires Local(s, t, k) && s.life.Attached? && (k in t.j.executions ==> RecordsOk(t, k))
    requires Inv(home, s)
    ensures AllRecords(t)
  {
    hide Inv, Local, RecordsOk;
    forall q | q in t.j.executions ensures RecordsOk(t, q) {
      if q != k { LocalRecords(home, s, t, k, q); }
    }
  }

  lemma OwnParts(home: Home, s: State, k: RecordKey)
    requires OwnOk(home, s, k)
    ensures k in s.attempts && AttemptOk(home, s, k) && s.life.Attached?
    ensures k in s.sent ==> SentOk(s, k) && (!Safe(s, k) ==> Blocked(s, k))
    ensures k in s.j.executions ==> RecordsOk(s, k)
  {
  }

  lemma GlueInv(home: Home, s: State, t: State, k: RecordKey)
    requires Inv(home, s) && Step(home, s, t, k)
    ensures Inv(home, t)
  {
    hide JournalOk, HistoryOk, CacheOk, AllAttempts, AllSent, AllBlocked, AllRecords, AllCancels, AllParked,
         AllResolving, AllReserved, AttemptOk, SentOk, Blocked, RecordsOk, OwnOk;
    OwnParts(home, t, k);
    GlueAttempts(home, s, t, k);
    GlueSent(home, s, t, k);
    GlueRecords(home, s, t, k);
    GlueJobs(home, s, t, k);
    assert t.attempts != map[];
  }

  lemma GlueJobs(home: Home, s: State, t: State, k: RecordKey)
    requires Inv(home, s) && Local(s, t, k)
    ensures AllCancels(home, t) && AllParked(t) && AllResolving(home, t) && AllReserved(t)
  {
    hide Inv, Local, CancelOk, ParkedOk, ResolvingOk;
    LocalJobs(home, s, t, k);
  }

  // ----- steps of one attempt that do not write -----

  /** Everything that is claimed at the point where attempt k stands. */
  ghost predicate PointOk(home: Home, s: State, k: RecordKey) {
    && k in s.attempts
    && UnsentOk(s, k, s.attempts[k]) && InTurnOk(s, k, s.attempts[k]) && AfterTurnOk(home, s, k, s.attempts[k])
  }

  /** Same journal, same history: only the point of the attempt changes. */
  lemma Quiet(home: Home, s: State, k: RecordKey, pc: Pc)
    requires OwnOk(home, s, k)
    requires Holds(pc) ==> Holds(s.attempts[k].pc)
    requires PointOk(home, Move(s, k, pc), k)
    requires k in s.sent && Exposed(s.attempts[k].pc) ==> Exposed(pc)
    ensures Step(home, s, Move(s, k, pc), k)
  {
    hide JournalOk, HistoryOk, CacheOk, UnsentOk, InTurnOk, AfterTurnOk;
    SameHistory(s, Move(s, k, pc));
  }

  lemma SameHistory(s: State, t: State)
    requires t.sends == s.sends && t.sent == s.sent && t.stops == s.stops && t.attested == s.attested
    ensures HistoryOk(s) ==> HistoryOk(t)
    ensures t.j.mappings == s.j.mappings && t.cache == s.cache && CacheOk(s) ==> CacheOk(t)
  {
  }

  lemma AbandonQueueMoves(home: Home, s: State, k: RecordKey)
    requires OwnOk(home, s, k) && s.attempts[k].pc.Queued?
    ensures Step(home, s, DoAbandonQueue(s, k), k)
  {
    hide JournalOk, HistoryOk, CacheOk;
    Quiet(home, s, k, Settled(Cancelled));
  }

  lemma AbandonQueueKeeps(home: Home, s: State, k: RecordKey)
    requires Inv(home, s) && At(s, k) && s.attempts[k].pc.Queued?
    ensures Safely(home, s, DoAbandonQueue(s, k))
  {
    hide *;
    OwnOf(home, s, k);
    AbandonQueueMoves(home, s, k);
    Glue(home, s, DoAbandonQueue(s, k), k);
  }

  /** The lock is free, so no other attempt of the context is under it. */
  lemma AcquireLocal(home: Home, s: State, k: RecordKey, aborted: bool)
    requires OwnOk(home, s, k) && s.attempts[k].pc.Queued? && s.attempts[k].context !in s.lock
    ensures Local(s, DoAcquire(s, k, aborted), k)
  {
    hide JournalOk, HistoryOk, CacheOk, PcOk, SentOk, Blocked;
  }

  lemma AcquireOwn(home: Home, s: State, k: RecordKey, aborted: bool)
    requires OwnOk(home, s, k) && s.attempts[k].pc.Queued? && s.attempts[k].context !in s.lock
    ensures OwnOk(home, DoAcquire(s, k, aborted), k)
  {
    hide JournalOk, HistoryOk, CacheOk;
  }

  lemma AcquireMoves(home: Home, s: State, k: RecordKey, aborted: bool)
    requires OwnOk(home, s, k) && s.attempts[k].pc.Queued? && s.attempts[k].context !in s.lock
    ensures Step(home, s, DoAcquire(s, k, aborted), k)
  {
    hide OwnOk, Local, JournalOk, HistoryOk, CacheOk;
    AcquireLocal(home, s, k, aborted);
    AcquireOwn(home, s, k, aborted);
    SameHistory(s, DoAcquire(s, k, aborted));
  }

  lemma AcquireKeeps(home: Home, s: State, k: RecordKey, aborted: bool)
    requires Inv(home, s) && At(s, k) && s.attempts[k].pc.Queued? && s.attempts[k].context !in s.lock
    ensures Safely(home, s, DoAcquire(s, k, aborted))
  {
    hide *;
    OwnOf(home, s, k);
    AcquireMoves(home, s, k, aborted);
    Glue(home, s, DoAcquire(s, k, aborted), k);
  }

  lemma LookupMoves(home: Home, s: State, k: RecordKey)
    requires OwnOk(home, s, k) && s.attempts[k].pc.Guarded?
    ensures Step(home, s, DoLookup(s, k), k)
  {
    hide JournalOk, HistoryOk, CacheOk;
    Quiet(home, s, k, DoLookup(s, k).attempts[k].pc);
  }

  lemma LookupKeeps(home: Home, s: State, k: RecordKey)
    requires Inv(home, s) && At(s, k) && s.attempts[k].pc.Guarded?
    ensures Safely(home, s, DoLookup(s, k))
  {
    hide *;
    OwnOf(home, s, k);
    LookupMoves(home, s, k);
    Glue(home, s, DoLookup(s, k), k);
  }

  lemma GiveUpMoves(home: Home, s: State, k: RecordKey, aborted: bool)
    requires OwnOk(home, s, k) && (s.attempts[k].pc.Entered? || Cleared(s.attempts[k].pc))
    ensures Step(home, s, DoGiveUp(s, k, aborted), k)
  {
    hide JournalOk, HistoryOk, CacheOk;
    Quiet(home, s, k, Thrown(aborted));
  }

  lemma GiveUpKeeps(home: Home, s: State, k: RecordKey, aborted: bool)
    requires Inv(home, s) && At(s, k) && (s.attempts[k].pc.Entered? || Cleared(s.attempts[k].pc))
    ensures Safely(home, s, DoGiveUp(s, k, aborted))
  {
    hide *;
    OwnOf(home, s, k);
    GiveUpMoves(home, s, k, aborted);
    Glue(home, s, DoGiveUp(s, k, aborted), k);
  }

  lemma LeaveStreamMoves(home: Home, s: State, k: RecordKey, error: bool)
    requires OwnOk(home, s, k) && (s.attempts[k].pc.Sending? || s.attempts[k].pc.Streaming?)
    ensures Step(home, s, DoLeaveStream(s, k, error), k)
  {
    hide JournalOk, HistoryOk, CacheOk;
    Quiet(home, s, k, DoLeaveStream(s, k, error).attempts[k].pc);
  }

  lemma LeaveStreamKeeps(home: Home, s: State, k: RecordKey, error: bool)
    requires Inv(home, s) && At(s, k) && (s.attempts[k].pc.Sending? || s.attempts[k].pc.Streaming?)
    ensures Safely(home, s, DoLeaveStream(s, k, error))
  {
    hide *;
    OwnOf(home, s, k);
    LeaveStreamMoves(home, s, k, error);
    Glue(home, s, DoLeaveStream(s, k, error), k);
  }

  lemma FoldKeeps(r: Record, m: SdkMessage)
    ensures var f := Fold(r, m);
      && f.id == r.id && f.taskId == r.taskId && f.contextId == r.contextId && f.contextKey == r.contextKey
      && f.artifactId == r.artifactId && f.phase == r.phase && f.stopped == r.stopped && f.publication == r.publication
  {
  }

  lemma ReadKeeps(j: Journal, t: Turn, m: SdkMessage, stamp: Stamp, good: bool)
    ensures var pc := AfterRead(j, t, m, stamp, good);
      || pc == Closing(false)
      || (pc.Observing? && HasTurn(j, t) && pc.record == Fold(j.executions[KeyOf(t)], m))
  {
  }

  lemma ObserveMoves(home: Home, s: State, k: RecordKey, m: SdkMessage, stamp: Stamp)
    requires OwnOk(home, s, k) && s.attempts[k].pc.Streaming?
    ensures Step(home, s, DoObserve(s, k, m, stamp), k)
  {
    hide JournalOk, HistoryOk, CacheOk;
    hide AfterRead, Fold;
    assert KeyOf(TurnOf(k, s.attempts[k])) == k;
    ReadKeeps(s.j, TurnOf(k, s.attempts[k]), m, stamp, s.attempts[k].pc.good);
    FoldKeeps(s.j.executions[k], m);
    Quiet(home, s, k, AfterRead(s.j, TurnOf(k, s.attempts[k]), m, stamp, s.attempts[k].pc.good));
  }

  lemma ObserveKeeps(home: Home, s: State, k: RecordKey, m: SdkMessage, stamp: Stamp)
    requires Inv(home, s) && At(s, k) && s.attempts[k].pc.Streaming?
    ensures Safely(home, s, DoObserve(s, k, m, stamp))
  {
    hide *;
    OwnOf(home, s, k);
    ObserveMoves(home, s, k, m, stamp);
    Glue(home, s, DoObserve(s, k, m, stamp), k);
  }

  lemma ReleaseLocal(home: Home, s: State, k: RecordKey, aborted: bool, state: TaskState)
    requires OwnOk(home, s, k) && (s.attempts[k].pc.Succeeded? || s.attempts[k].pc.Thrown?)
      && (state.Completed? || Interrupted(state))
    ensures Local(s, DoRelease(s, k, aborted, state), k)
  {
    hide JournalOk, HistoryOk, CacheOk, PcOk, SentOk, Blocked;
  }

  lemma ReleaseOwn(home: Home, s: State, k: RecordKey, aborted: bool, state: TaskState)
    requires OwnOk(home, s, k) && (s.attempts[k].pc.Succeeded? || s.attempts[k].pc.Thrown?)
      && (state.Completed? || Interrupted(state))
    ensures OwnOk(home, DoRelease(s, k, aborted, state), k)
  {
    var outcome := if s.attempts[k].pc.Thrown? then (if s.attempts[k].pc.cancelled then Cancelled else Errored)
                   else if aborted then Cancelled else Finished(state);
    SettledOwn(home, s, k, outcome);
    hide OwnOk, Move;
  }

  lemma SettledOwn(home: Home, s: State, k: RecordKey, o: Outcome)
    requires OwnOk(home, s, k) && (s.attempts[k].pc.Succeeded? || s.attempts[k].pc.Thrown?)
    requires o.Finished? ==> s.attempts[k].pc.Succeeded? && (o.state.Completed? || Interrupted(o.state))
    ensures OwnOk(home, Move(s, k, Settled(o)).(lock := s.lock - {s.attempts[k].context}), k)
  {
    hide Published, ClearToSend;
  }

  lemma ReleaseMoves(home: Home, s: State, k: RecordKey, aborted: bool, state: TaskState)
    requires OwnOk(home, s, k) && (s.attempts[k].pc.Succeeded? || s.attempts[k].pc.Thrown?)
      && (state.Completed? || Interrupted(state))
    ensures Step(home, s, DoRelease(s, k, aborted, state), k)
  {
    hide OwnOk, Local, JournalOk, HistoryOk, CacheOk;
    ReleaseLocal(home, s, k, aborted, state);
    ReleaseOwn(home, s, k, aborted, state);
    SameHistory(s, DoRelease(s, k, aborted, state));
  }

  lemma ReleaseKeeps(home: Home, s: State, k: RecordKey, aborted: bool, state: TaskState)
    requires Inv(home, s) && At(s, k) && (s.attempts[k].pc.Succeeded? || s.attempts[k].pc.Thrown?)
      && (state.Completed? || Interrupted(state))
    ensures Safely(home, s, DoRelease(s, k, aborted, state))
  {
    hide *;
    OwnOf(home, s, k);
    ReleaseMoves(home, s, k, aborted, state);
    Glue(home, s, DoRelease(s, k, aborted, state), k);
  }

  lemma ConcludingShape(s: State, k: RecordKey, aborted: bool, text: Option<Artifact>, stamp: Stamp)
    requires k in s.attempts && s.attempts[k].pc.Settled?
    ensures var a, pc := s.attempts[k], Concluding(s, k, aborted, text, stamp);
      var c := Conclusion(a.pc.outcome, a.context in s.quarantine, aborted);
      pc.Some? ==>
        && pc.value.Reducing? && k in s.j.executions && s.j.executions[k].taskId == a.taskId
        && pc.value.marked == s.j.executions[k].(stopped := c.0 || s.j.executions[k].stopped
                                                 || KnownUnsent(s.j.executions[k]))
        && pc.value.state == c.1 && pc.value.snapshot.status.state == c.1
        && pc.value.snapshot.status.detail.TurnSettled? && pc.value.snapshot.status.messageId.Some?
        && TaskKeyOf(s.j.executions[k]) in s.j.tasks
        && var row := s.j.tasks[TaskKeyOf(s.j.executions[k])];
          pc.value.snapshot.id == row.id && pc.value.snapshot.contextId == row.contextId
  {
    hide Conclusion;
  }

  lemma ConclusionOk(home: Home, s: State, k: RecordKey, aborted: bool, text: Option<Artifact>, stamp: Stamp)
    requires k in s.attempts && s.attempts[k].pc.Settled? && OwnOk(home, s, k) && JournalOk(home, s.j)
    ensures var pc := Concluding(s, k, aborted, text, stamp);
      pc.Some? ==> var t := Move(s, k, pc.value); pc.value.Reducing? && AfterTurnOk(home, t, k, t.attempts[k])
  {
    hide JournalOk, OwnOk, AttemptOk, SentOk, Concluding;
    SettledOk(home, s, k);
    ConcludingShape(s, k, aborted, text, stamp);
    JournalAt(home, s.j, k);
  }

  lemma JournalAt(home: Home, j: Journal, k: RecordKey)
    requires JournalOk(home, j)
    ensures k in j.executions ==> j.executions[k].id == k && RecordOk(home, j, j.executions[k])
    ensures k in j.executions && TaskKeyOf(j.executions[k]) in j.tasks ==>
      TaskOk(home, TaskKeyOf(j.executions[k]), j.tasks[TaskKeyOf(j.executions[k])])
  {
  }

  lemma SettledOk(home: Home, s: State, k: RecordKey)
    requires OwnOk(home, s, k) && s.attempts[k].pc.Settled?
    ensures var a := s.attempts[k];
      && BridgeInvariant.Working(s, k, a) && (k in s.sent ==> Safe(s, k) || a.context in s.quarantine)
      && (a.pc.outcome.Finished? ==> k in s.stops && (a.pc.outcome.state.Completed? || Interrupted(a.pc.outcome.state)))
      && a.context.owner == k.owner && a.context.tenant == k.tenant && k.messageId != "" && a.taskId != ""
      && (k in s.sent ==> s.sent[k].context == a.context && (s.j.executions[k].stopped ==> Safe(s, k))
                          && !KnownUnsent(s.j.executions[k]))
  {
  }

  lemma ConcludePoint(home: Home, s: State, k: RecordKey, pc: Pc)
    requires k in s.attempts && pc.Reducing? && AfterTurnOk(home, Move(s, k, pc), k, Move(s, k, pc).attempts[k])
    requires s.attempts[k].pc.Settled?
    ensures PointOk(home, Move(s, k, pc), k) && !Holds(pc) && !Exposed(s.attempts[k].pc)
  {
    hide AfterTurnOk;
  }

  lemma ConcludeShape(s: State, k: RecordKey, aborted: bool, text: Option<Artifact>, stamp: Stamp)
    requires At(s, k) && s.attempts[k].pc.Settled? && Concluding(s, k, aborted, text, stamp).Some?
    ensures DoConclude(s, k, aborted, text, stamp) == Move(s, k, Concluding(s, k, aborted, text, stamp).value)
  {
    hide Concluding;
  }

  lemma ConcludeKeeps(home: Home, s: State, k: RecordKey, aborted: bool, text: Option<Artifact>, stamp: Stamp)
    requires k in s.attempts && s.attempts[k].pc.Settled? && Concluding(s, k, aborted, text, stamp).Some?
    requires Inv(home, s) && At(s, k)
    ensures Safely(home, s, DoConclude(s, k, aborted, text, stamp))
  {
    hide *;
    var pc := Concluding(s, k, aborted, text, stamp).value;
    JournalOf(home, s);
    OwnOf(home, s, k);
    ConclusionOk(home, s, k, aborted, text, stamp);
    ConcludePoint(home, s, k, pc);
    Quiet(home, s, k, pc);
    ConcludeShape(s, k, aborted, text, stamp);
    Glue(home, s, Move(s, k, pc), k);
  }

  lemma JournalOf(home: Home, s: State)
    requires Inv(home, s)
    ensures JournalOk(home, s.j) && (s.life.Attached? ==> s.j.version == Some(1))
  {
  }

  // ----- steps of one attempt that write its record -----

  lemma PutOwn(lim: Limits, j: Journal, r: Record, now: int)
    requires Put(lim, j, r, now).Ok?
    ensures OwnJournal(j, Put(lim, j, r, now).value, r.id)
    ensures Put(lim, j, r, now).value == j.(executions := j.executions[r.id := r.(updatedAt := now)])
  {
  }

  /** The record of k changes with its point; the history does not. */
  function Written(s: State, k: RecordKey, j: Journal, pc: Pc): State
    requires k in s.attempts
  {
    Move(s.(j := j), k, pc)
  }

  lemma Write(home: Home, s: State, k: RecordKey, j: Journal, pc: Pc)
    requires k in s.attempts && !Announcing(s.j, k) && OwnJournal(s.j, j, k) && j.mappings == s.j.mappings
    requires k in j.executions && j.executions[k].phase.Stopped? ==> k in s.stops
    requires PointOk(home, Written(s, k, j, pc), k)
    requires k in s.sent ==> SentOk(Written(s, k, j, pc), k)
    requires Holds(pc) ==> Holds(s.attempts[k].pc)
    requires k in s.sent && Exposed(s.attempts[k].pc) ==> Exposed(pc)
    requires JournalOk(home, s.j) && s.j.version == Some(1) ==> JournalOk(home, j)
    requires OwnOk(home, s, k)
    ensures Step(home, s, Written(s, k, j, pc), k)
  {
    hide JournalOk, HistoryOk, CacheOk, UnsentOk, InTurnOk, AfterTurnOk, Local, OwnJournal, AttemptOk, SentOk, Blocked,
         Announcing, Stands, Written;
    WriteLocal(s, k, j, pc);
    WriteBase(home, s, k, j, pc);
    WriteBlocked(home, s, k, j, pc);
    WriteSame(s, k, j, pc);
    SameHistory(s, Written(s, k, j, pc));
  }

  lemma WriteSame(s: State, k: RecordKey, j: Journal, pc: Pc)
    requires k in s.attempts
    ensures var t := Written(s, k, j, pc);
      && t.j == j && t.life == s.life && k in t.attempts && t.cache == s.cache
      && t.sends == s.sends && t.sent == s.sent && t.stops == s.stops && t.attested == s.attested
  {
  }

  lemma WriteLocal(s: State, k: RecordKey, j: Journal, pc: Pc)
    requires k in s.attempts && OwnJournal(s.j, j, k)
    ensures Local(s, Written(s, k, j, pc), k)
  {
  }

  lemma WriteBase(home: Home, s: State, k: RecordKey, j: Journal, pc: Pc)
    requires k in s.attempts && OwnJournal(s.j, j, k) && (Holds(pc) ==> Holds(s.attempts[k].pc))
    requires PointOk(home, Written(s, k, j, pc), k)
    requires AttemptOk(home, s, k)
    ensures AttemptOk(home, Written(s, k, j, pc), k)
  {
    hide UnsentOk, InTurnOk, AfterTurnOk;
  }

  lemma WriteBlocked(home: Home, s: State, k: RecordKey, j: Journal, pc: Pc)
    requires k in s.attempts && (k in s.sent && Exposed(s.attempts[k].pc) ==> Exposed(pc))
    requires OwnOk(home, s, k)
    ensures k in s.sent && !Safe(s, k) ==> Blocked(Written(s, k, j, pc), k)
  {
    hide AttemptOk, SentOk;
  }

  /** A hook rewrites flags of the stored record. */
  predicate Flags(s: State, k: RecordKey, r: Record, now: int) {
    && k in s.j.executions && r.id == k && Put(s.lim, s.j, r, now).Ok?
    && var o := s.j.executions[k];
      && r.taskId == o.taskId && r.contextId == o.contextId && r.contextKey == o.contextKey
      && r.artifactId == o.artifactId && r.publication == o.publication
      && !r.phase.Publishing? && !o.phase.Publishing? && !r.phase.Stopped? && !r.phase.Done?
  }

  function Flagged(s: State, k: RecordKey, r: Record, now: int, pc: Pc): State
    requires k in s.attempts && Flags(s, k, r, now)
  {
    Written(s, k, Put(s.lim, s.j, r, now).value, pc)
  }

  lemma Flag(home: Home, s: State, k: RecordKey, r: Record, now: int, pc: Pc)
    requires k in s.attempts && Flags(s, k, r, now)
    requires PointOk(home, Flagged(s, k, r, now, pc), k)
    requires Holds(pc) ==> Holds(s.attempts[k].pc)
    requires k in s.sent ==> (r.phase.Intent? || r.phase.Unresolved?) && !r.stopped
    requires k in s.sent && Exposed(s.attempts[k].pc) ==> Exposed(pc)
    requires OwnOk(home, s, k) && HasRecord(s, k, s.attempts[k])
    ensures Step(home, s, Flagged(s, k, r, now, pc), k)
  {
    PutOwn(s.lim, s.j, r, now);
    var j := Put(s.lim, s.j, r, now).value;
    FlagSound(home, s, k, r, now);
    if k in s.sent { FlagSent(s, Written(s, k, j, pc), k, r); }
    hide JournalOk, Put, PointOk, AttemptOk, SentOk, Blocked, OwnJournal, Written;
    Write(home, s, k, j, pc);
  }

  lemma FlagSound(home: Home, s: State, k: RecordKey, r: Record, now: int)
    requires Flags(s, k, r, now)
    ensures JournalOk(home, s.j) && s.j.version == Some(1) ==> JournalOk(home, Put(s.lim, s.j, r, now).value)
  {
    hide JournalOk;
    if JournalOk(home, s.j) && s.j.version == Some(1) { FlagsKeep(home, s.lim, s.j, r, now); }
  }

  lemma FlagSent(s: State, t: State, k: RecordKey, r: Record)
    requires t.sent == s.sent && t.stops == s.stops && t.attested == s.attested
    requires t.j.messages == s.j.messages && t.j.mappings == s.j.mappings
    requires k in s.sent && SentOk(s, k)
    requires k in s.j.executions && k in t.j.executions
    requires r.contextKey == s.j.executions[k].contextKey && (r.phase.Intent? || r.phase.Unresolved?) && !r.stopped
    requires t.j.executions[k] == r.(updatedAt := t.j.executions[k].updatedAt)
    ensures SentOk(t, k)
  {
  }

  lemma SendOkWrites(home: Home, s: State, k: RecordKey, now: int)
    requires OwnOk(home, s, k) && s.attempts[k].pc.Sending?
      && SendReturned(s.lim, s.j, TurnOf(k, s.attempts[k]), now).Ok?
    ensures Step(home, s, Move(s.(j := SendReturned(s.lim, s.j, TurnOf(k, s.attempts[k]), now).value), k,
                               Streaming(false)), k)
  {
    hide JournalOk, HistoryOk, CacheOk, Local, Blocked;
    assert KeyOf(TurnOf(k, s.attempts[k])) == k;
    Flag(home, s, k, s.j.executions[k].(sendReturned := true), now, Streaming(false));
  }

  lemma SendOkMoves(home: Home, s: State, k: RecordKey, now: int)
    requires OwnOk(home, s, k) && s.attempts[k].pc.Sending?
    ensures Step(home, s, DoSendOk(s, k, now), k)
  {
    hide JournalOk, HistoryOk, CacheOk, Local, Step, Blocked;
    if SendReturned(s.lim, s.j, TurnOf(k, s.attempts[k]), now).Ok? {
      SendOkWrites(home, s, k, now);
    } else {
      Quiet(home, s, k, Closing(false));
    }
  }

  lemma SendOkKeeps(home: Home, s: State, k: RecordKey, now: int)
    requires Inv(home, s) && At(s, k) && s.attempts[k].pc.Sending?
    ensures Safely(home, s, DoSendOk(s, k, now))
  {
    hide *;
    OwnOf(home, s, k);
    SendOkMoves(home, s, k, now);
    Glue(home, s, DoSendOk(s, k, now), k);
  }

  lemma ObserveStepWrites(home: Home, s: State, k: RecordKey, now: int)
    requires OwnOk(home, s, k) && s.attempts[k].pc.Observing?
      && CommitObservation(s.lim, s.j, s.attempts[k].pc.record, s.attempts[k].pc.preview, now).Ok?
    ensures Step(home, s, Move(s.(j :=
                                  CommitObservation(s.lim, s.j, s.attempts[k].pc.record, s.attempts[k].pc.preview,
                                                    now).value),
                               k, Streaming(s.attempts[k].pc.good)), k)
  {
    hide JournalOk, HistoryOk, CacheOk, Local, Blocked;
    assert KeyOf(TurnOf(k, s.attempts[k])) == k;
    Flag(home, s, k, s.attempts[k].pc.record, now, Streaming(s.attempts[k].pc.good));
  }

  lemma ObserveStepMoves(home: Home, s: State, k: RecordKey, now: int)
    requires OwnOk(home, s, k) && s.attempts[k].pc.Observing?
    ensures Step(home, s, DoObserveStep(s, k, now), k)
  {
    hide JournalOk, HistoryOk, CacheOk, Local, Step, Blocked;
    if CommitObservation(s.lim, s.j, s.attempts[k].pc.record, s.attempts[k].pc.preview, now).Ok? {
      ObserveStepWrites(home, s, k, now);
    } else {
      Quiet(home, s, k, Closing(false));
    }
  }

  lemma ObserveStepKeeps(home: Home, s: State, k: RecordKey, now: int)
    requires Inv(home, s) && At(s, k) && s.attempts[k].pc.Observing?
    ensures Safely(home, s, DoObserveStep(s, k, now))
  {
    hide *;
    OwnOf(home, s, k);
    ObserveStepMoves(home, s, k, now);
    Glue(home, s, DoObserveStep(s, k, now), k);
  }
}
