/** Cancelling an interrupted task, and recording that a cancellation was asked for. */
module BridgeCancels {
  import opened Prelude
  import opened A2A
  import opened Journal
  import opened JournalProofs
  import opened Bridge
  import opened BridgeInvariant
  import opened BridgeSteps
  import opened BridgeHooks
  import opened BridgeProcess

  // ----- the cancellation is read and reduced -----

  /** The parked task leaves, and its cancellation is under way or its context is reported. */
  ghost predicate Cancels(s: State, t: State, taskId: string) {
    && t == s.(interrupted := t.interrupted, cancels := t.cancels, failures := t.failures)
    && taskId in s.interrupted && taskId !in s.cancels && taskId !in t.interrupted
    && (forall u :: u in t.interrupted ==> u in s.interrupted && t.interrupted[u] == s.interrupted[u])
    && s.failures <= t.failures
    && (forall u :: u in s.cancels ==> u in t.cancels && t.cancels[u] == s.cancels[u])
    && (forall u :: u in t.cancels && u !in s.cancels ==>
          u == taskId && t.cancels[u].CancelReducing? && t.cancels[u].key == s.interrupted[taskId].key)
  }

  /** What the new job holds describes the parked attempt. */
  ghost predicate JobOk(home: Home, s: State, k: RecordKey, taskId: string, job: CancelJob) {
    && k in s.j.executions && s.j.executions[k].taskId == taskId
    && job.CancelReducing? && job.key == k && HeldOk(home, s, k, taskId, job.record)
    && TaskOk(home, TaskKeyOf(job.record), job.snapshot) && job.snapshot.status.detail.RequestCanceled?
  }

  lemma NewJob(home: Home, s: State, taskId: string, stamp: Stamp)
    requires taskId in s.interrupted && JournalOk(home, s.j) && AllSent(s) && ParkedOk(s, taskId)
    ensures var job := Cancelling(s, taskId, stamp);
      job.Some? ==> JobOk(home, s, s.interrupted[taskId].key, taskId, job.value)
  {
    var k := s.interrupted[taskId].key;
    if k in s.j.executions { assert RecordOk(home, s.j, s.j.executions[k]); }
    if k in s.sent { assert SentOk(s, k); }
  }

  lemma CancelsJobs(home: Home, s: State, t: State, taskId: string)
    requires AllCancels(home, s) && AllParked(s) && Cancels(s, t, taskId)
    requires taskId in t.cancels ==> JobOk(home, s, s.interrupted[taskId].key, taskId, t.cancels[taskId])
    ensures AllCancels(home, t)
  {
    assert ParkedOk(s, taskId);
    forall u | u in t.cancels ensures CancelOk(home, t, u) {
      if u != taskId { assert CancelOk(home, s, u); }
    }
  }

  lemma CancelsParked(s: State, t: State, taskId: string)
    requires AllParked(s) && Cancels(s, t, taskId)
    ensures AllParked(t)
  {
    assert ParkedOk(s, taskId);
    forall u | u in t.interrupted ensures ParkedOk(t, u) { assert ParkedOk(s, u); }
  }

  lemma CancelsResolving(home: Home, s: State, t: State, taskId: string)
    requires AllResolving(home, s) && Cancels(s, t, taskId)
    ensures AllResolving(home, t)
  {
    forall q | q in t.resolving ensures ResolvingOk(home, t, q) { assert ResolvingOk(home, s, q); }
  }

  lemma CancelsAround(s: State, t: State, taskId: string)
    requires Cancels(s, t, taskId)
    ensures Around(s, t, {})
  {
  }

  lemma CancelsWhole(s: State, t: State, taskId: string)
    requires Cancels(s, t, taskId) && AllRecords(s) && LifeOk(s) && ClosingOk(s) && Live(s) && s.pending != {}
    ensures AllRecords(t) && LifeOk(t) && ClosingOk(t)
  {
    forall q | q in t.j.executions ensures RecordsOk(t, q) { assert RecordsOk(s, q); }
  }

  lemma CancelInterruptedKeeps(home: Home, s: State, call: nat, taskId: string, stamp: Stamp)
    requires Inv(home, s)
    ensures Safely(home, s, DoCancelInterrupted(s, call, taskId, stamp))
  {
    NothingSafely(home, s);
    if Cancellable(s, call, taskId) {
      AllKnown(home, s);
      Unparked(s, call, taskId);
      hide JournalOk, HistoryOk, CacheOk, AllAttempts, AllSent, AllBlocked, AllRecords, AllCancels, LifeOk, ClosingOk,
           ParkedOk, AllResolving, AllReserved, JobOk, Cancelling, Cancels, Unpark, Cancellable;
      NewJob(home, s, taskId, stamp);
      CancelsShape(home, s, call, taskId, stamp);
      hide *;
      CancelsFinish(home, s, DoCancelInterrupted(s, call, taskId, stamp), taskId);
    }
  }

  lemma CancelsShape(home: Home, s: State, call: nat, taskId: string, stamp: Stamp)
    requires Cancellable(s, call, taskId) && taskId in s.interrupted && taskId !in s.cancels
    requires var job := Cancelling(s, taskId, stamp);
      job.Some? ==> JobOk(home, s, s.interrupted[taskId].key, taskId, job.value)
    ensures var t := DoCancelInterrupted(s, call, taskId, stamp);
      Cancels(s, t, taskId) && (taskId in t.cancels ==>
                                JobOk(home, s, s.interrupted[taskId].key, taskId, t.cancels[taskId]))
  {
    hide Cancelling, JobOk, Cancels, Cancellable;
    var job := Cancelling(s, taskId, stamp);
    if job.Some? { JobShape(home, s, s.interrupted[taskId].key, taskId, job.value); }
    var t := DoCancelInterrupted(s, call, taskId, stamp);
    CancelsParts(s, taskId, t.cancels, t.failures);
  }

  lemma JobShape(home: Home, s: State, k: RecordKey, taskId: string, job: CancelJob)
    requires JobOk(home, s, k, taskId, job)
    ensures job.CancelReducing? && job.key == k
  {
  }

  lemma Unparked(s: State, call: nat, taskId: string)
    requires Cancellable(s, call, taskId)
    ensures Live(s) && s.pending != {} && taskId in s.interrupted && taskId !in s.cancels
  {
  }

  lemma CancelsParts(s: State, taskId: string, cancels: map<string, CancelJob>, failures: set<ContextKey>)
    requires taskId in s.interrupted && taskId !in s.cancels && s.failures <= failures
    requires cancels == s.cancels
      || (taskId in cancels && cancels == s.cancels[taskId := cancels[taskId]]
          && cancels[taskId].CancelReducing? && cancels[taskId].key == s.interrupted[taskId].key)
    ensures Cancels(s, Unpark(s, taskId).(cancels := cancels, failures := failures), taskId)
  {
  }

  lemma CancelsFinish(home: Home, s: State, t: State, taskId: string)
    requires Inv(home, s) && Known(s) && Live(s) && s.pending != {} && Cancels(s, t, taskId)
    requires taskId in t.cancels ==> JobOk(home, s, s.interrupted[taskId].key, taskId, t.cancels[taskId])
    ensures Safely(home, s, t)
  {
    hide JournalOk, HistoryOk, CacheOk, AllAttempts, AllSent, AllBlocked, AllRecords, AllCancels, AllParked, LifeOk,
         ClosingOk,
         AllResolving, JobOk;
    CancelsJobs(home, s, t, taskId);
    CancelsParked(s, t, taskId);
    CancelsResolving(home, s, t, taskId);
    CancelsWhole(s, t, taskId);
    CancelsAround(s, t, taskId);
    hide Inv, Safely, Around, AllReserved;
    Finishes(home, s, t, {});
  }

  // ----- the cancellation is committed -----

  /** The job's publication is committed and awaits its acknowledgment. */
  ghost predicate Commits(s: State, t: State, taskId: string, now: int)
    requires taskId in s.cancels && s.cancels[taskId].CancelReducing?
  {
    var job := s.cancels[taskId];
    && t == s.(j := t.j, cancels := s.cancels[taskId := CancelAnnounced(job.key, job.record.contextKey)])
    && t.j == s.j.(publications := t.j.publications, executions := t.j.executions)
    && (forall q :: q != job.key ==> SameSnapshot(s.j, t.j, q))
    && t.j.executions == s.j.executions[job.key := WithPublication(job.record.(phase := Publishing, updatedAt := now))]
  }

  lemma CommitsAround(s: State, t: State, taskId: string, now: int)
    requires taskId in s.cancels && s.cancels[taskId].CancelReducing? && Commits(s, t, taskId, now)
    ensures Around(s, t, {s.cancels[taskId].key})
  {
  }

  lemma CommitsKey(home: Home, s: State, t: State, taskId: string, now: int)
    requires taskId in s.cancels && s.cancels[taskId].CancelReducing? && Commits(s, t, taskId, now)
    requires CancelOk(home, s, taskId) && AllSent(s)
    ensures KeyOk(home, t, s.cancels[taskId].key)
  {
    var k := s.cancels[taskId].key;
    if k in s.sent { assert SentOk(s, k); }
  }

  lemma CommitsRecords(home: Home, s: State, t: State, taskId: string, now: int)
    requires taskId in s.cancels && s.cancels[taskId].CancelReducing? && Commits(s, t, taskId, now)
    requires CancelOk(home, s, taskId) && AllRecords(s) && LifeOk(s) && ClosingOk(s) && Live(s)
    ensures AllRecords(t) && LifeOk(t) && ClosingOk(t)
  {
    forall q | q in t.j.executions ensures RecordsOk(t, q) {
      if q != s.cancels[taskId].key { assert RecordsOk(s, q); }
    }
    assert s.cancels != map[];
  }

  lemma CommitsJobs(home: Home, s: State, t: State, taskId: string, now: int)
    requires taskId in s.cancels && s.cancels[taskId].CancelReducing? && Commits(s, t, taskId, now)
    requires AllCancels(home, s)
    ensures AllCancels(home, t)
  {
    assert CancelOk(home, s, taskId);
    forall u | u in t.cancels ensures CancelOk(home, t, u) {
      assert CancelOk(home, s, u);
    }
  }

  lemma CommitsOthers(home: Home, s: State, t: State, taskId: string, now: int)
    requires taskId in s.cancels && s.cancels[taskId].CancelReducing? && Commits(s, t, taskId, now)
    requires CancelOk(home, s, taskId) && AllParked(s) && AllResolving(home, s) && AllReserved(s) && Known(s)
    ensures AllParked(t) && AllResolving(home, t) && AllReserved(t) && Apart(t)
  {
    forall u | u in t.interrupted ensures ParkedOk(t, u) { assert ParkedOk(s, u); }
    forall q | q in t.resolving ensures ResolvingOk(home, t, q) { assert ResolvingOk(home, s, q); }
  }

  lemma CommitsQuiet(home: Home, s: State, taskId: string)
    requires taskId in s.cancels && s.cancels[taskId].CancelReducing? && CancelOk(home, s, taskId)
    ensures !Announcing(s.j, s.cancels[taskId].key)
  {
  }

  lemma CommitsKeep(home: Home, s: State, t: State, taskId: string, now: int)
    requires taskId in s.cancels && s.cancels[taskId].CancelReducing? && Commits(s, t, taskId, now)
    requires Inv(home, s) && Live(s) && JournalOk(home, t.j)
    ensures Safely(home, s, t)
  {
    hide JournalOk, HistoryOk, CacheOk, AllAttempts, AllSent, AllBlocked, AllRecords, LifeOk, ClosingOk,
         AllParked, AllResolving, AllReserved, CancelOk, Commits, Around, Apart, KeyOk, Known;
    AllKnown(home, s);
    assert CancelOk(home, s, taskId);
    hide AllCancels;
    CommitsAround(s, t, taskId, now);
    CommitsKey(home, s, t, taskId, now);
    CommitsRecords(home, s, t, taskId, now);
    CommitsJobs(home, s, t, taskId, now);
    CommitsOthers(home, s, t, taskId, now);
    CommitsQuiet(home, s, taskId);
    hide Inv, Safely;
    Finishes(home, s, t, {s.cancels[taskId].key});
  }

  /** The job leaves; its record is settled, gone, or its context is reported. */
  ghost predicate Fails(s: State, t: State, taskId: string) {
    && taskId in s.cancels
    && (s.cancels[taskId].key in s.j.executions ==> !s.j.executions[s.cancels[taskId].key].phase.Publishing?)
    && t == s.(cancels := t.cancels, failures := t.failures) && s.failures <= t.failures
    && (forall u :: u in t.cancels <==> u in s.cancels && u != taskId)
    && (forall u :: u in t.cancels ==> t.cancels[u] == s.cancels[u])
  }

  lemma FailsShape(s: State, taskId: string, c: ContextKey)
    requires taskId in s.cancels
    requires s.cancels[taskId].key in s.j.executions ==> !s.j.executions[s.cancels[taskId].key].phase.Publishing?
    ensures var over := map t | t in s.cancels && t != taskId :: s.cancels[t];
      Fails(s, s.(cancels := over), taskId)
      && Fails(s, s.(cancels := over, failures := s.failures + {c}), taskId)
  {
  }

  lemma FailsRecord(home: Home, s: State, t: State, taskId: string, q: RecordKey)
    requires Fails(s, t, taskId) && q in s.j.executions && RecordsOk(s, q)
    requires s.cancels[taskId].key in s.j.executions ==>
      var p := s.j.executions[s.cancels[taskId].key].phase; p.Done? || p.Unresolved?
    ensures RecordsOk(t, q)
  {
  }

  lemma FailsAround(s: State, t: State, taskId: string)
    requires Fails(s, t, taskId)
    ensures JobsAlike(s, t) && Around(s, t, {}) && t.j == s.j && s.cancels != map[]
  {
  }

  lemma FailsKeep(home: Home, s: State, t: State, taskId: string)
    requires Inv(home, s) && Live(s) && Fails(s, t, taskId)
    ensures Safely(home, s, t)
  {
    assert CancelOk(home, s, taskId);
    FailsAround(s, t, taskId);
    hide JournalOk, HistoryOk, CacheOk, AllAttempts, AllSent, AllBlocked, AllCancels, AllParked, AllResolving,
         AllReserved,
         HeldOk, TaskOk, Around, JobsAlike, RecordsOk;
    forall q | q in t.j.executions ensures RecordsOk(t, q) { FailsRecord(home, s, t, taskId, q); }
    assert WholeOk(home, s, t);
    hide *;
    Passes(home, s, t, {});
  }

  lemma CancelStepOk(home: Home, s: State, taskId: string, now: int)
    requires taskId in s.cancels && s.cancels[taskId].CancelReducing? && CancelOk(home, s, taskId)
    requires JournalOk(home, s.j) && s.j.version == Some(1)
    requires CommitPublication(s.lim, s.j, s.cancels[taskId].record, s.cancels[taskId].snapshot, now).Ok?
    ensures var j := CommitPublication(s.lim, s.j, s.cancels[taskId].record, s.cancels[taskId].snapshot, now).value;
      var job := s.cancels[taskId];
      && Commits(s, s.(j := j, cancels := s.cancels[taskId := CancelAnnounced(job.key, job.record.contextKey)]), taskId,
                 now)
      && JournalOk(home, j)
  {
    var job := s.cancels[taskId];
    CancelHeld(home, s, taskId);
    hide JournalOk, CancelOk;
    PublicationShape(s.lim, s.j, job.record, job.snapshot, now);
    PublicationKeeps(home, s.lim, s.j, job.record, job.snapshot, now);
    hide CommitPublication;
  }

  lemma CancelHeld(home: Home, s: State, taskId: string)
    requires taskId in s.cancels && s.cancels[taskId].CancelReducing? && CancelOk(home, s, taskId)
    ensures var job := s.cancels[taskId];
      && job.key in s.j.messages && HeldOk(home, s, job.key, taskId, job.record)
         && TaskOk(home, TaskKeyOf(job.record), job.snapshot)
  {
  }

  lemma CancelStepShape(s: State, taskId: string, now: int)
    requires Live(s) && taskId in s.cancels && s.cancels[taskId].CancelReducing?
    ensures var job, t := s.cancels[taskId], DoCancelStep(s, taskId, now);
      var m := CommitPublication(s.lim, s.j, job.record, job.snapshot, now);
      t == if m.Ok? then s.(j := m.value,
                            cancels := s.cancels[taskId := CancelAnnounced(job.key, job.record.contextKey)])
           else s.(cancels := map u | u in s.cancels && u != taskId :: s.cancels[u],
                   failures := s.failures + {job.record.contextKey})
  {
    hide CommitPublication;
  }

  lemma CancelStepIdle(s: State, taskId: string, now: int)
    ensures !(Live(s) && taskId in s.cancels && s.cancels[taskId].CancelReducing?) ==> DoCancelStep(s, taskId, now) == s
  {
    hide CommitPublication;
  }

  lemma CancelStepKeeps(home: Home, s: State, taskId: string, now: int)
    requires Inv(home, s)
    ensures Safely(home, s, DoCancelStep(s, taskId, now))
  {
    NothingSafely(home, s);
    CancelStepIdle(s, taskId, now);
    hide *;
    if Live(s) && taskId in s.cancels && s.cancels[taskId].CancelReducing? {
      CancelReduced(home, s, taskId, now);
    }
  }

  lemma CancelReduced(home: Home, s: State, taskId: string, now: int)
    requires Live(s) && taskId in s.cancels && s.cancels[taskId].CancelReducing? && Inv(home, s)
    ensures Safely(home, s, DoCancelStep(s, taskId, now))
  {
    CancelReady(home, s, taskId);
    hide *;
    CancelStepShape(s, taskId, now);
    var job := s.cancels[taskId];
    if CommitPublication(s.lim, s.j, job.record, job.snapshot, now).Ok? {
      CancelStepOk(home, s, taskId, now);
      CommitsKeep(home, s, DoCancelStep(s, taskId, now), taskId, now);
    } else {
      FailsShape(s, taskId, job.record.contextKey);
      FailsKeep(home, s, DoCancelStep(s, taskId, now), taskId);
    }
  }

  lemma CancelReady(home: Home, s: State, taskId: string)
    requires Live(s) && taskId in s.cancels && s.cancels[taskId].CancelReducing? && Inv(home, s)
    ensures CancelOk(home, s, taskId) && JournalOk(home, s.j) && s.j.version == Some(1)
    ensures s.cancels[taskId].key in s.j.executions ==> !s.j.executions[s.cancels[taskId].key].phase.Publishing?
  {
    hide JournalOk, HistoryOk, CacheOk, AllAttempts, AllSent, AllBlocked, AllRecords, ClosingOk, AllParked,
         AllResolving, AllReserved;
    assert CancelOk(home, s, taskId);
  }

  // ----- the cancellation waits for its acknowledgment -----

  /** The waiter of an announced cancellation registers. */
  ghost predicate Registers(s: State, t: State, taskId: string) {
    && taskId in s.cancels && s.cancels[taskId].CancelAnnounced?
    && s.cancels[taskId].key in s.j.executions && s.j.executions[s.cancels[taskId].key].phase.Publishing?
    && t == s.(cancels := s.cancels[taskId := CancelAwaiting(s.cancels[taskId].key)],
               acks := s.acks + {s.cancels[taskId].key})
  }

  lemma RegistersJobs(home: Home, s: State, t: State, taskId: string)
    requires Registers(s, t, taskId) && AllCancels(home, s)
    ensures AllCancels(home, t)
  {
    assert CancelOk(home, s, taskId);
    forall u | u in t.cancels ensures CancelOk(home, t, u) { assert CancelOk(home, s, u); }
  }

  lemma RegistersRecord(s: State, t: State, taskId: string, q: RecordKey)
    requires Registers(s, t, taskId) && q in s.j.executions && RecordsOk(s, q)
    ensures RecordsOk(t, q)
  {
  }

  lemma RegistersOthers(home: Home, s: State, t: State, taskId: string)
    requires Registers(s, t, taskId) && AllParked(s) && AllResolving(home, s) && AllReserved(s) && Known(s)
    requires LifeOk(s) && ClosingOk(s) && Live(s)
    ensures AllParked(t) && AllResolving(home, t) && AllReserved(t) && Apart(t) && LifeOk(t) && ClosingOk(t)
    ensures Around(s, t, {}) && t.j == s.j
  {
    forall u | u in t.interrupted ensures ParkedOk(t, u) { assert ParkedOk(s, u); }
    forall q | q in t.resolving ensures ResolvingOk(home, t, q) { assert ResolvingOk(home, s, q); }
    assert s.cancels != map[];
  }

  lemma RegistersKeep(home: Home, s: State, t: State, taskId: string)
    requires Inv(home, s) && Live(s) && Registers(s, t, taskId)
    ensures Safely(home, s, t)
  {
    AllKnown(home, s);
    hide JournalOk, HistoryOk, CacheOk, AllAttempts, AllSent, AllBlocked, AllCancels, LifeOk, ClosingOk,
         AllParked, AllResolving, AllReserved, Registers, RecordsOk, Around, Apart, Known;
    forall q | q in t.j.executions ensures RecordsOk(t, q) {
      RegistersSame(s, t, taskId);
      RegistersRecord(s, t, taskId, q);
    }
    assert AllRecords(t);
    hide AllRecords;
    RegistersJobs(home, s, t, taskId);
    RegistersOthers(home, s, t, taskId);
    hide Inv, Safely;
    Finishes(home, s, t, {});
  }

  lemma RegistersSame(s: State, t: State, taskId: string)
    requires Registers(s, t, taskId)
    ensures t.j == s.j
  {
  }

  lemma CancelWaitKeeps(home: Home, s: State, taskId: string)
    requires Inv(home, s)
    ensures Safely(home, s, DoCancelWait(s, taskId))
  {
    NothingSafely(home, s);
    if Live(s) && taskId in s.cancels && s.cancels[taskId].CancelAnnounced? {
      assert CancelOk(home, s, taskId);
      var k, t := s.cancels[taskId].key, DoCancelWait(s, taskId);
      if k in s.j.executions && s.j.executions[k].phase.Publishing? {
        assert Registers(s, t, taskId);
        hide *;
        RegistersKeep(home, s, t, taskId);
      } else {
        FailsShape(s, taskId, s.cancels[taskId].context);
        assert Fails(s, t, taskId);
        hide *;
        FailsKeep(home, s, t, taskId);
      }
    }
  }

  // ----- the request to cancel is recorded -----

  /** The record of k is marked; nothing else changes. */
  ghost predicate Marks(s: State, t: State, k: RecordKey, now: int) {
    && k in s.j.executions && t == s.(j := t.j)
    && t.j == s.j.(executions := s.j.executions[k := s.j.executions[k].(cancelRequested := true, updatedAt := now)])
  }

  lemma MarksRecords(home: Home, s: State, t: State, k: RecordKey, now: int)
    requires AllRecords(s) && LifeOk(s) && ClosingOk(s) && Marks(s, t, k, now)
    ensures AllRecords(t) && LifeOk(t) && ClosingOk(t)
  {
    forall q | q in t.j.executions ensures RecordsOk(t, q) { assert RecordsOk(s, q); }
  }

  lemma MarksAround(s: State, t: State, k: RecordKey, now: int)
    requires Marks(s, t, k, now)
    ensures JobsAlike(s, t) && Around(s, t, {})
  {
  }

  lemma MarksSound(home: Home, s: State, k: RecordKey, now: int)
    requires JournalOk(home, s.j) && s.j.version == Some(1)
    requires RequestCancellation(s.lim, s.j, k, now).Ok?
    ensures Marks(s, s.(j := RequestCancellation(s.lim, s.j, k, now).value), k, now)
    ensures JournalOk(home, RequestCancellation(s.lim, s.j, k, now).value)
  {
    assert s.j.executions[k].id == k;
    hide JournalOk;
    CancelKeeps(home, s.lim, s.j, k, now);
  }

  lemma MarksKeep(home: Home, s: State, t: State, k: RecordKey, now: int)
    requires Inv(home, s) && Marks(s, t, k, now) && JournalOk(home, t.j)
    ensures Safely(home, s, t)
  {
    hide JournalOk, HistoryOk, CacheOk, AllAttempts, AllSent, AllBlocked, AllRecords, AllCancels, LifeOk, ClosingOk,
         AllParked, AllResolving, AllReserved, Marks, Around, JobsAlike;
    MarksRecords(home, s, t, k, now);
    MarksAround(s, t, k, now);
    hide Inv, Safely;
    Passes(home, s, t, {});
  }

  lemma CancelIntentShape(s: State, k: RecordKey, now: int)
    ensures var m := RequestCancellation(s.lim, s.j, k, now);
      DoCancelIntent(s, k, now) == if (s.life.Detached? || s.life.Attached?) && m.Ok? then s.(j := m.value) else s
  {
    hide RequestCancellation;
  }

  lemma MarkedKeeps(home: Home, s: State, k: RecordKey, now: int)
    requires Inv(home, s) && !s.life.Dead? && RequestCancellation(s.lim, s.j, k, now).Ok?
    ensures Safely(home, s, s.(j := RequestCancellation(s.lim, s.j, k, now).value))
  {
    hide *;
    JournalOf(home, s);
    VersionOf(home, s);
    MarksSound(home, s, k, now);
    MarksKeep(home, s, s.(j := RequestCancellation(s.lim, s.j, k, now).value), k, now);
  }

  lemma CancelIntentKeeps(home: Home, s: State, k: RecordKey, now: int)
    requires Inv(home, s)
    ensures Safely(home, s, DoCancelIntent(s, k, now))
  {
    hide *;
    NothingSafely(home, s);
    CancelIntentShape(s, k, now);
    if (s.life.Detached? || s.life.Attached?) && RequestCancellation(s.lim, s.j, k, now).Ok? {
      MarkedKeeps(home, s, k, now);
    }
  }

  lemma VersionOf(home: Home, s: State)
    requires Inv(home, s) && !s.life.Dead?
    ensures s.j.version == Some(1)
  {
  }
}
