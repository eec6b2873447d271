/** The steps of the process: opening, handler calls, the SDK's saves, cancellation, the operator and closing. */
module BridgeProcess {
  import opened Prelude
  import opened A2A
  import opened Journal
  import opened JournalProofs
  import opened Bridge
  import opened BridgeInvariant
  import opened BridgeSteps
  import opened BridgeHooks

  // ----- what a step of the process leaves alone -----

  /** Nobody else's point, lock, quarantine or history moves; knowledge only grows. */
  ghost predicate Calm(s: State, t: State) {
    && t.life == s.life && t.sends == s.sends && t.sent == s.sent && s.stops == t.stops && s.attested <= t.attested
    && t.lock == s.lock && t.quarantine == s.quarantine && t.cache == s.cache && s.failures <= t.failures
    && (forall k :: k in s.j.messages ==> k in t.j.messages && t.j.messages[k] == s.j.messages[k])
    && (forall c :: c in s.j.mappings ==> c in t.j.mappings && t.j.mappings[c] == s.j.mappings[c])
    && t.j.version == s.j.version
  }

  /** The record of q keeps everything but its cancellation flag and its time, or it was done and is forgotten. */
  ghost predicate Kept(j: Journal, later: Journal, q: RecordKey) {
    if q in later.executions then
      && q in j.executions
      && later.executions[q] == j.executions[q].(cancelRequested := later.executions[q].cancelRequested,
                                                 updatedAt := later.executions[q].updatedAt)
      && SameSnapshot(j, later, q)
    else q in j.executions ==> j.executions[q].phase.Done? && j.executions[q].stopped
  }

  /** Bystander q: its attempt, its record and its acknowledgment are what they were. */
  ghost predicate Bystander(s: State, t: State, q: RecordKey) {
    && Kept(s.j, t.j, q)
    && (q in t.attempts <==> q in s.attempts)
    && (q in s.attempts ==> t.attempts[q] == s.attempts[q])
    && (q in s.acks ==> q in t.acks)
  }

  lemma AttemptStays(home: Home, s: State, t: State, q: RecordKey)
    requires q in s.attempts && Bystander(s, t, q) && Calm(s, t) && AttemptOk(home, s, q)
    requires q !in t.resolving && q !in t.reserved
    ensures AttemptOk(home, t, q)
  {
    StayUnsent(s, t, q);
    StayInTurn(s, t, q);
    StayAfter(home, s, t, q);
    hide UnsentOk, InTurnOk, AfterTurnOk;
  }

  lemma StayUnsent(s: State, t: State, q: RecordKey)
    requires q in s.attempts && Calm(s, t) && Kept(s.j, t.j, q) && UnsentOk(s, q, s.attempts[q])
    ensures UnsentOk(t, q, s.attempts[q])
  {
  }

  lemma StayInTurn(s: State, t: State, q: RecordKey)
    requires q in s.attempts && Calm(s, t) && Kept(s.j, t.j, q) && InTurnOk(s, q, s.attempts[q])
    ensures InTurnOk(t, q, s.attempts[q])
  {
  }

  lemma StayAfter(home: Home, s: State, t: State, q: RecordKey)
    requires q in s.attempts && Calm(s, t) && Kept(s.j, t.j, q) && AfterTurnOk(home, s, q, s.attempts[q])
    requires q in s.acks ==> q in t.acks
    ensures AfterTurnOk(home, t, q, s.attempts[q])
  {
  }

  lemma SentStays(s: State, t: State, q: RecordKey)
    requires q in s.sent && SentOk(s, q) && Calm(s, t) && Kept(s.j, t.j, q)
    ensures SentOk(t, q)
  {
  }

  lemma BlockedStays(s: State, t: State, q: RecordKey)
    requires q in s.sent && Blocked(s, q) && Calm(s, t) && Bystander(s, t, q)
    ensures Blocked(t, q)
  {
  }

  /** What the invariant says of one key, its attempt and its input. */
  ghost predicate KeyOk(home: Home, s: State, q: RecordKey) {
    && (q in s.attempts ==> AttemptOk(home, s, q))
    && (q in s.sent ==> SentOk(s, q))
    && (q in s.sent && !Safe(s, q) && (s.life.Attached? || s.life.Detached?) ==> Blocked(s, q))
  }

  ghost predicate KeysOk(home: Home, s: State) {
    && AllAttempts(home, s) && AllSent(s) && AllBlocked(s) && HistoryOk(s) && CacheOk(s)
  }

  /** Everyone but the keys in `own` is a bystander. */
  ghost predicate Around(s: State, t: State, own: set<RecordKey>) {
    && Calm(s, t)
    && (forall q :: q !in own ==> Bystander(s, t, q))
  }

  ghost predicate Apart(s: State) {
    forall q :: q in s.attempts ==> q !in s.resolving && q !in s.reserved
  }

  lemma AroundKeeps(home: Home, s: State, t: State, own: set<RecordKey>)
    requires KeysOk(home, s) && Around(s, t, own) && Apart(t)
    requires forall q :: q in own ==> KeyOk(home, t, q)
    ensures KeysOk(home, t)
  {
    HistoryStays(s, t);
    hide AttemptOk, SentOk, Blocked, HistoryOk, CacheOk, Calm;
    forall q | q in t.attempts ensures AttemptOk(home, t, q) {
      if q in own { assert KeyOk(home, t, q); } else { assert Bystander(s, t, q); AttemptStays(home, s, t, q); }
    }
    AroundSent(home, s, t, own);
  }

  lemma AroundSent(home: Home, s: State, t: State, own: set<RecordKey>)
    requires AllSent(s) && AllBlocked(s) && Around(s, t, own)
    requires forall q :: q in own ==> KeyOk(home, t, q)
    ensures AllSent(t) && AllBlocked(t)
  {
    assert t.sent == s.sent && t.life == s.life && forall q :: Safe(s, q) ==> Safe(t, q);
    hide AttemptOk, SentOk, Blocked;
    forall q | q in t.sent ensures SentOk(t, q) {
      if q in own { assert KeyOk(home, t, q); } else { assert Bystander(s, t, q); SentStays(s, t, q); }
    }
    forall q | q in t.sent && !Safe(t, q) && (t.life.Attached? || t.life.Detached?) ensures Blocked(t, q) {
      if q in own { assert KeyOk(home, t, q); } else { assert Bystander(s, t, q); BlockedStays(s, t, q); }
    }
  }

  lemma AroundEvolves(s: State, t: State, own: set<RecordKey>)
    requires Around(s, t, own)
    requires forall q :: q in own && Announcing(s.j, q) ==> Stands(s.j, t.j, q)
    ensures Evolves(s, t)
  {
    forall q | Announcing(s.j, q) ensures Stands(s.j, t.j, q) {
      if q !in own { assert Bystander(s, t, q); }
    }
  }

  lemma HistoryStays(s: State, t: State)
    requires Calm(s, t)
    ensures HistoryOk(s) ==> HistoryOk(t)
    ensures CacheOk(s) ==> CacheOk(t)
  {
  }

  /** Jobs whose keys no step touches: the cancellations, the parked tasks, the operator's calls and the admissions. */
  ghost predicate JobsAlike(s: State, t: State) {
    && Calm(s, t)
    && (forall u :: u in t.cancels ==> u in s.cancels && t.cancels[u] == s.cancels[u])
    && (forall u :: u in t.interrupted ==> u in s.interrupted && t.interrupted[u] == s.interrupted[u])
    && (forall q :: q in t.resolving ==> q in s.resolving && t.resolving[q] <= s.resolving[q])
    && (forall q :: q in t.reserved && q !in s.reserved ==>
        q !in s.j.messages && q in t.j.messages && q.messageId != "")
    && (forall q :: q in t.attempts && q !in s.attempts ==> q in s.reserved && q !in t.reserved)
    && s.acks <= t.acks
  }

  /** Every key in use has its tombstone, and no two uses overlap. */
  ghost predicate Known(s: State) {
    && (forall q :: q in s.attempts ==> q in s.j.messages && q !in s.resolving && q !in s.reserved)
    && (forall q :: q in s.j.executions ==> q in s.j.messages)
    && (forall q :: q in s.sent ==> q in s.j.messages)
    && (forall q :: q in s.resolving ==> q in s.j.messages)
  }

  lemma AllKnown(home: Home, s: State)
    requires Inv(home, s)
    ensures Known(s)
  {
    forall q ensures q in s.attempts ==> q in s.j.messages && q !in s.resolving && q !in s.reserved
             ensures q in s.j.executions ==> q in s.j.messages
             ensures q in s.sent ==> q in s.j.messages
             ensures q in s.resolving ==> q in s.j.messages {
      if q in s.attempts { assert AttemptOk(home, s, q); }
      if q in s.j.executions { assert RecordOk(home, s.j, s.j.executions[q]); }
      if q in s.sent { assert SentOk(s, q); }
      if q in s.resolving { assert ResolvingOk(home, s, q); }
    }
  }

  /** Every record but those of some attempts is kept. */
  ghost predicate KeptBut(j: Journal, later: Journal, own: set<RecordKey>) {
    forall q :: q !in own ==> Kept(j, later, q)
  }

  lemma JobsStay(home: Home, s: State, t: State, own: set<RecordKey>)
    requires Inv(home, s) && JobsAlike(s, t) && KeptBut(s.j, t.j, own)
    requires forall q :: q in own ==> q in s.attempts
    ensures AllCancels(home, t) && AllParked(t) && AllResolving(home, t) && AllReserved(t)
    ensures Apart(t)
  {
    AllKnown(home, s);
    hide JournalOk, LifeOk, ClosingOk, HistoryOk, CacheOk, AllAttempts, AllSent, AllBlocked, AllRecords, AllCancels,
         AllParked, AllResolving;
    StayCancels(home, s, t, own);
    StayParked(s, t, own);
    StayResolving(home, s, t, own);
    StayReserved(s, t, own);
  }

  lemma StayCancels(home: Home, s: State, t: State, own: set<RecordKey>)
    requires AllCancels(home, s) && Known(s) && JobsAlike(s, t) && KeptBut(s.j, t.j, own)
    requires forall q :: q in own ==> q in s.attempts
    ensures AllCancels(home, t)
  {
    forall u | u in t.cancels ensures CancelOk(home, t, u) { assert CancelOk(home, s, u); }
  }

  lemma StayParked(s: State, t: State, own: set<RecordKey>)
    requires AllParked(s) && Known(s) && JobsAlike(s, t) && KeptBut(s.j, t.j, own)
    requires forall q :: q in own ==> q in s.attempts
    ensures AllParked(t)
  {
    forall u | u in t.interrupted ensures ParkedOk(t, u) { assert ParkedOk(s, u); }
  }

  lemma StayResolving(home: Home, s: State, t: State, own: set<RecordKey>)
    requires AllResolving(home, s) && Known(s) && JobsAlike(s, t) && KeptBut(s.j, t.j, own)
    requires forall q :: q in own ==> q in s.attempts
    ensures AllResolving(home, t)
  {
    forall q | q in t.resolving ensures ResolvingOk(home, t, q) { assert ResolvingOk(home, s, q); }
  }

  lemma StayReserved(s: State, t: State, own: set<RecordKey>)
    requires AllReserved(s) && Known(s) && JobsAlike(s, t) && KeptBut(s.j, t.j, own)
    requires forall q :: q in own ==> q in s.attempts
    ensures AllReserved(t)
    ensures Apart(t)
  {
  }

  /** What a step must show of the process as a whole. */
  ghost predicate WholeOk(home: Home, s: State, t: State) {
    && JobsAlike(s, t) && LifeOk(t) && ClosingOk(t) && AllRecords(t)
  }

  ghost predicate JobsOk(home: Home, s: State) {
    AllCancels(home, s) && AllParked(s) && AllResolving(home, s) && AllReserved(s) && Apart(s)
  }

  /** A step of the process keeps the invariant if it leaves every key but its own alone. */
  lemma Remains(home: Home, s: State, t: State, own: set<RecordKey>)
    requires Inv(home, s) && Around(s, t, own)
    requires forall q :: q in own ==> KeyOk(home, t, q)
    requires LifeOk(t) && ClosingOk(t) && AllRecords(t) && JobsOk(home, t) && JournalOk(home, t.j)
    ensures Inv(home, t)
  {
    hide JournalOk, LifeOk, ClosingOk, AllRecords, AllCancels, AllParked, AllResolving, AllReserved, AllAttempts,
         AllSent, AllBlocked, HistoryOk, CacheOk, Around, KeyOk, Apart;
    AroundKeeps(home, s, t, own);
  }

  lemma Finishes(home: Home, s: State, t: State, own: set<RecordKey>)
    requires Inv(home, s) && Around(s, t, own)
    requires forall q :: q in own ==> KeyOk(home, t, q)
    requires forall q :: q in own && Announcing(s.j, q) ==> Stands(s.j, t.j, q)
    requires LifeOk(t) && ClosingOk(t) && AllRecords(t) && JobsOk(home, t) && JournalOk(home, t.j)
    ensures Safely(home, s, t)
  {
    AroundEvolves(s, t, own);
    hide Inv, Evolves, Around, KeyOk, Announcing, Stands, LifeOk, ClosingOk, AllRecords, JobsOk, JournalOk;
    Remains(home, s, t, own);
  }

  /** The common case: the step rewrites no record but those of attempts. */
  lemma Passes(home: Home, s: State, t: State, own: set<RecordKey>)
    requires Inv(home, s) && Around(s, t, own) && WholeOk(home, s, t)
    requires forall q :: q in own ==> KeyOk(home, t, q) && (q in s.attempts || Kept(s.j, t.j, q))
    requires forall q :: q in own && Announcing(s.j, q) ==> Stands(s.j, t.j, q)
    requires JournalOk(home, s.j) ==> JournalOk(home, t.j)
    ensures Safely(home, s, t)
  {
    JournalOf(home, s);
    var mine := set q | q in own && q in s.attempts;
    AroundKept(s, t, own, mine);
    hide Inv, JournalOk, KeyOk, Around, KeptBut, Kept, Announcing, Stands;
    JobsStay(home, s, t, mine);
    Finishes(home, s, t, own);
  }

  lemma AroundKept(s: State, t: State, own: set<RecordKey>, mine: set<RecordKey>)
    requires Around(s, t, own)
    requires forall q :: q in own ==> q in mine || Kept(s.j, t.j, q)
    ensures KeptBut(s.j, t.j, mine)
  {
    hide Kept, Calm;
    forall q | q !in mine ensures Kept(s.j, t.j, q) {
      if q !in own { assert Bystander(s, t, q); }
    }
  }

  // ----- handler tokens -----

  /** Only tokens, admissions and what the close reported change. */
  ghost predicate Tokens(s: State, t: State) {
    && t == s.(pending := t.pending, reserved := t.reserved, closed := t.closed, requestsDone := t.requestsDone,
               verdict := t.verdict)
    && (forall k :: k in t.reserved ==> k in s.reserved)
  }

  lemma TokensKeep(home: Home, s: State, t: State)
    requires Inv(home, s) && s.life.Attached? && ClosingOk(t) && Tokens(s, t)
    ensures Safely(home, s, t)
  {
    TokensWhole(home, s, t);
    hide *;
    Passes(home, s, t, {});
  }

  lemma TokensWhole(home: Home, s: State, t: State)
    requires Inv(home, s) && s.life.Attached? && ClosingOk(t) && Tokens(s, t)
    ensures WholeOk(home, s, t) && Around(s, t, {}) && t.j == s.j
  {
    hide JournalOk, RecordsOk, ClosingOk, HistoryOk, CacheOk, AllAttempts, AllSent, AllBlocked, AllCancels,
         AllParked, AllResolving, AllReserved;
    forall q | q in t.j.executions ensures RecordsOk(t, q) { SameRecords(s, t, q); }
  }

  lemma SameRecords(s: State, t: State, q: RecordKey)
    requires Tokens(s, t) && q in s.j.executions && RecordsOk(s, q)
    ensures RecordsOk(t, q)
  {
  }

  lemma EnterKeeps(home: Home, s: State, call: nat)
    requires Inv(home, s)
    ensures Safely(home, s, DoEnter(s, call))
  {
    NothingSafely(home, s);
    if DoEnter(s, call) != s { TokensKeep(home, s, DoEnter(s, call)); }
  }

  lemma LeaveKeeps(home: Home, s: State, call: nat)
    requires Inv(home, s)
    ensures Safely(home, s, DoLeave(s, call))
  {
    NothingSafely(home, s);
    if DoLeave(s, call) != s { TokensKeep(home, s, DoLeave(s, call)); }
  }

  /** The second token is taken while the first is held, so a quiet set of tokens stays quiet. */
  lemma HandOverKeeps(home: Home, s: State, call: nat, next: nat)
    requires Inv(home, s)
    ensures Safely(home, s, DoHandOver(s, call, next))
  {
    NothingSafely(home, s);
    if DoHandOver(s, call, next) != s { TokensKeep(home, s, DoHandOver(s, call, next)); }
  }

  lemma CloseKeeps(home: Home, s: State)
    requires Inv(home, s)
    ensures Safely(home, s, DoClose(s))
  {
    NothingSafely(home, s);
    if Live(s) { TokensKeep(home, s, DoClose(s)); }
  }

  lemma ReportRequestsKeeps(home: Home, s: State)
    requires Inv(home, s)
    ensures Safely(home, s, DoReportRequests(s))
  {
    NothingSafely(home, s);
    if DoReportRequests(s) != s { TokensKeep(home, s, DoReportRequests(s)); }
  }

  /** With nothing running and nothing reported, what is not done has nobody left to account for it. */
  lemma FinalDrainKeeps(home: Home, s: State)
    requires Inv(home, s)
    ensures Safely(home, s, DoFinalDrain(s))
  {
    NothingSafely(home, s);
    var t := DoFinalDrain(s);
    if t != s {
      if t.verdict == Some(true) {
        forall k | k in s.j.executions ensures s.j.executions[k].phase.Done? { assert RecordsOk(s, k); }
      }
      TokensKeep(home, s, t);
    }
  }

  // ----- admission -----

  lemma ReserveAround(s: State, k: RecordKey, call: nat, now: int)
    requires ReserveMessage(s.lim, s.j, k, now).Ok? && k.messageId != ""
    ensures var t := s.(j := ReserveMessage(s.lim, s.j, k, now).value, reserved := s.reserved[k := call]);
      JobsAlike(s, t) && Around(s, t, {})
  {
  }

  lemma ReserveWhole(home: Home, s: State, k: RecordKey, call: nat, now: int)
    requires Inv(home, s) && Live(s) && !s.closed && ReserveMessage(s.lim, s.j, k, now).Ok? && k.messageId != ""
    ensures var t := s.(j := ReserveMessage(s.lim, s.j, k, now).value, reserved := s.reserved[k := call]);
      WholeOk(home, s, t) && Around(s, t, {})
  {
    ReserveAround(s, k, call, now);
    hide JournalOk, HistoryOk, CacheOk, AllAttempts, AllSent, AllBlocked, AllCancels, AllParked, AllResolving,
         AllReserved, JobsAlike, Around;
    var t := s.(j := ReserveMessage(s.lim, s.j, k, now).value, reserved := s.reserved[k := call]);
    forall q | q in t.j.executions ensures RecordsOk(t, q) { assert RecordsOk(s, q); }
  }

  /** A tombstone is new, so nothing else knows its message. */
  lemma ReserveStepKeeps(home: Home, s: State, k: RecordKey, call: nat, now: int)
    requires Inv(home, s)
    ensures Safely(home, s, DoReserve(s, k, call, now))
  {
    hide Inv, JournalOk, ReserveMessage;
    NothingSafely(home, s);
    var t := DoReserve(s, k, call, now);
    if t != s {
      JournalOf(home, s);
      ReserveKeeps(home, s.lim, s.j, k, now);
      ReserveWhole(home, s, k, call, now);
      hide *;
      Passes(home, s, t, {});
    }
  }

  /** The request starts, or is refused at a closed bridge or for an active task. */
  ghost predicate Executes(home: Home, s: State, t: State, k: RecordKey, c: ContextKey, taskId: string) {
    && k in s.reserved
    && t == s.(reserved := t.reserved, attempts := t.attempts, interrupted := t.interrupted, failures := t.failures)
    && (forall q :: q in t.reserved <==> q in s.reserved && q != k)
    && (forall q :: q in t.reserved ==> t.reserved[q] == s.reserved[q])
    && (forall u :: u in t.interrupted ==> u in s.interrupted && t.interrupted[u] == s.interrupted[u])
    && s.failures <= t.failures
    && (t.attempts == s.attempts
        || (t.attempts == s.attempts[k := Attempt(c, taskId, Accepting)] && taskId != ""
            && c.contextId != "" && c.owner == k.owner && c.tenant == k.tenant
            && home(TaskKey(k.tenant, k.owner, taskId)) == c.contextId))
  }

  lemma ExecuteWhole(home: Home, s: State, t: State, k: RecordKey, c: ContextKey, taskId: string)
    requires Inv(home, s) && Live(s) && Executes(home, s, t, k, c, taskId) && s.verdict != Some(true)
    ensures WholeOk(home, s, t)
  {
    hide JournalOk, HistoryOk, CacheOk, AllAttempts, AllSent, AllBlocked, AllCancels, AllParked, AllResolving,
         RecordsOk, Executes;
    ExecuteJobs(home, s, t, k, c, taskId);
    forall q | q in t.j.executions ensures RecordsOk(t, q) { ExecuteRecord(home, s, t, k, c, taskId, q); }
  }

  lemma ExecuteRecord(home: Home, s: State, t: State, k: RecordKey, c: ContextKey, taskId: string, q: RecordKey)
    requires Executes(home, s, t, k, c, taskId) && q in t.j.executions
    requires q in s.j.executions ==> RecordsOk(s, q)
    ensures RecordsOk(t, q)
  {
  }

  lemma ExecuteJobs(home: Home, s: State, t: State, k: RecordKey, c: ContextKey, taskId: string)
    requires Live(s) && Executes(home, s, t, k, c, taskId) && s.verdict != Some(true)
    requires LifeOk(s) && ClosingOk(s) && AllReserved(s)
    ensures JobsAlike(s, t) && LifeOk(t) && ClosingOk(t) && t.j == s.j
  {
  }

  lemma ExecuteAround(home: Home, s: State, t: State, k: RecordKey, c: ContextKey, taskId: string)
    requires AllReserved(s) && AllAttempts(home, s) && Live(s) && Executes(home, s, t, k, c, taskId)
    ensures Around(s, t, {k}) && KeyOk(home, t, k)
  {
    hide AttemptOk, Around, AllAttempts;
    ExecuteKey(home, s, t, k, c, taskId);
    ExecuteCalm(home, s, t, k, c, taskId);
  }

  lemma ExecuteKey(home: Home, s: State, t: State, k: RecordKey, c: ContextKey, taskId: string)
    requires AllReserved(s) && AllAttempts(home, s) && Live(s) && Executes(home, s, t, k, c, taskId)
    ensures KeyOk(home, t, k) && k !in s.attempts
  {
  }

  lemma ExecuteCalm(home: Home, s: State, t: State, k: RecordKey, c: ContextKey, taskId: string)
    requires k !in s.attempts && Executes(home, s, t, k, c, taskId)
    ensures Around(s, t, {k})
  {
  }

  lemma ExecuteShape(home: Home, s: State, k: RecordKey, contextId: string, taskId: string)
    ensures var t := DoExecute(home, s, k, contextId, taskId);
      t == s || (Executes(home, s, t, k, ContextKey(k.owner, k.tenant, contextId), taskId)
                 && Live(s) && k in s.reserved && s.reserved[k] in s.pending && t.j == s.j)
  {
    hide Executes, Active;
    var c := ContextKey(k.owner, k.tenant, contextId);
    var t := DoExecute(home, s, k, contextId, taskId);
    var rest := map q | q in s.reserved && q != k :: s.reserved[q];
    if t != s {
      ExecuteParts(home, s, k, c, taskId, rest, s.attempts, s.interrupted, s.failures);
      ExecuteParts(home, s, k, c, taskId, rest, s.attempts, s.interrupted, s.failures + {c});
      ExecuteParts(home, s, k, c, taskId, rest, s.attempts[k := Attempt(c, taskId, Accepting)],
                   map u | u in s.interrupted && u != taskId :: s.interrupted[u], s.failures);
    }
  }

  lemma ExecuteParts(home: Home, s: State, k: RecordKey, c: ContextKey, taskId: string, reserved: map<RecordKey, nat>,
                     attempts: map<RecordKey, Attempt>, interrupted: map<string, Parked>, failures: set<ContextKey>)
    requires k in s.reserved && reserved == map q | q in s.reserved && q != k :: s.reserved[q]
    requires attempts == s.attempts || (attempts == s.attempts[k := Attempt(c, taskId, Accepting)]
      && taskId != "" && c.contextId != "" && c.owner == k.owner && c.tenant == k.tenant
      && home(TaskKey(k.tenant, k.owner, taskId)) == c.contextId)
    requires forall u :: u in interrupted ==> u in s.interrupted && interrupted[u] == s.interrupted[u]
    requires s.failures <= failures
    ensures Executes(home, s, s.(reserved := reserved, attempts := attempts, interrupted := interrupted,
                                 failures := failures),
                     k, c, taskId)
  {
  }

  lemma ExecuteStepKeeps(home: Home, s: State, k: RecordKey, contextId: string, taskId: string)
    requires Inv(home, s)
    ensures Safely(home, s, DoExecute(home, s, k, contextId, taskId))
  {
    NothingSafely(home, s);
    var t := DoExecute(home, s, k, contextId, taskId);
    var c := ContextKey(k.owner, k.tenant, contextId);
    ExecuteShape(home, s, k, contextId, taskId);
    hide JournalOk, LifeOk, AllRecords, AllCancels, AllParked, AllResolving, AllReserved, AllAttempts, AllSent,
         AllBlocked, HistoryOk, CacheOk, DoExecute, Executes;
    if t != s {
      ExecuteWhole(home, s, t, k, c, taskId);
      ExecuteAround(home, s, t, k, c, taskId);
      SameKept(s, t, k);
      hide *;
      Passes(home, s, t, {k});
    }
  }

  lemma SameKept(s: State, t: State, k: RecordKey)
    requires t.j == s.j
    ensures Kept(s.j, t.j, k)
  {
  }

  lemma AcceptShape(lim: Limits, j: Journal, k: RecordKey, task: Task, artifactId: string, now: int)
    requires Accept(lim, j, k, task, artifactId, now).Ok?
    ensures var later := Accept(lim, j, k, task, artifactId, now).value;
      && OwnJournal(j, later, k) && later.mappings == j.mappings
      && k in later.executions && later.executions[k] == NewRecord(k, task.contextId, task.id, artifactId, now)
  {
  }

  lemma AcceptPoint(home: Home, s: State, t: State, k: RecordKey)
    requires OwnOk(home, s, k) && s.attempts[k].pc.Accepting?
    requires t == Move(s.(j := t.j), k, Admitted) && k in t.j.executions && t.j.executions[k].id == k
    requires t.j.executions[k].taskId == s.attempts[k].taskId && t.j.executions[k].contextKey == s.attempts[k].context
    requires t.j.executions[k].phase.Accepted? && !t.j.executions[k].publication && !t.j.executions[k].stopped
    ensures PointOk(home, t, k) && k !in s.sent
  {
    hide JournalOk, Blocked, SentOk;
  }

  lemma AcceptSound(home: Home, s: State, k: RecordKey, task: Task, artifactId: string, now: int)
    requires OwnOk(home, s, k) && artifactId != "" && JournalOk(home, s.j) && s.j.version == Some(1)
    requires task.id == s.attempts[k].taskId && task.contextId == s.attempts[k].context.contextId
    requires Accept(s.lim, s.j, k, task, artifactId, now).Ok?
    ensures JournalOk(home, Accept(s.lim, s.j, k, task, artifactId, now).value)
    ensures ContextKey(k.owner, k.tenant, task.contextId) == s.attempts[k].context
  {
    hide JournalOk, PcOk, Blocked, SentOk, Accept;
    AcceptKeeps(home, s.lim, s.j, k, task, artifactId, now);
  }

  lemma AcceptKeepsOk(home: Home, s: State, k: RecordKey, task: Task, artifactId: string, now: int)
    requires Inv(home, s) && At(s, k) && s.attempts[k].pc.Accepting? && artifactId != ""
    requires task.id == s.attempts[k].taskId && task.contextId == s.attempts[k].context.contextId
    requires Accept(s.lim, s.j, k, task, artifactId, now).Ok?
    ensures Safely(home, s, Move(s.(j := Accept(s.lim, s.j, k, task, artifactId, now).value), k, Admitted))
  {
    var j := Accept(s.lim, s.j, k, task, artifactId, now).value;
    var t := Move(s.(j := j), k, Admitted);
    JournalOf(home, s);
    AcceptShape(s.lim, s.j, k, task, artifactId, now);
    hide Inv, JournalOk, Accept, OwnJournal, PointOk, OwnOk, SentOk, Step;
    OwnOf(home, s, k);
    AcceptSound(home, s, k, task, artifactId, now);
    AcceptPoint(home, s, t, k);
    Write(home, s, k, j, Admitted);
    Glue(home, s, t, k);
  }

  // ----- the end of an attempt -----

  /** An attempt may end once its input is fenced by the runner and its record is settled or reported. */
  ghost predicate Gone(s: State, t: State, k: RecordKey) {
    && At(s, k) && s.failures <= t.failures
    && t == Drop(s, k).(failures := t.failures)
    && !Holds(s.attempts[k].pc)
    && (k in s.sent ==> Safe(s, k) || s.attempts[k].context in s.quarantine)
    && (k in s.j.executions ==>
          s.j.executions[k].phase.Done? || s.j.executions[k].phase.Unresolved?
            || s.j.executions[k].contextKey in t.failures)
  }

  lemma GoneWhole(home: Home, s: State, t: State, k: RecordKey)
    requires Inv(home, s) && Gone(s, t, k)
    ensures WholeOk(home, s, t) && t.j == s.j
  {
    assert s.attempts != map[];
    GoneAlike(s, t, k);
    hide JobsAlike, JournalOk, RecordsOk, HistoryOk, CacheOk, AllAttempts, AllSent, AllBlocked, AllCancels,
         AllParked, AllResolving, AllReserved;
    forall q | q in t.j.executions ensures RecordsOk(t, q) { GoneRecord(s, t, k, q); }
  }

  lemma GoneAlike(s: State, t: State, k: RecordKey)
    requires Gone(s, t, k)
    ensures JobsAlike(s, t)
  {
  }

  lemma GoneRecord(s: State, t: State, k: RecordKey, q: RecordKey)
    requires Gone(s, t, k) && q in s.j.executions && RecordsOk(s, q)
    ensures RecordsOk(t, q)
  {
  }

  lemma GoneAround(home: Home, s: State, t: State, k: RecordKey)
    requires Gone(s, t, k) && AllSent(s) && AttemptOk(home, s, k)
    ensures Around(s, t, {k}) && KeyOk(home, t, k)
  {
    hide JournalOk, PcOk;
  }

  lemma GoneKeeps(home: Home, s: State, t: State, k: RecordKey)
    requires Inv(home, s) && Gone(s, t, k)
    ensures Safely(home, s, t)
  {
    assert AttemptOk(home, s, k);
    hide JournalOk, LifeOk, ClosingOk, AllRecords, AllCancels, AllParked, AllResolving, AllReserved, AllSent,
         AllBlocked, HistoryOk, CacheOk, AttemptOk;
    GoneWhole(home, s, t, k);
    GoneAround(home, s, t, k);
    hide *;
    Passes(home, s, t, {k});
  }

  lemma AcceptGone(home: Home, s: State, k: RecordKey)
    requires At(s, k) && AttemptOk(home, s, k) && s.attempts[k].pc.Accepting?
    ensures Gone(s, Drop(s, k), k)
  {
  }

  lemma AcceptStepKeeps(home: Home, s: State, k: RecordKey, task: Task, artifactId: string, now: int)
    requires Inv(home, s)
    ensures Safely(home, s, DoAccept(s, k, task, artifactId, now))
  {
    hide JournalOk, LifeOk, ClosingOk, AllRecords, AllCancels, AllParked, AllResolving, AllReserved, AllSent,
         AllBlocked, HistoryOk, CacheOk, AttemptOk, Accept, Drop, Gone;
    NothingSafely(home, s);
    if DoAccept(s, k, task, artifactId, now) != s {
      if Accept(s.lim, s.j, k, task, artifactId, now).Ok? {
        AcceptKeepsOk(home, s, k, task, artifactId, now);
      } else {
        assert AttemptOk(home, s, k);
        AcceptGone(home, s, k);
        GoneKeeps(home, s, Drop(s, k), k);
      }
    }
  }

  /** Past the turn, the input of an attempt is known to have stopped or its context is quarantined. */
  lemma BrokenKeeps(home: Home, s: State, k: RecordKey)
    requires Inv(home, s) && At(s, k)
    requires s.attempts[k].pc.Settled? || s.attempts[k].pc.Reducing? || s.attempts[k].pc.Announced?
    ensures Safely(home, s, Broken(s, k))
  {
    assert AttemptOk(home, s, k);
    BrokenGone(home, s, k);
    hide *;
    GoneKeeps(home, s, Broken(s, k), k);
  }

  lemma BrokenGone(home: Home, s: State, k: RecordKey)
    requires At(s, k) && AttemptOk(home, s, k)
    requires s.attempts[k].pc.Settled? || s.attempts[k].pc.Reducing? || s.attempts[k].pc.Announced?
    ensures Gone(s, Broken(s, k), k)
  {
  }

  lemma ConcludeStepKeeps(home: Home, s: State, k: RecordKey, aborted: bool, text: Option<Artifact>, stamp: Stamp)
    requires Inv(home, s)
    ensures Safely(home, s, DoConclude(s, k, aborted, text, stamp))
  {
    hide Inv, Concluding, Broken;
    NothingSafely(home, s);
    if At(s, k) && s.attempts[k].pc.Settled? {
      if Concluding(s, k, aborted, text, stamp).Some? {
        ConcludeKeeps(home, s, k, aborted, text, stamp);
      } else {
        BrokenKeeps(home, s, k);
      }
    }
  }

  lemma PublishStepKeeps(home: Home, s: State, k: RecordKey, now: int)
    requires Inv(home, s)
    ensures Safely(home, s, DoPublish(s, k, now))
  {
    hide Inv, CommitPublication, Broken;
    NothingSafely(home, s);
    if At(s, k) && s.attempts[k].pc.Reducing? {
      if CommitPublication(s.lim, s.j, s.attempts[k].pc.marked, s.attempts[k].pc.snapshot, now).Ok? {
        PublishKeeps(home, s, k, now);
      } else {
        BrokenKeeps(home, s, k);
      }
    }
  }

  lemma WaitPublishedKeeps(home: Home, s: State, k: RecordKey)
    requires Inv(home, s)
    ensures Safely(home, s, DoWaitPublished(s, k))
  {
    hide Inv, Broken;
    NothingSafely(home, s);
    if At(s, k) && s.attempts[k].pc.Announced? {
      if k !in s.j.executions || s.j.executions[k].taskId != s.attempts[k].taskId {
        BrokenKeeps(home, s, k);
      } else if s.j.executions[k].phase.Publishing? {
        AckKeeps(home, s, k, s.acks + {k}, Awaiting(s.attempts[k].pc.state));
      } else {
        AckKeeps(home, s, k, s.acks, Acknowledged(s.attempts[k].pc.state));
        assert s.(acks := s.acks) == s;
      }
    }
  }

  lemma FinishGone(home: Home, s: State, k: RecordKey)
    requires At(s, k) && AttemptOk(home, s, k) && s.attempts[k].pc.Acknowledged?
    ensures Gone(s, Drop(s, k), k)
    ensures Interrupted(s.attempts[k].pc.state) ==> k in s.stops
    ensures k in s.j.executions ==> s.j.executions[k].phase.Done? || s.j.executions[k].phase.Unresolved?
    ensures k in s.j.messages && k !in s.reserved && k !in s.resolving
  {
  }

  lemma AttemptOf(home: Home, s: State, k: RecordKey)
    requires Inv(home, s) && k in s.attempts
    ensures AttemptOk(home, s, k)
  {
    hide AttemptOk;
  }

  /** The attempt leaves and its task is parked, in one step. */
  lemma FinishParks(home: Home, s: State, k: RecordKey)
    requires At(s, k) && s.attempts[k].pc.Acknowledged? && k in s.stops && Safely(home, s, Drop(s, k))
    requires k in s.j.messages && k !in s.reserved && k !in s.resolving
    requires k in s.j.executions ==> s.j.executions[k].phase.Done? || s.j.executions[k].phase.Unresolved?
    requires forall u :: u in s.cancels ==> s.cancels[u].key != k
    requires forall u :: u in s.interrupted ==> s.interrupted[u].key != k
    ensures var a := s.attempts[k];
      Safely(home, s, Drop(s, k).(interrupted := s.interrupted[a.taskId := Parked(k, a.context)]))
  {
    var a, t := s.attempts[k], Drop(s, k);
    hide Inv, Evolves;
    ParkKeeps(home, t, a.taskId, Parked(k, a.context));
    EvolvesPark(s, t, t.(interrupted := s.interrupted[a.taskId := Parked(k, a.context)]));
  }

  lemma EvolvesPark(s: State, t: State, u: State)
    requires Evolves(s, t) && u == t.(interrupted := u.interrupted)
    ensures Evolves(s, u)
  {
  }

  /** An interrupted task is parked only with its stop confirmed. */
  lemma ParkKeeps(home: Home, s: State, taskId: string, p: Parked)
    requires Inv(home, s) && s.life.Attached?
    requires p.key in s.j.messages && p.key in s.stops
    requires p.key !in s.attempts && p.key !in s.reserved && p.key !in s.resolving
    requires p.key in s.j.executions ==> s.j.executions[p.key].phase.Done? || s.j.executions[p.key].phase.Unresolved?
    requires forall u :: u in s.cancels ==> s.cancels[u].key != p.key
    requires forall u :: u in s.interrupted ==> s.interrupted[u].key != p.key
    ensures Safely(home, s, s.(interrupted := s.interrupted[taskId := p]))
  {
    var t := s.(interrupted := s.interrupted[taskId := p]);
    ParkRest(home, s, t);
    hide Evolves, JournalOk, LifeOk, ClosingOk, AllRecords, AllCancels, AllResolving, AllReserved, AllAttempts,
         AllSent, AllBlocked, HistoryOk, CacheOk, ParkedOk;
    forall u | u in t.interrupted ensures ParkedOk(t, u) {
      ParkOne(s, t, taskId, p, u);
    }
  }

  lemma ParkOne(s: State, t: State, taskId: string, p: Parked, u: string)
    requires t == s.(interrupted := s.interrupted[taskId := p]) && u in t.interrupted
    requires p.key in s.j.messages && p.key in s.stops
    requires p.key !in s.attempts && p.key !in s.reserved && p.key !in s.resolving
    requires p.key in s.j.executions ==> s.j.executions[p.key].phase.Done? || s.j.executions[p.key].phase.Unresolved?
    requires forall v :: v in s.cancels ==> s.cancels[v].key != p.key
    requires forall v :: v in s.interrupted ==> s.interrupted[v].key != p.key
    requires u in s.interrupted ==> ParkedOk(s, u)
    ensures ParkedOk(t, u)
  {
  }

  lemma ParkRest(home: Home, s: State, t: State)
    requires Inv(home, s) && s.life.Attached? && t == s.(interrupted := t.interrupted)
    ensures JournalOk(home, t.j) && LifeOk(t) && HistoryOk(t) && CacheOk(t) && ClosingOk(t)
    ensures AllRecords(t) && AllSent(t) && AllBlocked(t) && AllAttempts(home, t)
    ensures AllCancels(home, t) && AllResolving(home, t) && AllReserved(t) && Evolves(s, t)
  {
    JournalOf(home, s);
    ParkEvolves(s, t);
    hide Evolves, JournalOk, ResolvingOk, CancelOk, RecordsOk, AttemptOk, SentOk, Blocked;
    ParkKeys(home, s, t);
  }

  lemma ParkEvolves(s: State, t: State)
    requires t == s.(interrupted := t.interrupted)
    ensures Evolves(s, t)
  {
  }

  lemma ParkKeys(home: Home, s: State, t: State)
    requires t == s.(interrupted := t.interrupted)
    ensures forall q :: q in s.attempts && AttemptOk(home, s, q) ==> AttemptOk(home, t, q)
    ensures forall q :: q in s.sent && SentOk(s, q) ==> SentOk(t, q)
    ensures forall q :: q in s.sent && Blocked(s, q) ==> Blocked(t, q)
    ensures forall q :: q in s.j.executions && RecordsOk(s, q) ==> RecordsOk(t, q)
    ensures forall u :: u in s.cancels && CancelOk(home, s, u) ==> CancelOk(home, t, u)
    ensures forall q :: q in s.resolving && ResolvingOk(home, s, q) ==> ResolvingOk(home, t, q)
  {
    forall q | q in s.attempts && AttemptOk(home, s, q) ensures AttemptOk(home, t, q) {
      StayUnsent(s, t, q); StayInTurn(s, t, q); StayAfter(home, s, t, q);
    }
  }

  lemma FinishKeeps(home: Home, s: State, k: RecordKey)
    requires Inv(home, s)
    ensures Safely(home, s, DoFinish(s, k))
  {
    NothingSafely(home, s);
    if At(s, k) && s.attempts[k].pc.Acknowledged? {
      hide Inv, Safely;
      AttemptOf(home, s, k);
      FinishGone(home, s, k);
      FinishOthers(home, s, k);
      hide AttemptOk, Gone;
      GoneKeeps(home, s, Drop(s, k), k);
      if Interrupted(s.attempts[k].pc.state) { FinishParks(home, s, k); }
    }
  }

  lemma FinishOthers(home: Home, s: State, k: RecordKey)
    requires Inv(home, s) && k in s.attempts
    ensures forall u :: u in s.cancels ==> s.cancels[u].key != k
    ensures forall u :: u in s.interrupted ==> s.interrupted[u].key != k
  {
    hide JournalOk, AttemptOk, SentOk, Blocked, RecordsOk;
    forall u | u in s.cancels ensures s.cancels[u].key != k { assert CancelOk(home, s, u); }
    forall u | u in s.interrupted ensures s.interrupted[u].key != k { assert ParkedOk(s, u); }
  }
}
