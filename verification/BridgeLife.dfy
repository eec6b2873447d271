/** The operator, retention, and the life of the process; then every step, and every run. */
module BridgeLife {
  import opened Prelude
  import opened A2A
  import opened Journal
  import opened JournalProofs
  import opened Bridge
  import opened BridgeInvariant
  import opened BridgeSteps
  import opened BridgeHooks
  import opened BridgeProcess
  import opened BridgeSaves
  import opened BridgeCancels

  // ----- operator -----

  lemma ResolutionOk(home: Home, s: State, k: RecordKey, v: Verdict, stamp: Stamp)
    requires JournalOk(home, s.j) && AllSent(s)
    requires ReadResolution(s.j, k, v, stamp).Ok?
    requires k in s.resolving ==> ResolvingOk(home, s, k)
    ensures ResolvingOk(home, s.(resolving :=
                                 s.resolving[k := Calls(s, k) + multiset{ReadResolution(s.j, k, v, stamp).value}]), k)
  {
    var read := ReadResolution(s.j, k, v, stamp).value;
    var t := s.(resolving := s.resolving[k := Calls(s, k) + multiset{read}]);
    ReadTells(home, s, k, v, stamp);
    hide ReadResolution, JournalOk, AllSent, HeldStatic, TaskOk;
    forall x | x in t.resolving[k] ensures ReadOk(home, t, k, x) { ReadStays(home, s, t, k, x); }
  }

  lemma ReadStays(home: Home, s: State, t: State, k: RecordKey, x: Reading)
    requires t == s.(resolving := t.resolving) && ReadOk(home, s, k, x)
    ensures ReadOk(home, t, k, x)
  {
  }

  lemma ReadTells(home: Home, s: State, k: RecordKey, v: Verdict, stamp: Stamp)
    requires JournalOk(home, s.j) && AllSent(s)
    requires ReadResolution(s.j, k, v, stamp).Ok?
    ensures ReadOk(home, s, k, ReadResolution(s.j, k, v, stamp).value)
    ensures k in s.j.messages && k in s.j.executions && s.j.executions[k].phase.Unresolved?
  {
    assert RecordOk(home, s.j, s.j.executions[k]);
    if k in s.sent { assert SentOk(s, k); }
  }

  lemma ResolveWhole(home: Home, s: State, t: State, k: RecordKey)
    requires Inv(home, s) && s.life.Detached? && k in t.resolving
      && t == s.(resolving := s.resolving[k := t.resolving[k]])
    ensures LifeOk(t) && ClosingOk(t) && AllRecords(t) && Around(s, t, {})
  {
    hide JournalOk, HistoryOk, CacheOk, AllAttempts, AllSent, AllBlocked, AllCancels, AllParked, AllResolving,
         AllReserved;
    forall q | q in t.j.executions ensures RecordsOk(t, q) { assert RecordsOk(s, q); }
  }

  lemma ResolveJobs(home: Home, s: State, t: State, k: RecordKey)
    requires AllResolving(home, s) && LifeOk(s) && s.life.Detached? && k in t.resolving
      && t == s.(resolving := s.resolving[k := t.resolving[k]])
    requires ResolvingOk(home, t, k)
    ensures JobsOk(home, t)
  {
    forall q | q in t.resolving ensures ResolvingOk(home, t, q) {
      if q != k { assert ResolvingOk(home, s, q); }
    }
  }

  lemma ResolveKeeps(home: Home, s: State, k: RecordKey, v: Verdict, stamp: Stamp)
    requires Inv(home, s)
    ensures Safely(home, s, DoResolve(s, k, v, stamp))
  {
    NothingSafely(home, s);
    if s.life.Detached? && ReadResolution(s.j, k, v, stamp).Ok? {
      var t := DoResolve(s, k, v, stamp);
      hide JournalOk, HistoryOk, CacheOk, AllAttempts, AllSent, AllBlocked, AllRecords, AllCancels, LifeOk,
           ClosingOk, AllParked, AllResolving, AllReserved, ReadResolution, ResolvingOk, Around, JobsOk;
      if k in s.resolving { ResolvingOf(home, s, k); }
      ResolutionOk(home, s, k, v, stamp);
      ResolveWhole(home, s, t, k);
      ResolveJobs(home, s, t, k);
      hide Inv, Safely;
      Finishes(home, s, t, {});
    }
  }

  /** The verified stop is committed: the record is done, and the stop attested. */
  ghost predicate Attests(s: State, t: State, k: RecordKey, read: Reading) {
    && read in Calls(s, k) && k in t.j.executions
    && t == s.(j := t.j, attested := s.attested + {k}, resolving := t.resolving)
    && (forall q :: q in t.resolving <==> q in s.resolving)
    && (forall q :: q in t.resolving ==> t.resolving[q] <= s.resolving[q])
    && (forall q :: q != k ==> SameSnapshot(s.j, t.j, q))
    && t.j == s.j.(tasks := t.j.tasks, publications := t.j.publications,
                   executions := s.j.executions[k := t.j.executions[k]])
    && t.j.executions[k].phase.Done? && t.j.executions[k].contextKey == read.record.contextKey
  }

  lemma AttestsAround(s: State, t: State, k: RecordKey, read: Reading)
    requires Attests(s, t, k, read)
    ensures Around(s, t, {k})
  {
  }

  lemma AttestsKey(home: Home, s: State, t: State, k: RecordKey, read: Reading)
    requires Attests(s, t, k, read) && AllSent(s) && ResolvingOk(home, s, k) && Known(s)
    ensures KeyOk(home, t, k)
  {
    if k in s.sent { assert SentOk(s, k); }
  }

  lemma AttestsRecords(home: Home, s: State, t: State, k: RecordKey, read: Reading)
    requires Attests(s, t, k, read) && AllRecords(s) && LifeOk(s) && ClosingOk(s)
      && (s.life.Detached? || s.life.Attached?)
    ensures AllRecords(t) && LifeOk(t) && ClosingOk(t)
  {
    forall q | q in t.j.executions ensures RecordsOk(t, q) {
      if q != k { assert RecordsOk(s, q); }
    }
  }

  lemma AttestsCancels(home: Home, s: State, t: State, k: RecordKey, read: Reading)
    requires Attests(s, t, k, read) && AllCancels(home, s)
    ensures AllCancels(home, t)
  {
    forall u | u in t.cancels ensures CancelOk(home, t, u) { assert CancelOk(home, s, u); }
  }

  lemma AttestsOthers(home: Home, s: State, t: State, k: RecordKey, read: Reading)
    requires Attests(s, t, k, read) && AllParked(s) && AllResolving(home, s) && AllReserved(s) && Known(s)
    ensures AllParked(t) && AllResolving(home, t) && AllReserved(t) && Apart(t)
  {
    forall u | u in t.interrupted ensures ParkedOk(t, u) { assert ParkedOk(s, u); }
    forall q | q in t.resolving ensures ResolvingOk(home, t, q) { assert ResolvingOk(home, s, q); }
  }

  lemma AttestsKeep(home: Home, s: State, t: State, k: RecordKey, read: Reading)
    requires Inv(home, s) && Attests(s, t, k, read) && (s.life.Detached? || s.life.Attached?) && JournalOk(home, t.j)
    ensures Safely(home, s, t)
  {
    hide *;
    AttestsParts(home, s, t, k, read);
    AttestsAround(s, t, k, read);
    AttestsIn(s, t, k, read);
    ResolvingOf(home, s, k);
    AttestsResolving(home, s, t, k, read);
    Finishes(home, s, t, {k});
  }

  lemma AttestsIn(s: State, t: State, k: RecordKey, read: Reading)
    requires Attests(s, t, k, read)
    ensures k in s.resolving
  {
  }

  lemma ResolvingOf(home: Home, s: State, k: RecordKey)
    requires Inv(home, s) && k in s.resolving
    ensures ResolvingOk(home, s, k)
  {
  }

  lemma AttestsParts(home: Home, s: State, t: State, k: RecordKey, read: Reading)
    requires Inv(home, s) && Attests(s, t, k, read) && (s.life.Detached? || s.life.Attached?)
    ensures LifeOk(t) && ClosingOk(t) && AllRecords(t) && JobsOk(home, t) && KeyOk(home, t, k)
  {
    hide JournalOk, HistoryOk, CacheOk, AllAttempts, AllSent, AllBlocked, AllRecords, AllCancels, LifeOk, ClosingOk,
         AllParked, AllReserved, ResolvingOk, Attests, Around, Apart, KeyOk, Known;
    AllKnown(home, s);
    AttestsIn(s, t, k, read);
    AttestsRecords(home, s, t, k, read);
    AttestsCancels(home, s, t, k, read);
    AttestsOthers(home, s, t, k, read);
    AttestsKey(home, s, t, k, read);
  }

  lemma AttestsResolving(home: Home, s: State, t: State, k: RecordKey, read: Reading)
    requires Attests(s, t, k, read) && ResolvingOk(home, s, k)
    ensures k in s.resolving && !Announcing(s.j, k)
  {
  }

  lemma ResolveStepOk(home: Home, s: State, k: RecordKey, read: Reading, now: int)
    requires read in Calls(s, k) && ResolvingOk(home, s, k) && JournalOk(home, s.j) && s.j.version == Some(1)
    requires CommitResolution(s.lim, s.j, read.record, read.snapshot, now).Ok?
    ensures var j := CommitResolution(s.lim, s.j, read.record, read.snapshot, now).value;
      JournalOk(home, j)
      && Attests(s, s.(j := j, attested := s.attested + {k},
                       resolving := s.resolving[k := s.resolving[k] - multiset{read}]), k, read)
  {
    hide JournalOk;
    assert ReadOk(home, s, k, read);
    StoreRepairKeeps(home, s.j, WithPublication(read.record.(phase := Done, updatedAt := now)), read.snapshot);
  }

  /** The operator's commit was refused: the call ends, and nothing else changes. */
  ghost predicate Dropped(s: State, t: State) {
    && t == s.(resolving := t.resolving)
    && (forall q :: q in t.resolving ==> q in s.resolving && t.resolving[q] <= s.resolving[q])
  }

  lemma DropsOne(s: State, k: RecordKey, read: Reading)
    requires read in Calls(s, k)
    ensures k in s.resolving && Dropped(s, s.(resolving := s.resolving[k := s.resolving[k] - multiset{read}]))
  {
  }

  lemma DroppedKeeps(home: Home, s: State, t: State)
    requires Inv(home, s) && (s.life.Detached? || s.life.Attached?) && Dropped(s, t)
    ensures Safely(home, s, t)
  {
    DroppedWhole(home, s, t);
    hide *;
    Passes(home, s, t, {});
  }

  lemma DroppedWhole(home: Home, s: State, t: State)
    requires Inv(home, s) && (s.life.Detached? || s.life.Attached?) && Dropped(s, t)
    ensures WholeOk(home, s, t) && Around(s, t, {}) && t.j == s.j
  {
    hide JournalOk, HistoryOk, CacheOk, AllAttempts, AllSent, AllBlocked, AllCancels, AllParked, AllResolving,
         AllReserved, JobsAlike, Around, RecordsOk;
    DroppedAround(s, t);
    forall q | q in t.j.executions ensures RecordsOk(t, q) { DroppedRecord(s, t, q); }
  }

  lemma DroppedRecord(s: State, t: State, q: RecordKey)
    requires Dropped(s, t) && q in s.j.executions && RecordsOk(s, q)
    ensures RecordsOk(t, q)
  {
  }

  lemma DroppedAround(s: State, t: State)
    requires Dropped(s, t)
    ensures JobsAlike(s, t) && Around(s, t, {})
  {
  }

  lemma ResolveStepShape(s: State, k: RecordKey, read: Reading, now: int)
    ensures if (s.life.Detached? || s.life.Attached?) && read in Calls(s, k) then
        var m := CommitResolution(s.lim, s.j, read.record, read.snapshot, now);
        DoResolveStep(s, k, read, now) ==
          if m.Ok? then s.(j := m.value, attested := s.attested + {k},
                           resolving := s.resolving[k := s.resolving[k] - multiset{read}])
          else s.(resolving := s.resolving[k := s.resolving[k] - multiset{read}])
      else DoResolveStep(s, k, read, now) == s
  {
    hide CommitResolution;
  }

  lemma ResolveStepKeeps(home: Home, s: State, k: RecordKey, read: Reading, now: int)
    requires Inv(home, s)
    ensures Safely(home, s, DoResolveStep(s, k, read, now))
  {
    hide *;
    NothingSafely(home, s);
    ResolveStepShape(s, k, read, now);
    if (s.life.Detached? || s.life.Attached?) && read in Calls(s, k) {
      JournalOf(home, s);
      VersionOf(home, s);
      DropsOne(s, k, read);
      ResolvingOf(home, s, k);
      if CommitResolution(s.lim, s.j, read.record, read.snapshot, now).Ok? {
        ResolveStepOk(home, s, k, read, now);
        AttestsKeep(home, s, DoResolveStep(s, k, read, now), k, read);
      } else {
        DroppedKeeps(home, s, DoResolveStep(s, k, read, now));
      }
    }
  }

  // ----- retention -----

  lemma PruneWhole(home: Home, s: State, tk: TaskKey, before: int)
    requires Inv(home, s) && (s.life.Detached? || s.life.Attached?)
    ensures WholeOk(home, s, s.(j := PruneTask(s.j, tk, before))) && Around(s, s.(j := PruneTask(s.j, tk, before)), {})
  {
    var t := s.(j := PruneTask(s.j, tk, before));
    PruneShape(s.j, tk, before);
    hide JournalOk, HistoryOk, CacheOk, AllAttempts, AllSent, AllBlocked, AllCancels, AllParked, AllResolving,
         AllReserved, PruneTask;
    forall q | q in t.j.executions ensures RecordsOk(t, q) { assert RecordsOk(s, q); }
  }

  lemma PruneShape(j: Journal, tk: TaskKey, before: int)
    ensures var later := PruneTask(j, tk, before);
      && later.messages == j.messages && later.mappings == j.mappings && later.version == j.version
      && (forall q :: Kept(j, later, q))
      && (forall q :: q in later.executions ==> q in j.executions && later.executions[q] == j.executions[q])
  {
  }

  lemma PruneStepKeeps(home: Home, s: State, tk: TaskKey, before: int)
    requires Inv(home, s)
    ensures Safely(home, s, DoPrune(s, tk, before))
  {
    assert DoPrune(s, tk, before) == if s.life.Detached? || s.life.Attached? then s.(j := PruneTask(s.j, tk, before))
      else s;
    hide *;
    NothingSafely(home, s);
    if s.life.Detached? || s.life.Attached? {
      JournalOf(home, s);
      PruneWhole(home, s, tk, before);
      PruneKeeps(home, s.j, tk, before);
      Passes(home, s, s.(j := PruneTask(s.j, tk, before)), {});
    }
  }

  // ----- the life of the process -----

  /** Without a bridge there is nothing volatile to speak of but the operator's calls. */
  lemma IdleKeeps(home: Home, s: State, t: State)
    requires Grows(s, t) && JournalOk(home, t.j) && LifeOk(t) && !t.life.Attached? && HistoryOk(t) && AllRecords(t)
      && AllSent(t)
    requires AllResolving(home, t) && (t.life.Detached? ==> AllBlocked(t))
    ensures Safely(home, s, t)
  {
    hide Grows, JournalOk, HistoryOk, RecordsOk, SentOk, Blocked, ResolvingOk;
  }

  lemma CrashHistory(s: State)
    ensures Grows(s, DoCrash(s)) && (HistoryOk(s) ==> HistoryOk(DoCrash(s)))
  {
  }

  /** A crash, like a clean release, leaves the journal and the history. */
  lemma CrashKeeps(home: Home, s: State)
    requires Inv(home, s)
    ensures Safely(home, s, DoCrash(s))
  {
    var t := DoCrash(s);
    CrashHistory(s);
    hide Safely, HistoryOk, Grows, JournalOk, LifeOk, ClosingOk, CacheOk, AllBlocked, AllAttempts, AllCancels,
         AllParked, AllReserved, RecordsOk, SentOk, ResolvingOk;
    forall q | q in t.j.executions ensures RecordsOk(t, q) { CrashRecord(s, t, q); }
    forall q | q in t.sent ensures SentOk(t, q) { CrashSent(s, t, q); }
    assert LifeOk(t) by { FreshLife(s.j, s.lim, s); }
    assert AllResolving(home, t) by { FreshLife(s.j, s.lim, s); }
    IdleKeeps(home, s, t);
  }

  lemma FreshLife(j: Journal, lim: Limits, s: State)
    ensures LifeOk(Fresh(j, lim, Dead, s)) && Fresh(j, lim, Dead, s).resolving == map[]
  {
  }

  lemma CrashRecord(s: State, t: State, q: RecordKey)
    requires t == DoCrash(s) && q in s.j.executions && RecordsOk(s, q)
    ensures RecordsOk(t, q)
  {
  }

  lemma CrashSent(s: State, t: State, q: RecordKey)
    requires t == DoCrash(s) && q in s.sent && SentOk(s, q)
    ensures SentOk(t, q)
  {
  }

  lemma ReleaseOwnerKeeps(home: Home, s: State)
    requires Inv(home, s)
    ensures Safely(home, s, DoReleaseOwner(s))
  {
    NothingSafely(home, s);
    CrashKeeps(home, s);
    hide Inv, Safely;
  }

  lemma OpenKeeps(home: Home, s: State, lim: Limits)
    requires Inv(home, s)
    ensures Safely(home, s, DoOpen(s, lim))
  {
    NothingSafely(home, s);
    if s.life.Dead? && Validates(s.j) {
      var t := DoOpen(s, lim);
      Validated(home, s.j);
      hide JournalOk, CacheOk, Validates, ClosingOk, AllBlocked, AllAttempts, AllCancels, AllParked, AllReserved,
           RecordsOk, SentOk;
      forall q | q in t.j.executions ensures RecordsOk(t, q) { OpenRecord(s, t, lim, q); }
      forall q | q in t.sent ensures SentOk(t, q) { OpenRecord(s, t, lim, q); }
      IdleKeeps(home, s, t);
    }
  }

  lemma OpenRecord(s: State, t: State, lim: Limits, q: RecordKey)
    requires s.life.Dead? && Validates(s.j) && t == DoOpen(s, lim)
    ensures q in s.j.executions && RecordsOk(s, q) ==> RecordsOk(t, q)
    ensures q in s.sent && SentOk(s, q) ==> SentOk(t, q)
  {
    hide Validates;
  }

  /** What recovering one attempt does to its record. */
  lemma RepairShape(j: Journal, k: RecordKey, stamp: Stamp)
    requires k in j.executions && j.executions[k].id == k && RecoverOne(j, k, stamp).Ok?
    requires j.executions[k].phase.Publishing? ==> j.executions[k].publication
    ensures var r, f := j.executions[k], RecoverOne(j, k, stamp).value.executions[k];
      && f.contextKey == r.contextKey && (f.phase.Done? || f.phase.Unresolved?)
      && (!r.stopped && !KnownUnsent(r) && !r.phase.Done? ==> !f.stopped && f.phase.Unresolved?)
  {
  }

  /** The repair of attempt k, seen from the outside. */
  ghost predicate Repairs(s: State, t: State, k: RecordKey) {
    && k in s.j.executions && k in t.j.executions && t == s.(j := t.j, life := t.life)
    && t.j.messages == s.j.messages && t.j.mappings == s.j.mappings
    && t.j.executions == s.j.executions[k := t.j.executions[k]]
    && var r, f := s.j.executions[k], t.j.executions[k];
      && f.contextKey == r.contextKey && (f.phase.Done? || f.phase.Unresolved?) && Recovered(f)
      && (!r.stopped && !KnownUnsent(r) && !r.phase.Done? ==> !f.stopped && f.phase.Unresolved?)
  }

  lemma RepairsOf(home: Home, s: State, t: State, k: RecordKey, stamp: Stamp)
    requires JournalOk(home, s.j) && k in s.j.executions && RecoverOne(s.j, k, stamp).Ok?
    requires t == s.(j := RecoverOne(s.j, k, stamp).value, life := t.life)
    ensures Repairs(s, t, k)
  {
    RecoverOneFrame(s.j, k, stamp);
    assert RecordOk(home, s.j, s.j.executions[k]);
    RepairShape(s.j, k, stamp);
    hide RecoverOne, JournalOk;
  }

  lemma RecoverSent(s: State, t: State, k: RecordKey, q: RecordKey)
    requires Repairs(s, t, k) && q in s.sent && SentOk(s, q)
    ensures SentOk(t, q)
  {
  }

  lemma RecoverRecord(s: State, t: State, k: RecordKey, q: RecordKey)
    requires Repairs(s, t, k) && q in s.j.executions && RecordsOk(s, q)
    requires s.life.Recovering? && t.life == Recovering(s.life.todo - {k})
    ensures RecordsOk(t, q)
  {
  }

  lemma RepairsKeep(home: Home, s: State, t: State, k: RecordKey)
    requires Inv(home, s) && Repairs(s, t, k) && JournalOk(home, t.j) && t.j.version == s.j.version
    requires s.life.Recovering? && t.life == Recovering(s.life.todo - {k})
    ensures Safely(home, s, t)
  {
    hide JournalOk, CacheOk, ClosingOk, AllBlocked, AllAttempts, AllCancels, AllParked, AllReserved, RecordsOk, SentOk;
    forall q | q in t.j.executions ensures RecordsOk(t, q) { RecoverRecord(s, t, k, q); }
    forall q | q in t.sent ensures SentOk(t, q) { RecoverSent(s, t, k, q); }
    IdleKeeps(home, s, t);
  }

  /** Recovery of one attempt never fails on a journal a run can leave. */
  lemma RecoverKeeps(home: Home, s: State, k: RecordKey, stamp: Stamp)
    requires Inv(home, s)
    ensures Safely(home, s, DoRecover(s, k, stamp))
  {
    NothingSafely(home, s);
    if s.life.Recovering? && k in s.life.todo && k in s.j.executions {
      JournalOf(home, s);
      KeyedBy(home, s.j, k);
      hide Inv, Safely, JournalOk, RecoverOne, Repairs, Recovered;
      RecoverOneKeeps(home, s.j, k, stamp);
      RecoverOneFrame(s.j, k, stamp);
      var t := DoRecover(s, k, stamp);
      RepairsOf(home, s, t, k, stamp);
      RepairsKeep(home, s, t, k);
    }
  }

  /** When recovery is over, what may still be running is marked `unresolved`: the durable guard blocks its context. */
  lemma RecoveredBlocks(s: State, t: State, q: RecordKey)
    requires s.life == Recovering({}) && t == s.(life := Detached) && s.attempts == map[]
    requires q in s.sent && SentOk(s, q) && !Safe(s, q) && (q in s.j.executions ==> RecordsOk(s, q))
    ensures Blocked(t, q)
  {
  }

  lemma FinishHistory(s: State)
    requires HistoryOk(s)
    ensures HistoryOk(DoFinishOpen(s)) && Grows(s, DoFinishOpen(s))
  {
    hide HistoryOk, Grows;
    FinishOpenShape(s);
    SameHistory(s, DoFinishOpen(s));
    SameGrows(s, DoFinishOpen(s));
  }

  lemma FinishOpenShape(s: State)
    ensures var t := DoFinishOpen(s);
      t.sends == s.sends && t.sent == s.sent && t.stops == s.stops && t.attested == s.attested && t.j == s.j
        && t.cache == s.cache
  {
    if s.life == Recovering({}) { assert DoFinishOpen(s) == s.(life := Detached); }
  }

  lemma SameGrows(s: State, t: State)
    requires t.sends == s.sends && t.sent == s.sent && t.stops == s.stops && t.attested == s.attested && t.j == s.j
    ensures Grows(s, t)
  {
  }

  lemma FinishOpenKeeps(home: Home, s: State)
    requires Inv(home, s)
    ensures Safely(home, s, DoFinishOpen(s))
  {
    hide JournalOk, CacheOk, ClosingOk, AllAttempts, AllCancels, AllParked, AllReserved, RecordsOk, SentOk, Blocked,
         HistoryOk, ResolvingOk, Safely;
    NothingSafely(home, s);
    if s.life == Recovering({}) {
      var t := DoFinishOpen(s);
      FinishHistory(s);
      forall q | q in t.j.executions ensures RecordsOk(t, q) { LifeRecord(s, t, q); }
      forall q | q in t.sent ensures SentOk(t, q) { LifeSent(s, t, q); }
      forall q | q in t.sent && !Safe(t, q) ensures Blocked(t, q) { RecoveredBlocks(s, t, q); }
      IdleKeeps(home, s, t);
    }
  }

  /** The agent and perhaps the sharing domain are bound, and perhaps a bridge is attached. */
  ghost predicate Binds(s: State, t: State) {
    && s.life.Detached? && (t.life.Detached? || t.life.Attached?)
    && t == s.(j := t.j, life := t.life) && OnlyBound(s.j, t.j)
  }

  ghost predicate OnlyBound(j: Journal, later: Journal) {
    later == j.(agentId := later.agentId, domain := later.domain)
  }

  lemma Bindings(j: Journal, agentId: string, domain: string)
    ensures BindAgent(j, agentId).Ok? ==>
      var bound := BindAgent(j, agentId).value;
      OnlyBound(j, bound) && (BindDomain(bound, domain).Ok? ==> OnlyBound(j, BindDomain(bound, domain).value))
  {
  }

  lemma LifeRecord(s: State, t: State, q: RecordKey)
    requires (s.life == Recovering({}) && t == s.(life := Detached)) || Binds(s, t)
    requires q in s.j.executions && RecordsOk(s, q)
    ensures RecordsOk(t, q)
  {
  }

  lemma LifeSent(s: State, t: State, q: RecordKey)
    requires t == s.(j := t.j, life := t.life) && OnlyBound(s.j, t.j)
    requires q in s.sent && SentOk(s, q)
    ensures SentOk(t, q) && (Blocked(s, q) ==> Blocked(t, q))
  {
  }

  lemma BindsSound(home: Home, s: State, t: State)
    requires JournalOk(home, s.j) && Binds(s, t)
    ensures JournalOk(home, t.j)
  {
    forall q | q in t.j.executions ensures RecordOk(home, t.j, t.j.executions[q]) {
      assert RecordOk(home, s.j, s.j.executions[q]);
    }
  }

  lemma BindsResolving(home: Home, s: State, t: State)
    requires AllResolving(home, s) && Binds(s, t)
    ensures AllResolving(home, t)
  {
    forall q | q in t.resolving ensures ResolvingOk(home, t, q) { assert ResolvingOk(home, s, q); }
  }

  lemma BindsRest(s: State, t: State)
    requires Binds(s, t)
    ensures Evolves(s, t) && (LifeOk(s) ==> LifeOk(t)) && (HistoryOk(s) ==> HistoryOk(t)) && (CacheOk(s) ==> CacheOk(t))
    ensures (ClosingOk(s) ==> ClosingOk(t)) && t.sent == s.sent && t.j.executions == s.j.executions
    ensures forall q :: Safe(t, q) <==> Safe(s, q)
  {
  }

  lemma EmptyJobs(home: Home, s: State)
    requires s.attempts == map[] && s.cancels == map[] && s.interrupted == map[] && s.reserved == map[]
    ensures AllAttempts(home, s) && AllCancels(home, s) && AllParked(s) && AllReserved(s)
  {
  }

  lemma BindsEmpty(s: State, t: State)
    requires Binds(s, t) && LifeOk(s)
    ensures t.attempts == map[] && t.cancels == map[] && t.interrupted == map[] && t.reserved == map[]
  {
  }

  lemma BindsKeep(home: Home, s: State, t: State)
    requires Inv(home, s) && Binds(s, t)
    ensures Safely(home, s, t)
  {
    hide JournalOk, RecordsOk, SentOk, Blocked, ResolvingOk, AllAttempts, AllCancels, AllParked, AllReserved, LifeOk,
         HistoryOk, CacheOk, ClosingOk, Evolves, AllResolving, Binds, Safe;
    BindsRest(s, t);
    BindsSound(home, s, t);
    BindsResolving(home, s, t);
    BindsEmpty(s, t);
    EmptyJobs(home, t);
    BindsLives(s, t);
    forall q | q in t.j.executions ensures RecordsOk(t, q) { LifeRecord(s, t, q); }
    forall q | q in t.sent ensures SentOk(t, q) { BindsSent(s, t, q); }
    forall q | q in t.sent && !Safe(t, q) ensures Blocked(t, q) { BindsSent(s, t, q); }
  }

  lemma BindsLives(s: State, t: State)
    requires Binds(s, t)
    ensures s.life.Detached?
  {
  }

  lemma BindsSent(s: State, t: State, q: RecordKey)
    requires Binds(s, t) && q in s.sent && SentOk(s, q)
    ensures SentOk(t, q) && (Blocked(s, q) ==> Blocked(t, q))
  {
    LifeSent(s, t, q);
  }

  lemma AttachKeeps(home: Home, s: State, agentId: string, domain: string)
    requires Inv(home, s)
    ensures Safely(home, s, DoAttach(s, agentId, domain))
  {
    hide *;
    NothingSafely(home, s);
    AttachBinds(s, agentId, domain);
    if DoAttach(s, agentId, domain) != s {
      BindsKeep(home, s, DoAttach(s, agentId, domain));
    }
  }

  lemma AttachBinds(s: State, agentId: string, domain: string)
    ensures DoAttach(s, agentId, domain) == s || Binds(s, DoAttach(s, agentId, domain))
  {
    hide BindAgent, BindDomain, OnlyBound;
    Bindings(s.j, agentId, domain);
    if s.life.Detached? && BindAgent(s.j, agentId).Ok? {
      var j := BindAgent(s.j, agentId).value;
      if BindDomain(j, domain).Ok? {
        assert DoAttach(s, agentId, domain) == s.(j := BindDomain(j, domain).value, life := Attached);
      } else {
        assert DoAttach(s, agentId, domain) == s.(j := j);
      }
    }
  }

  // ----- every step, every run -----

  lemma InitOk(home: Home)
    ensures Inv(home, INIT)
  {
    EmptyOk(home);
  }

  lemma BeforeSendKeeps(home: Home, s: State, a: Action)
    requires BeforeSendAction(a) && Inv(home, s)
    ensures Safely(home, s, ExecBeforeSend(s, a))
  {
    hide Inv, Safely, Dispatched, BeforeTurn, SetMapping, BeforeSend, CommitIntent;
    NothingSafely(home, s);
    match a {
      case Dispatch(k, refused, now) =>
        if At(s, k) && s.attempts[k].pc.Admitted? {
          DispatchKeeps(home, s, k, refused, now);
        }
      case AbandonQueue(k) =>
        if At(s, k) && s.attempts[k].pc.Queued? {
          AbandonQueueKeeps(home, s, k);
        }
      case Acquire(k, aborted) =>
        if At(s, k) && s.attempts[k].pc.Queued? && s.attempts[k].context !in s.lock {
          AcquireKeeps(home, s, k, aborted);
        }
      case Guard(k, now) =>
        if At(s, k) && s.attempts[k].pc.Entered? {
          GuardKeeps(home, s, k, now);
        }
      case Lookup(k) =>
        if At(s, k) && s.attempts[k].pc.Guarded? {
          LookupKeeps(home, s, k);
        }
      case SessionReady(k, conversation) =>
        if At(s, k) && s.attempts[k].pc.Opening? && conversation != "" {
          SessionReadyKeeps(home, s, k, conversation);
        }
      case Correlate(k, agentId) =>
        if At(s, k) && s.attempts[k].pc.Mapped? {
          CorrelateKeeps(home, s, k, agentId);
        }
      case Intend(k, agentId, now) =>
        if At(s, k) && s.attempts[k].pc.Correlating? {
          IntendKeeps(home, s, k, agentId, now);
        }
      case GiveUp(k, aborted) =>
        if At(s, k) && (s.attempts[k].pc.Entered? || Cleared(s.attempts[k].pc)) {
          GiveUpKeeps(home, s, k, aborted);
        }
    }
  }

  lemma TurnKeeps(home: Home, s: State, a: Action)
    requires TurnAction(a) && Inv(home, s)
    ensures Safely(home, s, ExecTurn(s, a))
  {
    hide Inv, Safely, SendReturned, AfterRead, CommitObservation, MarkStopped, Quarantine;
    NothingSafely(home, s);
    match a {
      case Send(k) =>
        if At(s, k) && s.attempts[k].pc.Ready? {
          SendKeeps(home, s, k);
        }
      case SendOk(k, now) =>
        if At(s, k) && s.attempts[k].pc.Sending? {
          SendOkKeeps(home, s, k, now);
        }
      case Observe(k, message, stamp) =>
        if At(s, k) && s.attempts[k].pc.Streaming? {
          ObserveKeeps(home, s, k, message, stamp);
        }
      case ObserveStep(k, now) =>
        if At(s, k) && s.attempts[k].pc.Observing? {
          ObserveStepKeeps(home, s, k, now);
        }
      case LeaveStream(k, error) =>
        if At(s, k) && (s.attempts[k].pc.Sending? || s.attempts[k].pc.Streaming?) {
          LeaveStreamKeeps(home, s, k, error);
        }
      case CloseSession(k, cleanup, now) =>
        if At(s, k) && s.attempts[k].pc.Closing? {
          CloseSessionKeeps(home, s, k, cleanup, now);
        }
      case Release(k, aborted, state) =>
        if At(s, k) && (s.attempts[k].pc.Succeeded? || s.attempts[k].pc.Thrown?)
          && (state.Completed? || Interrupted(state)) {
          ReleaseKeeps(home, s, k, aborted, state);
        }
    }
  }

  lemma EndingKeeps(home: Home, s: State, a: Action)
    requires EndingAction(a) && Inv(home, s)
    ensures Safely(home, s, ExecEnding(s, a))
  {
    hide Inv, Safely, DoAccept, DoConclude, DoPublish, DoWaitPublished, DoFinish;
    NothingSafely(home, s);
    match a {
      case AcceptStep(k, task, artifactId, now) => AcceptStepKeeps(home, s, k, task, artifactId, now);
      case Conclude(k, aborted, text, stamp) => ConcludeStepKeeps(home, s, k, aborted, text, stamp);
      case Publish(k, now) => PublishStepKeeps(home, s, k, now);
      case WaitPublished(k) => WaitPublishedKeeps(home, s, k);
      case Finish(k) => FinishKeeps(home, s, k);
    }
  }

  lemma HandlerKeeps(home: Home, s: State, a: Action)
    requires HandlerAction(a) && Inv(home, s)
    ensures Safely(home, s, ExecHandler(home, s, a))
  {
    hide Inv, Safely, DoEnter, DoLeave, DoHandOver, DoReserve, DoExecute;
    NothingSafely(home, s);
    match a {
      case Enter(call) => EnterKeeps(home, s, call);
      case Leave(call) => LeaveKeeps(home, s, call);
      case HandOver(call, next) => HandOverKeeps(home, s, call, next);
      case Reserve(k, call, now) => ReserveStepKeeps(home, s, k, call, now);
      case Execute(k, contextId, taskId) => ExecuteStepKeeps(home, s, k, contextId, taskId);
    }
  }

  lemma TaskKeeps(home: Home, s: State, a: Action)
    requires TaskAction(a) && !a.Save? && Inv(home, s)
    ensures Safely(home, s, ExecTask(home, s, a))
  {
    hide Inv, Safely, DoSave, DoCancelInterrupted, DoCancelStep, DoCancelWait, DoCancelIntent;
    NothingSafely(home, s);
    match a {
      case CancelInterrupted(call, taskId, stamp) => CancelInterruptedKeeps(home, s, call, taskId, stamp);
      case CancelStep(taskId, now) => CancelStepKeeps(home, s, taskId, now);
      case CancelWait(taskId) => CancelWaitKeeps(home, s, taskId);
      case CancelIntent(k, now) => CancelIntentKeeps(home, s, k, now);
    }
  }

  lemma LifeKeeps(home: Home, s: State, a: Action)
    requires LifeAction(a) && Inv(home, s)
    ensures Safely(home, s, ExecLife(s, a))
  {
    hide Inv, Safely, DoOpen, DoRecover, DoFinishOpen, DoAttach, DoCrash, DoReleaseOwner;
    NothingSafely(home, s);
    match a {
      case Open(lim) => OpenKeeps(home, s, lim);
      case Recover(k, stamp) => RecoverKeeps(home, s, k, stamp);
      case FinishOpen => FinishOpenKeeps(home, s);
      case Attach(agentId, domain) => AttachKeeps(home, s, agentId, domain);
      case Crash => CrashKeeps(home, s);
      case ReleaseOwner => ReleaseOwnerKeeps(home, s);
    }
  }

  lemma ClosingKeeps(home: Home, s: State, a: Action)
    requires ClosingAction(a) && Inv(home, s)
    ensures Safely(home, s, ExecClosing(s, a))
  {
    hide Inv, Safely, DoResolve, DoResolveStep, DoPrune, DoClose, DoReportRequests, DoFinalDrain;
    NothingSafely(home, s);
    match a {
      case Resolve(k, v, stamp) => ResolveKeeps(home, s, k, v, stamp);
      case ResolveStep(k, read, now) => ResolveStepKeeps(home, s, k, read, now);
      case Prune(tk, before) => PruneStepKeeps(home, s, tk, before);
      case Close => CloseKeeps(home, s);
      case ReportRequests => ReportRequestsKeeps(home, s);
      case FinalDrain => FinalDrainKeeps(home, s);
    }
  }

  /** What a step does to the past: only a save retires announcements, and exactly those it acknowledges. */
  ghost predicate Moves(s: State, t: State, a: Action) {
    if a.Save? then Grows(s, t) && (t == s || Retires(s, t, a.owner, a.tenant, a.task)) else Evolves(s, t)
  }

  lemma StepKeeps(home: Home, s: State, a: Action)
    requires Inv(home, s)
    ensures Inv(home, Exec(home, s, a)) && Moves(s, Exec(home, s, a), a)
  {
    hide Inv, Evolves, Grows, Retires, DoSave, ExecBeforeSend, ExecTurn, ExecEnding, ExecHandler, ExecLife, ExecClosing;
    if BeforeSendAction(a) {
      BeforeSendKeeps(home, s, a);
    } else if TurnAction(a) {
      TurnKeeps(home, s, a);
    } else if EndingAction(a) {
      EndingKeeps(home, s, a);
    } else if HandlerAction(a) {
      HandlerKeeps(home, s, a);
    } else if TaskAction(a) {
      if a.Save? {
        SaveStepKeeps(home, s, a.owner, a.tenant, a.task, a.now);
      } else {
        TaskKeeps(home, s, a);
      }
    } else if LifeAction(a) {
      LifeKeeps(home, s, a);
    } else {
      ClosingKeeps(home, s, a);
    }
  }

  /** So does every run, from wherever the invariant holds. */
  lemma {:induction false} RunKeeps(home: Home, s: State, actions: seq<Action>)
    requires Inv(home, s)
    ensures Inv(home, Run(home, s, actions))
  {
    hide Inv, Moves, Exec;
    if actions != [] {
      RunKeeps(home, s, actions[..|actions| - 1]);
      StepKeeps(home, Run(home, s, actions[..|actions| - 1]), actions[|actions| - 1]);
    }
  }

  /** The invariant holds in every reachable state. */
  lemma ReachableInv(home: Home, s: State)
    requires Reachable(home, s)
    ensures Inv(home, s)
  {
    hide Inv, Run;
    var actions :| Run(home, INIT, actions) == s;
    InitOk(home);
    RunKeeps(home, INIT, actions);
  }
}
