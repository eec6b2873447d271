/** The steps of one attempt that write the journal, from dispatch to the acknowledged publication. */
module BridgeHooks {
  import opened Prelude
  import opened A2A
  import opened Journal
  import opened JournalProofs
  import opened Bridge
  import opened BridgeInvariant
  import opened BridgeSteps

  // ----- dispatch and guard -----

  lemma DispatchWrites(home: Home, s: State, k: RecordKey, now: int)
    requires OwnOk(home, s, k) && s.attempts[k].pc.Admitted?
    requires Dispatched(s.lim, s.j, k, s.attempts[k].taskId, now).Ok?
    ensures Step(home, s, Move(s.(j := Dispatched(s.lim, s.j, k, s.attempts[k].taskId, now).value), k, Queued), k)
  {
    hide JournalOk, HistoryOk, CacheOk, Local, Blocked;
    Flag(home, s, k, s.j.executions[k].(phase := Dispatching), now, Queued);
  }

  lemma DispatchFails(home: Home, s: State, k: RecordKey)
    requires OwnOk(home, s, k) && s.attempts[k].pc.Admitted?
    ensures Step(home, s, Move(s, k, Settled(Errored)), k)
  {
    hide JournalOk, HistoryOk, CacheOk, Step;
    Quiet(home, s, k, Settled(Errored));
  }

  lemma DispatchKeeps(home: Home, s: State, k: RecordKey, refused: bool, now: int)
    requires Inv(home, s) && At(s, k) && s.attempts[k].pc.Admitted?
    ensures Safely(home, s, DoDispatch(s, k, refused, now))
  {
    hide Inv, Safely, OwnOk, Step, Dispatched;
    OwnOf(home, s, k);
    if !refused && !s.closed && Dispatched(s.lim, s.j, k, s.attempts[k].taskId, now).Ok? {
      DispatchWrites(home, s, k, now);
    } else {
      DispatchFails(home, s, k);
    }
    Glue(home, s, DoDispatch(s, k, refused, now), k);
  }

  lemma NotBlocked(home: Home, s: State, k: RecordKey, q: RecordKey)
    requires Inv(home, s) && At(s, k) && s.attempts[k].pc.Entered? && Available(s.j, s.attempts[k].context)
    requires q in s.sent && s.sent[q].context == s.attempts[k].context
    ensures Safe(s, q)
  {
    assert SentOk(s, q) && AttemptOk(home, s, k);
    if q in s.attempts { assert AttemptOk(home, s, q); }
    assert Safe(s, q) || Blocked(s, q);
  }

  /**
   * The heart of the fence. Under the lock, past the quarantine check and the durable guard, every
   * input the context ever received is known to have stopped, also those whose records are being
   * published at this moment and so are not `unresolved` for the durable guard.
   */
  lemma GuardClears(home: Home, s: State, k: RecordKey)
    requires Inv(home, s) && At(s, k) && s.attempts[k].pc.Entered? && Available(s.j, s.attempts[k].context)
    ensures AllSafe(s, s.attempts[k].context)
  {
    forall q | q in s.sent && s.sent[q].context == s.attempts[k].context
      ensures Safe(s, q)
    {
      NotBlocked(home, s, k, q);
    }
  }

  lemma GuardWrites(home: Home, s: State, k: RecordKey, now: int)
    requires OwnOk(home, s, k) && s.attempts[k].pc.Entered? && AllSafe(s, s.attempts[k].context)
    requires BeforeTurn(s.lim, s.j, TurnOf(k, s.attempts[k]), now).Ok?
    ensures Step(home, s, Move(s.(j := BeforeTurn(s.lim, s.j, TurnOf(k, s.attempts[k]), now).value), k, Guarded), k)
  {
    hide JournalOk, HistoryOk, CacheOk, Local, Blocked;
    assert KeyOf(TurnOf(k, s.attempts[k])) == k;
    Flag(home, s, k, s.j.executions[k].(phase := Preparing), now, Guarded);
  }

  /** Any failure before the send leaves the lock held and the record as it is. */
  lemma UnsentFails(home: Home, s: State, k: RecordKey)
    requires OwnOk(home, s, k) && (s.attempts[k].pc.Entered? || Cleared(s.attempts[k].pc))
    ensures Step(home, s, Move(s, k, Thrown(false)), k)
  {
    hide JournalOk, HistoryOk, CacheOk, Step;
    Quiet(home, s, k, Thrown(false));
  }

  lemma GuardKeeps(home: Home, s: State, k: RecordKey, now: int)
    requires Inv(home, s) && At(s, k) && s.attempts[k].pc.Entered?
    ensures Safely(home, s, DoGuard(s, k, now))
  {
    hide Inv, Safely, OwnOk, Step, AllSafe, UpdateTurn;
    OwnOf(home, s, k);
    if BeforeTurn(s.lim, s.j, TurnOf(k, s.attempts[k]), now).Ok? {
      GuardClears(home, s, k);
      GuardWrites(home, s, k, now);
    } else {
      UnsentFails(home, s, k);
    }
    Glue(home, s, DoGuard(s, k, now), k);
  }

  // ----- conversation mapping -----

  /** A mapping is stored and perhaps cached; nothing else changes but the point of the attempt. */
  ghost predicate MapStep(s: State, t: State, k: RecordKey, v: string, pc: Pc)
    requires k in s.attempts
  {
    && SetMapping(s.lim, s.j, s.attempts[k].context, v) == Ok(t.j)
    && (t.cache == s.cache || t.cache == s.cache[s.attempts[k].context := v])
    && t == Move(s.(j := t.j, cache := t.cache), k, pc)
    && (s.attempts[k].pc.Opening? || s.attempts[k].pc.Mapped?)
    && (pc == Mapped(v) || pc == Correlating(v) || pc == Thrown(false))
  }

  lemma MapLocal(s: State, t: State, k: RecordKey, v: string, pc: Pc)
    requires At(s, k) && MapStep(s, t, k, v, pc)
    ensures Local(s, t, k) && (CacheOk(s) ==> CacheOk(t))
  {
  }

  lemma AllSafeSame(s: State, t: State, c: ContextKey)
    requires AllSafe(s, c) && t.sent == s.sent && t.stops == s.stops && t.attested == s.attested
    ensures AllSafe(t, c)
  {
  }

  lemma MapOwn(home: Home, s: State, t: State, k: RecordKey, v: string, pc: Pc)
    requires OwnOk(home, s, k) && MapStep(s, t, k, v, pc)
    ensures OwnOk(home, t, k)
  {
    hide AllSafe, SetMapping;
    MapWrites(s, t, k, v, pc);
    AllSafeSame(s, t, s.attempts[k].context);
  }

  lemma MapWrites(s: State, t: State, k: RecordKey, v: string, pc: Pc)
    requires k in s.attempts && MapStep(s, t, k, v, pc)
    ensures t.j == s.j.(mappings := s.j.mappings[s.attempts[k].context := v])
  {
    hide Move;
  }

  lemma MapStepOk(home: Home, s: State, t: State, k: RecordKey, v: string, pc: Pc)
    requires OwnOk(home, s, k) && JournalOk(home, s.j) && MapStep(s, t, k, v, pc)
    ensures Step(home, s, t, k)
  {
    hide OwnOk, MapStep, JournalOk, Local, CacheOk, HistoryOk;
    MapJournal(home, s, t, k, v, pc);
    MapOwn(home, s, t, k, v, pc);
    MapLocal(s, t, k, v, pc);
    MapHistory(s, t, k, v, pc);
    MapSilent(home, s, t, k, v, pc);
  }

  lemma MapSilent(home: Home, s: State, t: State, k: RecordKey, v: string, pc: Pc)
    requires OwnOk(home, s, k) && MapStep(s, t, k, v, pc)
    ensures !Announcing(s.j, k)
  {
    hide SetMapping, Move, AllSafe;
  }

  lemma MapJournal(home: Home, s: State, t: State, k: RecordKey, v: string, pc: Pc)
    requires OwnOk(home, s, k) && JournalOk(home, s.j) && MapStep(s, t, k, v, pc)
    ensures JournalOk(home, t.j) && At(s, k)
  {
    hide JournalOk, SetMapping, PcOk;
    MappingKeeps(home, s.lim, s.j, s.attempts[k].context, v);
  }

  lemma MapHistory(s: State, t: State, k: RecordKey, v: string, pc: Pc)
    requires At(s, k) && MapStep(s, t, k, v, pc)
    ensures HistoryOk(s) ==> HistoryOk(t)
  {
    hide HistoryOk, SetMapping;
    SameHistory(s, t);
  }

  lemma MapKeeps(home: Home, s: State, t: State, k: RecordKey, v: string, pc: Pc)
    requires Inv(home, s) && At(s, k) && MapStep(s, t, k, v, pc)
    ensures Safely(home, s, t)
  {
    hide *;
    JournalOf(home, s);
    OwnOf(home, s, k);
    MapStepOk(home, s, t, k, v, pc);
    Glue(home, s, t, k);
  }

  lemma SessionReadyKeeps(home: Home, s: State, k: RecordKey, conversation: string)
    requires Inv(home, s) && At(s, k) && s.attempts[k].pc.Opening? && conversation != ""
    ensures Safely(home, s, DoSessionReady(s, k, conversation))
  {
    hide Inv, Safely, OwnOk, Step, SetMapping;
    OwnOf(home, s, k);
    if SetMapping(s.lim, s.j, s.attempts[k].context, conversation).Ok? {
      MapKeeps(home, s, DoSessionReady(s, k, conversation), k, conversation, Mapped(conversation));
    } else {
      UnsentFails(home, s, k);
      Glue(home, s, DoSessionReady(s, k, conversation), k);
    }
  }

  /** The conversation is cached before the guard runs, so also when the guard refuses. */
  lemma CacheKeeps(home: Home, s: State, k: RecordKey)
    requires Inv(home, s) && At(s, k) && s.attempts[k].pc.Mapped?
    ensures Safely(home, s, Move(s.(cache := s.cache[s.attempts[k].context := s.attempts[k].pc.conversation]), k,
                                 Thrown(false)))
  {
    var t := Move(s.(cache := s.cache[s.attempts[k].context := s.attempts[k].pc.conversation]), k, Thrown(false));
    OwnOf(home, s, k);
    CacheParts(home, s, t, k);
    hide Inv, Safely, OwnOk, Local, CacheOk, HistoryOk, JournalOk;
    SameHistory(s, t);
    Glue(home, s, t, k);
  }

  lemma CacheParts(home: Home, s: State, t: State, k: RecordKey)
    requires OwnOk(home, s, k) && s.attempts[k].pc.Mapped?
    requires t == Move(s.(cache := s.cache[s.attempts[k].context := s.attempts[k].pc.conversation]), k, Thrown(false))
    ensures Local(s, t, k) && OwnOk(home, t, k) && (CacheOk(s) ==> CacheOk(t))
  {
  }

  lemma CorrelateKeeps(home: Home, s: State, k: RecordKey, agentId: string)
    requires Inv(home, s) && At(s, k) && s.attempts[k].pc.Mapped?
    ensures Safely(home, s, DoCorrelate(s, k, agentId))
  {
    var v := s.attempts[k].pc.conversation;
    hide Inv, Safely, SetMapping, Move;
    if BeforeSend(s.lim, s.j, TurnOf(k, s.attempts[k]), Correlation(agentId, v, k.messageId)).Ok? {
      MapKeeps(home, s, DoCorrelate(s, k, agentId), k, v, Correlating(v));
    } else {
      CacheKeeps(home, s, k);
    }
  }

  // ----- intent and send -----

  lemma IntentShape(lim: Limits, j: Journal, t: Turn, c: Correlation, now: int)
    requires CommitIntent(lim, j, t, c, now).Ok? && j.executions[KeyOf(t)].id == KeyOf(t)
    ensures var later := CommitIntent(lim, j, t, c, now).value;
      && later == j.(agentId := Some(c.agentId), executions := later.executions)
      && KeyOf(t) in j.executions
      && later.executions == j.executions[KeyOf(t) :=
                                          j.executions[KeyOf(t)].(correlation := Some(c), phase := Intent,
                                                                  updatedAt := now)]
      && OwnJournal(j, later, KeyOf(t))
  {
  }

  lemma IntendUnsent(home: Home, s: State, t: State, k: RecordKey, v: string)
    requires OwnOk(home, s, k) && s.attempts[k].pc == Correlating(v)
    requires t == Move(s.(j := t.j), k, Ready(v)) && OwnJournal(s.j, t.j, k)
    requires k in t.j.executions && t.j.executions[k] ==
      s.j.executions[k].(correlation := t.j.executions[k].correlation, phase := Intent,
                         updatedAt := t.j.executions[k].updatedAt)
    ensures UnsentOk(t, k, t.attempts[k])
  {
    hide AllSafe, JournalOk, Blocked;
    AllSafeSame(s, t, s.attempts[k].context);
  }

  lemma IntendSound(home: Home, s: State, k: RecordKey, c: Correlation, now: int)
    requires OwnOk(home, s, k) && s.attempts[k].pc.Correlating?
    requires CommitIntent(s.lim, s.j, TurnOf(k, s.attempts[k]), c, now).Ok?
    ensures KeyOf(TurnOf(k, s.attempts[k])) == k && k in s.j.executions && s.j.executions[k].id == k
    ensures s.j.executions[k].phase == Preparing && k !in s.sent
    ensures JournalOk(home, s.j) && s.j.version == Some(1) ==>
              JournalOk(home, CommitIntent(s.lim, s.j, TurnOf(k, s.attempts[k]), c, now).value)
  {
    hide JournalOk, AllSafe, Blocked, SentOk;
    if JournalOk(home, s.j) && s.j.version == Some(1) {
      IntentKeeps(home, s.lim, s.j, TurnOf(k, s.attempts[k]), c, now);
    }
  }

  lemma IntendWrites(home: Home, s: State, k: RecordKey, agentId: string, now: int)
    requires OwnOk(home, s, k) && s.attempts[k].pc.Correlating?
    requires var v := s.attempts[k].pc.conversation;
      CommitIntent(s.lim, s.j, TurnOf(k, s.attempts[k]), Correlation(agentId, v, k.messageId), now).Ok?
    ensures var v := s.attempts[k].pc.conversation;
      Step(home, s, Move(s.(j := CommitIntent(s.lim, s.j, TurnOf(k, s.attempts[k]),
                                              Correlation(agentId, v, k.messageId), now).value),
                         k, Ready(v)), k)
  {
    var v, turn := s.attempts[k].pc.conversation, TurnOf(k, s.attempts[k]);
    var c := Correlation(agentId, v, k.messageId);
    IntendSound(home, s, k, c, now);
    IntentShape(s.lim, s.j, turn, c, now);
    var j := CommitIntent(s.lim, s.j, turn, c, now).value;
    hide JournalOk, HistoryOk, CacheOk, Local, AttemptOk, SentOk, Blocked, OwnJournal, CommitIntent, UnsentOk, OwnOk,
         Step;
    IntendUnsent(home, s, Move(s.(j := j), k, Ready(v)), k, v);
    Write(home, s, k, j, Ready(v));
  }

  lemma IntendKeeps(home: Home, s: State, k: RecordKey, agentId: string, now: int)
    requires Inv(home, s) && At(s, k) && s.attempts[k].pc.Correlating?
    ensures Safely(home, s, DoIntend(s, k, agentId, now))
  {
    hide Inv, Safely, OwnOk, Step, CommitIntent;
    OwnOf(home, s, k);
    if CommitIntent(s.lim, s.j, TurnOf(k, s.attempts[k]),
                    Correlation(agentId, s.attempts[k].pc.conversation, k.messageId), now).Ok? {
      IntendWrites(home, s, k, agentId, now);
    } else {
      UnsentFails(home, s, k);
    }
    Glue(home, s, DoIntend(s, k, agentId, now), k);
  }

  /** The new send is the first of its attempt, and every earlier input of its context has stopped. */
  lemma SendHistory(s: State, k: RecordKey)
    requires HistoryOk(s) && At(s, k) && s.attempts[k].pc.Ready? && ClearToSend(s, k, s.attempts[k])
    ensures HistoryOk(DoSend(s, k))
  {
    var t := DoSend(s, k);
    forall i, n | 0 <= i < n < |t.sends|
      ensures t.sends[i] != t.sends[n]
      ensures t.sent[t.sends[i]].context == t.sent[t.sends[n]].context ==> Safe(t, t.sends[i])
    {
      assert s.sends[i] in s.sent;
      if n == |s.sends| { assert t.sent[t.sends[i]] == s.sent[s.sends[i]]; }
    }
  }

  lemma SendLocal(home: Home, s: State, k: RecordKey)
    requires OwnOk(home, s, k) && s.attempts[k].pc.Ready?
    ensures Local(s, DoSend(s, k), k)
  {
    assert DoSend(s, k).sent == s.sent[k := Sent(s.attempts[k].context, s.attempts[k].pc.conversation)];
  }

  lemma SendOwn(home: Home, s: State, k: RecordKey)
    requires OwnOk(home, s, k) && s.attempts[k].pc.Ready?
    ensures OwnOk(home, DoSend(s, k), k)
  {
    hide AllSafe;
  }

  lemma SendRest(s: State, k: RecordKey)
    ensures var t := DoSend(s, k);
      t.j == s.j && (CacheOk(s) ==> CacheOk(t)) && (Announcing(s.j, k) ==> Stands(s.j, t.j, k))
  {
  }

  lemma SendKeeps(home: Home, s: State, k: RecordKey)
    requires Inv(home, s) && At(s, k) && s.attempts[k].pc.Ready?
    ensures Safely(home, s, DoSend(s, k))
  {
    hide JournalOk, CacheOk, LifeOk, ClosingOk, AllRecords, AllSent, AllBlocked, AllCancels, AllParked, AllResolving,
         AllReserved, HistoryOk, ClearToSend;
    OwnOf(home, s, k);
    assert ClearToSend(s, k, s.attempts[k]) && HistoryOk(s);
    hide AttemptOk, AllAttempts;
    SendHistory(s, k);
    SendRest(s, k);
    hide Inv, Safely, OwnOk, Local, Announcing, Stands;
    SendLocal(home, s, k);
    SendOwn(home, s, k);
    Glue(home, s, DoSend(s, k), k);
  }

  // ----- settlement -----

  /** Success is committed together with the stop. */
  ghost predicate StopStep(s: State, t: State, k: RecordKey, now: int)
    requires k in s.attempts
  {
    && k in s.j.executions
    && t == Move(s.(j := t.j), k, Succeeded).(stops := s.stops + {k})
    && t.j == s.j.(executions := s.j.executions[k :=
                                                s.j.executions[k].(phase := Stopped, stopped := true,
                                                                   updatedAt := now)])
  }

  lemma StopLocal(s: State, t: State, k: RecordKey, now: int)
    requires At(s, k) && StopStep(s, t, k, now)
    ensures Local(s, t, k) && (HistoryOk(s) ==> HistoryOk(t)) && (CacheOk(s) ==> CacheOk(t))
  {
  }

  lemma StopOwn(home: Home, s: State, t: State, k: RecordKey, now: int)
    requires OwnOk(home, s, k) && s.attempts[k].pc.Closing? && StopStep(s, t, k, now)
    ensures OwnOk(home, t, k)
  {
  }

  lemma StopKeeps(home: Home, s: State, k: RecordKey, now: int)
    requires Inv(home, s) && At(s, k) && s.attempts[k].pc.Closing?
    requires MarkStopped(s.lim, s.j, TurnOf(k, s.attempts[k]), now).Ok?
    ensures Safely(home, s, Move(s.(j := MarkStopped(s.lim, s.j, TurnOf(k, s.attempts[k]), now).value), k, Succeeded)
                           .(stops := s.stops + {k}))
  {
    var t := Move(s.(j := MarkStopped(s.lim, s.j, TurnOf(k, s.attempts[k]), now).value), k,
                  Succeeded).(stops := s.stops + {k});
    OwnOf(home, s, k);
    JournalOf(home, s);
    ClosingRecord(home, s, k);
    FlagsKeep(home, s.lim, s.j, s.j.executions[k].(phase := Stopped, stopped := true), now);
    hide Inv, Safely, OwnOk, Local, HistoryOk, JournalOk, CacheOk;
    StopLocal(s, t, k, now);
    StopOwn(home, s, t, k, now);
    Glue(home, s, t, k);
  }

  lemma ClosingRecord(home: Home, s: State, k: RecordKey)
    requires OwnOk(home, s, k) && s.attempts[k].pc.Closing?
    ensures KeyOf(TurnOf(k, s.attempts[k])) == k && k in s.j.executions && s.j.executions[k].id == k
    ensures s.j.executions[k].phase == Intent && k in s.sent
  {
  }

  /**
   * Every other ending quarantines the context before the lock is released, whether or not the record can be marked.
   */
  lemma FenceLocal(home: Home, s: State, k: RecordKey, now: int)
    requires k in s.attempts && s.attempts[k].pc.Closing? && OwnOk(home, s, k)
    ensures Local(s, Quarantine(s, k, now), k) && (CacheOk(s) ==> CacheOk(Quarantine(s, k, now)))
  {
    hide OwnOk, Quarantine, OwnJournal;
    ClosingHolds(home, s, k);
    FenceShape(home, s, k, now);
  }

  lemma FenceShape(home: Home, s: State, k: RecordKey, now: int)
    requires k in s.attempts && s.attempts[k].pc.Closing? && OwnOk(home, s, k)
    ensures var t := Quarantine(s, k, now);
      && t == Move(s.(quarantine := s.quarantine + {s.attempts[k].context}, j := t.j), k, Thrown(false))
      && OwnJournal(s.j, t.j, k) && t.j.mappings == s.j.mappings
  {
    hide OwnOk;
    ClosingRecord(home, s, k);
  }

  lemma ClosingHolds(home: Home, s: State, k: RecordKey)
    requires OwnOk(home, s, k) && s.attempts[k].pc.Closing?
    ensures Holds(s.attempts[k].pc) && s.attempts[k].context in s.lock && s.lock[s.attempts[k].context] == k
  {
    hide PcOk;
  }

  lemma FenceOwn(home: Home, s: State, k: RecordKey, now: int)
    requires OwnOk(home, s, k) && s.attempts[k].pc.Closing?
    ensures OwnOk(home, Quarantine(s, k, now), k)
  {
    ClosingRecord(home, s, k);
  }

  lemma FenceSound(home: Home, s: State, k: RecordKey, now: int)
    requires OwnOk(home, s, k) && s.attempts[k].pc.Closing? && JournalOk(home, s.j) && s.j.version == Some(1)
    ensures JournalOk(home, Quarantine(s, k, now).j)
  {
    ClosingRecord(home, s, k);
    hide JournalOk, OwnOk;
    FlagsKeep(home, s.lim, s.j, s.j.executions[k].(phase := Unresolved, stopped := false), now);
  }

  lemma FenceQuiet(home: Home, s: State, k: RecordKey, now: int)
    requires OwnOk(home, s, k) && s.attempts[k].pc.Closing?
    ensures !Announcing(s.j, k) && var t := Quarantine(s, k, now);
      t.sends == s.sends && t.sent == s.sent && t.stops == s.stops && t.attested == s.attested
  {
    ClosingRecord(home, s, k);
    hide OwnOk, MarkUnresolved;
  }

  lemma FenceMoves(home: Home, s: State, k: RecordKey, now: int)
    requires k in s.attempts && s.attempts[k].pc.Closing? && OwnOk(home, s, k)
    ensures Step(home, s, Quarantine(s, k, now), k)
  {
    hide OwnOk, Local, HistoryOk, JournalOk, CacheOk, Announcing, Stands, Quarantine, RecordOk, TaskOk, Injective;
    FenceQuiet(home, s, k, now);
    if JournalOk(home, s.j) && s.j.version == Some(1) { FenceSound(home, s, k, now); }
    FenceLocal(home, s, k, now);
    FenceOwn(home, s, k, now);
    SameHistory(s, Quarantine(s, k, now));
  }

  lemma FenceKeeps(home: Home, s: State, k: RecordKey, now: int)
    requires k in s.attempts && s.attempts[k].pc.Closing?
    requires Inv(home, s) && At(s, k)
    ensures Safely(home, s, Quarantine(s, k, now))
  {
    hide *;
    OwnOf(home, s, k);
    FenceMoves(home, s, k, now);
    Glue(home, s, Quarantine(s, k, now), k);
  }

  lemma CloseSessionKeeps(home: Home, s: State, k: RecordKey, cleanup: bool, now: int)
    requires Inv(home, s) && At(s, k) && s.attempts[k].pc.Closing?
    ensures Safely(home, s, DoCloseSession(s, k, cleanup, now))
  {
    hide Inv, Safely, MarkStopped, Quarantine;
    if s.attempts[k].pc.good && cleanup && MarkStopped(s.lim, s.j, TurnOf(k, s.attempts[k]), now).Ok? {
      StopKeeps(home, s, k, now);
    } else {
      FenceKeeps(home, s, k, now);
    }
  }

  // ----- publication -----

  lemma PublicationShape(lim: Limits, j: Journal, r: Record, snapshot: Task, now: int)
    requires CommitPublication(lim, j, r, snapshot, now).Ok?
    ensures var later := CommitPublication(lim, j, r, snapshot, now).value;
      && later == j.(publications := j.publications[r.id := snapshot], executions := later.executions)
      && later.executions == j.executions[r.id := WithPublication(r.(phase := Publishing, updatedAt := now))]
      && OwnJournal(j, later, r.id)
  {
  }

  lemma PublishParts(home: Home, s: State, t: State, k: RecordKey, now: int)
    requires OwnOk(home, s, k) && s.attempts[k].pc.Reducing?
    requires t == Move(s.(j := t.j), k, Announced(s.attempts[k].pc.state))
    requires t.j == s.j.(publications := t.j.publications, executions := t.j.executions)
    requires t.j.executions == s.j.executions[k :=
                                              WithPublication(s.attempts[k].pc.marked.(phase := Publishing,
                                                  updatedAt := now))]
    ensures AfterTurnOk(home, t, k, t.attempts[k]) && (k in s.sent ==> SentOk(t, k))
  {
    hide JournalOk;
  }

  lemma PublishSound(home: Home, s: State, k: RecordKey, now: int)
    requires OwnOk(home, s, k) && s.attempts[k].pc.Reducing?
    ensures var pc := s.attempts[k].pc;
      (JournalOk(home, s.j) && s.j.version == Some(1)
       && CommitPublication(s.lim, s.j, pc.marked, pc.snapshot, now).Ok? ==>
            JournalOk(home, CommitPublication(s.lim, s.j, pc.marked, pc.snapshot, now).value))
    ensures s.attempts[k].pc.marked.id == k && !Announcing(s.j, k)
  {
    hide JournalOk, Blocked, SentOk;
    var pc := s.attempts[k].pc;
    if JournalOk(home, s.j) && s.j.version == Some(1) {
      PublicationKeeps(home, s.lim, s.j, pc.marked, pc.snapshot, now);
    }
  }

  lemma PublishWrites(home: Home, s: State, k: RecordKey, now: int)
    requires s.life.Attached? && k in s.attempts && s.attempts[k].pc.Reducing? && OwnOk(home, s, k)
    requires CommitPublication(s.lim, s.j, s.attempts[k].pc.marked, s.attempts[k].pc.snapshot, now).Ok?
    ensures Step(home, s, DoPublish(s, k, now), k)
  {
    hide JournalOk, HistoryOk, CacheOk, Local, AttemptOk, SentOk, Blocked, OwnJournal, CommitPublication,
         AfterTurnOk, OwnOk, Step,
         Announcing;
    var pc := s.attempts[k].pc;
    PublishSound(home, s, k, now);
    PublicationShape(s.lim, s.j, pc.marked, pc.snapshot, now);
    PublishParts(home, s, DoPublish(s, k, now), k, now);
    Write(home, s, k, CommitPublication(s.lim, s.j, pc.marked, pc.snapshot, now).value, Announced(pc.state));
  }

  lemma PublishKeeps(home: Home, s: State, k: RecordKey, now: int)
    requires s.life.Attached? && k in s.attempts && s.attempts[k].pc.Reducing?
    requires Inv(home, s) && At(s, k)
    requires CommitPublication(s.lim, s.j, s.attempts[k].pc.marked, s.attempts[k].pc.snapshot, now).Ok?
    ensures Safely(home, s, DoPublish(s, k, now))
  {
    hide *;
    OwnOf(home, s, k);
    PublishWrites(home, s, k, now);
    Glue(home, s, DoPublish(s, k, now), k);
  }

  lemma AckLocal(s: State, k: RecordKey, acks: set<RecordKey>, pc: Pc)
    requires At(s, k) && s.acks <= acks
    ensures Local(s, Move(s.(acks := acks), k, pc), k)
  {
  }

  lemma AckOwn(home: Home, s: State, k: RecordKey, acks: set<RecordKey>, pc: Pc)
    requires OwnOk(home, s, k) && s.attempts[k].pc.Announced? && k in s.j.executions
    requires s.j.executions[k].phase.Publishing? ==> k in acks
    requires var r := s.j.executions[k];
      pc == (if r.phase.Publishing? then Awaiting(s.attempts[k].pc.state) else Acknowledged(s.attempts[k].pc.state))
    ensures OwnOk(home, Move(s.(acks := acks), k, pc), k)
  {
    if s.j.executions[k].phase.Publishing? {
      AwaitOwn(home, s, k, acks);
    } else {
      AcknowledgedOwn(home, s, k, acks);
    }
    hide *;
  }

  lemma AwaitOwn(home: Home, s: State, k: RecordKey, acks: set<RecordKey>)
    requires OwnOk(home, s, k) && s.attempts[k].pc.Announced? && k in s.j.executions
    requires s.j.executions[k].phase.Publishing? && k in acks
    ensures OwnOk(home, Move(s.(acks := acks), k, Awaiting(s.attempts[k].pc.state)), k)
  {
  }

  lemma AcknowledgedOwn(home: Home, s: State, k: RecordKey, acks: set<RecordKey>)
    requires OwnOk(home, s, k) && s.attempts[k].pc.Announced? && k in s.j.executions
    requires !s.j.executions[k].phase.Publishing?
    ensures OwnOk(home, Move(s.(acks := acks), k, Acknowledged(s.attempts[k].pc.state)), k)
  {
  }

  lemma AckKeeps(home: Home, s: State, k: RecordKey, acks: set<RecordKey>, pc: Pc)
    requires At(s, k) && s.attempts[k].pc.Announced? && k in s.j.executions
    requires s.acks <= acks && (s.j.executions[k].phase.Publishing? ==> k in acks)
    requires var r := s.j.executions[k];
      pc == (if r.phase.Publishing? then Awaiting(s.attempts[k].pc.state) else Acknowledged(s.attempts[k].pc.state))
    requires Inv(home, s)
    ensures Safely(home, s, Move(s.(acks := acks), k, pc))
  {
    hide Inv, Safely, OwnOk, Local, HistoryOk, JournalOk, CacheOk;
    OwnOf(home, s, k);
    AckLocal(s, k, acks, pc);
    AckOwn(home, s, k, acks, pc);
    SameHistory(s, Move(s.(acks := acks), k, pc));
    Glue(home, s, Move(s.(acks := acks), k, pc), k);
  }
}
