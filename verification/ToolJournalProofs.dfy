/** What every run of the client's submission journal keeps, and what it does not. */
module ToolJournalProofs {
  import opened Prelude
  import opened ToolJournal

  /** Every submission through this binding is settled. */
  predicate OwnClear(s: State, b: Key) {
    forall n :: 0 <= n < |s.subs| && s.subs[n].binding == b ==> s.subs[n].messageId in s.settled
  }

  /** Settled, or its mark in this context's record was written over. */
  predicate Past(s: State, k: Key, messageId: string) {
    messageId in s.settled || Mark(k, messageId) in s.overruled
  }

  /** Every submission to this known context is past. */
  predicate ContextClear(s: State, k: Key) {
    forall n :: 0 <= n < |s.subs| && s.subs[n].context == Some(k) ==> Past(s, k, s.subs[n].messageId)
  }

  /** A record as a snapshot, a note or a message response leaves it. */
  predicate WellFormed(r: Rec) {
    r.taskId.Some? ==> r.pending == !Terminal(r.state)
  }

  predicate SubOk(s: State, n: nat)
    requires n < |s.subs|
  {
    var x := s.subs[n];
    && x.messageId in s.used && s.used[x.messageId] == x.binding && x.binding.Binding?
    && (x.context.Some? ==> x.context.value.Execution?)
    && !Fenced(x.previous) && Allows(x.previous, x.taskId)
    && (x.messageId !in s.settled ==>
          && Marks(Load(s.store, x.binding), x.messageId)
          && (x.context.Some? && Mark(x.context.value, x.messageId) !in s.overruled ==>
              Marks(Load(s.store, x.context.value), x.messageId)))
  }

  predicate Early(pc: Pc) {
    pc.Queued? || pc.Bound? || pc.Located?
  }

  /** Between the binding's read and the submission. */
  predicate Vetted(pc: Pc) {
    pc.Located? || pc.Entered? || Approved(pc)
  }

  /** Between the check and the submission. */
  predicate Approved(pc: Pc) {
    pc.Cleared? || pc.Noted? || pc.Prepared? || pc.Withdrawing?
  }

  /** Before the first note. */
  predicate Unnoted(pc: Pc) {
    Early(pc) || pc.Entered? || pc.Cleared?
  }

  predicate Submitted(pc: Pc) {
    pc.Open? || pc.Relaying?
  }

  predicate Unsent(s: State, messageId: string) {
    messageId !in s.settled && forall n :: 0 <= n < |s.subs| ==> s.subs[n].messageId != messageId
  }

  predicate CallOk(s: State, i: nat)
    requires i in s.calls
  {
    var c := s.calls[i];
    && c.input.messageId in s.used && s.used[c.input.messageId] == BindingOf(c)
    && LocksOk(s, i, c)
    && (c.input.messageId in s.noted <==> !Unnoted(c.pc))
       && (Vetted(c.pc) ==> c.binding.messageId != Some(c.input.messageId))
    && (!Submitted(c.pc) ==> Unsent(s, c.input.messageId) && !c.observed)
    && (Vetted(c.pc) ==> OwnClear(s, BindingOf(c)) && !Fenced(c.binding))
    && (c.pc.Located? || c.pc.Entered? || c.pc.Cleared? || c.pc.Withdrawing? ==>
        Load(s.store, BindingOf(c)) == c.binding)
    && (Approved(c.pc) ==> !Fenced(c.previous) && Allows(c.previous, c.input.taskId)
                           && (c.context.Some? ==> ContextClear(s, ExecutionOf(c, c.context.value))))
    && (c.pc.Noted? || c.pc.Prepared? ==> Load(s.store, BindingOf(c)) == NoteOf(c))
    && ((c.pc.Prepared? || c.pc.Withdrawing?) && c.context.Some? ==>
        Load(s.store, ExecutionOf(c, c.context.value)) == NoteOf(c))
    && (Submitted(c.pc) ==> OthersSettled(s, c) && (c.observed ==> c.input.messageId in s.settled))
    && (c.pc.Open? && c.context.None? && c.locked.Some? ==>
        c.accepted.Some? && c.locked == Some(c.accepted.value.contextId))
    && (c.pc.Relaying? ==>
          && (c.locked.Some? ==> c.record.contextId == c.locked)
          && (!c.pc.last ==> c.accepted.Some? && c.record.contextId == Some(c.accepted.value.contextId))
          && (c.input.messageId !in s.settled ==> Marks(c.record, c.input.messageId)))
  }

  /** Who holds what. */
  predicate LocksOk(s: State, i: nat, c: Call) {
    && (!c.pc.Queued? ==> BindingOf(c) in s.locks && s.locks[BindingOf(c)] == i)
    && (c.locked.Some? ==> ExecutionOf(c, c.locked.value) in s.locks && s.locks[ExecutionOf(c, c.locked.value)] == i)
    && (Early(c.pc) ==> c.locked.None?)
    && (!Early(c.pc) && c.context.Some? ==> c.locked == c.context)
    && (c.locked.Some? && c.context.None? ==> Submitted(c.pc))
  }

  /** Only this call's own message may be unsettled, under its binding and in its known context. */
  predicate OthersSettled(s: State, c: Call) {
    && (forall n :: 0 <= n < |s.subs| && s.subs[n].binding == BindingOf(c)
                    && s.subs[n].messageId != c.input.messageId ==>
          s.subs[n].messageId in s.settled)
    && (c.context.Some? ==> forall n :: 0 <= n < |s.subs| ==>
          (s.subs[n].context == Some(ExecutionOf(c, c.context.value)) && s.subs[n].messageId != c.input.messageId ==>
             Past(s, ExecutionOf(c, c.context.value), s.subs[n].messageId)))
  }

  predicate HistoryOk(s: State) {
    forall i, n :: 0 <= i < n < |s.subs| ==>
      && s.subs[i].messageId != s.subs[n].messageId
      && (s.subs[i].binding == s.subs[n].binding ==> s.subs[i].messageId in s.settled)
      && (s.subs[i].context.Some? && s.subs[i].context == s.subs[n].context ==>
            Past(s, s.subs[i].context.value, s.subs[i].messageId))
  }

  predicate LockOk(s: State, k: Key)
    requires k in s.locks
  {
    && s.locks[k] in s.calls
    && var c := s.calls[s.locks[k]];
      (k == BindingOf(c) && !c.pc.Queued?) || (c.locked.Some? && k == ExecutionOf(c, c.locked.value))
  }

  /** A well-formed record of a message some note was written for. */
  predicate Sound(s: State, r: Rec) {
    WellFormed(r) && (r.messageId.Some? ==> r.messageId.value in s.noted && r.messageId.value in s.used)
  }

  predicate RecordOk(s: State, k: Key)
    requires k in s.store
  {
    && Sound(s, s.store[k])
    && (k.Binding? && s.store[k].messageId.Some? ==> s.used[s.store[k].messageId.value] == k)
  }

  predicate HeldOk(s: State, c: Call) {
    Sound(s, c.binding) && (c.binding.messageId.Some? ==> s.used[c.binding.messageId.value] == BindingOf(c))
  }

  predicate PreviousOk(s: State, c: Call) {
    && Sound(s, c.previous) && WellFormed(c.record)
    && (c.record.messageId.Some? ==> c.record.messageId.value == c.input.messageId)
  }

  ghost predicate Inv(s: State) {
    && (forall i :: i in s.calls ==> CallOk(s, i) && HeldOk(s, s.calls[i]) && PreviousOk(s, s.calls[i]))
    && (forall i, n :: i in s.calls && n in s.calls && i != n ==>
        s.calls[i].input.messageId != s.calls[n].input.messageId)
    && (forall n :: 0 <= n < |s.subs| ==> SubOk(s, n))
    && (forall k :: k in s.locks ==> LockOk(s, k))
    && (forall k :: k in s.store ==> RecordOk(s, k))
    && s.settled <= s.used.Keys && s.noted <= s.used.Keys
    && HistoryOk(s)
  }

  // ----- what a step of one call leaves alone -----

  /** A step of call i: it writes only records whose locks it holds, and history only grows. */
  ghost predicate Touches(s: State, t: State, i: nat) {
    && i in s.calls
    && t.used == s.used
    && (forall n :: n != i ==> (n in t.calls <==> n in s.calls))
    && (forall n :: n != i && n in s.calls ==> t.calls[n] == s.calls[n])
    && (forall k :: k in s.locks && s.locks[k] != i ==> k in t.locks && t.locks[k] == s.locks[k])
    && (forall k :: Load(t.store, k) != Load(s.store, k) ==> k in s.locks && s.locks[k] == i)
    && s.settled <= t.settled && s.overruled <= t.overruled && s.noted <= t.noted
    && (forall m :: m in t.settled && m !in s.settled ==> m == s.calls[i].input.messageId)
    && (forall m :: m in t.noted && m !in s.noted ==> m == s.calls[i].input.messageId)
  }

  lemma CallStays(s: State, t: State, i: nat, n: nat)
    requires Touches(s, t, i) && n != i && n in s.calls && CallOk(s, n) && t.subs == s.subs
    requires s.calls[n].input.messageId != s.calls[i].input.messageId
    ensures CallOk(t, n)
  {
    var c := s.calls[n];
    assert Load(t.store, BindingOf(c)) == Load(s.store, BindingOf(c)) || c.pc.Queued?;
    assert (c.pc.Prepared? || c.pc.Withdrawing?) && c.context.Some? ==>
      Load(t.store, ExecutionOf(c, c.context.value)) == Load(s.store, ExecutionOf(c, c.context.value));
  }

  /** What the step writes must keep every unsettled mark in place. */
  predicate MarksKept(s: State, t: State, n: nat)
    requires n < |s.subs|
  {
    var x := s.subs[n];
    x.messageId !in t.settled ==>
      && (Load(t.store, x.binding) != Load(s.store, x.binding) ==> Marks(Load(t.store, x.binding), x.messageId))
      && (x.context.Some? && Mark(x.context.value, x.messageId) !in t.overruled
          && Load(t.store, x.context.value) != Load(s.store, x.context.value) ==>
            Marks(Load(t.store, x.context.value), x.messageId))
  }

  lemma SubStays(s: State, t: State, i: nat, n: nat)
    requires Touches(s, t, i) && t.subs == s.subs && n < |s.subs| && SubOk(s, n) && MarksKept(s, t, n)
    ensures SubOk(t, n)
  {
  }

  lemma HistoryStays(s: State, t: State, i: nat)
    requires Touches(s, t, i) && t.subs == s.subs && HistoryOk(s)
    ensures HistoryOk(t)
  {
  }

  /** The call itself after its step. */
  predicate SelfOk(t: State, i: nat) {
    i in t.calls ==> CallOk(t, i) && HeldOk(t, t.calls[i]) && PreviousOk(t, t.calls[i])
  }

  lemma Glue(s: State, t: State, i: nat)
    requires Inv(s) && Touches(s, t, i) && t.subs == s.subs
    requires i in t.calls ==> t.calls[i].input == s.calls[i].input
    requires SelfOk(t, i)
    requires forall n :: 0 <= n < |s.subs| ==> MarksKept(s, t, n)
    requires forall k :: k in t.locks ==> LockOk(t, k)
    requires forall k :: k in t.store ==> RecordOk(t, k)
    ensures Inv(t)
  {
    assert s.calls[i].input.messageId in s.used by { assert CallOk(s, i); }
    forall n | n in t.calls ensures CallOk(t, n) && HeldOk(t, t.calls[n]) && PreviousOk(t, t.calls[n]) {
      if n != i { CallStays(s, t, i, n); }
    }
    forall n | 0 <= n < |t.subs| ensures SubOk(t, n) { SubStays(s, t, i, n); }
    HistoryStays(s, t, i);
  }

  lemma EndTouches(s: State, t: State, i: nat)
    requires Touches(s, t, i)
    ensures Touches(s, End(t, i), i)
  {
  }

  lemma EndLocks(s: State, i: nat)
    requires forall k :: k in s.locks && s.locks[k] != i ==> LockOk(s, k)
    ensures forall k :: k in End(s, i).locks ==> LockOk(End(s, i), k)
  {
  }

  // ----- the steps -----

  lemma StopKeeps(s: State, i: nat)
    requires Inv(s) && i in s.calls
    ensures Inv(End(s, i))
  {
    EndTouches(s, s, i);
    EndLocks(s, i);
    Glue(s, End(s, i), i);
  }

  lemma FreshUnsent(s: State, messageId: string)
    requires Inv(s) && messageId !in s.used
    ensures Unsent(s, messageId)
  {
    forall n | 0 <= n < |s.subs| ensures s.subs[n].messageId != messageId { assert SubOk(s, n); }
  }

  /** A new call with a new message: nobody else notices. */
  ghost predicate Begins(s: State, t: State, i: nat) {
    && i !in s.calls && i in t.calls
    && t == s.(calls := s.calls[i := t.calls[i]], used := s.used[t.calls[i].input.messageId := BindingOf(t.calls[i])])
    && t.calls[i].input.messageId !in s.used
    && t.calls[i] == Call(t.calls[i].input, Queued, NOTHING, None, None, NOTHING, None, false, NOTHING)
  }

  lemma BeginCall(s: State, t: State, i: nat, n: nat)
    requires Begins(s, t, i) && n in s.calls && CallOk(s, n) && HeldOk(s, s.calls[n]) && PreviousOk(s, s.calls[n])
    ensures CallOk(t, n) && HeldOk(t, t.calls[n]) && PreviousOk(t, t.calls[n])
    ensures s.calls[n].input.messageId != t.calls[i].input.messageId
  {
  }

  lemma BeginRest(s: State, t: State, i: nat)
    requires Begins(s, t, i) && HistoryOk(s)
    ensures forall n :: 0 <= n < |s.subs| && SubOk(s, n) ==> SubOk(t, n)
    ensures forall k :: k in s.locks && LockOk(s, k) ==> LockOk(t, k)
    ensures forall k :: k in s.store && RecordOk(s, k) ==> RecordOk(t, k)
    ensures HistoryOk(t)
  {
  }

  lemma BeginsKeep(s: State, t: State, i: nat)
    requires Inv(s) && Begins(s, t, i)
    ensures Inv(t)
  {
    hide CallOk, SubOk, LockOk, RecordOk, HistoryOk, HeldOk, PreviousOk, Unsent;
    FreshUnsent(s, t.calls[i].input.messageId);
    BeginRest(s, t, i);
    forall n | n in s.calls
      ensures CallOk(t, n) && s.calls[n].input.messageId != t.calls[i].input.messageId
      ensures HeldOk(t, t.calls[n]) && PreviousOk(t, t.calls[n])
    {
      BeginCall(s, t, i, n);
    }
    BeginSelf(s, t, i);
  }

  lemma BeginSelf(s: State, t: State, i: nat)
    requires Begins(s, t, i) && Unsent(s, t.calls[i].input.messageId) && t.calls[i].input.messageId !in s.noted
    ensures CallOk(t, i) && HeldOk(t, t.calls[i]) && PreviousOk(t, t.calls[i])
  {
  }

  lemma BeginKeeps(s: State, i: nat, input: Input)
    requires Inv(s)
    ensures Inv(DoBegin(s, i, input))
  {
    hide Inv;
    if !(i in s.calls || input.messageId in s.used
         || (input.newContext && (input.contextId.Some? || input.taskId.Some?))) {
      BeginsKeep(s, DoBegin(s, i, input), i);
    }
  }

  /** Call i moves on without writing a record. */
  lemma MovesKeep(s: State, t: State, i: nat)
    requires Inv(s) && i in s.calls && i in t.calls && t.calls[i].input == s.calls[i].input
    requires t == s.(calls := s.calls[i := t.calls[i]], locks := t.locks)
    requires forall k :: k in s.locks ==> k in t.locks && t.locks[k] == s.locks[k]
    requires forall k :: k in t.locks && k !in s.locks ==> t.locks[k] == i && LockOk(t, k)
    requires t.calls[i].locked == s.calls[i].locked || s.calls[i].locked.None?
    requires s.calls[i].pc.Queued? || !t.calls[i].pc.Queued?
    requires SelfOk(t, i)
    ensures Inv(t)
  {
    MovesRest(s, t, i);
    hide CallOk, SubOk, HistoryOk, HeldOk, PreviousOk, SelfOk, LockOk, RecordOk, MarksKept, Touches;
    Glue(s, t, i);
  }

  lemma MovesRest(s: State, t: State, i: nat)
    requires i in s.calls && i in t.calls && t.calls[i].input == s.calls[i].input
    requires t == s.(calls := s.calls[i := t.calls[i]], locks := t.locks)
    requires forall k :: k in s.locks ==> k in t.locks && t.locks[k] == s.locks[k]
    requires forall k :: k in t.locks && k !in s.locks ==> t.locks[k] == i && LockOk(t, k)
    requires t.calls[i].locked == s.calls[i].locked || s.calls[i].locked.None?
    requires s.calls[i].pc.Queued? || !t.calls[i].pc.Queued?
    requires forall k :: k in s.locks ==> LockOk(s, k)
    requires forall k :: k in s.store ==> RecordOk(s, k)
    ensures Touches(s, t, i) && (forall n :: 0 <= n < |s.subs| ==> MarksKept(s, t, n))
    ensures (forall k :: k in t.locks ==> LockOk(t, k)) && (forall k :: k in t.store ==> RecordOk(t, k))
  {
    forall k | k in t.locks ensures LockOk(t, k) {
      if k in s.locks { assert LockOk(s, k); }
    }
    forall k | k in t.store ensures RecordOk(t, k) { assert RecordOk(s, k); }
  }

  lemma TakeBindingKeeps(s: State, i: nat)
    requires Inv(s)
    ensures Inv(DoTakeBinding(s, i))
  {
    hide Inv;
    if At(s, i, Queued) && BindingOf(s.calls[i]) !in s.locks {
      OwnOf(s, i);
      MovesKeep(s, DoTakeBinding(s, i), i);
    }
  }

  /** A binding that passes readback has no unsettled submission. */
  lemma ReadbackClears(s: State, b: Key)
    requires Inv(s) && !Load(s.store, b).unknown
    ensures OwnClear(s, b)
  {
    forall n | 0 <= n < |s.subs| && s.subs[n].binding == b ensures s.subs[n].messageId in s.settled {
      assert SubOk(s, n);
    }
  }

  /** What is loaded is sound; under a binding it is that binding's. */
  lemma OwnRecord(s: State, k: Key)
    requires Inv(s)
    ensures Sound(s, Load(s.store, k))
    ensures var r := Load(s.store, k); k.Binding? && r.messageId.Some? ==> s.used[r.messageId.value] == k
  {
    if k in s.store { assert RecordOk(s, k); }
  }

  lemma LocatedKeeps(s: State, i: nat, context: Option<string>)
    requires Inv(s) && At(s, i, Bound) && !Fenced(Load(s.store, BindingOf(s.calls[i])))
    ensures var c := s.calls[i];
      Inv(Goto(s, i, c.(pc := Located, binding := Load(s.store, BindingOf(c)), context := context)))
  {
    hide Inv;
    var c := s.calls[i];
    OwnOf(s, i);
    ReadbackClears(s, BindingOf(c));
    OwnRecord(s, BindingOf(c));
    MovesKeep(s, Goto(s, i, c.(pc := Located, binding := Load(s.store, BindingOf(c)), context := context)), i);
  }

  lemma ReadBindingKeeps(s: State, i: nat, found: Option<Reply>, legacy: bool)
    requires Inv(s)
    ensures Inv(DoReadBinding(s, i, found, legacy))
  {
    hide Inv;
    if At(s, i, Bound) {
      var c := s.calls[i];
      StopKeeps(s, i);
      if !Fenced(Load(s.store, BindingOf(c))) {
        LocatedKeeps(s, i, if c.input.contextId.Some? then c.input.contextId
                           else if c.input.newContext then None else Load(s.store, BindingOf(c)).contextId);
        if found.Some? { LocatedKeeps(s, i, Some(found.value.contextId)); }
      }
    }
  }

  lemma TakeContextKeeps(s: State, i: nat)
    requires Inv(s)
    ensures Inv(DoTakeContext(s, i))
  {
    hide Inv;
    if At(s, i, Located) && DoTakeContext(s, i) != s {
      OwnOf(s, i);
      MovesKeep(s, DoTakeContext(s, i), i);
    }
  }

  lemma TakeLearnedKeeps(s: State, i: nat)
    requires Inv(s)
    ensures Inv(DoTakeLearned(s, i))
  {
    var t := DoTakeLearned(s, i);
    hide Inv;
    if i in s.calls && s.calls[i].pc.Relaying? && s.calls[i].locked.None? && s.calls[i].record.contextId.Some?
       && ExecutionOf(s.calls[i], s.calls[i].record.contextId.value) !in s.locks {
      OwnOf(s, i);
      MovesKeep(s, t, i);
    }
  }

  // ----- steps that write a record -----

  /** Call i writes one record whose lock it holds. */
  ghost predicate Writes(s: State, t: State, i: nat, key: Key) {
    && i in s.calls && i in t.calls && t.calls[i].input == s.calls[i].input
    && key in t.store && key in s.locks && s.locks[key] == i
    && t == s.(store := s.store[key := t.store[key]], calls := s.calls[i := t.calls[i]], settled := t.settled,
             noted := t.noted, overruled := t.overruled)
    && t.calls[i].locked == s.calls[i].locked && !t.calls[i].pc.Queued?
    && s.settled <= t.settled && s.overruled <= t.overruled && s.noted <= t.noted
    && (forall m :: m in t.settled && m !in s.settled ==> m == s.calls[i].input.messageId)
    && (forall m :: m in t.noted && m !in s.noted ==> m == s.calls[i].input.messageId)
  }

  lemma WritesTouches(s: State, t: State, i: nat, key: Key)
    requires Writes(s, t, i, key)
    ensures Touches(s, t, i)
    ensures forall k :: k in s.locks && LockOk(s, k) ==> LockOk(t, k)
    ensures forall k :: k in s.store && k != key && RecordOk(s, k) ==> RecordOk(t, k)
  {
  }

  lemma WritesKeep(s: State, t: State, i: nat, key: Key)
    requires Inv(s) && Writes(s, t, i, key) && SelfOk(t, i) && RecordOk(t, key)
    requires forall n :: 0 <= n < |s.subs| ==> MarksKept(s, t, n)
    ensures Inv(t)
  {
    WritesTouches(s, t, i, key);
    hide Touches, SelfOk, MarksKept, CallOk, SubOk, HistoryOk;
    forall k | k in t.locks ensures LockOk(t, k) { assert LockOk(s, k); }
    forall k | k in t.store ensures RecordOk(t, k) {
      if k != key { assert RecordOk(s, k); }
    }
    Glue(s, t, i);
  }

  /** The binding's record may be replaced when nothing but the call's own message can be unsettled under it. */
  lemma OwnMarks(s: State, t: State, i: nat, n: nat)
    requires i in s.calls && Writes(s, t, i, BindingOf(s.calls[i])) && n < |s.subs| && SubOk(s, n)
    requires var c := s.calls[i]; s.subs[n].binding == BindingOf(c) ==>
      s.subs[n].messageId in t.settled
      || (s.subs[n].messageId == c.input.messageId && Marks(t.store[BindingOf(c)], c.input.messageId))
    ensures MarksKept(s, t, n)
  {
  }

  /** The only record written is this context's, and a message whose mark it loses is remembered. */
  ghost predicate WritesContext(s: State, t: State, k: Key) {
    && k.Execution? && k in t.store && Lost(s, k, t.store[k]) <= t.overruled
    && (forall q :: q != k ==> Load(t.store, q) == Load(s.store, q))
    && s.settled <= t.settled && s.overruled <= t.overruled
  }

  lemma ContextMarks(s: State, t: State, k: Key, n: nat)
    requires WritesContext(s, t, k) && n < |s.subs| && SubOk(s, n)
    ensures MarksKept(s, t, n)
  {
  }

  lemma OwnOf(s: State, i: nat)
    requires Inv(s) && i in s.calls
    ensures CallOk(s, i) && HeldOk(s, s.calls[i]) && PreviousOk(s, s.calls[i])
    ensures forall n :: 0 <= n < |s.subs| ==> SubOk(s, n)
  {
  }

  lemma WriteNoteSelf(s: State, t: State, i: nat)
    requires i in s.calls && At(s, i, Cleared) && CallOk(s, i) && HeldOk(s, s.calls[i])
      && PreviousOk(s, s.calls[i])
    requires t == DoWriteNote(s, i)
    ensures Writes(s, t, i, BindingOf(s.calls[i])) && SelfOk(t, i) && RecordOk(t, BindingOf(s.calls[i]))
    ensures OwnClear(s, BindingOf(s.calls[i]))
  {
  }

  lemma WriteNoteKeeps(s: State, i: nat)
    requires Inv(s)
    ensures Inv(DoWriteNote(s, i))
  {
    if At(s, i, Cleared) {
      var t := DoWriteNote(s, i);
      OwnOf(s, i);
      WriteNoteSelf(s, t, i);
      hide Inv, CallOk, SubOk, Writes, SelfOk, RecordOk, DoWriteNote;
      forall n | 0 <= n < |s.subs| ensures MarksKept(s, t, n) { WrittenSettled(s, t, i); OwnMarks(s, t, i, n); }
      WritesKeep(s, t, i, BindingOf(s.calls[i]));
    }
  }

  lemma WrittenSettled(s: State, t: State, i: nat)
    requires exists k :: Writes(s, t, i, k)
    ensures s.settled <= t.settled
  {
  }

  lemma WithdrawSelf(s: State, t: State, i: nat)
    requires i in s.calls && At(s, i, Prepared) && CallOk(s, i) && HeldOk(s, s.calls[i])
      && PreviousOk(s, s.calls[i])
    requires t == DoWithdraw(s, i)
    ensures Writes(s, t, i, BindingOf(s.calls[i])) && SelfOk(t, i) && RecordOk(t, BindingOf(s.calls[i]))
    ensures OwnClear(s, BindingOf(s.calls[i]))
  {
  }

  lemma WithdrawKeeps(s: State, i: nat)
    requires Inv(s)
    ensures Inv(DoWithdraw(s, i))
  {
    if At(s, i, Prepared) {
      var t := DoWithdraw(s, i);
      OwnOf(s, i);
      WithdrawSelf(s, t, i);
      hide Inv, CallOk, SubOk, Writes, SelfOk, RecordOk, DoWithdraw;
      forall n | 0 <= n < |s.subs| ensures MarksKept(s, t, n) { WrittenSettled(s, t, i); OwnMarks(s, t, i, n); }
      WritesKeep(s, t, i, BindingOf(s.calls[i]));
    }
  }

  lemma HearSelf(s: State, t: State, i: nat, task: Reply, acceptance: bool)
    requires i in s.calls && At(s, i, Open) && Heard(s.calls[i], task)
    requires CallOk(s, i) && HeldOk(s, s.calls[i]) && PreviousOk(s, s.calls[i])
      && t == DoHear(s, i, task, acceptance)
    ensures Writes(s, t, i, BindingOf(s.calls[i])) && SelfOk(t, i) && RecordOk(t, BindingOf(s.calls[i]))
    ensures OthersSettled(s, s.calls[i])
    ensures s.calls[i].input.messageId in t.settled || Marks(t.store[BindingOf(s.calls[i])], s.calls[i].input.messageId)
  {
  }

  lemma HearKeeps(s: State, i: nat, task: Reply, acceptance: bool)
    requires Inv(s)
    ensures Inv(DoHear(s, i, task, acceptance))
  {
    if At(s, i, Open) && Heard(s.calls[i], task) {
      var t := DoHear(s, i, task, acceptance);
      OwnOf(s, i);
      HearSelf(s, t, i, task, acceptance);
      hide Inv, CallOk, SubOk, Writes, SelfOk, RecordOk, DoHear, Marks;
      forall n | 0 <= n < |s.subs| ensures MarksKept(s, t, n) { WrittenSettled(s, t, i); OwnMarks(s, t, i, n); }
      WritesKeep(s, t, i, BindingOf(s.calls[i]));
    }
  }

  /** A message response settles its own submission; the record names at most a context. */
  function Responded(s: State, i: nat, contextId: Option<string>): State
    requires i in s.calls
  {
    var c, record := s.calls[i], NOTHING.(contextId := contextId);
    Goto(s, i, c.(pc := Relaying(true), record := record))
      .(store := s.store[BindingOf(c) := record], settled := s.settled + {c.input.messageId})
  }

  lemma RespondSelf(s: State, t: State, i: nat, contextId: Option<string>)
    requires i in s.calls && At(s, i, Open) && s.calls[i].accepted.None?
    requires s.calls[i].context.Some? ==> contextId == s.calls[i].context
    requires CallOk(s, i) && HeldOk(s, s.calls[i]) && PreviousOk(s, s.calls[i]) && t == Responded(s, i, contextId)
    ensures Writes(s, t, i, BindingOf(s.calls[i])) && SelfOk(t, i) && RecordOk(t, BindingOf(s.calls[i]))
    ensures OthersSettled(s, s.calls[i]) && s.calls[i].input.messageId in t.settled
  {
  }

  lemma RespondedKeeps(s: State, i: nat, contextId: Option<string>)
    requires Inv(s) && At(s, i, Open) && s.calls[i].accepted.None?
    requires s.calls[i].context.Some? ==> contextId == s.calls[i].context
    ensures Inv(Responded(s, i, contextId))
  {
    var t := Responded(s, i, contextId);
    OwnOf(s, i);
    RespondSelf(s, t, i, contextId);
    hide Inv, CallOk, SubOk, Writes, SelfOk, RecordOk, Responded;
    forall n | 0 <= n < |s.subs| ensures MarksKept(s, t, n) { WrittenSettled(s, t, i); OwnMarks(s, t, i, n); }
    WritesKeep(s, t, i, BindingOf(s.calls[i]));
  }

  lemma RespondEnds(s: State, i: nat)
    requires At(s, i, Open)
    ensures DoRespond(s, i, None) == s || DoRespond(s, i, None) == End(Responded(s, i, None), i)
  {
    var c := s.calls[i];
    var told := s.(store := s.store[BindingOf(c) := NOTHING], settled := s.settled + {c.input.messageId});
    assert NOTHING.(contextId := None) == NOTHING;
    assert End(told, i).calls == End(Responded(s, i, None), i).calls;
  }

  lemma RespondKeeps(s: State, i: nat, contextId: Option<string>)
    requires Inv(s)
    ensures Inv(DoRespond(s, i, contextId))
  {
    hide Inv;
    if At(s, i, Open) && s.calls[i].accepted.None? && (s.calls[i].context.Some? ==> contextId == s.calls[i].context) {
      RespondedKeeps(s, i, contextId);
      if contextId.None? {
        RespondEnds(s, i);
        StopKeeps(Responded(s, i, None), i);
      }
    }
  }

  // ----- steps that write the context's record -----

  lemma ContextNoteSelf(s: State, t: State, i: nat)
    requires i in s.calls && At(s, i, Noted) && s.calls[i].context.Some?
    requires CallOk(s, i) && HeldOk(s, s.calls[i]) && PreviousOk(s, s.calls[i]) && t == DoWriteContextNote(s, i)
    ensures var k := ExecutionOf(s.calls[i], s.calls[i].context.value);
      Writes(s, t, i, k) && SelfOk(t, i) && RecordOk(t, k) && WritesContext(s, t, k)
  {
  }

  lemma ContextNoteKeeps(s: State, i: nat)
    requires Inv(s)
    ensures Inv(DoWriteContextNote(s, i))
  {
    hide Inv, SubOk;
    if At(s, i, Noted) {
      var t, c := DoWriteContextNote(s, i), s.calls[i];
      OwnOf(s, i);
      if c.context.Some? {
        var k := ExecutionOf(c, c.context.value);
        ContextNoteSelf(s, t, i);
        hide CallOk, Writes, SelfOk, RecordOk, DoWriteContextNote;
        forall n | 0 <= n < |s.subs| ensures MarksKept(s, t, n) { ContextMarks(s, t, k, n); }
        WritesKeep(s, t, i, k);
      } else {
        MovesKeep(s, t, i);
      }
    }
  }

  lemma WithdrawContextSelf(s: State, t: State, i: nat)
    requires i in s.calls && At(s, i, Withdrawing) && s.calls[i].context.Some?
    requires CallOk(s, i) && PreviousOk(s, s.calls[i])
    requires t == DoWithdrawContext(s, i)
    ensures var k := ExecutionOf(s.calls[i], s.calls[i].context.value);
      && Touches(s, t, i) && t.subs == s.subs && i !in t.calls && WritesContext(s, t, k) && RecordOk(t, k)
      && (forall q :: q in s.store && q != k && RecordOk(s, q) ==> RecordOk(t, q))
      && (forall q :: q in t.locks ==> q in s.locks && (LockOk(s, q) ==> LockOk(t, q)))
      && t.store.Keys == s.store.Keys + {k}
  {
  }

  lemma WithdrawContextKeeps(s: State, i: nat)
    requires Inv(s)
    ensures Inv(DoWithdrawContext(s, i))
  {
    if At(s, i, Withdrawing) {
      var c, t := s.calls[i], DoWithdrawContext(s, i);
      if c.context.Some? {
        var k := ExecutionOf(c, c.context.value);
        OwnOf(s, i);
        WithdrawContextSelf(s, t, i);
        hide CallOk, SubOk, HistoryOk, HeldOk, PreviousOk, Touches, RecordOk, LockOk, WritesContext, DoWithdrawContext;
        forall n | 0 <= n < |s.subs| ensures MarksKept(s, t, n) { ContextMarks(s, t, k, n); }
        forall q | q in t.locks ensures LockOk(t, q) { assert LockOk(s, q); }
        hide MarksKept;
        Glue(s, t, i);
      } else {
        StopKeeps(s, i);
      }
    }
  }

  /** The state right after the second write of `writeTask`. */
  function Relayed(s: State, i: nat): State
    requires i in s.calls && s.calls[i].record.contextId.Some?
  {
    Put(s, ExecutionOf(s.calls[i], s.calls[i].record.contextId.value), s.calls[i].record)
  }

  lemma RelaySelf(s: State, t: State, i: nat, next: Call)
    requires i in s.calls && s.calls[i].pc.Relaying? && s.calls[i].locked.Some? && s.calls[i].record.contextId.Some?
    requires CallOk(s, i) && HeldOk(s, s.calls[i]) && PreviousOk(s, s.calls[i])
    requires next == s.calls[i] || (!s.calls[i].pc.last && next == s.calls[i].(pc := Open))
    requires t == Goto(Relayed(s, i), i, next)
    ensures var k := ExecutionOf(s.calls[i], s.calls[i].record.contextId.value);
      Writes(s, t, i, k) && SelfOk(t, i) && RecordOk(t, k) && WritesContext(s, t, k)
  {
  }

  lemma RelayedKeeps(s: State, i: nat, next: Call)
    requires Inv(s) && i in s.calls && s.calls[i].pc.Relaying? && s.calls[i].locked.Some?
      && s.calls[i].record.contextId.Some?
    requires next == s.calls[i] || (!s.calls[i].pc.last && next == s.calls[i].(pc := Open))
    ensures Inv(Goto(Relayed(s, i), i, next))
  {
    var t := Goto(Relayed(s, i), i, next);
    var k := ExecutionOf(s.calls[i], s.calls[i].record.contextId.value);
    OwnOf(s, i);
    RelaySelf(s, t, i, next);
    hide Inv, CallOk, SubOk, Writes, SelfOk, RecordOk, Relayed, Marks, WritesContext;
    forall n | 0 <= n < |s.subs| ensures MarksKept(s, t, n) { ContextMarks(s, t, k, n); }
    WritesKeep(s, t, i, k);
  }

  lemma RelayKeeps(s: State, i: nat)
    requires Inv(s)
    ensures Inv(DoRelay(s, i))
  {
    hide Inv;
    if i in s.calls && s.calls[i].pc.Relaying? && s.calls[i].locked.Some? && s.calls[i].record.contextId.Some? {
      if s.calls[i].pc.last {
        RelayedKeeps(s, i, s.calls[i]);
        assert Goto(Relayed(s, i), i, s.calls[i]) == Relayed(s, i);
        StopKeeps(Relayed(s, i), i);
      } else {
        RelayedKeeps(s, i, s.calls[i].(pc := Open));
      }
    }
  }

  // ----- the check -----

  /**
   * A merge that asks for no readback lets a call pass only where nothing is unsettled but what was overruled before.
   */
  lemma CheckClears(s: State, i: nat)
    requires Inv(s) && At(s, i, Entered) && s.calls[i].context.Some?
    requires var c := s.calls[i]; var merged := Merge(c.context, c.binding, ContextRecord(s, c));
      !Fenced(merged) && !Unfinished(merged)
    ensures ContextClear(s, ExecutionOf(s.calls[i], s.calls[i].context.value))
  {
    var c := s.calls[i];
    var k := ExecutionOf(c, c.context.value);
    OwnOf(s, i);
    forall n | 0 <= n < |s.subs| && s.subs[n].context == Some(k) ensures Past(s, k, s.subs[n].messageId) {
      assert SubOk(s, n);
    }
  }

  /** A record that marks nothing leaves only past submissions. */
  lemma UnmarkedClears(s: State, k: Key)
    requires Inv(s) && !Load(s.store, k).unknown
    ensures ContextClear(s, k)
  {
    forall n | 0 <= n < |s.subs| && s.subs[n].context == Some(k) ensures Past(s, k, s.subs[n].messageId) {
      assert SubOk(s, n);
    }
  }

  /** The check passed without a read: the call is cleared by the merged record. */
  lemma ClearedKeeps(s: State, i: nat, previous: Rec)
    requires Inv(s) && At(s, i, Entered) && !Fenced(previous) && Allows(previous, s.calls[i].input.taskId)
    requires Sound(s, previous)
    requires s.calls[i].context.Some? ==> ContextClear(s, ExecutionOf(s.calls[i], s.calls[i].context.value))
    ensures Inv(Goto(s, i, s.calls[i].(pc := Cleared, previous := previous)))
  {
    hide Inv;
    OwnOf(s, i);
    MovesKeep(s, Goto(s, i, s.calls[i].(pc := Cleared, previous := previous)), i);
  }

  lemma ReadSelf(s: State, t: State, i: nat, read: Rec)
    requires i in s.calls && At(s, i, Entered) && s.calls[i].context.Some?
    requires CallOk(s, i) && HeldOk(s, s.calls[i]) && PreviousOk(s, s.calls[i])
    requires Sound(s, read)
    requires t == Put(s, ExecutionOf(s.calls[i], s.calls[i].context.value), read)
    ensures var k := ExecutionOf(s.calls[i], s.calls[i].context.value);
      Writes(s, t, i, k) && SelfOk(t, i) && RecordOk(t, k) && WritesContext(s, t, k)
  {
    assert t.calls == s.calls[i := s.calls[i]];
  }

  /** The re-read snapshot replaces the context's record. */
  lemma ReadKeeps(s: State, i: nat, read: Rec)
    requires Inv(s) && At(s, i, Entered) && s.calls[i].context.Some?
    requires Sound(s, read)
    ensures Inv(Put(s, ExecutionOf(s.calls[i], s.calls[i].context.value), read))
  {
    var k := ExecutionOf(s.calls[i], s.calls[i].context.value);
    var t := Put(s, k, read);
    OwnOf(s, i);
    ReadSelf(s, t, i, read);
    hide Inv, CallOk, SubOk, Writes, SelfOk, RecordOk, WritesContext;
    forall n | 0 <= n < |s.subs| ensures MarksKept(s, t, n) { ContextMarks(s, t, k, n); }
    WritesKeep(s, t, i, k);
  }

  lemma MergedOk(s: State, i: nat)
    requires Inv(s) && At(s, i, Entered)
    ensures var c := s.calls[i]; Sound(s, Merge(c.context, c.binding, ContextRecord(s, c)))
  {
    var c := s.calls[i];
    OwnOf(s, i);
    if c.context.Some? && ExecutionOf(c, c.context.value) in s.store {
      assert RecordOk(s, ExecutionOf(c, c.context.value));
    }
  }

  lemma RereadKeeps(s: State, i: nat, merged: Rec, current: Option<Reply>, target: Option<Reply>)
    requires Inv(s) && At(s, i, Entered) && !Fenced(merged) && Sound(s, merged)
    requires s.calls[i].context.Some? && !Unfinished(merged) ==>
      ContextClear(s, ExecutionOf(s.calls[i], s.calls[i].context.value))
    ensures Inv(Reread(s, i, merged, current, target))
  {
    hide Inv, ContextClear, Continues;
    var c := s.calls[i];
    StopKeeps(s, i);
    if !Unfinished(merged) {
      ClearedKeeps(s, i, merged);
    } else if c.context.Some? && current.Some? && Matches(current.value, merged.taskId, c.context) {
      var read := Snapshot(current.value, merged.messageId);
      var saved := Put(s, ExecutionOf(c, c.context.value), read);
      ReadKeeps(s, i, read);
      StopKeeps(saved, i);
      if Allows(read, c.input.taskId) {
        UnmarkedClears(saved, ExecutionOf(c, c.context.value));
        ClearedKeeps(saved, i, read);
      }
    }
  }

  lemma CheckKeeps(s: State, i: nat, current: Option<Reply>, target: Option<Reply>)
    requires Inv(s)
    ensures Inv(DoCheck(s, i, current, target))
  {
    hide Inv, ContextClear, Merge, ContextRecord, Reread;
    if At(s, i, Entered) {
      var c := s.calls[i];
      StopKeeps(s, i);
      if !Fenced(Merge(c.context, c.binding, ContextRecord(s, c))) {
        var merged := Merge(c.context, c.binding, ContextRecord(s, c));
        MergedOk(s, i);
        if c.context.Some? && !Unfinished(merged) { CheckClears(s, i); }
        RereadKeeps(s, i, merged, current, target);
      }
    }
  }

  // ----- the submission -----

  lemma SubmitSub(s: State, i: nat)
    requires i in s.calls && At(s, i, Prepared) && CallOk(s, i)
    ensures SubOk(DoSubmit(s, i), |s.subs|)
  {
  }

  lemma SubmitSelf(s: State, i: nat)
    requires i in s.calls && At(s, i, Prepared) && CallOk(s, i) && HeldOk(s, s.calls[i])
      && PreviousOk(s, s.calls[i])
    ensures SelfOk(DoSubmit(s, i), i)
  {
  }

  /** A submission elsewhere changes nothing for a binding, a context or a call. */
  lemma ElsewhereClear(s: State, t: State, x: Submission, b: Key, k: Key, m: string)
    requires t == s.(subs := s.subs + [x], calls := t.calls)
    ensures x.binding != b && OwnClear(s, b) ==> OwnClear(t, b)
    ensures x.context != Some(k) && ContextClear(s, k) ==> ContextClear(t, k)
    ensures x.messageId != m && Unsent(s, m) ==> Unsent(t, m)
  {
    forall n | 0 <= n < |t.subs| ensures t.subs[n] == if n < |s.subs| then s.subs[n] else x {}
  }

  lemma ElsewhereSettled(s: State, t: State, x: Submission, d: Call)
    requires t == s.(subs := s.subs + [x], calls := t.calls) && OthersSettled(s, d)
    requires x.binding != BindingOf(d) && (d.context.Some? ==> x.context != Some(ExecutionOf(d, d.context.value)))
    ensures OthersSettled(t, d)
  {
    forall n | 0 <= n < |t.subs| ensures t.subs[n] == if n < |s.subs| then s.subs[n] else x {}
  }

  lemma SubmitOther(s: State, i: nat, n: nat)
    requires i in s.calls && At(s, i, Prepared) && CallOk(s, i) && n in s.calls && n != i && CallOk(s, n)
    requires s.calls[n].input.messageId != s.calls[i].input.messageId
    ensures CallOk(DoSubmit(s, i), n)
  {
    var t, c, d := DoSubmit(s, i), s.calls[i], s.calls[n];
    var x := SubmissionOf(c);
    assert !d.pc.Queued? ==> BindingOf(d) != BindingOf(c);
    assert !Early(d.pc) && d.context.Some? ==> x.context != Some(ExecutionOf(d, d.context.value));
    ElsewhereClear(s, t, x, BindingOf(d), if d.context.Some? then ExecutionOf(d, d.context.value)
                   else BindingOf(d), d.input.messageId);
    if Submitted(d.pc) { ElsewhereSettled(s, t, x, d); }
    hide OwnClear, ContextClear, Unsent, OthersSettled;
  }

  lemma SubmitHistory(s: State, i: nat)
    requires i in s.calls && At(s, i, Prepared) && CallOk(s, i) && HistoryOk(s)
    ensures HistoryOk(DoSubmit(s, i))
  {
  }

  lemma SubmitFrame(s: State, i: nat)
    requires i in s.calls && At(s, i, Prepared)
    ensures var t := DoSubmit(s, i);
      && (forall n :: 0 <= n < |s.subs| && SubOk(s, n) ==> SubOk(t, n))
      && (forall k :: k in s.locks && LockOk(s, k) ==> LockOk(t, k))
      && (forall k :: k in s.store && RecordOk(s, k) ==> RecordOk(t, k))
      && (forall n :: n in s.calls ==> HeldOk(s, s.calls[n]) ==> HeldOk(t, s.calls[n]))
      && |t.subs| == |s.subs| + 1 && t.store.Keys == s.store.Keys && t.locks == s.locks && t.calls.Keys == s.calls.Keys
  {
  }

  lemma SubmitCalls(s: State, i: nat)
    requires Inv(s) && At(s, i, Prepared)
    ensures var t := DoSubmit(s, i);
      forall n :: n in t.calls ==> CallOk(t, n) && HeldOk(t, t.calls[n]) && PreviousOk(t, t.calls[n])
  {
    hide CallOk, HistoryOk, SubOk, LockOk, RecordOk;
    var t := DoSubmit(s, i);
    OwnOf(s, i);
    SubmitSelf(s, i);
    forall n | n in t.calls ensures CallOk(t, n) && HeldOk(t, t.calls[n]) && PreviousOk(t, t.calls[n]) {
      if n != i { OwnOf(s, n); SubmitOther(s, i, n); }
    }
  }

  lemma SubmitSubs(s: State, i: nat)
    requires Inv(s) && At(s, i, Prepared)
    ensures var t := DoSubmit(s, i); HistoryOk(t) && forall n :: 0 <= n < |t.subs| ==> SubOk(t, n)
  {
    hide CallOk, HistoryOk, SubOk, LockOk, RecordOk, HeldOk, PreviousOk;
    OwnOf(s, i);
    SubmitSub(s, i);
    SubmitHistory(s, i);
    SubmitFrame(s, i);
  }

  lemma SubmitKeeps(s: State, i: nat)
    requires Inv(s)
    ensures Inv(DoSubmit(s, i))
  {
    hide CallOk, HistoryOk, SubOk, LockOk, RecordOk, HeldOk, PreviousOk;
    if At(s, i, Prepared) {
      SubmitCalls(s, i);
      SubmitSubs(s, i);
      SubmitFrame(s, i);
    }
  }

  // ----- every run -----

  lemma StepKeeps(s: State, a: Action)
    requires Inv(s)
    ensures Inv(Exec(s, a))
  {
    hide Inv, DoBegin, DoTakeBinding, DoReadBinding, DoTakeContext, DoCheck, DoWriteNote, DoWriteContextNote,
         DoWithdraw,
         DoWithdrawContext, DoSubmit, DoHear, DoRespond, DoTakeLearned, DoRelay;
    match a {
      case Begin(i, input) => BeginKeeps(s, i, input);
      case TakeBinding(i) => TakeBindingKeeps(s, i);
      case ReadBinding(i, found, legacy) => ReadBindingKeeps(s, i, found, legacy);
      case TakeContext(i) => TakeContextKeeps(s, i);
      case Check(i, current, target) => CheckKeeps(s, i, current, target);
      case WriteNote(i) => WriteNoteKeeps(s, i);
      case WriteContextNote(i) => ContextNoteKeeps(s, i);
      case Withdraw(i) => WithdrawKeeps(s, i);
      case WithdrawContext(i) => WithdrawContextKeeps(s, i);
      case Submit(i) => SubmitKeeps(s, i);
      case Hear(i, task, acceptance) => HearKeeps(s, i, task, acceptance);
      case Respond(i, contextId) => RespondKeeps(s, i, contextId);
      case TakeLearned(i) => TakeLearnedKeeps(s, i);
      case Relay(i) => RelayKeeps(s, i);
      case Stop(i) => if i in s.calls { StopKeeps(s, i); }
    }
  }

  lemma {:induction false} RunKeeps(actions: seq<Action>)
    ensures Inv(Run(actions))
  {
    hide Inv, Exec;
    if actions == [] {
      assert Inv(INIT) by { InitOk(); }
    } else {
      RunKeeps(actions[..|actions| - 1]);
      StepKeeps(Run(actions[..|actions| - 1]), actions[|actions| - 1]);
    }
  }

  /** The invariant holds in every reachable state. */
  lemma ReachableInv(s: State)
    requires Reachable(s)
    ensures Inv(s)
  {
    hide Inv, Run;
    var actions :| Run(actions) == s;
    RunKeeps(actions);
  }

  lemma Reach(s: State, a: Action)
    requires Reachable(s)
    ensures Reachable(Exec(s, a))
  {
    var actions :| Run(actions) == s;
    assert (actions + [a])[..|actions|] == actions;
    hide Exec;
    assert Run(actions + [a]) == Exec(s, a);
  }

  lemma ReachInit()
    ensures Reachable(INIT)
  {
    assert Run([]) == INIT;
  }

  lemma InitOk()
    ensures Inv(INIT)
  {
  }
}
