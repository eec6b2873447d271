/**
 * What the client's submission journal guarantees over every run, with any number of calls, service
 * instances and deaths; and the two ways past a context's fence, with the exact condition of each.
 */
module ToolTheorems {
  import opened Prelude
  import opened ToolJournal
  import opened ToolJournalProofs

  // ----- quarantine -----

  /**
   * A binding never submits past an unsettled message: whenever a message is submitted, every earlier
   * submission through the same binding had its acceptance or response recorded, whatever context,
   * task or `newContext` the caller asked for.
   */
  lemma BindingQuarantine(s: State, i: nat, n: nat)
    requires Reachable(s) && i < n < |s.subs| && s.subs[i].binding == s.subs[n].binding
    ensures s.subs[i].messageId in s.settled
  {
    hide Reachable;
    ReachableInv(s);
  }

  /** At the moment of the submission, not merely in the end. */
  lemma BindingQuarantineAtSubmit(s: State, i: nat, n: nat)
    requires Reachable(s) && At(s, i, Prepared) && n < |s.subs| && s.subs[n].binding == BindingOf(s.calls[i])
    ensures s.subs[n].messageId in s.settled
  {
    hide Reachable;
    ReachableInv(s);
    OwnOf(s, i);
  }

  /** Each message is submitted at most once. */
  lemma SubmittedOnce(s: State, i: nat, n: nat)
    requires Reachable(s) && i < n < |s.subs|
    ensures s.subs[i].messageId != s.subs[n].messageId
  {
    hide Reachable;
    ReachableInv(s);
  }

  /** A submission is made only past readback, over a task that has ended or is the interrupted one being continued. */
  lemma SubmissionIsAllowed(s: State, n: nat)
    requires Reachable(s) && n < |s.subs|
    ensures var x := s.subs[n];
      && !Fenced(x.previous)
      && (x.previous.taskId.Some? ==>
            Terminal(x.previous.state) || (Interrupted(x.previous.state) && x.taskId == x.previous.taskId))
  {
    hide Reachable;
    ReachableInv(s);
    assert SubOk(s, n);
  }

  // ----- the merge -----

  /**
   * The merge repairs what a crash between the writes of one message left, and only that, when nothing else is
   * pending.
   */
  lemma MergeRepairs(binding: Rec, record: Rec)
    requires !Fenced(binding) && !binding.pending && Fenced(record)
    ensures !Fenced(Merge(binding.contextId, binding, record)) <==>
      binding.taskId.Some? && binding.messageId == record.messageId && (record.taskId.None? || record.unknown)
  {
  }

  /** Exactly when a call passes a fence that another message left in its context's record. */
  lemma MergePassesFenceExactly(context: Option<string>, binding: Rec, record: Rec)
    requires !Fenced(binding) && Fenced(record) && binding.messageId != record.messageId
    ensures !Fenced(Merge(context, binding, record)) <==>
      context == binding.contextId && binding.pending && !record.pending
  {
  }

  /**
   * The two ways past a fence, as guards on what is stored: a call that did not know the context writes what
   * the peer named over it, or a check whose binding is pending prefers it to a record that is not, and the
   * peer answers the readback.
   */
  ghost predicate Overrules(s: State, a: Action, k: Key, messageId: string) {
    || (a.Relay? && a.i in s.calls && s.calls[a.i].pc.Relaying? && s.calls[a.i].locked.Some?
        && s.calls[a.i].context.None? && s.calls[a.i].record.contextId.Some?
        && k == ExecutionOf(s.calls[a.i], s.calls[a.i].record.contextId.value)
           && s.calls[a.i].input.messageId != messageId)
    || (a.Check? && At(s, a.i, Entered) && s.calls[a.i].context.Some?
        && k == ExecutionOf(s.calls[a.i], s.calls[a.i].context.value)
        && s.calls[a.i].context == s.calls[a.i].binding.contextId
        && s.calls[a.i].binding.pending && !Load(s.store, k).pending
        && a.current.Some? && Matches(a.current.value, s.calls[a.i].binding.taskId, s.calls[a.i].context))
  }

  // ----- a crash between the two writes -----

  /**
   * A call that continues the binding's own context would be cleared, given what the peer says of the
   * task it re-reads.
   */
  predicate Admits(binding: Rec, record: Rec, taskId: Option<string>, current: Option<Reply>) {
    var merged := Merge(binding.contextId, binding, record);
    && !Fenced(binding) && !Fenced(merged)
    && (Unfinished(merged) ==>
          && current.Some? && Matches(current.value, merged.taskId, binding.contextId)
          && Allows(Snapshot(current.value, merged.messageId), taskId))
  }

  /** How the record of a known context may lag behind the binding's while its call is under way. */
  predicate PairOk(s: State, i: nat)
    requires i in s.calls
  {
    var c := s.calls[i];
    && (!Submitted(c.pc) ==> c.accepted.None?)
    && (c.pc.Relaying? ==> c.record == Load(s.store, BindingOf(c)) && WellFormed(c.record))
    && (c.pc.Relaying? && !c.pc.last ==>
          c.accepted.Some? && c.record.taskId == Some(c.accepted.value.id)
            && c.record.messageId == Some(c.input.messageId))
    && (c.pc.Relaying? && c.pc.last ==> c.record.taskId.None?)
    && (Submitted(c.pc) && c.context.Some? ==>
          var e := Load(s.store, ExecutionOf(c, c.context.value));
          && e.messageId == Some(c.input.messageId) && WellFormed(e)
          && (c.pc.Open? ==> e == Load(s.store, BindingOf(c)))
          && (e.taskId.Some? && c.accepted.Some? ==> e.taskId == Some(c.accepted.value.id))
          && (c.accepted.None? ==> e == NoteOf(c)))
  }

  ghost predicate PairsOk(s: State) {
    forall i :: i in s.calls ==> PairOk(s, i)
  }

  /** A step changes no other call, and writes only records whose locks its call holds. */
  ghost predicate Alone(s: State, t: State, i: nat) {
    && (forall n :: n != i && n in s.calls ==> n in t.calls && t.calls[n] == s.calls[n])
    && (forall n :: n != i && n in t.calls ==> n in s.calls)
    && (forall k :: Load(t.store, k) != Load(s.store, k) ==> k in s.locks && s.locks[k] == i)
  }

  /** Moving the call, and at most writing one record it holds the lock of. */
  lemma MoveAlone(s: State, t: State, i: nat, k: Key)
    requires (forall n :: n != i ==> (n in t.calls <==> n in s.calls) && (n in s.calls ==> t.calls[n] == s.calls[n]))
    requires forall q :: q != k ==> Load(t.store, q) == Load(s.store, q)
    requires t.store == s.store || (k in s.locks && s.locks[k] == i)
    ensures Alone(s, t, i)
  {
  }

  lemma CheckAlone(s: State, i: nat, current: Option<Reply>, target: Option<Reply>)
    requires i in s.calls ==> CallOk(s, i)
    ensures Alone(s, DoCheck(s, i, current, target), i)
  {
    hide Merge, Fenced, Continues, Allows, Unfinished, Matches, ContextRecord, Lost;
    if At(s, i, Entered) {
      HeldBinding(s, i);
      hide CallOk, Alone;
      var c := s.calls[i];
      var t := DoCheck(s, i, current, target);
      MoveAlone(s, t, i, if c.context.Some? then ExecutionOf(c, c.context.value) else BindingOf(c));
    } else {
      hide CallOk;
    }
  }

  lemma TakeAlone(s: State, a: Action)
    requires a.TakeBinding? || a.TakeContext? || a.Submit?
    ensures Alone(s, Exec(s, a), a.i)
  {
    hide Fenced, Matches, Alone;
    MoveAlone(s, Exec(s, a), a.i, Binding("", ""));
  }

  lemma ReadAlone(s: State, a: Action)
    requires a.Begin? || a.ReadBinding?
    ensures Alone(s, Exec(s, a), a.i)
  {
    hide Fenced, Matches, Alone;
    MoveAlone(s, Exec(s, a), a.i, Binding("", ""));
  }

  lemma BindingAlone(s: State, a: Action)
    requires a.i in s.calls ==> CallOk(s, a.i)
    requires a.WriteNote? || a.Withdraw?
    ensures Alone(s, Exec(s, a), a.i)
  {
    if a.i in s.calls { HeldBinding(s, a.i); }
    hide CallOk;
  }

  lemma HeldBinding(s: State, i: nat)
    requires i in s.calls && CallOk(s, i)
    ensures var c := s.calls[i];
      && (!c.pc.Queued? ==> BindingOf(c) in s.locks && s.locks[BindingOf(c)] == i)
      && (c.locked.Some? ==> ExecutionOf(c, c.locked.value) in s.locks && s.locks[ExecutionOf(c, c.locked.value)] == i)
      && (!Early(c.pc) && c.context.Some? ==> c.locked == c.context)
      && (c.pc.Relaying? && c.locked.Some? ==> c.record.contextId == c.locked)
  {
  }

  lemma ContextAlone(s: State, a: Action)
    requires a.i in s.calls ==> CallOk(s, a.i)
    requires a.WriteContextNote? || a.WithdrawContext?
    ensures Alone(s, Exec(s, a), a.i)
  {
    if a.i in s.calls { HeldBinding(s, a.i); }
    hide CallOk;
  }

  lemma LeaveAlone(s: State, a: Action)
    requires a.TakeLearned? || a.Stop?
    ensures Alone(s, Exec(s, a), a.i)
  {
  }

  lemma AnswerAlone(s: State, a: Action)
    requires a.i in s.calls ==> CallOk(s, a.i)
    requires a.Hear? || a.Respond?
    ensures Alone(s, Exec(s, a), a.i)
  {
    if a.i in s.calls { HeldBinding(s, a.i); }
    hide CallOk, Heard;
  }

  lemma RelayAlone(s: State, a: Action)
    requires a.i in s.calls ==> CallOk(s, a.i)
    requires a.Relay?
    ensures Alone(s, Exec(s, a), a.i)
  {
    if a.i in s.calls { HeldBinding(s, a.i); }
    hide CallOk;
  }

  lemma StepAlone(s: State, a: Action)
    requires Inv(s)
    ensures Alone(s, Exec(s, a), a.i)
  {
    if a.i in s.calls { OwnOf(s, a.i); }
    hide Inv, CallOk, SubOk, HeldOk, PreviousOk, Alone;
    if a.Check? {
      CheckAlone(s, a.i, a.current, a.target);
    } else if a.Begin? || a.ReadBinding? {
      ReadAlone(s, a);
    } else if a.TakeBinding? || a.TakeContext? || a.Submit? {
      TakeAlone(s, a);
    } else if a.WriteNote? || a.Withdraw? {
      BindingAlone(s, a);
    } else if a.Relay? {
      RelayAlone(s, a);
    } else if a.Hear? || a.Respond? {
      AnswerAlone(s, a);
    } else if a.WriteContextNote? || a.WithdrawContext? {
      ContextAlone(s, a);
    } else {
      LeaveAlone(s, a);
    }
  }

  lemma OtherPair(s: State, a: Action, n: nat)
    requires Inv(s) && n in s.calls && n != a.i && PairOk(s, n)
    ensures n in Exec(s, a).calls && PairOk(Exec(s, a), n)
  {
    var c := s.calls[n];
    OwnOf(s, n);
    var t := Exec(s, a);
    StepAlone(s, a);
    hide Exec, Inv;
  }

  /** Before the submission there is nothing to say. */
  lemma Silent(s: State, t: State, i: nat)
    requires i in t.calls && (i in s.calls ==> PairOk(s, i))
    requires i in s.calls ==> !Submitted(s.calls[i].pc) && t.calls[i].accepted == s.calls[i].accepted
    requires i !in s.calls ==> t.calls[i].accepted.None?
    requires !Submitted(t.calls[i].pc)
    ensures PairOk(t, i)
  {
  }

  lemma CheckPair(s: State, i: nat, current: Option<Reply>, target: Option<Reply>)
    requires i in DoCheck(s, i, current, target).calls && (i in s.calls ==> PairOk(s, i))
    ensures PairOk(DoCheck(s, i, current, target), i)
  {
    hide PairOk, Merge, Fenced, Continues, Allows, Unfinished, Matches, ContextRecord;
    if At(s, i, Entered) { Silent(s, DoCheck(s, i, current, target), i); }
  }

  lemma EarlyPair(s: State, a: Action)
    requires a.i in Exec(s, a).calls && (a.i in s.calls ==> PairOk(s, a.i))
    requires a.Begin? || a.TakeBinding? || a.TakeContext? || a.Stop?
    ensures PairOk(Exec(s, a), a.i)
  {
    hide PairOk;
    var t := Exec(s, a);
    if t != s { Silent(s, t, a.i); }
  }

  lemma ReadPair(s: State, a: Action)
    requires a.i in Exec(s, a).calls && (a.i in s.calls ==> PairOk(s, a.i))
    requires a.ReadBinding?
    ensures PairOk(Exec(s, a), a.i)
  {
    hide PairOk, Fenced, Matches;
    var t := Exec(s, a);
    if t != s { Silent(s, t, a.i); }
  }

  lemma NotePair(s: State, a: Action)
    requires a.i in Exec(s, a).calls && (a.i in s.calls ==> PairOk(s, a.i))
    requires a.WriteNote? || a.WriteContextNote? || a.Withdraw? || a.WithdrawContext?
    ensures PairOk(Exec(s, a), a.i)
  {
    hide PairOk, Fenced, Matches;
    var t := Exec(s, a);
    if t != s { Silent(s, t, a.i); }
  }

  lemma LatePair(s: State, a: Action)
    requires a.i in Exec(s, a).calls && (a.i in s.calls ==> CallOk(s, a.i) && PairOk(s, a.i))
    requires a.Submit? || a.Hear? || a.Respond? || a.TakeLearned? || a.Relay?
    ensures PairOk(Exec(s, a), a.i)
  {
  }

  lemma CheckIs(s: State, a: Action)
    requires a.Check?
    ensures Exec(s, a) == DoCheck(s, a.i, a.current, a.target)
  {
    hide DoCheck;
  }

  lemma OwnPair(s: State, a: Action)
    requires Inv(s) && PairsOk(s) && a.i in Exec(s, a).calls
    ensures PairOk(Exec(s, a), a.i)
  {
    if a.i in s.calls { OwnOf(s, a.i); assert PairOk(s, a.i); }
    hide Inv, Exec, PairsOk, PairOk, CallOk, SubOk;
    if a.Submit? || a.Hear? || a.Respond? || a.TakeLearned? || a.Relay? {
      LatePair(s, a);
    } else if a.Check? {
      assert Exec(s, a) == DoCheck(s, a.i, a.current, a.target) by { CheckIs(s, a); }
      CheckPair(s, a.i, a.current, a.target);
    } else if a.WriteNote? || a.WriteContextNote? || a.Withdraw? || a.WithdrawContext? {
      NotePair(s, a);
    } else if a.ReadBinding? {
      ReadPair(s, a);
    } else {
      EarlyPair(s, a);
    }
  }

  lemma {:induction false} RunPairs(actions: seq<Action>)
    ensures PairsOk(Run(actions))
  {
    if actions != [] {
      var s, a := Run(actions[..|actions| - 1]), actions[|actions| - 1];
      RunPairs(actions[..|actions| - 1]);
      RunKeeps(actions[..|actions| - 1]);
      hide Exec, Run, Inv;
      forall i | i in Exec(s, a).calls ensures PairOk(Exec(s, a), i) {
        if i == a.i { OwnPair(s, a); } else { StepAlone(s, a); OtherPair(s, a, i); }
      }
    }
  }

  /**
   * What the second of two writes leaves under the context: the record just written under the binding, or,
   * withdrawing, what was there.
   */
  function Finished(c: Call, binding: Rec): Rec {
    if c.pc.Withdrawing? then c.previous else binding
  }

  /**
   * Wherever a call dies from its first note on, also between the two writes of a note, of a task heard or
   * of a withdrawal, the pair of records it leaves admits no call through its own binding and context that
   * the finished write would not admit.
   */
  lemma CrashAdmitsNoMore(s: State, i: nat, taskId: Option<string>, current: Option<Reply>)
    requires Reachable(s) && i in s.calls && s.calls[i].context.Some? && !Unnoted(s.calls[i].pc)
    requires Load(s.store, BindingOf(s.calls[i])).contextId == s.calls[i].context
    ensures var c := s.calls[i];
      var binding, record := Load(s.store, BindingOf(c)), Load(s.store, ExecutionOf(c, c.context.value));
      && (Admits(binding, record, taskId, current) ==> Admits(binding, Finished(c, binding), taskId, current))
      && (c.pc.Noted? || c.pc.Prepared? || c.pc.Withdrawing? ==> !Admits(binding, record, taskId, current))
  {
    var actions :| Run(actions) == s;
    hide Run, Inv;
    RunKeeps(actions);
    RunPairs(actions);
    OwnOf(s, i);
    assert PairOk(s, i);
  }

  // ----- which marks a context's record keeps -----

  /** An unsettled message whose mark this record lost is not marked there again. */
  predicate GoneOk(s: State, k: Key, messageId: string) {
    Mark(k, messageId) in s.overruled && messageId !in s.settled ==> !Marks(Load(s.store, k), messageId)
  }

  /** A call's own mark stands only in the record whose lock it holds, and is not lost while the call lives. */
  ghost predicate CallTrack(s: State, i: nat)
    requires i in s.calls
  {
    var c := s.calls[i];
    && (forall k: Key :: k.Execution? && Marks(Load(s.store, k), c.input.messageId) ==>
          c.locked.Some? && k == ExecutionOf(c, c.locked.value))
    && (forall p :: p in s.overruled && p.messageId == c.input.messageId ==> p.messageId in s.settled)
  }

  ghost predicate LostOk(s: State, p: Mark) {
    p.record.Execution? && p.messageId in s.noted && GoneOk(s, p.record, p.messageId)
  }

  ghost predicate Tracked(s: State) {
    (forall p :: p in s.overruled ==> LostOk(s, p)) && (forall i :: i in s.calls ==> CallTrack(s, i))
  }

  /** What a step of call i does to the marks in the contexts' records. */
  ghost predicate Rewrites(s: State, t: State, i: nat) {
    && s.overruled <= t.overruled && s.settled <= t.settled && s.noted <= t.noted
    && (forall k: Key, m: string :: k.Execution? && Marks(Load(t.store, k), m) && !Marks(Load(s.store, k), m) ==>
          i in s.calls && m == s.calls[i].input.messageId
          && (i in t.calls ==> t.calls[i].locked.Some? && k == ExecutionOf(t.calls[i], t.calls[i].locked.value)))
    && (forall p :: p in t.overruled && p !in s.overruled ==>
          && p.record.Execution? && Marks(Load(s.store, p.record), p.messageId)
             && !Marks(Load(t.store, p.record), p.messageId)
          && p.record in s.locks && s.locks[p.record] == i && p.messageId !in s.settled
          && i in s.calls && (i in t.calls ==> p.messageId != s.calls[i].input.messageId))
    && (i in t.calls ==>
          if i in s.calls then t.calls[i].input == s.calls[i].input
                               && (s.calls[i].locked.Some? ==> t.calls[i].locked == s.calls[i].locked)
          else t.calls[i].input.messageId !in s.used && t.overruled == s.overruled && t.store == s.store)
  }

  lemma QuietRewrites(s: State, a: Action)
    requires a.i in s.calls ==> CallOk(s, a.i)
    requires a.TakeContext? || a.Submit? || a.Stop? || a.TakeLearned?
    ensures Rewrites(s, Exec(s, a), a.i)
  {
    if a.i in s.calls { HeldBinding(s, a.i); }
    hide CallOk, Fenced, Matches, Marks;
  }

  lemma EarlyRewrites(s: State, a: Action)
    requires a.i in s.calls ==> CallOk(s, a.i)
    requires a.Begin? || a.TakeBinding? || a.ReadBinding?
    ensures Rewrites(s, Exec(s, a), a.i)
  {
    if a.i in s.calls { HeldBinding(s, a.i); }
    hide CallOk, Fenced, Matches, Marks;
  }

  lemma BindingRewrites(s: State, a: Action)
    requires a.i in s.calls ==> CallOk(s, a.i)
    requires a.WriteNote? || a.Withdraw? || a.Hear? || a.Respond?
    ensures Rewrites(s, Exec(s, a), a.i)
  {
    hide CallOk, Heard, Marks;
  }

  lemma NoteRewrites(s: State, a: Action)
    requires a.i in s.calls ==> CallOk(s, a.i) && PreviousOk(s, s.calls[a.i])
    requires a.WriteContextNote? || a.WithdrawContext?
    ensures Rewrites(s, Exec(s, a), a.i)
  {
  }

  lemma RelayRewrites(s: State, a: Action)
    requires a.i in s.calls ==> CallOk(s, a.i) && PreviousOk(s, s.calls[a.i])
    requires a.Relay?
    ensures Rewrites(s, Exec(s, a), a.i)
  {
  }

  lemma CheckRewrites(s: State, a: Action)
    requires a.i in s.calls ==> CallOk(s, a.i)
    requires forall k :: Sound(s, Load(s.store, k))
    requires a.Check?
    ensures Rewrites(s, Exec(s, a), a.i)
  {
    CheckIs(s, a);
    hide Exec, Merge, Fenced, Continues, Allows, Unfinished, Matches, ContextRecord;
  }

  lemma StepRewrites(s: State, a: Action)
    requires Inv(s)
    ensures Rewrites(s, Exec(s, a), a.i)
  {
    if a.i in s.calls { OwnOf(s, a.i); }
    hide CallOk, SubOk, HeldOk, PreviousOk, Rewrites, Exec;
    if a.Check? {
      forall k ensures Sound(s, Load(s.store, k)) { OwnRecord(s, k); }
      hide Inv;
      CheckRewrites(s, a);
    } else if a.WriteContextNote? || a.WithdrawContext? {
      hide Inv;
      NoteRewrites(s, a);
    } else if a.Relay? {
      hide Inv;
      RelayRewrites(s, a);
    } else if a.WriteNote? || a.Withdraw? || a.Hear? || a.Respond? {
      hide Inv;
      BindingRewrites(s, a);
    } else if a.Begin? || a.TakeBinding? || a.ReadBinding? {
      hide Inv;
      EarlyRewrites(s, a);
    } else {
      hide Inv;
      QuietRewrites(s, a);
    }
  }

  lemma LostStays(s: State, t: State, i: nat, p: Mark)
    requires Rewrites(s, t, i) && Tracked(s) && p in t.overruled && Sound(s, Load(s.store, p.record))
    ensures LostOk(t, p)
  {
    if p in s.overruled {
      assert LostOk(s, p);
      if i in s.calls { assert CallTrack(s, i); }
    }
  }

  lemma OtherTrack(s: State, t: State, i: nat, n: nat)
    requires Rewrites(s, t, i) && n in s.calls && n in t.calls && t.calls[n] == s.calls[n] && n != i
    requires i in s.calls ==> s.calls[i].input.messageId != s.calls[n].input.messageId
    requires CallTrack(s, n) && LocksOk(s, n, s.calls[n])
    ensures CallTrack(t, n)
  {
    forall p | p in t.overruled && p.messageId == s.calls[n].input.messageId ensures p.messageId in t.settled {
      assert p in s.overruled;
    }
  }

  lemma OwnTrack(s: State, t: State, i: nat)
    requires Rewrites(s, t, i) && i in t.calls && (i in s.calls ==> CallTrack(s, i))
    requires i !in s.calls ==> s.noted <= s.used.Keys && (forall p :: p in s.overruled ==> LostOk(s, p))
    requires forall k :: Sound(s, Load(s.store, k))
    ensures CallTrack(t, i)
  {
  }

  lemma StepTracks(s: State, a: Action)
    requires Inv(s) && Tracked(s)
    ensures Tracked(Exec(s, a))
  {
    var t, i := Exec(s, a), a.i;
    StepRewrites(s, a);
    StepAlone(s, a);
    forall k ensures Sound(s, Load(s.store, k)) { OwnRecord(s, k); }
    hide Exec, CallOk, SubOk, HeldOk, PreviousOk, Rewrites, CallTrack, LostOk, HistoryOk, Sound;
    forall p | p in t.overruled ensures LostOk(t, p) { LostStays(s, t, i, p); }
    forall n | n in t.calls ensures CallTrack(t, n) {
      if n == i {
        OwnTrack(s, t, i);
      } else {
        OwnOf(s, n);
        LocksOf(s, n);
        OtherTrack(s, t, i, n);
      }
    }
  }

  lemma LocksOf(s: State, i: nat)
    requires i in s.calls && CallOk(s, i)
    ensures LocksOk(s, i, s.calls[i])
  {
  }

  lemma {:induction false} RunTracks(actions: seq<Action>)
    ensures Tracked(Run(actions))
  {
    if actions != [] {
      RunTracks(actions[..|actions| - 1]);
      RunKeeps(actions[..|actions| - 1]);
      hide Exec, Inv, Tracked;
      StepTracks(Run(actions[..|actions| - 1]), actions[|actions| - 1]);
    }
  }

  /**
   * Exactly when a context's record loses an unsettled message: the mark of a submission to context k is
   * gone after an action that does not settle it if and only if the action is one of those two writes.
   */
  lemma OverruledExactly(s: State, a: Action, n: nat, k: Key)
    requires Reachable(s) && n < |s.subs| && s.subs[n].context == Some(k)
    requires Marks(Load(s.store, k), s.subs[n].messageId) && s.subs[n].messageId !in Exec(s, a).settled
    ensures !Marks(Load(Exec(s, a).store, k), s.subs[n].messageId) <==> Overrules(s, a, k, s.subs[n].messageId)
  {
    var actions :| Run(actions) == s;
    RunKeeps(actions);
    RunTracks(actions);
    hide Run, Inv, Tracked, Exec, Overrules;
    LosesExactly(s, a, n, k);
  }

  lemma LosesExactly(s: State, a: Action, n: nat, k: Key)
    requires Inv(s) && Tracked(s) && n < |s.subs| && s.subs[n].context == Some(k)
    requires Marks(Load(s.store, k), s.subs[n].messageId) && s.subs[n].messageId !in Exec(s, a).settled
    ensures !Marks(Load(Exec(s, a).store, k), s.subs[n].messageId) <==> Overrules(s, a, k, s.subs[n].messageId)
  {
    hide Inv;
    StepRewrites(s, a);
    assert s.subs[n].messageId !in s.settled;
    assert GoneOk(s, k, s.subs[n].messageId) && Mark(k, s.subs[n].messageId) !in s.overruled;
    if a.i in s.calls { OwnOf(s, a.i); OwnRecord(s, k); }
    assert SubOk(s, n) by { SubOf(s, n); }
    hide Tracked, Rewrites;
    if a.Check? {
      CheckIs(s, a);
      hide Exec;
      CheckOverrules(s, a, n, k);
    } else if a.Relay? {
      RelayOverrules(s, a, n, k);
    } else {
      OthersKeep(s, a, n, k);
    }
  }

  lemma SubOf(s: State, n: nat)
    requires Inv(s) && n < |s.subs|
    ensures SubOk(s, n)
  {
  }

  /** An unsettled submission whose mark stands, and the call that acts. */
  ghost predicate Marked(s: State, i: nat, n: nat, k: Key) {
    && n < |s.subs| && SubOk(s, n) && s.subs[n].context == Some(k) && s.subs[n].messageId !in s.settled
    && Marks(Load(s.store, k), s.subs[n].messageId) && Mark(k, s.subs[n].messageId) !in s.overruled
    && (i in s.calls ==> CallOk(s, i) && HeldOk(s, s.calls[i]) && PreviousOk(s, s.calls[i]))
  }

  lemma CheckOverrules(s: State, a: Action, n: nat, k: Key)
    requires a.Check? && Marked(s, a.i, n, k)
    ensures !Marks(Load(DoCheck(s, a.i, a.current, a.target).store, k), s.subs[n].messageId)
            <==> Overrules(s, a, k, s.subs[n].messageId)
  {
  }

  lemma RelayOverrules(s: State, a: Action, n: nat, k: Key)
    requires a.Relay? && Marked(s, a.i, n, k)
    ensures !Marks(Load(Exec(s, a).store, k), s.subs[n].messageId) <==> Overrules(s, a, k, s.subs[n].messageId)
  {
  }

  lemma OthersKeep(s: State, a: Action, n: nat, k: Key)
    requires !a.Check? && !a.Relay? && Marked(s, a.i, n, k)
    ensures Marks(Load(Exec(s, a).store, k), s.subs[n].messageId)
  {
    if a.WriteContextNote? || a.WithdrawContext? {
      NotesKeep(s, a, n, k);
    } else {
      hide CallOk, HeldOk, PreviousOk, Fenced, Matches, Heard;
    }
  }

  lemma NotesKeep(s: State, a: Action, n: nat, k: Key)
    requires (a.WriteContextNote? || a.WithdrawContext?) && Marked(s, a.i, n, k)
    ensures Marks(Load(Exec(s, a).store, k), s.subs[n].messageId)
  {
  }

  // ----- the quarantine of a context -----

  /** This run ends in s. */
  predicate Ends(actions: seq<Action>, s: State) {
    Run(actions) == s
  }

  /** This action takes the mark of the n-th submission from its context's record. */
  ghost predicate Loses(s: State, a: Action, n: nat) {
    && n < |s.subs| && s.subs[n].context.Some?
    && Marks(Load(s.store, s.subs[n].context.value), s.subs[n].messageId)
    && Overrules(s, a, s.subs[n].context.value, s.subs[n].messageId)
  }

  /** No action of the run does. */
  ghost predicate NeverLoses(actions: seq<Action>, n: nat) {
    forall p :: 0 <= p < |actions| ==> !Loses(Run(actions[..p]), actions[p], n)
  }

  lemma NeverLosesSnoc(actions: seq<Action>, n: nat)
    requires actions != []
    ensures var init, a := actions[..|actions| - 1], actions[|actions| - 1];
      NeverLoses(actions, n) <==> NeverLoses(init, n) && !Loses(Run(init), a, n)
  {
    hide Run, Loses;
    var last := |actions| - 1;
    assert forall p :: 0 <= p < last ==> actions[..last][..p] == actions[..p] && actions[..last][p] == actions[p];
  }

  lemma SubsStay(s: State, a: Action)
    ensures s.subs <= Exec(s, a).subs
    ensures |Exec(s, a).subs| > |s.subs| ==>
      At(s, a.i, Prepared) && Exec(s, a).subs == s.subs + [SubmissionOf(s.calls[a.i])]
      && Exec(s, a).overruled == s.overruled && Exec(s, a).settled == s.settled
  {
    hide Fenced, Matches, Heard, Merge, Allows, Continues, Unfinished;
  }

  /** The message that a call is about to submit has lost no mark. */
  lemma OwnMarkStands(s: State, i: nat, k: Key)
    requires Inv(s) && Tracked(s) && At(s, i, Prepared) && s.calls[i].input.messageId !in s.settled
    ensures Mark(k, s.calls[i].input.messageId) !in s.overruled
  {
    hide Inv;
    assert CallTrack(s, i);
  }

  /** A message that is still unsettled has lost its mark exactly if some action of the run took it. */
  lemma {:induction false} RunLoses(actions: seq<Action>, n: nat)
    requires var s := Run(actions); n < |s.subs| && s.subs[n].context.Some? && s.subs[n].messageId !in s.settled
    ensures var s := Run(actions);
      Mark(s.subs[n].context.value, s.subs[n].messageId) !in s.overruled <==> NeverLoses(actions, n)
  {
    var init, a := actions[..|actions| - 1], actions[|actions| - 1];
    var s, t := Run(init), Run(actions);
    RunKeeps(init);
    RunTracks(init);
    NeverLosesSnoc(actions, n);
    SubsStay(s, a);
    hide Run, Inv, Tracked, Exec, Overrules, NeverLoses, SubOk, CallOk;
    if n < |s.subs| {
      assert t.subs[n] == s.subs[n];
      StepLoses(s, a, n);
      RunLoses(init, n);
    } else {
      OwnMarkStands(s, a.i, t.subs[n].context.value);
      Unsubmitted(init, n);
    }
  }

  /** Before its submission nothing can be lost. */
  lemma {:induction false} Unsubmitted(actions: seq<Action>, n: nat)
    requires n >= |Run(actions).subs|
    ensures NeverLoses(actions, n)
  {
    if actions != [] {
      var init, a := actions[..|actions| - 1], actions[|actions| - 1];
      SubsStay(Run(init), a);
      hide Exec, Overrules;
      Unsubmitted(init, n);
      NeverLosesSnoc(actions, n);
    }
  }

  /** One step: an unsettled submission has lost its mark after it if it had before, or if the step took it. */
  lemma StepLoses(s: State, a: Action, n: nat)
    requires Inv(s) && Tracked(s) && n < |s.subs| && s.subs[n].context.Some?
    requires s.subs <= Exec(s, a).subs && s.subs[n].messageId !in Exec(s, a).settled
    ensures s.subs[n].messageId !in s.settled
    ensures var m := Mark(s.subs[n].context.value, s.subs[n].messageId);
      m in Exec(s, a).overruled <==> m in s.overruled || Loses(s, a, n)
  {
    var t, k, m := Exec(s, a), s.subs[n].context.value, s.subs[n].messageId;
    StepRewrites(s, a);
    StepKeeps(s, a);
    StepTracks(s, a);
    SubOf(s, n);
    SubOf(t, n);
    hide Exec, Inv, Overrules, Tracked, CallOk;
    assert SubOk(t, n) && GoneOk(s, k, m) && GoneOk(t, k, m);
    if Marks(Load(s.store, k), m) { LosesExactly(s, a, n, k); }
  }

  /**
   * An unsettled message stays marked under its binding whatever crashes; and in its context's record
   * exactly as long as no action of the run is one of the two writes that take its mark.
   */
  lemma UnsettledStaysMarked(actions: seq<Action>, s: State, n: nat)
    requires Ends(actions, s) && n < |s.subs| && s.subs[n].messageId !in s.settled
    ensures var x := s.subs[n];
      && Marks(Load(s.store, x.binding), x.messageId)
      && (x.context.Some? ==> (Marks(Load(s.store, x.context.value), x.messageId) <==> NeverLoses(actions, n)))
  {
    RunKeeps(actions);
    RunTracks(actions);
    SubOf(s, n);
    hide Run, Inv, NeverLoses;
    if s.subs[n].context.Some? {
      assert GoneOk(s, s.subs[n].context.value, s.subs[n].messageId);
      RunLoses(actions, n);
    }
  }

  /**
   * No binding submits to a known context past an unsettled submission to it, by any binding, in any run in
   * which neither of the two writes takes that submission's mark.
   */
  lemma ContextQuarantine(actions: seq<Action>, s: State, i: nat, n: nat)
    requires Ends(actions, s) && i < n < |s.subs|
    requires s.subs[i].context.Some? && s.subs[i].context == s.subs[n].context
    requires NeverLoses(actions, i)
    ensures s.subs[i].messageId in s.settled
  {
    RunKeeps(actions);
    hide Run, NeverLoses;
    HistoryOf(s, i, n);
    if s.subs[i].messageId !in s.settled { RunLoses(actions, i); }
  }

  lemma HistoryOf(s: State, i: nat, n: nat)
    requires Inv(s) && i < n < |s.subs| && s.subs[i].context.Some? && s.subs[i].context == s.subs[n].context
    ensures Past(s, s.subs[i].context.value, s.subs[i].messageId)
  {
  }
}
