/**
 * One turn of the runner as it runs under its context lock, over the durable hooks: the quarantine set, the
 * conversation cache and the locals of the streaming loop are updated in place.
 *
 * The session is a parameter: what `ready`, `send`, the stream and the owned cleanup do. The abort signal is
 * read at numbered points.
 */
module TurnRunner {
  import opened Prelude
  import opened Journal
  import opened SqliteStore
  import opened DurableBinding

  /**
   * `hook` is how the caller's own `beforeTurn` ends; `conversation` is absent when the session does not
   * become ready.
   */
  datatype Session = Session(hook: bool, conversation: Option<string>, sends: bool, messages: seq<SdkMessage>,
                             cleanup: bool)

  datatype TurnResult = Finished(text: string) | Cancelled | Failed

  /** What the stream says, with nothing lost on the way. */
  function TextOf(messages: seq<SdkMessage>): string {
    if messages == [] then ""
    else
      var last := messages[|messages| - 1];
      TextOf(messages[..|messages| - 1]) + if last.Assistant? then last.content else ""
  }

  function ResultOf(messages: seq<SdkMessage>): Option<SdkMessage> {
    if messages == [] then None
    else if messages[|messages| - 1].ResultMessage? then Some(messages[|messages| - 1])
    else ResultOf(messages[..|messages| - 1])
  }

  /** A settled success is the last result of the stream. */
  predicate Settled(messages: seq<SdkMessage>) {
    var r := ResultOf(messages);
    r.Some? && r.value.ResultMessage? && r.value.success && r.value.settled
  }

  /** What an observation holds across its await is still the record of its turn. */
  lemma SameAttempt(j: Journal, t: Turn, m: SdkMessage, stamp: Stamp)
    requires HasTurn(j, t) && ReadObservation(j, t, m, stamp).Ok?
    ensures var r, o := ReadObservation(j, t, m, stamp).value.record, j.executions[KeyOf(t)];
      r.id == o.id && r.taskId == o.taskId && r.contextKey == o.contextKey && r.phase == o.phase
  {
    hide RecoveryEvents, AddRuns;
  }

  /** The intent of this turn is committed, and its context is mapped to this conversation. */
  predicate Intended(j: Journal, t: Turn, conversation: string) {
    && HasTurn(j, t) && j.executions[KeyOf(t)].phase.Intent?
    && t.context in j.mappings && j.mappings[t.context] == conversation
  }

  lemma PreparingKeepsMappings(lim: Limits, j: Journal, t: Turn, now: int)
    ensures var m := BeforeTurn(lim, j, t, now); m.Ok? ==> Available(j, t.context) && m.value.mappings == j.mappings
  {
  }

  lemma IntentCommitted(lim: Limits, j: Journal, t: Turn, c: Correlation, now: int)
    requires Keyed(j) && t.context in j.mappings
    ensures var m := CommitIntent(lim, j, t, c, now); m.Ok? ==> Intended(m.value, t, j.mappings[t.context])
  {
  }

  class Runner {
    const binding: Binding
    const agentId: string
    var conversations: map<ContextKey, string>
    var unresolved: set<ContextKey>
    var sessions: seq<Option<string>>  // history: the conversation each session resumed; none for a new one
    var submitted: seq<Turn>       // history: every `session.send`

    constructor (binding: Binding, agentId: string)
      ensures this.binding == binding && this.agentId == agentId && conversations == map[] && unresolved == {}
      ensures sessions == [] && submitted == []
    {
      this.binding, this.agentId := binding, agentId;
      conversations, unresolved, sessions, submitted := map[], {}, [], [];
    }

    /** The conversation known for this context: the cached one, else the mapped one. */
    function Known(c: ContextKey): Option<string>
      reads this, binding.store
    {
      if c in conversations then Some(conversations[c])
      else if c in binding.store.state.mappings then Some(binding.store.state.mappings[c]) else None
    }

    /** Everything up to the submission. Nothing has been handed to the session when this fails. */
    method Prepare(t: Turn, session: Session, aborted: nat -> bool, stamp: Stamp) returns (r: Option<TurnResult>)
      requires binding.Ready()
      modifies `conversations, `sessions, binding.store
      ensures binding.Ready()
      ensures sessions == old(sessions) || sessions == old(sessions) + [old(Known(t.context))]
      ensures r.None? ==>
        && session.hook && sessions == old(sessions) + [old(Known(t.context))]
        && t.context !in unresolved && Available(old(binding.store.state), t.context)
        && session.conversation.Some? && Intended(binding.store.state, t, session.conversation.value)
        && conversations == old(conversations)[t.context := session.conversation.value]
      ensures r.Some? ==> !r.value.Finished?
    {
      r := Resume(t, session, aborted, stamp);
      if r.Some? { return; }
      r := Correlate(t, session.conversation.value, aborted, stamp);
    }

    /** The checks before a session exists, and the session: it resumes the known conversation. */
    method Resume(t: Turn, session: Session, aborted: nat -> bool, stamp: Stamp) returns (r: Option<TurnResult>)
      requires binding.Ready()
      modifies `sessions, binding.store
      ensures binding.Ready()
      ensures sessions == old(sessions) || sessions == old(sessions) + [old(Known(t.context))]
      ensures r.None? ==>
        && session.hook && sessions == old(sessions) + [old(Known(t.context))] && session.conversation.Some?
        && t.context !in unresolved && Available(old(binding.store.state), t.context)
      ensures r.Some? ==> !r.value.Finished?
    {
      if aborted(0) { return Some(Cancelled); }
      if t.context in unresolved { return Some(Failed); }
      if !session.hook { return Some(Failed); }
      if aborted(1) { return Some(Cancelled); }
      PreparingKeepsMappings(binding.lim, binding.store.state, t, stamp.now);
      hide BeforeTurn;
      var ok := binding.BeforeTurn(t, stamp.now);
      if !ok { return Some(Failed); }
      if aborted(2) { return Some(Cancelled); }
      var known: Option<string> := None;
      if t.context in conversations {
        known := Some(conversations[t.context]);
      } else if t.context in binding.store.state.mappings {
        known := Some(binding.store.state.mappings[t.context]);
      }
      if aborted(3) { return Some(Cancelled); }
      sessions := sessions + [known];
      if session.conversation.None? { return Some(Failed); }
      if aborted(4) { return Some(Cancelled); }
      return None;
    }

    /** The mapping, the cache, the second guard, and correlation and intent. */
    method Correlate(t: Turn, conversation: string, aborted: nat -> bool, stamp: Stamp) returns (r: Option<TurnResult>)
      requires binding.Ready()
      modifies `conversations, binding.store
      ensures binding.Ready()
      ensures r.None? ==>
        && Intended(binding.store.state, t, conversation)
        && conversations == old(conversations)[t.context := conversation]
      ensures r.Some? ==> !r.value.Finished?
    {
      var ok := binding.SetMapping(t.context, conversation);
      if !ok { return Some(Failed); }
      if aborted(5) { return Some(Cancelled); }
      conversations := conversations[t.context := conversation];
      var correlation := Correlation(agentId, conversation, t.messageId);
      ok := binding.BeforeSend(t, correlation);
      if !ok { return Some(Failed); }
      IntentCommitted(binding.lim, binding.store.state, t, correlation, stamp.now);
      hide CommitIntent;
      ok := binding.CommitIntent(t, correlation, stamp.now);
      if !ok { return Some(Failed); }
      if aborted(6) { return Some(Cancelled); }
      return None;
    }

    /** The streaming loop: each message is observed durably before it is used. */
    method Stream(t: Turn, session: Session, stamp: Stamp) returns (ok: bool, text: string, result: Option<SdkMessage>)
      requires binding.Ready() && HasTurn(binding.store.state, t)
        && binding.store.state.executions[KeyOf(t)].phase.Intent?
      modifies binding.store
      ensures binding.Ready() && HasTurn(binding.store.state, t)
        && binding.store.state.executions[KeyOf(t)].phase.Intent?
      ensures ok ==> session.sends && text == TextOf(session.messages) && result == ResultOf(session.messages)
    {
      ok, text, result := session.sends, "", None;
      if !ok { return; }
      ok := binding.Sent(t, stamp.now);
      if !ok { return; }
      for i := 0 to |session.messages|
        invariant ok && binding.Ready()
        invariant HasTurn(binding.store.state, t) && binding.store.state.executions[KeyOf(t)].phase.Intent?
        invariant text == TextOf(session.messages[..i]) && result == ResultOf(session.messages[..i])
      {
        var message := session.messages[i];
        assert session.messages[..i + 1][..i] == session.messages[..i];
        ok := Observe(t, message, stamp);
        if !ok { return; }
        if message.Assistant? { text := text + message.content; }
        if message.ResultMessage? { result := Some(message); }
      }
      assert session.messages[..|session.messages|] == session.messages;
    }

    method Observe(t: Turn, message: SdkMessage, stamp: Stamp) returns (ok: bool)
      requires binding.Ready() && HasTurn(binding.store.state, t)
        && binding.store.state.executions[KeyOf(t)].phase.Intent?
      modifies binding.store
      ensures binding.Ready() && HasTurn(binding.store.state, t)
        && binding.store.state.executions[KeyOf(t)].phase.Intent?
    {
      var read := binding.Observe(t, message, stamp);
      if read.Err? { return false; }
      SameAttempt(binding.store.state, t, message, stamp);
      hide ReadObservation, RecoveryEvents, Fold;
      ok := binding.CommitObserved(read.value.record, read.value.snapshot, stamp.now);
    }

    /**
     * The turn. Input is submitted at most once, and only in a context that is neither quarantined nor
     * waiting for reconciliation; a submission whose stop is not committed leaves its context quarantined;
     * a finished turn has a settled success, a committed stop and the whole text of the stream.
     */
    method RunTurn(t: Turn, session: Session, aborted: nat -> bool, stamp: Stamp) returns (r: TurnResult)
      requires binding.Ready()
      modifies this, binding.store
      ensures binding.Ready()
      ensures submitted == old(submitted) || submitted == old(submitted) + [t]
      ensures submitted != old(submitted) ==>
        t.context !in old(unresolved) && Available(old(binding.store.state), t.context)
      ensures var stopped := HasTurn(binding.store.state, t) && binding.store.state.executions[KeyOf(t)].phase.Stopped?
                             && binding.store.state.executions[KeyOf(t)].stopped;
        if submitted == old(submitted) then unresolved == old(unresolved) && !r.Finished?
        else (unresolved == old(unresolved) && stopped && session.cleanup && Settled(session.messages))
             || (unresolved == old(unresolved) + {t.context} && r.Failed?)
      ensures r.Finished? ==> unresolved == old(unresolved)
      ensures r.Finished? ==> ResultOf(session.messages).Some? && ResultOf(session.messages).value.ResultMessage?
      ensures r.Finished? ==> r.text == if TextOf(session.messages) != "" then TextOf(session.messages)
                                        else ResultOf(session.messages).value.result
    {
      var refused := Prepare(t, session, aborted, stamp);
      if refused.Some? { return refused.value; }
      submitted := submitted + [t];
      var ok, text, result := Stream(t, session, stamp);
      ok := ok && session.cleanup && result.Some? && result.value.ResultMessage? && result.value.success
        && result.value.settled;
      if ok { ok := binding.Stopped(t, stamp.now); }
      if !ok {
        unresolved := unresolved + {t.context};
        var _ := binding.Unresolved(t, stamp.now);
        return Failed;
      }
      if aborted(7) { return Cancelled; }
      r := Finished(if text != "" then text else result.value.result);
    }
  }
}
