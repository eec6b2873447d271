/**
 * What one executed request puts on the wire, against what it put in the journal.
 *
 * `executeTurn` runs as a method over its two helper objects. The runner's callbacks are three sequences: those
 * made before the turn settles, those made while the publication is being journalled, and those made after
 * settlement. The journal calls and the turn's result are parameters.
 */
module WireStream {
  import opened Prelude
  import A2A

  datatype Phase = Thinking | Tool | Retrying | Writing

  /** A callback of the runner: assistant text, or a change of phase. */
  datatype Callback = AssistantText(chunk: string) | Progress(phase: Phase)

  datatype Event =
    | TaskEvent
    | WorkingStatus(progress: Option<Phase>)
    | ArtifactEvent(text: string, lastChunk: bool)
    | TerminalStatus(state: A2A.TaskState)

  /** How the runner call ended; `state` differs from completion only for an interruption. */
  datatype Turn =
    | Completed(text: string, state: A2A.TaskState)
    | Cancelled
    | Errored

  /** What the journal and the rest of the process let this execution do. */
  datatype Fate = Fate(accepted: bool, published: bool, quarantined: bool, aborted: bool)

  // ----- the specification -----

  function PhaseOf(c: Callback): Phase {
    if c.AssistantText? then Writing else c.phase
  }

  /** A status for each change of phase. */
  function ProgressOf(callbacks: seq<Callback>): seq<Event> {
    if callbacks == [] then []
    else
      var n := |callbacks| - 1;
      var phase := PhaseOf(callbacks[n]);
      ProgressOf(callbacks[..n]) + if n > 0 && PhaseOf(callbacks[n - 1]) == phase then []
        else [WorkingStatus(Some(phase))]
  }

  /** The assistant text, chunk after chunk. */
  function TextOf(callbacks: seq<Callback>): string {
    if callbacks == [] then ""
    else
      var n := |callbacks| - 1;
      TextOf(callbacks[..n]) + if callbacks[n].AssistantText? then callbacks[n].chunk else ""
  }

  predicate Succeeds(turn: Turn, fate: Fate) {
    turn.Completed? && !fate.quarantined && !fate.aborted
  }

  function StateOf(turn: Turn, fate: Fate): A2A.TaskState {
    match turn
    case Completed(_, state) => if fate.quarantined then A2A.Failed else if fate.aborted then A2A.Canceled else state
    case Cancelled => if fate.quarantined then A2A.Failed else A2A.Canceled
    case Errored => A2A.Failed
  }

  /** The text of the artifact: what was streamed, or on success the result the runner returned instead. */
  function FinalText(callbacks: seq<Callback>, turn: Turn, fate: Fate): string {
    if TextOf(callbacks) == "" && Succeeds(turn, fate) then turn.text else TextOf(callbacks)
  }

  /**
   * What is journalled, and then published, as the last word: the artifact if there is text, and the terminal status.
   */
  function LastWord(callbacks: seq<Callback>, turn: Turn, fate: Fate): seq<Event> {
    var text := FinalText(callbacks, turn, fate);
    (if text == "" then [] else [ArtifactEvent(text, Succeeds(turn, fate))]) + [TerminalStatus(StateOf(turn, fate))]
  }

  /** What is published: by then the artifact also has the text that came while the journal was written. */
  function Published(callbacks: seq<Callback>, between: seq<Callback>, turn: Turn, fate: Fate): seq<Event> {
    var text := FinalText(callbacks, turn, fate) + TextOf(between);
    (if text == "" then [] else [ArtifactEvent(text, Succeeds(turn, fate))]) + [TerminalStatus(StateOf(turn, fate))]
  }

  function Wire(callbacks: seq<Callback>, between: seq<Callback>, turn: Turn, fate: Fate): seq<Event> {
    if !fate.accepted then []
    else
      [TaskEvent, WorkingStatus(None)] + ProgressOf(callbacks)
      + if fate.published then Published(callbacks, between, turn, fate) else []
  }

  // ----- what every stream satisfies -----

  lemma {:induction false} ProgressShape(callbacks: seq<Callback>)
    ensures var p := ProgressOf(callbacks);
      && (forall i :: 0 <= i < |p| ==> p[i].WorkingStatus? && p[i].progress.Some?)
      && (forall i :: 0 < i < |p| ==> p[i] != p[i - 1])
      && (callbacks == [] <==> p == [])
      && (callbacks != [] ==> p[|p| - 1] == WorkingStatus(Some(PhaseOf(callbacks[|callbacks| - 1]))))
  {
    if callbacks != [] {
      var init := callbacks[..|callbacks| - 1];
      ProgressShape(init);
      if init != [] { assert init[|init| - 1] == callbacks[|callbacks| - 2]; }
    }
  }

  /**
   * The shape of the stream. It opens with the task and one working status; progress follows without
   * immediate repeats; and either the last word ends it, whole and once, or, when journalling failed, it
   * carries no artifact and no terminal status at all.
   */
  lemma StreamShape(callbacks: seq<Callback>, between: seq<Callback>, turn: Turn, fate: Fate)
    requires fate.accepted
    ensures var w, last := Wire(callbacks, between, turn, fate), Published(callbacks, between, turn, fate);
      && w[..2] == [TaskEvent, WorkingStatus(None)]
      && (fate.published ==> |w| >= 2 + |last| && w[|w| - |last|..] == last)
      && (fate.published ==> forall i :: 1 <= i < |w| - |last| ==> w[i].WorkingStatus? && w[i] != w[i - 1])
      && (!fate.published ==> forall i :: 1 <= i < |w| ==> w[i].WorkingStatus? && w[i] != w[i - 1])
  {
    ProgressShape(callbacks);
    var head, p, last := [TaskEvent, WorkingStatus(None)], ProgressOf(callbacks),
      Published(callbacks, between, turn, fate);
    var w := Wire(callbacks, between, turn, fate);
    assert w == head + p + if fate.published then last else [];
    forall i | 1 <= i < 2 + |p| ensures w[i].WorkingStatus? && w[i] != w[i - 1] {
      if i >= 2 { assert w[i] == p[i - 2]; }
      if i >= 3 { assert w[i - 1] == p[i - 3]; }
    }
  }

  /**
   * The stream agrees with the journal, in that what follows the progress is the journalled last word,
   * exactly when no assistant text arrives while that word is being journalled. Progress during that time
   * never shows.
   */
  lemma StreamAgreesWithJournal(callbacks: seq<Callback>, between: seq<Callback>, turn: Turn, fate: Fate)
    requires fate.accepted && fate.published
    ensures var w, p := Wire(callbacks, between, turn, fate), ProgressOf(callbacks);
      |w| >= 2 + |p| && (w[2 + |p|..] == LastWord(callbacks, turn, fate) <==> TextOf(between) == "")
  {
    var w, last, seen := Wire(callbacks, between, turn, fate), LastWord(callbacks, turn, fate),
      Published(callbacks, between, turn, fate);
    var text := FinalText(callbacks, turn, fate);
    assert w[2 + |ProgressOf(callbacks)|..] == seen;
    hide ProgressOf, TextOf, FinalText;
    if TextOf(between) != "" {
      assert |text + TextOf(between)| > |text|;
      assert seen[0] == ArtifactEvent(text + TextOf(between), Succeeds(turn, fate));
      assert last[0] == if text == "" then TerminalStatus(StateOf(turn, fate))
        else ArtifactEvent(text, Succeeds(turn, fate));
    } else {
      assert text + "" == text;
    }
  }

  /** Even then only the text differs: the artifact on the wire extends the journalled one. */
  lemma OnlyTextDiffers(callbacks: seq<Callback>, between: seq<Callback>, turn: Turn, fate: Fate)
    ensures var seen, last := Published(callbacks, between, turn, fate), LastWord(callbacks, turn, fate);
      && seen[|seen| - 1] == last[|last| - 1] && |last| <= |seen|
      && (|last| == 2 ==> seen[0].text[..|last[0].text|] == last[0].text && seen[0].lastChunk == last[0].lastChunk)
  {
    var text := FinalText(callbacks, turn, fate);
    assert (text + TextOf(between))[..|text|] == text;
  }

  /** `lastChunk` is true only on success, and then the terminal status is the runner's own state. */
  lemma LastChunkMeansSuccess(callbacks: seq<Callback>, between: seq<Callback>, turn: Turn, fate: Fate, i: nat)
    requires i < |Wire(callbacks, between, turn, fate)| && Wire(callbacks, between, turn, fate)[i].ArtifactEvent?
    ensures var w := Wire(callbacks, between, turn, fate);
      && i == |w| - 2 && w[i].text != ""
      && (w[i].lastChunk <==> turn.Completed? && !fate.quarantined && !fate.aborted)
      && (w[i].lastChunk ==> w[i + 1] == TerminalStatus(turn.state))
  {
    StreamShape(callbacks, between, turn, fate);
  }

  // ----- the executor as it runs -----

  class EventBus {
    var events: seq<Event>

    constructor ()
      ensures events == []
    {
      events := [];
    }

    method Publish(e: Event)
      modifies this
      ensures events == old(events) + [e]
    {
      events := events + [e];
    }
  }

  class ProgressStatus {
    const bus: EventBus
    var last: Option<Phase>
    var closed: bool

    constructor (bus: EventBus)
      ensures this.bus == bus && last == None && !closed
    {
      this.bus, last, closed := bus, None, false;
    }

    method Update(phase: Phase)
      modifies this, bus
      ensures bus.events == old(bus.events) + if old(closed) || Some(phase) == old(last) then []
        else [WorkingStatus(Some(phase))]
      ensures last == (if old(closed) then old(last) else Some(phase)) && closed == old(closed)
    {
      if closed || Some(phase) == last { return; }
      last := Some(phase);
      bus.Publish(WorkingStatus(Some(phase)));
    }

    method Close()
      modifies `closed
      ensures closed
    {
      closed := true;
    }
  }

  class TextArtifact {
    const bus: EventBus
    var text: string          // the chunks, joined
    var settled: bool

    constructor (bus: EventBus)
      ensures this.bus == bus && text == "" && !settled
    {
      this.bus, text, settled := bus, "", false;
    }

    method Push(chunk: string)
      modifies `text
      ensures text == if old(settled) then old(text) else old(text) + chunk
    {
      if !settled { text := text + chunk; }
    }

    /** Only when nothing was streamed. */
    method Prepare(fallback: string)
      modifies `text
      ensures text == if old(text) == "" then fallback else old(text)
    {
      if text == "" { text := fallback; }
    }

    function Snapshot(lastChunk: bool): (events: seq<Event>)
      reads this
      ensures |events| <= 1 && (events == [] <==> text == "")
    {
      if text == "" then [] else [ArtifactEvent(text, lastChunk)]
    }

    /** Publishes once. */
    method Settle(lastChunk: bool)
      modifies `settled, bus
      ensures settled && bus.events == old(bus.events) + if old(settled) then [] else Snapshot(lastChunk)
    {
      if settled { return; }
      settled := true;
      if text != "" { bus.Publish(ArtifactEvent(text, lastChunk)); }
    }
  }

  /** Interprets the settled runner call; on success the artifact may take the runner's own text. */
  method Interpret(artifact: TextArtifact, turn: Turn, fate: Fate, ghost callbacks: seq<Callback>)
    returns (state: A2A.TaskState, successful: bool)
    requires artifact.text == TextOf(callbacks)
    modifies artifact`text
    ensures state == StateOf(turn, fate) && successful == Succeeds(turn, fate)
    ensures artifact.text == FinalText(callbacks, turn, fate)
  {
    state, successful := A2A.Failed, false;
    match turn {
      case Completed(text, reported) =>
        if !fate.quarantined {
          state := if fate.aborted then A2A.Canceled else reported;
          successful := !fate.aborted;
          if successful { artifact.Prepare(text); }
        }
      case Cancelled =>
        if !fate.quarantined { state := A2A.Canceled; }
      case Errored =>
    }
  }

  /** The end of the turn: journal first, then the last word on the wire; or neither. */
  method Settle(artifact: TextArtifact, progress: ProgressStatus, state: A2A.TaskState, successful: bool,
                published: bool, between: seq<Callback>, late: seq<Callback>)
    returns (journalled: seq<Event>)
    requires artifact.bus == progress.bus && !artifact.settled && !progress.closed
    modifies artifact, progress, progress.bus
    ensures journalled == if published then old(artifact.Snapshot(successful)) + [TerminalStatus(state)] else []
    ensures var text := old(artifact.text) + TextOf(between);
      progress.bus.events == old(progress.bus.events)
        + if !published then []
          else (if text == "" then [] else [ArtifactEvent(text, successful)]) + [TerminalStatus(state)]
  {
    hide ProgressOf, TextOf;
    progress.Close();
    if !published { return []; }
    journalled := artifact.Snapshot(successful) + [TerminalStatus(state)];
    RunTurn(artifact, progress, between);
    artifact.Settle(successful);
    progress.bus.Publish(TerminalStatus(state));
    label Said:
    RunTurn(artifact, progress, late);
    assert progress.bus.events == old@Said(progress.bus.events);
  }

  /**
   * One request. The journalled events are the out-parameter; a failed journal call throws before anything
   * final is published. Callbacks that come after settlement change nothing on the wire.
   */
  method ExecuteTurn(bus: EventBus, callbacks: seq<Callback>, between: seq<Callback>, turn: Turn, fate: Fate,
                     late: seq<Callback>)
    returns (journalled: seq<Event>)
    modifies bus
    ensures bus.events == old(bus.events) + Wire(callbacks, between, turn, fate)
    ensures journalled == if fate.accepted && fate.published then LastWord(callbacks, turn, fate) else []
  {
    hide ProgressOf, TextOf, FinalText, StateOf, Succeeds;
    if !fate.accepted { return []; }
    var artifact := new TextArtifact(bus);
    var progress := new ProgressStatus(bus);
    bus.Publish(TaskEvent);
    bus.Publish(WorkingStatus(None));
    RunTurn(artifact, progress, callbacks);
    assert "" + TextOf(callbacks) == TextOf(callbacks);
    var state, successful := Interpret(artifact, turn, fate, callbacks);
    assert bus.events == old(bus.events) + ([TaskEvent, WorkingStatus(None)] + ProgressOf(callbacks));
    ghost var text := artifact.text;
    journalled := Settle(artifact, progress, state, successful, fate.published, between, late);
    hide TextOf;
  }

  lemma NothingYet(callbacks: seq<Callback>)
    ensures ProgressOf(callbacks[..0]) == [] && TextOf(callbacks[..0]) == ""
  {
  }

  lemma Snoc(callbacks: seq<Callback>, i: nat)
    requires i < |callbacks|
    ensures var phase := PhaseOf(callbacks[i]);
      ProgressOf(callbacks[..i + 1]) ==
        ProgressOf(callbacks[..i]) + if i > 0 && PhaseOf(callbacks[i - 1]) == phase then []
          else [WorkingStatus(Some(phase))]
    ensures TextOf(callbacks[..i + 1]) == TextOf(callbacks[..i]) + if callbacks[i].AssistantText?
      then callbacks[i].chunk else ""
  {
    assert callbacks[..i + 1][..i] == callbacks[..i];
  }

  /** Callbacks: progress shows until it is closed, text is collected until the artifact is settled. */
  method RunTurn(artifact: TextArtifact, progress: ProgressStatus, callbacks: seq<Callback>)
    requires artifact.bus == progress.bus && (!progress.closed ==> progress.last == None)
    modifies artifact`text, progress, progress.bus
    ensures progress.closed == old(progress.closed)
    ensures progress.bus.events == old(progress.bus.events) + if old(progress.closed) then [] else ProgressOf(callbacks)
    ensures artifact.text == old(artifact.text) + if old(artifact.settled) then "" else TextOf(callbacks)
  {
    hide ProgressOf, TextOf;
    assert ProgressOf(callbacks[..0]) == [] && TextOf(callbacks[..0]) == "" by { NothingYet(callbacks); }
    for i := 0 to |callbacks|
      invariant progress.closed == old(progress.closed)
      invariant !progress.closed ==> progress.last == if i == 0 then None else Some(PhaseOf(callbacks[i - 1]))
      invariant progress.bus.events == old(progress.bus.events) + if old(progress.closed) then []
        else ProgressOf(callbacks[..i])
      invariant artifact.text == old(artifact.text) + if old(artifact.settled) then "" else TextOf(callbacks[..i])
    {
      Snoc(callbacks, i);
      match callbacks[i] {
        case AssistantText(chunk) =>
          progress.Update(Writing);
          artifact.Push(chunk);
        case Progress(phase) =>
          progress.Update(phase);
      }
    }
    assert callbacks[..|callbacks|] == callbacks;
  }
}
