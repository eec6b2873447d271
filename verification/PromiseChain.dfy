/**
 * The promise-chain lock: the runner's `withContextLock`, the client's in-memory `withLock` and the
 * push sender's delivery chain. Each arrival links a promise behind the tail stored for its key; the
 * stored tail is deleted once it has settled.
 *
 * A link settles when its own gate is released and the link before it has settled. Callbacks run at any
 * later time, in any order. Cancelling a waiter releases only its own gate.
 */
module PromiseChain {
  import opened Prelude

  datatype Phase = Waiting | Running | Left

  datatype Link = Link(key: string, prev: Option<nat>, phase: Phase)

  /** `started` is history: the bodies in the order in which they began. */
  datatype Chain = Chain(links: seq<Link>, tails: map<string, nat>, started: seq<nat>)

  datatype Action =
    | Arrive(key: string)
    | Start(i: nat)      // the promise before link i has settled: its body begins
    | Cancel(i: nat)     // an aborted waiter leaves without running
    | Exit(i: nat)       // the body of link i ended, by returning or throwing
    | Forget(i: nat)     // link i has settled: its map entry is deleted if it is still the tail

  const EMPTY := Chain([], map[], [])

  /** The promise of link i has settled. */
  predicate Settled(links: seq<Link>, i: nat)
    decreases i
  {
    && i < |links| && links[i].phase.Left?
    && (links[i].prev.Some? ==> links[i].prev.value < i && Settled(links, links[i].prev.value))
  }

  predicate Enabled(c: Chain, a: Action) {
    match a
    case Arrive(_) => true
    case Start(i) =>
      && i < |c.links| && c.links[i].phase.Waiting?
      && (c.links[i].prev.Some? ==> Settled(c.links, c.links[i].prev.value))
    case Cancel(i) => i < |c.links| && c.links[i].phase.Waiting?
    case Exit(i) => i < |c.links| && c.links[i].phase.Running?
    case Forget(i) => Settled(c.links, i)
  }

  function SetPhase(links: seq<Link>, i: nat, phase: Phase): seq<Link>
    requires i < |links|
  {
    links[i := links[i].(phase := phase)]
  }

  function Step(c: Chain, a: Action): Chain {
    if !Enabled(c, a) then c
    else
      match a
      case Arrive(key) =>
        Chain(c.links + [Link(key, if key in c.tails then Some(c.tails[key]) else None, Waiting)],
              c.tails[key := |c.links|], c.started)
      case Start(i) => c.(links := SetPhase(c.links, i, Running), started := c.started + [i])
      case Cancel(i) => c.(links := SetPhase(c.links, i, Left))
      case Exit(i) => c.(links := SetPhase(c.links, i, Left))
      case Forget(i) =>
        var key := c.links[i].key;
        if key in c.tails && c.tails[key] == i then c.(tails := c.tails - {key}) else c
  }

  function Run(actions: seq<Action>): Chain {
    if actions == [] then EMPTY else Step(Run(actions[..|actions| - 1]), actions[|actions| - 1])
  }

  // ----- the invariant -----

  /** Every link of this key below n is out of the way. */
  predicate Clear(links: seq<Link>, key: string, n: nat) {
    forall m :: 0 <= m < n && m < |links| && links[m].key == key ==> links[m].phase.Left?
  }

  predicate LinkOk(links: seq<Link>, i: nat)
    requires i < |links|
  {
    var l := links[i];
    && (l.prev.Some? ==>
          && l.prev.value < i && links[l.prev.value].key == l.key
          && forall m :: l.prev.value < m < i ==> links[m].key != l.key)
    && (l.prev.None? ==> Clear(links, l.key, i))
    && (l.phase.Running? ==> Clear(links, l.key, i))
  }

  predicate TailOk(c: Chain, key: string) {
    if key in c.tails then
      && c.tails[key] < |c.links| && c.links[c.tails[key]].key == key
      && forall m :: c.tails[key] < m < |c.links| ==> c.links[m].key != key
    else Clear(c.links, key, |c.links|)
  }

  predicate StartedOk(c: Chain, n: nat)
    requires n < |c.started|
  {
    var i := c.started[n];
    && i < |c.links| && !c.links[i].phase.Waiting? && Clear(c.links, c.links[i].key, i)
    && forall m :: 0 <= m < n && c.started[m] < |c.links| && c.links[c.started[m]].key == c.links[i].key ==>
       c.started[m] < i
  }

  ghost predicate Inv(c: Chain) {
    && (forall i :: 0 <= i < |c.links| ==> LinkOk(c.links, i))
    && (forall key :: TailOk(c, key))
    && (forall n :: 0 <= n < |c.started| ==> StartedOk(c, n))
  }

  /** A link has settled exactly when everything of its key up to it is out of the way. */
  lemma {:induction false} SettledIffClear(links: seq<Link>, i: nat)
    requires i < |links| && forall n :: 0 <= n < |links| ==> LinkOk(links, n)
    ensures Settled(links, i) <==> Clear(links, links[i].key, i + 1)
    decreases i
  {
    assert LinkOk(links, i);
    if links[i].prev.Some? {
      SettledIffClear(links, links[i].prev.value);
    }
  }

  lemma StepKeeps(c: Chain, a: Action)
    requires Inv(c)
    ensures Inv(Step(c, a))
  {
    var t := Step(c, a);
    if Enabled(c, a) {
      match a {
        case Arrive(key) =>
          forall i | 0 <= i < |t.links| ensures LinkOk(t.links, i) {
            if i < |c.links| { assert LinkOk(c.links, i); } else { assert TailOk(c, key); }
          }
          forall k ensures TailOk(t, k) { assert TailOk(c, k); }
          forall n | 0 <= n < |t.started| ensures StartedOk(t, n) { EarlierStarts(c, n); }
        case Start(i) =>
          StartClears(c, i);
          StartKeeps(c, i);
        case Cancel(i) => LeaveKeeps(c, i);
        case Exit(i) => LeaveKeeps(c, i);
        case Forget(i) =>
          SettledIffClear(c.links, i);
          forall k ensures TailOk(t, k) { assert TailOk(c, k); }
          forall n | 0 <= n < |t.started| ensures StartedOk(t, n) { assert StartedOk(c, n); }
      }
    }
  }

  lemma EarlierStarts(c: Chain, n: nat)
    requires Inv(c) && n < |c.started|
    ensures StartedOk(c, n) && forall m :: 0 <= m <= n ==> c.started[m] < |c.links|
  {
    forall m | 0 <= m <= n ensures c.started[m] < |c.links| { assert StartedOk(c, m); }
  }

  lemma StartClears(c: Chain, i: nat)
    requires Inv(c) && Enabled(c, Start(i))
    ensures Clear(c.links, c.links[i].key, i)
  {
    assert LinkOk(c.links, i);
    if c.links[i].prev.Some? { SettledIffClear(c.links, c.links[i].prev.value); }
  }

  lemma StartKeeps(c: Chain, i: nat)
    requires Inv(c) && Enabled(c, Start(i)) && Clear(c.links, c.links[i].key, i)
    ensures Inv(Step(c, Start(i)))
  {
    var t := Step(c, Start(i));
    forall n | 0 <= n < |t.links| ensures LinkOk(t.links, n) { assert LinkOk(c.links, n); }
    forall k ensures TailOk(t, k) { assert TailOk(c, k); }
    forall m | 0 <= m < |c.started| ensures c.started[m] < |c.links| { assert StartedOk(c, m); }
    forall n | 0 <= n < |t.started| ensures StartedOk(t, n) {
      forall m | 0 <= m < |c.started| && c.links[c.started[m]].key == c.links[i].key ensures c.started[m] < i {
        assert StartedOk(c, m);
      }
      if n < |c.started| { assert StartedOk(c, n); }
    }
  }

  lemma LeaveKeeps(c: Chain, i: nat)
    requires Inv(c) && i < |c.links| && !c.links[i].phase.Left?
    ensures Inv(c.(links := SetPhase(c.links, i, Left)))
  {
    var t := c.(links := SetPhase(c.links, i, Left));
    forall n | 0 <= n < |t.links| ensures LinkOk(t.links, n) { assert LinkOk(c.links, n); }
    forall k ensures TailOk(t, k) { assert TailOk(c, k); }
    forall n | 0 <= n < |t.started| ensures StartedOk(t, n) { assert StartedOk(c, n); }
  }

  lemma {:induction false} RunKeeps(actions: seq<Action>)
    ensures Inv(Run(actions))
  {
    if actions != [] {
      RunKeeps(actions[..|actions| - 1]);
      StepKeeps(Run(actions[..|actions| - 1]), actions[|actions| - 1]);
    }
  }

  // ----- what holds over every run -----

  /** Whatever is cancelled and whenever entries are deleted, at most one body per key runs. */
  lemma MutualExclusion(actions: seq<Action>, i: nat, n: nat)
    requires var c := Run(actions);
      i < |c.links| && n < |c.links| && c.links[i].key == c.links[n].key && c.links[i].phase.Running?
        && c.links[n].phase.Running?
    ensures i == n
  {
    RunKeeps(actions);
    assert LinkOk(Run(actions).links, i) && LinkOk(Run(actions).links, n);
  }

  /** Bodies of one key begin in the order of their arrivals, none twice. */
  lemma StartOrder(actions: seq<Action>, m: nat, n: nat)
    requires var c := Run(actions); m < n < |c.started|
    ensures var c := Run(actions);
      && c.started[m] < |c.links| && c.started[n] < |c.links|
      && (c.links[c.started[m]].key == c.links[c.started[n]].key ==> c.started[m] < c.started[n])
  {
    RunKeeps(actions);
    assert StartedOk(Run(actions), m) && StartedOk(Run(actions), n);
  }

  // ----- the FIFO mutex it refines -----

  datatype Mutex = Mutex(queue: seq<nat>, holder: Option<nat>)

  /** The waiters of a key, in arrival order. */
  function Queue(links: seq<Link>, key: string): seq<nat> {
    if links == [] then []
    else
      var n := |links| - 1;
      Queue(links[..n], key) + if links[n].key == key && links[n].phase.Waiting? then [n] else []
  }

  ghost predicate Holds(links: seq<Link>, key: string, i: nat) {
    i < |links| && links[i].key == key && links[i].phase.Running?
  }

  ghost function Abstract(c: Chain, key: string): Mutex {
    Mutex(Queue(c.links, key), if i: nat :| Holds(c.links, key, i) then Some(i) else None)
  }

  function Without(q: seq<nat>, i: nat): seq<nat> {
    if q == [] then [] else (if q[0] == i then [] else [q[0]]) + Without(q[1..], i)
  }

  /**
   * The specification: the first waiter gets a free lock; a waiter may leave the queue; the holder gives the lock
   * back.
   */
  function MutexStep(m: Mutex, a: Action, key: string, n: nat): Mutex {
    match a
    case Arrive(k) => if k == key then m.(queue := m.queue + [n]) else m
    case Start(i) => if m.holder.None? && m.queue != [] && m.queue[0] == i then Mutex(m.queue[1..], Some(i)) else m
    case Cancel(i) => m.(queue := Without(m.queue, i))
    case Exit(i) => if m.holder == Some(i) then m.(holder := None) else m
    case Forget(_) => m
  }

  lemma {:induction false} QueueOf(links: seq<Link>, key: string)
    ensures forall x: nat :: x in Queue(links, key) <==> x < |links| && links[x].key == key && links[x].phase.Waiting?
    ensures forall m, n :: 0 <= m < n < |Queue(links, key)| ==> Queue(links, key)[m] < Queue(links, key)[n]
  {
    if links != [] {
      var init := links[..|links| - 1];
      QueueOf(init, key);
      assert forall x: nat :: x < |init| ==> links[x] == init[x];
      forall m | 0 <= m < |Queue(init, key)| ensures Queue(init, key)[m] < |init| {
        assert Queue(init, key)[m] in Queue(init, key);
      }
    }
  }

  lemma {:induction false} WithoutAbsent(q: seq<nat>, i: nat)
    requires i !in q
    ensures Without(q, i) == q
  {
    if q != [] { WithoutAbsent(q[1..], i); }
  }

  lemma {:induction false} WithoutConcat(p: seq<nat>, q: seq<nat>, i: nat)
    ensures Without(p + q, i) == Without(p, i) + Without(q, i)
  {
    if p == [] {
      assert p + q == q;
    } else {
      assert (p + q)[1..] == p[1..] + q;
      WithoutConcat(p[1..], q, i);
    }
  }

  function Tag(l: Link, key: string, n: nat): seq<nat> {
    if l.key == key && l.phase.Waiting? then [n] else []
  }

  lemma QueueSnoc(init: seq<Link>, l: Link, key: string)
    ensures Queue(init + [l], key) == Queue(init, key) + Tag(l, key, |init|)
  {
    assert (init + [l])[..|init|] == init;
  }

  /** Starting or leaving takes a link out of its queue and no other out of any. */
  lemma {:induction false} QueueSet(links: seq<Link>, key: string, i: nat, phase: Phase)
    requires i < |links| && !phase.Waiting?
    ensures Queue(SetPhase(links, i, phase), key) == Without(Queue(links, key), i)
  {
    var n := |links| - 1;
    var init, last := links[..n], links[n];
    assert links == init + [last];
    hide Queue;
    QueueSnoc(init, last, key);
    WithoutConcat(Queue(init, key), Tag(last, key, n), i);
    if i == n {
      assert SetPhase(links, i, phase) == init + [last.(phase := phase)];
      QueueSnoc(init, last.(phase := phase), key);
      QueueOf(init, key);
      WithoutAbsent(Queue(init, key), i);
    } else {
      assert SetPhase(links, i, phase) == SetPhase(init, i, phase) + [last];
      QueueSnoc(SetPhase(init, i, phase), last, key);
      QueueSet(init, key, i, phase);
      WithoutAbsent(Tag(last, key, n), i);
    }
  }

  lemma RunningClears(c: Chain)
    requires Inv(c)
    ensures forall i :: 0 <= i < |c.links| && c.links[i].phase.Running? ==> Clear(c.links, c.links[i].key, i)
    ensures forall key, i: nat, n: nat :: Holds(c.links, key, i) && Holds(c.links, key, n) ==> i == n
  {
    forall i | 0 <= i < |c.links| && c.links[i].phase.Running? ensures Clear(c.links, c.links[i].key, i) {
      assert LinkOk(c.links, i);
    }
  }

  lemma HolderIs(c: Chain, key: string, i: nat)
    requires Inv(c) && Holds(c.links, key, i)
    ensures Abstract(c, key).holder == Some(i)
  {
    RunningClears(c);
    assert forall m: nat :: Holds(c.links, key, m) ==> m == i;
  }

  /** No lost wake-up and no early one: a waiter may start exactly when it is first in line for a free lock. */
  lemma StartsInTurn(c: Chain, i: nat)
    requires Inv(c) && i < |c.links| && c.links[i].phase.Waiting?
    ensures var m := Abstract(c, c.links[i].key);
      Enabled(c, Start(i)) <==> m.holder.None? && m.queue != [] && m.queue[0] == i
  {
    var key := c.links[i].key;
    var q := Queue(c.links, key);
    QueueOf(c.links, key);
    RunningClears(c);
    assert LinkOk(c.links, i) && i in q;
    if Enabled(c, Start(i)) {
      StartClears(c, i);
      assert q[0] in q;
      assert forall n: nat :: !Holds(c.links, key, n);
    } else {
      SettledIffClear(c.links, c.links[i].prev.value);
      if Abstract(c, key).holder.None? && q[0] == i {
        assert forall m :: 0 <= m < i && c.links[m].key == key ==> m !in q && !Holds(c.links, key, m);
        assert false;
      }
    }
  }

  lemma ArriveRefines(c: Chain, k: string, key: string)
    requires Inv(c)
    ensures Abstract(Step(c, Arrive(k)), key) == MutexStep(Abstract(c, key), Arrive(k), key, |c.links|)
  {
    var t := Step(c, Arrive(k));
    StepKeeps(c, Arrive(k));
    hide Inv;
    assert t.links[..|c.links|] == c.links;
    SameHolder(c, t, key);
  }

  lemma StartRefines(c: Chain, i: nat)
    requires Inv(c) && Enabled(c, Start(i))
    ensures var key := c.links[i].key;
      Abstract(Step(c, Start(i)), key) == MutexStep(Abstract(c, key), Start(i), key, |c.links|)
  {
    var t, key := Step(c, Start(i)), c.links[i].key;
    var q := Queue(c.links, key);
    StepKeeps(c, Start(i));
    hide Inv;
    QueueSet(c.links, key, i, Running);
    StartsInTurn(c, i);
    QueueOf(c.links, key);
    assert i !in q[1..];
    WithoutAbsent(q[1..], i);
    HolderIs(t, key, i);
  }

  lemma CancelRefines(c: Chain, i: nat)
    requires Inv(c) && Enabled(c, Cancel(i))
    ensures var key := c.links[i].key;
      Abstract(Step(c, Cancel(i)), key) == MutexStep(Abstract(c, key), Cancel(i), key, |c.links|)
  {
    StepKeeps(c, Cancel(i));
    hide Inv;
    QueueSet(c.links, c.links[i].key, i, Left);
    SameHolder(c, Step(c, Cancel(i)), c.links[i].key);
  }

  lemma ExitRefines(c: Chain, i: nat)
    requires Inv(c) && Enabled(c, Exit(i))
    ensures var key := c.links[i].key;
      Abstract(Step(c, Exit(i)), key) == MutexStep(Abstract(c, key), Exit(i), key, |c.links|)
  {
    var t, key := Step(c, Exit(i)), c.links[i].key;
    hide Inv;
    QueueSet(c.links, key, i, Left);
    QueueOf(c.links, key);
    WithoutAbsent(Queue(c.links, key), i);
    HolderIs(c, key, i);
    RunningClears(c);
    assert forall n: nat :: Holds(t.links, key, n) ==> Holds(c.links, key, n);
    assert forall n: nat :: !Holds(t.links, key, n);
  }

  /** Every step of the chain is a step of the mutex of its key. Deleting a map entry is none at all. */
  lemma Refines(c: Chain, a: Action, key: string)
    requires Inv(c) && Enabled(c, a)
    requires (a.Start? || a.Cancel? || a.Exit?) ==> c.links[a.i].key == key
    ensures Abstract(Step(c, a), key) == MutexStep(Abstract(c, key), a, key, |c.links|)
  {
    match a {
      case Arrive(k) => ArriveRefines(c, k, key);
      case Start(i) => StartRefines(c, i);
      case Cancel(i) => CancelRefines(c, i);
      case Exit(i) => ExitRefines(c, i);
      case Forget(i) =>
        StepKeeps(c, a);
        SameHolder(c, Step(c, a), key);
    }
  }

  lemma SameHolder(c: Chain, t: Chain, key: string)
    requires Inv(c) && Inv(t) && forall i: nat :: Holds(c.links, key, i) <==> Holds(t.links, key, i)
    ensures Abstract(c, key).holder == Abstract(t, key).holder
  {
    if i: nat :| Holds(c.links, key, i) {
      HolderIs(c, key, i);
      HolderIs(t, key, i);
    }
  }

  /** A step of another key's link is invisible. */
  lemma Independent(c: Chain, a: Action, key: string)
    requires Inv(c) && Enabled(c, a) && (a.Start? || a.Cancel? || a.Exit?) && c.links[a.i].key != key
    ensures Abstract(Step(c, a), key) == Abstract(c, key)
  {
    var t := Step(c, a);
    StepKeeps(c, a);
    QueueSet(c.links, key, a.i, t.links[a.i].phase);
    QueueOf(c.links, key);
    WithoutAbsent(Queue(c.links, key), a.i);
    SameHolder(c, t, key);
  }

  // ----- the lock as its methods run -----

  /** `tails` is the map the source keeps; `links` are the promises it creates. */
  class ContextLock {
    var links: seq<Link>
    var tails: map<string, nat>
    ghost var started: seq<nat>

    ghost function State(): Chain
      reads this
    {
      Chain(links, tails, started)
    }

    ghost predicate Valid()
      reads this
    {
      Inv(State())
    }

    constructor ()
      ensures Valid() && State() == EMPTY
    {
      links, tails, started := [], map[], [];
    }

    /** The synchronous part of `withContextLock`: read the tail, link behind it, become the tail. */
    method Arrive(key: string) returns (i: nat)
      requires Valid()
      modifies this
      ensures Valid() && State() == Step(old(State()), Action.Arrive(key)) && i == |old(links)|
    {
      StepKeeps(State(), Action.Arrive(key));
      i := |links|;
      var previous := if key in tails then Some(tails[key]) else None;
      links := links + [Link(key, previous, Waiting)];
      tails := tails[key := i];
    }

    /** The waiter's promise settled and it was not aborted: the work begins. */
    method Begin(i: nat)
      requires Valid() && Enabled(State(), Start(i))
      modifies this
      ensures Valid() && State() == Step(old(State()), Start(i))
      ensures forall n :: 0 <= n < |links| && n != i && links[n].key == links[i].key ==> !links[n].phase.Running?
    {
      StepKeeps(State(), Start(i));
      links := SetPhase(links, i, Running);
      started := started + [i];
      forall n | 0 <= n < |links| && n != i && links[n].key == links[i].key ensures !links[n].phase.Running? {
        assert LinkOk(links, n) && LinkOk(links, i);
      }
    }

    /** The `finally` block: an ended body or a cancelled waiter releases its own gate only. */
    method Release(i: nat)
      requires Valid() && i < |links| && !links[i].phase.Left?
      modifies this
      ensures Valid() && State() == old(State()).(links := SetPhase(old(links), i, Left))
    {
      LeaveKeeps(State(), i);
      links := SetPhase(links, i, Left);
    }

    /** The callback of a settled tail. */
    method Forget(i: nat)
      requires Valid() && Settled(links, i)
      modifies this
      ensures Valid() && State() == Step(old(State()), Action.Forget(i))
    {
      StepKeeps(State(), Action.Forget(i));
      var key := links[i].key;
      if key in tails && tails[key] == i { tails := tails - {key}; }
    }
  }
}
