/**
 * The preview of a data part: a recursive projection that shares one node counter over the whole value.
 * Only numbers, booleans, nulls and safe keys pass; every string of the input is replaced by a fixed text.
 */
module DataPreview {
  import opened Prelude

  /** A parsed value. `Other` is anything JSON cannot hold; a number is absent when it is not finite. */
  datatype Json =
    | Null
    | Bool(b: bool)
    | Number(value: Option<real>)
    | Text(s: string)
    | List(items: seq<Json>)
    | Object(entries: seq<(string, Json)>)
    | Other

  datatype Omission = NodeBudget | DepthLimit | StringValue | NonJsonNumber | NonJsonValue

  /** `more` counts the items cut off; `omitted` the properties left out. */
  datatype View =
    | Nothing
    | Flag(b: bool)
    | Figure(value: real)
    | Omitted(why: Omission)
    | Items(items: seq<View>, more: nat)
    | Properties(entries: seq<(string, View)>, omitted: nat)

  const NODES: nat := 40
  const DEPTH: nat := 3
  const WIDTH: nat := 8

  const RESERVED := ["__proto__", "constructor", "prototype"]
  const SENSITIVE := ["secret", "password", "token", "auth", "credential", "cookie", "header", "metadata",
                      "reason", "thought", "base64", "raw", "private", "key"]

  predicate Letter(c: char) {
    'a' <= c <= 'z' || 'A' <= c <= 'Z' || c == '_'
  }

  predicate Inner(c: char) {
    Letter(c) || '0' <= c <= '9' || c == '-'
  }

  function Lower(s: string): string {
    seq(|s|, i requires 0 <= i < |s| => if 'A' <= s[i] <= 'Z' then s[i] - 'A' + 'a' else s[i])
  }

  predicate Starts(s: string, i: nat, word: string) {
    i + |word| <= |s| && s[i..i + |word|] == word
  }

  predicate Contains(s: string, word: string) {
    exists i: nat :: i <= |s| && Starts(s, i, word)
  }

  /** A key that may be shown. */
  predicate Safe(key: string) {
    && key !in RESERVED
    && 1 <= |key| <= 48 && Letter(key[0]) && (forall i :: 0 <= i < |key| ==> Inner(key[i]))
    && (forall w :: w in SENSITIVE ==> !Contains(Lower(key), w))
  }

  function First<T>(s: seq<T>): seq<T> {
    if |s| <= WIDTH then s else s[..WIDTH]
  }

  /** The preview of a value at a depth, with the counter before and after. */
  function Visit(v: Json, depth: nat, nodes: nat): (View, nat)
    requires depth <= DEPTH
    decreases DEPTH - depth, 0, 0
  {
    var n := nodes + 1;
    if n > NODES then (Omitted(NodeBudget), n)
    else
      match v
      case Null => (Nothing, n)
      case Bool(b) => (Flag(b), n)
      case Number(x) => (if x.Some? then Figure(x.value) else Omitted(NonJsonNumber), n)
      case Text(_) => (Omitted(StringValue), n)
      case List(items) =>
        if depth >= DEPTH then (Omitted(DepthLimit), n)
        else
          var (shown, after) := VisitItems(First(items), depth + 1, n);
          (Items(shown, if |items| > WIDTH then |items| - WIDTH else 0), after)
      case Object(entries) =>
        if depth >= DEPTH then (Omitted(DepthLimit), n)
        else
          var (shown, skipped, after) := VisitEntries(First(entries), depth + 1, n);
          (Properties(shown, skipped + if |entries| > WIDTH then |entries| - WIDTH else 0), after)
      case Other => (Omitted(if depth >= DEPTH then DepthLimit else NonJsonValue), n)
  }

  function VisitItems(items: seq<Json>, depth: nat, nodes: nat): (seq<View>, nat)
    requires depth <= DEPTH
    decreases DEPTH - depth, 1, |items|
  {
    if items == [] then ([], nodes)
    else
      var (shown, n) := VisitItems(items[..|items| - 1], depth, nodes);
      var (p, after) := Visit(items[|items| - 1], depth, n);
      (shown + [p], after)
  }

  function VisitEntries(entries: seq<(string, Json)>, depth: nat, nodes: nat): (seq<(string, View)>, nat, nat)
    requires depth <= DEPTH
    decreases DEPTH - depth, 1, |entries|
  {
    if entries == [] then ([], 0, nodes)
    else
      var (shown, skipped, n) := VisitEntries(entries[..|entries| - 1], depth, nodes);
      var (key, value) := entries[|entries| - 1];
      if !Safe(key) then (shown, skipped + 1, n)
      else
        var (p, after) := Visit(value, depth, n);
        (shown + [(key, p)], skipped, after)
  }

  // ----- only structure shows -----

  /** Equal but for string leaves, values under keys that are filtered out, and whatever is cut off by width. */
  predicate Alike(a: Json, b: Json, depth: nat)
    requires depth <= DEPTH
    decreases DEPTH - depth, 0, 0
  {
    match (a, b)
    case (Text(_), Text(_)) => true
    case (List(x), List(y)) => |x| == |y| && (depth < DEPTH ==> AlikeItems(First(x), First(y), depth + 1))
    case (Object(x), Object(y)) => |x| == |y| && (depth < DEPTH ==> AlikeEntries(First(x), First(y), depth + 1))
    case _ => a == b
  }

  predicate AlikeItems(x: seq<Json>, y: seq<Json>, depth: nat)
    requires depth <= DEPTH && |x| == |y|
    decreases DEPTH - depth, 1, |x|
  {
    x == [] || (AlikeItems(x[..|x| - 1], y[..|y| - 1], depth) && Alike(x[|x| - 1], y[|y| - 1], depth))
  }

  predicate AlikeEntries(x: seq<(string, Json)>, y: seq<(string, Json)>, depth: nat)
    requires depth <= DEPTH && |x| == |y|
    decreases DEPTH - depth, 1, |x|
  {
    x == [] || (
      && AlikeEntries(x[..|x| - 1], y[..|y| - 1], depth)
      && (x[|x| - 1].0 == y[|y| - 1].0 || (!Safe(x[|x| - 1].0) && !Safe(y[|y| - 1].0)))
      && (Safe(x[|x| - 1].0) ==> Alike(x[|x| - 1].1, y[|y| - 1].1, depth)))
  }

  /**
   * Although the counter is threaded through everything, alike values have the same preview and use the same budget.
   */
  lemma {:induction false} AlikeSame(a: Json, b: Json, depth: nat, nodes: nat)
    requires depth <= DEPTH && Alike(a, b, depth)
    ensures Visit(a, depth, nodes) == Visit(b, depth, nodes)
    decreases DEPTH - depth, 0, 0
  {
    if a.List? && b.List? && depth < DEPTH {
      AlikeItemsSame(First(a.items), First(b.items), depth + 1, nodes + 1);
    } else if a.Object? && b.Object? && depth < DEPTH {
      AlikeEntriesSame(First(a.entries), First(b.entries), depth + 1, nodes + 1);
    }
  }

  lemma {:induction false} AlikeItemsSame(x: seq<Json>, y: seq<Json>, depth: nat, nodes: nat)
    requires depth <= DEPTH && |x| == |y| && AlikeItems(x, y, depth)
    ensures VisitItems(x, depth, nodes) == VisitItems(y, depth, nodes)
    decreases DEPTH - depth, 1, |x|
  {
    if x != [] {
      AlikeItemsSame(x[..|x| - 1], y[..|y| - 1], depth, nodes);
      AlikeSame(x[|x| - 1], y[|y| - 1], depth, VisitItems(x[..|x| - 1], depth, nodes).1);
    }
  }

  lemma {:induction false} AlikeEntriesSame(x: seq<(string, Json)>, y: seq<(string, Json)>, depth: nat, nodes: nat)
    requires depth <= DEPTH && |x| == |y| && AlikeEntries(x, y, depth)
    ensures VisitEntries(x, depth, nodes) == VisitEntries(y, depth, nodes)
    decreases DEPTH - depth, 1, |x|
  {
    if x != [] {
      AlikeEntriesSame(x[..|x| - 1], y[..|y| - 1], depth, nodes);
      if Safe(x[|x| - 1].0) {
        AlikeSame(x[|x| - 1].1, y[|y| - 1].1, depth, VisitEntries(x[..|x| - 1], depth, nodes).2);
      }
    }
  }

  // ----- bounds -----

  /** Nested at most `levels` deep, every level at most WIDTH wide, every key safe. */
  predicate Bounded(p: View, levels: nat) {
    match p
    case Items(items, _) =>
      levels > 0 && |items| <= WIDTH && forall i :: 0 <= i < |items| ==> Bounded(items[i], levels - 1)
    case Properties(entries, _) =>
      levels > 0 && |entries| <= WIDTH && forall i :: 0 <= i < |entries| ==>
        Safe(entries[i].0) && Bounded(entries[i].1, levels - 1)
    case _ => true
  }

  lemma {:induction false} VisitBounded(v: Json, depth: nat, nodes: nat)
    requires depth <= DEPTH
    ensures Bounded(Visit(v, depth, nodes).0, DEPTH - depth)
    decreases DEPTH - depth, 0, 0
  {
    if v.List? && depth < DEPTH {
      ItemsBounded(First(v.items), depth + 1, nodes + 1);
    } else if v.Object? && depth < DEPTH {
      EntriesBounded(First(v.entries), depth + 1, nodes + 1);
    }
  }

  lemma {:induction false} ItemsBounded(items: seq<Json>, depth: nat, nodes: nat)
    requires depth <= DEPTH
    ensures var shown := VisitItems(items, depth, nodes).0;
      |shown| == |items| && forall i :: 0 <= i < |shown| ==> Bounded(shown[i], DEPTH - depth)
    decreases DEPTH - depth, 1, |items|
  {
    if items != [] {
      ItemsBounded(items[..|items| - 1], depth, nodes);
      VisitBounded(items[|items| - 1], depth, VisitItems(items[..|items| - 1], depth, nodes).1);
    }
  }

  lemma {:induction false} EntriesBounded(entries: seq<(string, Json)>, depth: nat, nodes: nat)
    requires depth <= DEPTH
    ensures var (shown, skipped, _) := VisitEntries(entries, depth, nodes);
      |shown| + skipped == |entries| && forall i :: 0 <= i < |shown| ==>
        Safe(shown[i].0) && Bounded(shown[i].1, DEPTH - depth)
    decreases DEPTH - depth, 1, |entries|
  {
    if entries != [] {
      EntriesBounded(entries[..|entries| - 1], depth, nodes);
      VisitBounded(entries[|entries| - 1].1, depth, VisitEntries(entries[..|entries| - 1], depth, nodes).2);
    }
  }

  /** The nodes a preview shows, not counting those the budget replaced. */
  function Shown(p: View): nat {
    match p
    case Omitted(why) => if why.NodeBudget? then 0 else 1
    case Items(items, _) => 1 + ShownItems(items)
    case Properties(entries, _) => 1 + ShownEntries(entries)
    case _ => 1
  }

  function ShownItems(items: seq<View>): nat {
    if items == [] then 0 else ShownItems(items[..|items| - 1]) + Shown(items[|items| - 1])
  }

  function ShownEntries(entries: seq<(string, View)>): nat {
    if entries == [] then 0
    else
      var last := entries[|entries| - 1];
      assert last.1 < last;
      ShownEntries(entries[..|entries| - 1]) + Shown(last.1)
  }

  function Spent(nodes: nat): nat {
    if nodes > NODES then NODES else nodes
  }

  /** One budget for the whole value: exactly the counter's advance is shown, and never more than NODES. */
  lemma {:induction false} BudgetIsShared(v: Json, depth: nat, nodes: nat)
    requires depth <= DEPTH
    ensures var (p, after) := Visit(v, depth, nodes); after > nodes && Shown(p) == Spent(after) - Spent(nodes)
    decreases DEPTH - depth, 0, 0
  {
    hide Safe, First;
    if nodes + 1 <= NODES && depth < DEPTH {
      if v.List? {
        ItemsBudget(First(v.items), depth + 1, nodes + 1);
        hide VisitItems, ShownItems;
      } else if v.Object? {
        EntriesBudget(First(v.entries), depth + 1, nodes + 1);
        hide VisitEntries, ShownEntries;
      }
    }
  }

  lemma {:induction false} ItemsBudget(items: seq<Json>, depth: nat, nodes: nat)
    requires depth <= DEPTH
    ensures var (shown, after) := VisitItems(items, depth, nodes);
      after >= nodes && ShownItems(shown) == Spent(after) - Spent(nodes)
    decreases DEPTH - depth, 1, |items|
  {
    if items != [] {
      ItemsBudget(items[..|items| - 1], depth, nodes);
      var (before, n) := VisitItems(items[..|items| - 1], depth, nodes);
      BudgetIsShared(items[|items| - 1], depth, n);
      var p := Visit(items[|items| - 1], depth, n).0;
      assert (before + [p])[..|before|] == before;
    }
  }

  lemma {:induction false} EntriesBudget(entries: seq<(string, Json)>, depth: nat, nodes: nat)
    requires depth <= DEPTH
    ensures var (shown, _, after) := VisitEntries(entries, depth, nodes);
      after >= nodes && ShownEntries(shown) == Spent(after) - Spent(nodes)
    decreases DEPTH - depth, 1, |entries|
  {
    if entries != [] {
      EntriesBudget(entries[..|entries| - 1], depth, nodes);
      var (before, _, n) := VisitEntries(entries[..|entries| - 1], depth, nodes);
      var (key, value) := entries[|entries| - 1];
      BudgetIsShared(value, depth, n);
      var p := Visit(value, depth, n).0;
      assert (before + [(key, p)])[..|before|] == before;
    }
  }

  // ----- the projection as it runs -----

  class Projection {
    var nodes: nat

    constructor ()
      ensures nodes == 0
    {
      nodes := 0;
    }

    /** Increments the shared counter, then fills lists and objects in place. */
    method Preview(item: Json, depth: nat) returns (p: View)
      requires depth <= DEPTH
      modifies this
      ensures (p, nodes) == Visit(item, depth, old(nodes))
      decreases DEPTH - depth, 0
    {
      nodes := nodes + 1;
      if nodes > NODES { return Omitted(NodeBudget); }
      match item {
        case Null => p := Nothing;
        case Bool(b) => p := Flag(b);
        case Number(x) => p := if x.Some? then Figure(x.value) else Omitted(NonJsonNumber);
        case Text(_) => p := Omitted(StringValue);
        case List(items) =>
          if depth >= DEPTH { return Omitted(DepthLimit); }
          var shown := PreviewItems(First(items), depth + 1);
          p := Items(shown, if |items| > WIDTH then |items| - WIDTH else 0);
        case Object(entries) =>
          if depth >= DEPTH { return Omitted(DepthLimit); }
          var shown, omitted := PreviewEntries(First(entries), depth + 1);
          p := Properties(shown, omitted + if |entries| > WIDTH then |entries| - WIDTH else 0);
        case Other => p := Omitted(if depth >= DEPTH then DepthLimit else NonJsonValue);
      }
    }

    method PreviewItems(items: seq<Json>, depth: nat) returns (shown: seq<View>)
      requires depth <= DEPTH
      modifies this
      ensures (shown, nodes) == VisitItems(items, depth, old(nodes))
      decreases DEPTH - depth, 1
    {
      shown := [];
      for i := 0 to |items|
        invariant (shown, nodes) == VisitItems(items[..i], depth, old(nodes))
      {
        assert items[..i + 1][..i] == items[..i];
        var q := Preview(items[i], depth);
        shown := shown + [q];
      }
      assert items[..|items|] == items;
    }

    method PreviewEntries(entries: seq<(string, Json)>, depth: nat) returns (shown: seq<(string, View)>, omitted: nat)
      requires depth <= DEPTH
      modifies this
      ensures (shown, omitted, nodes) == VisitEntries(entries, depth, old(nodes))
      decreases DEPTH - depth, 1
    {
      shown, omitted := [], 0;
      for i := 0 to |entries|
        invariant (shown, omitted, nodes) == VisitEntries(entries[..i], depth, old(nodes))
      {
        assert entries[..i + 1][..i] == entries[..i];
        if !Safe(entries[i].0) {
          omitted := omitted + 1;
        } else {
          var q := Preview(entries[i].1, depth);
          shown := shown + [(entries[i].0, q)];
        }
      }
      assert entries[..|entries|] == entries;
    }
  }
}
