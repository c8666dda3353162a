/** Redaction of an object graph before it is stored: a depth-first traversal that
    keeps the containers it is inside of, so that it ends on cyclic graphs. */
module Redaction {
  import opened Events

  /** Container identities are numbers; leaves are values. A value of another type
      has a printed form, unless printing it raises. */
  datatype Value =
    | Number(n: int)
    | Text(text: string)
    | Binary(size: nat, digest: int)
    | Opaque(printed: Option<string>, typeName: string)
    | Ref(id: nat)

  /** The items of a mapping carry their keys, those of a list none. */
  datatype Item = Item(key: Option<string>, value: Value)

  datatype Container = Container(isMapping: bool, items: seq<Item>)

  type Graph = map<nat, Container>

  datatype Output =
    | Same(value: Value)
    | Cleaned(text: string)
    | Digest(size: nat, digest: int)
    | Redacted
    | Omitted
    | CycleMark
    | Built(isMapping: bool, entries: seq<Entry>)

  datatype Entry = Entry(key: Option<string>, output: Output)

  /** The rules about names and texts, which the traversal does not depend on. */
  datatype Rules = Rules(
    isEnvironment: string -> bool, isReasoning: string -> bool, isTelemetry: (string, Value) -> bool,
    isSecret: string -> bool, clean: string -> string)

  /** What remains of a dictionary's items: a later item with the same text for a key
      replaces the value of an earlier one, in its place. */
  function Put(items: seq<Item>, item: Item): seq<Item> {
    if items == [] then [item]
    else if items[0].key == item.key then [item] + items[1..]
    else [items[0]] + Put(items[1..], item)
  }

  function Merge(items: seq<Item>): seq<Item> {
    if items == [] then [] else Put(Merge(items[..|items| - 1]), items[|items| - 1])
  }

  /** The items that end up in the output of a container. */
  function Written(c: Container): seq<Item> {
    if c.isMapping then Merge(c.items) else c.items
  }

  function PutEntry(entries: seq<Entry>, e: Entry): seq<Entry> {
    if entries == [] then [e]
    else if entries[0].key == e.key then [e] + entries[1..]
    else [entries[0]] + PutEntry(entries[1..], e)
  }

  lemma {:induction false} PutAddsOne(items: seq<Item>, item: Item)
    ensures forall x | x in Put(items, item) :: x in items || x == item
  {
    if items != [] {
      PutAddsOne(items[1..], item);
    }
  }

  lemma {:induction false} MergeKeepsItems(items: seq<Item>)
    ensures forall x | x in Merge(items) :: x in items
  {
    if items != [] {
      var n := |items| - 1;
      MergeKeepsItems(items[..n]);
      PutAddsOne(Merge(items[..n]), items[n]);
    }
  }

  lemma {:induction false} PutReplaces(items: seq<Item>, item: Item)
    requires forall i, j | 0 <= i < j < |items| :: items[i].key != items[j].key
    ensures forall x :: x in Put(items, item) <==> x == item || (x in items && x.key != item.key)
    ensures forall i, j | 0 <= i < j < |Put(items, item)| :: Put(items, item)[i].key != Put(items, item)[j].key
  {
    if items != [] {
      assert items == [items[0]] + items[1..];
      if items[0].key != item.key {
        PutReplaces(items[1..], item);
        var rest := Put(items[1..], item);
        forall j | 0 <= j < |rest|
          ensures rest[j].key != items[0].key
        {
          assert rest[j] in rest;
        }
      }
    }
  }

  /** The item is the last of the list with its key. */
  predicate IsLastAt(items: seq<Item>, n: int, x: Item) {
    && 0 <= n < |items| && items[n] == x
    && forall m | n < m < |items| :: items[m].key != x.key
  }

  ghost predicate IsLast(items: seq<Item>, x: Item) {
    exists n :: IsLastAt(items, n, x)
  }

  lemma LastOfLonger(init: seq<Item>, item: Item, x: Item)
    ensures IsLast(init + [item], x) <==> x == item || (IsLast(init, x) && x.key != item.key)
  {
    var items := init + [item];
    if x == item {
      assert IsLastAt(items, |init|, x);
    } else if IsLast(items, x) {
      var n :| IsLastAt(items, n, x);
      assert items[|init|] == item;
      assert forall m | 0 <= m < |init| :: items[m] == init[m];
      assert IsLastAt(init, n, x);
    } else if IsLast(init, x) && x.key != item.key {
      var n :| IsLastAt(init, n, x);
      assert IsLastAt(items, n, x);
    }
  }

  /** A dictionary has one item for every key, the one that came last. */
  lemma {:induction false} MergeKeepsLast(items: seq<Item>)
    ensures forall i, j | 0 <= i < j < |Merge(items)| :: Merge(items)[i].key != Merge(items)[j].key
    ensures forall x :: x in Merge(items) <==> IsLast(items, x)
  {
    if items != [] {
      hide IsLast, Put;
      var init, item := items[..|items| - 1], items[|items| - 1];
      assert items == init + [item];
      MergeKeepsLast(init);
      PutReplaces(Merge(init), item);
      forall x {
        LastOfLonger(init, item, x);
      }
    }
  }

  predicate Contained(g: Graph, v: Value) {
    v.Ref? ==> v.id in g
  }

  /** Every container refers to containers of the graph only. */
  predicate Closed(g: Graph) {
    forall id | id in g :: forall k | 0 <= k < |g[id].items| :: Contained(g, g[id].items[k].value)
  }

  /** What the name of a value alone decides. */
  function ByName(r: Rules, key: Option<string>, v: Value): Option<Output> {
    if key.None? || key.value == "" then None
    else if r.isEnvironment(key.value) then Some(Redacted)
    else if r.isReasoning(key.value) then Some(Omitted)
    else if r.isTelemetry(key.value, v) then Some(Same(v))
    else if r.isSecret(key.value) then Some(Redacted)
    else None
  }

  function Leaf(r: Rules, v: Value): Output
    requires !v.Ref?
  {
    match v
    case Binary(size, digest) => Digest(size, digest)
    case Text(text) => Cleaned(r.clean(text))
    case Number(_) => Same(v)
    case Opaque(Some(printed), _) => Cleaned(r.clean(printed))
    case Opaque(None, typeName) => Cleaned("<" + typeName + ">")
  }

  predicate AllContained(g: Graph, items: seq<Item>) {
    forall k | 0 <= k < |items| :: Contained(g, items[k].value)
  }

  lemma WrittenIsContained(g: Graph, id: nat)
    requires Closed(g) && id in g
    ensures AllContained(g, Written(g[id]))
  {
    MergeKeepsItems(g[id].items);
    forall k | 0 <= k < |Written(g[id])|
      ensures Contained(g, Written(g[id])[k].value)
    {
      var item := Written(g[id])[k];
      assert item in g[id].items;
    }
  }

  // ---------------------------------------------------------------------
  // The guarded traversal
  // ---------------------------------------------------------------------

  /** The traversal from inside the active containers; it ends because a container
      is entered only while it is not active. */
  function Guarded(r: Rules, g: Graph, v: Value, key: Option<string>, active: set<nat>): Output
    requires Closed(g) && Contained(g, v)
    decreases g.Keys - active, 0, 0
  {
    var named := ByName(r, key, v);
    if named.Some? then named.value
    else if !v.Ref? then Leaf(r, v)
    else if v.id in active then CycleMark
    else
      assert v.id in g.Keys - active;
      WrittenIsContained(g, v.id);
      Built(g[v.id].isMapping, GuardedEntries(r, g, Written(g[v.id]), active + {v.id}))
  }

  function GuardedEntries(r: Rules, g: Graph, items: seq<Item>, active: set<nat>): (entries: seq<Entry>)
    requires Closed(g) && AllContained(g, items)
    ensures |entries| == |items|
    decreases g.Keys - active, 1, |items|
  {
    if items == [] then []
    else
      [Entry(items[0].key, Guarded(r, g, items[0].value, items[0].key, active))]
      + GuardedEntries(r, g, items[1..], active)
  }

  lemma {:induction false} GuardedEntryAt(r: Rules, g: Graph, items: seq<Item>, active: set<nat>, k: nat)
    requires Closed(g) && AllContained(g, items) && k < |items|
    ensures GuardedEntries(r, g, items, active)[k] ==
            Entry(items[k].key, Guarded(r, g, items[k].value, items[k].key, active))
  {
    if k > 0 {
      GuardedEntryAt(r, g, items[1..], active, k - 1);
    }
  }

  /** Replacing an item before the traversal is replacing its output after it. */
  lemma {:induction false} PutThenGuard(r: Rules, g: Graph, items: seq<Item>, item: Item, active: set<nat>)
    requires Closed(g) && AllContained(g, items) && Contained(g, item.value)
    ensures AllContained(g, Put(items, item))
    ensures GuardedEntries(r, g, Put(items, item), active) ==
            PutEntry(GuardedEntries(r, g, items, active),
                     Entry(item.key, Guarded(r, g, item.value, item.key, active)))
  {
    if items == [] {
      assert [item][1..] == [];
    } else if items[0].key == item.key {
      assert ([item] + items[1..])[1..] == items[1..];
    } else {
      PutThenGuard(r, g, items[1..], item, active);
      assert ([items[0]] + Put(items[1..], item))[1..] == Put(items[1..], item);
      var entries := GuardedEntries(r, g, items, active);
      assert entries[1..] == GuardedEntries(r, g, items[1..], active);
    }
  }

  lemma {:induction false} AppendThenGuard(r: Rules, g: Graph, items: seq<Item>, item: Item, active: set<nat>)
    requires Closed(g) && AllContained(g, items) && Contained(g, item.value)
    ensures AllContained(g, items + [item])
    ensures GuardedEntries(r, g, items + [item], active) ==
            GuardedEntries(r, g, items, active) + [Entry(item.key, Guarded(r, g, item.value, item.key, active))]
  {
    if items == [] {
      assert [] + [item] == [item] && [item][1..] == [];
    } else {
      AppendThenGuard(r, g, items[1..], item, active);
      assert (items + [item])[1..] == items[1..] + [item];
    }
  }

  /** An assignment to a dictionary, or an append to a list. */
  function AddEntry(isMapping: bool, entries: seq<Entry>, e: Entry): seq<Entry> {
    if isMapping then PutEntry(entries, e) else entries + [e]
  }

  lemma WrittenGrows(r: Rules, g: Graph, isMapping: bool, items: seq<Item>, n: nat, active: set<nat>)
    requires Closed(g) && n < |items| && AllContained(g, Written(Container(isMapping, items[..n])))
    requires Contained(g, items[n].value)
    ensures AllContained(g, Written(Container(isMapping, items[..n + 1])))
    ensures GuardedEntries(r, g, Written(Container(isMapping, items[..n + 1])), active) ==
            AddEntry(isMapping, GuardedEntries(r, g, Written(Container(isMapping, items[..n])), active),
                     Entry(items[n].key, Guarded(r, g, items[n].value, items[n].key, active)))
  {
    hide Guarded, GuardedEntries, AllContained;
    assert items[..n + 1][..n] == items[..n] && items[..n + 1] == items[..n] + [items[n]];
    if isMapping {
      PutThenGuard(r, g, Merge(items[..n]), items[n], active);
    } else {
      AppendThenGuard(r, g, items[..n], items[n], active);
    }
  }

  // ---------------------------------------------------------------------
  // Plain structural redaction
  // ---------------------------------------------------------------------

  /** The output is the plain redaction of the value: every container is written
      out in full wherever it occurs. A value has no plain redaction when writing it
      out would not end. */
  ghost predicate IsPlain(r: Rules, g: Graph, v: Value, key: Option<string>, out: Output)
    requires Closed(g) && Contained(g, v)
    decreases out, 1
  {
    var named := ByName(r, key, v);
    if named.Some? then out == named.value
    else if !v.Ref? then out == Leaf(r, v)
    else IsPlainContainer(r, g, v.id, out)
  }

  ghost predicate IsPlainContainer(r: Rules, g: Graph, id: nat, out: Output)
    requires Closed(g) && id in g
    decreases out, 0
  {
    && out.Built? && out.isMapping == g[id].isMapping && |out.entries| == |Written(g[id])|
    && forall k | 0 <= k < |out.entries| :: PlainAt(r, g, id, out, k)
  }

  ghost predicate PlainAt(r: Rules, g: Graph, id: nat, out: Output, k: nat)
    requires Closed(g) && id in g && out.Built? && k < |out.entries| == |Written(g[id])|
    decreases out.entries[k].output, 2
  {
    WrittenIsContained(g, id);
    var item := Written(g[id])[k];
    && out.entries[k].key == item.key
    && IsPlain(r, g, item.value, item.key, out.entries[k].output)
  }

  lemma {:induction false} PlainIsUnique(r: Rules, g: Graph, v: Value, key: Option<string>, a: Output, b: Output)
    requires Closed(g) && Contained(g, v)
    requires IsPlain(r, g, v, key, a) && IsPlain(r, g, v, key, b)
    ensures a == b
    decreases a, 1
  {
    if ByName(r, key, v).None? && v.Ref? {
      PlainContainerIsUnique(r, g, v.id, a, b);
    }
  }

  lemma {:induction false} PlainContainerIsUnique(r: Rules, g: Graph, id: nat, a: Output, b: Output)
    requires Closed(g) && id in g
    requires IsPlainContainer(r, g, id, a) && IsPlainContainer(r, g, id, b)
    ensures a == b
    decreases a, 0
  {
    forall k | 0 <= k < |a.entries|
      ensures a.entries[k] == b.entries[k]
    {
      WrittenIsContained(g, id);
      assert PlainAt(r, g, id, a, k) && PlainAt(r, g, id, b, k);
      var item := Written(g[id])[k];
      PlainIsUnique(r, g, item.value, item.key, a.entries[k].output, b.entries[k].output);
    }
    assert a.entries == b.entries;
  }

  /** The number of leaves and containers written out. */
  function Size(out: Output): nat
    decreases out, 1, 0
  {
    if out.Built? then 1 + SizeUpTo(out, |out.entries|) else 1
  }

  function SizeUpTo(out: Output, n: nat): nat
    requires out.Built? && n <= |out.entries|
    decreases out, 0, n
  {
    if n == 0 then 0 else SizeUpTo(out, n - 1) + Size(out.entries[n - 1].output)
  }

  lemma {:induction false} EntryIsSmaller(out: Output, n: nat, k: nat)
    requires out.Built? && k < n <= |out.entries|
    ensures Size(out.entries[k].output) <= SizeUpTo(out, n)
    decreases n
  {
    if k < n - 1 {
      EntryIsSmaller(out, n - 1, k);
    }
  }

  predicate HasMark(out: Output) {
    out.CycleMark? || (out.Built? && exists k | 0 <= k < |out.entries| :: HasMark(out.entries[k].output))
  }

  /** Containers that are too large to occur within the output. */
  ghost predicate Outside(r: Rules, g: Graph, active: set<nat>, out: Output)
    requires Closed(g)
  {
    forall id, o | id in active && id in g && IsPlainContainer(r, g, id, o) :: Size(o) > Size(out)
  }

  /** Where a plain redaction exists, the guarded traversal computes it. */
  lemma {:induction false} GuardedIsPlain(
      r: Rules, g: Graph, v: Value, key: Option<string>, active: set<nat>, out: Output)
    requires Closed(g) && Contained(g, v)
    requires IsPlain(r, g, v, key, out) && Outside(r, g, active, out)
    ensures Guarded(r, g, v, key, active) == out
    decreases out
  {
    if ByName(r, key, v).None? && v.Ref? {
      var id := v.id;
      assert IsPlainContainer(r, g, id, out);
      var inner := active + {id};
      var items := Written(g[id]);
      WrittenIsContained(g, id);
      forall k | 0 <= k < |out.entries|
        ensures GuardedEntries(r, g, items, inner)[k] == out.entries[k]
      {
        var item := items[k];
        assert PlainAt(r, g, id, out, k);
        EntryIsSmaller(out, |out.entries|, k);
        forall x, o | x in inner && x in g && IsPlainContainer(r, g, x, o)
          ensures Size(o) > Size(out.entries[k].output)
        {
          if x == id {
            PlainContainerIsUnique(r, g, id, o, out);
          }
        }
        GuardedIsPlain(r, g, item.value, item.key, inner, out.entries[k].output);
        GuardedEntryAt(r, g, items, inner, k);
      }
      assert GuardedEntries(r, g, items, inner) == out.entries;
    }
  }

  /** An output without a cycle mark is a plain redaction. */
  lemma {:induction false} UnmarkedIsPlain(r: Rules, g: Graph, v: Value, key: Option<string>, active: set<nat>)
    requires Closed(g) && Contained(g, v) && !HasMark(Guarded(r, g, v, key, active))
    ensures IsPlain(r, g, v, key, Guarded(r, g, v, key, active))
    decreases g.Keys - active
  {
    if ByName(r, key, v).None? && v.Ref? {
      var out := Guarded(r, g, v, key, active);
      var inner := active + {v.id};
      var items := Written(g[v.id]);
      WrittenIsContained(g, v.id);
      assert v.id in g.Keys - active;
      forall k | 0 <= k < |out.entries|
        ensures PlainAt(r, g, v.id, out, k)
      {
        var item := items[k];
        GuardedEntryAt(r, g, items, inner, k);
        assert !HasMark(out.entries[k].output);
        UnmarkedIsPlain(r, g, item.value, item.key, inner);
      }
    }
  }

  lemma {:induction false} PlainIsUnmarked(r: Rules, g: Graph, v: Value, key: Option<string>, out: Output)
    requires Closed(g) && Contained(g, v) && IsPlain(r, g, v, key, out)
    ensures !HasMark(out)
    decreases out
  {
    if ByName(r, key, v).None? && v.Ref? {
      forall k | 0 <= k < |out.entries|
        ensures !HasMark(out.entries[k].output)
      {
        assert PlainAt(r, g, v.id, out, k);
        WrittenIsContained(g, v.id);
        var item := Written(g[v.id])[k];
        PlainIsUnmarked(r, g, item.value, item.key, out.entries[k].output);
      }
    }
  }

  /** The traversal puts a cycle mark exactly where the value cannot be written out
      in full; otherwise its output is the plain redaction, in which a container
      reached by several paths is written out on each of them. */
  lemma CycleMarkMeansEndless(r: Rules, g: Graph, v: Value, key: Option<string>)
    requires Closed(g) && Contained(g, v)
    ensures HasMark(Guarded(r, g, v, key, {})) <==> !exists out :: IsPlain(r, g, v, key, out)
    ensures forall out :: IsPlain(r, g, v, key, out) ==> Guarded(r, g, v, key, {}) == out
  {
    forall out | IsPlain(r, g, v, key, out)
      ensures Guarded(r, g, v, key, {}) == out && !HasMark(out)
    {
      GuardedIsPlain(r, g, v, key, {}, out);
      PlainIsUnmarked(r, g, v, key, out);
    }
    var result := Guarded(r, g, v, key, {});
    if !HasMark(result) {
      UnmarkedIsPlain(r, g, v, key, {});
      assert exists out :: IsPlain(r, g, v, key, out);
    }
  }

  /** The value has a name, and the name falls under the rule. */
  predicate IsNamed(key: Option<string>, rule: string -> bool) {
    key.Some? && key.value != "" && rule(key.value)
  }

  /** The output is telemetry that the rules let through under its name. */
  predicate IsTelemetry(r: Rules, key: Option<string>, out: Output) {
    out.Same? && IsNamed(key, name => r.isTelemetry(name, out.value))
  }

  /** What a store may see. An environment, a reasoning or a secret never shows under its
      name, except telemetry that is known to be harmless; nothing is withheld for any other
      name; and apart from telemetry only numbers show as they are, at whatever depth. */
  ghost predicate IsMasked(r: Rules, key: Option<string>, out: Output)
    decreases out
  {
    && (IsNamed(key, r.isEnvironment) ==> out.Redacted?)
    && (IsNamed(key, r.isReasoning) && !IsNamed(key, r.isEnvironment) ==> out.Omitted?)
    && (IsNamed(key, r.isSecret) ==> out.Redacted? || out.Omitted? || IsTelemetry(r, key, out))
    && (out.Redacted? ==> IsNamed(key, r.isEnvironment) || IsNamed(key, r.isSecret))
    && (out.Omitted? ==> IsNamed(key, r.isReasoning))
    && (out.Same? ==> out.value.Number? || IsTelemetry(r, key, out))
    && (out.Cleaned? ==> (exists raw :: out.text == r.clean(raw)) || (exists name :: out.text == "<" + name + ">"))
    && (out.Built? ==> forall k | 0 <= k < |out.entries| :: IsMasked(r, out.entries[k].key, out.entries[k].output))
  }

  /** Whatever the graph, the output of the traversal is masked. */
  lemma {:induction false} OutputIsMasked(r: Rules, g: Graph, v: Value, key: Option<string>, active: set<nat>)
    requires Closed(g) && Contained(g, v)
    ensures IsMasked(r, key, Guarded(r, g, v, key, active))
    decreases g.Keys - active
  {
    var out := Guarded(r, g, v, key, active);
    if out.Built? {
      var inner := active + {v.id};
      var items := Written(g[v.id]);
      WrittenIsContained(g, v.id);
      assert v.id in g.Keys - active;
      forall k | 0 <= k < |out.entries|
        ensures IsMasked(r, out.entries[k].key, out.entries[k].output)
      {
        GuardedEntryAt(r, g, items, inner, k);
        OutputIsMasked(r, g, items[k].value, items[k].key, inner);
      }
    }
  }

  /** The output has an entry for every item that the container keeps. */
  predicate IsWrittenOut(c: Container, out: Output) {
    && out.Built? && out.isMapping == c.isMapping && |out.entries| == |Written(c)|
    && forall k | 0 <= k < |out.entries| :: out.entries[k].key == Written(c)[k].key
  }

  /** A value whose name falls under no rule shows: a number as it is, a text cleaned, binary
      data by its size and digest, anything else by its cleaned print or its type, and a
      container that is not being written already by its items. */
  lemma UnremarkableIsShown(r: Rules, g: Graph, v: Value, key: Option<string>, active: set<nat>)
    requires Closed(g) && Contained(g, v)
    requires !IsNamed(key, r.isEnvironment) && !IsNamed(key, r.isReasoning) && !IsNamed(key, r.isSecret)
    requires !IsNamed(key, name => r.isTelemetry(name, v))
    ensures var out := Guarded(r, g, v, key, active);
            && (v.Number? ==> out == Same(v))
            && (v.Text? ==> out == Cleaned(r.clean(v.text)))
            && (v.Binary? ==> out == Digest(v.size, v.digest))
            && (v.Opaque? ==>
                  out == Cleaned(if v.printed.Some? then r.clean(v.printed.value) else "<" + v.typeName + ">"))
            && (v.Ref? && v.id in active ==> out == CycleMark)
            && (v.Ref? && v.id !in active ==> IsWrittenOut(g[v.id], out))
  {
    if v.Ref? && v.id !in active {
      WrittenIsContained(g, v.id);
      assert v.id in g.Keys - active;
      forall k: nat | k < |Written(g[v.id])| {
        GuardedEntryAt(r, g, Written(g[v.id]), active + {v.id}, k);
      }
    }
  }

  /** A graph is acyclic when its references descend in some rank. */
  predicate Descends(g: Graph, rank: map<nat, nat>) {
    forall id | id in g :: id in rank && forall k | 0 <= k < |g[id].items| ::
      g[id].items[k].value.Ref? ==>
        g[id].items[k].value.id in rank && rank[g[id].items[k].value.id] < rank[id]
  }

  /** On an acyclic graph nothing is ever marked, whatever is shared. */
  lemma {:induction false} AcyclicIsUnmarked(
      r: Rules, g: Graph, rank: map<nat, nat>, v: Value, key: Option<string>, active: set<nat>)
    requires Closed(g) && Contained(g, v) && Descends(g, rank)
    requires v.Ref? ==> forall id | id in active && id in g :: rank[id] > rank[v.id]
    requires active <= g.Keys
    ensures !HasMark(Guarded(r, g, v, key, active))
    decreases g.Keys - active
  {
    if ByName(r, key, v).None? && v.Ref? {
      var out := Guarded(r, g, v, key, active);
      var inner := active + {v.id};
      var items := Written(g[v.id]);
      WrittenIsContained(g, v.id);
      MergeKeepsItems(g[v.id].items);
      assert v.id in g.Keys - active;
      forall k | 0 <= k < |out.entries|
        ensures !HasMark(out.entries[k].output)
      {
        var item := items[k];
        assert item in g[v.id].items;
        var m :| 0 <= m < |g[v.id].items| && g[v.id].items[m] == item;
        GuardedEntryAt(r, g, items, inner, k);
        AcyclicIsUnmarked(r, g, rank, item.value, item.key, inner);
      }
    }
  }

  // ---------------------------------------------------------------------
  // The traversal as it runs
  // ---------------------------------------------------------------------

  class Redactor {
    const rules: Rules
    const graph: Graph
    var activeIds: set<nat>

    constructor (rules: Rules, graph: Graph)
      ensures this.rules == rules && this.graph == graph && activeIds == {}
    {
      this.rules := rules;
      this.graph := graph;
      activeIds := {};
    }

    /** Leaves the set of active containers as it found it. */
    method RedactValue(v: Value, key: Option<string>) returns (out: Output)
      requires Closed(graph) && Contained(graph, v)
      modifies this
      ensures activeIds == old(activeIds)
      ensures out == Guarded(rules, graph, v, key, old(activeIds))
      ensures IsMasked(rules, key, out)
      decreases graph.Keys - activeIds
    {
      OutputIsMasked(rules, graph, v, key, activeIds);
      var named := ByName(rules, key, v);
      if named.Some? {
        return named.value;
      }
      if !v.Ref? {
        return Leaf(rules, v);
      }
      if v.id in activeIds {
        return CycleMark;
      }
      ghost var before := activeIds;
      assert v.id in graph.Keys - activeIds;
      activeIds := activeIds + {v.id};
      var isMapping, items := graph[v.id].isMapping, graph[v.id].items;
      var entries := [];
      assert items[..0] == [];
      for n := 0 to |items|
        invariant activeIds == before + {v.id}
        invariant AllContained(graph, Written(Container(isMapping, items[..n])))
        invariant entries == GuardedEntries(rules, graph, Written(Container(isMapping, items[..n])), before + {v.id})
      {
        var inner := RedactValue(items[n].value, items[n].key);
        WrittenGrows(rules, graph, isMapping, items, n, before + {v.id});
        entries := AddEntry(isMapping, entries, Entry(items[n].key, inner));
      }
      assert items[..|items|] == items && Container(isMapping, items) == graph[v.id];
      activeIds := activeIds - {v.id};
      assert activeIds == before;
      out := Built(isMapping, entries);
    }
  }
}
