/** transformPayload of pkg/engine/template.go: a copy of a payload definition with a function
    applied to every string, over mappings that Go traverses in an arbitrary order. */
module Payload {
  import opened Basics
  import opened Config

  /** A transformed payload, before it is marshalled. */
  datatype Tree =
    | TreeNull
    | TreeText(text: string)
    | TreeJSON(json: string)
    | TreeScalar(literal: string)
    | TreeList(items: seq<Tree>)
    | TreeMap(entries: map<string, Tree>)

  datatype Error = ParseError(text: string) | ExecuteError(text: string) | NotJSON(text: string) | MarshalError

  datatype Result<+T> = Ok(value: T) | Err(error: Error)

  /** What a leaf function makes of a string: a string or a raw JSON value. */
  datatype Leaf = String(text: string) | RawJSON(json: string)

  /** Takes a string and whether it is a mapping key. */
  type LeafFunction = (string, bool) -> Result<Leaf>

  function LeafTree(leaf: Leaf): Tree {
    match leaf
    case String(text) => TreeText(text)
    case RawJSON(json) => TreeJSON(json)
  }

  /** The type assertion on a transformed key: anything but a string becomes the empty one. */
  function KeyText(leaf: Leaf): string {
    match leaf
    case String(text) => text
    case RawJSON(_) => ""
  }

  // What is reached, and what can come out

  /** The string s occurs in v, as a key or not. */
  ghost predicate Reaches(v: Value, s: string, isKey: bool) {
    match v
    case Text(text) => s == text && !isKey
    case List(items) => exists i :: 0 <= i < |items| && Reaches(items[i], s, isKey)
    case Mapping(entries) =>
      exists k :: k in entries && ((isKey && s == k.printed) || Reaches(entries[k], s, isKey))
    case _ => false
  }

  ghost predicate FailsWith(v: Value, fn: LeafFunction, error: Error) {
    exists s, isKey :: Reaches(v, s, isKey) && fn(s, isKey) == Err(error)
  }

  ghost predicate Fails(v: Value, fn: LeafFunction) {
    exists s, isKey :: Reaches(v, s, isKey) && fn(s, isKey).Err?
  }

  /** The transformed key of an entry. */
  function NewKey(fn: LeafFunction, k: Key): string {
    match fn(k.printed, true)
    case Ok(leaf) => KeyText(leaf)
    case Err(_) => ""
  }

  ghost predicate IsOrder(entries: map<Key, Value>, order: seq<Key>) {
    NoDuplicates(order) && forall k :: k in order <==> k in entries
  }

  /** The mapping filled by traversing the entries in the given order. */
  function Collect(fn: LeafFunction, results: map<Key, Tree>, order: seq<Key>): map<string, Tree>
    requires forall k :: k in order ==> k in results
  {
    if order == [] then map[]
    else
      var last := order[|order| - 1];
      Collect(fn, results, order[..|order| - 1])[NewKey(fn, last) := results[last]]
  }

  /** t is the outcome of transforming v under some orders of iteration. */
  ghost predicate Yields(v: Value, fn: LeafFunction, t: Tree)
    decreases v, 1
  {
    match v
    case Null => t == TreeNull
    case Text(text) => fn(text, false).Ok? && t == LeafTree(fn(text, false).value)
    case Scalar(literal) => t == TreeScalar(literal)
    case List(items) =>
      t.TreeList? && |t.items| == |items| && forall i :: 0 <= i < |items| ==> Yields(items[i], fn, t.items[i])
    case Mapping(entries) =>
      t.TreeMap? && exists order, results :: YieldsInOrder(v, fn, order, results, t.entries)
  }

  ghost predicate YieldsInOrder(
    v: Value, fn: LeafFunction, order: seq<Key>, results: map<Key, Tree>, out: map<string, Tree>)
    requires v.Mapping?
    decreases v, 0
  {
    && IsOrder(v.entries, order)
    && results.Keys == v.entries.Keys
    && (forall k :: k in v.entries ==> fn(k.printed, true).Ok? && Yields(v.entries[k], fn, results[k]))
    && out == Collect(fn, results, order)
  }

  // The code

  method TransformPayload(v: Value, fn: LeafFunction) returns (r: Result<Tree>)
    ensures r.Ok? ==> Yields(v, fn, r.value)
    ensures r.Err? ==> FailsWith(v, fn, r.error)
    decreases v, 1
  {
    match v {
      case Null => r := Ok(TreeNull);
      case Scalar(literal) => r := Ok(TreeScalar(literal));
      case Text(text) =>
        assert Reaches(v, text, false);
        r := match fn(text, false) case Ok(leaf) => Ok(LeafTree(leaf)) case Err(error) => Err(error);
      case List(items) => r := TransformList(v, fn);
      case Mapping(entries) => r := TransformMapping(v, fn);
    }
  }

  method TransformList(v: Value, fn: LeafFunction) returns (r: Result<Tree>)
    requires v.List?
    ensures r.Ok? ==> Yields(v, fn, r.value)
    ensures r.Err? ==> FailsWith(v, fn, r.error)
    decreases v, 0
  {
    var items := v.items;
    var out: seq<Tree> := [];
    for i := 0 to |items|
      invariant |out| == i && forall j :: 0 <= j < i ==> Yields(items[j], fn, out[j])
    {
      var t := TransformPayload(items[i], fn);
      if t.Err? {
        assert forall s, isKey :: Reaches(items[i], s, isKey) ==> Reaches(v, s, isKey);
        return t;
      }
      out := out + [t.value];
    }
    r := Ok(TreeList(out));
  }

  lemma EntryFails(v: Value, fn: LeafFunction, k: Key, error: Error)
    requires v.Mapping? && k in v.entries
    requires fn(k.printed, true) == Err(error) || FailsWith(v.entries[k], fn, error)
    ensures FailsWith(v, fn, error)
  {
    assert Reaches(v, k.printed, true);
    assert forall s, isKey :: Reaches(v.entries[k], s, isKey) ==> Reaches(v, s, isKey);
  }

  method TransformMapping(v: Value, fn: LeafFunction) returns (r: Result<Tree>)
    requires v.Mapping?
    ensures r.Ok? ==> Yields(v, fn, r.value)
    ensures r.Err? ==> FailsWith(v, fn, r.error)
    decreases v, 0
  {
    var entries := v.entries;
    var out: map<string, Tree> := map[];
    var todo := entries.Keys;
    ghost var order: seq<Key>, results: map<Key, Tree> := [], map[];
    while todo != {}
      invariant todo <= entries.Keys && results.Keys == entries.Keys - todo
      invariant Traversed(v, fn, order, results, out)
      decreases |todo|
    {
      var k :| k in todo;
      var entry := TransformEntry(k, entries[k], fn);
      if entry.Err? {
        EntryFails(v, fn, k, entry.error);
        return Err(entry.error);
      }
      var (newKey, t) := entry.value;
      TraverseOne(v, fn, order, results, out, k, t);
      out, todo := out[newKey := t], todo - {k};
      order, results := order + [k], results[k := t];
    }
    assert YieldsInOrder(v, fn, order, results, out);
    r := Ok(TreeMap(out));
  }

  /** The state of the loop after traversing the entries in `order`. */
  ghost predicate Traversed(
    v: Value, fn: LeafFunction, order: seq<Key>, results: map<Key, Tree>, out: map<string, Tree>)
    requires v.Mapping?
  {
    && NoDuplicates(order)
    && (forall k :: k in order <==> k in results)
    && (forall k :: k in results ==> k in v.entries && fn(k.printed, true).Ok? && Yields(v.entries[k], fn, results[k]))
    && out == Collect(fn, results, order)
  }

  lemma TraverseOne(
    v: Value, fn: LeafFunction, order: seq<Key>, results: map<Key, Tree>, out: map<string, Tree>, k: Key, t: Tree)
    requires v.Mapping? && Traversed(v, fn, order, results, out)
    requires k in v.entries && k !in results && fn(k.printed, true).Ok? && Yields(v.entries[k], fn, t)
    ensures Traversed(v, fn, order + [k], results[k := t], out[NewKey(fn, k) := t])
  {
    CollectExtends(fn, results, order, k, t);
  }

  method TransformEntry(k: Key, v: Value, fn: LeafFunction) returns (r: Result<(string, Tree)>)
    ensures r.Ok? ==> fn(k.printed, true).Ok? && r.value.0 == NewKey(fn, k) && Yields(v, fn, r.value.1)
    ensures r.Err? ==> fn(k.printed, true) == Err(r.error) || FailsWith(v, fn, r.error)
    decreases v, 2
  {
    var key := fn(k.printed, true);
    if key.Err? {
      return Err(key.error);
    }
    var t := TransformPayload(v, fn);
    if t.Err? {
      return Err(t.error);
    }
    r := Ok((KeyText(key.value), t.value));
  }

  lemma {:induction false} CollectDepends(fn: LeafFunction, a: map<Key, Tree>, b: map<Key, Tree>, order: seq<Key>)
    requires forall k :: k in order ==> k in a && k in b && a[k] == b[k]
    ensures Collect(fn, a, order) == Collect(fn, b, order)
  {
    if order != [] {
      CollectDepends(fn, a, b, order[..|order| - 1]);
    }
  }

  lemma CollectExtends(fn: LeafFunction, results: map<Key, Tree>, order: seq<Key>, k: Key, t: Tree)
    requires k !in order && forall j :: j in order ==> j in results
    ensures Collect(fn, results[k := t], order + [k]) == Collect(fn, results, order)[NewKey(fn, k) := t]
  {
    CollectDepends(fn, results, results[k := t], order);
    assert (order + [k])[..|order + [k]| - 1] == order;
  }

  /** Each key of the filled mapping comes from an entry ... */
  lemma {:induction false} CollectedFrom(fn: LeafFunction, results: map<Key, Tree>, order: seq<Key>, n: string) returns (k: Key)
    requires forall j :: j in order ==> j in results
    requires n in Collect(fn, results, order)
    ensures k in order && NewKey(fn, k) == n && Collect(fn, results, order)[n] == results[k]
  {
    k := order[|order| - 1];
    if NewKey(fn, k) != n {
      k := CollectedFrom(fn, results, order[..|order| - 1], n);
    }
  }

  /** ... and each entry's key is there. */
  lemma {:induction false} IsCollected(fn: LeafFunction, results: map<Key, Tree>, order: seq<Key>, k: Key)
    requires forall j :: j in order ==> j in results
    requires k in order
    ensures NewKey(fn, k) in Collect(fn, results, order)
  {
    if order[|order| - 1] != k {
      IsCollected(fn, results, order[..|order| - 1], k);
    }
  }

  // Failure does not depend on the order

  lemma OrderEndingIn(entries: map<Key, Value>, last: Key) returns (order: seq<Key>)
    requires last in entries
    ensures IsOrder(entries, order) && order != [] && order[|order| - 1] == last
  {
    order := OrderOf(entries.Keys - {last}) + [last];
  }

  ghost function OrderOf(keys: set<Key>): (order: seq<Key>)
    ensures NoDuplicates(order) && forall k :: k in order <==> k in keys
    decreases keys
  {
    if keys == {} then [] else var k :| k in keys; OrderOf(keys - {k}) + [k]
  }

  /** One outcome, from one choice of orders. */
  ghost function Canon(v: Value, fn: LeafFunction): Tree
    decreases v, 1
  {
    match v
    case Null => TreeNull
    case Text(text) => if fn(text, false).Ok? then LeafTree(fn(text, false).value) else TreeNull
    case Scalar(literal) => TreeScalar(literal)
    case List(items) => TreeList(seq(|items|, i requires 0 <= i < |items| => Canon(items[i], fn)))
    case Mapping(entries) => TreeMap(Collect(fn, CanonOf(v, fn), OrderOf(entries.Keys)))
  }

  ghost function CanonOf(v: Value, fn: LeafFunction): map<Key, Tree>
    requires v.Mapping?
    decreases v, 0
  {
    map k | k in v.entries :: Canon(v.entries[k], fn)
  }

  lemma {:induction false} CanonIsYielded(v: Value, fn: LeafFunction)
    requires !Fails(v, fn)
    ensures Yields(v, fn, Canon(v, fn))
    decreases v
  {
    match v
    case Text(text) => assert Reaches(v, text, false);
    case List(items) =>
      forall i | 0 <= i < |items| ensures Yields(items[i], fn, Canon(items[i], fn)) {
        assert forall s, isKey :: Reaches(items[i], s, isKey) ==> Reaches(v, s, isKey);
        CanonIsYielded(items[i], fn);
      }
    case Mapping(entries) =>
      EntriesSucceed(v, fn);
      forall k | k in entries ensures Yields(entries[k], fn, Canon(entries[k], fn)) {
        CanonIsYielded(entries[k], fn);
      }
      assert YieldsInOrder(v, fn, OrderOf(entries.Keys), CanonOf(v, fn), Canon(v, fn).entries);
    case _ =>
  }

  lemma EntriesSucceed(v: Value, fn: LeafFunction)
    requires v.Mapping? && !Fails(v, fn)
    ensures forall k :: k in v.entries ==> fn(k.printed, true).Ok? && !Fails(v.entries[k], fn)
  {
    var entries := v.entries;
    forall k | k in entries ensures fn(k.printed, true).Ok? && !Fails(entries[k], fn) {
      assert Reaches(v, k.printed, true);
      assert forall s, isKey :: Reaches(entries[k], s, isKey) ==> Reaches(v, s, isKey);
    }
  }

  lemma {:induction false} YieldedMeansNoFailure(v: Value, fn: LeafFunction, t: Tree)
    requires Yields(v, fn, t)
    ensures !Fails(v, fn)
    decreases v
  {
    forall s, isKey | Reaches(v, s, isKey) ensures fn(s, isKey).Ok? {
      match v
      case Text(_) =>
      case List(items) =>
        var i :| 0 <= i < |items| && Reaches(items[i], s, isKey);
        YieldedMeansNoFailure(items[i], fn, t.items[i]);
      case Mapping(entries) =>
        var order, results :| YieldsInOrder(v, fn, order, results, t.entries);
        var k :| k in entries && ((isKey && s == k.printed) || Reaches(entries[k], s, isKey));
        YieldedMeansNoFailure(entries[k], fn, results[k]);
    }
  }

  /** transformPayload fails under one order of iteration exactly when it fails under all of them:
      when the leaf function fails on some string that occurs in the payload. */
  lemma FailureIgnoresOrder(v: Value, fn: LeafFunction)
    ensures Fails(v, fn) <==> forall t :: !Yields(v, fn, t)
    ensures Fails(v, fn) <==> exists error :: FailsWith(v, fn, error)
  {
    if !Fails(v, fn) {
      CanonIsYielded(v, fn);
      assert exists t :: Yields(v, fn, t);
    } else {
      forall t ensures !Yields(v, fn, t) {
        if Yields(v, fn, t) {
          YieldedMeansNoFailure(v, fn, t);
        }
      }
      var s, isKey :| Reaches(v, s, isKey) && fn(s, isKey).Err?;
      assert FailsWith(v, fn, fn(s, isKey).error);
    }
  }

  // When the outcome does not depend on the order

  /** Entries of one mapping whose keys become equal also have equal values. */
  ghost predicate Consistent(v: Value, fn: LeafFunction) {
    match v
    case List(items) => forall i :: 0 <= i < |items| ==> Consistent(items[i], fn)
    case Mapping(entries) =>
      && (forall k :: k in entries ==> Consistent(entries[k], fn))
      && forall j, k :: j in entries && k in entries && NewKey(fn, j) == NewKey(fn, k) ==>
           Canon(entries[j], fn) == Canon(entries[k], fn)
    case _ => true
  }

  /** Where entries with equal keys have equal values, the order does not matter. */
  lemma CollectIs(fn: LeafFunction, results: map<Key, Tree>, order: seq<Key>, out: map<string, Tree>)
    requires forall k :: k in order <==> k in results
    requires forall k :: k in results ==> NewKey(fn, k) in out && out[NewKey(fn, k)] == results[k]
    requires forall n :: n in out ==> exists k :: k in results && NewKey(fn, k) == n
    ensures Collect(fn, results, order) == out
  {
    var c := Collect(fn, results, order);
    forall n | n in c ensures n in out && c[n] == out[n] {
      var k := CollectedFrom(fn, results, order, n);
    }
    forall n | n in out ensures n in c {
      var k :| k in results && NewKey(fn, k) == n;
      IsCollected(fn, results, order, k);
    }
  }

  lemma CollectIsStable(fn: LeafFunction, results: map<Key, Tree>, a: seq<Key>, b: seq<Key>)
    requires forall k :: k in a <==> k in results
    requires forall k :: k in b <==> k in results
    requires forall j, k :: j in results && k in results && NewKey(fn, j) == NewKey(fn, k) ==> results[j] == results[k]
    ensures Collect(fn, results, a) == Collect(fn, results, b)
  {
    var out := Collect(fn, results, a);
    forall k | k in results ensures NewKey(fn, k) in out && out[NewKey(fn, k)] == results[k] {
      IsCollected(fn, results, a, k);
      var j := CollectedFrom(fn, results, a, NewKey(fn, k));
    }
    forall n | n in out ensures exists k :: k in results && NewKey(fn, k) == n {
      var k := CollectedFrom(fn, results, a, n);
    }
    CollectIs(fn, results, b, out);
  }

  lemma {:induction false} ConsistentHasOneOutcome(v: Value, fn: LeafFunction, t: Tree)
    requires Consistent(v, fn) && Yields(v, fn, t)
    ensures t == Canon(v, fn)
    decreases v
  {
    match v
    case List(items) =>
      forall i | 0 <= i < |items| ensures t.items[i] == Canon(items[i], fn) {
        ConsistentHasOneOutcome(items[i], fn, t.items[i]);
      }
    case Mapping(entries) =>
      var order, results :| YieldsInOrder(v, fn, order, results, t.entries);
      forall k | k in entries ensures results[k] == CanonOf(v, fn)[k] {
        ConsistentHasOneOutcome(entries[k], fn, results[k]);
      }
      assert results == CanonOf(v, fn);
      CollectIsStable(fn, results, order, OrderOf(entries.Keys));
    case _ =>
  }

  /** Two outcomes of a mapping: the entry `last` comes last and has value a or b. */
  lemma LastEntryWins(v: Value, fn: LeafFunction, last: Key, a: Tree) returns (t: Tree)
    requires v.Mapping? && !Fails(v, fn)
    requires last in v.entries && Yields(v.entries[last], fn, a)
    ensures Yields(v, fn, t) && t.TreeMap? && NewKey(fn, last) in t.entries && t.entries[NewKey(fn, last)] == a
  {
    var entries := v.entries;
    EntriesSucceed(v, fn);
    var order := OrderEndingIn(entries, last);
    var results := CanonOf(v, fn)[last := a];
    forall k | k in entries ensures Yields(entries[k], fn, results[k]) {
      CanonIsYielded(entries[k], fn);
    }
    t := TreeMap(Collect(fn, results, order));
    assert YieldsInOrder(v, fn, order, results, t.entries);
  }

  lemma {:induction false} InconsistentHasTwoOutcomes(v: Value, fn: LeafFunction) returns (a: Tree, b: Tree)
    requires !Consistent(v, fn) && !Fails(v, fn)
    ensures a != b && Yields(v, fn, a) && Yields(v, fn, b)
    decreases v
  {
    match v {
      case List(items) =>
        var i :| 0 <= i < |items| && !Consistent(items[i], fn);
        assert forall s, isKey :: Reaches(items[i], s, isKey) ==> Reaches(v, s, isKey);
        var x, y := InconsistentHasTwoOutcomes(items[i], fn);
        CanonIsYielded(v, fn);
        var out := Canon(v, fn).items;
        a, b := TreeList(out[i := x]), TreeList(out[i := y]);
        assert a.items[i] != b.items[i];
      case Mapping(entries) =>
        EntriesSucceed(v, fn);
        if k :| k in entries && !Consistent(entries[k], fn) {
          var x, y := InconsistentHasTwoOutcomes(entries[k], fn);
          a := LastEntryWins(v, fn, k, x);
          b := LastEntryWins(v, fn, k, y);
        } else {
          var j, k :| j in entries && k in entries && NewKey(fn, j) == NewKey(fn, k)
                      && Canon(entries[j], fn) != Canon(entries[k], fn);
          CanonIsYielded(entries[j], fn);
          CanonIsYielded(entries[k], fn);
          a := LastEntryWins(v, fn, j, Canon(entries[j], fn));
          b := LastEntryWins(v, fn, k, Canon(entries[k], fn));
        }
    }
  }

  /** A payload that transforms at all has one outcome, whatever the orders of iteration, exactly
      when entries whose keys become equal have equal values. */
  lemma OneOutcomeExactlyWhenConsistent(v: Value, fn: LeafFunction)
    requires !Fails(v, fn)
    ensures Consistent(v, fn) <==> forall a, b :: Yields(v, fn, a) && Yields(v, fn, b) ==> a == b
  {
    if Consistent(v, fn) {
      forall a, b | Yields(v, fn, a) && Yields(v, fn, b) ensures a == b {
        ConsistentHasOneOutcome(v, fn, a);
        ConsistentHasOneOutcome(v, fn, b);
      }
    } else {
      var a, b := InconsistentHasTwoOutcomes(v, fn);
      assert exists a, b :: Yields(v, fn, a) && Yields(v, fn, b) && a != b;
    }
  }

  /** No two keys of a mapping become equal. */
  ghost predicate KeysStayDistinct(v: Value, fn: LeafFunction) {
    match v
    case List(items) => forall i :: 0 <= i < |items| ==> KeysStayDistinct(items[i], fn)
    case Mapping(entries) =>
      && (forall k :: k in entries ==> KeysStayDistinct(entries[k], fn))
      && forall j, k :: j in entries && k in entries && NewKey(fn, j) == NewKey(fn, k) ==> j == k
    case _ => true
  }

  /** t is v with every string, key or not, replaced by its transform and nothing else changed. */
  ghost predicate IsImage(v: Value, fn: LeafFunction, t: Tree)
    decreases v
  {
    match v
    case Null => t == TreeNull
    case Text(text) => fn(text, false).Ok? && t == LeafTree(fn(text, false).value)
    case Scalar(literal) => t == TreeScalar(literal)
    case List(items) =>
      t.TreeList? && |t.items| == |items| && forall i :: 0 <= i < |items| ==> IsImage(items[i], fn, t.items[i])
    case Mapping(entries) =>
      && t.TreeMap?
      && t.entries.Keys == (set k | k in entries :: NewKey(fn, k))
      && forall k :: k in entries ==> fn(k.printed, true).Ok? && IsImage(entries[k], fn, t.entries[NewKey(fn, k)])
  }

  /** The image's value for each entry. */
  ghost function ImagesOf(v: Value, fn: LeafFunction, t: Tree): map<Key, Tree>
    requires v.Mapping? && IsImage(v, fn, t)
  {
    map k | k in v.entries :: t.entries[NewKey(fn, k)]
  }

  lemma ImageIsCollected(v: Value, fn: LeafFunction, t: Tree)
    requires v.Mapping? && IsImage(v, fn, t)
    ensures Collect(fn, ImagesOf(v, fn, t), OrderOf(v.entries.Keys)) == t.entries
  {
    forall n | n in t.entries ensures exists k :: k in ImagesOf(v, fn, t) && NewKey(fn, k) == n {
      assert n in t.entries.Keys;
    }
    CollectIs(fn, ImagesOf(v, fn, t), OrderOf(v.entries.Keys), t.entries);
  }

  lemma MappingKeepsShape(v: Value, fn: LeafFunction, t: Tree)
    requires v.Mapping? && IsImage(v, fn, t)
    requires forall k, u :: k in v.entries && IsImage(v.entries[k], fn, u) ==> Yields(v.entries[k], fn, u)
    ensures Yields(v, fn, t)
  {
    ImageIsCollected(v, fn, t);
    assert YieldsInOrder(v, fn, OrderOf(v.entries.Keys), ImagesOf(v, fn, t), t.entries);
  }

  lemma MappingHasShape(v: Value, fn: LeafFunction, t: Tree)
    requires v.Mapping? && KeysStayDistinct(v, fn)
    requires forall k, u :: k in v.entries && Yields(v.entries[k], fn, u) ==> IsImage(v.entries[k], fn, u)
    requires Yields(v, fn, t)
    ensures IsImage(v, fn, t)
  {
    var order, results :| YieldsInOrder(v, fn, order, results, t.entries);
    forall k | k in v.entries
      ensures NewKey(fn, k) in t.entries && fn(k.printed, true).Ok? && IsImage(v.entries[k], fn, t.entries[NewKey(fn, k)])
    {
      IsCollected(fn, results, order, k);
      var j := CollectedFrom(fn, results, order, NewKey(fn, k));
    }
    forall n | n in t.entries ensures exists k :: k in v.entries && NewKey(fn, k) == n {
      var k := CollectedFrom(fn, results, order, n);
    }
  }

  /** With distinct transformed keys the outcomes are the images of the payload, entry by entry. */
  lemma {:induction false} DistinctKeysKeepTheShape(v: Value, fn: LeafFunction, t: Tree)
    requires KeysStayDistinct(v, fn)
    ensures Yields(v, fn, t) <==> IsImage(v, fn, t)
    decreases v
  {
    match v
    case List(items) =>
      forall i | 0 <= i < |items| && t.TreeList? && i < |t.items|
        ensures Yields(items[i], fn, t.items[i]) <==> IsImage(items[i], fn, t.items[i])
      {
        DistinctKeysKeepTheShape(items[i], fn, t.items[i]);
      }
    case Mapping(entries) =>
      forall k, u | k in entries ensures Yields(entries[k], fn, u) <==> IsImage(entries[k], fn, u) {
        DistinctKeysKeepTheShape(entries[k], fn, u);
      }
      if Yields(v, fn, t) {
        MappingHasShape(v, fn, t);
      } else if IsImage(v, fn, t) {
        MappingKeepsShape(v, fn, t);
      }
    case _ =>
  }

  /** ... and there is at most one, since images are unique. */
  lemma {:induction false} DistinctKeysAreConsistent(v: Value, fn: LeafFunction)
    requires KeysStayDistinct(v, fn)
    ensures Consistent(v, fn)
    decreases v
  {
    match v
    case List(items) =>
      forall i | 0 <= i < |items| ensures Consistent(items[i], fn) {
        DistinctKeysAreConsistent(items[i], fn);
      }
    case Mapping(entries) =>
      forall k | k in entries ensures Consistent(entries[k], fn) {
        DistinctKeysAreConsistent(entries[k], fn);
      }
    case _ =>
  }
}
