/** The in-place merge of two JSON values. */
module JsonMerge {
  import opened Bytes

  datatype Value =
    | Null
    | Bool(b: bool)
    | Number(n: int)
    | Str(s: string)
    | Array(items: seq<Value>)
    | Object(entries: map<string, Value>)

  /** The functional deep merge: entries of two objects are merged key by key, otherwise `b` wins. */
  function DeepMerge(a: Value, b: Value): Value
    decreases b
  {
    if a.Object? && b.Object? then
      Object(map k | k in a.entries.Keys + b.entries.Keys ::
               if k in b.entries then DeepMerge(Entry(a, k), b.entries[k]) else a.entries[k])
    else b
  }

  /** `entry(k).or_insert(Null)`, as a value. */
  function Entry(a: Value, k: string): Value
    requires a.Object?
  {
    if k in a.entries then a.entries[k] else Null
  }

  /** A place that holds a value, as `&mut Value` does. */
  class Slot {
    var value: Value

    constructor (value: Value)
      ensures this.value == value
    {
      this.value := value;
    }
  }

  /** The loop visits the keys of `b` in an arbitrary order. */
  method Merge(a: Slot, b: Value)
    modifies a
    ensures a.value == DeepMerge(old(a.value), b)
    decreases b
  {
    if a.value.Object? && b.Object? {
      var keys := b.entries.Keys;
      var before := a.value;
      while keys != {}
        invariant keys <= b.entries.Keys && a.value.Object?
        invariant a.value.entries.Keys == before.entries.Keys + (b.entries.Keys - keys)
        invariant forall k :: k in a.value.entries ==>
          a.value.entries[k] == if k in b.entries && k !in keys then DeepMerge(Entry(before, k), b.entries[k])
                                else Entry(before, k)
        decreases keys
      {
        var k :| k in keys;
        var entry := new Slot(Entry(a.value, k));
        Merge(entry, b.entries[k]);
        a.value := Object(a.value.entries[k := entry.value]);
        keys := keys - {k};
      }
      assert a.value.entries == DeepMerge(before, b).entries;
    } else {
      a.value := b;
    }
  }

  // ---- What merging means for lookups ----

  /** The value at a path of object keys. */
  function At(v: Value, path: seq<string>): Option<Value> {
    if path == [] then Some(v)
    else if v.Object? && path[0] in v.entries then At(v.entries[path[0]], path[1..])
    else None
  }

  /** Following `path`, `v` stays within objects and then lacks a key. */
  predicate LacksKey(v: Value, path: seq<string>) {
    path != [] && v.Object? && (path[0] in v.entries ==> LacksKey(v.entries[path[0]], path[1..]))
  }

  /** Following `path`, `a` and `b` are both objects until `b` lacks a key. */
  predicate OnlySecondLacks(a: Value, b: Value, path: seq<string>) {
    path != [] && a.Object? && b.Object?
    && (path[0] in b.entries ==>
          path[0] in a.entries && OnlySecondLacks(a.entries[path[0]], b.entries[path[0]], path[1..]))
  }

  /** Both hold an object at `path`. */
  predicate BothObjects(a: Value, b: Value, path: seq<string>) {
    && At(a, path).Some? && At(a, path).value.Object?
    && At(b, path).Some? && At(b, path).value.Object?
  }

  /** What `m` must hold at `path` to be the merge of `a` and `b`: where both hold objects, an object with
      the keys of both; where only `b` lacks a key, what `a` holds; elsewhere what `b` holds, if anything. */
  predicate MergedAt(a: Value, b: Value, m: Value, path: seq<string>) {
    if BothObjects(a, b, path) then
      && At(m, path).Some? && At(m, path).value.Object?
      && At(m, path).value.entries.Keys == At(a, path).value.entries.Keys + At(b, path).value.entries.Keys
    else At(m, path) == if OnlySecondLacks(a, b, path) then At(a, path) else At(b, path)
  }

  /** Every lookup in the merged value. */
  lemma {:induction false} MergeLookup(a: Value, b: Value, path: seq<string>)
    ensures MergedAt(a, b, DeepMerge(a, b), path)
    decreases path
  {
    if path != [] && a.Object? && b.Object? && path[0] in b.entries {
      MergeLookup(Entry(a, path[0]), b.entries[path[0]], path[1..]);
      assert DeepMerge(a, b).entries[path[0]] == DeepMerge(Entry(a, path[0]), b.entries[path[0]]);
    }
  }

  lemma MergedBelow(a: Value, b: Value, m: Value, k: string, path: seq<string>)
    requires a.Object? && b.Object? && m.Object? && k in b.entries && k in m.entries
    requires MergedAt(a, b, m, [k] + path)
    ensures MergedAt(Entry(a, k), b.entries[k], m.entries[k], path)
  {
    assert ([k] + path)[1..] == path;
  }

  /** No other value reads so at every path. */
  lemma {:induction false} MergeUnique(a: Value, b: Value, m: Value)
    requires forall path :: MergedAt(a, b, m, path)
    ensures m == DeepMerge(a, b)
    decreases b
  {
    assert MergedAt(a, b, m, []);
    if a.Object? && b.Object? {
      forall k | k in m.entries
        ensures m.entries[k] == DeepMerge(a, b).entries[k]
      {
        if k in b.entries {
          forall path ensures MergedAt(Entry(a, k), b.entries[k], m.entries[k], path) {
            MergedBelow(a, b, m, k, path);
          }
          MergeUnique(Entry(a, k), b.entries[k], m.entries[k]);
        } else {
          assert MergedAt(a, b, m, [k]);
          assert [k][1..] == [];
          assert At(m, [k]) == Some(m.entries[k]) && At(a, [k]) == Some(a.entries[k]);
        }
      }
      assert m.entries == DeepMerge(a, b).entries;
    }
  }

  /** A value is the merge of two others if and only if it reads so at every path. */
  lemma {:induction false} MergeExactly(a: Value, b: Value, m: Value)
    ensures m == DeepMerge(a, b) <==> forall path :: MergedAt(a, b, m, path)
  {
    forall path ensures MergedAt(a, b, DeepMerge(a, b), path) {
      MergeLookup(a, b, path);
    }
    if forall path :: MergedAt(a, b, m, path) {
      MergeUnique(a, b, m);
    }
  }

  lemma {:induction false} FoundOrLacking(a: Value, b: Value, path: seq<string>)
    ensures At(b, path).Some? ==> !OnlySecondLacks(a, b, path)
    ensures At(a, path).Some? && LacksKey(b, path) ==> OnlySecondLacks(a, b, path)
    decreases path
  {
    if path != [] && a.Object? && b.Object? && path[0] in a.entries && path[0] in b.entries {
      FoundOrLacking(a.entries[path[0]], b.entries[path[0]], path[1..]);
    }
  }

  /** Every leaf of `b` reads as in `b`. */
  lemma {:induction false} LeavesOfSecondWin(a: Value, b: Value, path: seq<string>)
    requires At(b, path).Some? && !At(b, path).value.Object?
    ensures At(DeepMerge(a, b), path) == At(b, path)
  {
    MergeLookup(a, b, path);
    FoundOrLacking(a, b, path);
  }

  /** Whatever `a` holds at a path on which `b` lacks a key is kept. */
  lemma {:induction false} SilentPathsKept(a: Value, b: Value, path: seq<string>)
    requires At(a, path).Some? && LacksKey(b, path)
    ensures At(DeepMerge(a, b), path) == At(a, path)
  {
    MergeLookup(a, b, path);
    FoundOrLacking(a, b, path);
  }

  lemma {:induction false} MergeSelf(b: Value)
    ensures DeepMerge(b, b) == b
  {
    if b.Object? {
      forall k | k in b.entries
        ensures DeepMerge(b.entries[k], b.entries[k]) == b.entries[k]
      {
        MergeSelf(b.entries[k]);
      }
      assert DeepMerge(b, b).entries == b.entries;
    }
  }

  /** Merging the same value again changes nothing. */
  lemma {:induction false} MergeTwice(a: Value, b: Value)
    ensures DeepMerge(DeepMerge(a, b), b) == DeepMerge(a, b)
    decreases b
  {
    MergeSelf(b);
    if a.Object? && b.Object? {
      var once := DeepMerge(a, b);
      forall k | k in b.entries
        ensures DeepMerge(Entry(once, k), b.entries[k]) == once.entries[k]
      {
        MergeTwice(Entry(a, k), b.entries[k]);
      }
      assert DeepMerge(once, b).entries == once.entries;
    }
  }
}
