/** The insertion-ordered map of the `indexmap` crate, as the resolver uses it:
    `insert` and `shift_remove`. */
module IndexMaps {
  import opened Prelude

  datatype Entry<T> = Entry(key: string, value: T)

  /** Entries in order; a key has at most one. */
  type IndexMap<T> = seq<Entry<T>>

  predicate DistinctKeys<T>(m: IndexMap<T>) {
    forall i, j :: 0 <= i < j < |m| ==> m[i].key != m[j].key
  }

  predicate Has<T>(m: IndexMap<T>, key: string) {
    exists i :: 0 <= i < |m| && m[i].key == key
  }

  /** A present key keeps its position, a new one comes last. */
  function Insert<T>(m: IndexMap<T>, key: string, value: T): (r: IndexMap<T>)
    ensures |r| == if Has(m, key) then |m| else |m| + 1
    ensures forall i :: 0 <= i < |m| ==> r[i] == if m[i].key == key then Entry(key, value) else m[i]
    ensures !Has(m, key) ==> r[|m|] == Entry(key, value)
  {
    if Has(m, key)
    then seq(|m|, i requires 0 <= i < |m| => if m[i].key == key then Entry(key, value) else m[i])
    else m + [Entry(key, value)]
  }

  /** The others move up. */
  function ShiftRemove<T>(m: IndexMap<T>, key: string): IndexMap<T> {
    if m == [] then []
    else
      ShiftRemove(m[..|m| - 1], key) + (if m[|m| - 1].key == key then [] else [m[|m| - 1]])
  }

  lemma InInsert<T>(m: IndexMap<T>, key: string, value: T, e: Entry<T>)
    ensures e in Insert(m, key, value) <==> e == Entry(key, value) || (e in m && e.key != key)
  {
    var r := Insert(m, key, value);
    if Has(m, key) {
      var i :| 0 <= i < |m| && m[i].key == key;
      assert r[i] == Entry(key, value);
    } else {
      assert r[|m|] == Entry(key, value);
    }
    if e in m && e.key != key {
      var i :| 0 <= i < |m| && m[i] == e;
      assert r[i] == e;
    }
  }

  lemma {:induction false} InRemove<T>(m: IndexMap<T>, key: string, e: Entry<T>)
    ensures e in ShiftRemove(m, key) <==> e in m && e.key != key
  {
    if m != [] {
      InRemove(m[..|m| - 1], key, e);
      assert m == m[..|m| - 1] + [m[|m| - 1]];
    }
  }

  // ---- a sequence of insertions and removals ----------------------------

  /** `insert` of a value, or `shift_remove`. */
  datatype Naming<T> = Naming(key: string, value: Option<T>)

  function Applied<T>(m: IndexMap<T>, n: Naming<T>): IndexMap<T> {
    if n.value.Some? then Insert(m, n.key, n.value.value) else ShiftRemove(m, n.key)
  }

  function AppliedAll<T>(m: IndexMap<T>, ns: seq<Naming<T>>): IndexMap<T> {
    if ns == [] then m else Applied(AppliedAll(m, ns[..|ns| - 1]), ns[|ns| - 1])
  }

  function Built<T>(ns: seq<Naming<T>>): IndexMap<T> {
    AppliedAll([], ns)
  }

  /** What was last said about a key. */
  function LastValue<T>(ns: seq<Naming<T>>, key: string): Option<T> {
    if ns == [] then None
    else if ns[|ns| - 1].key == key then ns[|ns| - 1].value
    else LastValue(ns[..|ns| - 1], key)
  }

  /** An entry is present iff it is what was last said about its key. */
  lemma {:induction false} BuiltHolds<T>(ns: seq<Naming<T>>, e: Entry<T>)
    ensures e in Built(ns) <==> LastValue(ns, e.key) == Some(e.value)
  {
    if ns != [] {
      var before, n := ns[..|ns| - 1], ns[|ns| - 1];
      BuiltHolds(before, e);
      if n.value.Some? {
        InInsert(Built(before), n.key, n.value.value, e);
      } else {
        InRemove(Built(before), n.key, e);
      }
    }
  }

  lemma BuiltHas<T>(ns: seq<Naming<T>>, key: string)
    ensures Has(Built(ns), key) <==> LastValue(ns, key).Some?
  {
    var m := Built(ns);
    if Has(m, key) {
      var i :| 0 <= i < |m| && m[i].key == key;
      assert m[i] in m;
      BuiltHolds(ns, m[i]);
    }
    if LastValue(ns, key).Some? {
      var e := Entry(key, LastValue(ns, key).value);
      BuiltHolds(ns, e);
      var i :| 0 <= i < |m| && m[i] == e;
    }
  }

  function Find<T>(m: IndexMap<T>, key: string): Option<T> {
    if m == [] then None
    else if m[|m| - 1].key == key then Some(m[|m| - 1].value)
    else Find(m[..|m| - 1], key)
  }

  lemma {:induction false} FindIn<T>(m: IndexMap<T>, e: Entry<T>)
    requires DistinctKeys(m)
    ensures e in m <==> Find(m, e.key) == Some(e.value)
  {
    if m != [] {
      var t, last := m[..|m| - 1], m[|m| - 1];
      FindIn(t, e);
      assert m == t + [last];
      forall x | x in t ensures x.key != last.key {
        var i :| 0 <= i < |t| && t[i] == x;
        assert m[i] == x;
      }
    }
  }

  /** Looking a key up gives what was last said about it. */
  lemma BuiltFind<T>(ns: seq<Naming<T>>, key: string)
    ensures Find(Built(ns), key) == LastValue(ns, key)
  {
    BuiltInOrder(ns);
    if LastValue(ns, key).Some? {
      var e := Entry(key, LastValue(ns, key).value);
      BuiltHolds(ns, e);
      FindIn(Built(ns), e);
    }
    if Find(Built(ns), key).Some? {
      var e := Entry(key, Find(Built(ns), key).value);
      BuiltHolds(ns, e);
      FindIn(Built(ns), e);
    }
  }

  lemma {:induction false} AppliedConcat<T>(m: IndexMap<T>, a: seq<Naming<T>>, b: seq<Naming<T>>)
    ensures AppliedAll(m, a + b) == AppliedAll(AppliedAll(m, a), b)
  {
    if b == [] {
      assert a + b == a;
    } else {
      assert (a + b)[..|a + b| - 1] == a + b[..|b| - 1];
      AppliedConcat(m, a, b[..|b| - 1]);
    }
  }

  /** The later part decides if it names the key. */
  lemma {:induction false} LastValueConcat<T>(a: seq<Naming<T>>, b: seq<Naming<T>>, key: string)
    ensures LastValue(a + b, key) ==
              if exists i :: 0 <= i < |b| && b[i].key == key then LastValue(b, key) else LastValue(a, key)
  {
    if b == [] {
      assert a + b == a;
    } else {
      var t := b[..|b| - 1];
      assert (a + b)[..|a + b| - 1] == a + t;
      LastValueConcat(a, t, key);
      assert forall i :: 0 <= i < |t| ==> t[i] == b[i];
    }
  }

  // ---- order ------------------------------------------------------------

  /** The insertion since which a key has been present, -1 if it is not: the
      one that found it missing, with no removal after it. */
  function Since<T>(ns: seq<Naming<T>>, key: string): (i: int)
    ensures -1 <= i < |ns|
    ensures i >= 0 <==> LastValue(ns, key).Some?
    ensures i >= 0 ==> ns[i].key == key && LastValue(ns[..i], key).None?
    ensures i >= 0 ==> forall j :: i <= j < |ns| && ns[j].key == key ==> ns[j].value.Some?
  {
    if ns == [] then -1
    else
      var before, n := ns[..|ns| - 1], ns[|ns| - 1];
      var s := Since(before, key);
      assert s >= 0 ==> before[..s] == ns[..s];
      if n.key != key then s
      else if n.value.None? then -1
      else if s >= 0 then s
      else |before|
  }

  predicate InOrder<T>(ns: seq<Naming<T>>, m: IndexMap<T>) {
    forall i, j :: 0 <= i < j < |m| ==> Since(ns, m[i].key) < Since(ns, m[j].key)
  }

  /** Entries stand in the order in which their keys came to stay; so no key
      has two. */
  lemma {:induction false} BuiltInOrder<T>(ns: seq<Naming<T>>)
    ensures InOrder(ns, Built(ns)) && DistinctKeys(Built(ns))
  {
    if ns != [] {
      var before, n := ns[..|ns| - 1], ns[|ns| - 1];
      BuiltInOrder(before);
      if n.value.Some? {
        InsertInOrder(ns);
      } else {
        RemoveInOrder(ns, Built(before));
      }
    }
  }

  lemma InsertInOrder<T>(ns: seq<Naming<T>>)
    requires ns != [] && ns[|ns| - 1].value.Some?
    requires InOrder(ns[..|ns| - 1], Built(ns[..|ns| - 1]))
    ensures InOrder(ns, Built(ns))
  {
    var before, n := ns[..|ns| - 1], ns[|ns| - 1];
    var m, r := Built(before), Built(ns);
    assert r == Insert(m, n.key, n.value.value);
    forall i | 0 <= i < |m| ensures r[i].key == m[i].key && Since(ns, r[i].key) == Since(before, m[i].key) {
      assert Has(m, m[i].key);
      BuiltHas(before, m[i].key);
    }
    BuiltHas(before, n.key);
  }

  lemma {:induction false} RemoveInOrder<T>(ns: seq<Naming<T>>, m: IndexMap<T>)
    requires ns != [] && ns[|ns| - 1].value.None? && InOrder(ns[..|ns| - 1], m)
    ensures InOrder(ns, ShiftRemove(m, ns[|ns| - 1].key))
  {
    if m != [] {
      var key, t, last := ns[|ns| - 1].key, m[..|m| - 1], m[|m| - 1];
      RemoveInOrder(ns, t);
      var r := ShiftRemove(t, key);
      forall i | 0 <= i < |r| && last.key != key ensures Since(ns, r[i].key) < Since(ns, last.key) {
        assert r[i] in r;
        InRemove(t, key, r[i]);
        var j :| 0 <= j < |t| && t[j] == r[i];
        assert m[j] == r[i];
      }
    }
  }
}
