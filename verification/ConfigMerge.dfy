/** Layered configuration (loopal-config/src/loader.rs, resolver.rs). */
module ConfigMerge {
  import opened Prelude
  import opened JsonValues

  // ---- deep merge -------------------------------------------------------

  /** Objects merge member by member; anything else is replaced. A member that
      the base lacks starts from `null`. */
  function Merged(base: Json, overlay: Json): Json
    decreases overlay
  {
    if base.Obj? && overlay.Obj? then
      Obj(map k | k in base.fields.Keys + overlay.fields.Keys ::
            if k in overlay.fields
            then Merged(if k in base.fields then base.fields[k] else Null, overlay.fields[k])
            else base.fields[k])
    else overlay
  }

  /** The recursion over the overlay's members, in any order. */
  method DeepMerge(base: Json, overlay: Json) returns (r: Json)
    ensures r == Merged(base, overlay)
    decreases overlay
  {
    if !(base.Obj? && overlay.Obj?) {
      return overlay;
    }
    var fields := base.fields;
    var todo := overlay.fields.Keys;
    while todo != {}
      invariant todo <= overlay.fields.Keys
      invariant fields.Keys == base.fields.Keys + (overlay.fields.Keys - todo)
      invariant forall k :: k in fields ==>
                  fields[k] == if k in overlay.fields && k !in todo then Merged(base, overlay).fields[k]
                               else base.fields[k]
      decreases todo
    {
      var key :| key in todo;
      var entry := if key in fields then fields[key] else Null;
      var merged := DeepMerge(entry, overlay.fields[key]);
      fields := fields[key := merged];
      todo := todo - {key};
    }
    r := Obj(fields);
  }

  // ---- lookup by path ---------------------------------------------------

  /** Children of a value; only objects have any. */
  function Child(j: Json, key: string): Option<Json> {
    if j.Obj? && key in j.fields then Some(j.fields[key]) else None
  }

  function Lookup(j: Json, path: seq<string>): Option<Json> {
    if path == [] then Some(j)
    else
      match Child(j, path[0])
      case None => None
      case Some(c) => Lookup(c, path[1..])
  }

  /** The overlay leaves the path alone: it walks objects along it until a
      member is missing. */
  predicate Untouched(overlay: Json, path: seq<string>) {
    && path != [] && overlay.Obj?
    && (path[0] in overlay.fields ==> Untouched(overlay.fields[path[0]], path[1..]))
  }

  function OrNull(v: Option<Json>): Json {
    if v.Some? then v.value else Null
  }

  lemma ChildOfMerged(base: Json, overlay: Json, key: string)
    requires overlay.Obj?
    ensures Child(Merged(base, overlay), key) ==
              if key in overlay.fields then Some(Merged(OrNull(Child(base, key)), overlay.fields[key]))
              else Child(base, key)
  {
    if !base.Obj? && key in overlay.fields {
      MergedIntoNull(overlay.fields[key]);
    }
  }

  lemma MergedIntoNull(v: Json)
    ensures Merged(Null, v) == v
  {
  }

  /** Where the overlay has a value, the result has it merged into the base's.
      In particular a leaf of the overlay is found at its path. */
  lemma {:induction false} OverlayWins(base: Json, overlay: Json, path: seq<string>)
    requires Lookup(overlay, path).Some?
    ensures Lookup(Merged(base, overlay), path) ==
              Some(Merged(OrNull(Lookup(base, path)), Lookup(overlay, path).value))
    ensures !Lookup(overlay, path).value.Obj? ==> Lookup(Merged(base, overlay), path) == Lookup(overlay, path)
    decreases path
  {
    if path != [] {
      ChildOfMerged(base, overlay, path[0]);
      var b := OrNull(Child(base, path[0]));
      OverlayWins(b, overlay.fields[path[0]], path[1..]);
      if Child(base, path[0]).None? {
        assert Lookup(Null, path[1..]) == if path[1..] == [] then Some(Null) else None;
      }
    }
  }

  /** Where the overlay neither reaches nor cuts, the base is kept. */
  lemma {:induction false} BaseSurvives(base: Json, overlay: Json, path: seq<string>)
    requires Untouched(overlay, path)
    ensures Lookup(Merged(base, overlay), path) == Lookup(base, path)
    decreases path
  {
    ChildOfMerged(base, overlay, path[0]);
    if path[0] in overlay.fields {
      BaseSurvives(OrNull(Child(base, path[0])), overlay.fields[path[0]], path[1..]);
    }
  }

  /** In the third case a non-object of the overlay lies on the way, and the
      path is gone. With the two lemmas above every path is accounted for. */
  lemma {:induction false} CutPathsVanish(base: Json, overlay: Json, path: seq<string>)
    requires Lookup(overlay, path).None? && !Untouched(overlay, path)
    ensures Lookup(Merged(base, overlay), path).None?
    decreases path
  {
    if overlay.Obj? {
      ChildOfMerged(base, overlay, path[0]);
      CutPathsVanish(OrNull(Child(base, path[0])), overlay.fields[path[0]], path[1..]);
    }
  }

  // ---- algebra ----------------------------------------------------------

  /** Merging an overlay a second time changes nothing. */
  lemma {:induction false} MergeTwice(base: Json, overlay: Json)
    ensures Merged(Merged(base, overlay), overlay) == Merged(base, overlay)
    decreases overlay
  {
    if overlay.Obj? {
      var once := Merged(base, overlay);
      forall k | k in once.fields ensures Merged(once, overlay).fields[k] == once.fields[k] {
        if k in overlay.fields {
          ChildOfMerged(base, overlay, k);
          MergeTwice(OrNull(Child(base, k)), overlay.fields[k]);
        }
      }
      assert Merged(once, overlay).fields == once.fields;
    }
  }

  /** `base` has nothing that `overlay` would keep: every member it has is
      overridden. */
  predicate Overridden(base: Json, overlay: Json)
    decreases base
  {
    base.Obj? && overlay.Obj? ==>
      forall k :: k in base.fields ==> k in overlay.fields && Overridden(base.fields[k], overlay.fields[k])
  }

  lemma {:induction false} OverriddenExactly(base: Json, overlay: Json)
    ensures Merged(base, overlay) == overlay <==> Overridden(base, overlay)
    decreases base
  {
    if base.Obj? && overlay.Obj? {
      var m := Merged(base, overlay);
      forall k | k in base.fields && k in overlay.fields
        ensures m.fields[k] == overlay.fields[k] <==> Overridden(base.fields[k], overlay.fields[k])
      {
        OverriddenExactly(base.fields[k], overlay.fields[k]);
      }
      forall k | k !in base.fields && k in overlay.fields ensures m.fields[k] == overlay.fields[k] {
        MergedIntoNull(overlay.fields[k]);
      }
      if Overridden(base, overlay) {
        assert m.fields == overlay.fields;
      }
      if m == overlay {
        forall k | k in base.fields ensures k in overlay.fields && Overridden(base.fields[k], overlay.fields[k]) {
          assert k in m.fields;
        }
      }
    }
  }

  /** When three layers may be merged in either grouping: wherever the first
      and the last are both objects, a middle non-object is harmless only if
      the last overrides all the first has. */
  predicate Associates(a: Json, b: Json, c: Json)
    decreases a
  {
    a.Obj? && c.Obj? ==>
      if !b.Obj? then Overridden(a, c)
      else forall k :: k in a.fields && k in b.fields && k in c.fields ==>
             Associates(a.fields[k], b.fields[k], c.fields[k])
  }

  lemma {:induction false} AssociativeExactly(a: Json, b: Json, c: Json)
    ensures Merged(Merged(a, b), c) == Merged(a, Merged(b, c)) <==> Associates(a, b, c)
    decreases a
  {
    if a.Obj? && c.Obj? {
      if b.Obj? {
        AssociativeObjects(a, b, c);
      } else {
        OverriddenExactly(a, c);
      }
    }
  }

  lemma {:induction false} AssociativeObjects(a: Json, b: Json, c: Json)
    requires a.Obj? && b.Obj? && c.Obj?
    ensures Merged(Merged(a, b), c) == Merged(a, Merged(b, c)) <==> Associates(a, b, c)
    decreases a, 0
  {
    var l, r := Merged(Merged(a, b), c).fields, Merged(a, Merged(b, c)).fields;
    assert l.Keys == r.Keys;
    forall k | k in l
      ensures l[k] == r[k] <==>
                (k in a.fields && k in b.fields && k in c.fields ==> Associates(a.fields[k], b.fields[k], c.fields[k]))
    {
      AssociativeMember(a, b, c, k);
      if k in a.fields && k in b.fields && k in c.fields {
        AssociativeExactly(a.fields[k], b.fields[k], c.fields[k]);
      }
    }
    assert l == r <==> forall k :: k in l ==> l[k] == r[k];
    assert forall k :: k in a.fields ==> k in l;
  }

  /** One member of the two groupings. */
  lemma AssociativeMember(a: Json, b: Json, c: Json, k: string)
    requires a.Obj? && b.Obj? && c.Obj?
    requires k in a.fields || k in b.fields || k in c.fields
    ensures var l, r := Child(Merged(Merged(a, b), c), k), Child(Merged(a, Merged(b, c)), k);
            l.Some? && r.Some? &&
            if k in a.fields && k in b.fields && k in c.fields
            then l.value == Merged(Merged(a.fields[k], b.fields[k]), c.fields[k])
                 && r.value == Merged(a.fields[k], Merged(b.fields[k], c.fields[k]))
            else l == r
  {
    var ab, bc := Merged(a, b), Merged(b, c);
    ChildOfMerged(ab, c, k);
    ChildOfMerged(a, b, k);
    ChildOfMerged(a, bc, k);
    ChildOfMerged(b, c, k);
    if k in b.fields {
      MergedIntoNull(b.fields[k]);
    }
    if k in c.fields {
      MergedIntoNull(c.fields[k]);
    }
    if k in bc.fields {
      MergedIntoNull(bc.fields[k]);
    }
  }

  /** A scalar in the middle wipes what the base had, unless it is grouped
      with the last layer first. */
  lemma ScalarInTheMiddle()
    ensures var a, b, c := Obj(map["x" := Bool(true)]), Bool(false), Obj(map[]);
            Merged(Merged(a, b), c) == Obj(map[]) && Merged(a, Merged(b, c)) == a
  {
    var a, b, c := Obj(map["x" := Bool(true)]), Bool(false), Obj(map[]);
    assert Merged(b, c) == c;
    assert Merged(a, c).fields == a.fields;
  }
}
