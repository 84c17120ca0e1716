// Merging of nested configuration dictionaries.

module MergeDict {
  import opened Wrappers

  /** Anything that is not a dictionary, lists included, is a leaf. */
  datatype Value = Leaf(value: int) | Dict(entries: Entries)

  type Entries = map<string, Value>

  datatype MergeError = NotADictionary

  /** A dictionary without entries replaces, as a leaf does; one with entries merges. */
  predicate Merges(v: Value) {
    v.Dict? && v.entries != map[]
  }

  function EntriesOf(v: Value): Entries {
    if v.Dict? then v.entries else map[]
  }

  /** The default for a key; where there is none an empty dictionary stands in. */
  function Default(d: Entries, key: string): Value {
    if key in d then d[key] else Dict(map[])
  }

  function MergeValue(d: Value, o: Value): Value
    decreases o, 1
  {
    if Merges(o) then Dict(Merge(EntriesOf(d), o.entries)) else o
  }

  /** The defaults with the overrides merged into them. */
  function Merge(d: Entries, o: Entries): Entries
    decreases Dict(o), 0
  {
    map key | key in d.Keys + o.Keys :: if key in o then MergeValue(Default(d, key), o[key]) else d[key]
  }

  /** No override with entries meets a leaf. */
  ghost predicate AgreeValue(d: Value, o: Value)
    decreases o, 1
  {
    Merges(o) ==> d.Dict? && Agree(d.entries, o.entries)
  }

  ghost predicate Agree(d: Entries, o: Entries)
    decreases Dict(o), 0
  {
    forall key :: key in o ==> AgreeValue(Default(d, key), o[key])
  }

  /** The overrides are taken key by key, in whatever order; a dictionary with entries is merged into its
      default. It fails exactly if an override with entries meets a leaf. */
  method MergeInto(defaults: Entries, overrides: Entries) returns (r: Result<Entries, MergeError>)
    ensures r == if Agree(defaults, overrides) then Ok(Merge(defaults, overrides)) else Err(NotADictionary)
    decreases Dict(overrides)
  {
    var merged := defaults;
    var left := overrides.Keys;
    while left != {}
      invariant MergedBut(defaults, overrides, left, merged)
    {
      var key :| key in left;
      var value := overrides[key];
      if Merges(value) {
        match Default(merged, key)
        case Leaf(_) =>
          return Err(NotADictionary);
        case Dict(entries) =>
          var nested := MergeInto(entries, value.entries);
          if nested.Err? {
            return Err(NotADictionary);
          }
          MergedOneMore(defaults, overrides, left, merged, key);
          merged := merged[key := Dict(nested.value)];
      } else {
        MergedOneMore(defaults, overrides, left, merged, key);
        merged := merged[key := value];
      }
      left := left - {key};
    }
    MergedAll(defaults, overrides, merged);
    return Ok(merged);
  }

  /** All overrides have been merged in but those left, none of which has been touched. */
  ghost predicate MergedBut(d: Entries, o: Entries, left: set<string>, merged: Entries) {
    && left <= o.Keys && merged.Keys == d.Keys + (o.Keys - left)
    && (forall key :: key in o.Keys - left ==>
          AgreeValue(Default(d, key), o[key]) && merged[key] == MergeValue(Default(d, key), o[key]))
    && (forall key :: key in d || key in left ==> key in o.Keys - left || Default(merged, key) == Default(d, key))
  }

  lemma MergedOneMore(d: Entries, o: Entries, left: set<string>, merged: Entries, key: string)
    requires MergedBut(d, o, left, merged) && key in left && AgreeValue(Default(merged, key), o[key])
    ensures MergedBut(d, o, left - {key}, merged[key := MergeValue(Default(merged, key), o[key])])
  {
    var after := merged[key := MergeValue(Default(merged, key), o[key])];
    assert o.Keys - (left - {key}) == o.Keys - left + {key};
    assert after.Keys == d.Keys + (o.Keys - (left - {key}));
    assert Default(merged, key) == Default(d, key);
  }

  lemma MergedAll(d: Entries, o: Entries, merged: Entries)
    requires MergedBut(d, o, {}, merged)
    ensures Agree(d, o) && merged == Merge(d, o)
  {
  }

  // ---------------------------------------------------------------------------
  // Which value a path reads
  // ---------------------------------------------------------------------------

  /** The value at the end of a path of keys. */
  function At(v: Value, path: seq<string>): Option<Value>
    decreases |path|
  {
    if path == [] then Some(v)
    else if path[0] in EntriesOf(v) then At(EntriesOf(v)[path[0]], path[1..])
    else None
  }

  /** A value, or the end of one, stands on the path and replaces what was there. */
  predicate Decides(o: Value, path: seq<string>)
    decreases |path|
  {
    !Merges(o) || (path != [] && path[0] in o.entries && Decides(o.entries[path[0]], path[1..]))
  }

  lemma {:induction false} MergedValueAt(d: Value, o: Value, path: seq<string>)
    ensures var r := At(MergeValue(d, o), path);
            if Decides(o, path) then r == At(o, path)
            else match At(o, path)
                 case None => r == At(d, path)
                 case Some(over) =>
                   && Merges(over)
                   && r == Some(MergeValue(At(d, path).GetOr(Dict(map[])), over))
    decreases |path|
  {
    if Merges(o) && path != [] {
      var key := path[0];
      if key in o.entries {
        MergedValueAt(Default(EntriesOf(d), key), o.entries[key], path[1..]);
        assert key !in EntriesOf(d) ==> At(Dict(map[]), path[1..]).GetOr(Dict(map[])) == Dict(map[]);
      }
    }
  }

  /** The overrides decide the path somewhere below their top. */
  predicate DecidesBelow(o: Entries, path: seq<string>)
    requires path != []
  {
    path[0] in o && Decides(o[path[0]], path[1..])
  }

  /** What stands at any path of the result: the overrides' value if they decide the path; the defaults' value
      if the overrides do not reach it; and otherwise, inside the overrides, the merger of both. */
  lemma MergedAt(d: Entries, o: Entries, path: seq<string>)
    requires path != []
    ensures var r := At(Dict(Merge(d, o)), path);
            if DecidesBelow(o, path) then r == At(Dict(o), path)
            else match At(Dict(o), path)
                 case None => r == At(Dict(d), path)
                 case Some(over) =>
                   && Merges(over)
                   && r == Some(Dict(Merge(EntriesOf(At(Dict(d), path).GetOr(Dict(map[]))), over.entries)))
  {
    if path[0] in o {
      MergedValueAt(Default(d, path[0]), o[path[0]], path[1..]);
      assert path[0] !in d ==> At(Dict(map[]), path[1..]).GetOr(Dict(map[])) == Dict(map[]);
    }
  }

  // ---------------------------------------------------------------------------
  // Merging again
  // ---------------------------------------------------------------------------

  lemma {:induction false} MergeIntoNothing(o: Entries)
    ensures Merge(map[], o) == o
    decreases Dict(o)
  {
    forall key | key in o ensures Merge(map[], o)[key] == o[key] {
      if Merges(o[key]) {
        MergeIntoNothing(o[key].entries);
      }
    }
  }

  /** Merging the same overrides again changes nothing, and never fails. */
  lemma {:induction false} MergeTwice(d: Entries, o: Entries)
    ensures Merge(Merge(d, o), o) == Merge(d, o) && Agree(Merge(d, o), o)
    decreases Dict(o)
  {
    forall key | key in o
      ensures Merge(Merge(d, o), o)[key] == Merge(d, o)[key] && AgreeValue(Merge(d, o)[key], o[key])
    {
      if Merges(o[key]) {
        MergeTwice(EntriesOf(Default(d, key)), o[key].entries);
      }
    }
  }

  /** Every path of the defaults is one that the overrides have or decide. */
  ghost predicate Absorbed(d: Entries, o: Entries)
    decreases Dict(o)
  {
    forall key :: key in d ==> key in o && (Merges(o[key]) ==> Absorbed(EntriesOf(d[key]), o[key].entries))
  }

  lemma {:induction false} AbsorbedIff(d: Entries, o: Entries)
    ensures Merge(d, o) == o <==> Absorbed(d, o)
    decreases Dict(o)
  {
    forall key | key in o && Merges(o[key])
      ensures MergeValue(Default(d, key), o[key]) == o[key] <==>
                Absorbed(EntriesOf(Default(d, key)), o[key].entries)
    {
      AbsorbedIff(EntriesOf(Default(d, key)), o[key].entries);
    }
    if Absorbed(d, o) {
      assert Merge(d, o).Keys == o.Keys;
      forall key | key in o ensures Merge(d, o)[key] == o[key] {
        assert key !in d && Merges(o[key]) ==> Absorbed(map[], o[key].entries);
      }
    } else if Merge(d, o) == o {
      forall key | key in d
        ensures key in o && (Merges(o[key]) ==> Absorbed(EntriesOf(d[key]), o[key].entries))
      {
        assert key in Merge(d, o);
        assert Merge(d, o)[key] == o[key];
      }
    }
  }

  /** Wherever the last operand has a dictionary with entries and the middle one a value that does not merge,
      what the first has there is absorbed by the last. */
  ghost predicate Regroups(a: Entries, b: Entries, c: Entries)
    decreases Dict(c), 0
  {
    forall key :: key in b && key in c ==> RegroupsValue(Default(a, key), b[key], c[key])
  }

  ghost predicate RegroupsValue(a: Value, b: Value, c: Value)
    decreases c, 1
  {
    Merges(c) ==>
      if Merges(b) then Regroups(EntriesOf(a), b.entries, c.entries) else Absorbed(EntriesOf(a), c.entries)
  }

  lemma {:induction false} RegroupsValueIff(a: Value, b: Value, c: Value)
    ensures MergeValue(MergeValue(a, b), c) == MergeValue(a, MergeValue(b, c)) <==> RegroupsValue(a, b, c)
    decreases c, 1
  {
    if Merges(c) {
      if Merges(b) {
        RegroupsIff(EntriesOf(a), b.entries, c.entries);
      } else {
        MergeIntoNothing(c.entries);
        AbsorbedIff(EntriesOf(a), c.entries);
      }
    }
  }

  lemma KeyRegroups(a: Entries, b: Entries, c: Entries, key: string)
    requires key in a || key in b || key in c
    requires key in b && key in c ==>
               (MergeValue(MergeValue(Default(a, key), b[key]), c[key])
                == MergeValue(Default(a, key), MergeValue(b[key], c[key])) <==>
                RegroupsValue(Default(a, key), b[key], c[key]))
    ensures key in Merge(Merge(a, b), c) && key in Merge(a, Merge(b, c))
    ensures Merge(Merge(a, b), c)[key] == Merge(a, Merge(b, c))[key] <==>
              (key in b && key in c ==> RegroupsValue(Default(a, key), b[key], c[key]))
  {
    if key in c && key !in b {
      assert Default(Merge(a, b), key) == Default(a, key);
      if Merges(c[key]) {
        MergeIntoNothing(c[key].entries);
      }
    }
  }

  /** When the results of merging do not depend on the grouping, exactly, where neither grouping fails. */
  lemma {:induction false} RegroupsIff(a: Entries, b: Entries, c: Entries)
    ensures Merge(Merge(a, b), c) == Merge(a, Merge(b, c)) <==> Regroups(a, b, c)
    decreases Dict(c), 0
  {
    var left, right := Merge(Merge(a, b), c), Merge(a, Merge(b, c));
    forall key | key in a || key in b || key in c
      ensures key in left && key in right
      ensures left[key] == right[key] <==>
                (key in b && key in c ==> RegroupsValue(Default(a, key), b[key], c[key]))
    {
      if key in b && key in c {
        RegroupsValueIff(Default(a, key), b[key], c[key]);
      }
      KeyRegroups(a, b, c, key);
    }
    assert left.Keys == right.Keys;
    if Regroups(a, b, c) {
      assert left == right;
    }
  }

  /** No dictionary inside is empty. */
  ghost predicate NoEmptyInside(b: Entries)
    decreases Dict(b)
  {
    forall key :: key in b && b[key].Dict? ==> b[key].entries != map[] && NoEmptyInside(b[key].entries)
  }

  lemma {:induction false} RegroupsWithoutEmpty(a: Entries, b: Entries, c: Entries)
    requires NoEmptyInside(b) && Agree(b, c)
    ensures Regroups(a, b, c)
    decreases Dict(c)
  {
    forall key | key in b && key in c && Merges(c[key]) ensures RegroupsValue(Default(a, key), b[key], c[key]) {
      assert AgreeValue(Default(b, key), c[key]);
      RegroupsWithoutEmpty(EntriesOf(Default(a, key)), b[key].entries, c[key].entries);
    }
  }

  lemma {:induction false} AgreesWithNothing(o: Entries)
    ensures Agree(map[], o)
    decreases Dict(o)
  {
    forall key | key in o && Merges(o[key]) ensures AgreeValue(Dict(map[]), o[key]) {
      AgreesWithNothing(o[key].entries);
    }
  }

  lemma {:induction false} AgreementRegroups(a: Entries, b: Entries, c: Entries)
    requires NoEmptyInside(b) && Agree(a, b) && Agree(Merge(a, b), c)
    ensures Agree(b, c) && Agree(a, Merge(b, c))
    decreases Dict(c), 1
  {
    var bc := Merge(b, c);
    forall key | key in c
      ensures AgreeValue(Default(b, key), c[key]) && AgreeValue(Default(a, key), bc[key])
    {
      if Merges(c[key]) {
        AgreementRegroupsAt(a, b, c, key);
      } else {
        assert bc[key] == MergeValue(Default(b, key), c[key]);
      }
    }
    forall key | key in bc ensures AgreeValue(Default(a, key), bc[key]) {
      assert key !in c ==> bc[key] == b[key];
    }
  }

  lemma AgreementRegroupsAt(a: Entries, b: Entries, c: Entries, key: string)
    requires NoEmptyInside(b) && Agree(a, b) && Agree(Merge(a, b), c)
    requires key in c && Merges(c[key])
    ensures AgreeValue(Default(b, key), c[key]) && AgreeValue(Default(a, key), Merge(b, c)[key])
    decreases Dict(c), 0
  {
    assert AgreeValue(Default(Merge(a, b), key), c[key]);
    if key in b {
      assert AgreeValue(Default(a, key), b[key]);
      assert Default(Merge(a, b), key) == MergeValue(Default(a, key), b[key]);
      assert Merges(b[key]);
      AgreementRegroups(EntriesOf(Default(a, key)), b[key].entries, c[key].entries);
    } else {
      assert Default(Merge(a, b), key) == Default(a, key);
      AgreesWithNothing(c[key].entries);
      MergeIntoNothing(c[key].entries);
    }
  }

  /** Layers of configuration can be merged in either grouping when the middle one has no empty dictionary in
      it: if the merge from the left goes through, so does the merge from the right, with the same result. */
  lemma MergeAssociative(a: Entries, b: Entries, c: Entries)
    requires NoEmptyInside(b) && Agree(a, b) && Agree(Merge(a, b), c)
    ensures Agree(b, c) && Agree(a, Merge(b, c))
    ensures Merge(Merge(a, b), c) == Merge(a, Merge(b, c))
  {
    AgreementRegroups(a, b, c);
    RegroupsWithoutEmpty(a, b, c);
    RegroupsIff(a, b, c);
  }

  /** With an empty dictionary in the middle the grouping can matter: it replaces what the first layer has, unless
      the last is merged into it before. */
  lemma GroupingCanMatter() returns (a: Entries, b: Entries, c: Entries)
    ensures Agree(a, b) && Agree(Merge(a, b), c) && Agree(b, c) && Agree(a, Merge(b, c))
    ensures Merge(Merge(a, b), c) != Merge(a, Merge(b, c))
  {
    var k, j := Leaf(1), Leaf(2);
    a, b, c := map["x" := Dict(map["k" := k])], map["x" := Dict(map[])], map["x" := Dict(map["j" := j])];
    OneKeyAgrees(a, "x", Dict(map[]));
    OneKeyAgrees(map["k" := k], "j", j);
    AgreesWithNothing(map["j" := j]);
    MergeIntoNothing(map["j" := j]);
    OneKeyAgrees(a, "x", Dict(map["j" := j]));
    OneKeyAgrees(b, "x", Dict(map["j" := j]));
    assert Merge(a, b) == b;
    assert Merge(b, c) == c;
    assert "k" in map["k" := k] && "k" !in map["j" := j];
    assert !Absorbed(map["k" := k], map["j" := j]);
    assert !RegroupsValue(Default(a, "x"), b["x"], c["x"]);
    RegroupsIff(a, b, c);
  }

  // ---------------------------------------------------------------------------
  // Regrouping merges that can fail
  // ---------------------------------------------------------------------------

  /** The merge as the code has it, with its error. */
  ghost function TryMerge(d: Entries, o: Entries): Result<Entries, MergeError> {
    if Agree(d, o) then Ok(Merge(d, o)) else Err(NotADictionary)
  }

  ghost function MergeFromLeft(a: Entries, b: Entries, c: Entries): Result<Entries, MergeError> {
    match TryMerge(a, b)
    case Ok(ab) => TryMerge(ab, c)
    case Err(e) => Err(e)
  }

  ghost function MergeFromRight(a: Entries, b: Entries, c: Entries): Result<Entries, MergeError> {
    match TryMerge(b, c)
    case Ok(bc) => TryMerge(a, bc)
    case Err(e) => Err(e)
  }

  /** A clash that both groupings run into: an override with entries on a leaf which the third layer neither
      replaces nor hides. */
  ghost predicate BothClash(a: Entries, b: Entries, c: Entries)
    decreases Dict(c), 0
  {
    || (exists key :: key in b && key !in c && !AgreeValue(Default(a, key), b[key]))
    || (exists key :: key in c && key !in b && !AgreeValue(Default(a, key), c[key]))
    || (exists key :: key in b && key in c && BothClashValue(Default(a, key), b[key], c[key]))
  }

  ghost predicate BothClashValue(a: Value, b: Value, c: Value)
    decreases c, 1
  {
    Merges(c) && (b.Leaf? || (Merges(b) && (a.Leaf? || BothClash(a.entries, b.entries, c.entries))))
  }

  /** A clash of the first two layers under a value of the last that replaces them: merging from the right never
      comes to it. */
  ghost predicate LeftClash(a: Entries, b: Entries, c: Entries)
    decreases Dict(c), 0
  {
    exists key :: key in b && key in c && LeftClashValue(Default(a, key), b[key], c[key])
  }

  ghost predicate LeftClashValue(a: Value, b: Value, c: Value)
    decreases c, 1
  {
    if !Merges(c) then !AgreeValue(a, b)
    else Merges(b) && a.Dict? && LeftClash(a.entries, b.entries, c.entries)
  }

  /** A clash of the first and the last layer which an empty dictionary of the middle one hides when merging from
      the left, because it replaces what is below it. */
  ghost predicate RightClash(a: Entries, b: Entries, c: Entries)
    decreases Dict(c), 0
  {
    exists key :: key in b && key in c && RightClashValue(Default(a, key), b[key], c[key])
  }

  ghost predicate RightClashValue(a: Value, b: Value, c: Value)
    decreases c, 1
  {
    && Merges(c)
    && if b == Dict(map[]) then !AgreeValue(a, c)
       else Merges(b) && a.Dict? && RightClash(a.entries, b.entries, c.entries)
  }

  lemma {:induction false} LeftFailsValue(a: Value, b: Value, c: Value)
    ensures !(AgreeValue(a, b) && AgreeValue(MergeValue(a, b), c)) <==>
              BothClashValue(a, b, c) || LeftClashValue(a, b, c)
    decreases c, 1
  {
    if Merges(c) {
      if Merges(b) {
        if a.Dict? {
          LeftFails(a.entries, b.entries, c.entries);
        }
      } else if b.Dict? {
        AgreesWithNothing(c.entries);
      }
    }
  }

  lemma {:induction false} LeftFails(a: Entries, b: Entries, c: Entries)
    ensures !(Agree(a, b) && Agree(Merge(a, b), c)) <==> BothClash(a, b, c) || LeftClash(a, b, c)
    decreases Dict(c), 0
  {
    var ab := Merge(a, b);
    forall key | key in b && key in c
      ensures !(AgreeValue(Default(a, key), b[key]) && AgreeValue(Default(ab, key), c[key])) <==>
                BothClashValue(Default(a, key), b[key], c[key]) || LeftClashValue(Default(a, key), b[key], c[key])
    {
      LeftFailsValue(Default(a, key), b[key], c[key]);
    }
    forall key | key in c && key !in b ensures Default(ab, key) == Default(a, key) {
    }
  }

  lemma {:induction false} RightFailsValue(a: Value, b: Value, c: Value)
    ensures !(AgreeValue(b, c) && AgreeValue(a, MergeValue(b, c))) <==>
              BothClashValue(a, b, c) || RightClashValue(a, b, c)
    decreases c, 1
  {
    if Merges(c) {
      if Merges(b) {
        if a.Dict? {
          RightFails(a.entries, b.entries, c.entries);
        }
      } else if b.Dict? {
        AgreesWithNothing(c.entries);
        MergeIntoNothing(c.entries);
      }
    }
  }

  lemma {:induction false} RightFails(a: Entries, b: Entries, c: Entries)
    ensures !(Agree(b, c) && Agree(a, Merge(b, c))) <==> BothClash(a, b, c) || RightClash(a, b, c)
    decreases Dict(c), 0
  {
    var bc := Merge(b, c);
    forall key | key in b && key in c
      ensures !(AgreeValue(b[key], c[key]) && AgreeValue(Default(a, key), bc[key])) <==>
                BothClashValue(Default(a, key), b[key], c[key]) || RightClashValue(Default(a, key), b[key], c[key])
    {
      RightFailsValue(Default(a, key), b[key], c[key]);
    }
    forall key | key in c && key !in b ensures AgreeValue(Dict(map[]), c[key]) && bc[key] == c[key] {
      assert bc[key] == MergeValue(Dict(map[]), c[key]);
      if Merges(c[key]) {
        AgreesWithNothing(c[key].entries);
        MergeIntoNothing(c[key].entries);
      }
    }
  }

  /** When three layers can be merged in either grouping, exactly, errors included: either both groupings run
      into a clash, or neither does and their results agree. */
  lemma GroupingsAgreeIff(a: Entries, b: Entries, c: Entries)
    ensures MergeFromLeft(a, b, c) == MergeFromRight(a, b, c) <==>
              || BothClash(a, b, c)
              || (LeftClash(a, b, c) && RightClash(a, b, c))
              || (!LeftClash(a, b, c) && !RightClash(a, b, c) && Regroups(a, b, c))
  {
    LeftFails(a, b, c);
    RightFails(a, b, c);
    RegroupsIff(a, b, c);
  }

  /** An empty dictionary in the middle can hide a leaf from the last layer: the merge from the left goes through,
      and the one from the right fails. */
  lemma GroupingCanFail() returns (a: Entries, b: Entries, c: Entries)
    ensures MergeFromLeft(a, b, c) == Ok(c) && MergeFromRight(a, b, c) == Err(NotADictionary)
  {
    var zero, inner := Leaf(0), map["k" := Leaf(1)];
    a, b, c := map["x" := zero], map["x" := Dict(map[])], map["x" := Dict(inner)];
    OneKeyAgrees(a, "x", Dict(map[]));
    AgreesWithNothing(inner);
    MergeIntoNothing(inner);
    OneKeyAgrees(b, "x", Dict(inner));
    assert Merge(a, b) == b;
    assert Merge(b, c) == c;
    assert "k" in inner && Merges(c["x"]);
    assert !AgreeValue(Default(a, "x"), c["x"]);
  }

  lemma OneKeyAgrees(d: Entries, key: string, v: Value)
    requires AgreeValue(Default(d, key), v)
    ensures Agree(d, map[key := v])
  {
  }
}
