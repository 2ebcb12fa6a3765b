/**
 * The JSON-like values an execution plan may hold, and the three recursive
 * conversions applied to them: to facts, to frozen snapshots, and back to JSON.
 */
module PlanValues {
  import opened Text

  datatype Kind = List | Tuple | Set | FrozenSet

  /**
   * A runtime value. Mapping keys are already strings; a set is given in its
   * iteration order; a float is identified by its shortest decimal text.
   */
  datatype Value =
    | Null
    | Bool(b: bool)
    | Int(n: int)
    | Float(repr: string)
    | Str(s: string)
    | Dict(fields: map<string, Value>)
    | Items(kind: Kind, items: seq<Value>)
    | Enumeration(value: Value)
    | Opaque(typeName: string)

  predicate IsScalar(v: Value) {
    v.Null? || v.Bool? || v.Int? || v.Float? || v.Str?
  }

  /** Exactly what JSON text can express. */
  predicate IsJson(v: Value) {
    match v
    case Dict(m) => forall k | k in m :: IsJson(m[k])
    case Items(kind, items) => kind == List && forall i | 0 <= i < |items| :: IsJson(items[i])
    case _ => IsScalar(v)
  }

  /** What a checkpoint holds after its constructor froze the plan. */
  predicate IsFrozen(v: Value) {
    match v
    case Dict(m) => forall k | k in m :: IsFrozen(m[k])
    case Items(kind, items) => (kind == Tuple || kind == FrozenSet) && forall i | 0 <= i < |items| :: IsFrozen(items[i])
    case _ => IsScalar(v)
  }

  predicate HasFrozenSet(v: Value) {
    match v
    case Dict(m) => exists k | k in m :: HasFrozenSet(m[k])
    case Items(kind, items) => kind == FrozenSet || exists i | 0 <= i < |items| :: HasFrozenSet(items[i])
    case _ => false
  }

  function JsonFact(v: Value): Value
    decreases v
  {
    match v
    case Dict(m) => Dict(map k | k in m :: JsonFact(m[k]))
    case Items(_, items) => Items(List, seq(|items|, i requires 0 <= i < |items| => JsonFact(items[i])))
    case Enumeration(w) => JsonFact(w)
    case Opaque(name) => Dict(map["opaque_type" := Str(name)])
    case _ => v
  }

  /** A failure is the constructor's TypeError; a frozenset is not accepted a second time. */
  function Freeze(v: Value): Option<Value>
    decreases v
  {
    match v
    case Dict(m) =>
      if forall k | k in m :: Freeze(m[k]).Some? then Some(Dict(map k | k in m :: Freeze(m[k]).value))
      else None
    case Items(kind, items) =>
      if kind != FrozenSet && forall i | 0 <= i < |items| :: Freeze(items[i]).Some? then
        Some(Items(if kind == Set then FrozenSet else Tuple,
                   seq(|items|, i requires 0 <= i < |items| => Freeze(items[i]).value)))
      else None
    case Enumeration(_) => None
    case Opaque(_) => None
    case _ => Some(v)
  }

  function Thaw(v: Value): Value
    decreases v
  {
    match v
    case Dict(m) => Dict(map k | k in m :: Thaw(m[k]))
    case Items(kind, items) =>
      if kind == Set then v else Items(List, seq(|items|, i requires 0 <= i < |items| => Thaw(items[i])))
    case Enumeration(w) => w
    case _ => v
  }

  /** Facts never retain live objects: only JSON survives, and JSON is left alone. */
  lemma {:induction false} JsonFactMeaning(v: Value)
    ensures IsJson(JsonFact(v))
    ensures IsJson(v) ==> JsonFact(v) == v
    ensures v.Dict? ==> JsonFact(v).Dict?
    decreases v
  {
    match v
    case Dict(m) =>
      forall k | k in m ensures IsJson(JsonFact(m[k])) && (IsJson(m[k]) ==> JsonFact(m[k]) == m[k]) {
        JsonFactMeaning(m[k]);
      }
      assert IsJson(v) ==> JsonFact(v).fields == m;
    case Items(_, items) =>
      forall i | 0 <= i < |items| ensures IsJson(JsonFact(items[i])) && (IsJson(items[i]) ==> JsonFact(items[i]) == items[i]) {
        JsonFactMeaning(items[i]);
      }
      assert IsJson(v) ==> JsonFact(v).items == items;
    case Enumeration(w) => JsonFactMeaning(w);
    case _ =>
  }

  /** What facts make of what is not JSON: an enumeration its value's, any collection a list, anything else its type's name. */
  lemma FactOfOthers(v: Value)
    ensures v.Enumeration? ==> JsonFact(v) == JsonFact(v.value)
    ensures v.Opaque? ==> JsonFact(v) == Dict(map["opaque_type" := Str(v.typeName)])
    ensures v.Items? ==> JsonFact(v) == JsonFact(Items(List, v.items)) && JsonFact(v).Items? && |JsonFact(v).items| == |v.items|
    ensures v.Items? ==> forall i :: 0 <= i < |v.items| ==> JsonFact(v).items[i] == JsonFact(v.items[i])
    ensures v.Dict? ==> JsonFact(v).fields.Keys == v.fields.Keys && forall k :: k in v.fields ==> JsonFact(v).fields[k] == JsonFact(v.fields[k])
  {
  }

  /** Freezing JSON always succeeds, adds no frozenset, and thawing undoes it. */
  lemma {:induction false} ThawUndoesFreeze(v: Value)
    requires IsJson(v)
    ensures Freeze(v).Some?
    ensures IsFrozen(Freeze(v).value) && !HasFrozenSet(Freeze(v).value) && Freeze(v).value.Dict? == v.Dict?
    ensures Thaw(Freeze(v).value) == v
    decreases v
  {
    match v
    case Dict(m) =>
      forall k | k in m
        ensures Freeze(m[k]).Some? && IsFrozen(Freeze(m[k]).value) && !HasFrozenSet(Freeze(m[k]).value)
        ensures Thaw(Freeze(m[k]).value) == m[k]
      {
        ThawUndoesFreeze(m[k]);
      }
      assert Thaw(Freeze(v).value).fields == m;
    case Items(_, items) =>
      forall i | 0 <= i < |items|
        ensures Freeze(items[i]).Some? && IsFrozen(Freeze(items[i]).value) && !HasFrozenSet(Freeze(items[i]).value)
        ensures Thaw(Freeze(items[i]).value) == items[i]
      {
        ThawUndoesFreeze(items[i]);
      }
      assert Thaw(Freeze(v).value).items == items;
    case _ =>
  }

  /** A frozen plan thaws to JSON, and comes back unchanged exactly when no set was frozen in it. */
  lemma {:induction false} FreezeUndoesThaw(v: Value)
    requires IsFrozen(v)
    ensures IsJson(Thaw(v)) && Thaw(v).Dict? == v.Dict?
    ensures Freeze(Thaw(v)) == Some(v) <==> !HasFrozenSet(v)
    decreases v
  {
    match v
    case Dict(m) =>
      forall k | k in m ensures IsJson(Thaw(m[k])) && (Freeze(Thaw(m[k])) == Some(m[k]) <==> !HasFrozenSet(m[k])) {
        FreezeUndoesThaw(m[k]);
      }
      ThawUndoesFreeze(Thaw(v));
      if !HasFrozenSet(v) { assert Freeze(Thaw(v)).value.fields == m; }
    case Items(_, items) =>
      forall i | 0 <= i < |items| ensures IsJson(Thaw(items[i])) && (Freeze(Thaw(items[i])) == Some(items[i]) <==> !HasFrozenSet(items[i])) {
        FreezeUndoesThaw(items[i]);
      }
      ThawUndoesFreeze(Thaw(v));
      if !HasFrozenSet(v) { assert Freeze(Thaw(v)).value.items == items; }
    case _ =>
  }

  /** Re-running a constructor over a frozen plan keeps it exactly when no set was frozen in it, and raises otherwise. */
  lemma {:induction false} Refreeze(v: Value)
    requires IsFrozen(v)
    ensures Freeze(v) == if HasFrozenSet(v) then None else Some(v)
    decreases v
  {
    match v
    case Dict(m) =>
      forall k | k in m ensures Freeze(m[k]) == if HasFrozenSet(m[k]) then None else Some(m[k]) { Refreeze(m[k]); }
      if !HasFrozenSet(v) { assert Freeze(v).value.fields == m; }
    case Items(kind, items) =>
      forall i | 0 <= i < |items| ensures Freeze(items[i]) == if HasFrozenSet(items[i]) then None else Some(items[i]) {
        Refreeze(items[i]);
      }
      if !HasFrozenSet(v) { assert Freeze(v).value.items == items; }
    case _ =>
  }

  /** Whatever a constructor accepts is frozen. */
  lemma {:induction false} FreezeIsFrozen(v: Value)
    requires Freeze(v).Some?
    ensures IsFrozen(Freeze(v).value) && Freeze(v).value.Dict? == v.Dict?
    decreases v
  {
    match v
    case Dict(m) =>
      forall k | k in m ensures IsFrozen(Freeze(m[k]).value) { FreezeIsFrozen(m[k]); }
    case Items(_, items) =>
      forall i | 0 <= i < |items| ensures IsFrozen(Freeze(items[i]).value) { FreezeIsFrozen(items[i]); }
    case _ =>
  }
}
