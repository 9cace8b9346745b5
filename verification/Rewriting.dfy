/**
 The type-directed rewrites that prepare a column for `to_json`: timestamps, then dates and zoneless timestamps, to
 epoch milliseconds, and floats that are not finite to null.
 */
module Rewriting {
  import opened SparkTypes
  import Calendar

  /** The three rewrites. They walk types alike and differ in the leaves they change and in how they treat map keys. */
  datatype Rule = Stamps | Dates | Floats

  predicate IsLeaf(rule: Rule, t: SType) {
    match rule
    case Stamps => t.TTimestamp?
    case Dates => t.TDate? || t.TNtz?
    case Floats => t.TFloat? || t.TDouble?
  }

  /** Whether the type mentions a leaf of the rule. Only `_type_has_date_or_ntz` does not look at map keys. */
  predicate Has(rule: Rule, t: SType)
    decreases t
  {
    IsLeaf(rule, t) ||
    match t
    case TStruct(fields) => exists i :: 0 <= i < |fields| && Has(rule, fields[i].dataType)
    case TArray(e) => Has(rule, e)
    case TMap(k, e) => (rule != Dates && Has(rule, k)) || Has(rule, e)
    case _ => false
  }

  function Leaf(rule: Rule, v: Value): Value {
    match v
    case VTimestamp(us) => if rule == Stamps then VInt(Calendar.UnixMillis(us)) else v
    case VDate(days) => if rule == Dates then VInt(Calendar.DateMillis(days)) else v
    case VNtz(us) => if rule == Dates then VInt(Calendar.NtzMillis(us)) else v
    case VFloat(f) => if rule == Floats && !f.Finite? then VNull else v
    case _ => v
  }

  /** The rewrite of a cell. A struct is rebuilt field by field, and a field whose type has no leaf is left alone; map
      keys are never touched; null stays null. */
  function Rewrite(rule: Rule, v: Value, t: SType): Value
    decreases t
  {
    if IsLeaf(rule, t) then Leaf(rule, v) else
    match t
    case TStruct(fields) =>
      if v.VStruct? && |v.cells| == |fields| then
        VStruct(seq(|fields|, i requires 0 <= i < |fields| =>
          if Has(rule, fields[i].dataType) then Rewrite(rule, v.cells[i], fields[i].dataType) else v.cells[i]))
      else v
    case TArray(e) =>
      if v.VArray? then VArray(seq(|v.items|, i requires 0 <= i < |v.items| => Rewrite(rule, v.items[i], e))) else v
    case TMap(_, e) =>
      if v.VMap? then
        VMap(seq(|v.entries|, i requires 0 <= i < |v.entries| =>
          Entry(v.entries[i].key, Rewrite(rule, v.entries[i].value, e))))
      else v
    case _ => v
  }

  /** The same walk without looking for leaves first. */
  function Everywhere(rule: Rule, v: Value, t: SType): Value
    decreases t
  {
    if IsLeaf(rule, t) then Leaf(rule, v) else
    match t
    case TStruct(fields) =>
      if v.VStruct? && |v.cells| == |fields| then
        VStruct(seq(|fields|, i requires 0 <= i < |fields| => Everywhere(rule, v.cells[i], fields[i].dataType)))
      else v
    case TArray(e) =>
      if v.VArray? then VArray(seq(|v.items|, i requires 0 <= i < |v.items| => Everywhere(rule, v.items[i], e))) else v
    case TMap(_, e) =>
      if v.VMap? then
        VMap(seq(|v.entries|, i requires 0 <= i < |v.entries| =>
          Entry(v.entries[i].key, Everywhere(rule, v.entries[i].value, e))))
      else v
    case _ => v
  }

  /** The type the code gives to the null of a rewritten struct: `_epoch_struct_type`, which retypes map keys too, and
      `_epoch_type`, which does not. A null of the float rewrite keeps its type. */
  function NullType(rule: Rule, t: SType): SType
    decreases t
  {
    if rule == Floats then t
    else if IsLeaf(rule, t) then LONG else
    match t
    case TStruct(fields) =>
      TStruct(seq(|fields|, i requires 0 <= i < |fields| => Field(fields[i].name, NullType(rule, fields[i].dataType))))
    case TArray(e) => TArray(NullType(rule, e))
    case TMap(k, e) => TMap(if rule == Stamps then NullType(rule, k) else k, NullType(rule, e))
    case _ => t
  }

  /** The type of the expression that the rewrite builds. */
  function BuiltType(rule: Rule, t: SType): SType
    decreases t
  {
    if IsLeaf(rule, t) then if rule == Floats then t else LONG else
    match t
    case TStruct(fields) =>
      TStruct(seq(|fields|, i requires 0 <= i < |fields| =>
        Field(fields[i].name,
              if Has(rule, fields[i].dataType) then BuiltType(rule, fields[i].dataType) else fields[i].dataType)))
    case TArray(e) => TArray(BuiltType(rule, e))
    case TMap(k, e) => TMap(k, BuiltType(rule, e))
    case _ => t
  }

  /* ---- pruning changes nothing ---- */

  /** A cell of a type without leaves is rewritten to itself. */
  lemma {:induction false} NothingToRewrite(rule: Rule, v: Value, t: SType)
    requires Inhabits(v, t) && !Has(rule, t)
    ensures Everywhere(rule, v, t) == v
    decreases t
  {
    match t
    case TStruct(fields) =>
      if v.VStruct? {
        forall i | 0 <= i < |fields| ensures Everywhere(rule, v.cells[i], fields[i].dataType) == v.cells[i] {
          assert !Has(rule, fields[i].dataType);
          NothingToRewrite(rule, v.cells[i], fields[i].dataType);
        }
        assert Everywhere(rule, v, t).cells == v.cells;
      }
    case TArray(e) =>
      if v.VArray? {
        forall i | 0 <= i < |v.items| ensures Everywhere(rule, v.items[i], e) == v.items[i] {
          NothingToRewrite(rule, v.items[i], e);
        }
        assert Everywhere(rule, v, t).items == v.items;
      }
    case TMap(k, e) =>
      if v.VMap? {
        forall i | 0 <= i < |v.entries| ensures Everywhere(rule, v.entries[i].value, e) == v.entries[i].value {
          NothingToRewrite(rule, v.entries[i].value, e);
        }
        assert Everywhere(rule, v, t).entries == v.entries;
      }
    case _ =>
  }

  /** Skipping the fields whose types have no leaf gives the same cell as rewriting everywhere. */
  lemma {:induction false} PruningIsExact(rule: Rule, v: Value, t: SType)
    requires Inhabits(v, t)
    ensures Rewrite(rule, v, t) == Everywhere(rule, v, t)
    decreases t, 1
  {
    hide Rewrite, Everywhere, Inhabits, Has;
    if t.TStruct? && v.VStruct? {
      PruningStruct(rule, v, t.fields);
    } else if t.TArray? && v.VArray? {
      PruningArray(rule, v, t.element);
    } else if t.TMap? && v.VMap? {
      PruningMap(rule, v, t.key, t.value);
    } else {
      PruningLeaf(rule, v, t);
    }
  }

  lemma PruningLeaf(rule: Rule, v: Value, t: SType)
    requires !(t.TStruct? && v.VStruct?) && !(t.TArray? && v.VArray?) && !(t.TMap? && v.VMap?)
    ensures Rewrite(rule, v, t) == Everywhere(rule, v, t)
  {
  }

  lemma {:induction false} PruningArray(rule: Rule, v: Value, e: SType)
    requires v.VArray? && Inhabits(v, TArray(e))
    ensures Rewrite(rule, v, TArray(e)) == Everywhere(rule, v, TArray(e))
    decreases TArray(e), 0
  {
    var t := TArray(e);
    forall i | 0 <= i < |v.items| ensures Rewrite(rule, v, t).items[i] == Everywhere(rule, v, t).items[i] {
      PruningIsExact(rule, v.items[i], e);
    }
    assert Rewrite(rule, v, t).items == Everywhere(rule, v, t).items;
  }

  lemma {:induction false} PruningMap(rule: Rule, v: Value, k: SType, e: SType)
    requires v.VMap? && Inhabits(v, TMap(k, e))
    ensures Rewrite(rule, v, TMap(k, e)) == Everywhere(rule, v, TMap(k, e))
    decreases TMap(k, e), 0
  {
    var t := TMap(k, e);
    forall i | 0 <= i < |v.entries| ensures Rewrite(rule, v, t).entries[i] == Everywhere(rule, v, t).entries[i] {
      PruningIsExact(rule, v.entries[i].value, e);
    }
    assert Rewrite(rule, v, t).entries == Everywhere(rule, v, t).entries;
  }

  lemma {:induction false} PruningStruct(rule: Rule, v: Value, fields: seq<Field>)
    requires v.VStruct? && Inhabits(v, TStruct(fields))
    ensures Rewrite(rule, v, TStruct(fields)) == Everywhere(rule, v, TStruct(fields))
    decreases TStruct(fields), 0
  {
    var t := TStruct(fields);
    forall i | 0 <= i < |fields| ensures Rewrite(rule, v, t).cells[i] == Everywhere(rule, v, t).cells[i] {
      if Has(rule, fields[i].dataType) {
        PruningIsExact(rule, v.cells[i], fields[i].dataType);
      } else {
        NothingToRewrite(rule, v.cells[i], fields[i].dataType);
      }
    }
    assert Rewrite(rule, v, t).cells == Everywhere(rule, v, t).cells;
  }

  /* ---- the two rewrites of the serializer do not disturb each other ---- */

  /** Rewriting floats by the original type works on a cell whose dates were rewritten already: the order of the two
      does not matter. */
  lemma {:induction false} FloatsAndDatesCommute(v: Value, t: SType)
    ensures Rewrite(Floats, Rewrite(Dates, v, t), t) == Rewrite(Dates, Rewrite(Floats, v, t), t)
    decreases t, 1
  {
    hide Rewrite;
    if t.TStruct? && v.VStruct? && |v.cells| == |t.fields| {
      StructsCommute(v, t.fields);
    } else if t.TArray? && v.VArray? {
      ArraysCommute(v, t.element);
    } else if t.TMap? && v.VMap? {
      MapsCommute(v, t.key, t.value);
    } else {
      LeavesCommute(v, t);
    }
  }

  lemma LeavesCommute(v: Value, t: SType)
    requires !(t.TStruct? && v.VStruct? && |v.cells| == |t.fields|)
    requires !(t.TArray? && v.VArray?) && !(t.TMap? && v.VMap?)
    ensures Rewrite(Floats, Rewrite(Dates, v, t), t) == Rewrite(Dates, Rewrite(Floats, v, t), t)
  {
  }

  lemma {:induction false} ArraysCommute(v: Value, e: SType)
    requires v.VArray?
    ensures var t := TArray(e);
      Rewrite(Floats, Rewrite(Dates, v, t), t) == Rewrite(Dates, Rewrite(Floats, v, t), t)
    decreases TArray(e), 0
  {
    var t := TArray(e);
    var x, y := Rewrite(Dates, v, t), Rewrite(Floats, v, t);
    forall i | 0 <= i < |v.items| ensures Rewrite(Floats, x, t).items[i] == Rewrite(Dates, y, t).items[i] {
      FloatsAndDatesCommute(v.items[i], e);
    }
    assert Rewrite(Floats, x, t).items == Rewrite(Dates, y, t).items;
  }

  lemma {:induction false} MapsCommute(v: Value, k: SType, e: SType)
    requires v.VMap?
    ensures var t := TMap(k, e);
      Rewrite(Floats, Rewrite(Dates, v, t), t) == Rewrite(Dates, Rewrite(Floats, v, t), t)
    decreases TMap(k, e), 0
  {
    var t := TMap(k, e);
    var x, y := Rewrite(Dates, v, t), Rewrite(Floats, v, t);
    forall i | 0 <= i < |v.entries| ensures Rewrite(Floats, x, t).entries[i] == Rewrite(Dates, y, t).entries[i] {
      FloatsAndDatesCommute(v.entries[i].value, e);
    }
    assert Rewrite(Floats, x, t).entries == Rewrite(Dates, y, t).entries;
  }

  lemma {:induction false} StructsCommute(v: Value, fields: seq<Field>)
    requires v.VStruct? && |v.cells| == |fields|
    ensures var t := TStruct(fields);
      Rewrite(Floats, Rewrite(Dates, v, t), t) == Rewrite(Dates, Rewrite(Floats, v, t), t)
    decreases TStruct(fields), 0
  {
    var t := TStruct(fields);
    var x, y := Rewrite(Dates, v, t), Rewrite(Floats, v, t);
    forall i | 0 <= i < |fields| ensures Rewrite(Floats, x, t).cells[i] == Rewrite(Dates, y, t).cells[i] {
      FloatsAndDatesCommute(v.cells[i], fields[i].dataType);
    }
    assert Rewrite(Floats, x, t).cells == Rewrite(Dates, y, t).cells;
  }

  /* ---- types ---- */

  lemma {:induction false} SameTypeWithoutLeaves(rule: Rule, t: SType)
    requires rule != Floats
    ensures !Has(rule, t) ==> NullType(rule, t) == t
    decreases t
  {
    match t
    case TStruct(fields) =>
      if !Has(rule, t) {
        forall i | 0 <= i < |fields| ensures NullType(rule, fields[i].dataType) == fields[i].dataType {
          assert !Has(rule, fields[i].dataType);
          SameTypeWithoutLeaves(rule, fields[i].dataType);
        }
        assert NullType(rule, t).fields == fields;
      }
    case TArray(e) => SameTypeWithoutLeaves(rule, e);
    case TMap(k, e) =>
      SameTypeWithoutLeaves(rule, k);
      SameTypeWithoutLeaves(rule, e);
    case _ =>
  }

  /** The null of a rewritten struct has the type of the rebuilt struct: `_epoch_type` is right about every type. */
  lemma {:induction false} EpochTypeIsBuilt(t: SType)
    ensures NullType(Dates, t) == BuiltType(Dates, t)
    decreases t
  {
    match t
    case TStruct(fields) =>
      forall i | 0 <= i < |fields| ensures NullType(Dates, t).fields[i] == BuiltType(Dates, t).fields[i] {
        EpochTypeIsBuilt(fields[i].dataType);
        SameTypeWithoutLeaves(Dates, fields[i].dataType);
      }
      assert NullType(Dates, t).fields == BuiltType(Dates, t).fields;
    case TArray(e) => EpochTypeIsBuilt(e);
    case TMap(k, e) => EpochTypeIsBuilt(e);
    case _ =>
  }

  /** Some map key of the type mentions a timestamp. */
  predicate StampedKey(t: SType)
    decreases t
  {
    match t
    case TStruct(fields) => exists i :: 0 <= i < |fields| && StampedKey(fields[i].dataType)
    case TArray(e) => StampedKey(e)
    case TMap(k, e) => Has(Stamps, k) || StampedKey(e)
    case _ => false
  }

  lemma {:induction false} StampedHas(t: SType)
    requires StampedKey(t)
    ensures Has(Stamps, t)
    decreases t
  {
    match t
    case TStruct(fields) =>
      var i :| 0 <= i < |fields| && StampedKey(fields[i].dataType);
      StampedHas(fields[i].dataType);
    case TArray(e) => StampedHas(e);
    case TMap(k, e) =>
      if StampedKey(e) {
        StampedHas(e);
      }
    case _ =>
  }

  lemma {:induction false} StampsRetype(t: SType)
    requires Has(Stamps, t)
    ensures NullType(Stamps, t) != t
    decreases t
  {
    match t
    case TStruct(fields) =>
      var i :| 0 <= i < |fields| && Has(Stamps, fields[i].dataType);
      StampsRetype(fields[i].dataType);
      assert NullType(Stamps, t).fields[i] != fields[i];
    case TArray(e) => StampsRetype(e);
    case TMap(k, e) =>
      if Has(Stamps, k) {
        StampsRetype(k);
      } else {
        StampsRetype(e);
      }
    case _ =>
  }

  /** The twin for timestamps retypes map keys that the rewrite does not touch: it is right about a type exactly when
      no map key in it mentions a timestamp. */
  lemma {:induction false} EpochStructTypeIsBuilt(t: SType)
    ensures NullType(Stamps, t) == BuiltType(Stamps, t) <==> !StampedKey(t)
    decreases t
  {
    match t
    case TStruct(fields) =>
      forall i | 0 <= i < |fields| ensures
        NullType(Stamps, t).fields[i] == BuiltType(Stamps, t).fields[i] <==> !StampedKey(fields[i].dataType)
      {
        if !Has(Stamps, fields[i].dataType) {
          FieldTypeIsBuilt(fields[i].dataType);
        }
        EpochStructTypeIsBuilt(fields[i].dataType);
      }
      if !StampedKey(t) {
        assert NullType(Stamps, t).fields == BuiltType(Stamps, t).fields;
      } else {
        var i :| 0 <= i < |fields| && StampedKey(fields[i].dataType);
        assert NullType(Stamps, t).fields[i] != BuiltType(Stamps, t).fields[i];
      }
    case TArray(e) => EpochStructTypeIsBuilt(e);
    case TMap(k, e) =>
      EpochStructTypeIsBuilt(e);
      SameTypeWithoutLeaves(Stamps, k);
      if Has(Stamps, k) {
        StampsRetype(k);
      }
    case _ =>
  }

  lemma FieldTypeIsBuilt(t: SType)
    requires !Has(Stamps, t)
    ensures NullType(Stamps, t) == t && !StampedKey(t)
  {
    SameTypeWithoutLeaves(Stamps, t);
    if StampedKey(t) {
      StampedHas(t);
    }
  }

  /* ---- rewritten cells fit the rewritten types ---- */

  lemma MillisFit(us: int)
    requires Fits(us, Big)
    ensures Fits(us / 1000, Big)
  {
  }

  lemma DaysFit(days: int)
    requires Fits(days, Regular)
    ensures Fits(Calendar.DateMillis(days), Big)
  {
  }

  lemma FloatTyped(v: Value, t: SType)
    requires IsLeaf(Floats, t) && Inhabits(v, t)
    ensures Inhabits(Leaf(Floats, v), t)
  {
  }

  lemma StampTyped(v: Value, t: SType)
    requires IsLeaf(Stamps, t) && Inhabits(v, t)
    ensures Inhabits(Leaf(Stamps, v), LONG)
  {
    hide Fits;
    if v.VTimestamp? {
      MillisFit(v.us);
    }
  }

  lemma DateTyped(v: Value, t: SType)
    requires IsLeaf(Dates, t) && Inhabits(v, t)
    ensures Inhabits(Leaf(Dates, v), LONG)
  {
    hide Fits, Calendar.NtzMillis, Calendar.DateMillis;
    if v.VNtz? {
      Calendar.NtzFloors(v.us);
      MillisFit(v.us);
    } else if v.VDate? {
      DaysFit(v.days);
    }
  }

  lemma LeafTyped(rule: Rule, v: Value, t: SType)
    requires IsLeaf(rule, t) && Inhabits(v, t)
    ensures Inhabits(Leaf(rule, v), BuiltType(rule, t))
  {
    assert BuiltType(rule, t) == if rule == Floats then t else LONG;
    hide *;
    match rule
    case Floats => FloatTyped(v, t);
    case Stamps => StampTyped(v, t);
    case Dates => DateTyped(v, t);
  }

  /** A rewritten cell belongs to the type of the rewritten column. */
  lemma {:induction false} RewriteTyped(rule: Rule, v: Value, t: SType)
    requires Inhabits(v, t)
    ensures Inhabits(Rewrite(rule, v, t), BuiltType(rule, t))
    decreases t, 1
  {
    if IsLeaf(rule, t) {
      LeafTyped(rule, v, t);
    } else if t.TStruct? && v.VStruct? {
      StructTyped(rule, v, t.fields);
    } else if t.TArray? && v.VArray? {
      ArrayTyped(rule, v, t.element);
    } else if t.TMap? && v.VMap? {
      MapTyped(rule, v, t.key, t.value);
    }
  }

  lemma {:induction false} StructTyped(rule: Rule, v: Value, fields: seq<Field>)
    requires v.VStruct? && Inhabits(v, TStruct(fields))
    ensures Inhabits(Rewrite(rule, v, TStruct(fields)), BuiltType(rule, TStruct(fields)))
    decreases TStruct(fields), 0
  {
    var t := TStruct(fields);
    forall i | 0 <= i < |fields| ensures
      Inhabits(Rewrite(rule, v, t).cells[i], BuiltType(rule, t).fields[i].dataType)
    {
      RewriteTyped(rule, v.cells[i], fields[i].dataType);
    }
  }

  lemma {:induction false} ArrayTyped(rule: Rule, v: Value, e: SType)
    requires v.VArray? && Inhabits(v, TArray(e))
    ensures Inhabits(Rewrite(rule, v, TArray(e)), BuiltType(rule, TArray(e)))
    decreases TArray(e), 0
  {
    forall i | 0 <= i < |v.items| ensures Inhabits(Rewrite(rule, v.items[i], e), BuiltType(rule, e)) {
      RewriteTyped(rule, v.items[i], e);
    }
  }

  /** A rewritten map has the same keys, and its values rewritten. */
  lemma MapRewritten(rule: Rule, v: Value, k: SType, e: SType)
    requires v.VMap?
    ensures BuiltType(rule, TMap(k, e)) == TMap(k, BuiltType(rule, e))
    ensures var w := Rewrite(rule, v, TMap(k, e));
      && w.VMap? && |w.entries| == |v.entries|
      && forall i :: 0 <= i < |v.entries| ==>
           w.entries[i] == Entry(v.entries[i].key, Rewrite(rule, v.entries[i].value, e))
  {
    hide Leaf, Has;
  }

  lemma {:induction false} MapTyped(rule: Rule, v: Value, k: SType, e: SType)
    requires v.VMap? && Inhabits(v, TMap(k, e))
    ensures Inhabits(Rewrite(rule, v, TMap(k, e)), BuiltType(rule, TMap(k, e)))
    decreases TMap(k, e), 0
  {
    MapRewritten(rule, v, k, e);
    MapCells(v.entries, k, e);
    hide Rewrite, BuiltType, Inhabits, DistinctKeys;
    forall i | 0 <= i < |v.entries| ensures Inhabits(Rewrite(rule, v.entries[i].value, e), BuiltType(rule, e)) {
      RewriteTyped(rule, v.entries[i].value, e);
    }
    MapOfTyped(v.entries, Rewrite(rule, v, TMap(k, e)).entries, k, e, BuiltType(rule, e));
  }

  lemma SameKeys(before: seq<Entry>, after: seq<Entry>)
    requires |before| == |after| && DistinctKeys(before)
    requires forall i :: 0 <= i < |after| ==> after[i].key == before[i].key
    ensures DistinctKeys(after)
  {
    forall i, j | 0 <= i < j < |after| ensures after[i].key != after[j].key {
      assert before[i].key != before[j].key;
    }
  }

  /** New values for the same keys. */
  lemma MapOfTyped(before: seq<Entry>, after: seq<Entry>, k: SType, e: SType, e': SType)
    requires |before| == |after| && Inhabits(VMap(before), TMap(k, e))
    requires forall i :: 0 <= i < |after| ==> after[i].key == before[i].key && Inhabits(after[i].value, e')
    ensures Inhabits(VMap(after), TMap(k, e'))
  {
    hide DistinctKeys, Inhabits;
    MapCells(before, k, e);
    MapCells(after, k, e');
    SameKeys(before, after);
    forall i | 0 <= i < |after| ensures Inhabits(after[i].key, k) {
      assert Inhabits(before[i].key, k);
    }
  }
}
