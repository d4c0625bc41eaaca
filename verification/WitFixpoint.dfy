/**
 Lifting what was lowered and lowering it again: one pass reaches a fixed point,
 also for the inputs that do not survive the first pass.
 */
module WitFixpoint {
  import opened Wrappers
  import opened IpldModel
  import opened Wit

  /** Types built from bool, string, the integers, float64, list, and list of (string, T). */
  predicate Liftable(t: WitType) {
    match t
    case TBool => true
    case TInt(_) => true
    case TFloat64 => true
    case TString => true
    case TList(e) =>
      if e.TTuple? then |e.types| == 2 && e.types[0] == TString && Liftable(e.types[1]) else Liftable(e)
    case _ => false
  }

  /** Keys of a list of pairs come in the order of the map they were taken from. */
  ghost predicate KeysAscend(vs: seq<Val>) {
    forall j, k :: 0 <= j < k < |vs| && IsPair(vs[j]) && IsPair(vs[k]) ==> Less(vs[j].items[0].s, vs[k].items[0].s)
  }

  /** What the constructors of component values and the order of IPLD maps guarantee. */
  ghost predicate Built(v: Val)
    decreases v
  {
    match v
    case VInt(kind, n) => InRange(kind, n)
    case VList(elem, vs) =>
      && KeysAscend(vs)
      && forall k :: 0 <= k < |vs| ==> TypeOf(vs[k]) == elem && Built(vs[k])
    case VTuple(types, vs) =>
      && |vs| == |types|
      && forall k :: 0 <= k < |vs| ==> TypeOf(vs[k]) == types[k] && Built(vs[k])
    case _ => true
  }

  /** A text that parses as a CID is the text that CID is printed as. */
  predicate CanonicalString(c: Codec, s: string) {
    s != "null" && c.parseCid(s).Some? ==> c.cidText(c.parseCid(s).value) == s
  }

  /** Every text in a value position is canonical; map keys are never read as CIDs. */
  ghost predicate Canonical(c: Codec, v: Val)
    decreases v
  {
    match v
    case VString(s) => CanonicalString(c, s)
    case VList(_, vs) => forall k :: 0 <= k < |vs| ==> Canonical(c, vs[k])
    case VTuple(_, vs) => |vs| == 2 ==> Canonical(c, vs[1])
    case _ => true
  }

  lemma {:induction false} LowerBuilds(c: Codec, i: Ipld, ty: InterfaceType)
    requires WellFormed(i) && Lower(c, i, ty).Ok?
    ensures Built(Lower(c, i, ty).value)
    decreases i
  {
    match i
    case List(items) =>
      if ty.Typed? && ty.ty.TList? {
        var elem := ty.ty.elem;
        var vs := LowerItems(c, items, elem).value;
        forall k | 0 <= k < |vs| ensures Built(vs[k]) && !IsPair(vs[k]) {
          assert WellFormed(items[k]);
          LowerBuilds(c, items[k], Typed(elem));
          NeverTuple(c, items[k], Typed(elem));
        }
      } else if items != [] {
        assert WellFormed(items[0]);
        LowerBuilds(c, items[0], ty);
      }
    case Map(es) =>
      var types := ty.ty.elem.types;
      var vs := LowerEntries(c, es, types).value;
      forall k | 0 <= k < |vs| ensures Built(vs[k]) && IsPair(vs[k]) && vs[k].items[0].s == es[k].key {
        assert WellFormed(es[k].value);
        LowerBuildsEntry(c, es[k], types);
      }
    case _ =>
  }

  lemma {:induction false} LowerBuildsEntry(c: Codec, e: Entry, types: seq<WitType>)
    requires WellFormed(e.value) && |types| >= 2 && LowerEntry(c, e, types).Ok?
    ensures var v := LowerEntry(c, e, types).value; Built(v) && IsPair(v) && v.items[0].s == e.key
    decreases e
  {
    LowerBuilds(c, e.value, Typed(types[1]));
  }

  lemma {:induction false} NeverTuple(c: Codec, i: Ipld, ty: InterfaceType)
    requires Lower(c, i, ty).Ok?
    ensures !Lower(c, i, ty).value.VTuple?
    decreases i
  {
    if i.List? && i.items != [] && (ty.Any? || !ty.ty.TList?) { NeverTuple(c, i.items[0], ty); }
  }

  /** A built value of a liftable type lifts, and lowers back to itself exactly when its text is canonical. */
  lemma {:induction false} LiftThenLower(c: Codec, v: Val, t: WitType)
    requires Built(v) && TypeOf(v) == t && Liftable(t)
    ensures Lift(c, v).Ok?
    ensures Lower(c, Lift(c, v).value, Typed(t)) == Ok(v) <==> Canonical(c, v)
    decreases v
  {
    match v
    case VList(elem, vs) =>
      if elem.TTuple? {
        LiftThenLowerMap(c, vs, elem.types);
      } else if vs != [] {
        if elem == TInt(U8) {
          assert forall k :: 0 <= k < |vs| ==> TypeOf(vs[k]) == elem && Built(vs[k]) && IsU8(vs[k]);
          assert U8s(Lift(c, v).value.bytes) == vs;
        } else {
          assert TypeOf(vs[0]) == elem;
          LiftThenLowerList(c, vs, elem);
        }
      }
    case _ =>
  }

  lemma {:induction false} LiftThenLowerList(c: Codec, vs: seq<Val>, elem: WitType)
    requires Built(VList(elem, vs)) && Liftable(elem) && elem != TInt(U8) && !elem.TTuple? && vs != []
    ensures Lift(c, VList(elem, vs)).Ok?
    ensures Lower(c, Lift(c, VList(elem, vs)).value, Typed(TList(elem))) == Ok(VList(elem, vs)) <==>
            Canonical(c, VList(elem, vs))
    decreases vs
  {
    forall k | 0 <= k < |vs|
      ensures Lift(c, vs[k]).Ok?
      ensures Lower(c, Lift(c, vs[k]).value, Typed(elem)) == Ok(vs[k]) <==> Canonical(c, vs[k])
    {
      assert Built(vs[k]) && TypeOf(vs[k]) == elem;
      LiftThenLower(c, vs[k], elem);
    }
    assert TypeOf(vs[0]) == elem;
    var ls := LiftItems(c, vs).value;
    assert Lift(c, VList(elem, vs)) == Ok(List(ls));
    LowersToList(c, ls, vs, elem);
  }

  lemma {:induction false} LowersToList(c: Codec, ls: seq<Ipld>, vs: seq<Val>, elem: WitType)
    requires |ls| == |vs| && forall k :: 0 <= k < |vs| ==> TypeOf(vs[k]) == elem
    ensures Lower(c, List(ls), Typed(TList(elem))) == Ok(VList(elem, vs)) <==>
            forall k :: 0 <= k < |ls| ==> Lower(c, ls[k], Typed(elem)) == Ok(vs[k])
  {
    var r := LowerItems(c, ls, elem);
    if forall k :: 0 <= k < |ls| ==> Lower(c, ls[k], Typed(elem)) == Ok(vs[k]) {
      assert r.value == vs;
    }
  }

  lemma {:induction false} LiftThenLowerEntry(c: Codec, v: Val, types: seq<WitType>)
    requires Built(v) && TypeOf(v) == TTuple(types)
    requires |types| == 2 && types[0] == TString && Liftable(types[1])
    ensures IsPair(v) && LiftEntry(c, v).Ok? && LiftEntry(c, v).value.key == v.items[0].s
    ensures LowerEntry(c, LiftEntry(c, v).value, types) == Ok(v) <==> Canonical(c, v)
    decreases v
  {
    assert TypeOf(v.items[0]) == types[0] && TypeOf(v.items[1]) == types[1] && Built(v.items[1]);
    LiftThenLower(c, v.items[1], types[1]);
    assert v.items == [v.items[0], v.items[1]];
  }

  lemma {:induction false} LowersTo(c: Codec, es: seq<Entry>, vs: seq<Val>, types: seq<WitType>)
    requires |types| >= 2 && |es| == |vs| && forall k :: 0 <= k < |vs| ==> TypeOf(vs[k]) == TTuple(types)
    ensures Lower(c, Map(es), Typed(TList(TTuple(types)))) == Ok(VList(TTuple(types), vs)) <==>
            forall k :: 0 <= k < |es| ==> LowerEntry(c, es[k], types) == Ok(vs[k])
  {
    var r := LowerEntries(c, es, types);
    if forall k :: 0 <= k < |es| ==> LowerEntry(c, es[k], types) == Ok(vs[k]) {
      assert r.value == vs;
    }
  }

  lemma {:induction false} LiftThenLowerMap(c: Codec, vs: seq<Val>, types: seq<WitType>)
    requires Built(VList(TTuple(types), vs))
    requires |types| == 2 && types[0] == TString && Liftable(types[1])
    ensures Lift(c, VList(TTuple(types), vs)).Ok?
    ensures Lower(c, Lift(c, VList(TTuple(types), vs)).value, Typed(TList(TTuple(types)))) == Ok(VList(TTuple(types), vs))
            <==> Canonical(c, VList(TTuple(types), vs))
    decreases vs
  {
    forall k | 0 <= k < |vs|
      ensures IsPair(vs[k]) && LiftEntry(c, vs[k]).Ok? && LiftEntry(c, vs[k]).value.key == vs[k].items[0].s
      ensures LowerEntry(c, LiftEntry(c, vs[k]).value, types) == Ok(vs[k]) <==> Canonical(c, vs[k])
    {
      assert Built(vs[k]) && TypeOf(vs[k]) == TTuple(types);
      LiftThenLowerEntry(c, vs[k], types);
    }
    var ls := LiftEntries(c, vs).value;
    CollectAscending(ls);
    assert Lift(c, VList(TTuple(types), vs)) == Ok(Map(ls));
    LowersTo(c, ls, vs, types);
  }

  /**
   Lowering, lifting and lowering again gives the first lowered value, for every
   input that lowers to a well-typed value with canonical text, and for no other.
   */
  lemma OnePassFixedPoint(c: Codec, i: Ipld, t: WitType)
    requires WellFormed(i) && Liftable(t) && Fits(i, t)
    ensures Lower(c, i, Typed(t)).Ok?
    ensures var v := Lower(c, i, Typed(t)).value;
            && Lift(c, v).Ok?
            && (Lower(c, Lift(c, v).value, Typed(t)) == Ok(v) <==> Canonical(c, v))
  {
    LowerTyped(c, i, t);
    LowerBuilds(c, i, Typed(t));
    LiftThenLower(c, Lower(c, i, Typed(t)).value, t);
  }
}
