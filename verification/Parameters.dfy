/**
 From the output of one task to the parameter of another: what a function returns, lifted
 into a receipt, awaited, resolved and lowered again.
 */
module Parameters {
  import opened Wrappers
  import opened IpldModel
  import opened Wit
  import opened WitFixpoint
  import opened Inputs
  import opened Execution

  /** A list that is passed where no list is asked for stands for its first element. */
  ghost function Head(i: Ipld): Ipld
    decreases i
  {
    if i.List? && i.items != [] then Head(i.items[0]) else i
  }

  /** Parameter types that take numbers or records and nothing that is only true, false or null. */
  predicate Strict(t: WitType) {
    t.TInt? || t.TFloat32? || t.TFloat64? || t.TRecord?
  }

  /** What is lowered without an error at a parameter that is no list. */
  ghost predicate Taken(t: WitType, i: Ipld) {
    match i
    case Null => !Strict(t)
    case Bool(_) => !Strict(t)
    case Integer(n) => if t.TInt? then InRange(t.kind, n) else !Strict(t) && InRange(S64, n)
    case Map(_) => false
    case _ => true
  }

  /**
   Which arguments lower at which parameter: at a list those that fit it, besides text, links and
   floats, which come out as what they are; elsewhere what the first element of a list decides.
   */
  lemma {:induction false} LowersExactly(c: Codec, t: WitType, i: Ipld)
    ensures t.TList? ==> (LowerIpld(c, t, i).Ok? <==> Fits(i, t) || i.Float? || i.String? || i.Link?)
    ensures !t.TList? ==> (LowerIpld(c, t, i).Ok? <==> Taken(t, Head(i)))
    decreases i
  {
    if t.TList? {
      LowerTyped(c, i, t);
    } else if i.List? && i.items != [] {
      LowersExactly(c, t, i.items[0]);
    }
  }

  /**
   What a parameter that is no list gets, whatever its type: text for a string, for null, for the
   CID of a link and for bytes in base 64, and otherwise the truth value or number itself.
   */
  lemma {:induction false} ScalarPassed(c: Codec, t: WitType, i: Ipld)
    requires !t.TList? && LowerIpld(c, t, i).Ok?
    ensures var v := LowerIpld(c, t, i).value;
            match Head(i)
            case Null => v == VString("null")
            case Bool(b) => v == VBool(b)
            case Integer(n) => v == VInt(if t.TInt? then t.kind else S64, n)
            case Float(f) => v == if t == TFloat32 then VFloat32(c.toF32(f)) else VFloat64(f)
            case String(s) => v == VString(s)
            case Link(id) => v.VString? && v.s == c.cidText(id) && (Faithful(c) ==> c.parseCid(v.s) == Some(id))
            case Bytes(bs) => v == VString(c.base64(bs))
            case List(_) => v == VBool(false)
            case Map(_) => false
    decreases i
  {
    if i.List? && i.items != [] { ScalarPassed(c, t, i.items[0]); }
  }

  /**
   A value that one task returns is the value the task that awaits it is called with, at a
   parameter of the same type, exactly when its text is canonical.
   */
  lemma ValuePassesOn(c: Codec, v: Val, t: WitType)
    requires Built(v) && TypeOf(v) == t && Liftable(t)
    ensures OutputToIpld(c, Value(v)).Ok?
    ensures LowerIpld(c, t, OutputToIpld(c, Value(v)).value) == Ok(v) <==> Canonical(c, v)
  {
    LiftThenLower(c, v, t);
    SameLowering(c, Lift(c, v).value, v, t);
  }

  /** Being passed as a value of the type of the parameter is lowering to it at that type. */
  lemma SameLowering(c: Codec, i: Ipld, v: Val, t: WitType)
    requires TypeOf(v) == t
    ensures LowerIpld(c, t, i) == Ok(v) <==> Lower(c, i, Typed(t)) == Ok(v)
  {
    LowerTyped(c, i, t);
    ParameterTyped(c, t, i);
  }

  /** Several results of one type arrive as a list of them. */
  lemma ResultsPassOn(c: Codec, vs: seq<Val>, elem: WitType)
    requires Liftable(elem) && forall k :: 0 <= k < |vs| ==> Built(vs[k]) && TypeOf(vs[k]) == elem
    ensures OutputToIpld(c, Values(vs)).Ok?
    ensures LowerIpld(c, TList(elem), OutputToIpld(c, Values(vs)).value) == Ok(VList(elem, vs))
            <==> forall k :: 0 <= k < |vs| ==> Canonical(c, vs[k])
  {
    forall k | 0 <= k < |vs|
      ensures Lift(c, vs[k]).Ok? && (Lower(c, Lift(c, vs[k]).value, Typed(elem)) == Ok(vs[k]) <==> Canonical(c, vs[k]))
    {
      LiftThenLower(c, vs[k], elem);
    }
    var ls := LiftItems(c, vs).value;
    LowersToList(c, ls, vs, elem);
    SameLowering(c, List(ls), VList(elem, vs), TList(elem));
  }

  /** A function without a result is awaited as null, a char as a text of one character. */
  lemma VoidAndChar(c: Codec, ch: char)
    ensures OutputToIpld(c, Void).Ok? && LowerIpld(c, TString, OutputToIpld(c, Void).value) == Ok(VString("null"))
    ensures OutputToIpld(c, Value(VChar(ch))).Ok?
    ensures LowerIpld(c, TString, OutputToIpld(c, Value(VChar(ch))).value) == Ok(VString([ch]))
  {
  }

  /** A component value that is found for a link inside an argument reads as IPLD that lowers back to it. */
  lemma ValueReadsBack(c: Codec, v: Val, t: WitType)
    requires Built(v) && TypeOf(v) == t && Liftable(t)
    ensures LowerIpld(c, t, ArgToIpld(c, ArgValue(v))) == Ok(v) <==> Canonical(c, v)
  {
    LiftThenLower(c, v, t);
    SameLowering(c, Lift(c, v).value, v, t);
  }
}
