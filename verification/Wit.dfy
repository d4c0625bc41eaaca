/**
 The type-directed translation between IPLD and the values of the WebAssembly
 component model: lowering an argument before a call and lifting a result after it.
 */
module Wit {
  import opened Wrappers
  import opened IpldModel

  datatype IntKind = S8 | U8 | S16 | U16 | S32 | U32 | S64 | U64

  datatype WitType =
    | TBool
    | TInt(kind: IntKind)
    | TFloat32
    | TFloat64
    | TChar
    | TString
    | TList(elem: WitType)
    | TTuple(types: seq<WitType>)
    | TRecord
    | TOther

  datatype InterfaceType = Any | Typed(ty: WitType)

  /** A list and a tuple carry the type they were built at. */
  datatype Val =
    | VBool(b: bool)
    | VInt(kind: IntKind, n: int)
    | VFloat32(f: real)
    | VFloat64(f: real)
    | VChar(c: char)
    | VString(s: string)
    | VList(elem: WitType, items: seq<Val>)
    | VTuple(types: seq<WitType>, items: seq<Val>)
    | VOther

  datatype Error = TypeMismatch | OutOfRange | MapType | NewVal | FloatConversion | Unhandled | Panic

  /** Library conversions the runtime calls without looking inside. */
  datatype Codec = Codec(
    cidText: Cid -> string,
    parseCid: string -> Option<Cid>,
    base64: seq<Byte> -> string,
    toF32: real -> real,
    fromF32: real -> Option<real>)

  /** The text of a CID parses back to that CID. */
  ghost predicate Faithful(c: Codec) {
    forall id: Cid :: c.parseCid(c.cidText(id)) == Some(id) && c.cidText(id) != "null"
  }

  predicate InRange(kind: IntKind, n: int) {
    match kind
    case S8 => -0x80 <= n < 0x80
    case U8 => 0 <= n < 0x100
    case S16 => -0x8000 <= n < 0x8000
    case U16 => 0 <= n < 0x1_0000
    case S32 => -0x8000_0000 <= n < 0x8000_0000
    case U32 => 0 <= n < 0x1_0000_0000
    case S64 => -0x8000_0000_0000_0000 <= n < 0x8000_0000_0000_0000
    case U64 => 0 <= n < 0x1_0000_0000_0000_0000
  }

  function TypeOf(v: Val): WitType {
    match v
    case VBool(_) => TBool
    case VInt(kind, _) => TInt(kind)
    case VFloat32(_) => TFloat32
    case VFloat64(_) => TFloat64
    case VChar(_) => TChar
    case VString(_) => TString
    case VList(elem, _) => TList(elem)
    case VTuple(types, _) => TTuple(types)
    case VOther => TOther
  }

  /** `component::List::new_val`, which checks the type of every element. */
  function NewList(elem: WitType, vs: seq<Val>): Result<Val, Error> {
    if forall k :: 0 <= k < |vs| ==> TypeOf(vs[k]) == elem then Ok(VList(elem, vs)) else Err(NewVal)
  }

  /** `component::Tuple::new_val`, which also checks the arity. */
  function NewTuple(types: seq<WitType>, vs: seq<Val>): Result<Val, Error> {
    if |types| == |vs| && forall k :: 0 <= k < |vs| ==> TypeOf(vs[k]) == types[k]
    then Ok(VTuple(types, vs)) else Err(NewVal)
  }

  /** `InterfaceType::from`: only these parameter types steer the lowering of an argument. */
  function FromType(t: WitType): InterfaceType {
    match t
    case TList(_) => Typed(t)
    case TRecord => Typed(t)
    case TInt(_) => Typed(t)
    case TFloat32 => Typed(t)
    case TFloat64 => Typed(t)
    case _ => Any
  }

  function LowerInt(kind: IntKind, n: int): Result<Val, Error> {
    if InRange(kind, n) then Ok(VInt(kind, n)) else Err(OutOfRange)
  }

  function U8s(bs: seq<Byte>): seq<Val> {
    seq(|bs|, k requires 0 <= k < |bs| => VInt(U8, bs[k]))
  }

  /** `RuntimeVal::try_from`. A panic of the original is the error `Panic`. */
  function Lower(c: Codec, i: Ipld, ty: InterfaceType): Result<Val, Error>
    decreases i, 1
  {
    match i
    case Null => if ty == Any || ty == Typed(TString) then Ok(VString("null")) else Err(TypeMismatch)
    case Bool(b) => if ty == Any || ty == Typed(TBool) then Ok(VBool(b)) else Err(TypeMismatch)
    case Integer(n) =>
      if ty.Any? then LowerInt(S64, n)
      else if ty.ty.TInt? then LowerInt(ty.ty.kind, n)
      else Err(TypeMismatch)
    case Float(f) => if ty == Typed(TFloat32) then Ok(VFloat32(c.toF32(f))) else Ok(VFloat64(f))
    case String(s) => Ok(VString(s))
    case Bytes(bs) =>
      if ty.Typed? && ty.ty.TList? then NewList(ty.ty.elem, U8s(bs)) else Ok(VString(c.base64(bs)))
    case Link(id) => Ok(VString(c.cidText(id)))
    case List(items) =>
      if ty.Typed? && ty.ty.TList? then
        match LowerItems(c, items, ty.ty.elem)
        case Ok(vs) => NewList(ty.ty.elem, vs)
        case Err(e) => Err(e)
      else if items == [] then Ok(VBool(false))
      else Lower(c, items[0], ty)
    case Map(es) =>
      if ty.Any? then Err(TypeMismatch)
      else if !ty.ty.TList? || !ty.ty.elem.TTuple? then Err(Panic)
      else if |ty.ty.elem.types| < 2 then Err(MapType)
      else
        match LowerEntries(c, es, ty.ty.elem.types)
        case Ok(vs) => NewList(ty.ty.elem, vs)
        case Err(e) => Err(e)
  }

  function LowerItems(c: Codec, items: seq<Ipld>, elem: WitType): (r: Result<seq<Val>, Error>)
    ensures r.Ok? <==> forall k :: 0 <= k < |items| ==> Lower(c, items[k], Typed(elem)).Ok?
    ensures r.Ok? ==> |r.value| == |items|
    ensures r.Ok? ==> forall k :: 0 <= k < |items| ==> Lower(c, items[k], Typed(elem)) == Ok(r.value[k])
    decreases items, 0
  {
    if items == [] then Ok([])
    else
      match Lower(c, items[0], Typed(elem))
      case Err(e) => Err(e)
      case Ok(v) =>
        match LowerItems(c, items[1..], elem)
        case Err(e) => Err(e)
        case Ok(vs) => Ok([v] + vs)
  }

  function LowerEntry(c: Codec, e: Entry, types: seq<WitType>): Result<Val, Error>
    requires |types| >= 2
    decreases e, 2
  {
    match Lower(c, e.value, Typed(types[1]))
    case Err(err) => Err(err)
    case Ok(v) => NewTuple(types, [VString(e.key), v])
  }

  function LowerEntries(c: Codec, es: seq<Entry>, types: seq<WitType>): (r: Result<seq<Val>, Error>)
    requires |types| >= 2
    ensures r.Ok? <==> forall k :: 0 <= k < |es| ==> LowerEntry(c, es[k], types).Ok?
    ensures r.Ok? ==> |r.value| == |es|
    ensures r.Ok? ==> forall k :: 0 <= k < |es| ==> LowerEntry(c, es[k], types) == Ok(r.value[k])
    decreases es, 0
  {
    if es == [] then Ok([])
    else
      match LowerEntry(c, es[0], types)
      case Err(e) => Err(e)
      case Ok(v) =>
        match LowerEntries(c, es[1..], types)
        case Err(e) => Err(e)
        case Ok(vs) => Ok([v] + vs)
  }

  /** `TryFrom<RuntimeVal> for Ipld`. */
  function Lift(c: Codec, v: Val): Result<Ipld, Error>
    decreases v, 1
  {
    match v
    case VChar(ch) => Ok(String([ch]))
    case VString(s) => Ok(LiftString(c, s))
    case VBool(b) => Ok(Bool(b))
    case VInt(_, n) => Ok(Integer(n))
    case VFloat32(f) => (match c.fromF32(f) case Some(g) => Ok(Float(g)) case None => Err(FloatConversion))
    case VFloat64(f) => Ok(Float(f))
    case VList(elem, vs) =>
      if elem.TTuple? then
        (match LiftEntries(c, vs)
         case Ok(es) => Ok(Map(Collect(es)))
         case Err(e) => Err(e))
      else if vs == [] then Ok(List([]))
      else if IsU8(vs[0]) then
        if forall k :: 0 <= k < |vs| ==> IsU8(vs[k])
        then Ok(Bytes(seq(|vs|, k requires 0 <= k < |vs| => vs[k].n)))
        else Err(TypeMismatch)
      else
        (match LiftItems(c, vs)
         case Ok(xs) => Ok(List(xs))
         case Err(e) => Err(e))
    case _ => Err(Unhandled)
  }

  /** A `u8` value, which holds a byte. */
  predicate IsU8(v: Val) {
    v.VInt? && v.kind == U8 && InRange(U8, v.n)
  }

  function LiftString(c: Codec, s: string): Ipld {
    if s == "null" then Null
    else match c.parseCid(s)
      case Some(id) => Link(id)
      case None => String(s)
  }

  function LiftItems(c: Codec, vs: seq<Val>): (r: Result<seq<Ipld>, Error>)
    ensures r.Ok? <==> forall k :: 0 <= k < |vs| ==> Lift(c, vs[k]).Ok?
    ensures r.Ok? ==> |r.value| == |vs|
    ensures r.Ok? ==> forall k :: 0 <= k < |vs| ==> Lift(c, vs[k]) == Ok(r.value[k])
    decreases vs, 0
  {
    if vs == [] then Ok([])
    else
      match Lift(c, vs[0])
      case Err(e) => Err(e)
      case Ok(i) =>
        match LiftItems(c, vs[1..])
        case Err(e) => Err(e)
        case Ok(xs) => Ok([i] + xs)
  }

  predicate IsPair(v: Val) {
    v.VTuple? && |v.items| == 2 && v.items[0].VString?
  }

  function LiftEntry(c: Codec, v: Val): Result<Entry, Error>
    decreases v, 2
  {
    if !IsPair(v) then Err(TypeMismatch)
    else
      match Lift(c, v.items[1])
      case Ok(i) => Ok(Entry(v.items[0].s, i))
      case Err(e) => Err(e)
  }

  /** The pairs of a list of tuples, before they are inserted into the map. */
  function LiftEntries(c: Codec, vs: seq<Val>): (r: Result<seq<Entry>, Error>)
    ensures r.Ok? <==> forall k :: 0 <= k < |vs| ==> LiftEntry(c, vs[k]).Ok?
    ensures r.Ok? ==> |r.value| == |vs|
    ensures r.Ok? ==> forall k :: 0 <= k < |vs| ==> LiftEntry(c, vs[k]) == Ok(r.value[k])
    decreases vs, 0
  {
    if vs == [] then Ok([])
    else
      match LiftEntry(c, vs[0])
      case Err(e) => Err(e)
      case Ok(i) =>
        match LiftEntries(c, vs[1..])
        case Err(e) => Err(e)
        case Ok(xs) => Ok([i] + xs)
  }

  // ---------------------------------------------------------------------------
  // Which values an IPLD value lowers to
  // ---------------------------------------------------------------------------

  /** The value conforms to the type, reading the edge cases as the lowering does. */
  ghost predicate Fits(i: Ipld, t: WitType)
    decreases i
  {
    match i
    case Null => t == TString
    case Bool(_) => t == TBool
    case Integer(n) => t.TInt? && InRange(t.kind, n)
    case Float(_) => t == TFloat32 || t == TFloat64
    case String(_) => t == TString
    case Link(_) => t == TString
    case Bytes(bs) => t == TString || (t.TList? && (bs == [] || t.elem == TInt(U8)))
    case List(items) =>
      if t.TList? then forall k :: 0 <= k < |items| ==> Fits(items[k], t.elem)
      else if items == [] then t == TBool
      else Fits(items[0], t)
    case Map(es) =>
      && t.TList? && t.elem.TTuple? && |t.elem.types| >= 2
      && (es != [] ==> |t.elem.types| == 2 && t.elem.types[0] == TString)
      && forall k :: 0 <= k < |es| ==> Fits(es[k].value, t.elem.types[1])
  }

  /** Lowering at a type gives a value of that type exactly when the input conforms to it. */
  lemma {:induction false} LowerTyped(c: Codec, i: Ipld, t: WitType)
    ensures Fits(i, t) <==> Lower(c, i, Typed(t)).Ok? && TypeOf(Lower(c, i, Typed(t)).value) == t
    decreases i
  {
    match i
    case List(items) =>
      if t.TList? {
        forall k | 0 <= k < |items|
          ensures Fits(items[k], t.elem) <==>
                  Lower(c, items[k], Typed(t.elem)).Ok? && TypeOf(Lower(c, items[k], Typed(t.elem)).value) == t.elem
        {
          LowerTyped(c, items[k], t.elem);
        }
      } else if items != [] {
        LowerTyped(c, items[0], t);
      }
    case Map(es) =>
      if t.TList? && t.elem.TTuple? && |t.elem.types| >= 2 {
        forall k | 0 <= k < |es| { LowerTypedEntry(c, es[k], t.elem.types); }
        if es != [] { assert LowerEntry(c, es[0], t.elem.types).Ok? || LowerEntry(c, es[0], t.elem.types).Err?; }
      }
    case Bytes(bs) =>
      if t.TList? && bs != [] { assert TypeOf(U8s(bs)[0]) == TInt(U8); }
    case _ =>
  }

  lemma {:induction false} LowerTypedEntry(c: Codec, e: Entry, types: seq<WitType>)
    requires |types| >= 2
    ensures LowerEntry(c, e, types).Ok? <==> |types| == 2 && types[0] == TString && Fits(e.value, types[1])
    ensures LowerEntry(c, e, types).Ok? ==> TypeOf(LowerEntry(c, e, types).value) == TTuple(types)
    decreases e
  {
    LowerTyped(c, e.value, types[1]);
  }

  // ---------------------------------------------------------------------------
  // Which values lift
  // ---------------------------------------------------------------------------

  /** Records and such do not lift, a tuple only as one of a list of pairs, and bytes only together. */
  ghost predicate Lifts(c: Codec, v: Val)
    decreases v
  {
    match v
    case VTuple(_, _) => false
    case VOther => false
    case VFloat32(f) => c.fromF32(f).Some?
    case VList(elem, vs) =>
      if elem.TTuple? then forall k :: 0 <= k < |vs| ==> IsPair(vs[k]) && Lifts(c, vs[k].items[1])
      else if vs != [] && IsU8(vs[0]) then forall k :: 0 <= k < |vs| ==> IsU8(vs[k])
      else forall k :: 0 <= k < |vs| ==> Lifts(c, vs[k])
    case _ => true
  }

  lemma {:induction false} LiftsExactly(c: Codec, v: Val)
    ensures Lift(c, v).Ok? <==> Lifts(c, v)
    decreases v
  {
    if v.VList? {
      forall k | 0 <= k < |v.items| ensures Lift(c, v.items[k]).Ok? <==> Lifts(c, v.items[k]) { LiftsExactly(c, v.items[k]); }
      forall k | 0 <= k < |v.items| && IsPair(v.items[k])
        ensures Lift(c, v.items[k].items[1]).Ok? <==> Lifts(c, v.items[k].items[1])
      {
        LiftsExactly(c, v.items[k].items[1]);
      }
    }
  }

  /** The last pair with its key, and the entry it lifts to. */
  ghost predicate LastPair(c: Codec, vs: seq<Val>, k: int, e: Entry) {
    && 0 <= k < |vs| && IsPair(vs[k]) && vs[k].items[0].s == e.key && Lift(c, vs[k].items[1]) == Ok(e.value)
    && forall j :: k < j < |vs| && IsPair(vs[j]) ==> vs[j].items[0].s != e.key
  }

  lemma LastAgrees(c: Codec, vs: seq<Val>, ps: seq<Entry>, k: int, e: Entry)
    requires |ps| == |vs| && forall j :: 0 <= j < |vs| ==> LiftEntry(c, vs[j]) == Ok(ps[j])
    ensures LastOfKey(ps, k) && ps[k] == e <==> LastPair(c, vs, k, e)
  {
    if 0 <= k < |vs| {
      assert LiftEntry(c, vs[k]) == Ok(ps[k]);
      forall j | k < j < |vs| ensures IsPair(vs[j]) && ps[j].key == vs[j].items[0].s {
        assert LiftEntry(c, vs[j]) == Ok(ps[j]);
      }
    }
  }

  /** A list of pairs lifts to a map in key order that has, for each key, what the last pair with it lifts to. */
  lemma LiftsLast(c: Codec, types: seq<WitType>, vs: seq<Val>)
    requires Lift(c, VList(TTuple(types), vs)).Ok?
    ensures Lift(c, VList(TTuple(types), vs)).value.Map?
    ensures var es := Lift(c, VList(TTuple(types), vs)).value.entries;
            Ascending(es) && forall e :: e in es <==> exists k :: LastPair(c, vs, k, e)
  {
    var ps := LiftEntries(c, vs).value;
    CollectedExactly(ps);
    forall e ensures Wins(ps, e) <==> exists k :: LastPair(c, vs, k, e) {
      forall k ensures LastOfKey(ps, k) && ps[k] == e <==> LastPair(c, vs, k, e) { LastAgrees(c, vs, ps, k, e); }
    }
  }

  // ---------------------------------------------------------------------------
  // Lowering then lifting
  // ---------------------------------------------------------------------------

  /** The forms that survive lowering and lifting unchanged. */
  ghost predicate Exact(c: Codec, i: Ipld, ty: InterfaceType)
    decreases i
  {
    match i
    case Null => ty == Any || ty == Typed(TString)
    case Bool(_) => ty == Any || ty == Typed(TBool)
    case Integer(n) => if ty.Any? then InRange(S64, n) else ty.ty.TInt? && InRange(ty.ty.kind, n)
    case Float(f) => ty == Typed(TFloat32) ==> c.fromF32(c.toF32(f)) == Some(f)
    case String(s) => s != "null" && c.parseCid(s).None?
    case Link(_) => true
    case Bytes(bs) => bs != [] && ty == Typed(TList(TInt(U8)))
    case List(items) =>
      && ty.Typed? && ty.ty.TList? && !ty.ty.elem.TTuple?
      && (items != [] ==> ty.ty.elem != TInt(U8))
      && forall k :: 0 <= k < |items| ==> Fits(items[k], ty.ty.elem) && Exact(c, items[k], Typed(ty.ty.elem))
    case Map(es) =>
      && ty.Typed? && ty.ty.TList? && ty.ty.elem.TTuple? && |ty.ty.elem.types| >= 2
      && (es != [] ==> |ty.ty.elem.types| == 2 && ty.ty.elem.types[0] == TString)
      && forall k :: 0 <= k < |es| ==>
           Fits(es[k].value, ty.ty.elem.types[1]) && Exact(c, es[k].value, Typed(ty.ty.elem.types[1]))
  }

  /** `i` lowers, and what it lowers to lifts back to `i`. */
  ghost predicate RoundTrips(c: Codec, i: Ipld, ty: InterfaceType) {
    Lower(c, i, ty).Ok? && Lift(c, Lower(c, i, ty).value) == Ok(i)
  }

  lemma {:induction false} UntypedNeverLists(c: Codec, i: Ipld, ty: InterfaceType)
    requires ty.Any? || !ty.ty.TList?
    requires Lower(c, i, ty).Ok?
    ensures !Lower(c, i, ty).value.VList?
    decreases i
  {
    if i.List? && i.items != [] { UntypedNeverLists(c, i.items[0], ty); }
  }

  lemma OnlyListsLiftToLists(c: Codec, v: Val)
    requires !v.VList?
    ensures Lift(c, v).Ok? ==> !Lift(c, v).value.List?
  {
    match v
    case VString(s) => assert !LiftString(c, s).List?;
    case _ =>
  }

  /**
   IPLD to WIT and back is the identity exactly on the exact forms, at every
   nesting depth and for every type.
   */
  lemma {:induction false} RoundTripExactly(c: Codec, i: Ipld, ty: InterfaceType)
    requires Faithful(c) && WellFormed(i)
    ensures RoundTrips(c, i, ty) <==> Exact(c, i, ty)
    decreases i
  {
    match i
    case List(items) =>
      if ty.Any? || !ty.ty.TList? {
        if Lower(c, i, ty).Ok? {
          UntypedNeverLists(c, i, ty);
          OnlyListsLiftToLists(c, Lower(c, i, ty).value);
        }
      } else {
        RoundTripList(c, items, ty.ty.elem);
      }
    case Map(es) =>
      if ty.Typed? && ty.ty.TList? && ty.ty.elem.TTuple? && |ty.ty.elem.types| >= 2 {
        RoundTripMap(c, es, ty.ty.elem.types);
      }
    case Bytes(bs) =>
      if ty.Typed? && ty.ty.TList? && bs != [] {
        var us := U8s(bs);
        assert TypeOf(us[0]) == TInt(U8);
        if ty.ty.elem == TInt(U8) {
          assert forall k :: 0 <= k < |us| ==> IsU8(us[k]);
          assert seq(|us|, k requires 0 <= k < |us| => us[k].n) == bs;
        }
      }
    case _ =>
  }

  lemma {:induction false} RoundTripList(c: Codec, items: seq<Ipld>, elem: WitType)
    requires Faithful(c) && WellFormed(List(items))
    ensures RoundTrips(c, List(items), Typed(TList(elem))) <==> Exact(c, List(items), Typed(TList(elem)))
    decreases items
  {
    var ty := Typed(TList(elem));
    forall k | 0 <= k < |items|
      ensures RoundTrips(c, items[k], Typed(elem)) <==> Exact(c, items[k], Typed(elem))
      ensures Fits(items[k], elem) <==>
              Lower(c, items[k], Typed(elem)).Ok? && TypeOf(Lower(c, items[k], Typed(elem)).value) == elem
    {
      assert WellFormed(items[k]);
      RoundTripExactly(c, items[k], Typed(elem));
      LowerTyped(c, items[k], elem);
    }
    if Lower(c, List(items), ty).Ok? {
      var vs := LowerItems(c, items, elem).value;
      assert Lower(c, List(items), ty).value == VList(elem, vs);
      if items != [] {
        assert TypeOf(vs[0]) == elem;
        if elem.TTuple? {
          assert Fits(items[0], elem);
          NoTuples(items[0], elem);
        } else if elem != TInt(U8) && LiftItems(c, vs).Ok? {
          var ls := LiftItems(c, vs).value;
          assert ls == items <==> forall k :: 0 <= k < |items| ==> ls[k] == items[k];
        }
      }
    }
  }

  lemma {:induction false} NoTuples(i: Ipld, t: WitType)
    requires t.TTuple?
    ensures !Fits(i, t)
    decreases i
  {
    if i.List? && i.items != [] { NoTuples(i.items[0], t); }
  }

  lemma {:induction false} RoundTripEntry(c: Codec, e: Entry, types: seq<WitType>)
    requires Faithful(c) && WellFormed(e.value) && |types| >= 2
    ensures LowerEntry(c, e, types).Ok? <==> |types| == 2 && types[0] == TString && Fits(e.value, types[1])
    ensures LowerEntry(c, e, types).Ok? ==>
              var r := LiftEntry(c, LowerEntry(c, e, types).value);
              && (r.Ok? ==> r.value.key == e.key)
              && (r == Ok(e) <==> Exact(c, e.value, Typed(types[1])))
    decreases e
  {
    RoundTripExactly(c, e.value, Typed(types[1]));
    LowerTypedEntry(c, e, types);
    if LowerEntry(c, e, types).Ok? {
      var v := Lower(c, e.value, Typed(types[1])).value;
      var t := LowerEntry(c, e, types).value;
      assert t == VTuple(types, [VString(e.key), v]) && IsPair(t) && t.items[1] == v;
    }
  }

  lemma LowerMap(c: Codec, es: seq<Entry>, types: seq<WitType>)
    requires |types| >= 2
    ensures var r := Lower(c, Map(es), Typed(TList(TTuple(types))));
            && (LowerEntries(c, es, types).Ok? ==> r == Ok(VList(TTuple(types), LowerEntries(c, es, types).value)))
            && (LowerEntries(c, es, types).Err? ==> r.Err?)
  {
    if LowerEntries(c, es, types).Ok? {
      forall k | 0 <= k < |es| { LowerTypedEntry(c, es[k], types); }
    }
  }

  lemma {:induction false} RoundTripMap(c: Codec, es: seq<Entry>, types: seq<WitType>)
    requires Faithful(c) && WellFormed(Map(es)) && |types| >= 2
    ensures RoundTrips(c, Map(es), Typed(TList(TTuple(types)))) <==> Exact(c, Map(es), Typed(TList(TTuple(types))))
    decreases es
  {
    LowerMap(c, es, types);
    if LowerEntries(c, es, types).Err? {
      var k :| 0 <= k < |es| && LowerEntry(c, es[k], types).Err?;
      LowerTypedEntry(c, es[k], types);
    } else {
      var vs := LowerEntries(c, es, types).value;
      forall k | 0 <= k < |es|
        ensures |types| == 2 && types[0] == TString && Fits(es[k].value, types[1])
        ensures LiftEntry(c, vs[k]).Ok? ==> LiftEntry(c, vs[k]).value.key == es[k].key
        ensures LiftEntry(c, vs[k]) == Ok(es[k]) <==> Exact(c, es[k].value, Typed(types[1]))
      {
        assert WellFormed(es[k].value) && LowerEntry(c, es[k], types) == Ok(vs[k]);
        RoundTripEntry(c, es[k], types);
      }
      LiftsBack(c, es, vs, types);
    }
  }

  lemma {:induction false} LiftsBack(c: Codec, es: seq<Entry>, vs: seq<Val>, types: seq<WitType>)
    requires Ascending(es) && |types| >= 2 && |vs| == |es|
    requires forall k :: 0 <= k < |es| ==>
               var r := LiftEntry(c, vs[k]);
               && (r.Ok? ==> r.value.key == es[k].key)
               && (r == Ok(es[k]) <==> Exact(c, es[k].value, Typed(types[1])))
    ensures Lift(c, VList(TTuple(types), vs)) == Ok(Map(es)) <==>
            forall k :: 0 <= k < |es| ==> Exact(c, es[k].value, Typed(types[1]))
  {
    if LiftEntries(c, vs).Ok? {
      var ls := LiftEntries(c, vs).value;
      CollectAscending(ls);
      assert ls == es <==> forall k :: 0 <= k < |es| ==> ls[k] == es[k];
    } else {
      var k :| 0 <= k < |es| && LiftEntry(c, vs[k]).Err?;
      assert !Exact(c, es[k].value, Typed(types[1]));
    }
  }
}
