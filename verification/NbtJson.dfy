// subcommands/dump-actors/jsonnbt.go: typed NBT values as JSON and back.

module NbtJson {
  import opened Common

  // A float that is not a number, or infinite, has no JSON.
  datatype Float = Finite(bits: int) | NotFinite

  // A Go type, as reflect sees it.
  datatype Type = U8T | I16T | I32T | I64T | F32T | F64T | StrT | MapT | SliceT(elem: Type) | AnyT | NoType

  // A Go value in an interface. A slice knows its element type: []any is List(AnyT, _).
  datatype Value =
    | U8(n: int) | I16(n: int) | I32(n: int) | I64(n: int)
    | F32(f: Float) | F64(f: Float)
    | Str(s: string)
    | Map(m: map<string, Value>)
    | List(elem: Type, items: seq<Value>)
    | Nil
    | Other                                // any other type

  // jsonNbtValueInternal, which stands for the JSON: a field that is omitted is None.
  datatype Json = Json(
    u8: Option<int>, i16: Option<int>, i32: Option<int>, i64: Option<int>,
    f32: Option<Float>, f64: Option<Float>, str: Option<string>,
    m: JsonMap, slice: JsonSlice)

  datatype JsonMap = NoMap | JsonMap(fields: map<string, Json>)

  datatype JsonSlice = NoSlice | JsonSlice(items: seq<Json>)

  const EMPTY := Json(None, None, None, None, None, None, None, NoMap, NoSlice)

  datatype Result<T> = Ok(value: T) | Err | Panic

  // ---- encoding ----

  // MarshalJSON. Empty maps and slices are omitted ("omitempty").
  function Encode(v: Value): Result<Json> {
    match v
    case U8(n) => Ok(EMPTY.(u8 := Some(n)))
    case I16(n) => Ok(EMPTY.(i16 := Some(n)))
    case I32(n) => Ok(EMPTY.(i32 := Some(n)))
    case I64(n) => Ok(EMPTY.(i64 := Some(n)))
    case F32(f) => if f.Finite? then Ok(EMPTY.(f32 := Some(f))) else Err
    case F64(f) => if f.Finite? then Ok(EMPTY.(f64 := Some(f))) else Err
    case Str(s) => Ok(EMPTY.(str := Some(s)))
    case Map(m) =>
      if exists k :: k in m && !Encode(m[k]).Ok? then Err
      else if m == map[] then Ok(EMPTY)
      else Ok(EMPTY.(m := JsonMap(map k | k in m :: Encode(m[k]).value)))
    case List(AnyT, items) =>
      if exists i :: 0 <= i < |items| && !Encode(items[i]).Ok? then Err
      else if items == [] then Ok(EMPTY)
      else Ok(EMPTY.(slice := JsonSlice(seq(|items|, i requires 0 <= i < |items| => Encode(items[i]).value))))
    case _ => Err
  }

  // ---- decoding ----

  function TypeOf(v: Value): Type {
    match v
    case U8(_) => U8T
    case I16(_) => I16T
    case I32(_) => I32T
    case I64(_) => I64T
    case F32(_) => F32T
    case F64(_) => F64T
    case Str(_) => StrT
    case Map(_) => MapT
    case List(e, _) => SliceT(e)
    case Nil => NoType
    case Other => NoType
  }

  // A slice takes its element type from its first element; nil has no type to make a slice of, and an element of
  // another type cannot be appended: both panic.
  function DecodeSlice(es: seq<Json>): Result<Value> {
    if es == [] then Ok(List(AnyT, []))
    else if exists i :: 0 <= i < |es| && !Decode(es[i]).Ok? then Panic
    else
      var t := TypeOf(Decode(es[0]).value);
      if t == NoType || exists i :: 0 <= i < |es| && TypeOf(Decode(es[i]).value) != t then Panic
      else Ok(List(t, seq(|es|, i requires 0 <= i < |es| => Decode(es[i]).value)))
  }

  // jsonNbtValueInternal.Value: the first field that is set counts.
  function Decode(j: Json): Result<Value> {
    if j.u8.Some? then Ok(U8(j.u8.value))
    else if j.i16.Some? then Ok(I16(j.i16.value))
    else if j.i32.Some? then Ok(I32(j.i32.value))
    else if j.i64.Some? then Ok(I64(j.i64.value))
    else if j.f32.Some? then Ok(F32(j.f32.value))
    else if j.f64.Some? then Ok(F64(j.f64.value))
    else if j.str.Some? then Ok(Str(j.str.value))
    else if j.m.JsonMap? then
      var m := j.m.fields;
      if exists k :: k in m && !Decode(m[k]).Ok? then Panic
      else Ok(Map(map k | k in m :: Decode(m[k]).value))
    else if j.slice.JsonSlice? then DecodeSlice(j.slice.items)
    else Ok(Nil)
  }

  // The value is one that a slice with this element type takes.
  predicate Fits(t: Type, v: Value) {
    match t
    case U8T => v.U8?
    case I16T => v.I16?
    case I32T => v.I32?
    case I64T => v.I64?
    case F32T => v.F32?
    case F64T => v.F64?
    case StrT => v.Str?
    case MapT => v.Map?
    case SliceT(e) => v.List? && v.elem == e
    case AnyT => false
    case NoType => false
  }

  lemma TypeOfIff(t: Type, v: Value)
    ensures Fits(t, v) <==> TypeOf(v) == t && t != NoType
  {
  }

  // A slice decodes if and only if all its elements do and one element type takes them all; what it decodes to is of
  // that type, and everything else panics.
  lemma SliceDecodesIff(es: seq<Json>, t: Type, items: seq<Value>)
    requires es != []
    ensures DecodeSlice(es) == Ok(List(t, items)) <==>
            |items| == |es| && forall i :: 0 <= i < |es| ==> Decode(es[i]) == Ok(items[i]) && Fits(t, items[i])
    ensures DecodeSlice(es).Ok? || DecodeSlice(es).Panic?
    ensures DecodeSlice(es).Ok? ==> DecodeSlice(es).value.List?
    ensures DecodeSlice([]) == Ok(List(AnyT, []))
  {
    var r := DecodeSlice(es);
    forall i | 0 <= i < |es| && Decode(es[i]).Ok? { TypeOfIff(t, Decode(es[i]).value); }
    if |items| == |es| && forall i :: 0 <= i < |es| ==> Decode(es[i]) == Ok(items[i]) && Fits(t, items[i]) {
      assert Decode(es[0]) == Ok(items[0]);
      assert r.Ok? && r.value.items == items;
    }
    if r == Ok(List(t, items)) {
      forall i | 0 <= i < |es| ensures Decode(es[i]) == Ok(items[i]) && Fits(t, items[i]) {
        assert r.value.items[i] == Decode(es[i]).value;
      }
    }
  }

  // The first field that is set.
  function FirstField(j: Json): nat {
    if j.u8.Some? then 0 else if j.i16.Some? then 1 else if j.i32.Some? then 2 else if j.i64.Some? then 3
    else if j.f32.Some? then 4 else if j.f64.Some? then 5 else if j.str.Some? then 6
    else if j.m.JsonMap? then 7 else if j.slice.JsonSlice? then 8 else 9
  }

  // Of several fields that are set the first one counts, whatever the others are.
  lemma FirstFieldCounts(j: Json)
    ensures var r, n := Decode(j), FirstField(j);
            && (n == 0 <==> r.Ok? && r.value.U8?) && (n == 0 ==> r.value.n == j.u8.value)
            && (n == 1 <==> r.Ok? && r.value.I16?) && (n == 1 ==> r.value.n == j.i16.value)
            && (n == 2 <==> r.Ok? && r.value.I32?) && (n == 2 ==> r.value.n == j.i32.value)
            && (n == 3 <==> r.Ok? && r.value.I64?) && (n == 3 ==> r.value.n == j.i64.value)
            && (n == 4 <==> r.Ok? && r.value.F32?) && (n == 4 ==> r.value.f == j.f32.value)
            && (n == 5 <==> r.Ok? && r.value.F64?) && (n == 5 ==> r.value.f == j.f64.value)
            && (n == 6 <==> r.Ok? && r.value.Str?) && (n == 6 ==> r.value.s == j.str.value)
            && (r.Ok? && r.value.Map? ==> n == 7)
            && (n == 7 ==> (r.Ok? <==> forall k :: k in j.m.fields ==> Decode(j.m.fields[k]).Ok?)
                           && (r.Ok? ==> r.value.Map? && r.value.m.Keys == j.m.fields.Keys
                                         && forall k :: k in j.m.fields ==> Decode(j.m.fields[k]) == Ok(r.value.m[k])))
            && (r.Ok? && r.value.List? ==> n == 8) && (n == 8 ==> r == DecodeSlice(j.slice.items))
            && (n == 9 <==> r == Ok(Nil))
  {
    if j.slice.JsonSlice? {
      if j.slice.items != [] { SliceDecodesIff(j.slice.items, NoType, []); }
    }
    hide DecodeSlice;
  }

  // ---- what survives ----

  // The value with every []any replaced by a slice of the type of its first element, at every depth.
  function Retyped(v: Value): Value {
    match v
    case Map(m) => Map(map k | k in m :: Retyped(m[k]))
    case List(AnyT, items) =>
      if items == [] then v
      else List(TypeOf(Retyped(items[0])), seq(|items|, i requires 0 <= i < |items| => Retyped(items[i])))
    case _ => v
  }

  // What MarshalJSON accepts.
  predicate Supported(v: Value) {
    match v
    case F32(f) => f.Finite?
    case F64(f) => f.Finite?
    case Map(m) => forall k :: k in m ==> Supported(m[k])
    case List(e, items) => e == AnyT && forall i :: 0 <= i < |items| ==> Supported(items[i])
    case Nil => false
    case Other => false
    case _ => true
  }

  // No map and no list is empty, and the elements of a list have one type, at every depth.
  predicate Full(v: Value) {
    match v
    case Map(m) => m != map[] && forall k :: k in m ==> Full(m[k])
    case List(e, items) =>
      && items != []
      && (forall i :: 0 <= i < |items| ==> Full(items[i]))
      && (forall i :: 0 <= i < |items| ==> TypeOf(Retyped(items[i])) == TypeOf(Retyped(items[0])))
    case _ => true
  }

  lemma {:induction false} EncodesIff(v: Value)
    ensures Encode(v).Ok? <==> Supported(v)
    ensures Encode(v) != Panic
  {
    match v
    case Map(m) => forall k | k in m { EncodesIff(m[k]); }
    case List(e, items) => forall i | 0 <= i < |items| { EncodesIff(items[i]); }
    case _ =>
  }

  lemma TypeOfRetyped(v: Value)
    requires Supported(v)
    ensures TypeOf(Retyped(v)) != NoType
  {
  }

  lemma MapForms(m: map<string, Value>, em: map<string, Json>, rm: map<string, Value>)
    requires Supported(Map(m)) && m != map[] && Encode(Map(m)) == Ok(EMPTY.(m := JsonMap(em)))
             && Retyped(Map(m)) == Map(rm)
    ensures em.Keys == m.Keys && rm.Keys == m.Keys
    ensures forall k :: k in m ==> em[k] == Encode(m[k]).value && rm[k] == Retyped(m[k])
    ensures Full(Map(m)) <==> forall k :: k in m ==> Full(m[k])
  {
    EncodesIff(Map(m));
  }

  // A JSON map decodes to the values its fields decode to.
  lemma DecodeMap(em: map<string, Json>, rm: map<string, Value>)
    requires em.Keys == rm.Keys
    ensures Decode(EMPTY.(m := JsonMap(em))) == Ok(Map(rm)) <==> forall k :: k in em ==> Decode(em[k]) == Ok(rm[k])
  {
    var r := Decode(EMPTY.(m := JsonMap(em)));
    if forall k :: k in em ==> Decode(em[k]) == Ok(rm[k]) {
      assert r.Ok? && r.value.m == rm;
    }
  }

  lemma {:induction false} MapRoundTrip(m: map<string, Value>)
    requires Supported(Map(m))
    ensures Encode(Map(m)).Ok? && (Decode(Encode(Map(m)).value) == Ok(Retyped(Map(m))) <==> Full(Map(m)))
    decreases Map(m), 0
  {
    EncodesIff(Map(m));
    forall k | k in m ensures Encode(m[k]).Ok? && (Decode(Encode(m[k]).value) == Ok(Retyped(m[k])) <==> Full(m[k])) {
      RoundTripIff(m[k]);
    }
    if m != map[] {
      var em := Encode(Map(m)).value.m.fields;
      var rm := Retyped(Map(m)).m;
      MapForms(m, em, rm);
      hide *;
      DecodeMap(em, rm);
    }
  }

  lemma {:induction false} ListRoundTrip(items: seq<Value>)
    requires Supported(List(AnyT, items))
    ensures Encode(List(AnyT, items)).Ok?
            && (Decode(Encode(List(AnyT, items)).value) == Ok(Retyped(List(AnyT, items))) <==> Full(List(AnyT, items)))
    decreases List(AnyT, items), 0
  {
    EncodesIff(List(AnyT, items));
    forall i | 0 <= i < |items|
      ensures Encode(items[i]).Ok? && (Decode(Encode(items[i]).value) == Ok(Retyped(items[i])) <==> Full(items[i]))
      ensures TypeOf(Retyped(items[i])) != NoType
    {
      RoundTripIff(items[i]);
      TypeOfRetyped(items[i]);
    }
    if items != [] {
      var es := Encode(List(AnyT, items)).value.slice.items;
      var rs := Retyped(List(AnyT, items)).items;
      ListForms(items, es, rs);
      hide *;
      DecodeList(es, rs);
    }
  }

  // A value survives encoding and decoding, with its lists retyped, if and only if it is full.
  lemma {:induction false} RoundTripIff(v: Value)
    requires Supported(v)
    ensures Encode(v).Ok? && (Decode(Encode(v).value) == Ok(Retyped(v)) <==> Full(v))
  {
    EncodesIff(v);
    match v
    case Map(m) => MapRoundTrip(m);
    case List(e, items) => ListRoundTrip(items);
    case _ =>
  }

  lemma ListForms(items: seq<Value>, es: seq<Json>, rs: seq<Value>)
    requires Supported(List(AnyT, items)) && items != []
    requires Encode(List(AnyT, items)) == Ok(EMPTY.(slice := JsonSlice(es)))
    requires Retyped(List(AnyT, items)) == List(TypeOf(Retyped(items[0])), rs)
    ensures |es| == |items| == |rs|
    ensures forall i :: 0 <= i < |items| ==> es[i] == Encode(items[i]).value && rs[i] == Retyped(items[i])
    ensures Full(List(AnyT, items)) <==>
            (forall i :: 0 <= i < |items| ==> Full(items[i]))
              && (forall i :: 0 <= i < |items| ==> TypeOf(rs[i]) == TypeOf(rs[0]))
  {
    EncodesIff(List(AnyT, items));
  }

  // A JSON slice decodes to the values its elements decode to, if they have one type.
  lemma DecodeList(es: seq<Json>, rs: seq<Value>)
    requires |es| == |rs| > 0 && forall i :: 0 <= i < |rs| ==> TypeOf(rs[i]) != NoType
    ensures Decode(EMPTY.(slice := JsonSlice(es))) == DecodeSlice(es)
    ensures DecodeSlice(es) == Ok(List(TypeOf(rs[0]), rs))
            <==> && (forall i :: 0 <= i < |es| ==> Decode(es[i]) == Ok(rs[i]))
                 && (forall i :: 0 <= i < |rs| ==> TypeOf(rs[i]) == TypeOf(rs[0]))
  {
    var r := DecodeSlice(es);
    if && (forall i :: 0 <= i < |es| ==> Decode(es[i]) == Ok(rs[i]))
       && (forall i :: 0 <= i < |rs| ==> TypeOf(rs[i]) == TypeOf(rs[0]))
    {
      assert Decode(es[0]) == Ok(rs[0]);
      assert r.Ok? && r.value.items == rs;
    }
    if r == Ok(List(TypeOf(rs[0]), rs)) {
      forall i | 0 <= i < |es| ensures Decode(es[i]) == Ok(rs[i]) && TypeOf(rs[i]) == TypeOf(rs[0]) {
        assert r.value.items[i] == Decode(es[i]).value;
      }
    }
  }

  // ---- once is all ----

  predicate NoLists(v: Value) {
    match v
    case Map(m) => forall k :: k in m ==> NoLists(m[k])
    case List(_, _) => false
    case _ => true
  }

  // MarshalJSON knows no slice but []any, so what has been decoded can be encoded again if and only if it has no list.
  lemma {:induction false} EncodesAgainIff(v: Value)
    requires Supported(v) && Full(v)
    ensures Encode(Retyped(v)).Ok? <==> NoLists(v)
    ensures NoLists(v) ==> Retyped(v) == v
  {
    EncodesIff(Retyped(v));
    match v
    case Map(m) =>
      var rm := Retyped(v).m;
      forall k | k in m
        ensures (Supported(rm[k]) <==> NoLists(m[k])) && (NoLists(m[k]) ==> rm[k] == m[k])
      {
        EncodesAgainIff(m[k]);
        EncodesIff(Retyped(m[k]));
      }
      assert Supported(Map(rm)) <==> NoLists(v);
      if NoLists(v) { assert rm == m; }
    case List(e, items) => TypeOfRetyped(items[0]);
    case _ =>
  }

  // A list of one byte is encoded and decoded, and cannot be encoded again.
  lemma ListOnlyOnce()
    ensures var v, r := List(AnyT, [U8(1)]), List(U8T, [U8(1)]);
            Encode(v).Ok? && Decode(Encode(v).value) == Ok(r) && Encode(r) == Err
  {
    var v := List(AnyT, [U8(1)]);
    RoundTripIff(v);
    assert Retyped(v).items == [U8(1)];
  }

  // ---- the code ----

  lemma DecodeNeverFails(j: Json)
    ensures Decode(j) != Err
  {
  }

  lemma EncodeMapIs(m: map<string, Value>, fields: map<string, Json>)
    requires fields.Keys == m.Keys && forall k :: k in m ==> Encode(m[k]) == Ok(fields[k])
    ensures Encode(Map(m)) == Ok(if fields == map[] then EMPTY else EMPTY.(m := JsonMap(fields)))
  {
    if m != map[] {
      var em := map k | k in m :: Encode(m[k]).value;
      assert em == fields;
    }
  }

  lemma EncodeListIs(items: seq<Value>, slice: seq<Json>)
    requires |slice| == |items| && forall i :: 0 <= i < |items| ==> Encode(items[i]) == Ok(slice[i])
    ensures Encode(List(AnyT, items)) == Ok(if slice == [] then EMPTY else EMPTY.(slice := JsonSlice(slice)))
  {
    if items != [] {
      assert slice == seq(|items|, i requires 0 <= i < |items| => Encode(items[i]).value);
    }
  }

  // MarshalJSON (lines 77-126): the loops fill a map and a slice.
  method Marshal(v: Value) returns (r: Result<Json>)
    ensures r == Encode(v)
    decreases v
  {
    match v
    case Map(m) =>
      var fields: map<string, Json> := map[];
      var rest := m.Keys;
      while rest != {}
        invariant rest <= m.Keys && fields.Keys == m.Keys - rest
        invariant forall k :: k in fields ==> Encode(m[k]) == Ok(fields[k])
        decreases rest
      {
        var key :| key in rest;
        rest := rest - {key};
        var nested := Marshal(m[key]);
        EncodesIff(m[key]);
        if !nested.Ok? {
          return Err;
        }
        fields := fields[key := nested.value];
      }
      // omitempty
      EncodeMapIs(m, fields);
      r := Ok(if fields == map[] then EMPTY else EMPTY.(m := JsonMap(fields)));
    case List(AnyT, items) =>
      var slice: seq<Json> := [];
      for i := 0 to |items|
        invariant |slice| == i && forall k :: 0 <= k < i ==> Encode(items[k]) == Ok(slice[k])
      {
        var nested := Marshal(items[i]);
        EncodesIff(items[i]);
        if !nested.Ok? {
          return Err;
        }
        slice := slice + [nested.value];
      }
      EncodeListIs(items, slice);
      r := Ok(if slice == [] then EMPTY else EMPTY.(slice := JsonSlice(slice)));
    case U8(n) => r := Ok(EMPTY.(u8 := Some(n)));
    case I16(n) => r := Ok(EMPTY.(i16 := Some(n)));
    case I32(n) => r := Ok(EMPTY.(i32 := Some(n)));
    case I64(n) => r := Ok(EMPTY.(i64 := Some(n)));
    case F32(f) => r := if f.Finite? then Ok(EMPTY.(f32 := Some(f))) else Err;
    case F64(f) => r := if f.Finite? then Ok(EMPTY.(f64 := Some(f))) else Err;
    case Str(s) => r := Ok(EMPTY.(str := Some(s)));
    case _ => r := Err;
  }

  method SliceOf(es: seq<Json>) returns (r: Result<Value>)
    ensures r == DecodeSlice(es)
    decreases es
  {
    if es == [] {
      return Ok(List(AnyT, []));
    }
    var v0 := ValueOf(es[0]);
    if !v0.Ok? || TypeOf(v0.value) == NoType {
      return Panic;
    }
    var elemType := TypeOf(v0.value);
    var sl := [];
    for i := 0 to |es|
      invariant |sl| == i && forall k :: 0 <= k < i ==> Decode(es[k]) == Ok(sl[k]) && TypeOf(sl[k]) == elemType
    {
      var v := ValueOf(es[i]);
      if !v.Ok? || TypeOf(v.value) != elemType {
        return Panic;
      }
      sl := sl + [v.value];
    }
    assert DecodeSlice(es).Ok? && DecodeSlice(es).value.items == sl;
    r := Ok(List(elemType, sl));
  }

  // jsonNbtValueInternal.Value: a slice takes its type from its first element, which is decoded twice.
  method ValueOf(j: Json) returns (r: Result<Value>)
    ensures r == Decode(j)
    decreases j
  {
    if j.u8.Some? {
      return Ok(U8(j.u8.value));
    } else if j.i16.Some? {
      return Ok(I16(j.i16.value));
    } else if j.i32.Some? {
      return Ok(I32(j.i32.value));
    } else if j.i64.Some? {
      return Ok(I64(j.i64.value));
    } else if j.f32.Some? {
      return Ok(F32(j.f32.value));
    } else if j.f64.Some? {
      return Ok(F64(j.f64.value));
    } else if j.str.Some? {
      return Ok(Str(j.str.value));
    } else if j.m.JsonMap? {
      var fields := j.m.fields;
      var m: map<string, Value> := map[];
      var rest := fields.Keys;
      while rest != {}
        invariant rest <= fields.Keys && m.Keys == fields.Keys - rest
        invariant forall k :: k in m ==> Decode(fields[k]) == Ok(m[k])
        decreases rest
      {
        var key :| key in rest;
        rest := rest - {key};
        var v := ValueOf(fields[key]);
        if !v.Ok? {
          return Panic;
        }
        m := m[key := v.value];
      }
      assert m == Decode(j).value.m;
      r := Ok(Map(m));
    } else if j.slice.JsonSlice? {
      r := SliceOf(j.slice.items);
    } else {
      r := Ok(Nil);
    }
  }

  // jsonNbtValue.
  class JsonNbtValue {
    var value: Value

    constructor (value: Value)
      ensures this.value == value
    {
      this.value := value;
    }

    method MarshalJSON() returns (r: Result<Json>)
      ensures r == Encode(value)
    {
      r := Marshal(value);
    }

    // What is decoded is assigned, unless the text is malformed (None), which is an error, or decoding panics.
    method UnmarshalJSON(data: Option<Json>) returns (r: Result<()>)
      modifies this
      ensures r == if data.None? then Err else if Decode(data.value).Ok? then Ok(()) else Panic
      ensures value == if r.Ok? then Decode(data.value).value else old(value)
    {
      if data.None? {
        return Err;
      }
      var v := ValueOf(data.value);
      DecodeNeverFails(data.value);
      if !v.Ok? {
        return Panic;
      }
      value := v.value;
      r := Ok(());
    }
  }
}
