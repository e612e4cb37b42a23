/** The runtime values that StructToMap inspects, and the generic values it
    produces. Go's reflection is replaced by an explicit, finite datatype: a
    value knows its kind, its payload and the zero-argument methods of its type
    (with the outputs calling them yields). */
module Values {

  datatype Option<+T> = None | Some(value: T)

  /** The ways a conversion can fail. Go reports these as formatted error
      strings; only their kind is kept. */
  datatype Error =
    | NilInput          // the input is a nil pointer
    | NotStruct         // the input, after one dereference, is not a struct
    | BadOverrideCount  // the override method does not return exactly two outputs
    | BadOverrideFirst  // the override method's first output is not a string

  datatype Result<+T> = Ok(value: T) | Err(error: Error)

  /** Slices, arrays, maps and channels: stored as they are, never inspected. */
  datatype CollectionKind = Slice | Array | MapKind | Chan

  /** Kinds the conversion has no case for. */
  datatype OtherKind = Func | Uintptr | UnsafePointer

  /** A runtime value: the methods its type exposes, and what it holds.
      `methods[m]` is the list of outputs that calling method `m` with no
      arguments returns. */
  datatype Value = Value(methods: map<string, seq<Value>>, kind: Kind)

  datatype Kind =
    | Struct(fields: seq<Field>)
    | Ptr(target: Option<Value>)                          // None is a nil pointer
    | Int(i: int)                                         // int, int8 … int64
    | Uint(u: nat)                                        // uint, uint8 … uint64
    | Float(bits: nat)                                    // float32/float64, by bit pattern
    | Complex(re: nat, im: nat)                           // complex64/complex128, by bit patterns
    | Str(s: string)
    | Bool(b: bool)
    | Collection(coll: CollectionKind, zero: bool, id: nat) // `zero`: nil, or an all-zero array
    | Iface(dynamic: Option<Value>)                        // None is a nil interface
    | Other(other: OtherKind, zero: bool, id: nat)

  /** One field of a struct: its name, whether it is exported, its tags as
      namespace -> tag value, and its value. */
  datatype Field = Field(name: string, exported: bool, tags: map<string, string>, value: Value)

  /** The generic values put into the result map. */
  datatype Out =
    | OInt(i: int)
    | OUint(u: nat)
    | OFloat(bits: nat)
    | OComplex(re: nat, im: nat)
    | OString(s: string)
    | OBool(b: bool)
    | OMap(m: map<string, Out>)  // a nested struct's result, stored as a submap
    | OReflect(v: Value)         // the reflected value itself (slices, arrays, maps, channels)
    | OAny(v: Value)             // a concrete value behind an interface{}
    | ONil                       // a nil interface{}

  /** Go's reflect.Value.IsZero: the value equals the zero value of its type.
      Floats are compared by bit pattern, as Go did before 1.22 (so -0.0 is not
      zero), and every struct field counts. */
  predicate IsZero(v: Value)
    decreases v
  {
    match v.kind
    case Struct(fields) => forall i :: 0 <= i < |fields| ==> IsZero(fields[i].value)
    case Ptr(target) => target.None?
    case Int(i) => i == 0
    case Uint(u) => u == 0
    case Float(bits) => bits == 0
    case Complex(re, im) => re == 0 && im == 0
    case Str(s) => s == ""
    case Bool(b) => !b
    case Collection(_, zero, _) => zero
    case Iface(dynamic) => dynamic.None?
    case Other(_, zero, _) => zero
  }

  /** reflect.Value.Interface(): an interface value yields what it holds,
      any other value yields itself. */
  function AsInterface(v: Value): (r: Out)
    ensures r == ONil <==> v.kind.Iface? && v.kind.dynamic.None?
    ensures r != ONil ==> r.OAny? && (if v.kind.Iface? then v.kind.dynamic == Some(r.v) else r.v == v)
  {
    match v.kind
    case Iface(None) => ONil
    case Iface(Some(d)) => OAny(d)
    case _ => OAny(v)
  }

  /** The value a pointer refers to after one dereference; any other value,
      nil pointers included, is returned unchanged. */
  function Deref(v: Value): (r: Value)
    ensures v.kind.Ptr? && v.kind.target.Some? ==> r == v.kind.target.value
    ensures !(v.kind.Ptr? && v.kind.target.Some?) ==> r == v
  {
    if v.kind.Ptr? && v.kind.target.Some? then v.kind.target.value else v
  }

  /** The zero value of `v`'s type: every payload replaced by its zero, field
      by field in a struct. A collection or an unsupported value keeps its
      identity and is marked zero; the methods of the type are kept. */
  function ZeroOf(v: Value): Value
    decreases v
  {
    match v.kind
    case Struct(fields) => Value(v.methods, Struct(ZeroFields(fields)))
    case Ptr(_) => Value(v.methods, Ptr(None))
    case Int(_) => Value(v.methods, Int(0))
    case Uint(_) => Value(v.methods, Uint(0))
    case Float(_) => Value(v.methods, Float(0))
    case Complex(_, _) => Value(v.methods, Complex(0, 0))
    case Str(_) => Value(v.methods, Str(""))
    case Bool(_) => Value(v.methods, Bool(false))
    case Collection(coll, _, id) => Value(v.methods, Collection(coll, true, id))
    case Iface(_) => Value(v.methods, Iface(None))
    case Other(other, _, id) => Value(v.methods, Other(other, true, id))
  }

  /** The fields of a struct, each holding the zero value of its type. */
  function ZeroFields(fields: seq<Field>): seq<Field>
    decreases fields
  {
    if fields == [] then [] else [fields[0].(value := ZeroOf(fields[0].value))] + ZeroFields(fields[1..])
  }

  /** IsZero holds exactly of the zero value of a value's type. */
  lemma {:induction false} ZeroOfIsZero(v: Value)
    ensures IsZero(v) <==> v == ZeroOf(v)
    decreases v
  {
    if v.kind.Struct? {
      ZeroFieldsAreZero(v.kind.fields);
    }
  }

  /** A struct's fields all hold zero values exactly when they equal their
      zeroed copies. */
  lemma {:induction false} ZeroFieldsAreZero(fields: seq<Field>)
    ensures (forall i :: 0 <= i < |fields| ==> IsZero(fields[i].value)) <==> fields == ZeroFields(fields)
    decreases fields
  {
    if fields != [] {
      var head, tail := fields[0], fields[1..];
      ZeroOfIsZero(head.value);
      ZeroFieldsAreZero(tail);
      assert fields == [head] + tail;
      var z := [head.(value := ZeroOf(head.value))] + ZeroFields(tail);
      assert fields == z <==> head.value == ZeroOf(head.value) && tail == ZeroFields(tail) by {
        if fields == z {
          assert fields[0] == z[0];
          assert fields[1..] == z[1..];
        }
      }
      assert (forall i :: 0 <= i < |fields| ==> IsZero(fields[i].value))
         <==> IsZero(head.value) && (forall i :: 0 <= i < |tail| ==> IsZero(tail[i].value)) by {
        forall i | 0 < i < |fields| ensures fields[i] == tail[i - 1] { }
      }
    }
  }
}
