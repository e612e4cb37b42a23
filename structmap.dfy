/** StructToMap: converting a struct into a map from keys to generic values,
    steered by each field's tag. The functions below are the specification
    (one conversion, one field, one kind switch); the method StructToMap is
    the loop of structmap.go, proved to compute them. */
module StructMap {
  import opened Values
  import opened Tags
  import opened Hook

  /** The keys of a nested result, each prefixed with `prefix + "."`. */
  function Dotted(prefix: string, deep: map<string, Out>): map<string, Out>
  {
    forall k, k' | k in deep && k' in deep && DottedKey(prefix, k) == DottedKey(prefix, k') ensures k == k' {
      DottedKeyInjective(prefix, k, k');
    }
    map k | k in deep :: DottedKey(prefix, k) := deep[k]
  }

  /** Every nested key `k` lands at `prefix + "." + k` with its value, and
      nothing else lands anywhere. */
  lemma DottedKeys(prefix: string, deep: map<string, Out>)
    ensures forall k :: k in deep ==> DottedKey(prefix, k) in Dotted(prefix, deep) && Dotted(prefix, deep)[DottedKey(prefix, k)] == deep[k]
    ensures forall k :: k in Dotted(prefix, deep) ==> exists k0 :: k0 in deep && k == DottedKey(prefix, k0)
  {
    forall k | k in deep ensures Dotted(prefix, deep)[DottedKey(prefix, k)] == deep[k] {
      forall k' | k' in deep && DottedKey(prefix, k') == DottedKey(prefix, k) ensures k' == k {
        DottedKeyInjective(prefix, k', k);
      }
    }
  }

  /** The key `prefix + "." + k` that the dotted merge writes for `k`. */
  function DottedKey(prefix: string, k: string): string {
    prefix + "." + k
  }

  /** Dotted prefixing is injective, so the dotted merge never writes two
      nested keys to the same place. */
  lemma DottedKeyInjective(prefix: string, k: string, k': string)
    requires DottedKey(prefix, k) == DottedKey(prefix, k')
    ensures k == k'
  {
    assert k == DottedKey(prefix, k)[|prefix| + 1..];
    assert k' == DottedKey(prefix, k')[|prefix| + 1..];
  }

  /** Adding one nested key adds one dotted key. */
  lemma DottedInsert(prefix: string, deep: map<string, Out>, k: string, v: Out)
    requires k !in deep
    ensures Dotted(prefix, deep[k := v]) == Dotted(prefix, deep)[DottedKey(prefix, k) := v]
  {
    var lhs, rhs := Dotted(prefix, deep[k := v]), Dotted(prefix, deep)[DottedKey(prefix, k) := v];
    DottedKeys(prefix, deep[k := v]);
    DottedKeys(prefix, deep);
    forall dk | dk in lhs ensures dk in rhs && lhs[dk] == rhs[dk] {
      var k0 :| k0 in deep[k := v] && dk == DottedKey(prefix, k0);
      if k0 != k {
        if dk == DottedKey(prefix, k) {
          DottedKeyInjective(prefix, k0, k);
        }
      }
    }
    forall dk | dk in rhs ensures dk in lhs {
    }
  }

  /** One step of the dotted merge loop. */
  lemma DottedStep(result: map<string, Out>, prefix: string, deep: map<string, Out>, pending: set<string>, k: string)
    requires k in pending && pending <= deep.Keys
    ensures result + Dotted(prefix, deep - (pending - {k}))
         == (result + Dotted(prefix, deep - pending))[DottedKey(prefix, k) := deep[k]]
  {
    assert deep - (pending - {k}) == (deep - pending)[k := deep[k]];
    DottedInsert(prefix, deep - pending, k, deep[k]);
  }

  /** The result of converting `data`: a nil pointer and a non-struct (after
      one dereference) are errors; otherwise the fields are folded in order. */
  function Convert(data: Value, tag: string, methodName: string): (r: Result<map<string, Out>>)
    ensures data.kind.Ptr? && data.kind.target.None? ==> r == Err(NilInput)
    ensures !(data.kind.Ptr? && data.kind.target.None?) && !Deref(data).kind.Struct? ==> r == Err(NotStruct)
    ensures Deref(data).kind.Struct? && r.Err? ==> SignatureError(r.error)
    decreases data, 1
  {
    if data.kind.Ptr? && data.kind.target.None? then Err(NilInput)
    else
      var v := Deref(data);
      if !v.kind.Struct? then Err(NotStruct)
      else ConvertFields(v.kind.fields, tag, methodName)
  }

  /** The map built by the fields `fields`, processed left to right; the first
      error ends the fold. */
  function ConvertFields(fields: seq<Field>, tag: string, methodName: string): (r: Result<map<string, Out>>)
    ensures fields == [] ==> r == Ok(map[])
    ensures r.Err? ==> SignatureError(r.error)
    decreases fields
  {
    if fields == [] then Ok(map[])
    else
      match ConvertFields(fields[..|fields| - 1], tag, methodName)
      case Err(e) => Err(e)
      case Ok(acc) => FieldStep(acc, fields[|fields| - 1], tag, methodName)
  }

  /** What one field does to the map built so far: the skips, the pointer
      dereference, the override hook, and then the kind switch. */
  function FieldStep(acc: map<string, Out>, field: Field, tag: string, methodName: string): (r: Result<map<string, Out>>)
    ensures r.Ok? ==> acc.Keys <= r.value.Keys
    ensures r.Err? ==> SignatureError(r.error)
    decreases field
  {
    if !field.exported then Ok(acc)
    else
      var d := ReadTag(field.tags, tag);
      if Has(d.flags, FlagIgnore) then Ok(acc)
      else if Has(d.flags, FlagOmitEmpty) && IsZero(field.value) then Ok(acc)
      else if field.value.kind.Ptr? && field.value.kind.target.None? then Ok(acc)
      else
        var w := Deref(field.value);
        match AssignValueWithMethod(w, methodName)
        case Err(e) => Err(e)
        case Ok(o) =>
          if o.key != "" then Ok(acc[o.key := o.value])
          else Dispatch(acc, w, d, tag, methodName)
  }

  /** The kind switch for a field value `w` under directive `d`. */
  function Dispatch(acc: map<string, Out>, w: Value, d: Directive, tag: string, methodName: string): (r: Result<map<string, Out>>)
    ensures r.Ok? ==> acc.Keys <= r.value.Keys
    ensures r.Err? ==> SignatureError(r.error)
    decreases w, 2
  {
    match w.kind
    case Collection(_, _, _) => Ok(acc[d.key := OReflect(w)])
    case Struct(_) =>
      (match Convert(w, tag, methodName)
       case Err(e) => Err(e)
       case Ok(deep) =>
         if Has(d.flags, FlagDive) then Ok(acc + deep)
         else if Has(d.flags, FlagDotted) then Ok(acc + Dotted(d.key, deep))
         else Ok(acc[d.key := OMap(deep)]))
    case Int(i) => Ok(acc[d.key := OInt(i)])
    case Uint(u) => Ok(acc[d.key := OUint(u)])
    case Float(bits) => Ok(acc[d.key := OFloat(bits)])
    case Str(s) => Ok(acc[d.key := OString(if Has(d.flags, FlagWildcard) then "%" + s + "%" else s)])
    case Bool(b) => Ok(acc[d.key := OBool(b)])
    case Complex(re, im) => Ok(acc[d.key := OComplex(re, im)])
    case Iface(_) => Ok(acc[d.key := AsInterface(w)])
    case Ptr(_) => Ok(acc)
    case Other(_, _, _) => Ok(acc)
  }

  /** Once a prefix of the fields has failed, the whole fold fails with the
      same error: no partial result survives. */
  lemma {:induction false} ErrorIsFinal(fields: seq<Field>, n: nat, tag: string, methodName: string)
    requires n <= |fields|
    requires ConvertFields(fields[..n], tag, methodName).Err?
    ensures ConvertFields(fields, tag, methodName) == ConvertFields(fields[..n], tag, methodName)
    decreases |fields| - n
  {
    if n < |fields| {
      assert fields[..n + 1][..n] == fields[..n];
      ErrorIsFinal(fields, n + 1, tag, methodName);
    } else {
      assert fields[..n] == fields;
    }
  }

  /** The dive merge: every key of `deep` is copied into `result` as it is,
      in whatever order the keys are visited. */
  method MergeDive(result: map<string, Out>, deep: map<string, Out>) returns (r: map<string, Out>)
    ensures r == result + deep
  {
    r := result;
    var pending := deep.Keys;
    while pending != {}
      invariant pending <= deep.Keys
      invariant r == result + (deep - pending)
      decreases pending
    {
      var k :| k in pending;
      r := r[k := deep[k]];
      assert deep - (pending - {k}) == (deep - pending)[k := deep[k]];
      pending := pending - {k};
    }
    assert deep - pending == deep;
  }

  /** The dotted merge: every key `k` of `deep` is written as
      `prefix + "." + k`, in whatever order the keys are visited. */
  method MergeDotted(result: map<string, Out>, prefix: string, deep: map<string, Out>) returns (r: map<string, Out>)
    ensures r == result + Dotted(prefix, deep)
  {
    r := result;
    var pending := deep.Keys;
    assert deep - pending == map[];
    assert Dotted(prefix, map[]) == map[];
    while pending != {}
      invariant pending <= deep.Keys
      invariant r == result + Dotted(prefix, deep - pending)
      decreases pending
    {
      var k :| k in pending;
      DottedStep(result, prefix, deep, pending, k);
      r := r[DottedKey(prefix, k) := deep[k]];
      pending := pending - {k};
    }
    assert deep - pending == deep;
  }

  /** StructToMap(data, tag, method): fills a fresh map, field by field. */
  method StructToMap(data: Value, tag: string, methodName: string) returns (r: Result<map<string, Out>>)
    ensures r == Convert(data, tag, methodName)
    decreases data, 1
  {
    var reflected := data;
    if reflected.kind.Ptr? {
      if reflected.kind.target.None? {
        return Err(NilInput);
      }
      reflected := reflected.kind.target.value;
    }
    if !reflected.kind.Struct? {
      return Err(NotStruct);
    }
    var fields := reflected.kind.fields;
    var result: map<string, Out> := map[];
    for i := 0 to |fields|
      invariant ConvertFields(fields[..i], tag, methodName) == Ok(result)
    {
      assert fields[..i + 1][..i] == fields[..i];
      var field := fields[i];
      assert ConvertFields(fields[..i + 1], tag, methodName) == FieldStep(result, field, tag, methodName);
      if !field.exported {
        continue;
      }
      var tagVal, flag := TagsReader(field.tags, tag);
      if Has(flag, FlagIgnore) {
        continue;
      }
      var fieldValue := field.value;
      if Has(flag, FlagOmitEmpty) && IsZero(fieldValue) {
        continue;
      }
      if fieldValue.kind.Ptr? {
        if fieldValue.kind.target.None? {
          continue;
        }
        fieldValue := fieldValue.kind.target.value;
      }
      var hook := AssignValueWithMethod(fieldValue, methodName);
      if hook.Err? {
        ErrorIsFinal(fields, i + 1, tag, methodName);
        return Err(hook.error);
      }
      if hook.value.key != "" {
        result := result[hook.value.key := hook.value.value];
        continue;
      }
      assert FieldStep(result, field, tag, methodName) == Dispatch(result, fieldValue, Directive(tagVal, flag), tag, methodName);
      var next := AssignByKind(result, fieldValue, tagVal, flag, tag, methodName);
      if next.Err? {
        ErrorIsFinal(fields, i + 1, tag, methodName);
        return Err(next.error);
      }
      result := next.value;
    }
    assert fields[..|fields|] == fields;
    return Ok(result);
  }

  /** The kind switch of StructToMap for a field value that the override hook
      left alone: scalars and collections are stored under the tag's key,
      nested structs are converted and merged. */
  method AssignByKind(result: map<string, Out>, fieldValue: Value, tagVal: string, flag: bv8, tag: string, methodName: string)
    returns (r: Result<map<string, Out>>)
    ensures r == Dispatch(result, fieldValue, Directive(tagVal, flag), tag, methodName)
    decreases fieldValue, 2
  {
    r := Ok(result);
    match fieldValue.kind {
      case Collection(_, _, _) =>
        r := Ok(result[tagVal := OReflect(fieldValue)]);
      case Struct(_) =>
        var deepRes := StructToMap(fieldValue, tag, methodName);
        if deepRes.Err? {
          return Err(deepRes.error);
        }
        var merged;
        if Has(flag, FlagDive) {
          merged := MergeDive(result, deepRes.value);
        } else if Has(flag, FlagDotted) {
          merged := MergeDotted(result, tagVal, deepRes.value);
        } else {
          merged := result[tagVal := OMap(deepRes.value)];
        }
        r := Ok(merged);
      case Int(n) =>
        r := Ok(result[tagVal := OInt(n)]);
      case Uint(n) =>
        r := Ok(result[tagVal := OUint(n)]);
      case Float(bits) =>
        r := Ok(result[tagVal := OFloat(bits)]);
      case Str(s) =>
        if Has(flag, FlagWildcard) {
          r := Ok(result[tagVal := OString("%" + s + "%")]);
        } else {
          r := Ok(result[tagVal := OString(s)]);
        }
      case Bool(b) =>
        r := Ok(result[tagVal := OBool(b)]);
      case Complex(re, im) =>
        r := Ok(result[tagVal := OComplex(re, im)]);
      case Iface(_) =>
        r := Ok(result[tagVal := AsInterface(fieldValue)]);
      case Ptr(_) =>
      case Other(_, _, _) =>
    }
  }
}
