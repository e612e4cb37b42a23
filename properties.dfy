/** What StructToMap promises, stated over its specification functions:
    which fields are skipped, what each kind of field contributes, how nested
    results are merged, where keys come from, and how errors propagate. */
module StructMapProperties {
  import opened Values
  import opened Tags
  import opened Hook
  import opened StructMap

  /** A field that gets past the skips of the field loop: exported, not
      ignored (a missing tag counts as ignored), not an omitempty field
      holding a zero value, and not a nil pointer. */
  ghost predicate Reached(field: Field, tag: string) {
    var d := ReadTag(field.tags, tag);
    && field.exported
    && !Has(d.flags, FlagIgnore)
    && !(Has(d.flags, FlagOmitEmpty) && IsZero(field.value))
    && !(field.value.kind.Ptr? && field.value.kind.target.None?)
  }

  /** The hook leaves the field to the kind switch: no error, empty key. */
  ghost predicate HookDefers(w: Value, methodName: string) {
    AssignValueWithMethod(w, methodName).Ok? && AssignValueWithMethod(w, methodName).value.key == ""
  }

  /** The top-level validation: a nil pointer is NilInput, anything that is
      not a struct after one dereference is NotStruct, and a pointer to a
      struct converts exactly as the struct does. */
  lemma InputValidation(data: Value, tag: string, methodName: string)
    ensures data.kind.Ptr? && data.kind.target.None? ==> Convert(data, tag, methodName) == Err(NilInput)
    ensures !(data.kind.Ptr? && data.kind.target.None?) && !Deref(data).kind.Struct? ==>
              Convert(data, tag, methodName) == Err(NotStruct)
    ensures data.kind.Ptr? && data.kind.target.Some? && data.kind.target.value.kind.Struct? ==>
              Convert(data, tag, methodName) == Convert(data.kind.target.value, tag, methodName)
  {
  }

  /** A pointer to a pointer is not a struct: the input is dereferenced once
      and no more. */
  lemma DoublePointerInput(data: Value, tag: string, methodName: string)
    requires data.kind.Ptr? && data.kind.target.Some? && data.kind.target.value.kind.Ptr?
    ensures Convert(data, tag, methodName) == Err(NotStruct)
  {
  }

  /** A field that does not get past the skips leaves the map unchanged,
      whatever its kind, its hook or its flags. In particular a field without
      a tag in the namespace, an unexported field and a nil pointer field
      (with or without omitempty) contribute nothing. */
  lemma SkippedField(acc: map<string, Out>, field: Field, tag: string, methodName: string)
    requires !Reached(field, tag)
    ensures FieldStep(acc, field, tag, methodName) == Ok(acc)
  {
  }

  lemma MissingTagIgnored(acc: map<string, Out>, field: Field, tag: string, methodName: string)
    requires tag !in field.tags
    ensures ReadTag(field.tags, tag) == Directive("", FlagIgnore)
    ensures FieldStep(acc, field, tag, methodName) == Ok(acc)
  {
    SkippedField(acc, field, tag, methodName);
  }

  /** omitempty skips zero values only: a non-zero field is not skipped. */
  lemma OmitEmptyKeepsNonZero(acc: map<string, Out>, field: Field, tag: string, methodName: string)
    requires field.exported && !Has(ReadTag(field.tags, tag).flags, FlagIgnore)
    requires !IsZero(field.value)
    ensures Reached(field, tag)
  {
  }

  /** A reached field whose hook fails makes the field fail with that error. */
  lemma OverrideError(acc: map<string, Out>, field: Field, tag: string, methodName: string)
    requires Reached(field, tag)
    requires AssignValueWithMethod(Deref(field.value), methodName).Err?
    ensures FieldStep(acc, field, tag, methodName) == Err(AssignValueWithMethod(Deref(field.value), methodName).error)
  {
  }

  /** A non-empty override key replaces the kind switch: the field writes
      exactly that key and value, nested structs included (their conversion,
      and any error it would raise, is not attempted). */
  lemma OverrideWins(acc: map<string, Out>, field: Field, tag: string, methodName: string, o: Override)
    requires Reached(field, tag)
    requires AssignValueWithMethod(Deref(field.value), methodName) == Ok(o) && o.key != ""
    ensures FieldStep(acc, field, tag, methodName) == Ok(acc[o.key := o.value])
  {
  }

  /** Without an override the field goes to the kind switch with its tag's
      directive and its value dereferenced once. */
  lemma ReachedDispatch(acc: map<string, Out>, field: Field, tag: string, methodName: string)
    requires Reached(field, tag) && HookDefers(Deref(field.value), methodName)
    ensures FieldStep(acc, field, tag, methodName)
         == Dispatch(acc, Deref(field.value), ReadTag(field.tags, tag), tag, methodName)
  {
  }

  /** A non-nil pointer field behaves as the value it points to (one level):
      unless omitempty would then skip a zero target, the field and the same
      field holding the target directly have the same effect. */
  lemma PointerDereferencedOnce(acc: map<string, Out>, field: Field, tag: string, methodName: string)
    requires field.value.kind.Ptr? && field.value.kind.target.Some?
    requires !field.value.kind.target.value.kind.Ptr?
    requires !Has(ReadTag(field.tags, tag).flags, FlagOmitEmpty) || !IsZero(field.value.kind.target.value)
    ensures FieldStep(acc, field, tag, methodName)
         == FieldStep(acc, field.(value := field.value.kind.target.value), tag, methodName)
  {
  }

  /** A string maps to itself, or to "%" + s + "%" when the wildcard option
      is set, under the tag's key. */
  lemma StringField(acc: map<string, Out>, w: Value, d: Directive, tag: string, methodName: string)
    requires w.kind.Str?
    ensures Dispatch(acc, w, d, tag, methodName)
         == Ok(acc[d.key := OString(if Has(d.flags, FlagWildcard) then "%" + w.kind.s + "%" else w.kind.s)])
  {
  }

  /** The wildcard option has no effect on any other kind. */
  lemma WildcardOnlyStrings(acc: map<string, Out>, w: Value, key: string, flags: bv8, flags': bv8, tag: string, methodName: string)
    requires !w.kind.Str?
    requires flags | FlagWildcard == flags' | FlagWildcard
    ensures Dispatch(acc, w, Directive(key, flags), tag, methodName)
         == Dispatch(acc, w, Directive(key, flags'), tag, methodName)
  {
    if w.kind.Struct? {
      assert Has(flags, FlagDive) == Has(flags', FlagDive);
      assert Has(flags, FlagDotted) == Has(flags', FlagDotted);
    }
  }

  /** Once a field is past the skips, the omitempty flag has no effect on
      the kind switch. */
  lemma OmitEmptyNotDispatched(acc: map<string, Out>, w: Value, key: string, flags: bv8, flags': bv8, tag: string, methodName: string)
    requires flags | FlagOmitEmpty == flags' | FlagOmitEmpty
    ensures Dispatch(acc, w, Directive(key, flags), tag, methodName)
         == Dispatch(acc, w, Directive(key, flags'), tag, methodName)
  {
    if w.kind.Struct? {
      assert Has(flags, FlagDive) == Has(flags', FlagDive);
      assert Has(flags, FlagDotted) == Has(flags', FlagDotted);
    } else if w.kind.Str? {
      assert Has(flags, FlagWildcard) == Has(flags', FlagWildcard);
    }
  }

  /** Numbers, booleans, collections and interfaces are stored under the
      tag's key as their generic form. */
  lemma ScalarFields(acc: map<string, Out>, w: Value, d: Directive, tag: string, methodName: string)
    ensures w.kind.Int? ==> Dispatch(acc, w, d, tag, methodName) == Ok(acc[d.key := OInt(w.kind.i)])
    ensures w.kind.Uint? ==> Dispatch(acc, w, d, tag, methodName) == Ok(acc[d.key := OUint(w.kind.u)])
    ensures w.kind.Float? ==> Dispatch(acc, w, d, tag, methodName) == Ok(acc[d.key := OFloat(w.kind.bits)])
    ensures w.kind.Complex? ==> Dispatch(acc, w, d, tag, methodName) == Ok(acc[d.key := OComplex(w.kind.re, w.kind.im)])
    ensures w.kind.Bool? ==> Dispatch(acc, w, d, tag, methodName) == Ok(acc[d.key := OBool(w.kind.b)])
    ensures w.kind.Collection? ==> Dispatch(acc, w, d, tag, methodName) == Ok(acc[d.key := OReflect(w)])
    ensures w.kind.Iface? ==> Dispatch(acc, w, d, tag, methodName) == Ok(acc[d.key := AsInterface(w)])
  {
  }

  /** Kinds without a case in the switch (a pointer left after the one
      dereference, funcs, uintptrs, unsafe pointers) contribute nothing. */
  lemma UnsupportedKinds(acc: map<string, Out>, w: Value, d: Directive, tag: string, methodName: string)
    requires w.kind.Ptr? || w.kind.Other?
    ensures Dispatch(acc, w, d, tag, methodName) == Ok(acc)
  {
  }

  /** A nested struct whose conversion fails makes the field fail with the
      same error. */
  lemma NestedError(acc: map<string, Out>, w: Value, d: Directive, tag: string, methodName: string)
    requires w.kind.Struct? && Convert(w, tag, methodName).Err?
    ensures Dispatch(acc, w, d, tag, methodName) == Err(Convert(w, tag, methodName).error)
  {
  }

  /** The three ways a nested result `deep` is merged. With dive every nested
      key is written as it is; otherwise with dotted every nested key `k` is
      written as key + "." + k; otherwise the whole result is one submap under
      the key. Keys of the map built so far that the merge does not write keep
      their values. */
  lemma NestedMerge(acc: map<string, Out>, w: Value, d: Directive, tag: string, methodName: string)
    requires w.kind.Struct? && Convert(w, tag, methodName).Ok?
    ensures var deep := Convert(w, tag, methodName).value;
            var r := Dispatch(acc, w, d, tag, methodName);
            && r.Ok?
            && (Has(d.flags, FlagDive) ==>
                  && r.value.Keys == acc.Keys + deep.Keys
                  && (forall k :: k in deep ==> r.value[k] == deep[k])
                  && (forall k :: k in acc && k !in deep ==> r.value[k] == acc[k]))
            && (!Has(d.flags, FlagDive) && Has(d.flags, FlagDotted) ==>
                  && (forall k :: k in deep ==> DottedKey(d.key, k) in r.value && r.value[DottedKey(d.key, k)] == deep[k])
                  && (forall k :: k in r.value ==> k in acc || exists k0 :: k0 in deep && k == DottedKey(d.key, k0))
                  && (forall k :: k in acc && k !in Dotted(d.key, deep) ==> k in r.value && r.value[k] == acc[k]))
            && (!Has(d.flags, FlagDive) && !Has(d.flags, FlagDotted) ==>
                  r.value == acc[d.key := OMap(deep)])
  {
    DottedKeys(d.key, Convert(w, tag, methodName).value);
  }

  /** Each field's effect is an overlay that does not depend on the fields
      before it: a field turns the map built so far into that map updated
      with the map the same field builds from nothing (its keys win), and it
      fails, with the same error, exactly when that does. */
  lemma {:induction false} FieldOverlay(acc: map<string, Out>, field: Field, tag: string, methodName: string)
    ensures FieldStep(acc, field, tag, methodName).Err? <==> FieldStep(map[], field, tag, methodName).Err?
    ensures FieldStep(acc, field, tag, methodName).Err? ==>
              FieldStep(acc, field, tag, methodName) == FieldStep(map[], field, tag, methodName)
    ensures FieldStep(acc, field, tag, methodName).Ok? ==>
              FieldStep(acc, field, tag, methodName).value == acc + FieldStep(map[], field, tag, methodName).value
  {
    if Reached(field, tag) {
      var w := Deref(field.value);
      var d := ReadTag(field.tags, tag);
      var hook := AssignValueWithMethod(w, methodName);
      if hook.Ok? && hook.value.key != "" {
        assert acc[hook.value.key := hook.value.value] == acc + map[hook.value.key := hook.value.value];
      } else if hook.Ok? {
        DispatchOverlay(acc, w, d, tag, methodName);
      }
    } else {
      SkippedField(acc, field, tag, methodName);
      SkippedField(map[], field, tag, methodName);
      assert acc + map[] == acc;
    }
  }

  lemma DispatchOverlay(acc: map<string, Out>, w: Value, d: Directive, tag: string, methodName: string)
    ensures Dispatch(acc, w, d, tag, methodName).Err? <==> Dispatch(map[], w, d, tag, methodName).Err?
    ensures Dispatch(acc, w, d, tag, methodName).Err? ==>
              Dispatch(acc, w, d, tag, methodName) == Dispatch(map[], w, d, tag, methodName)
    ensures Dispatch(acc, w, d, tag, methodName).Ok? ==>
              Dispatch(acc, w, d, tag, methodName).value == acc + Dispatch(map[], w, d, tag, methodName).value
  {
    var r := Dispatch(map[], w, d, tag, methodName);
    if r.Ok? {
      assert acc + map[] == acc;
      if w.kind.Struct? {
        var deep := Convert(w, tag, methodName).value;
        assert map[] + deep == deep;
        assert map[] + Dotted(d.key, deep) == Dotted(d.key, deep);
      }
      if r.value != map[] {
        var k :| k in r.value;
        if !w.kind.Struct? || (!Has(d.flags, FlagDive) && !Has(d.flags, FlagDotted)) {
          assert r.value == map[d.key := r.value[d.key]];
          assert acc[d.key := r.value[d.key]] == acc + map[d.key := r.value[d.key]];
        }
      }
    }
  }

  /** Where keys come from: a key a field writes is its tag's key, its
      override key, or (for a nested struct) a key of the nested result,
      either as it is or prefixed with the tag's key and a dot. Only exported,
      non-ignored fields write keys at all. */
  ghost predicate KeyOrigin(k: string, field: Field, tag: string, methodName: string) {
    var d := ReadTag(field.tags, tag);
    var w := Deref(field.value);
    && field.exported
    && !Has(d.flags, FlagIgnore)
    && (|| k == d.key
        || (AssignValueWithMethod(w, methodName).Ok? && AssignValueWithMethod(w, methodName).value.key == k && k != "")
        || (w.kind.Struct? && Convert(w, tag, methodName).Ok? &&
            (|| k in Convert(w, tag, methodName).value
             || exists k0 :: k0 in Convert(w, tag, methodName).value && k == DottedKey(d.key, k0))))
  }

  lemma FieldKeys(acc: map<string, Out>, field: Field, tag: string, methodName: string)
    requires FieldStep(acc, field, tag, methodName).Ok?
    ensures forall k :: k in FieldStep(acc, field, tag, methodName).value ==> k in acc || KeyOrigin(k, field, tag, methodName)
  {
    if Reached(field, tag) {
      var w := Deref(field.value);
      var d := ReadTag(field.tags, tag);
      if HookDefers(w, methodName) && w.kind.Struct? {
        NestedMerge(acc, w, d, tag, methodName);
      }
    }
  }

  /** Every key of a conversion's result comes from one of the fields, in the
      sense of KeyOrigin. */
  lemma {:induction false} ResultKeys(fields: seq<Field>, tag: string, methodName: string)
    requires ConvertFields(fields, tag, methodName).Ok?
    ensures forall k :: k in ConvertFields(fields, tag, methodName).value ==>
              exists i :: 0 <= i < |fields| && KeyOrigin(k, fields[i], tag, methodName)
    decreases |fields|
  {
    if fields != [] {
      var init := fields[..|fields| - 1];
      var acc := ConvertFields(init, tag, methodName).value;
      ResultKeys(init, tag, methodName);
      FieldKeys(acc, fields[|fields| - 1], tag, methodName);
      forall k | k in ConvertFields(fields, tag, methodName).value
        ensures exists i :: 0 <= i < |fields| && KeyOrigin(k, fields[i], tag, methodName)
      {
        if k in acc {
          var i :| 0 <= i < |init| && KeyOrigin(k, init[i], tag, methodName);
          assert fields[i] == init[i];
        } else {
          assert KeyOrigin(k, fields[|fields| - 1], tag, methodName);
        }
      }
    }
  }

  /** Last write wins: the keys the last field writes carry its values, and
      every other key keeps the value the earlier fields gave it. */
  lemma LastFieldWins(fields: seq<Field>, field: Field, tag: string, methodName: string)
    requires ConvertFields(fields + [field], tag, methodName).Ok?
    ensures ConvertFields(fields, tag, methodName).Ok? && FieldStep(map[], field, tag, methodName).Ok?
    ensures var m := ConvertFields(fields + [field], tag, methodName).value;
            var before := ConvertFields(fields, tag, methodName).value;
            var own := FieldStep(map[], field, tag, methodName).value;
            && m.Keys == before.Keys + own.Keys
            && (forall k :: k in own ==> m[k] == own[k])
            && (forall k :: k in before && k !in own ==> m[k] == before[k])
  {
    assert (fields + [field])[..|fields|] == fields;
    FieldOverlay(ConvertFields(fields, tag, methodName).value, field, tag, methodName);
  }

  /** Fail-fast: when the fields before field `i` succeed and field `i`
      fails, the whole conversion fails with field `i`'s error. */
  lemma FirstErrorWins(fields: seq<Field>, i: nat, tag: string, methodName: string)
    requires i < |fields|
    requires ConvertFields(fields[..i], tag, methodName).Ok?
    requires FieldStep(ConvertFields(fields[..i], tag, methodName).value, fields[i], tag, methodName).Err?
    ensures ConvertFields(fields, tag, methodName)
         == FieldStep(ConvertFields(fields[..i], tag, methodName).value, fields[i], tag, methodName)
  {
    assert fields[..i + 1][..i] == fields[..i];
    ErrorIsFinal(fields, i + 1, tag, methodName);
  }
}
