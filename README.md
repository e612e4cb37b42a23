# structmap in Dafny

A model of `StructToMap` from the Go package `structmap`. The function turns a struct
value into a `map[string]interface{}`, and each field's struct tag (for example
`json:"name,omitempty"`) steers how that field is mapped. The model has four parts:

- **Values** (`values.dfy`): an explicit, finite datatype stands in for Go reflection.
  - A `Value` has a kind and a payload: struct, pointer, signed or unsigned integer, float, complex, string, bool, collection, interface, or an unsupported kind.
  - It also carries the zero-argument methods of its type, each with the outputs a call returns.
  - A `Field` has a name, an exported flag, its tags as namespace → tag value, and a value.
  - `Out` holds the generic values written into the result.
  - `IsZero` follows `reflect.Value.IsZero` as Go defined it before 1.22, and is proved to hold exactly of the zero value of the value's type (`ZeroOf`).
- **Tags** (`tags.dfy`): the option words and flag bits, reading a tag (`ReadTag` is the specification, `TagsReader` is the loop), and `strings.Split` on commas together with its inverse `Join`.
- **Hook** (`hook.dfy`): the override hook. A field's type may expose the method named by the caller, returning a `(string, value)` pair. A non-empty key returned that way replaces generic mapping for the field.
- **StructMap** (`structmap.dfy`): the conversion itself.
  - The specification is the function `Convert`. It is a fold of `FieldStep` over the fields, and `FieldStep` calls `Dispatch`, the switch on the field's kind.
  - The method `StructToMap` is the source's loop. It fills the result one field at a time, recurses into nested structs and merges their results with key-by-key loops (`MergeDive`, `MergeDotted`). It is proved to return exactly `Convert`.
  - The merge loops take the nested keys in an arbitrary order, which shows the result does not depend on Go's map iteration order.

`properties.dfy` proves the documented behaviour of the conversion:
- which fields are skipped;
- key and flag parsing;
- wildcard strings;
- the three ways of merging a nested struct;
- the override hook;
- fail-fast errors;
- last-write-wins overlaying of fields;
- where every result key comes from.

`scenarios.dfy` proves the package's documented examples on concrete structs.

Calling a method through reflection becomes data: the `Value` stores, for each of its type's methods, the outputs a call with no arguments returns.

`MethodByName` finds a method of any arity, and calling one that needs arguments with none panics. The model keeps only zero-argument methods.

`callFunc` has two separate checks (structmap.go:216 and structmap.go:219), so the model has two error kinds for a bad override method: `BadOverrideCount` and `BadOverrideFirst`.

## Model

| member | source | states |
|---|---|---|
| Values.ZeroOfIsZero | structmap.go:95 | IsZero holds exactly when the value equals the zero value of its type (`ZeroOf`: every payload zeroed, a struct field by field, a pointer nil, an interface nil) |
| Values.ZeroFieldsAreZero | structmap.go:95 | a struct is zero exactly when each of its fields equals its type's zero value |
| Values.AsInterface | structmap.go:150 | `.Interface()` gives nil exactly for a nil interface; an interface otherwise yields the value it holds, and any other value yields itself |
| Values.Deref | structmap.go:98-103 | `Elem()` on a non-nil pointer gives its target; any other value, a nil pointer included, is left as it is |
| Tags.OptionFlag | structmap.go:177-188 | one token sets a flag exactly when it is one of the five option words; an option word's flag is a single bit, one of 1, 2, 4, 8, 16, and no token sets a bit outside the five flags |
| Tags.FlagsOf | structmap.go:176-189 | the OR over no tokens is 0, and the OR over any tokens sets no bit outside the five flags |
| Tags.OptionFlagBits | structmap.go:11-27 | distinct option words set disjoint, non-zero flags within the five flag bits; an unrecognised token sets none |
| Tags.Split | structmap.go:173 | the tag value splits into at least one comma-free piece, and joining the pieces with commas gives the value back |
| Tags.SplitJoin | structmap.go:173 | splitting a comma-joined list of comma-free tokens gives exactly those tokens |
| Tags.FirstTokenIsPrefix | structmap.go:173-174 | the key is the whole tag value when it has no comma, otherwise the part before its first comma |
| Tags.FlagsOfTokens | structmap.go:176-189 | an option's flag is set exactly when its word is one of the tokens, the key token included; no other bit is ever set |
| Tags.ReadTag | structmap.go:159-192 | a missing tag gives key "" with the ignore flag; otherwise the key is the first comma-separated token and each flag is set exactly when its option word is among the tokens |
| Tags.TagsReader | structmap.go:159-192 | the flag-accumulating loop returns exactly ReadTag's key and flags |
| Hook.CallFunc | structmap.go:214-227 | an error exactly when the call does not return two outputs (count error) or its first output is not a string (first-output error); otherwise the string is the key and the second output, as an interface, is the value |
| Hook.AssignValueWithMethod | structmap.go:194-210 | an empty method name or a type without the method is the no-op ("", nil); otherwise the result, error or (key, value) alike, is exactly CallFunc's on the method's outputs, so every error is an override-signature error |
| StructMap.DottedKeys | structmap.go:126-129 | every nested key k is written at tagVal + "." + k with its nested value, and no other key is written |
| StructMap.DottedKeyInjective | structmap.go:128 | distinct nested keys get distinct dotted keys, so the dotted merge never overwrites its own writes |
| StructMap.DottedInsert | structmap.go:127-129 | adding one nested key adds exactly its dotted key to the dotted merge |
| StructMap.DottedStep | structmap.go:127-129 | one iteration of the dotted loop writes one dotted key, whatever key it picks next |
| StructMap.ErrorIsFinal | structmap.go:105-108 | once a prefix of the fields fails, the whole conversion fails with that error: nothing after it is looked at |
| StructMap.MergeDive | structmap.go:122-125 | copying the nested keys one by one, in any order, produces the result map overlaid with the nested map |
| StructMap.MergeDotted | structmap.go:126-129 | writing tagVal + "." + k for each nested key, in any order, produces the result map overlaid with the dotted nested map |
| StructMap.StructToMap | structmap.go:66-155 | the imperative conversion (input checks, field loop, skips, dereference, hook, kind switch, recursion, merges) returns exactly Convert's result or error |
| StructMap.AssignByKind | structmap.go:114-151 | the kind switch of one field updates the result exactly as Dispatch specifies, nested conversion and its error included |
| StructMap.Convert | structmap.go:66-78 | a nil pointer input fails with the nil-input error; a non-struct after one dereference fails with the not-a-struct error; a struct input can fail only with an override-signature error |
| StructMap.ConvertFields | structmap.go:81-152 | no fields give the empty map; the field loop fails only with an override-signature error, never with an input error, since nested conversions are only started on structs |
| StructMap.FieldStep | structmap.go:82-112 | one field's step never removes a key from the map built so far, and fails only with an override-signature error |
| StructMap.Dispatch | structmap.go:114-151 | the kind switch never removes a key, and fails only when a nested struct's conversion fails with an override-signature error |
| StructMapProperties.InputValidation | structmap.go:70-78 | a nil pointer input is a nil-input error; an input that is not a struct after at most one dereference is a not-a-struct error |
| StructMapProperties.DoublePointerInput | structmap.go:70-78 | a pointer to a pointer is dereferenced only once and so is rejected as not a struct |
| StructMapProperties.SkippedField | structmap.go:85-101 | an unexported field, an ignored field, an omitempty field with a zero value, or a nil pointer field leaves the result unchanged |
| StructMapProperties.MissingTagIgnored | structmap.go:89-92 | a field without the namespace tag reads as ("", ignore) and contributes nothing |
| StructMapProperties.OmitEmptyKeepsNonZero | structmap.go:95-103 | omitempty does not skip a non-zero field: an exported, non-ignored, non-zero field is processed |
| StructMapProperties.OverrideError | structmap.go:105-108 | an error from the hook on a processed field is the error of that field's step |
| StructMapProperties.OverrideWins | structmap.go:109-112 | a non-empty override key writes key → value and nothing else, whatever the field's kind |
| StructMapProperties.ReachedDispatch | structmap.go:98-114 | a processed field whose hook returns an empty key is handled by the kind switch on the dereferenced value |
| StructMapProperties.PointerDereferencedOnce | structmap.go:98-103 | when the pointed-to value is not itself a pointer, a non-nil pointer field acts as the same field holding the pointed-to value, unless omitempty skips that value for being zero |
| StructMapProperties.StringField | structmap.go:139-144 | a string is stored under the key as "%" + s + "%" with the wildcard option and as s without it |
| StructMapProperties.WildcardOnlyStrings | structmap.go:139-144 | the wildcard flag changes nothing for a field that is not a string |
| StructMapProperties.OmitEmptyNotDispatched | structmap.go:95-151 | flags that differ only in omitempty give the same kind switch for every value: omitempty matters only at the zero-value skip |
| StructMapProperties.ScalarFields | structmap.go:114-150 | integers, unsigned integers, floats, booleans, complex numbers, collections and interfaces are stored under the key as their generic value |
| StructMapProperties.UnsupportedKinds | structmap.go:114-151 | kinds the switch has no case for (pointer after one dereference, func, uintptr, unsafe pointer) leave the result unchanged |
| StructMapProperties.NestedError | structmap.go:118-121 | a failing nested conversion fails the field with the nested error |
| StructMapProperties.NestedMerge | structmap.go:117-132 | dive copies every nested key over the result; otherwise dotted writes every nested key under tagVal + "." and no other key; otherwise the nested map is stored at tagVal; dive wins over dotted |
| StructMapProperties.FieldOverlay | structmap.go:81-152 | a field's step overlays the map the same field builds from nothing onto the map so far, and fails with the same error exactly when that does |
| StructMapProperties.DispatchOverlay | structmap.go:114-151 | the kind switch overlays its own map onto the result so far, and fails exactly when it fails on an empty result |
| StructMapProperties.FieldKeys | structmap.go:109-151 | a key in the map after a field's step was already there or comes from that field |
| StructMapProperties.ResultKeys | structmap.go:81-152 | every result key is a tag key of an exported, non-ignored field, an override key, or a nested key, possibly prefixed with tagVal + "." |
| StructMapProperties.LastFieldWins | structmap.go:81-152 | a later field's keys overwrite an earlier field's; the earlier keys it does not write survive unchanged |
| StructMapProperties.FirstErrorWins | structmap.go:105-121 | the first failing field's error is the error of the whole conversion |
| Scenarios.DiveExample | structmap.go:38-52 | A{AA `aa`, B `b,dive`{C `c`}} maps to {aa, c} |
| Scenarios.DottedExample | structmap.go:53-65 | A{AA `aa`, B `b,dotted`{C `c`}} maps to {aa, b.c} |
| Scenarios.SubmapExample | structmap.go:117-132 | without dive or dotted, B maps to the submap {b: {c}} |
| Scenarios.OverrideExample | structmap.go:105-112 | a method returning ("custom", 42) writes custom → 42 and nothing under the field's own or nested keys |
| Scenarios.OverrideDisabledExample | structmap.go:194-197 | the same value with no method name converts generically |
| Scenarios.OverrideSignatureErrors | structmap.go:214-221 | three outputs, or a non-string first output, make the whole conversion fail |
| Scenarios.InputErrorExamples | structmap.go:70-78 | a nil pointer and a bare integer are rejected |

## Left out

- Reflection itself (`reflect.ValueOf`, `Type().Field`, `Tag.Lookup`, `MethodByName().Call`): replaced by the `Value` datatype. A struct tag is a map from namespace to tag value, and a method is the outputs of calling it.
- Panics of the reflective call are not modelled. Go panics on an override method that needs arguments, on a method found on the static type of a nil interface field, and on a value method called through a nil pointer left after the one dereference (a `**T` field whose inner `*T` is nil). The model has only zero-argument methods, and for a nil interface or a nil pointer it returns the stored outputs.
- `IsZero` keeps Go's pre-1.22 rule: a float or complex negative zero is not zero, and blank `_` struct fields count. Since Go 1.22 both count as zero, so on a current toolchain an omitempty float field holding -0.0 is skipped by Go but written by the model.
- `IsZero` of slices, arrays, maps, channels and unsupported kinds is a flag on the value, because their contents are not modelled.
- Floats and complex numbers are opaque bit patterns passed through unchanged, because no arithmetic is done on them.
- The conversion of integers to `int64` and `uint64`: integers are unbounded `int` and `nat`, because the widening never loses a value.
- Error message text: errors are four error kinds, because the messages are only formatted strings.
- Slices, arrays, maps and channels are stored as the reflected value itself (`OReflect`). Their contents are never inspected.
- Cyclic values (a pointer chain that leads back to itself, such as `p.Next == p`): the datatype holds only finite values, so it cannot build one. The Go code has no guard and recurses forever on such a value. Recursive types with finite values, such as `struct{ Next *T }`, are modelled.
- A top-level input passed as an interface holding a pointer is the same as passing the pointer, so it is not modelled separately.
- The `MappedStruct` named type: the result is a plain `map<string, Out>`.
