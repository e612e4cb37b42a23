/** The worked examples of StructToMap's documentation, and the override
    hook on concrete values. */
module Scenarios {
  import opened Values
  import opened Tags
  import opened Hook
  import opened StructMap
  import opened StructMapProperties

  function Plain(k: Kind): Value {
    Value(map[], k)
  }

  /** type B struct { C string `json:"c"` }, with C = y. */
  function InnerB(y: string): Value {
    Plain(Struct([Field("C", true, map["json" := "c"], Plain(Str(y)))]))
  }

  /** type A struct { AA string `json:"aa"`; B B `json:"<bTag>"` }, with AA = x and B.C = y. */
  function OuterA(bTag: string, x: string, y: string): Value {
    Plain(Struct([
      Field("AA", true, map["json" := "aa"], Plain(Str(x))),
      Field("B", true, map["json" := bTag], InnerB(y))]))
  }

  /** A tag value without options reads as its key and no flags. */
  lemma PlainTag(key: string)
    requires ',' !in key && key !in OptionWords
    ensures ReadTag(map["json" := key], "json") == Directive(key, 0)
  {
    assert Split(key) == [key];
    assert FlagsOf([key]) == FlagsOf([]) | OptionFlag(key);
  }

  /** A tag value "key,option". */
  lemma OptionTag(key: string, option: string)
    requires ',' !in key && ',' !in option && key !in OptionWords
    ensures ReadTag(map["json" := key + "," + option], "json") == Directive(key, OptionFlag(option))
  {
    SplitJoin([key, option]);
    assert Join([key, option]) == key + "," + option;
    assert [key, option][..1] == [key];
    assert FlagsOf([key]) == FlagsOf([]) | OptionFlag(key);
  }

  /** Two fields fold left to right. */
  lemma TwoFields(f0: Field, f1: Field, tag: string, methodName: string)
    ensures FieldStep(map[], f0, tag, methodName).Err? ==>
              ConvertFields([f0, f1], tag, methodName) == FieldStep(map[], f0, tag, methodName)
    ensures FieldStep(map[], f0, tag, methodName).Ok? ==>
              ConvertFields([f0, f1], tag, methodName) == FieldStep(FieldStep(map[], f0, tag, methodName).value, f1, tag, methodName)
  {
    assert [f0, f1][..1] == [f0];
    OneField(f0, tag, methodName);
  }

  lemma OneField(f0: Field, tag: string, methodName: string)
    ensures ConvertFields([f0], tag, methodName) == FieldStep(map[], f0, tag, methodName)
  {
    assert [f0][..0] == [];
  }

  /** Converting B gives {c: "y"}; the first field of A gives {aa: "x"}. */
  lemma InnerAndFirst(x: string, y: string)
    ensures Convert(InnerB(y), "json", "") == Ok(map["c" := OString(y)])
    ensures FieldStep(map[], OuterA("b", x, y).kind.fields[0], "json", "") == Ok(map["aa" := OString(x)])
  {
    PlainTag("c");
    PlainTag("aa");
    OneField(InnerB(y).kind.fields[0], "json", "");
  }

  /** The second field of A under the dive option. */
  lemma SecondFieldDive(acc: map<string, Out>, x: string, y: string)
    ensures FieldStep(acc, OuterA("b" + "," + OptionDive, x, y).kind.fields[1], "json", "") == Ok(acc + map["c" := OString(y)])
  {
    var f := OuterA("b" + "," + OptionDive, x, y).kind.fields[1];
    OptionTag("b", OptionDive);
    assert ReadTag(f.tags, "json") == Directive("b", FlagDive);
    assert Reached(f, "json");
    assert HookDefers(InnerB(y), "");
    ReachedDispatch(acc, f, "json", "");
    InnerAndFirst(x, y);
  }

  /** The second field of A under the dotted option. */
  lemma SecondFieldDotted(acc: map<string, Out>, x: string, y: string)
    ensures FieldStep(acc, OuterA("b" + "," + OptionDotted, x, y).kind.fields[1], "json", "") == Ok(acc + map["b.c" := OString(y)])
  {
    var f := OuterA("b" + "," + OptionDotted, x, y).kind.fields[1];
    OptionTag("b", OptionDotted);
    assert ReadTag(f.tags, "json") == Directive("b", FlagDotted);
    assert Reached(f, "json");
    assert HookDefers(InnerB(y), "");
    ReachedDispatch(acc, f, "json", "");
    InnerAndFirst(x, y);
    DottedInner(OString(y));
  }

  /** The dotted form of B's result. */
  lemma DottedInner(v: Out)
    ensures Dotted("b", map["c" := v]) == map["b.c" := v]
  {
    var m := Dotted("b", map["c" := v]);
    DottedKeys("b", map["c" := v]);
    assert DottedKey("b", "c") == "b.c";
    forall dk | dk in m ensures dk == "b.c" {
      var k0 :| k0 in map["c" := v] && dk == DottedKey("b", k0);
    }
  }

  lemma DiveExample(x: string, y: string)
    ensures Convert(OuterA("b" + "," + OptionDive, x, y), "json", "") == Ok(map["aa" := OString(x), "c" := OString(y)])
  {
    var fs := OuterA("b" + "," + OptionDive, x, y).kind.fields;
    var first := map["aa" := OString(x)];
    InnerAndFirst(x, y);
    SecondFieldDive(first, x, y);
    TwoFields(fs[0], fs[1], "json", "");
    assert map["aa" := OString(x)] + map["c" := OString(y)] == map["aa" := OString(x), "c" := OString(y)];
  }

  lemma DottedExample(x: string, y: string)
    ensures Convert(OuterA("b" + "," + OptionDotted, x, y), "json", "") == Ok(map["aa" := OString(x), "b.c" := OString(y)])
  {
    DottedFields(x, y);
    assert map["aa" := OString(x)] + map["b.c" := OString(y)] == map["aa" := OString(x), "b.c" := OString(y)];
  }

  /** The fold over A's two fields under the dotted option. */
  lemma DottedFields(x: string, y: string)
    ensures ConvertFields(OuterA("b" + "," + OptionDotted, x, y).kind.fields, "json", "")
         == Ok(map["aa" := OString(x)] + map["b.c" := OString(y)])
  {
    var fs := OuterA("b" + "," + OptionDotted, x, y).kind.fields;
    InnerAndFirst(x, y);
    assert FieldStep(map[], fs[0], "json", "") == Ok(map["aa" := OString(x)]);
    SecondFieldDotted(map["aa" := OString(x)], x, y);
    TwoFields(fs[0], fs[1], "json", "");
  }

  lemma SubmapExample(x: string, y: string)
    ensures Convert(OuterA("b", x, y), "json", "") == Ok(map["aa" := OString(x), "b" := OMap(map["c" := OString(y)])])
  {
    var fs := OuterA("b", x, y).kind.fields;
    InnerAndFirst(x, y);
    PlainTag("b");
    TwoFields(fs[0], fs[1], "json", "");
  }

  /** A field whose type has a method M returning `results`. */
  function WithHook(results: seq<Value>): Value {
    Plain(Struct([Field("F", true, map["json" := "f"],
                        Value(map["M" := results], Struct([Field("G", true, map["json" := "g"], Plain(Int(1)))])))]))
  }

  /** M returning ("custom", 42) writes custom -> 42 and nothing under the
      field's own key or its nested keys. */
  lemma OverrideExample()
    ensures Convert(WithHook([Plain(Str("custom")), Plain(Int(42))]), "json", "M")
         == Ok(map["custom" := OAny(Plain(Int(42)))])
  {
    PlainTag("f");
    OneField(WithHook([Plain(Str("custom")), Plain(Int(42))]).kind.fields[0], "json", "M");
  }

  /** The same value without the hook enabled converts generically. */
  lemma OverrideDisabledExample()
    ensures Convert(WithHook([Plain(Str("custom")), Plain(Int(42))]), "json", "")
         == Ok(map["f" := OMap(map["g" := OInt(1)])])
  {
    var f := WithHook([Plain(Str("custom")), Plain(Int(42))]).kind.fields[0];
    PlainTag("f");
    PlainTag("g");
    OneField(f.value.kind.fields[0], "json", "");
    OneField(f, "json", "");
  }

  /** A method returning three outputs, or a non-string first output, is an error. */
  lemma OverrideSignatureErrors()
    ensures Convert(WithHook([Plain(Str("custom")), Plain(Int(42)), Plain(Int(0))]), "json", "M") == Err(BadOverrideCount)
    ensures Convert(WithHook([Plain(Int(7)), Plain(Int(42))]), "json", "M") == Err(BadOverrideFirst)
  {
    PlainTag("f");
    OneField(WithHook([Plain(Str("custom")), Plain(Int(42)), Plain(Int(0))]).kind.fields[0], "json", "M");
    OneField(WithHook([Plain(Int(7)), Plain(Int(42))]).kind.fields[0], "json", "M");
  }

  /** A nil pointer and a bare number are rejected. */
  lemma InputErrorExamples()
    ensures Convert(Plain(Ptr(None)), "json", "") == Err(NilInput)
    ensures Convert(Plain(Int(3)), "json", "") == Err(NotStruct)
  {
  }
}
