/** The override hook: a named zero-argument method of a field's type that
    supplies the field's key and value itself (assignValueWithMethod and
    callFunc in structmap.go). */
module Hook {
  import opened Values

  /** The number of outputs an override method must return. */
  const MethodResultsTotal := 2

  /** What the hook yields: an empty key means "no override". */
  datatype Override = Override(key: string, value: Out)

  const NoOverride := Override("", ONil)

  /** The errors a bad override method causes: the wrong number of outputs,
      or a first output that is not a string. */
  predicate SignatureError(e: Error) {
    e == BadOverrideCount || e == BadOverrideFirst
  }

  /** callFunc: checks the outputs of a call of the override method and, when
      they are a (string, value) pair, returns them as key and value. */
  function CallFunc(results: seq<Value>): (r: Result<Override>)
    ensures r.Err? <==> |results| != MethodResultsTotal || !results[0].kind.Str?
    ensures |results| != MethodResultsTotal ==> r == Err(BadOverrideCount)
    ensures |results| == MethodResultsTotal && !results[0].kind.Str? ==> r == Err(BadOverrideFirst)
    ensures r.Ok? ==> results[0].kind == Str(r.value.key) && r.value.value == AsInterface(results[1])
  {
    if |results| != MethodResultsTotal then Err(BadOverrideCount)
    else if !results[0].kind.Str? then Err(BadOverrideFirst)
    else Ok(Override(results[0].kind.s, AsInterface(results[1])))
  }

  /** assignValueWithMethod: an empty method name, or a value whose type has
      no method of that name, is a no-op; otherwise the method is called and
      its outputs are checked by CallFunc. */
  function AssignValueWithMethod(v: Value, methodName: string): (r: Result<Override>)
    ensures methodName == "" || methodName !in v.methods ==> r == Ok(NoOverride)
    ensures r.Err? <==> methodName != "" && methodName in v.methods && CallFunc(v.methods[methodName]).Err?
    ensures methodName != "" && methodName in v.methods ==> r == CallFunc(v.methods[methodName])
    ensures r.Err? ==> SignatureError(r.error)
  {
    if methodName == "" then Ok(NoOverride)
    else if methodName !in v.methods then Ok(NoOverride)
    else CallFunc(v.methods[methodName])
  }
}
