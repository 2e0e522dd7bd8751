/**
 * Expressions composed from the primitive operator constructors.
 */
module OperatorsComplex {
  import opened Bson
  import opened OperatorsPrimitives

  /** `$convert` of `what` to `"double"`, with 0 both on a conversion error and on null. */
  function APOConvertToDoubleOrZero(what: Value): (r: Value)
    ensures ArgKeys(r, "$convert") == {"input", "to", "onError", "onNull"}
    ensures Arg(r, "$convert", "input") == Some(what)
    ensures Arg(r, "$convert", "to") == Some(Str("double"))
    ensures Arg(r, "$convert", "onError") == Some(Int(0))
    ensures Arg(r, "$convert", "onNull") == Some(Int(0))
  {
    APOConvertErrorableNullable(what, "double", Int(0), Int(0))
  }

  /**
   * `$reduce` over `list` from the empty string; each step concatenates the
   * accumulator, a separator that is empty while the accumulator is still
   * empty and `sep` afterwards, and the current item.
   */
  function APOJoin(list: Value, sep: Value): (r: Value)
    ensures ArgKeys(r, "$reduce") == {"input", "initialValue", "in"}
    ensures Arg(r, "$reduce", "input") == Some(list)
    ensures Arg(r, "$reduce", "initialValue") == Some(Str(""))
    ensures Arg(r, "$reduce", "in").Some?
    ensures var step := SingleOperand(Arg(r, "$reduce", "in").value, "$concat");
      && step.Some? && step.value.Arr? && |step.value.items| == 3
      && step.value.items[0] == Str("$$value")
      && step.value.items[2] == Str("$$this")
      && ArgKeys(step.value.items[1], "$cond") == {"if", "then", "else"}
      && Arg(step.value.items[1], "$cond", "then") == Some(Str(""))
      && Arg(step.value.items[1], "$cond", "else") == Some(sep)
      && Arg(step.value.items[1], "$cond", "if").Some?
      && SingleOperand(Arg(step.value.items[1], "$cond", "if").value, "$eq") == Some(Arr([Str("$$value"), Str("")]))
  {
    APOReduce(list, Str(""),
      APOConcat([Str("$$value"), APOCond(APOEqual(Str("$$value"), Str("")), Str(""), sep), Str("$$this")]))
  }

  /** `$cond` that picks `a` when `cmpExprA > cmpExprB` and `b` otherwise. */
  function APOMaxWithCmpExpr(cmpExprA: Value, cmpExprB: Value, a: Value, b: Value): (r: Value)
    ensures ArgKeys(r, "$cond") == {"if", "then", "else"}
    ensures Arg(r, "$cond", "if").Some?
    ensures SingleOperand(Arg(r, "$cond", "if").value, "$gt") == Some(Arr([cmpExprA, cmpExprB]))
    ensures Arg(r, "$cond", "then") == Some(a)
    ensures Arg(r, "$cond", "else") == Some(b)
  {
    APOCond(APOGreater(cmpExprA, cmpExprB), a, b)
  }

  /** True when the `$filter` of `input` by `cond` (item named `itemName`) has a size greater than 0. */
  function APOAny(input: Value, itemName: string, cond: Value): (r: Value)
    ensures var cmp := SingleOperand(r, "$gt");
      && cmp.Some? && cmp.value.Arr? && |cmp.value.items| == 2
      && cmp.value.items[1] == Int(0)
      && SingleOperand(cmp.value.items[0], "$size").Some?
      && var filter := SingleOperand(cmp.value.items[0], "$size").value;
      && ArgKeys(filter, "$filter") == {"input", "as", "cond"}
      && Arg(filter, "$filter", "input") == Some(input)
      && Arg(filter, "$filter", "as") == Some(Str(itemName))
      && Arg(filter, "$filter", "cond") == Some(cond)
  {
    APOGreater(APOSize(APOFilter(input, itemName, cond)), Int(0))
  }
}
