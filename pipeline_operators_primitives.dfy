/**
 * Aggregation expression operators. Every constructor returns a one-key
 * document named after its operator and passes its operands through
 * unchanged: variadic constructors keep the argument list and its order,
 * binary ones pack their two operands into a two-element array in argument
 * order, and the rest store their arguments under fixed sub-keys.
 */
module OperatorsPrimitives {
  import opened Bson

  function APOAdd(things: seq<Value>): (r: Value)
    ensures SingleOperand(r, "$add") == Some(Arr(things))
  {
    Op("$add", Arr(things))
  }

  function APOSubtract(a: Value, b: Value): (r: Value)
    ensures SingleOperand(r, "$subtract") == Some(Arr([a, b]))
  {
    Op("$subtract", Arr([a, b]))
  }

  function APODivide(a: Value, b: Value): (r: Value)
    ensures SingleOperand(r, "$divide") == Some(Arr([a, b]))
  {
    Op("$divide", Arr([a, b]))
  }

  function APOFloor(what: Value): (r: Value)
    ensures SingleOperand(r, "$floor") == Some(what)
  {
    Op("$floor", what)
  }

  function APOMin(what: seq<Value>): (r: Value)
    ensures SingleOperand(r, "$min") == Some(Arr(what))
  {
    Op("$min", Arr(what))
  }

  function APOMax(what: seq<Value>): (r: Value)
    ensures SingleOperand(r, "$max") == Some(Arr(what))
  {
    Op("$max", Arr(what))
  }

  function APOAnd(conds: seq<Value>): (r: Value)
    ensures SingleOperand(r, "$and") == Some(Arr(conds))
  {
    Op("$and", Arr(conds))
  }

  function APOOr(conds: seq<Value>): (r: Value)
    ensures SingleOperand(r, "$or") == Some(Arr(conds))
  {
    Op("$or", Arr(conds))
  }

  function APOEqual(a: Value, b: Value): (r: Value)
    ensures SingleOperand(r, "$eq") == Some(Arr([a, b]))
  {
    Op("$eq", Arr([a, b]))
  }

  function APOGreater(a: Value, b: Value): (r: Value)
    ensures SingleOperand(r, "$gt") == Some(Arr([a, b]))
  {
    Op("$gt", Arr([a, b]))
  }

  /** The pattern travels as a regular expression with no options; the options are a sibling string. */
  function APORegexFind(input: Value, regex: string, options: string): (r: Value)
    ensures ArgKeys(r, "$regexFind") == {"input", "regex", "options"}
    ensures Arg(r, "$regexFind", "input") == Some(input)
    ensures Arg(r, "$regexFind", "regex") == Some(Regex(regex, ""))
    ensures Arg(r, "$regexFind", "options") == Some(Str(options))
  {
    Op("$regexFind", Doc(map["input" := input, "regex" := Regex(regex, ""), "options" := Str(options)]))
  }

  function APOConcat(what: seq<Value>): (r: Value)
    ensures SingleOperand(r, "$concat") == Some(Arr(what))
  {
    Op("$concat", Arr(what))
  }

  function APOSetUnion(what: seq<Value>): (r: Value)
    ensures SingleOperand(r, "$setUnion") == Some(Arr(what))
  {
    Op("$setUnion", Arr(what))
  }

  function APOMap(input: Value, asName: string, inExpr: Value): (r: Value)
    ensures ArgKeys(r, "$map") == {"input", "as", "in"}
    ensures Arg(r, "$map", "input") == Some(input)
    ensures Arg(r, "$map", "as") == Some(Str(asName))
    ensures Arg(r, "$map", "in") == Some(inExpr)
  {
    Op("$map", Doc(map["input" := input, "as" := Str(asName), "in" := inExpr]))
  }

  function APOFilter(input: Value, asName: string, cond: Value): (r: Value)
    ensures ArgKeys(r, "$filter") == {"input", "as", "cond"}
    ensures Arg(r, "$filter", "input") == Some(input)
    ensures Arg(r, "$filter", "as") == Some(Str(asName))
    ensures Arg(r, "$filter", "cond") == Some(cond)
  {
    Op("$filter", Doc(map["input" := input, "as" := Str(asName), "cond" := cond]))
  }

  function APOReduce(input: Value, initialValue: Value, inExpr: Value): (r: Value)
    ensures ArgKeys(r, "$reduce") == {"input", "initialValue", "in"}
    ensures Arg(r, "$reduce", "input") == Some(input)
    ensures Arg(r, "$reduce", "initialValue") == Some(initialValue)
    ensures Arg(r, "$reduce", "in") == Some(inExpr)
  {
    Op("$reduce", Doc(map["input" := input, "initialValue" := initialValue, "in" := inExpr]))
  }

  function APOSize(input: Value): (r: Value)
    ensures SingleOperand(r, "$size") == Some(input)
  {
    Op("$size", input)
  }

  function APOArrayElemAt(input: Value, index: Value): (r: Value)
    ensures SingleOperand(r, "$arrayElemAt") == Some(Arr([input, index]))
  {
    Op("$arrayElemAt", Arr([input, index]))
  }

  function APOMergeObjects(what: seq<Value>): (r: Value)
    ensures SingleOperand(r, "$mergeObjects") == Some(Arr(what))
  {
    Op("$mergeObjects", Arr(what))
  }

  function APOIfNull(what: Value, altValue: Value): (r: Value)
    ensures SingleOperand(r, "$ifNull") == Some(Arr([what, altValue]))
  {
    Op("$ifNull", Arr([what, altValue]))
  }

  /** `cond`, `ifTrue` and `ifFalse` land under `if`, `then` and `else`. */
  function APOCond(cond: Value, ifTrue: Value, ifFalse: Value): (r: Value)
    ensures ArgKeys(r, "$cond") == {"if", "then", "else"}
    ensures Arg(r, "$cond", "if") == Some(cond)
    ensures Arg(r, "$cond", "then") == Some(ifTrue)
    ensures Arg(r, "$cond", "else") == Some(ifFalse)
  {
    Op("$cond", Doc(map["if" := cond, "then" := ifTrue, "else" := ifFalse]))
  }

  function APOLet(vars: Value, inExpr: Value): (r: Value)
    ensures ArgKeys(r, "$let") == {"vars", "in"}
    ensures Arg(r, "$let", "vars") == Some(vars)
    ensures Arg(r, "$let", "in") == Some(inExpr)
  {
    Op("$let", Doc(map["vars" := vars, "in" := inExpr]))
  }

  function APODateFromString(what: Value, format: string): (r: Value)
    ensures ArgKeys(r, "$dateFromString") == {"dateString", "format"}
    ensures Arg(r, "$dateFromString", "dateString") == Some(what)
    ensures Arg(r, "$dateFromString", "format") == Some(Str(format))
  {
    Op("$dateFromString", Doc(map["dateString" := what, "format" := Str(format)]))
  }

  function APODateFromNullableString(what: Value, format: string, onNull: Value): (r: Value)
    ensures ArgKeys(r, "$dateFromString") == {"dateString", "format", "onNull"}
    ensures Arg(r, "$dateFromString", "dateString") == Some(what)
    ensures Arg(r, "$dateFromString", "format") == Some(Str(format))
    ensures Arg(r, "$dateFromString", "onNull") == Some(onNull)
  {
    Op("$dateFromString", Doc(map["dateString" := what, "format" := Str(format), "onNull" := onNull]))
  }

  function APOConvert(input: Value, to: string): (r: Value)
    ensures ArgKeys(r, "$convert") == {"input", "to"}
    ensures Arg(r, "$convert", "input") == Some(input)
    ensures Arg(r, "$convert", "to") == Some(Str(to))
  {
    Op("$convert", Doc(map["input" := input, "to" := Str(to)]))
  }

  function APOConvertErrorable(input: Value, to: string, onError: Value): (r: Value)
    ensures ArgKeys(r, "$convert") == {"input", "to", "onError"}
    ensures Arg(r, "$convert", "input") == Some(input)
    ensures Arg(r, "$convert", "to") == Some(Str(to))
    ensures Arg(r, "$convert", "onError") == Some(onError)
  {
    Op("$convert", Doc(map["input" := input, "to" := Str(to), "onError" := onError]))
  }

  function APOConvertNullable(input: Value, to: string, onNull: Value): (r: Value)
    ensures ArgKeys(r, "$convert") == {"input", "to", "onNull"}
    ensures Arg(r, "$convert", "input") == Some(input)
    ensures Arg(r, "$convert", "to") == Some(Str(to))
    ensures Arg(r, "$convert", "onNull") == Some(onNull)
  {
    Op("$convert", Doc(map["input" := input, "to" := Str(to), "onNull" := onNull]))
  }

  function APOConvertErrorableNullable(input: Value, to: string, onError: Value, onNull: Value): (r: Value)
    ensures ArgKeys(r, "$convert") == {"input", "to", "onError", "onNull"}
    ensures Arg(r, "$convert", "input") == Some(input)
    ensures Arg(r, "$convert", "to") == Some(Str(to))
    ensures Arg(r, "$convert", "onError") == Some(onError)
    ensures Arg(r, "$convert", "onNull") == Some(onNull)
  {
    Op("$convert", Doc(map["input" := input, "to" := Str(to), "onError" := onError, "onNull" := onNull]))
  }

  function APOToDouble(input: Value): (r: Value)
    ensures SingleOperand(r, "$toDouble") == Some(input)
  {
    Op("$toDouble", input)
  }

  function APOSum(what: Value): (r: Value)
    ensures SingleOperand(r, "$sum") == Some(what)
  {
    Op("$sum", what)
  }

  /** The accumulator form of `$max`: one operand, not an argument list. */
  function APOMaxAggr(what: Value): (r: Value)
    ensures SingleOperand(r, "$max") == Some(what)
  {
    Op("$max", what)
  }

  /** The four `$convert` variants share `input` and `to` and differ only in the optional keys. */
  lemma ConvertVariantsAgree(input: Value, to: string, onError: Value, onNull: Value)
    ensures ArgMap(APOConvertErrorable(input, to, onError), "$convert")
         == ArgMap(APOConvert(input, to), "$convert")["onError" := onError]
    ensures ArgMap(APOConvertNullable(input, to, onNull), "$convert")
         == ArgMap(APOConvert(input, to), "$convert")["onNull" := onNull]
    ensures ArgMap(APOConvertErrorableNullable(input, to, onError, onNull), "$convert")
         == ArgMap(APOConvert(input, to), "$convert")["onError" := onError]["onNull" := onNull]
  {
  }

  /** The nullable date parser is the plain one plus an `onNull` key. */
  lemma DateFromNullableStringExtends(what: Value, format: string, onNull: Value)
    ensures ArgMap(APODateFromNullableString(what, format, onNull), "$dateFromString")
         == ArgMap(APODateFromString(what, format), "$dateFromString")["onNull" := onNull]
  {
  }

  /** Both `$max` forms share the operator name; the expression form wraps its arguments in an array. */
  lemma MaxFormsAgree(what: seq<Value>)
    ensures APOMax(what) == APOMaxAggr(Arr(what))
  {
  }
}
