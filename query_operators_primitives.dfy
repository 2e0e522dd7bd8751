/**
 * Query operators: one-key documents with the comparison operator as key and
 * the value passed through unchanged.
 */
module QueryOperators {
  import opened Bson

  function QOLessThan(value: Value): (r: Value)
    ensures SingleOperand(r, "$lt") == Some(value)
  {
    Op("$lt", value)
  }

  function QOLessEqualThan(value: Value): (r: Value)
    ensures SingleOperand(r, "$lte") == Some(value)
  {
    Op("$lte", value)
  }
}
