# mu pipeline builders in Dafny

`mu` is a small Go helper library that builds MongoDB query filters and
aggregation-pipeline documents. Each builder returns a nested key/value value:
a single-key document named after a MongoDB operator (`$match`, `$group`,
`$cond`, `$regexFind`, …), or an array of stages. This project models those
values and builders and proves what they promise about the shape of the result.

- `bson.dfy` (module `Bson`): the value datatype
  `Null | Bool | Int | Str | Regex(pattern, options) | Doc(map) | Arr(seq)`.
  `bson.M` is an unordered Dafny `map` and `bson.A` and other Go slices are
  sequences. Go's `nil` is `Null`. `Op(name, x)` builds the one-key document
  `{name: x}`, and `SingleOperand`, `ArgMap`, `ArgKeys` and `Arg` decode it again.
  Every constructor's contract is stated through these decoders.
- `pipeline_operators_primitives.dfy`, `pipeline_operators_complex.dfy`,
  `query_operators_primitives.dfy`: the expression and query operator
  constructors, and the composites built from them.
- `pipeline_stages_primitives.dfy`: the stage builders and the nil-skipping
  `MAPipeline`. It is a loop proved equal to `Flatten`, a specification function
  with lemmas about splicing, order and length.
- `pipeline_steps.dfy`: the older `MAPipeline` without the nil check. It is
  proved equal to the new one whenever no argument is nil.
- `pipeline_stages_complex.dfy` with `regex_text.dfy`: optional sorting,
  optional paging, the keyword search filter and group-and-count.
  - `regexp.QuoteMeta` is modelled as putting a backslash before each of
    `\.+*?()|[]{}^$`.
  - `strings.Join` is modelled as `Join`.
  - Splitting the search pattern at unescaped bars and unescaping the pieces
    gives back the keyword list.
- `bson_utils.dfy`: `BsonOptionalExtension`, an in-place merge. A Go map is a
  reference, so the document is a class whose `fields` the method reassigns.

`sliceToSliceOfInterface` is not part of this model. An `Arr` value simply
yields its elements.

## Model

| member | source | states |
|---|---|---|
| `Bson.Op` | pipeline_operators_primitives.go:24-28 | the built value is a document with exactly one key, the operator name, holding the operand |
| `Bson.OpRoundTrip` | pipeline_operators_primitives.go:24-28 | decoding a one-key document gives back exactly its name and operand (both directions); it has no operand under any other name |
| `OperatorsPrimitives.APOAdd` | pipeline_operators_primitives.go:24-28 | `$add` is the only key; its operand is the argument list, in order |
| `OperatorsPrimitives.APOSubtract` | pipeline_operators_primitives.go:31-38 | `$subtract` holds the two-element array `[a, b]` |
| `OperatorsPrimitives.APODivide` | pipeline_operators_primitives.go:41-48 | `$divide` holds `[a, b]` |
| `OperatorsPrimitives.APOFloor` | pipeline_operators_primitives.go:51-53 | `$floor` holds its argument unchanged |
| `OperatorsPrimitives.APOMin` | pipeline_operators_primitives.go:56-58 | `$min` holds the argument list, in order |
| `OperatorsPrimitives.APOMax` | pipeline_operators_primitives.go:61-63 | `$max` holds the argument list, in order |
| `OperatorsPrimitives.APOAnd` | pipeline_operators_primitives.go:66-70 | `$and` holds the condition list, in order |
| `OperatorsPrimitives.APOOr` | pipeline_operators_primitives.go:73-77 | `$or` holds the condition list, in order |
| `OperatorsPrimitives.APOEqual` | pipeline_operators_primitives.go:80-82 | `$eq` holds `[a, b]` |
| `OperatorsPrimitives.APOGreater` | pipeline_operators_primitives.go:85-87 | `$gt` holds `[a, b]` |
| `OperatorsPrimitives.APORegexFind` | pipeline_operators_primitives.go:90-96 | `$regexFind` has exactly `input`, `regex`, `options`; the pattern is a regex with empty options, and the options are a separate string |
| `OperatorsPrimitives.APOConcat` | pipeline_operators_primitives.go:99-101 | `$concat` holds the argument list, in order |
| `OperatorsPrimitives.APOSetUnion` | pipeline_operators_primitives.go:104-106 | `$setUnion` holds the argument list, in order |
| `OperatorsPrimitives.APOMap` | pipeline_operators_primitives.go:109-115 | `$map` has exactly `input`, `as`, `in`, holding the arguments |
| `OperatorsPrimitives.APOFilter` | pipeline_operators_primitives.go:118-124 | `$filter` has exactly `input`, `as`, `cond`, holding the arguments |
| `OperatorsPrimitives.APOReduce` | pipeline_operators_primitives.go:127-133 | `$reduce` has exactly `input`, `initialValue`, `in`, holding the arguments |
| `OperatorsPrimitives.APOSize` | pipeline_operators_primitives.go:136-138 | `$size` holds its argument unchanged |
| `OperatorsPrimitives.APOArrayElemAt` | pipeline_operators_primitives.go:141-146 | `$arrayElemAt` holds `[input, index]` |
| `OperatorsPrimitives.APOMergeObjects` | pipeline_operators_primitives.go:149-151 | `$mergeObjects` holds the argument list, in order |
| `OperatorsPrimitives.APOIfNull` | pipeline_operators_primitives.go:154-159 | `$ifNull` holds `[what, altValue]` |
| `OperatorsPrimitives.APOCond` | pipeline_operators_primitives.go:162-168 | `$cond` has exactly `if`, `then`, `else`, holding `cond`, `ifTrue`, `ifFalse` respectively |
| `OperatorsPrimitives.APOLet` | pipeline_operators_primitives.go:171-176 | `$let` has exactly `vars` and `in`, holding the arguments |
| `OperatorsPrimitives.APODateFromString` | pipeline_operators_primitives.go:179-184 | `$dateFromString` has exactly `dateString` and `format` |
| `OperatorsPrimitives.APODateFromNullableString` | pipeline_operators_primitives.go:187-193 | `$dateFromString` has exactly `dateString`, `format` and `onNull` |
| `OperatorsPrimitives.APOConvert` | pipeline_operators_primitives.go:196-201 | `$convert` has exactly `input` and `to` |
| `OperatorsPrimitives.APOConvertErrorable` | pipeline_operators_primitives.go:204-210 | `$convert` has exactly `input`, `to` and `onError` |
| `OperatorsPrimitives.APOConvertNullable` | pipeline_operators_primitives.go:213-219 | `$convert` has exactly `input`, `to` and `onNull` |
| `OperatorsPrimitives.APOConvertErrorableNullable` | pipeline_operators_primitives.go:222-229 | `$convert` has exactly `input`, `to`, `onError` and `onNull` |
| `OperatorsPrimitives.APOToDouble` | pipeline_operators_primitives.go:232-234 | `$toDouble` holds its argument unchanged |
| `OperatorsPrimitives.APOSum` | pipeline_operators_primitives.go:237-239 | `$sum` holds its argument unchanged |
| `OperatorsPrimitives.APOMaxAggr` | pipeline_operators_primitives.go:242-244 | `$max` holds a single operand, not a list |
| `OperatorsPrimitives.ConvertVariantsAgree` | pipeline_operators_primitives.go:196-229 | the four `$convert` variants are the plain one plus `onError`, plus `onNull`, or plus both |
| `OperatorsPrimitives.DateFromNullableStringExtends` | pipeline_operators_primitives.go:179-193 | the nullable date parser is the plain one plus one `onNull` key |
| `OperatorsPrimitives.MaxFormsAgree` | pipeline_operators_primitives.go:61-63 | the variadic `$max` equals the accumulator `$max` applied to the argument array |
| `OperatorsComplex.APOConvertToDoubleOrZero` | pipeline_operators_complex.go:19-21 | `$convert` of the input to `"double"`, with `onError` and `onNull` both 0 |
| `OperatorsComplex.APOJoin` | pipeline_operators_complex.go:24-28 | `$reduce` over the list from `""`; `in` is `$concat` of `"$$value"`, then a `$cond` (if `$eq ["$$value", ""]` then `""` else `sep`), then `"$$this"` |
| `OperatorsComplex.APOMaxWithCmpExpr` | pipeline_operators_complex.go:31-33 | `$cond` with `if: $gt [cmpExprA, cmpExprB]`, `then: a`, `else: b` |
| `OperatorsComplex.APOAny` | pipeline_operators_complex.go:37-39 | `$gt [ $size($filter{input, as: itemName, cond}), 0 ]` |
| `QueryOperators.QOLessThan` | query_operators_primitives.go:23-25 | one-key `{$lt: value}`, value unchanged |
| `QueryOperators.QOLessEqualThan` | query_operators_primitives.go:28-30 | one-key `{$lte: value}`, value unchanged |
| `StagesPrimitives.MAPipeline` | pipeline_stages_primitives.go:25-40 | the loop's output is exactly `Flatten` of the arguments |
| `StagesPrimitives.FlattenConcat` | pipeline_stages_primitives.go:26-39 | flattening a concatenated argument list is the concatenation of the flattened parts (output order follows argument order) |
| `StagesPrimitives.NullStageVanishes` | pipeline_stages_primitives.go:28-29 | a nil argument anywhere contributes nothing |
| `StagesPrimitives.ArraySplicedOneLevel` | pipeline_stages_primitives.go:30-33 | an array argument is spliced element by element in its own order, one level only (nested arrays and nils inside stay as they are) |
| `StagesPrimitives.SingleStageAppended` | pipeline_stages_primitives.go:34-35 | any other argument is appended as one element |
| `StagesPrimitives.FlattenLength` | pipeline_stages_primitives.go:26-39 | output length is the sum of per-argument contributions (0 for nil, the array length, else 1) |
| `StagesPrimitives.FlattenPosition` | pipeline_stages_primitives.go:26-39 | element `j` of argument `i`'s contribution sits right after everything the earlier arguments contributed |
| `StagesPrimitives.FlattenPlainStages` | pipeline_stages_primitives.go:34-35 | a list of plain (non-nil, non-array) stages is returned as it is |
| `StagesPrimitives.APOptionalStage` | pipeline_stages_primitives.go:43-48 | disabled, it is nil and contributes nothing to a pipeline; enabled, it is the stage itself and contributes what the stage does |
| `StagesPrimitives.OptionalStageInPipeline` | pipeline_stages_primitives.go:43-48 | in `MAPipeline` a disabled optional stage disappears; an enabled one behaves as the stage itself |
| `StagesPrimitives.APMatch` | pipeline_stages_primitives.go:51-53 | one-key `$match` with the conditions unchanged |
| `StagesPrimitives.APSort` | pipeline_stages_primitives.go:56-58 | one-key `$sort`, argument unchanged |
| `StagesPrimitives.APLimit` | pipeline_stages_primitives.go:61-63 | one-key `$limit`, argument unchanged |
| `StagesPrimitives.APSkip` | pipeline_stages_primitives.go:66-68 | one-key `$skip`, argument unchanged |
| `StagesPrimitives.APProject` | pipeline_stages_primitives.go:71-73 | one-key `$project`, argument unchanged |
| `StagesPrimitives.APUnset` | pipeline_stages_primitives.go:76-78 | one-key `$unset` holding the argument list, in order |
| `StagesPrimitives.APSet` | pipeline_stages_primitives.go:81-83 | one-key `$set`, argument unchanged |
| `StagesPrimitives.APAddFields` | pipeline_stages_primitives.go:86-88 | one-key `$addFields`, argument unchanged |
| `StagesPrimitives.APUnwind` | pipeline_stages_primitives.go:91-93 | one-key `$unwind` holding the path string |
| `StagesPrimitives.APReplaceWith` | pipeline_stages_primitives.go:96-98 | one-key `$replaceWith`, argument unchanged |
| `StagesPrimitives.APLookupSimple` | pipeline_stages_primitives.go:101-108 | `$lookup` has exactly `from`, `localField`, `foreignField`, `as` |
| `StagesPrimitives.APLookupPipeline` | pipeline_stages_primitives.go:111-118 | `$lookup` has exactly `from`, `let`, `as`, `pipeline` |
| `StagesPrimitives.APGroup` | pipeline_stages_primitives.go:121-123 | one-key `$group`, argument unchanged |
| `StagesPrimitives.APFacet` | pipeline_stages_primitives.go:126-128 | one-key `$facet`, argument unchanged |
| `StagesPrimitives.APCount` | pipeline_stages_primitives.go:131-133 | one-key `$count` holding the field name |
| `Steps.MAPipeline` | pipeline_steps.go:25-38 | with no nil argument, the loop's output is exactly `StepsFlatten` of the arguments |
| `Steps.AgreesWithNilSkippingPipeline` | pipeline_steps.go:25-38 | with no nil argument, the old flatten equals the nil-skipping one |
| `Steps.StepsSplicing` | pipeline_steps.go:28-33 | array arguments are spliced element by element in order; other arguments are appended whole |
| `Steps.StepsLength` | pipeline_steps.go:26-37 | no arguments give an empty array; the length is the sum of contributions |
| `BsonUtils.Extended` | bson_utils.go:23-31 | without `extend` the map is unchanged; with it, the keys are the union, extension values win, and other keys keep their values |
| `BsonUtils.ExtendedIdempotent` | bson_utils.go:25-27 | merging the same extension twice equals merging it once |
| `BsonUtils.BsonOptionalExtension` | bson_utils.go:23-31 | returns `orig` itself; its new fields are `Extended` of the old ones; `extension` is unchanged, even when it is `orig` |
| `RegexText.QuoteMeta` | pipeline_stages_complex.go:76 | every regular expression metacharacter of the result is the second character of an escape pair, and every backslash opens one; the result is never shorter than the keyword (its inverse is `UnquoteQuoteMeta`) |
| `RegexText.Join` | pipeline_stages_complex.go:78 | the result starts with the first part and is as long as all parts plus one separator between each two neighbours; `SplitJoinedPattern` shows splitting at unescaped bars undoes it for escaped parts |
| `RegexText.SearchPattern` | pipeline_stages_complex.go:74-78 | empty for no keywords; otherwise it starts with the first escaped keyword and holds the escaped keywords plus one bar between each two; `PatternRoundTrip` recovers the keywords from it |
| `RegexText.UnquoteQuoteMeta` | pipeline_stages_complex.go:76 | removing the escapes gives back the keyword |
| `RegexText.SplitQuotedPrefix` | pipeline_stages_complex.go:74-78 | an escaped keyword holds no unescaped bar, so splitting never cuts inside it |
| `RegexText.SplitJoinedPattern` | pipeline_stages_complex.go:74-78 | splitting the joined pattern at unescaped bars gives the escaped keywords, in keyword order |
| `RegexText.PatternRoundTrip` | pipeline_stages_complex.go:74-78 | split at unescaped bars, then unescape, and the keyword list is back |
| `StagesComplex.APOptionalSortingStage` | pipeline_stages_complex.go:27-42 | nil exactly when `sortBy` is empty; otherwise `$sort` with the single key `sortBy`, which is -1 exactly when descending and 1 exactly when not |
| `StagesComplex.APOptionalPagingStage` | pipeline_stages_complex.go:45-69 | nil exactly when `page` or `size` is -1; otherwise a `$facet` with exactly `content` and `metadata`, each flattened as `MAPipeline` does |
| `StagesComplex.PagingContent` | pipeline_stages_complex.go:51-54 | the content branch is exactly `$skip page*size` then `$limit size` |
| `StagesComplex.PagingMetadata` | pipeline_stages_complex.go:55-66 | the metadata branch is `$count "total_elements"` then two `$addFields`; `number` is the page and `first` is the literal truth of `page == 0` |
| `StagesComplex.PagingTotalsFields` | pipeline_stages_complex.go:57-61 | the first `$addFields` sets exactly `total_pages`, `size`, `number` |
| `StagesComplex.PagingFlagsFields` | pipeline_stages_complex.go:62-66 | the second `$addFields` sets exactly `empty`, `first`, `last` |
| `StagesComplex.SearchConditions` | pipeline_stages_complex.go:81-86 | one condition per field, in field order, each `{f: {$regex: Regex(pattern, "i")}}` with the same pattern |
| `StagesComplex.QuoteKeywords` | pipeline_stages_complex.go:74-77 | the loop escapes every keyword, in keyword order |
| `StagesComplex.RegexConditions` | pipeline_stages_complex.go:81-86 | the loop builds exactly `SearchConditions` |
| `StagesComplex.SearchFilterAsWritten` | pipeline_stages_complex.go:89 | `$match` of `$or` whose operand is a one-element array holding the condition array, so not every entry is a document |
| `StagesComplex.SearchFilter` | pipeline_stages_complex.go:72-90 | `$match` of `$or` over the conditions themselves; every entry is a document |
| `StagesComplex.APSearchFilterStage` | pipeline_stages_complex.go:72-90 | the code as written builds `SearchFilterAsWritten`, whose `$or` entries are not all documents |
| `StagesComplex.APSearchFilterStageIntended` | pipeline_stages_complex.go:72-90 | with the conditions spread into `$or`, the stage is `SearchFilter`: one document entry per field |
| `StagesComplex.SearchFilterRecoversKeywords` | pipeline_stages_complex.go:74-89 | each field's condition carries the joined pattern, from which the keyword list is recovered |
| `StagesComplex.APGroupAndCountStages` | pipeline_stages_complex.go:93-105 | exactly two stages: `$group` with keys `_id` and `countFieldName` (`{$sum: 1}`; `_id` is `what` unless overwritten), then `$project` with `_id: false`, `whatFieldName: "$_id"`, `countFieldName: true`; when names coincide the later key wins, as the Go compiler evaluates the literal (see Left out) |
| `StagesComplex.GroupAndCountSplices` | pipeline_stages_complex.go:93-105 | passed to `MAPipeline`, group-and-count contributes its two stages in order |

## Left out

- `APOGetCaptureFromRegexMatch` (pipeline_operators_complex.go:42-49) is not modelled. It does not compile: it declares no result type but returns a value, calls its own package as `mu.`, and uses `bson` without importing it.
- What the MongoDB server does with the built documents is not modelled. This covers `$divide`, `$floor`, `$min`, `$reduce`, `$regexFind`, `$convert`, `$dateFromString` and the rest, several of them floating-point. Only the shape of each document is modelled.
- The BSON encoding done by the driver is not modelled. For example, a variadic builder called with no arguments stores a nil slice, which the driver may encode as null; here it is an empty `Arr`. The `primitive.Regex` wire format and Go's `reflect` are abstracted into `Value`.
- A typed nil (such as a nil `bson.M` in an interface) is not distinguished from `Null`. Every Go slice kind counts as an `Arr`.
- Go map iteration order and `bson.M` key order are not modelled; documents are Dafny maps.
- `StagesComplex.APOptionalPagingStage`: `page*size` and `size*page` are unbounded integers here. Go's fixed-width `int` can overflow for huge values.
- `Steps.MAPipeline`: a nil argument makes `reflect.TypeOf(nil).Kind()` panic. This is modelled as a precondition that no argument is nil.
- `BsonUtils.BsonOptionalExtension`: a `Document` is never null. In Go, writing into a nil `orig` map panics when `extend` holds and `extension` is not empty; that case is not modelled.
- `RegexText.QuoteMeta`: the Go function works on bytes and this model on characters. The two agree because every escaped character is ASCII.
- `RegexText.PatternRoundTrip`: requires at least one keyword. With none, the pattern is empty and splitting it yields one empty piece.
- `StagesComplex.APGroupAndCountStages`: when `countFieldName` is `_id`, or `whatFieldName` equals `countFieldName`, the map literals hold one key twice. The Go specification leaves the order of those assignments unspecified. The model takes the Go compiler's in-order, last-wins result; another implementation may keep the earlier value.
- `StagesComplex.SearchFilter`: with no fields, `$or` is an empty array, which MongoDB also rejects. The code does not check for this, and neither does the model.

## Findings

| source | as written | input that shows it | evidently intended | confidence | as-written member | corrected member |
|---|---|---|---|---|---|---|
| pipeline_stages_complex.go:89 | `APOOr(conditions)` passes the slice as one variadic argument, so the stage is `{$match: {$or: [[c1, …, cn]]}}` | fields `["name"]`, keywords `["x"]`: the `$or` operand is `[[{name: {$regex: /x/i}}]]`, whose only entry is an array. MongoDB's query `$or` requires every entry to be a document | `APOOr(conditions...)`, giving `{$match: {$or: [c1, …, cn]}}` | high; not executed | `StagesComplex.APSearchFilterStage` | `StagesComplex.APSearchFilterStageIntended` |
