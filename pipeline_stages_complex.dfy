/**
 * Composite stages: optional sorting, optional paging with metadata, the
 * keyword search filter and group-and-count.
 *
 * The search filter as written hands its list of conditions to the variadic
 * `APOOr` as ONE argument, so `$or` receives a one-element array whose only
 * entry is the array of conditions. MongoDB's query `$or` wants an array of
 * documents. `APSearchFilterStage` models the code as written and
 * `APSearchFilterStageIntended` the evidently intended `$or: conditions`.
 */
module StagesComplex {
  import opened Bson
  import opened OperatorsPrimitives
  import opened StagesPrimitives
  import opened RegexText

  /** No stage for an empty `sortBy`; otherwise `$sort` on that one field, -1 when descending and 1 otherwise. */
  method APOptionalSortingStage(sortBy: string, sortDesc: bool) returns (r: Value)
    ensures r.Null? <==> sortBy == ""
    ensures sortBy != "" ==> ArgKeys(r, "$sort") == {sortBy}
    ensures sortBy != "" ==> (Arg(r, "$sort", sortBy) == Some(Int(-1)) <==> sortDesc)
    ensures sortBy != "" ==> (Arg(r, "$sort", sortBy) == Some(Int(1)) <==> !sortDesc)
  {
    if sortBy == "" {
      return Null;
    }
    var sortOrder := 0;
    if sortDesc {
      sortOrder := -1;
    } else {
      sortOrder := 1;
    }
    r := APSort(Doc(map[sortBy := Int(sortOrder)]));
  }

  /** The content branch of the paging stage. */
  function PagingContentStages(page: int, size: int): seq<Value>
  {
    [APSkip(Int(page * size)), APLimit(Int(size))]
  }

  /** The fields the first `$addFields` of the metadata branch sets. */
  function PagingTotals(page: int, size: int): map<string, Value>
  {
    map[
      "total_pages" := APOFloor(APODivide(Str("$total_elements"), Int(size))),
      "size" := APOMin([Int(size), APOSubtract(Str("$total_elements"), Int(size * page))]),
      "number" := Int(page)
    ]
  }

  /** The fields the second `$addFields` of the metadata branch sets. */
  function PagingFlags(page: int, size: int): map<string, Value>
  {
    map[
      "empty" := APOEqual(Str("$size"), Int(0)),
      "first" := Bool(page == 0),
      "last" := APOEqual(Int(page), APOSubtract(Str("$total_pages"), Int(1)))
    ]
  }

  /** The metadata branch of the paging stage. */
  function PagingMetadataStages(page: int, size: int): seq<Value>
  {
    [APCount("total_elements"), APAddFields(Doc(PagingTotals(page, size))), APAddFields(Doc(PagingFlags(page, size)))]
  }

  /**
   * No stage when `page` or `size` is -1; otherwise a `$facet` with a
   * `content` branch (skip and limit) and a `metadata` branch (count and two
   * `$addFields`), each flattened as `MAPipeline` does. `page * size` is
   * computed on unbounded integers.
   */
  function APOptionalPagingStage(page: int, size: int): (r: Value)
    ensures r.Null? <==> (page == -1 || size == -1)
    ensures !r.Null? ==> ArgKeys(r, "$facet") == {"content", "metadata"}
    ensures !r.Null? ==> Branch(r, "content") == Flatten(PagingContentStages(page, size))
    ensures !r.Null? ==> Branch(r, "metadata") == Flatten(PagingMetadataStages(page, size))
  {
    if page == -1 || size == -1 then Null
    else
      APFacet(Doc(map[
        "content" := Arr(Flatten(PagingContentStages(page, size))),
        "metadata" := Arr(Flatten(PagingMetadataStages(page, size)))
      ]))
  }

  /** The stages of one branch of a `$facet` stage. */
  function Branch(facet: Value, name: string): seq<Value>
  {
    match Arg(facet, "$facet", name)
    case Some(Arr(stages)) => stages
    case _ => []
  }

  /** The content branch is exactly `$skip page*size`, then `$limit size`. */
  lemma PagingContent(page: int, size: int)
    requires page != -1 && size != -1
    ensures var c := Branch(APOptionalPagingStage(page, size), "content");
      && |c| == 2
      && SingleOperand(c[0], "$skip") == Some(Int(page * size))
      && SingleOperand(c[1], "$limit") == Some(Int(size))
  {
    var c := PagingContentStages(page, size);
    assert !c[0].Null? && !c[0].Arr? && !c[1].Null? && !c[1].Arr?;
    FlattenPlainStages(c);
    assert Branch(APOptionalPagingStage(page, size), "content") == c;
  }

  /**
   * The metadata branch is `$count "total_elements"` and then two `$addFields`
   * stages: the first sets `total_pages`, `size` and `number` (which is the
   * page), the second `empty`, `first` (the literal truth of `page == 0`) and
   * `last`.
   */
  lemma PagingMetadata(page: int, size: int)
    requires page != -1 && size != -1
    ensures var m := Branch(APOptionalPagingStage(page, size), "metadata");
      && |m| == 3
      && SingleOperand(m[0], "$count") == Some(Str("total_elements"))
      && ArgKeys(m[1], "$addFields") == {"total_pages", "size", "number"}
      && Arg(m[1], "$addFields", "total_pages") == Some(APOFloor(APODivide(Str("$total_elements"), Int(size))))
      && Arg(m[1], "$addFields", "size") == Some(APOMin([Int(size), APOSubtract(Str("$total_elements"), Int(size * page))]))
      && Arg(m[1], "$addFields", "number") == Some(Int(page))
      && ArgKeys(m[2], "$addFields") == {"empty", "first", "last"}
      && Arg(m[2], "$addFields", "empty") == Some(APOEqual(Str("$size"), Int(0)))
      && Arg(m[2], "$addFields", "first") == Some(Bool(page == 0))
      && Arg(m[2], "$addFields", "last") == Some(APOEqual(Int(page), APOSubtract(Str("$total_pages"), Int(1))))
  {
    var m := PagingMetadataStages(page, size);
    assert !m[0].Null? && !m[0].Arr? && !m[1].Null? && !m[1].Arr? && !m[2].Null? && !m[2].Arr?;
    FlattenPlainStages(m);
    assert Branch(APOptionalPagingStage(page, size), "metadata") == m;
    PagingTotalsFields(page, size);
    PagingFlagsFields(page, size);
  }

  lemma PagingTotalsFields(page: int, size: int)
    ensures var m := PagingMetadataStages(page, size);
      && ArgMap(m[1], "$addFields") == PagingTotals(page, size)
      && PagingTotals(page, size).Keys == {"total_pages", "size", "number"}
  {
  }

  lemma PagingFlagsFields(page: int, size: int)
    ensures var m := PagingMetadataStages(page, size);
      && ArgMap(m[2], "$addFields") == PagingFlags(page, size)
      && PagingFlags(page, size).Keys == {"empty", "first", "last"}
  {
  }

  /** One `{field: {$regex: Regex(pattern, "i")}}` condition. */
  function FieldCondition(field: string, pattern: string): Value
  {
    Op(field, Op("$regex", Regex(pattern, "i")))
  }

  /** One condition per field, in field order, all with the same case-insensitive pattern. */
  function SearchConditions(fields: seq<string>, pattern: string): (cs: seq<Value>)
    ensures |cs| == |fields|
    ensures forall i :: 0 <= i < |fields| ==>
      ArgKeys(cs[i], fields[i]) == {"$regex"} && Arg(cs[i], fields[i], "$regex") == Some(Regex(pattern, "i"))
  {
    seq(|fields|, i requires 0 <= i < |fields| => FieldCondition(fields[i], pattern))
  }

  /** What MongoDB's query `$or` accepts as entries: every entry a document. */
  predicate OrEntriesAreDocuments(operand: Value)
  {
    operand.Arr? && forall i :: 0 <= i < |operand.items| ==> operand.items[i].Doc?
  }

  /** The stage the code builds: `$or` gets the condition list wrapped in one more array. */
  function SearchFilterAsWritten(fields: seq<string>, keywords: seq<string>): (r: Value)
    ensures ArgKeys(r, "$match") == {"$or"}
    ensures Arg(r, "$match", "$or") == Some(Arr([Arr(SearchConditions(fields, SearchPattern(keywords)))]))
    ensures !OrEntriesAreDocuments(Arg(r, "$match", "$or").value)
  {
    var operand := Arr([Arr(SearchConditions(fields, SearchPattern(keywords)))]);
    assert !operand.items[0].Doc?;
    APMatch(APOOr(operand.items))
  }

  /** The stage the code evidently means: `$or` over the conditions themselves. */
  function SearchFilter(fields: seq<string>, keywords: seq<string>): (r: Value)
    ensures ArgKeys(r, "$match") == {"$or"}
    ensures Arg(r, "$match", "$or") == Some(Arr(SearchConditions(fields, SearchPattern(keywords))))
    ensures OrEntriesAreDocuments(Arg(r, "$match", "$or").value)
  {
    APMatch(APOOr(SearchConditions(fields, SearchPattern(keywords))))
  }

  /** The first loop: every keyword escaped by `regexp.QuoteMeta`, in keyword order. */
  method QuoteKeywords(keywords: seq<string>) returns (quoted: seq<string>)
    ensures quoted == QuoteAll(keywords)
  {
    quoted := [];
    for i := 0 to |keywords|
      invariant |quoted| == i
      invariant forall j :: 0 <= j < i ==> quoted[j] == QuoteMeta(keywords[j])
    {
      quoted := quoted + [QuoteMeta(keywords[i])];
    }
  }

  /** The second loop: one regex condition per field, in field order. */
  method RegexConditions(fields: seq<string>, pattern: string) returns (conditions: seq<Value>)
    ensures conditions == SearchConditions(fields, pattern)
  {
    conditions := [];
    for i := 0 to |fields|
      invariant |conditions| == i
      invariant forall j :: 0 <= j < i ==> conditions[j] == FieldCondition(fields[j], pattern)
    {
      conditions := conditions + [FieldCondition(fields[i], pattern)];
    }
  }

  /** The search filter as the code builds it, conditions passed to `APOOr` as a single argument. */
  method APSearchFilterStage(fields: seq<string>, keywords: seq<string>) returns (r: Value)
    ensures r == SearchFilterAsWritten(fields, keywords)
    ensures !OrEntriesAreDocuments(Arg(r, "$match", "$or").value)
  {
    var quotedKeywords := QuoteKeywords(keywords);
    var pattern := Join(quotedKeywords, "|");
    var conditions := RegexConditions(fields, pattern);
    r := APMatch(APOOr([Arr(conditions)]));
  }

  /** The search filter with the conditions spread into `APOOr`. */
  method APSearchFilterStageIntended(fields: seq<string>, keywords: seq<string>) returns (r: Value)
    ensures r == SearchFilter(fields, keywords)
    ensures OrEntriesAreDocuments(Arg(r, "$match", "$or").value)
    ensures |Arg(r, "$match", "$or").value.items| == |fields|
  {
    var quotedKeywords := QuoteKeywords(keywords);
    var pattern := Join(quotedKeywords, "|");
    var conditions := RegexConditions(fields, pattern);
    r := APMatch(APOOr(conditions));
  }

  /**
   * Every condition of the search filter carries a pattern from which the
   * keywords are recovered: split at unescaped bars, then unescape.
   */
  lemma SearchFilterRecoversKeywords(fields: seq<string>, keywords: seq<string>, i: nat)
    requires |keywords| > 0 && i < |fields|
    ensures var cs := SearchConditions(fields, SearchPattern(keywords));
      && Arg(SearchFilter(fields, keywords), "$match", "$or") == Some(Arr(cs))
      && Arg(cs[i], fields[i], "$regex") == Some(Regex(SearchPattern(keywords), "i"))
      && UnquoteAll(SplitBars(SearchPattern(keywords))) == keywords
  {
    PatternRoundTrip(keywords);
  }

  /**
   * `$group` by `what` counting into `countFieldName`, then `$project` that
   * hides `_id`, renames it to `whatFieldName` and keeps the count. When two
   * key names coincide, the key written later wins; the Go compiler stores a
   * map literal's entries in source order, though the language leaves it open.
   */
  function APGroupAndCountStages(whatFieldName: string, countFieldName: string, what: Value): (r: Value)
    ensures r.Arr? && |r.items| == 2
    ensures ArgKeys(r.items[0], "$group") == {"_id", countFieldName}
    ensures Arg(r.items[0], "$group", countFieldName) == Some(APOSum(Int(1)))
    ensures countFieldName != "_id" ==> Arg(r.items[0], "$group", "_id") == Some(what)
    ensures ArgKeys(r.items[1], "$project") == {"_id", whatFieldName, countFieldName}
    ensures Arg(r.items[1], "$project", countFieldName) == Some(Bool(true))
    ensures whatFieldName != countFieldName ==> Arg(r.items[1], "$project", whatFieldName) == Some(Str("$_id"))
    ensures "_id" != whatFieldName && "_id" != countFieldName ==> Arg(r.items[1], "$project", "_id") == Some(Bool(false))
  {
    Arr([
      APGroup(Doc(map["_id" := what, countFieldName := APOSum(Int(1))])),
      APProject(Doc(map["_id" := Bool(false), whatFieldName := Str("$_id"), countFieldName := Bool(true)]))
    ])
  }

  /** Handed to `MAPipeline`, group-and-count splices in as its two stages, in order. */
  lemma GroupAndCountSplices(a: seq<Value>, whatFieldName: string, countFieldName: string, what: Value, b: seq<Value>)
    ensures var gc := APGroupAndCountStages(whatFieldName, countFieldName, what).items;
      Flatten(a + [APGroupAndCountStages(whatFieldName, countFieldName, what)] + b)
        == Flatten(a) + [gc[0], gc[1]] + Flatten(b)
  {
    var gc := APGroupAndCountStages(whatFieldName, countFieldName, what);
    ArraySplicedOneLevel(a, gc.items, b);
    assert gc.items == [gc.items[0], gc.items[1]];
  }
}
