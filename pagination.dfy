/** `getPaginationParams` (src/utils/pagination.ts): page and limit read from
    the query string with `parseInt` (no radix), defaulted when the parse gives
    NaN or 0, and clamped. */
module Pagination {
  import opened Prelude
  import opened Js

  const DefaultPage := 1
  const DefaultLimit := 10
  const MaxLimit := 100

  datatype PaginationParams = PaginationParams(page: int, limit: int, offset: int)

  /** `query[key]`, `undefined` when absent. */
  function QueryValue(query: map<string, JsValue>, key: string): JsValue
  {
    if key in query then query[key] else Undefined
  }

  /** `parseInt(v) || d`: NaN and 0 are falsy and give the default. */
  function OrDefault(parsed: Option<int>, d: int): int
  {
    match parsed
    case None => d
    case Some(n) => if n != 0 then n else d
  }

  function GetPaginationParams(query: map<string, JsValue>): (p: PaginationParams)
    ensures p.page >= 1
    ensures 1 <= p.limit <= MaxLimit
    ensures p.offset == (p.page - 1) * p.limit && p.offset >= 0
  {
    var rp := OrDefault(ParseInt(ToJsString(QueryValue(query, "page")), 0), DefaultPage);
    var rl := OrDefault(ParseInt(ToJsString(QueryValue(query, "limit")), 0), DefaultLimit);
    var p := Clamp(rp, rl);
    assert p.page >= 1 && 1 <= p.limit <= MaxLimit;
    p
  }

  /** The clamping applied to the parsed page and limit. */
  function Clamp(rawPage: int, rawLimit: int): (p: PaginationParams)
    ensures p.page == (if rawPage >= 1 then rawPage else 1)
    ensures p.limit == (if rawLimit < 1 then 1 else if rawLimit > MaxLimit then MaxLimit else rawLimit)
    ensures p.offset == (p.page - 1) * p.limit && p.offset >= 0
  {
    var page := Max(1, rawPage);
    var limit := Min(MaxLimit, Max(1, rawLimit));
    var pages: nat := page - 1;
    var size: nat := limit;
    PaginationParams(page, limit, pages * size)
  }

  function Max(a: int, b: int): int { if a >= b then a else b }
  function Min(a: int, b: int): int { if a <= b then a else b }

  /** For a query whose page and limit are the decimal text of integers `p`
      and `l`: a page of 0 gives 1, a limit of 0 gives the default 10 (not 1),
      a negative limit gives 1, a limit over 100 gives 100, anything else is
      kept. */
  lemma {:induction false} ParamsOfDecimalQuery(query: map<string, JsValue>, p: int, l: int)
    requires QueryValue(query, "page") == Str(IntToString(p))
    requires QueryValue(query, "limit") == Str(IntToString(l))
    ensures GetPaginationParams(query).page == if p >= 1 then p else 1
    ensures GetPaginationParams(query).limit ==
      if l == 0 then DefaultLimit else if l < 1 then 1 else if l > MaxLimit then MaxLimit else l
  {
    ParseIntOfIntToString(p, 0);
    ParseIntOfIntToString(l, 0);
  }

  /** Absent or unparseable values fall back to page 1 and limit 10. */
  lemma DefaultsWhenUnparseable(query: map<string, JsValue>)
    requires ParseInt(ToJsString(QueryValue(query, "page")), 0).None?
    requires ParseInt(ToJsString(QueryValue(query, "limit")), 0).None?
    ensures GetPaginationParams(query) == PaginationParams(1, 10, 0)
  {
  }

  /** `?limit=0&page=0` reads as page 1 and limit 10. */
  lemma ZeroQuery()
    ensures GetPaginationParams(map["page" := Str("0"), "limit" := Str("0")]) == PaginationParams(1, 10, 0)
  {
    ParseIntOfIntToString(0, 0);
    assert IntToString(0) == "0";
  }

  /** An empty query has no page and no limit. */
  lemma EmptyQuery()
    ensures GetPaginationParams(map[]) == PaginationParams(1, 10, 0)
  {
    UndefinedIsNaN();
    DefaultsWhenUnparseable(map[]);
  }

  /** `parseInt(undefined)` reads the text "undefined" and gives NaN. */
  lemma UndefinedIsNaN()
    ensures ParseInt(ToJsString(Undefined), 0).None?
  {
    var u := ToJsString(Undefined);
    assert u[0] == 'u';
    ParseIntOfNonNumeric(u);
  }
}
