/** `ActionItemService` (src/services/actionItemService.ts) over an
    in-memory table kept in insertion order. Deletion is hard. */
module ActionItemStore {
  import opened Prelude
  import opened Js
  import opened Common
  import opened Listing

  const StatusPending := "pending"
  const DefaultPriority := "medium"
  const DefaultLimit := 20

  datatype ActionItem = ActionItem(
    id: string,
    meetingId: string,
    description: string,
    speaker: Option<string>,
    dueDate: Option<int>,
    priority: string,
    status: string,
    createdBy: string,
    createdAt: int)

  datatype CreateActionItemData = CreateActionItemData(
    meetingId: string,
    description: string,
    priority: Option<string>,
    speaker: Option<string>,
    dueDate: Option<int>,
    createdBy: string)

  /** `ActionItemUpdateData`; `None` is an absent key. */
  datatype ActionItemPatch = ActionItemPatch(
    description: Option<string>,
    priority: Option<string>,
    status: Option<string>,
    speaker: Option<string>,
    dueDate: Option<int>)

  /** `ActionItemListOptions`. For the filter fields `None` is an absent or
      null option. For `limit` and `offset` it is an absent one only: the
      defaults apply to `undefined` alone, and a null limit or offset acts
      as `Some(0)` does (no limit, no offset). */
  datatype ListOptions = ListOptions(
    meetingId: Option<string>,
    limit: Option<nat>,
    offset: Option<nat>,
    status: Option<string>,
    priority: Option<string>,
    speaker: Option<string>)

  datatype ActionItemPage = ActionItemPage(actionItems: seq<ActionItem>, total: nat)

  function AsJs(v: Option<string>): JsValue
  {
    match v
    case Some(s) => Str(s)
    case None => Undefined
  }

  /** The object literal `{ meetingId, status, priority, speaker }`. */
  function FilterProps(options: ListOptions): seq<(string, JsValue)>
  {
    [("meetingId", AsJs(options.meetingId)), ("status", AsJs(options.status)),
     ("priority", AsJs(options.priority)), ("speaker", AsJs(options.speaker))]
  }

  /** The where-clause: `removeNullValues({ meetingId, status, priority, speaker })`. */
  function WhereCondition(options: ListOptions): seq<(string, JsValue)>
  {
    RemoveNullValues(FilterProps(options))
  }

  lemma WhereMembers(options: ListOptions)
    ensures forall e :: e in WhereCondition(options) <==> e in FilterProps(options) && !IsNullish(e.1)
  {
    var w := WhereCondition(options);
    SubsequenceMembers(w, FilterProps(options));
    forall e | e in w ensures !IsNullish(e.1) {
      var i :| 0 <= i < |w| && w[i] == e;
    }
  }

  /** The column a where-key names, as a JavaScript value. */
  function Column(item: ActionItem, key: string): JsValue
  {
    if key == "meetingId" then Str(item.meetingId)
    else if key == "status" then Str(item.status)
    else if key == "priority" then Str(item.priority)
    else if key == "speaker" then AsJs(item.speaker)
    else Undefined
  }

  /** The item has the value of every key of the where-clause. */
  predicate Satisfies(item: ActionItem, where: seq<(string, JsValue)>)
  {
    forall i :: 0 <= i < |where| ==> Column(item, where[i].0) == where[i].1
  }

  /** The same condition, option by option: each option that is given, even
      as the empty string, must equal its column. */
  predicate MatchesOptions(item: ActionItem, options: ListOptions)
  {
    (options.meetingId.Some? ==> item.meetingId == options.meetingId.value)
    && (options.status.Some? ==> item.status == options.status.value)
    && (options.priority.Some? ==> item.priority == options.priority.value)
    && (options.speaker.Some? ==> item.speaker == options.speaker)
  }

  /** The where-clause built by `removeNullValues` filters on exactly the
      given options. */
  lemma WhereMeansGivenOptions(item: ActionItem, options: ListOptions)
    ensures Satisfies(item, WhereCondition(options)) <==> MatchesOptions(item, options)
  {
    if Satisfies(item, WhereCondition(options)) {
      SatisfiedWhereMatches(item, options);
    }
    if MatchesOptions(item, options) {
      MatchingSatisfiesWhere(item, options);
    }
  }

  lemma SatisfiedWhereMatches(item: ActionItem, options: ListOptions)
    requires Satisfies(item, WhereCondition(options))
    ensures MatchesOptions(item, options)
  {
    var props := FilterProps(options);
    var w := WhereCondition(options);
    WhereMembers(options);
    forall e | e in props && !IsNullish(e.1) ensures Column(item, e.0) == e.1 {
      var i :| 0 <= i < |w| && w[i] == e;
    }
    assert props[0] in props && props[1] in props && props[2] in props && props[3] in props;
  }

  lemma MatchingSatisfiesWhere(item: ActionItem, options: ListOptions)
    requires MatchesOptions(item, options)
    ensures Satisfies(item, WhereCondition(options))
  {
    var props := FilterProps(options);
    var w := WhereCondition(options);
    WhereMembers(options);
    forall i | 0 <= i < |w| ensures Column(item, w[i].0) == w[i].1 {
      assert w[i] in props;
    }
  }

  /** `take`: `limit` defaults to 20 when absent; a limit of 0 is falsy and
      sets no limit at all. */
  function EffectiveLimit(limit: Option<nat>): (r: Option<nat>)
    ensures limit.None? ==> r == Some(DefaultLimit)
    ensures limit == Some(0) ==> r.None?
    ensures limit.Some? && limit.value != 0 ==> r == limit
  {
    match limit
    case None => Some(DefaultLimit)
    case Some(n) => if n == 0 then None else Some(n)
  }

  function CreatedAt(item: ActionItem): int { item.createdAt }

  /** The items satisfying the where-clause, newest first. */
  function OrderedMatches(rows: seq<ActionItem>, options: ListOptions): seq<ActionItem>
  {
    SortNewestFirst(Filter(rows, (item: ActionItem) => Satisfies(item, WhereCondition(options))), CreatedAt)
  }

  /** `skip`: `offset` defaults to 0. */
  function Skip(options: ListOptions): nat
  {
    if options.offset.Some? then options.offset.value else 0
  }

  /** `getActionItems(options)`: the items matching the given options,
      newest first, `offset` (default 0) skipped, at most `limit` (default
      20) taken, with the count of all matches. */
  function GetActionItems(rows: seq<ActionItem>, options: ListOptions): (page: ActionItemPage)
    ensures page.total == |Filter(rows, (item: ActionItem) => Satisfies(item, WhereCondition(options)))|
    ensures forall item :: item in page.actionItems ==> item in rows && MatchesOptions(item, options)
    ensures EffectiveLimit(options.limit).Some? ==> |page.actionItems| <= EffectiveLimit(options.limit).value
    ensures SortedDesc(page.actionItems, CreatedAt)
  {
    var matches := Filter(rows, (item: ActionItem) => Satisfies(item, WhereCondition(options)));
    SortedNewestFirst(matches, CreatedAt);
    SortedMembers(matches, CreatedAt);
    WindowOfSorted(OrderedMatches(rows, options), Skip(options), EffectiveLimit(options.limit), CreatedAt);
    var r := Window(OrderedMatches(rows, options), Skip(options), EffectiveLimit(options.limit));
    forall item | item in r ensures MatchesOptions(item, options) {
      WhereMeansGivenOptions(item, options);
    }
    ActionItemPage(r, |matches|)
  }

  /** The page is the run of the ordered matches that starts after the
      first `offset` (default 0) of them: the effective limit of them when
      that many remain, all the rest otherwise. */
  lemma PageIsSlice(rows: seq<ActionItem>, options: ListOptions)
    ensures var ordered := OrderedMatches(rows, options);
      var skip := Skip(options);
      var limit := EffectiveLimit(options.limit);
      var page := GetActionItems(rows, options).actionItems;
      (skip >= |ordered| ==> page == [])
      && (skip < |ordered| ==> page == ordered[skip..skip + |page|])
      && (skip < |ordered| && limit.Some? && skip + limit.value < |ordered| ==> |page| == limit.value)
      && (skip < |ordered| && (limit.None? || skip + limit.value >= |ordered|) ==> page == ordered[skip..])
  {
    assert GetActionItems(rows, options).actionItems == Window(OrderedMatches(rows, options), Skip(options), EffectiveLimit(options.limit));
  }

  /** With no options at all the first 20 items come back. */
  lemma DefaultPageSize(rows: seq<ActionItem>)
    ensures |GetActionItems(rows, ListOptions(None, None, None, None, None, None)).actionItems| <= 20
  {
  }

  /** An empty status still filters: only items whose status is the empty
      string are listed. */
  lemma EmptyStatusStillFilters(rows: seq<ActionItem>, options: ListOptions)
    requires options.status == Some("")
    ensures forall item :: item in GetActionItems(rows, options).actionItems ==> item.status == ""
  {
  }

  /** `data.priority || 'medium'` */
  function PriorityOrDefault(priority: Option<string>): (p: string)
    ensures p != ""
    ensures priority.Some? && priority.value != "" ==> p == priority.value
    ensures priority.None? || priority.value == "" ==> p == "medium"
  {
    if priority.Some? && priority.value != "" then priority.value else DefaultPriority
  }

  /** `Object.assign(actionItem, data)` */
  function ApplyPatch(item: ActionItem, p: ActionItemPatch): (r: ActionItem)
    ensures r.id == item.id && r.meetingId == item.meetingId && r.createdBy == item.createdBy && r.createdAt == item.createdAt
    ensures r.description == (if p.description.Some? then p.description.value else item.description)
    ensures r.priority == (if p.priority.Some? then p.priority.value else item.priority)
    ensures r.status == (if p.status.Some? then p.status.value else item.status)
    ensures r.speaker == (if p.speaker.Some? then p.speaker else item.speaker)
    ensures r.dueDate == (if p.dueDate.Some? then p.dueDate else item.dueDate)
  {
    item.(description := if p.description.Some? then p.description.value else item.description,
          priority := if p.priority.Some? then p.priority.value else item.priority,
          status := if p.status.Some? then p.status.value else item.status,
          speaker := if p.speaker.Some? then p.speaker else item.speaker,
          dueDate := if p.dueDate.Some? then p.dueDate else item.dueDate)
  }

  predicate UniqueIds(rows: seq<ActionItem>)
  {
    forall i, j :: 0 <= i < j < |rows| ==> rows[i].id != rows[j].id
  }

  /** Index of the item with that id. */
  function FindById(rows: seq<ActionItem>, id: string): (r: Option<nat>)
    ensures r.Some? ==> r.value < |rows| && rows[r.value].id == id
    ensures r.None? ==> forall k :: 0 <= k < |rows| ==> rows[k].id != id
  {
    if |rows| == 0 then None
    else if rows[|rows| - 1].id == id then Some(|rows| - 1)
    else FindById(rows[..|rows| - 1], id)
  }

  /** Every row except those with the given id, in order. */
  function WithoutId(rows: seq<ActionItem>, id: string): (r: seq<ActionItem>)
    ensures forall item :: item in r <==> item in rows && item.id != id
    ensures Subsequence(r, rows)
  {
    if |rows| == 0 then []
    else if rows[0].id == id then WithoutId(rows[1..], id)
    else [rows[0]] + WithoutId(rows[1..], id)
  }

  /** The action-item table. */
  class ActionItemService {
    var rows: seq<ActionItem>

    ghost predicate Valid()
      reads this
    {
      UniqueIds(rows)
    }

    constructor()
      ensures Valid() && rows == []
    {
      rows := [];
    }

    /** `createActionItem(data)`: status forced to 'pending', priority
        'medium' unless a non-empty one is given. The id and creation time
        are supplied by the caller; `fault` is the error the database raises
        on the save, if any, and nothing is stored then. */
    method CreateActionItem(data: CreateActionItemData, id: string, now: int, fault: Option<JsValue>)
      returns (r: Result<ActionItem, JsValue>)
      requires Valid()
      requires forall k :: 0 <= k < |rows| ==> rows[k].id != id
      modifies this
      ensures Valid()
      ensures fault.Some? ==> r == Err(fault.value) && rows == old(rows)
      ensures fault.None? ==>
        r == Ok(ActionItem(id, data.meetingId, data.description, data.speaker, data.dueDate,
                           PriorityOrDefault(data.priority), StatusPending, data.createdBy, now))
        && rows == old(rows) + [r.value]
    {
      if fault.Some? {
        return Err(fault.value);
      }
      var item := ActionItem(id, data.meetingId, data.description, data.speaker, data.dueDate,
                             PriorityOrDefault(data.priority), StatusPending, data.createdBy, now);
      rows := rows + [item];
      r := Ok(item);
    }

    /** `updateActionItem(actionItemId, data)`: looked up by id alone, without
        an owner check. `fault` is the error the database raises on the
        lookup or the save, if any; nothing changes then. */
    method UpdateActionItem(actionItemId: string, patch: ActionItemPatch, fault: Option<JsValue>)
      returns (r: Result<Option<ActionItem>, JsValue>)
      requires Valid()
      modifies this
      ensures Valid()
      ensures fault.Some? ==> r == Err(fault.value) && rows == old(rows)
      ensures fault.None? && FindById(old(rows), actionItemId).None? ==> r == Ok(None) && rows == old(rows)
      ensures fault.None? && FindById(old(rows), actionItemId).Some? ==>
        var k := FindById(old(rows), actionItemId).value;
        rows == old(rows)[k := ApplyPatch(old(rows)[k], patch)] && r == Ok(Some(rows[k]))
    {
      if fault.Some? {
        return Err(fault.value);
      }
      var found := FindById(rows, actionItemId);
      if found.None? {
        return Ok(None);
      }
      var k := found.value;
      rows := rows[k := ApplyPatch(rows[k], patch)];
      r := Ok(Some(rows[k]));
    }

    /** `deleteActionItem(actionItemId)`: true whether or not the id existed;
        false only when the database raised `fault`. */
    method DeleteActionItem(actionItemId: string, fault: Option<JsValue>) returns (deleted: bool)
      requires Valid()
      modifies this
      ensures Valid()
      ensures deleted <==> fault.None?
      ensures fault.Some? ==> rows == old(rows)
      ensures fault.None? ==> rows == WithoutId(old(rows), actionItemId)
    {
      if fault.Some? {
        return false;
      }
      SubsequenceKeepsUnique(WithoutId(rows, actionItemId), rows);
      rows := WithoutId(rows, actionItemId);
      deleted := true;
    }
  }

  lemma {:induction false} SubsequenceKeepsUnique(a: seq<ActionItem>, b: seq<ActionItem>)
    requires Subsequence(a, b) && UniqueIds(b)
    ensures UniqueIds(a)
    decreases |b|
  {
    if |a| > 0 && |b| > 0 {
      assert UniqueIds(b[1..]) by {
        forall i, j | 0 <= i < j < |b[1..]| ensures b[1..][i].id != b[1..][j].id {
          assert b[1..][i] == b[i + 1] && b[1..][j] == b[j + 1];
        }
      }
      if a[0] == b[0] {
        SubsequenceKeepsUnique(a[1..], b[1..]);
        SubsequenceMembers(a[1..], b[1..]);
        forall j | 0 < j < |a| ensures a[0].id != a[j].id {
          assert a[1..][j - 1] == a[j];
          assert a[j] in b[1..];
          var m :| 0 <= m < |b[1..]| && b[1..][m] == a[j];
          assert b[m + 1] == a[j];
        }
      } else {
        SubsequenceKeepsUnique(a, b[1..]);
      }
    }
  }

  /** After a deletion no item with that id remains, and every other item
      is still there. */
  lemma DeletionRemovesExactly(rows: seq<ActionItem>, id: string)
    ensures FindById(WithoutId(rows, id), id).None?
    ensures forall item :: item in rows && item.id != id ==> item in WithoutId(rows, id)
  {
  }
}
