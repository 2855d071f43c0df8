/** `MeetingService` (src/services/meetingService.ts) over an in-memory
    table. Rows are kept in insertion order; deletion is soft, so a deleted
    row stays in the table with its flag set and is invisible to every
    query. */
module MeetingStore {
  import opened Prelude
  import opened Js
  import opened Listing

  const StatusActive := "active"

  datatype Meeting = Meeting(
    id: string,
    title: string,
    duration: Option<int>,
    fileSize: Option<int>,
    filePath: string,
    summary: Option<string>,
    status: string,
    userId: string,
    createdAt: int,
    deleted: bool)

  datatype CreateMeetingData = CreateMeetingData(
    title: string,
    duration: Option<int>,
    fileSize: Option<int>,
    filePath: string,
    summary: Option<string>,
    userId: string)

  /** `UpdateMeetingData`: a key is either absent (`None`) or overwrites the
      field. */
  datatype MeetingPatch = MeetingPatch(
    title: Option<string>,
    duration: Option<int>,
    fileSize: Option<int>,
    filePath: Option<string>,
    summary: Option<string>,
    status: Option<string>)

  /** One call of `updateMeeting(meetingId, userId, data)`. */
  datatype UpdateRequest = UpdateRequest(meetingId: string, userId: string, patch: MeetingPatch)

  /** `{ limit, offset, status }`. `None` is an absent (or NaN) number; a
      number may be negative, as `(page - 1) * limit` is for `?page=0`. */
  datatype ListOptions = ListOptions(limit: Option<int>, offset: Option<int>, status: Option<string>)

  datatype MeetingPage = MeetingPage(meetings: seq<Meeting>, total: nat)

  datatype MeetingStats = MeetingStats(totalMeetings: nat, totalDuration: int, averageDuration: int, activeMeetings: nat)

  function Override<T>(patch: Option<T>, current: T): T
  {
    match patch
    case Some(v) => v
    case None => current
  }

  /** `Object.assign(meeting, data)`: every key of the patch overwrites its
      field and nothing else changes. */
  function ApplyPatch(m: Meeting, p: MeetingPatch): (r: Meeting)
    ensures r.id == m.id && r.userId == m.userId && r.createdAt == m.createdAt && r.deleted == m.deleted
    ensures r.title == (if p.title.Some? then p.title.value else m.title)
    ensures r.status == (if p.status.Some? then p.status.value else m.status)
    ensures r.duration == (if p.duration.Some? then p.duration else m.duration)
    ensures r.fileSize == (if p.fileSize.Some? then p.fileSize else m.fileSize)
    ensures r.filePath == (if p.filePath.Some? then p.filePath.value else m.filePath)
    ensures r.summary == (if p.summary.Some? then p.summary else m.summary)
  {
    m.(title := Override(p.title, m.title),
       duration := if p.duration.Some? then p.duration else m.duration,
       fileSize := if p.fileSize.Some? then p.fileSize else m.fileSize,
       filePath := Override(p.filePath, m.filePath),
       summary := if p.summary.Some? then p.summary else m.summary,
       status := Override(p.status, m.status))
  }

  /** The empty patch changes nothing, and applying a patch twice is
      applying it once. */
  lemma PatchLaws(m: Meeting, p: MeetingPatch)
    ensures ApplyPatch(m, MeetingPatch(None, None, None, None, None, None)) == m
    ensures ApplyPatch(ApplyPatch(m, p), p) == ApplyPatch(m, p)
  {
  }

  predicate UniqueIds(rows: seq<Meeting>)
  {
    forall i, j :: 0 <= i < j < |rows| ==> rows[i].id != rows[j].id
  }

  /** The row `findOne({ where: { id, userId } })` finds. */
  predicate OwnedAt(rows: seq<Meeting>, k: int, meetingId: string, userId: string)
  {
    0 <= k < |rows| && rows[k].id == meetingId && rows[k].userId == userId && !rows[k].deleted
  }

  function FindOwned(rows: seq<Meeting>, meetingId: string, userId: string): (r: Option<nat>)
    ensures r.Some? ==> OwnedAt(rows, r.value, meetingId, userId)
    ensures r.None? ==> forall k :: !OwnedAt(rows, k, meetingId, userId)
    ensures r.Some? && UniqueIds(rows) ==> forall k :: OwnedAt(rows, k, meetingId, userId) ==> k == r.value
  {
    if |rows| == 0 then None
    else if OwnedAt(rows, |rows| - 1, meetingId, userId) then Some(|rows| - 1)
    else
      var r := FindOwned(rows[..|rows| - 1], meetingId, userId);
      assert forall k :: 0 <= k < |rows| - 1 ==> (OwnedAt(rows, k, meetingId, userId) <==> OwnedAt(rows[..|rows| - 1], k, meetingId, userId));
      r
  }

  /** `getMeetingById(meetingId, userId)`: the live meeting with that id and
      that owner, or null. */
  function GetMeetingById(rows: seq<Meeting>, meetingId: string, userId: string): (r: Option<Meeting>)
    ensures r.Some? <==> exists k :: OwnedAt(rows, k, meetingId, userId)
    ensures r.Some? ==> r.value in rows && r.value.id == meetingId && r.value.userId == userId && !r.value.deleted
  {
    match FindOwned(rows, meetingId, userId)
    case None => None
    case Some(k) => Some(rows[k])
  }

  /** `options.x` is applied only when truthy: absent and 0 both mean "not
      given". */
  function WhenTruthy(n: Option<int>): Option<int>
  {
    if n.Some? && n.value != 0 then n else None
  }

  /** The where-clause of `getUserMeetings`. */
  predicate Listed(m: Meeting, userId: string, status: Option<string>)
  {
    !m.deleted && m.userId == userId && (status.Some? && status.value != "" ==> m.status == status.value)
  }

  function CreatedAt(m: Meeting): int { m.createdAt }

  /** The user's listed meetings, newest first. */
  function OrderedMatches(rows: seq<Meeting>, userId: string, options: ListOptions): seq<Meeting>
  {
    SortNewestFirst(Filter(rows, (m: Meeting) => Listed(m, userId, options.status)), CreatedAt)
  }

  /** What PostgreSQL says to a negative OFFSET or LIMIT; it evaluates the
      offset first. A falsy number never reaches the query. */
  function Refusal(options: ListOptions): Option<string>
  {
    if WhenTruthy(options.offset).Some? && options.offset.value < 0 then Some("OFFSET must not be negative")
    else if WhenTruthy(options.limit).Some? && options.limit.value < 0 then Some("LIMIT must not be negative")
    else None
  }

  /** `skip`: a positive `offset`, else 0. */
  function Skip(options: ListOptions): nat
  {
    if options.offset.Some? && options.offset.value > 0 then options.offset.value else 0
  }

  /** `take`: a positive `limit`, else none. */
  function Take(options: ListOptions): Option<nat>
  {
    if options.limit.Some? && options.limit.value > 0 then Some(options.limit.value) else None
  }

  /** `getUserMeetings(userId, options)`: the user's live meetings (of the
      given status, when one is given), newest first, paged, with the count
      of all matches. A truthy negative offset or limit is passed on to the
      query, which the database rejects. */
  function GetUserMeetings(rows: seq<Meeting>, userId: string, options: ListOptions): (r: Result<MeetingPage, string>)
    ensures r.Err? <==> (WhenTruthy(options.offset).Some? && options.offset.value < 0)
                        || (WhenTruthy(options.limit).Some? && options.limit.value < 0)
    ensures WhenTruthy(options.offset).Some? && options.offset.value < 0 ==> r == Err("OFFSET must not be negative")
    ensures (!(WhenTruthy(options.offset).Some? && options.offset.value < 0)
             && WhenTruthy(options.limit).Some? && options.limit.value < 0)
              ==> r == Err("LIMIT must not be negative")
    ensures r.Ok? ==> r.value.total == |Filter(rows, (m: Meeting) => Listed(m, userId, options.status))|
    ensures r.Ok? ==> forall m :: m in r.value.meetings ==> m in rows && Listed(m, userId, options.status)
    ensures r.Ok? && WhenTruthy(options.limit).Some? ==> |r.value.meetings| <= options.limit.value
    ensures r.Ok? ==> SortedDesc(r.value.meetings, CreatedAt)
  {
    if Refusal(options).Some? then Err(Refusal(options).value)
    else
      var matches := Filter(rows, (m: Meeting) => Listed(m, userId, options.status));
      SortedNewestFirst(matches, CreatedAt);
      SortedMembers(matches, CreatedAt);
      WindowOfSorted(OrderedMatches(rows, userId, options), Skip(options), Take(options), CreatedAt);
      Ok(MeetingPage(Window(OrderedMatches(rows, userId, options), Skip(options), Take(options)), |matches|))
  }

  /** Without a truthy limit and offset the page is every match, each
      exactly once. */
  lemma UnpagedListsEveryMatch(rows: seq<Meeting>, userId: string, status: Option<string>, limit: Option<int>, offset: Option<int>)
    requires limit.None? || limit == Some(0)
    requires offset.None? || offset == Some(0)
    ensures GetUserMeetings(rows, userId, ListOptions(limit, offset, status)).Ok?
    ensures var page := GetUserMeetings(rows, userId, ListOptions(limit, offset, status)).value;
      multiset(page.meetings) == multiset(Filter(rows, (m: Meeting) => Listed(m, userId, status)))
      && |page.meetings| == page.total
  {
    var matches := Filter(rows, (m: Meeting) => Listed(m, userId, status));
    var ordered := SortNewestFirst(matches, CreatedAt);
    assert ordered[0..] == ordered;
  }

  /** `?page=0` gives the offset `(0 - 1) * limit`, which is truthy and
      negative, so the listing is refused whatever the table holds. */
  lemma PageZeroRefused(rows: seq<Meeting>, userId: string, limit: int, status: Option<string>)
    requires limit > 0
    ensures GetUserMeetings(rows, userId, ListOptions(Some(limit), Some((0 - 1) * limit), status))
      == Err("OFFSET must not be negative")
  {
  }

  /** The page is the run of the ordered matches that starts after the first
      `offset` of them: `limit` of them when that many remain, all the rest
      otherwise, and nothing once the offset passes the last match. */
  lemma PageIsSlice(rows: seq<Meeting>, userId: string, options: ListOptions)
    requires GetUserMeetings(rows, userId, options).Ok?
    ensures var ordered := OrderedMatches(rows, userId, options);
      var skip := Skip(options);
      var page := GetUserMeetings(rows, userId, options).value.meetings;
      (skip >= |ordered| ==> page == [])
      && (skip < |ordered| ==> page == ordered[skip..skip + |page|])
      && (skip < |ordered| && WhenTruthy(options.limit).Some? && skip + options.limit.value < |ordered|
          ==> |page| == options.limit.value)
      && (skip < |ordered| && (WhenTruthy(options.limit).None? || skip + options.limit.value >= |ordered|)
          ==> page == ordered[skip..])
  {
    assert GetUserMeetings(rows, userId, options).value.meetings
        == Window(OrderedMatches(rows, userId, options), Skip(options), Take(options));
  }

  /** A meeting of another user, or a deleted one, never shows up. */
  lemma OthersNeverListed(rows: seq<Meeting>, userId: string, options: ListOptions, m: Meeting)
    requires m.userId != userId || m.deleted
    ensures GetUserMeetings(rows, userId, options).Ok? ==> m !in GetUserMeetings(rows, userId, options).value.meetings
  {
  }

  /** Sum of the durations, a missing one counting 0. */
  function TotalDuration(ms: seq<Meeting>): int
  {
    if |ms| == 0 then 0
    else TotalDuration(ms[..|ms| - 1]) + Override(ms[|ms| - 1].duration, 0)
  }

  /** `Math.round(total / count)` for a positive count. */
  function RoundDiv(total: int, count: int): (r: int)
    requires count > 0
    ensures 2 * total - count < 2 * r * count <= 2 * total + count
  {
    var q := (2 * total + count) / (2 * count);
    assert 2 * total + count == (2 * count) * q + (2 * total + count) % (2 * count);
    q
  }

  predicate IsActive(m: Meeting) { m.status == StatusActive }

  predicate OwnedLive(m: Meeting, userId: string) { m.userId == userId && !m.deleted }

  /** `getUserMeetingStats(userId)` */
  function GetUserMeetingStats(rows: seq<Meeting>, userId: string): (s: MeetingStats)
    ensures s.totalMeetings == |Filter(rows, (m: Meeting) => OwnedLive(m, userId))|
    ensures s.totalDuration == TotalDuration(Filter(rows, (m: Meeting) => OwnedLive(m, userId)))
    ensures s.activeMeetings == |Filter(rows, (m: Meeting) => OwnedLive(m, userId) && IsActive(m))|
    ensures s.activeMeetings <= s.totalMeetings
    ensures s.totalMeetings == 0 ==> s.averageDuration == 0 && s.totalDuration == 0
    ensures s.totalMeetings > 0 ==>
      2 * s.totalDuration - s.totalMeetings < 2 * s.averageDuration * s.totalMeetings <= 2 * s.totalDuration + s.totalMeetings
  {
    var mine := Filter(rows, (m: Meeting) => OwnedLive(m, userId));
    var total := TotalDuration(mine);
    var active := Count(mine, IsActive);
    FilterFilter(rows, (m: Meeting) => OwnedLive(m, userId), IsActive, (m: Meeting) => OwnedLive(m, userId) && IsActive(m));
    MeetingStats(|mine|, total, if |mine| > 0 then RoundDiv(total, |mine|) else 0, active)
  }

  /** A new active meeting of the user adds one meeting, one active meeting
      and its duration (0 if it has none) to that user's statistics. */
  lemma {:induction false} StatsAfterCreate(rows: seq<Meeting>, m: Meeting)
    requires IsActive(m) && !m.deleted
    ensures var before := GetUserMeetingStats(rows, m.userId);
      var after := GetUserMeetingStats(rows + [m], m.userId);
      after.totalMeetings == before.totalMeetings + 1
      && after.activeMeetings == before.activeMeetings + 1
      && after.totalDuration == before.totalDuration + Override(m.duration, 0)
  {
    var p := (x: Meeting) => OwnedLive(x, m.userId);
    FilterAppend(rows, m, p);
    var mine := Filter(rows, p);
    assert Filter(rows + [m], p) == mine + [m];
    assert (mine + [m])[..|mine|] == mine;
    FilterAppend(mine, m, IsActive);
  }

  /** The meeting table. */
  class MeetingService {
    var rows: seq<Meeting>
    /** Every `updateMeeting` call made on this service, in order. */
    ghost var requests: seq<UpdateRequest>

    ghost predicate Valid()
      reads this
    {
      UniqueIds(rows)
    }

    constructor()
      ensures Valid() && rows == [] && requests == []
    {
      rows := [];
      requests := [];
    }

    /** `createMeeting(data)`: the data with status forced to 'active'. The
        new id and the creation time are supplied by the caller; `fault` is
        the error the database raises on the save, if any, and nothing is
        stored then. */
    method CreateMeeting(data: CreateMeetingData, id: string, now: int, fault: Option<JsValue>)
      returns (r: Result<Meeting, JsValue>)
      requires Valid()
      requires forall k :: 0 <= k < |rows| ==> rows[k].id != id
      modifies this
      ensures Valid() && requests == old(requests)
      ensures fault.Some? ==> r == Err(fault.value) && rows == old(rows)
      ensures fault.None? ==>
        r == Ok(Meeting(id, data.title, data.duration, data.fileSize, data.filePath, data.summary,
                        StatusActive, data.userId, now, false))
        && rows == old(rows) + [r.value]
    {
      if fault.Some? {
        return Err(fault.value);
      }
      var m := Meeting(id, data.title, data.duration, data.fileSize, data.filePath, data.summary,
                       StatusActive, data.userId, now, false);
      rows := rows + [m];
      r := Ok(m);
    }

    /** `updateMeeting(meetingId, userId, data)`. `fault` is the error the
        database raises on this call, if any; nothing changes then. */
    method UpdateMeeting(meetingId: string, userId: string, patch: MeetingPatch, fault: Option<JsValue>)
      returns (r: Result<Option<Meeting>, JsValue>)
      requires Valid()
      modifies this
      ensures Valid()
      ensures requests == old(requests) + [UpdateRequest(meetingId, userId, patch)]
      ensures fault.Some? ==> r == Err(fault.value) && rows == old(rows)
      ensures fault.None? && FindOwned(old(rows), meetingId, userId).None? ==> r == Ok(None) && rows == old(rows)
      ensures fault.None? && FindOwned(old(rows), meetingId, userId).Some? ==>
        var k := FindOwned(old(rows), meetingId, userId).value;
        rows == old(rows)[k := ApplyPatch(old(rows)[k], patch)] && r == Ok(Some(rows[k]))
    {
      requests := requests + [UpdateRequest(meetingId, userId, patch)];
      if fault.Some? {
        return Err(fault.value);
      }
      var found := FindOwned(rows, meetingId, userId);
      if found.None? {
        return Ok(None);
      }
      var k := found.value;
      rows := rows[k := ApplyPatch(rows[k], patch)];
      r := Ok(Some(rows[k]));
    }

    /** `deleteMeeting(meetingId, userId)`: soft-deletes the owned meeting. */
    method DeleteMeeting(meetingId: string, userId: string, fault: Option<JsValue>) returns (r: Result<bool, JsValue>)
      requires Valid()
      modifies this
      ensures Valid() && requests == old(requests)
      ensures fault.Some? ==> r == Err(fault.value) && rows == old(rows)
      ensures fault.None? ==> (r == Ok(true) <==> FindOwned(old(rows), meetingId, userId).Some?)
      ensures fault.None? ==> r.Ok?
      ensures fault.None? && FindOwned(old(rows), meetingId, userId).None? ==> rows == old(rows)
      ensures fault.None? && FindOwned(old(rows), meetingId, userId).Some? ==>
        var k := FindOwned(old(rows), meetingId, userId).value;
        rows == old(rows)[k := old(rows)[k].(deleted := true)]
    {
      if fault.Some? {
        return Err(fault.value);
      }
      var found := FindOwned(rows, meetingId, userId);
      if found.None? {
        return Ok(false);
      }
      var k := found.value;
      rows := rows[k := rows[k].(deleted := true)];
      r := Ok(true);
    }

    /** `meetingRepository.update(meetingId, { status })`: no owner check and
        no error when no row has that id. */
    method SetStatusById(meetingId: string, status: string, fault: Option<JsValue>) returns (r: Result<(), JsValue>)
      requires Valid()
      modifies this
      ensures Valid() && requests == old(requests)
      ensures fault.Some? ==> r == Err(fault.value) && rows == old(rows)
      ensures fault.None? ==> r == Ok(()) && rows == WithStatus(old(rows), meetingId, status)
    {
      if fault.Some? {
        return Err(fault.value);
      }
      rows := WithStatus(rows, meetingId, status);
      r := Ok(());
    }
  }

  /** The table after `update(meetingId, { status })`: every row with that
      id, deleted or not and whoever owns it, takes the status; no other
      row or field changes. */
  function WithStatus(rows: seq<Meeting>, meetingId: string, status: string): (r: seq<Meeting>)
    ensures |r| == |rows|
    ensures forall k :: 0 <= k < |rows| ==>
      r[k] == if rows[k].id == meetingId then rows[k].(status := status) else rows[k]
  {
    seq(|rows|, k requires 0 <= k < |rows| => if rows[k].id == meetingId then rows[k].(status := status) else rows[k])
  }

  /** A deleted meeting is gone for its owner: no lookup finds it and no
      further update or delete applies to it. */
  lemma DeletedIsInvisible(rows: seq<Meeting>, k: nat, userId: string)
    requires k < |rows| && UniqueIds(rows) && OwnedAt(rows, k, rows[k].id, userId)
    ensures var after := rows[k := rows[k].(deleted := true)];
      GetMeetingById(after, rows[k].id, userId).None? && FindOwned(after, rows[k].id, userId).None?
  {
    var after := rows[k := rows[k].(deleted := true)];
    forall j ensures !OwnedAt(after, j, rows[k].id, userId) {
      if 0 <= j < |after| && j != k {
        assert rows[j].id != rows[k].id;
      }
    }
  }
}
