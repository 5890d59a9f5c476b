// GET /jobs: one page, and the walk that follows nextCursor. created_at is kept in microseconds, but a cursor carries
// it through toISOString, which cuts it to milliseconds.
module Paging {
  import opened Types
  import opened Lists

  datatype JobRow = JobRow(micros: int, id: JobId, status: Status)
  datatype Cursor = Cursor(micros: int, id: JobId)
  datatype Page = Page(jobs: seq<JobRow>, next: Option<Cursor>)

  // A query parameter: left out, given more than once, or given as a text that parses, or does not, to a T.
  datatype Raw<T> = Missing | Several | Text(parsed: T)
  datatype Numeral = Blank | NotFinite | Finite(value: real)
  datatype Result<T> = Ok(value: T) | BadRequest(why: string)

  // ---- Row order: (created_at, id) DESC ----

  predicate Before(a: JobRow, b: JobRow) { a.micros < b.micros || (a.micros == b.micros && a.id < b.id) }

  predicate Past(c: Cursor, row: JobRow) { row.micros < c.micros || (row.micros == c.micros && row.id < c.id) }

  ghost predicate Descending(rows: seq<JobRow>) {
    forall i, j :: 0 <= i < j < |rows| ==> Before(rows[j], rows[i])
  }

  function ToMillis(micros: int): int { micros / 1000 }

  function CursorAt(last: JobRow): Cursor { Cursor(ToMillis(last.micros) * 1000, last.id) }

  // ---- Parameters ----

  const FALLBACK := 20
  const MAX := 100

  function ParseLimit(raw: Raw<Numeral>): (r: Result<nat>)
    ensures r.Ok? ==> 1 <= r.value <= MAX
  {
    match raw
    case Missing => Ok(FALLBACK)
    case Several => BadRequest("limit must be a single value")
    case Text(Blank) => BadRequest("limit must be a number")
    case Text(NotFinite) => BadRequest("limit must be a number")
    case Text(Finite(x)) =>
      if x != x.Floor as real then BadRequest("limit must be a whole number")
      else if x < 1.0 then BadRequest("limit must be at least 1")
      else Ok(if x.Floor < MAX then x.Floor else MAX)
  }

  function Number(n: int): Raw<Numeral> { Text(Finite(n as real)) }

  // Leaving the limit out and any whole number from 1 are accepted, and nothing else.
  lemma LimitAccepted(raw: Raw<Numeral>)
    ensures ParseLimit(raw).Ok? <==> raw == Missing || exists n :: n >= 1 && raw == Number(n)
    ensures forall n :: n >= 1 && raw == Number(n) ==> ParseLimit(raw).value == if n < 100 then n else 100
    ensures raw == Missing ==> ParseLimit(raw).value == 20
  {
    if raw.Text? && raw.parsed.Finite? && ParseLimit(raw).Ok? {
      assert raw == Number(raw.parsed.value.Floor);
    }
  }

  function ParseStatus(raw: Raw<Option<Status>>): Result<Option<Status>> {
    match raw
    case Missing => Ok(None)
    case Several => BadRequest("status must be a single value")
    case Text(None) => BadRequest("unknown status")
    case Text(Some(s)) => Ok(Some(s))
  }

  function DecodeCursor(raw: Raw<Option<Cursor>>): Result<Option<Cursor>> {
    match raw
    case Missing => Ok(None)
    case Several => BadRequest("cursor must be a single value")
    case Text(None) => BadRequest("invalid cursor")
    case Text(Some(c)) => Ok(Some(c))
  }

  // ---- The statement, as text with numbered parameters ----

  datatype Param = StatusParam(status: Status) | TimeParam(micros: int) | IdParam(id: JobId) | CountParam(count: nat)

  // status = $p, or (created_at, id) < ($t, $i)
  datatype Condition = StatusIs(p: nat) | RowBefore(t: nat, i: nat)

  function Numbered(params: seq<Param>, p: nat): Option<Param> {
    if 1 <= p <= |params| then Some(params[p - 1]) else None
  }

  predicate Holds(c: Condition, params: seq<Param>, row: JobRow) {
    match c
    case StatusIs(p) => Numbered(params, p) == Some(StatusParam(row.status))
    case RowBefore(t, i) =>
      var time, id := Numbered(params, t), Numbered(params, i);
      time.Some? && time.value.TimeParam? && id.Some? && id.value.IdParam?
      && Past(Cursor(time.value.micros, id.value.id), row)
  }

  predicate AllHold(where: seq<Condition>, params: seq<Param>, row: JobRow) {
    forall c :: c in where ==> Holds(c, params, row)
  }

  function Filter(where: seq<Condition>, params: seq<Param>, table: seq<JobRow>): seq<JobRow> {
    if |table| == 0 then []
    else (if AllHold(where, params, table[0]) then [table[0]] else []) + Filter(where, params, table[1..])
  }

  function Take(rows: seq<JobRow>, n: nat): seq<JobRow> { if |rows| <= n then rows else rows[..n] }

  function Select(where: seq<Condition>, limit: nat, params: seq<Param>, table: seq<JobRow>): seq<JobRow> {
    match Numbered(params, limit)
    case Some(CountParam(n)) => Take(Filter(where, params, table), n)
    case _ => []
  }

  // ---- A page, by what it means ----

  // The rows a page may show, newest first.
  predicate Wanted(status: Option<Status>, cursor: Option<Cursor>, row: JobRow) {
    (status.Some? ==> row.status == status.value) && (cursor.Some? ==> Past(cursor.value, row))
  }

  function Matching(table: seq<JobRow>, status: Option<Status>, cursor: Option<Cursor>): seq<JobRow> {
    if |table| == 0 then []
    else (if Wanted(status, cursor, table[0]) then [table[0]] else []) + Matching(table[1..], status, cursor)
  }

  function PageOf(table: seq<JobRow>, status: Option<Status>, cursor: Option<Cursor>, limit: nat): Page
    requires limit >= 1
  {
    var rows := Matching(table, status, cursor);
    if |rows| > limit then Page(rows[..limit], Some(CursorAt(rows[limit - 1]))) else Page(rows, None)
  }

  lemma {:induction false} FilterMatches(where: seq<Condition>, params: seq<Param>, table: seq<JobRow>,
                                         status: Option<Status>, cursor: Option<Cursor>)
    requires forall row :: AllHold(where, params, row) <==> Wanted(status, cursor, row)
    ensures Filter(where, params, table) == Matching(table, status, cursor)
  {
    if |table| > 0 { FilterMatches(where, params, table[1..], status, cursor); }
  }

  // The conditions refer to the right parameters, whichever of the two filters are there.
  lemma NumbersLineUp(where: seq<Condition>, params: seq<Param>, status: Option<Status>, cursor: Option<Cursor>, limit: nat)
    requires var s := if status.Some? then [StatusParam(status.value)] else [];
      var c := if cursor.Some? then [TimeParam(cursor.value.micros), IdParam(cursor.value.id)] else [];
      params == s + c + [CountParam(limit + 1)]
    requires var s := if status.Some? then [StatusIs(1)] else [];
      var c := if cursor.Some? then [if status.Some? then RowBefore(2, 3) else RowBefore(1, 2)] else [];
      where == s + c
    ensures forall row :: AllHold(where, params, row) <==> Wanted(status, cursor, row)
  {
    var n := if status.Some? then 1 else 0;
    assert status.Some? ==> Numbered(params, 1) == Some(StatusParam(status.value)) && where[0] == StatusIs(1);
    assert cursor.Some? ==> where[n] == RowBefore(n + 1, n + 2);
    assert cursor.Some? ==> Numbered(params, n + 1) == Some(TimeParam(cursor.value.micros));
    assert cursor.Some? ==> Numbered(params, n + 2) == Some(IdParam(cursor.value.id));
    hide Numbered, Past;
    forall row ensures AllHold(where, params, row) <==> Wanted(status, cursor, row) {
      if status.Some? { assert StatusIs(1) in where; }
      if cursor.Some? { assert RowBefore(n + 1, n + 2) in where; }
      assert forall c :: c in where ==> (status.Some? && c == StatusIs(1)) || (cursor.Some? && c == RowBefore(n + 1, n + 2));
    }
  }

  // The two arrays, filled as the filters are found.
  method BuildQuery(status: Option<Status>, cursor: Option<Cursor>, limit: nat)
    returns (where: seq<Condition>, params: seq<Param>)
    ensures forall row :: AllHold(where, params, row) <==> Wanted(status, cursor, row)
    ensures Numbered(params, |params|) == Some(CountParam(limit + 1))
  {
    where, params := [], [];
    if status.Some? {
      params := params + [StatusParam(status.value)];
      where := where + [StatusIs(|params|)];
    }
    if cursor.Some? {
      params := params + [TimeParam(cursor.value.micros), IdParam(cursor.value.id)];
      where := where + [RowBefore(|params| - 1, |params|)];
    }
    params := params + [CountParam(limit + 1)];
    NumbersLineUp(where, params, status, cursor, limit);
  }

  // One row more than the page is asked for, to see whether another page follows.
  method FetchPage(table: seq<JobRow>, status: Option<Status>, cursor: Option<Cursor>, limit: nat) returns (p: Page)
    requires limit >= 1
    ensures p == PageOf(table, status, cursor, limit)
  {
    var where, params := BuildQuery(status, cursor, limit);
    var rows := Select(where, |params|, params, table);
    FilterMatches(where, params, table, status, cursor);
    hide AllHold, Wanted, Filter, Matching, CursorAt;
    var hasMore := |rows| > limit;
    var page := if hasMore then rows[..limit] else rows;
    p := Page(page, if hasMore && |page| > 0 then Some(CursorAt(page[|page| - 1])) else None);
  }

  // What a well-formed parameter says: a value, or by its absence that there is none.
  predicate Says<T(==)>(raw: Raw<Option<T>>, v: Option<T>) { raw == if v.Some? then Text(v) else Missing }

  ghost predicate SaysLimit(raw: Raw<Numeral>, limit: nat) {
    || (raw == Missing && limit == 20)
    || exists n :: n >= 1 && raw == Number(n) && limit == if n < 100 then n else 100
  }

  // The handler. The table is read in descending order, as ORDER BY asks.
  method GetJobs(table: seq<JobRow>, rawStatus: Raw<Option<Status>>, rawLimit: Raw<Numeral>, rawCursor: Raw<Option<Cursor>>)
    returns (r: Result<Page>)
    ensures r.Ok? <==>
      (exists s :: Says(rawStatus, s)) && (exists n :: SaysLimit(rawLimit, n)) && (exists c :: Says(rawCursor, c))
    ensures forall status, cursor, limit :: Says(rawStatus, status) && Says(rawCursor, cursor) && SaysLimit(rawLimit, limit) ==>
      limit >= 1 && r == Ok(PageOf(table, status, cursor, limit))
  {
    Accepted(rawStatus);
    Accepted(rawCursor);
    LimitSaid(rawLimit);
    var status, limit, cursor := ParseStatus(rawStatus), ParseLimit(rawLimit), DecodeCursor(rawCursor);
    hide ParseLimit, SaysLimit, PageOf;
    if status.BadRequest? { return BadRequest(status.why); }
    if limit.BadRequest? { return BadRequest(limit.why); }
    if cursor.BadRequest? { return BadRequest(cursor.why); }
    var page := FetchPage(table, status.value, cursor.value, limit.value);
    return Ok(page);
  }

  lemma Accepted<T>(raw: Raw<Option<T>>)
    ensures (exists v :: Says(raw, v)) <==> raw != Several && raw != Text(None)
  {
    if raw.Missing? { assert Says(raw, None); }
    if raw.Text? && raw.parsed.Some? { assert Says(raw, raw.parsed); }
  }

  lemma LimitSaid(raw: Raw<Numeral>)
    ensures ParseLimit(raw).Ok? ==> SaysLimit(raw, ParseLimit(raw).value)
    ensures forall n: nat :: SaysLimit(raw, n) ==> ParseLimit(raw) == Ok(n)
  {
    LimitAccepted(raw);
  }

  // ---- What a page holds ----

  lemma {:induction false} MatchingRows(table: seq<JobRow>, status: Option<Status>, cursor: Option<Cursor>)
    ensures forall row :: row in Matching(table, status, cursor) <==> row in table && Wanted(status, cursor, row)
    ensures Descending(table) ==> Descending(Matching(table, status, cursor))
  {
    if |table| > 0 {
      var rest := Matching(table[1..], status, cursor);
      MatchingRows(table[1..], status, cursor);
      assert forall row :: row in table <==> row == table[0] || row in table[1..];
      if Descending(table) {
        assert forall row :: row in rest ==> Before(row, table[0]);
      }
    }
  }

  predicate Asked(status: Option<Status>, cursor: Option<Cursor>, row: JobRow) {
    && (status.None? || row.status == status.value)
    && (cursor.None? || row.micros < cursor.value.micros || (row.micros == cursor.value.micros && row.id < cursor.value.id))
  }

  // Main result: a page shows rows of the table only, of the status asked for, past the cursor, at most `limit` of them,
  // newest first. What else it should have shown comes after all of these; exactly then there is a next page, this one
  // is full, and its last row, cut to the millisecond, is where the next one starts.
  lemma PageExactly(table: seq<JobRow>, status: Option<Status>, cursor: Option<Cursor>, limit: nat)
    requires limit >= 1 && Descending(table)
    ensures var p := PageOf(table, status, cursor, limit);
      && Descending(p.jobs) && |p.jobs| <= limit
      && (forall row :: row in p.jobs ==> row in table && Asked(status, cursor, row))
      && (forall row :: row in table && Asked(status, cursor, row) && row !in p.jobs ==> forall x :: x in p.jobs ==> Before(row, x))
      && (p.next.Some? <==> exists row :: row in table && Asked(status, cursor, row) && row !in p.jobs)
      && (p.next.Some? ==> |p.jobs| == limit && p.next.value.id == p.jobs[limit - 1].id)
      && (p.next.Some? ==> p.next.value.micros == p.jobs[limit - 1].micros - p.jobs[limit - 1].micros % 1000)
  {
    PageFacts(table, status, cursor, limit);
    MatchingRows(table, status, cursor);
    var rows := Matching(table, status, cursor);
    if |rows| > limit {
      assert rows[limit] in rows;
      assert forall x :: x in rows[..limit] ==> Before(rows[limit], x);
      assert rows[limit] !in rows[..limit];
    }
  }

  // ---- The walk ----

  // One request per table; the table may be another one each time. What the pages showed, one after the other.
  function Walk(tables: seq<seq<JobRow>>, status: Option<Status>, cursor: Option<Cursor>, limit: nat): seq<JobRow>
    requires limit >= 1
  {
    if |tables| == 0 then []
    else
      var p := PageOf(tables[0], status, cursor, limit);
      p.jobs + if p.next.None? then [] else Walk(tables[1..], status, p.next, limit)
  }

  // The walk came to a page with no nextCursor.
  predicate Finished(tables: seq<seq<JobRow>>, status: Option<Status>, cursor: Option<Cursor>, limit: nat)
    requires limit >= 1
  {
    |tables| > 0 &&
    var p := PageOf(tables[0], status, cursor, limit);
    p.next.None? || Finished(tables[1..], status, p.next, limit)
  }

  // The last rows of the pages that led to another page.
  function Breaks(tables: seq<seq<JobRow>>, status: Option<Status>, cursor: Option<Cursor>, limit: nat): seq<JobRow>
    requires limit >= 1
  {
    if |tables| == 0 then []
    else
      var p := PageOf(tables[0], status, cursor, limit);
      if p.next.None? then [] else [p.jobs[limit - 1]] + Breaks(tables[1..], status, p.next, limit)
  }

  // A row that comes after `last` in the order, but that the cursor made from `last` cuts off.
  predicate CutOff(last: JobRow, row: JobRow) { Before(row, last) && !Past(CursorAt(last), row) }

  predicate SameMillisecond(a: JobRow, b: JobRow) { ToMillis(a.micros) == ToMillis(b.micros) }

  lemma CursorNotAfter(last: JobRow, row: JobRow)
    requires Past(CursorAt(last), row)
    ensures Before(row, last)
  {}

  lemma CutOffSharesMillisecond(last: JobRow, row: JobRow)
    ensures CutOff(last, row) <==>
      (&& Before(row, last) && SameMillisecond(last, row)
       && (row.micros % 1000 > 0 || (last.micros % 1000 > 0 && row.id >= last.id)))
  {}

  lemma PageFacts(table: seq<JobRow>, status: Option<Status>, cursor: Option<Cursor>, limit: nat)
    requires limit >= 1 && Descending(table)
    ensures var p := PageOf(table, status, cursor, limit);
      && Descending(p.jobs)
      && (forall row :: row in p.jobs ==> row in table && Wanted(status, cursor, row))
      && (p.next.None? ==> forall row :: row in table && Wanted(status, cursor, row) ==> row in p.jobs)
      && (p.next.Some? ==> |p.jobs| == limit && p.next == Some(CursorAt(p.jobs[limit - 1])))
      && (p.next.Some? ==> forall row :: row in p.jobs ==> row == p.jobs[limit - 1] || Before(p.jobs[limit - 1], row))
      && (p.next.Some? ==> forall row :: row in table && Wanted(status, cursor, row) ==>
            row in p.jobs || Before(row, p.jobs[limit - 1]))
  {
    MatchingRows(table, status, cursor);
    var rows := Matching(table, status, cursor);
    if |rows| > limit {
      assert rows[..limit][limit - 1] == rows[limit - 1];
      forall row | row in rows ensures row in rows[..limit] || Before(row, rows[limit - 1]) {
        var i :| 0 <= i < |rows| && rows[i] == row;
        if i < limit { assert rows[..limit][i] == row; }
      }
    }
  }

  ghost predicate EverThere(tables: seq<seq<JobRow>>, row: JobRow) { exists t :: t in tables && row in t }

  // Main result: whatever becomes of the table between pages, the walk shows rows in strictly descending order, so
  // none twice; and each is past the cursor it started from.
  lemma {:induction false} WalkDescends(tables: seq<seq<JobRow>>, status: Option<Status>, cursor: Option<Cursor>, limit: nat)
    requires limit >= 1 && forall t :: t in tables ==> Descending(t)
    ensures Descending(Walk(tables, status, cursor, limit))
    ensures forall row :: row in Walk(tables, status, cursor, limit) ==>
      Wanted(status, cursor, row) && EverThere(tables, row)
  {
    if |tables| > 0 {
      var p := PageOf(tables[0], status, cursor, limit);
      PageFacts(tables[0], status, cursor, limit);
      if p.next.Some? {
        WalkDescends(tables[1..], status, p.next, limit);
        var rest := Walk(tables[1..], status, p.next, limit);
        PageThenRest(p, cursor, rest);
        forall row | row in rest ensures EverThere(tables, row) && Wanted(status, cursor, row) {
          var t :| t in tables[1..] && row in t;
          assert t in tables;
        }
      }
      assert forall row :: row in p.jobs ==> row in tables[0];
    }
  }

  lemma PageThenRest(p: Page, cursor: Option<Cursor>, rest: seq<JobRow>)
    requires p.next.Some? && |p.jobs| > 0 && p.next.value == CursorAt(p.jobs[|p.jobs| - 1])
    requires Descending(p.jobs) && Descending(rest)
    requires forall row :: row in rest ==> Past(p.next.value, row)
    requires cursor.Some? ==> forall row :: row in p.jobs ==> Past(cursor.value, row)
    ensures Descending(p.jobs + rest)
    ensures cursor.Some? ==> forall row :: row in rest ==> Past(cursor.value, row)
  {
    var last := p.jobs[|p.jobs| - 1];
    assert last in p.jobs;
    forall row | row in rest ensures Before(row, last) { CursorNotAfter(last, row); }
    forall i, j | 0 <= i < |p.jobs| && 0 <= j < |rest| ensures Before(rest[j], p.jobs[i]) {
      assert rest[j] in rest;
    }
  }

  // Main result: of the rows there all along, a finished walk misses exactly those that some page's cursor cuts off.
  lemma {:induction false} MissedExactlyWhenCutOff(tables: seq<seq<JobRow>>, status: Option<Status>,
                                                   cursor: Option<Cursor>, limit: nat, row: JobRow)
    requires limit >= 1 && (forall t :: t in tables ==> Descending(t) && row in t)
    requires Finished(tables, status, cursor, limit) && Wanted(status, cursor, row)
    ensures row !in Walk(tables, status, cursor, limit) <==>
      exists last :: last in Breaks(tables, status, cursor, limit) && CutOff(last, row)
  {
    var p := PageOf(tables[0], status, cursor, limit);
    PageFacts(tables[0], status, cursor, limit);
    if p.next.Some? {
      var last := p.jobs[limit - 1];
      var later, breaks := Walk(tables[1..], status, p.next, limit), Breaks(tables[1..], status, p.next, limit);
      assert Walk(tables, status, cursor, limit) == p.jobs + later;
      assert Breaks(tables, status, cursor, limit) == [last] + breaks;
      WalkDescends(tables[1..], status, p.next, limit);
      BreaksPast(tables[1..], status, p.next, limit);
      forall b | b in later ensures Before(b, last) { CursorNotAfter(last, b); }
      hide PageOf, Walk, Breaks, CursorAt;
      if Past(p.next.value, row) {
        CursorNotAfter(last, row);
        MissedExactlyWhenCutOff(tables[1..], status, p.next, limit, row);
        forall b | b in breaks && CutOff(b, row) ensures b in Breaks(tables, status, cursor, limit) {}
      } else if row in p.jobs {
        assert forall b :: b in breaks ==> Before(b, row);
      } else {
        assert last in Breaks(tables, status, cursor, limit) && CutOff(last, row);
      }
    }
  }

  lemma {:induction false} BreaksPast(tables: seq<seq<JobRow>>, status: Option<Status>, cursor: Option<Cursor>, limit: nat)
    requires limit >= 1 && forall t :: t in tables ==> Descending(t)
    ensures forall last :: last in Breaks(tables, status, cursor, limit) ==> last in Walk(tables, status, cursor, limit)
  {
    if |tables| > 0 {
      var p := PageOf(tables[0], status, cursor, limit);
      PageFacts(tables[0], status, cursor, limit);
      if p.next.Some? { BreaksPast(tables[1..], status, p.next, limit); }
    }
  }

  // Main result: so a missed row shares a millisecond with the last row of one of the pages.
  lemma MissedSharesMillisecond(tables: seq<seq<JobRow>>, status: Option<Status>, limit: nat, row: JobRow)
    requires limit >= 1 && (forall t :: t in tables ==> Descending(t) && row in t)
    requires Finished(tables, status, None, limit) && Wanted(status, None, row)
    requires row !in Walk(tables, status, None, limit)
    ensures exists last :: last in Breaks(tables, status, None, limit) && SameMillisecond(last, row) && Before(row, last)
  {
    MissedExactlyWhenCutOff(tables, status, None, limit, row);
    var last :| last in Breaks(tables, status, None, limit) && CutOff(last, row);
    CutOffSharesMillisecond(last, row);
  }

  // It does happen: two jobs of one millisecond, one to a page, and the older is never shown.
  lemma OneMillisecondSkipped()
    ensures var table := [JobRow(1500, 1, Queued), JobRow(1200, 2, Queued)];
      && Descending(table) && Finished([table, table], None, None, 1)
      && Walk([table, table], None, None, 1) == [table[0]]
  {}

  // ---- Rows inserted between pages ----

  // Each table is the original one with rows added at its new end.
  ghost predicate Grown(tables: seq<seq<JobRow>>, original: seq<JobRow>) {
    Descending(original) && forall t :: t in tables ==>
      Descending(t) && |original| <= |t| && t[|t| - |original|..] == original
  }

  // The first page reads the original table; later ones continue from one of its rows.
  ghost predicate Underway(tables: seq<seq<JobRow>>, original: seq<JobRow>, cursor: Option<Cursor>) {
    match cursor
    case None => |tables| > 0 ==> tables[0] == original
    case Some(c) => exists last :: last in original && c == CursorAt(last)
  }

  lemma {:induction false} SameRowsSameOrder(s: seq<JobRow>, t: seq<JobRow>)
    requires Descending(s) && Descending(t) && forall row :: row in s <==> row in t
    ensures s == t
  {
    assert |t| > 0 ==> t[0] in s;
    if |s| > 0 {
      assert s[0] in t;
      assert t[0] in s;
      forall row ensures row in s[1..] <==> row in t[1..] {
        assert row in s <==> row == s[0] || row in s[1..];
        assert row in t <==> row == t[0] || row in t[1..];
      }
      SameRowsSameOrder(s[1..], t[1..]);
      assert s == [s[0]] + s[1..] && t == [t[0]] + t[1..];
    }
  }

  lemma NewerNotPast(table: seq<JobRow>, original: seq<JobRow>, last: JobRow, row: JobRow)
    requires Descending(table) && |original| <= |table| && table[|table| - |original|..] == original
    requires last in original && row in table && Past(CursorAt(last), row)
    ensures row in original
  {
    var d := |table| - |original|;
    var j :| 0 <= j < |original| && original[j] == last;
    var i :| 0 <= i < |table| && table[i] == row;
    CursorNotAfter(last, row);
    assert table[d + j] == last;
    if i >= d { assert original[i - d] == row; }
  }

  // What is wanted of a grown table is what was wanted of the original one.
  lemma GrownMatches(tables: seq<seq<JobRow>>, original: seq<JobRow>, status: Option<Status>, cursor: Option<Cursor>)
    requires |tables| > 0 && Grown(tables, original) && Underway(tables, original, cursor)
    ensures Matching(tables[0], status, cursor) == Matching(original, status, cursor)
  {
    if cursor.Some? {
      var table := tables[0];
      assert table in tables;
      MatchingRows(table, status, cursor);
      MatchingRows(original, status, cursor);
      var last :| last in original && cursor.value == CursorAt(last);
      forall row ensures row in Matching(table, status, cursor) <==> row in Matching(original, status, cursor) {
        if row in table && Past(cursor.value, row) { NewerNotPast(table, original, last, row); }
        if row in original { assert row in table[|table| - |original|..]; }
      }
      SameRowsSameOrder(Matching(table, status, cursor), Matching(original, status, cursor));
    }
  }

  lemma NextUnderway(tables: seq<seq<JobRow>>, original: seq<JobRow>, status: Option<Status>, cursor: Option<Cursor>, limit: nat)
    requires |tables| > 0 && Grown(tables, original) && Underway(tables, original, cursor) && limit >= 1
    ensures var p := PageOf(tables[0], status, cursor, limit);
      && (forall row :: row in p.jobs ==> row in original)
      && (p.next.Some? ==> Grown(tables[1..], original) && Underway(tables[1..], original, p.next))
  {
    GrownMatches(tables, original, status, cursor);
    MatchingRows(original, status, cursor);
    var rows := Matching(original, status, cursor);
    if |rows| > limit {
      assert rows[limit - 1] in rows;
    }
  }

  // Rows inserted after the walk began are never shown.
  lemma {:induction false} WalkStaysInOriginal(tables: seq<seq<JobRow>>, original: seq<JobRow>, status: Option<Status>,
                                               cursor: Option<Cursor>, limit: nat)
    requires limit >= 1 && Grown(tables, original) && Underway(tables, original, cursor)
    ensures forall row :: row in Walk(tables, status, cursor, limit) ==> row in original
  {
    if |tables| > 0 {
      NextUnderway(tables, original, status, cursor, limit);
      var p := PageOf(tables[0], status, cursor, limit);
      if p.next.Some? { WalkStaysInOriginal(tables[1..], original, status, p.next, limit); }
    }
  }

  // Main result: with creation times of whole milliseconds, a finished walk shows exactly the wanted rows of the table
  // it started on, each once and in order, whatever is inserted meanwhile.
  lemma WholeMillisecondsMissNothing(tables: seq<seq<JobRow>>, original: seq<JobRow>, status: Option<Status>, limit: nat)
    requires limit >= 1 && |tables| > 0 && tables[0] == original && Grown(tables, original)
    requires Finished(tables, status, None, limit)
    requires forall row :: row in original ==> row.micros % 1000 == 0
    ensures Walk(tables, status, None, limit) == Matching(original, status, None)
  {
    var walk := Walk(tables, status, None, limit);
    WalkDescends(tables, status, None, limit);
    WalkStaysInOriginal(tables, original, status, None, limit);
    BreaksPast(tables, status, None, limit);
    MatchingRows(original, status, None);
    forall row ensures row in walk <==> row in Matching(original, status, None) {
      if row in original && Wanted(status, None, row) {
        forall t | t in tables ensures row in t { assert row in t[|t| - |original|..]; }
        MissedExactlyWhenCutOff(tables, status, None, limit, row);
        forall last | last in original ensures !CutOff(last, row) { CutOffSharesMillisecond(last, row); }
      }
    }
    SameRowsSameOrder(walk, Matching(original, status, None));
  }

  function RowsOf(s: seq<JobRow>): set<JobRow> { set row | row in s }

  lemma {:induction false} DescendingIsASet(s: seq<JobRow>)
    requires Descending(s)
    ensures |RowsOf(s)| == |s|
  {
    if |s| > 0 {
      DescendingIsASet(s[1..]);
      assert RowsOf(s) == {s[0]} + RowsOf(s[1..]);
      assert s[0] !in s[1..];
    }
  }

  lemma FewerLeft(original: seq<JobRow>, status: Option<Status>, cursor: Option<Cursor>, k: nat)
    requires Descending(original) && k < |Matching(original, status, cursor)|
    ensures var rows := Matching(original, status, cursor);
      |Matching(original, status, Some(CursorAt(rows[k])))| < |rows| - k
  {
    var rows := Matching(original, status, cursor);
    var left := Matching(original, status, Some(CursorAt(rows[k])));
    MatchingRows(original, status, cursor);
    MatchingRows(original, status, Some(CursorAt(rows[k])));
    DescendingIsASet(left);
    DescendingIsASet(rows[k + 1..]);
    forall row | row in left ensures row in rows[k + 1..] {
      CursorNotAfter(rows[k], row);
      assert cursor.Some? ==> Past(cursor.value, rows[k]) by { assert rows[k] in rows; }
      var i :| 0 <= i < |rows| && rows[i] == row;
      assert rows[k + 1..][i - (k + 1)] == row;
    }
    SubsetSize(RowsOf(left), RowsOf(rows[k + 1..]));
  }

  lemma OnePageLess(pages: nat, limit: nat, rows: nat)
    requires limit < rows <= pages * limit
    ensures pages > 1 && rows - limit <= (pages - 1) * limit
  {
    assert pages * limit == (pages - 1) * limit + limit;
  }

  // Main result: a walk over n wanted rows ends within n / limit pages, rounded up, however the table grows.
  lemma {:induction false} WalkEnds(tables: seq<seq<JobRow>>, original: seq<JobRow>, status: Option<Status>,
                                    cursor: Option<Cursor>, limit: nat)
    requires limit >= 1 && |tables| > 0 && Grown(tables, original) && Underway(tables, original, cursor)
    requires |Matching(original, status, cursor)| <= |tables| * limit
    ensures Finished(tables, status, cursor, limit)
  {
    GrownMatches(tables, original, status, cursor);
    NextUnderway(tables, original, status, cursor, limit);
    var rows := Matching(original, status, cursor);
    if |rows| > limit {
      FewerLeft(original, status, cursor, limit - 1);
      OnePageLess(|tables|, limit, |rows|);
      WalkEnds(tables[1..], original, status, Some(CursorAt(rows[limit - 1])), limit);
    }
  }
}
