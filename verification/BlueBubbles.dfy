/** Polling BlueBubbles: offset paging over a log that grows while it is being read. */
module BlueBubbles {
  import opened Types
  import opened Otp
  import opened Collections

  /** The rows of one chat in ROWID order; a message's `cursor` is its ROWID. */
  ghost predicate Log(log: seq<Raw>) {
    && (forall i :: 0 <= i < |log| ==> log[i].cursor > 0)
    && (forall i, j :: 0 <= i < j < |log| ==> log[i].cursor < log[j].cursor)
  }

  /** Rows are only appended. */
  ghost predicate Grows(logs: seq<seq<Raw>>) {
    && (forall i :: 0 <= i < |logs| ==> Log(logs[i]))
    && (forall i, j :: 0 <= i <= j < |logs| ==> logs[i] <= logs[j])
  }

  lemma LaterLog(logs: seq<seq<Raw>>, page: nat)
    requires Grows(logs) && page < |logs|
    ensures Log(logs[page]) && (page + 1 < |logs| ==> logs[page] <= logs[page + 1])
  {
  }

  /** The rows above a cursor. */
  function Above(log: seq<Raw>, cursor: int): seq<Raw> {
    if log == [] then [] else (if log[0].cursor > cursor then [log[0]] else []) + Above(log[1..], cursor)
  }

  function Last(log: seq<Raw>, cursor: int): int {
    if log == [] || log[|log| - 1].cursor < cursor then cursor else log[|log| - 1].cursor
  }

  lemma {:induction false} AboveKeeps(log: seq<Raw>, cursor: int)
    ensures forall m :: m in Above(log, cursor) <==> m in log && m.cursor > cursor
    decreases |log|
  {
    if log != [] {
      AboveKeeps(log[1..], cursor);
      assert log == [log[0]] + log[1..];
    }
  }

  lemma {:induction false} AboveAppend(log: seq<Raw>, more: seq<Raw>, cursor: int)
    ensures Above(log + more, cursor) == Above(log, cursor) + Above(more, cursor)
    decreases |log|
  {
    if log == [] {
      assert log + more == more;
    } else {
      assert (log + more)[1..] == log[1..] + more;
      AboveAppend(log[1..], more, cursor);
    }
  }

  lemma AboveGrows(log: seq<Raw>, later: seq<Raw>, cursor: int)
    requires log <= later
    ensures Above(log, cursor) <= Above(later, cursor)
  {
    assert later == log + later[|log|..];
    AboveAppend(log, later[|log|..], cursor);
  }

  lemma {:induction false} AboveIsALog(log: seq<Raw>, cursor: int)
    requires Log(log)
    ensures Log(Above(log, cursor))
    decreases |log|
  {
    if log != [] {
      AboveIsALog(log[1..], cursor);
      AboveKeeps(log[1..], cursor);
      var rest := Above(log[1..], cursor);
      forall j | 0 <= j < |rest| ensures log[0].cursor < rest[j].cursor {
        assert rest[j] in log[1..];
      }
    }
  }

  // ---------------------------------------------------------------- the server

  datatype Response = Response(messages: seq<Raw>, total: nat)

  /** Rows above the cursor in ascending order, from an offset, at most `limit` of them. */
  function Query(log: seq<Raw>, cursor: int, offset: nat, limit: nat): Response {
    var rows := Above(log, cursor);
    var from := if offset < |rows| then offset else |rows|;
    var to := if offset + limit < |rows| then offset + limit else |rows|;
    Response(rows[from..to], |rows|)
  }

  /** The newest row first, one row. */
  method Arm(log: seq<Raw>) returns (position: int)
    requires Log(log)
    ensures position == Last(log, 0)
    ensures forall m :: m in log ==> m.cursor <= position
  {
    position := 0;
    var messages := if log == [] then [] else [log[|log| - 1]];
    for i := 0 to |messages|
      invariant position == if i == 0 then 0 else messages[0].cursor
    {
      if messages[i].cursor > position {
        position := messages[i].cursor;
      }
    }
  }

  datatype Fetched = Fetched(messages: seq<Raw>, cursor: int) | Exceeded

  /** Appends a page of rows above the cursor, raising the highest ROWID. */
  method TakePage(messages: seq<Raw>, cursor: int, all: seq<Raw>) returns (more: seq<Raw>, highest: int)
    requires Log(all + messages) && forall m :: m in all + messages ==> m.cursor > cursor
    ensures more == all + messages && highest == Last(more, cursor)
  {
    more, highest := all, Last(all, cursor);
    for i := 0 to |messages|
      invariant more == all + messages[..i] && highest == Last(more, cursor)
    {
      assert messages[i] in all + messages;
      assert (all + messages)[|all| + i] == messages[i];
      if messages[i].cursor <= cursor {
        assert false;
      }
      assert forall j :: 0 <= j < |more| ==> more[j] == (all + messages)[j];
      if messages[i].cursor > highest {
        highest := messages[i].cursor;
      }
      more := more + [messages[i]];
    }
  }

  lemma Continues(rows: seq<Raw>, offset: nat, limit: nat)
    requires offset <= |rows|
    ensures var to := if offset + limit < |rows| then offset + limit else |rows|;
            && |rows[offset..to]| == Min(limit, |rows| - offset)
            && rows[..offset] + rows[offset..to] == rows[..offset + Min(limit, |rows| - offset)]
  {
  }

  /** A page at the collected offset continues the rows collected so far, also when the log has grown since. */
  lemma PageContinues(log: seq<Raw>, later: seq<Raw>, cursor: int, offset: nat, limit: nat)
    requires log <= later && offset <= |Above(log, cursor)|
    ensures var rows := Above(later, cursor); var messages := Query(later, cursor, offset, limit).messages;
            && offset <= |rows| && Above(log, cursor)[..offset] == rows[..offset]
            && |messages| == Min(limit, |rows| - offset) && rows[..offset] + messages == rows[..offset + |messages|]
  {
    AboveGrows(log, later, cursor);
    Continues(Above(later, cursor), offset, limit);
  }

  lemma RowsAreALog(later: seq<Raw>, cursor: int, n: nat)
    requires Log(later) && n <= |Above(later, cursor)|
    ensures Log(Above(later, cursor)[..n]) && forall m :: m in Above(later, cursor)[..n] ==> m.cursor > cursor
  {
    AboveIsALog(later, cursor);
    AboveKeeps(later, cursor);
  }

  /** Those rows are exactly the messages in (cursor, newCursor], and nothing in the log is above newCursor. */
  lemma FetchIsExact(log: seq<Raw>, cursor: int)
    requires Log(log)
    ensures var top := Last(Above(log, cursor), cursor);
            && (forall m :: m in log ==> m.cursor <= top)
            && (forall m :: m in Above(log, cursor) <==> m in log && cursor < m.cursor <= top)
            && (top == cursor <==> Above(log, cursor) == [])
  {
    var rows := Above(log, cursor);
    AboveKeeps(log, cursor);
    AboveIsALog(log, cursor);
    forall m | m in log ensures m.cursor <= Last(rows, cursor) {
      if m.cursor > cursor {
        var k :| 0 <= k < |rows| && rows[k] == m;
      }
    }
    if rows != [] {
      assert rows[|rows| - 1] in rows;
    }
  }

  /** Requests one page and takes its rows; the rows collected so far came from an earlier state of the log. */
  method NextPage(ghost before: seq<Raw>, log: seq<Raw>, cursor: int, offset: nat, limit: nat, all: seq<Raw>)
    returns (response: Response, more: seq<Raw>, highest: int)
    requires Log(log) && before <= log && offset <= |Above(before, cursor)| && all == Above(before, cursor)[..offset]
    ensures response == Query(log, cursor, offset, limit)
    ensures offset <= response.total == |Above(log, cursor)| && |response.messages| == Min(limit, response.total - offset)
    ensures more == Above(log, cursor)[..offset + |response.messages|] && highest == Last(more, cursor)
  {
    response := Query(log, cursor, offset, limit);
    PageContinues(before, log, cursor, offset, limit);
    ghost var rows := Above(log, cursor)[..offset + |response.messages|];
    RowsAreALog(log, cursor, offset + |response.messages|);
    assert all + response.messages == rows;
    more, highest := TakePage(response.messages, cursor, all);
  }

  /** A page request ends the fetch: the rows exceed the window, or the page reaches their end. */
  predicate Ends(log: seq<Raw>, cursor: int, page: nat, limit: nat, maxPages: nat) {
    |Above(log, cursor)| > limit * maxPages || |Above(log, cursor)| <= (page + 1) * limit
  }

  /** The first page that ends the fetch. */
  predicate EndsAt(logs: seq<seq<Raw>>, cursor: int, limit: nat, maxPages: nat, last: nat) {
    && last < maxPages <= |logs| && Ends(logs[last], cursor, last, limit, maxPages)
    && forall k :: 0 <= k < last ==> !Ends(logs[k], cursor, k, limit, maxPages)
  }

  /**
   One fetch; `logs` holds the log as it stands at each page request. A successful fetch returns the rows above the
   cursor of the last of them, all of them and in order, although rows arrived between the pages.
   */
  method FetchAfter(logs: seq<seq<Raw>>, cursor: int, limit: nat, maxPages: nat) returns (fetched: Fetched, last: nat)
    requires limit >= 1 && maxPages >= 1 && |logs| >= maxPages && Grows(logs)
    ensures EndsAt(logs, cursor, limit, maxPages, last)
    ensures fetched.Fetched? ==> fetched.messages == Above(logs[last], cursor) && fetched.cursor == Last(Above(logs[last], cursor), cursor)
    ensures fetched.Exceeded? <==> |Above(logs[last], cursor)| > limit * maxPages
  {
    var all: seq<Raw>, page, offset, window := [], 0, 0, limit * maxPages;
    ghost var before: seq<Raw> := [];
    fetched, last := Exceeded, 0;
    while page < maxPages
      invariant 0 <= page <= maxPages && At(page, offset, limit, maxPages, window)
      invariant page < maxPages ==> before <= logs[page]
      invariant offset <= |Above(before, cursor)| && all == Above(before, cursor)[..offset]
      invariant page > 0 ==> offset < |Above(before, cursor)| <= window
      invariant forall k :: 0 <= k < page ==> !Ends(logs[k], cursor, k, limit, maxPages)
    {
      LaterLog(logs, page);
      var response, more, highest := NextPage(before, logs[page], cursor, offset, limit, all);
      if response.total > window {
        return Exceeded, page;
      }
      if offset + |response.messages| >= response.total {
        return Fetched(more, highest), page;
      }
      NextOffset(page, offset, limit, maxPages, window);
      before, all := logs[page], more;
      page, offset := page + 1, offset + limit;
    }
    assert false;
  }

  /** The offset of a page, which reaches the window's end with the last page. */
  predicate At(page: nat, offset: nat, limit: nat, maxPages: nat, window: nat) {
    offset == page * limit && window == limit * maxPages && (page == maxPages ==> offset == window)
  }

  lemma NextOffset(page: nat, offset: nat, limit: nat, maxPages: nat, window: nat)
    requires page < maxPages && At(page, offset, limit, maxPages, window)
    ensures At(page + 1, offset + limit, limit, maxPages, window)
  {
  }

  // ---------------------------------------------------------------- waiting

  function Fits(ms: seq<Raw>, f: Filter): seq<Raw> {
    if ms == [] then [] else (if Matches(ms[0], f) then [ms[0]] else []) + Fits(ms[1..], f)
  }

  lemma {:induction false} FitsAppend(a: seq<Raw>, b: seq<Raw>, f: Filter)
    ensures Fits(a + b, f) == Fits(a, f) + Fits(b, f)
    decreases |a|
  {
    if a == [] {
      assert a + b == b;
    } else {
      assert (a + b)[1..] == a[1..] + b;
      FitsAppend(a[1..], b, f);
    }
  }

  /** Rows never offered before are all considered, whatever the deduplicator has forgotten. */
  lemma {:induction false} SiftTakesNew(raws: seq<Raw>, order: seq<string>, capacity: nat, f: Filter)
    requires DistinctIds(raws) && forall m :: m in raws ==> m.id !in order
    ensures Sift(raws, order, capacity, f).picks == Fits(raws, f)
    ensures forall id :: id in Sift(raws, order, capacity, f).order ==> id in order || id in Ids(raws)
    decreases |raws|
  {
    if raws != [] {
      var m := raws[0];
      assert m in raws;
      IdsOfTail(raws);
      var next := Remember(order, capacity, m.id);
      assert forall id :: id in next ==> id in order || id == m.id;
      forall k | k in raws[1..] ensures k.id !in next {
        var i :| 1 <= i < |raws| && raws[i] == k;
      }
      SiftTakesNew(raws[1..], next, capacity, f);
    }
  }

  /** The rows above the arm are those up to the cursor and those above it. */
  lemma AboveSplits(log: seq<Raw>, rows: seq<Raw>, position: int)
    requires Log(log) && Log(log + rows)
    ensures var cursor := Last(Above(log, position), position);
            Above(log + rows, position) == Above(log, position) + Above(log + rows, cursor)
  {
    var cursor := Last(Above(log, position), position);
    AboveAppend(log, rows, position);
    AboveAppend(log, rows, cursor);
    FetchIsExact(log, position);
    NoneAbove(log, cursor);
    AllAbove(rows, position, cursor, log);
  }

  lemma {:induction false} NoneAbove(log: seq<Raw>, cursor: int)
    requires forall m :: m in log ==> m.cursor <= cursor
    ensures Above(log, cursor) == []
    decreases |log|
  {
    if log != [] {
      assert log[0] in log;
      NoneAbove(log[1..], cursor);
    }
  }

  lemma {:induction false} AllAbove(rows: seq<Raw>, position: int, cursor: int, log: seq<Raw>)
    requires Log(log + rows) && cursor == Last(Above(log, position), position)
    ensures Above(rows, position) == Above(rows, cursor)
  {
    AboveKeeps(log, position);
    if Above(log, position) != [] {
      var top := Above(log, position)[|Above(log, position)| - 1];
      assert top in Above(log, position);
      var k :| 0 <= k < |log| && log[k] == top;
      forall i | 0 <= i < |rows| ensures rows[i].cursor > cursor && rows[i].cursor > position {
        assert (log + rows)[|log| + i] == rows[i] && (log + rows)[k] == top;
      }
      SameAbove(rows, position, cursor);
    }
  }

  lemma {:induction false} SameAbove(rows: seq<Raw>, a: int, b: int)
    requires forall i :: 0 <= i < |rows| ==> (rows[i].cursor > a <==> rows[i].cursor > b)
    ensures Above(rows, a) == Above(rows, b)
    decreases |rows|
  {
    if rows != [] {
      SameAbove(rows[1..], a, b);
    }
  }

  datatype Answer = Candidates(messages: seq<Raw>) | WindowExceeded | StillWaiting

  /** The page-by-page logs of every poll, in order, above an earlier log. */
  ghost predicate Polls(log: seq<Raw>, polls: seq<seq<seq<Raw>>>, maxPages: nat)
    decreases |polls|
  {
    polls == [] ||
    ( && |polls[0]| == maxPages && Grows(polls[0])
      && (forall k :: 0 <= k < maxPages ==> log <= polls[0][k] && DistinctIds(polls[0][k]) && Polls(polls[0][k], polls[1..], maxPages)))
  }

  lemma RowsOfLog(log: seq<Raw>, later: seq<Raw>, cursor: int, order: seq<string>)
    requires DistinctIds(later) && log <= later && (forall m :: m in log ==> m.cursor <= cursor)
    requires forall id :: id in order ==> id in Ids(log)
    ensures forall m :: m in Above(later, cursor) ==> m.id !in order
  {
    AboveKeeps(later, cursor);
    forall m | m in Above(later, cursor) ensures m.id !in order {
    }
  }

  lemma {:induction false} AboveDistinct(log: seq<Raw>, cursor: int)
    requires DistinctIds(log)
    ensures DistinctIds(Above(log, cursor))
    decreases |log|
  {
    if log != [] {
      AboveDistinct(log[1..], cursor);
      AboveKeeps(log[1..], cursor);
      var rest := Above(log[1..], cursor);
      forall j | 0 <= j < |rest| ensures rest[j].id != log[0].id {
        assert rest[j] in log[1..];
      }
    }
  }

  /** What one poll's fetch and selection amount to, seen from the arm. */
  lemma PollIsExact(log: seq<Raw>, later: seq<Raw>, position: int, order: seq<string>, capacity: nat, f: Filter)
    requires Log(log) && Log(later) && log <= later && DistinctIds(later)
    requires Fits(Above(log, position), f) == [] && forall id :: id in order ==> id in Ids(log)
    ensures var cursor := Last(Above(log, position), position); var raws := Above(later, cursor); var s := Sift(raws, order, capacity, f);
            && s.picks == Fits(Above(later, position), f)
            && (forall id :: id in s.order ==> id in Ids(later))
            && Last(raws, cursor) == Last(Above(later, position), position)
  {
    var cursor := Last(Above(log, position), position);
    var raws := Above(later, cursor);
    assert later == log + later[|log|..];
    AboveSplits(log, later[|log|..], position);
    FitsAppend(Above(log, position), raws, f);
    FetchIsExact(log, position);
    RowsOfLog(log, later, cursor, order);
    AboveDistinct(later, cursor);
    SiftTakesNew(raws, order, capacity, f);
    AboveKeeps(later, cursor);
    RowsAreALog(later, position, |Above(later, position)|);
    assert Above(later, position)[..|Above(later, position)|] == Above(later, position);
    LastSplits(Above(log, position), raws, position, cursor);
    forall id | id in Sift(raws, order, capacity, f).order ensures id in Ids(later) {
      if id in order {
        var m :| m in log && m.id == id;
        assert m in later;
      }
    }
  }

  lemma LastSplits(a: seq<Raw>, b: seq<Raw>, position: int, cursor: int)
    requires cursor == Last(a, position) && Log(a + b) && forall i :: 0 <= i < |a + b| ==> (a + b)[i].cursor > position
    ensures Last(b, cursor) == Last(a + b, position)
  {
    if b == [] {
      assert a + b == a;
    } else {
      var n := |a + b| - 1;
      assert (a + b)[n] == b[|b| - 1];
      if a != [] {
        assert (a + b)[|a| - 1] == a[|a| - 1];
      }
    }
  }

  /** The log a poll ended with, and the cursor the next poll starts from. */
  function Read(polls: seq<seq<seq<Raw>>>, stops: seq<nat>, q: nat): seq<Raw>
    requires q < |stops| && q < |polls| && stops[q] < |polls[q]|
  {
    polls[q][stops[q]]
  }

  predicate Readable(polls: seq<seq<seq<Raw>>>, stops: seq<nat>) {
    |stops| <= |polls| && forall q :: 0 <= q < |stops| ==> stops[q] < |polls[q]|
  }

  function CursorBefore(polls: seq<seq<seq<Raw>>>, stops: seq<nat>, position: int, q: nat): int
    requires Readable(polls, stops) && q <= |stops|
  {
    if q == 0 then position else Last(Above(Read(polls, stops, q - 1), position), position)
  }

  /** Poll `q` read its log to the end, from the cursor the polls before it left, and found nothing that fits above the arm. */
  ghost predicate Fruitless(polls: seq<seq<seq<Raw>>>, stops: seq<nat>, position: int, f: Filter, limit: nat, maxPages: nat, q: nat)
    requires Readable(polls, stops) && q < |stops|
  {
    && EndsAt(polls[q], CursorBefore(polls, stops, position, q), limit, maxPages, stops[q])
    && |Above(Read(polls, stops, q), CursorBefore(polls, stops, position, q))| <= limit * maxPages
    && Fits(Above(Read(polls, stops, q), position), f) == []
  }

  /**
   What polling answers, and at which poll: every poll before the last one made was fruitless; the last one exceeded the
   window, or it found exactly the matches above the arm; or all polls were fruitless and it is still waiting.
   */
  ghost predicate Answered(polls: seq<seq<seq<Raw>>>, stops: seq<nat>, position: int, f: Filter, limit: nat, maxPages: nat, answer: Answer) {
    && Readable(polls, stops)
    && (answer.StillWaiting? ==> |stops| == |polls|)
    && (!answer.StillWaiting? ==> stops != [])
    && var made := if answer.StillWaiting? then |stops| else |stops| - 1;
       && (forall q :: 0 <= q < made ==> Fruitless(polls, stops, position, f, limit, maxPages, q))
       && (made < |stops| ==>
             var log, cursor := Read(polls, stops, made), CursorBefore(polls, stops, position, made);
             && EndsAt(polls[made], cursor, limit, maxPages, stops[made])
             && (answer.WindowExceeded? <==> |Above(log, cursor)| > limit * maxPages)
             && (answer.Candidates? ==> answer.messages != [] && Harvest(log, position, f, answer.messages)))
  }

  /** Exactly the genuine messages since the arm, newest first. */
  ghost predicate Harvest(log: seq<Raw>, position: int, f: Filter, messages: seq<Raw>) {
    Descending(messages) && forall m :: m in messages <==> m in log && m.cursor > position && Genuine(m, f)
  }

  /** Every poll made so far was fruitless. */
  ghost predicate Quiet(polls: seq<seq<seq<Raw>>>, stops: seq<nat>, position: int, f: Filter, limit: nat, maxPages: nat) {
    Readable(polls, stops) && forall q :: 0 <= q < |stops| ==> Fruitless(polls, stops, position, f, limit, maxPages, q)
  }

  lemma ExtendedCursor(polls: seq<seq<seq<Raw>>>, stops: seq<nat>, last: nat, position: int)
    requires Readable(polls, stops) && |stops| < |polls| && last < |polls[|stops|]|
    ensures Readable(polls, stops + [last])
    ensures CursorBefore(polls, stops + [last], position, |stops|) == CursorBefore(polls, stops, position, |stops|)
    ensures Read(polls, stops + [last], |stops|) == polls[|stops|][last]
  {
    if |stops| > 0 {
      assert (stops + [last])[|stops| - 1] == stops[|stops| - 1];
    }
  }

  lemma Extended(polls: seq<seq<seq<Raw>>>, stops: seq<nat>, last: nat, position: int, f: Filter, limit: nat, maxPages: nat)
    requires Quiet(polls, stops, position, f, limit, maxPages) && |stops| < |polls| && last < |polls[|stops|]|
    ensures Readable(polls, stops + [last])
    ensures forall q :: 0 <= q < |stops| ==> Fruitless(polls, stops + [last], position, f, limit, maxPages, q)
  {
    var more := stops + [last];
    forall q | 0 <= q < |stops| ensures Fruitless(polls, more, position, f, limit, maxPages, q) {
      assert Fruitless(polls, stops, position, f, limit, maxPages, q) && more[q] == stops[q];
      if q > 0 {
        assert more[q - 1] == stops[q - 1];
      }
    }
  }

  lemma AnotherQuietPoll(polls: seq<seq<seq<Raw>>>, stops: seq<nat>, last: nat, position: int, f: Filter, limit: nat, maxPages: nat, cursor: int)
    requires Quiet(polls, stops, position, f, limit, maxPages) && |stops| < |polls| && last < |polls[|stops|]|
    requires cursor == CursorBefore(polls, stops, position, |stops|) && EndsAt(polls[|stops|], cursor, limit, maxPages, last)
    requires |Above(polls[|stops|][last], cursor)| <= limit * maxPages && Fits(Above(polls[|stops|][last], position), f) == []
    ensures Quiet(polls, stops + [last], position, f, limit, maxPages)
  {
    Extended(polls, stops, last, position, f, limit, maxPages);
    ExtendedCursor(polls, stops, last, position);
  }

  lemma AnAnswer(polls: seq<seq<seq<Raw>>>, stops: seq<nat>, last: nat, position: int, f: Filter, limit: nat, maxPages: nat, cursor: int, answer: Answer)
    requires Quiet(polls, stops, position, f, limit, maxPages) && |stops| < |polls| && last < |polls[|stops|]| && !answer.StillWaiting?
    requires cursor == CursorBefore(polls, stops, position, |stops|) && EndsAt(polls[|stops|], cursor, limit, maxPages, last)
    requires answer.WindowExceeded? <==> |Above(polls[|stops|][last], cursor)| > limit * maxPages
    requires answer.Candidates? ==> answer.messages == NewestFirst(Fits(Above(polls[|stops|][last], position), f)) && answer.messages != []
    ensures Answered(polls, stops + [last], position, f, limit, maxPages, answer)
  {
    GenuineSinceTheArm(polls[|stops|][last], position, f);
    Extended(polls, stops, last, position, f, limit, maxPages);
    ExtendedCursor(polls, stops, last, position);
  }

  lemma EmptySort(ms: seq<Raw>)
    requires NewestFirst(ms) == []
    ensures ms == []
  {
  }

  lemma NextPoll(log: seq<Raw>, polls: seq<seq<seq<Raw>>>, p: nat, maxPages: nat)
    requires p < |polls| && Polls(log, polls[p..], maxPages)
    ensures |polls[p]| == maxPages && Grows(polls[p])
    ensures forall k :: 0 <= k < maxPages ==> log <= polls[p][k] && DistinctIds(polls[p][k])
    ensures forall k :: 0 <= k < maxPages ==> Polls(polls[p][k], polls[p + 1..], maxPages)
  {
    assert polls[p..][0] == polls[p] && polls[p..][1..] == polls[p + 1..];
  }

  /** One poll from the cursor of an earlier log in which nothing fitted. */
  method Poll(logs: seq<seq<Raw>>, ghost log: seq<Raw>, position: int, cursor: int, f: Filter, limit: nat, maxPages: nat, seen: Deduper)
    returns (fetched: Fetched, candidates: seq<Raw>, last: nat)
    requires limit >= 1 && maxPages >= 1 && |logs| == maxPages && Grows(logs) && Log(log) && seen.Valid()
    requires forall k :: 0 <= k < maxPages ==> log <= logs[k] && DistinctIds(logs[k])
    requires cursor == Last(Above(log, position), position) && Fits(Above(log, position), f) == []
    requires forall id :: id in seen.order ==> id in Ids(log)
    modifies seen
    ensures seen.Valid() && EndsAt(logs, cursor, limit, maxPages, last) && Log(logs[last])
    ensures fetched.Exceeded? <==> |Above(logs[last], cursor)| > limit * maxPages
    ensures fetched.Fetched? ==> fetched.cursor == Last(Above(logs[last], position), position) && fetched.cursor >= cursor
    ensures fetched.Fetched? ==> candidates == NewestFirst(Fits(Above(logs[last], position), f))
    ensures fetched.Fetched? ==> forall id :: id in seen.order ==> id in Ids(logs[last])
  {
    fetched, last := FetchAfter(logs, cursor, limit, maxPages);
    candidates := [];
    LaterLog(logs, last);
    if fetched.Fetched? {
      PollIsExact(log, logs[last], position, seen.order, seen.capacity, f);
      candidates := Select(fetched.messages, f, seen);
    }
  }

  lemma {:induction false} FitsKeeps(ms: seq<Raw>, f: Filter)
    ensures forall m :: m in Fits(ms, f) <==> m in ms && Genuine(m, f)
    decreases |ms|
  {
    if ms != [] {
      FitsKeeps(ms[1..], f);
      assert ms == [ms[0]] + ms[1..];
    }
  }

  lemma SortedFits(rows: seq<Raw>, position: int, f: Filter, m: Raw)
    ensures m in NewestFirst(Fits(Above(rows, position), f)) <==> m in rows && m.cursor > position && Genuine(m, f)
  {
    var fits := Fits(Above(rows, position), f);
    NewestFirstSorts(fits);
    assert m in multiset(NewestFirst(fits)) <==> m in multiset(fits);
    FitsKeeps(Above(rows, position), f);
    AboveKeeps(rows, position);
  }

  lemma GenuineSinceTheArm(rows: seq<Raw>, position: int, f: Filter)
    ensures Harvest(rows, position, f, NewestFirst(Fits(Above(rows, position), f)))
  {
    NewestFirstSorts(Fits(Above(rows, position), f));
    OrderedIsDescending(NewestFirst(Fits(Above(rows, position), f)));
    forall m ensures m in NewestFirst(Fits(Above(rows, position), f)) <==> m in rows && m.cursor > position && Genuine(m, f) {
      SortedFits(rows, position, f, m);
    }
  }

  /** Polling after an arm; `stops` are the pages at which the polls that were made ended. */
  method Wait(polls: seq<seq<seq<Raw>>>, ghost armLog: seq<Raw>, position: int, f: Filter, limit: nat, maxPages: nat)
    returns (answer: Answer, stops: seq<nat>)
    requires limit >= 1 && maxPages >= 1 && Log(armLog) && Polls(armLog, polls, maxPages)
    requires forall m :: m in armLog ==> m.cursor <= position
    ensures Answered(polls, stops, position, f, limit, maxPages, answer)
  {
    var cursor := position;
    var seen := new Deduper(limit * maxPages * 2, []);
    ghost var log := armLog;
    stops := [];
    NoneAbove(armLog, position);
    for p := 0 to |polls|
      invariant seen.Valid() && (forall id :: id in seen.order ==> id in Ids(log))
      invariant |stops| == p && Quiet(polls, stops, position, f, limit, maxPages) && cursor == CursorBefore(polls, stops, position, p)
      invariant Log(log) && Polls(log, polls[p..], maxPages)
      invariant cursor == Last(Above(log, position), position) && Fits(Above(log, position), f) == []
      modifies seen
    {
      NextPoll(log, polls, p, maxPages);
      var fetched, candidates, last := Poll(polls[p], log, position, cursor, f, limit, maxPages, seen);
      if fetched.Exceeded? {
        AnAnswer(polls, stops, last, position, f, limit, maxPages, cursor, WindowExceeded);
        return WindowExceeded, stops + [last];
      }
      if |candidates| > 0 {
        AnAnswer(polls, stops, last, position, f, limit, maxPages, cursor, Candidates(candidates));
        return Candidates(candidates), stops + [last];
      }
      log := polls[p][last];
      EmptySort(Fits(Above(log, position), f));
      AnotherQuietPoll(polls, stops, last, position, f, limit, maxPages, cursor);
      ExtendedCursor(polls, stops, last, position);
      stops := stops + [last];
      if fetched.cursor > cursor {
        cursor := fetched.cursor;
      }
    }
    answer := StillWaiting;
  }

  lemma NothingFits(rows: seq<Raw>, position: int, f: Filter, m: Raw)
    requires Fits(Above(rows, position), f) == [] && m in rows && m.cursor > position
    ensures !Genuine(m, f)
  {
    FitsKeeps(Above(rows, position), f);
    AboveKeeps(rows, position);
  }

  /**
   So whatever polling answers: no log it read before the last holds a match that arrived after the arm, what it returns
   is exactly the matches of the last log that did, and none of them was there at the arm.
   */
  lemma CandidatesAreFresh(polls: seq<seq<seq<Raw>>>, stops: seq<nat>, position: int, f: Filter, limit: nat, maxPages: nat, answer: Answer,
                           armLog: seq<Raw>, q: nat, m: Raw)
    requires Answered(polls, stops, position, f, limit, maxPages, answer) && (forall k :: k in armLog ==> k.cursor <= position)
    requires q < |stops| && m in Read(polls, stops, q)
    ensures q < |stops| - 1 || answer.StillWaiting? ==> !(m.cursor > position && Genuine(m, f))
    ensures q == |stops| - 1 && answer.Candidates? ==> (m in answer.messages <==> m.cursor > position && Genuine(m, f))
    ensures m.cursor > position ==> m !in armLog
  {
    if q < |stops| - 1 || answer.StillWaiting? {
      assert Fruitless(polls, stops, position, f, limit, maxPages, q);
      if m.cursor > position {
        NothingFits(Read(polls, stops, q), position, f, m);
      }
    }
  }
}
