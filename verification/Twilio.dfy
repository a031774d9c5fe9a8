/** Polling Twilio for a code: the arm snapshot, the paged listing, and why a bounded deduplicator is enough. */
module Twilio {
  import opened Types
  import opened Otp
  import opened Collections
  import Text

  // ---------------------------------------------------------------- the inbox

  /** Newest first, every message under its own id. */
  ghost predicate Inbox(view: seq<Raw>) {
    && (forall i :: 0 <= i < |view| ==> view[i].id != "")
    && (forall i, j :: 0 <= i < j < |view| ==> view[i].time >= view[j].time && view[i].id != view[j].id)
  }

  /** Messages only arrive, in front. */
  predicate Extends(later: seq<Raw>, view: seq<Raw>) {
    |view| <= |later| && later[|later| - |view|..] == view
  }

  ghost predicate Arrivals(view: seq<Raw>, views: seq<seq<Raw>>)
    decreases |views|
  {
    views == [] || (Inbox(views[0]) && Extends(views[0], view) && Arrivals(views[0], views[1..]))
  }

  // ---------------------------------------------------------------- arm and list

  datatype Armed = Armed(newest: nat, ids: seq<string>)

  function Snapshot(view: seq<Raw>, limit: nat): seq<Raw> {
    view[..Min(limit, |view|)]
  }

  /** The arm of an inbox: the ids of its first page, and the time of its newest message. */
  predicate ArmOf(armed: Armed, view: seq<Raw>, limit: nat) {
    && |armed.ids| == |Snapshot(view, limit)|
    && (forall k :: 0 <= k < |armed.ids| ==> armed.ids[k] == Snapshot(view, limit)[k].id)
    && armed.newest == (if view == [] then 0 else view[0].time)
  }

  method Arm(view: seq<Raw>, limit: nat) returns (armed: Armed)
    requires limit >= 1 && Inbox(view)
    ensures ArmOf(armed, view, limit)
    ensures forall m :: m in view ==> m.time <= armed.newest
  {
    var page := Snapshot(view, limit);
    var ids: seq<string>, newest := [], 0;
    for i := 0 to |page|
      invariant |ids| == i && forall k :: 0 <= k < i ==> ids[k] == page[k].id
      invariant newest == if i == 0 then 0 else page[0].time
    {
      ids := ids + [page[i].id];
      if page[i].time > newest {
        newest := page[i].time;
      }
    }
    armed := Armed(newest, ids);
  }

  predicate Covered(page: seq<Raw>, oldest: nat) {
    exists m :: m in page && oldest != 0 && m.time < oldest
  }

  /** The pages from `page` on, until one crosses the oldest time needed or the inbox ends; None past the page bound. */
  function Listed(view: seq<Raw>, limit: nat, maxPages: nat, oldest: nat, page: nat): Option<seq<Raw>>
    requires page < maxPages
    decreases maxPages - page
  {
    var from, to := Min(page * limit, |view|), Min((page + 1) * limit, |view|);
    if from <= to && (Covered(view[from..to], oldest) || to == |view|) then Some(view[..to])
    else if page == maxPages - 1 then None
    else Listed(view, limit, maxPages, oldest, page + 1)
  }

  method ListMessages(view: seq<Raw>, limit: nat, maxPages: nat, oldest: nat) returns (wire: Option<seq<Raw>>)
    requires limit >= 1 && maxPages >= 1
    ensures wire == Listed(view, limit, maxPages, oldest, 0)
  {
    var all: seq<Raw> := [];
    for page := 0 to maxPages
      invariant page < maxPages ==> Listed(view, limit, maxPages, oldest, 0) == Listed(view, limit, maxPages, oldest, page)
      invariant page == maxPages ==> Listed(view, limit, maxPages, oldest, 0) == None
      invariant all == view[..Min(page * limit, |view|)]
    {
      var from, to := Min(page * limit, |view|), Min((page + 1) * limit, |view|);
      assert page * limit <= (page + 1) * limit;
      var messages := view[from..to];
      all := all + messages;
      assert all == view[..to];
      if Covered(messages, oldest) {
        return Some(all);
      }
      if to == |view| {
        return Some(all);
      }
    }
    wire := None;
  }

  /** A listing is the newest part of the inbox, holds everything needed, and is bounded. */
  lemma {:induction false} ListingCovers(view: seq<Raw>, limit: nat, maxPages: nat, oldest: nat, page: nat)
    requires limit >= 1 && page < maxPages && Inbox(view) && Listed(view, limit, maxPages, oldest, page).Some?
    ensures var wire := Listed(view, limit, maxPages, oldest, page).value;
            && |wire| <= |view| && wire == view[..|wire|] && |wire| <= limit * maxPages
            && forall m :: m in view && m.time >= oldest ==> m in wire
    decreases maxPages - page
  {
    var from, to := Min(page * limit, |view|), Min((page + 1) * limit, |view|);
    assert page * limit <= (page + 1) * limit <= maxPages * limit by { MulOrder(page, maxPages, limit); }
    if Covered(view[from..to], oldest) || to == |view| {
      forall m | m in view && m.time >= oldest ensures m in view[..to] {
        var k :| 0 <= k < |view| && view[k] == m;
        assert k < to;
        assert view[..to][k] == m;
      }
    } else {
      ListingCovers(view, limit, maxPages, oldest, page + 1);
    }
  }

  lemma MulOrder(page: nat, maxPages: nat, limit: nat)
    requires page < maxPages
    ensures page * limit <= (page + 1) * limit <= maxPages * limit
  {
  }

  // ---------------------------------------------------------------- waiting

  datatype Answer = Found(message: Raw) | WindowExceeded | StillWaiting

  /** The messages not before the cursor. */
  function Since(wire: seq<Raw>, cursor: nat): seq<Raw> {
    if wire == [] then [] else (if wire[0].time < cursor then [] else [wire[0]]) + Since(wire[1..], cursor)
  }

  function Latest(wire: seq<Raw>, cursor: nat): nat {
    if wire == [] then cursor else Latest(wire[1..], Max(cursor, wire[0].time))
  }

  /** Polling with the bounded deduplicator, one inbox per poll. */
  function Wait(views: seq<seq<Raw>>, order: seq<string>, cursor: nat, f: Filter, limit: nat, maxPages: nat): Answer
    requires limit >= 1 && maxPages >= 1
    decreases |views|
  {
    if views == [] then StillWaiting
    else
      var wire := Listed(views[0], limit, maxPages, Max(f.freshAfter, cursor), 0);
      if wire.None? then WindowExceeded
      else
        var sifted := Sift(Since(wire.value, cursor), order, limit * maxPages * 2, f);
        if sifted.picks != [] then Found(Best(sifted.picks))
        else Wait(views[1..], sifted.order, Latest(wire.value, cursor), f, limit, maxPages)
  }

  function Best(picks: seq<Raw>): Raw
    requires picks != []
  {
    NewestFirstSorts(picks);
    assert |multiset(NewestFirst(picks))| == |multiset(picks)|;
    NewestFirst(picks)[0]
  }

  /** The reference: the same polling with a set that forgets nothing. */
  function SiftAll(raws: seq<Raw>, seen: set<string>, f: Filter): seq<Raw> {
    if raws == [] then []
    else
      var rest := SiftAll(raws[1..], seen + {raws[0].id}, f);
      if raws[0].id != "" && raws[0].id !in seen && Matches(raws[0], f) then [raws[0]] + rest else rest
  }

  function WaitAll(views: seq<seq<Raw>>, seen: set<string>, cursor: nat, f: Filter, limit: nat, maxPages: nat): Answer
    requires limit >= 1 && maxPages >= 1
    decreases |views|
  {
    if views == [] then StillWaiting
    else
      var wire := Listed(views[0], limit, maxPages, Max(f.freshAfter, cursor), 0);
      if wire.None? then WindowExceeded
      else
        var raws := Since(wire.value, cursor);
        var picks := SiftAll(raws, seen, f);
        if picks != [] then Found(Best(picks))
        else WaitAll(views[1..], seen + Ids(raws), Latest(wire.value, cursor), f, limit, maxPages)
  }

  lemma {:induction false} SinceIsPart(wire: seq<Raw>, cursor: nat)
    ensures forall m :: m in Since(wire, cursor) ==> m in wire && m.time >= cursor
    decreases |wire|
  {
    if wire != [] {
      SinceIsPart(wire[1..], cursor);
    }
  }

  lemma {:induction false} ListedIsPart(view: seq<Raw>, limit: nat, maxPages: nat, oldest: nat, page: nat)
    requires page < maxPages && Listed(view, limit, maxPages, oldest, page).Some?
    ensures forall m :: m in Listed(view, limit, maxPages, oldest, page).value ==> m in view
    decreases maxPages - page
  {
    var from, to := Min(page * limit, |view|), Min((page + 1) * limit, |view|);
    if !(from <= to && (Covered(view[from..to], oldest) || to == |view|)) {
      ListedIsPart(view, limit, maxPages, oldest, page + 1);
    }
  }

  lemma BestIsOne(picks: seq<Raw>)
    requires picks != []
    ensures Best(picks) in picks
  {
    NewestFirstSorts(picks);
    assert NewestFirst(picks)[0] in multiset(NewestFirst(picks));
  }

  lemma {:induction false} LatestIsLater(wire: seq<Raw>, cursor: nat)
    ensures Latest(wire, cursor) >= cursor
    decreases |wire|
  {
    if wire != [] {
      LatestIsLater(wire[1..], Max(cursor, wire[0].time));
    }
  }

  /** Whatever is polled, however much was forgotten: a code that comes back is genuine, not older than the cursor, and was listed. */
  lemma {:induction false} FoundIsGenuine(views: seq<seq<Raw>>, order: seq<string>, cursor: nat, f: Filter, limit: nat, maxPages: nat)
    requires limit >= 1 && maxPages >= 1
    ensures var a := Wait(views, order, cursor, f, limit, maxPages);
            a.Found? ==> Genuine(a.message, f) && a.message.time >= cursor && exists p :: 0 <= p < |views| && a.message in views[p]
    decreases |views|
  {
    if views != [] {
      var wire := Listed(views[0], limit, maxPages, Max(f.freshAfter, cursor), 0);
      if wire.Some? {
        var raws := Since(wire.value, cursor);
        var sifted := Sift(raws, order, limit * maxPages * 2, f);
        if sifted.picks != [] {
          BestIsOne(sifted.picks);
          SiftIsGenuine(raws, order, limit * maxPages * 2, f);
          SinceIsPart(wire.value, cursor);
          ListedIsPart(views[0], limit, maxPages, Max(f.freshAfter, cursor), 0);
        } else {
          LatestIsLater(wire.value, cursor);
          FoundIsGenuine(views[1..], sifted.order, Latest(wire.value, cursor), f, limit, maxPages);
        }
      }
    }
  }

  method WaitForCode(views: seq<seq<Raw>>, armed: Armed, f: Filter, limit: nat, maxPages: nat) returns (answer: Answer)
    requires limit >= 1 && maxPages >= 1
    ensures answer == Wait(views, Seeded(armed.ids, limit * maxPages * 2), armed.newest, f, limit, maxPages)
    ensures answer.Found? ==> Genuine(answer.message, f) && answer.message.time >= armed.newest && exists p :: 0 <= p < |views| && answer.message in views[p]
  {
    FoundIsGenuine(views, Seeded(armed.ids, limit * maxPages * 2), armed.newest, f, limit, maxPages);
    assert limit * maxPages >= 1;
    var seen := new Deduper(limit * maxPages * 2, armed.ids);
    var cursor := armed.newest;
    ghost var all := Wait(views, seen.order, cursor, f, limit, maxPages);
    for p := 0 to |views|
      invariant seen.Valid() && seen.capacity == limit * maxPages * 2
      invariant Wait(views[p..], seen.order, cursor, f, limit, maxPages) == all
      modifies seen
    {
      assert views[p..][1..] == views[p + 1..];
      var oldest := f.freshAfter;
      if cursor > oldest {
        oldest := cursor;
      }
      var wire := ListMessages(views[p], limit, maxPages, oldest);
      if wire.None? {
        return WindowExceeded;
      }
      var raws, next := Consider(wire.value, cursor);
      label L:
      var candidates := Select(raws, f, seen);
      if |candidates| > 0 {
        NewestFirstSorts(Sift(raws, old@L(seen.order), seen.capacity, f).picks);
        return Found(candidates[0]);
      }
      cursor := next;
    }
    answer := StillWaiting;
  }

  method Consider(wire: seq<Raw>, cursor: nat) returns (raws: seq<Raw>, next: nat)
    ensures raws == Since(wire, cursor) && next == Latest(wire, cursor)
  {
    raws, next := [], cursor;
    for i := 0 to |wire|
      invariant raws + Since(wire[i..], cursor) == Since(wire, cursor)
      invariant cursor <= next && Latest(wire[i..], next) == Latest(wire, cursor)
    {
      assert wire[i..][1..] == wire[i + 1..];
      if wire[i].time < cursor {
        continue;
      }
      if wire[i].time > next {
        next := wire[i].time;
      }
      raws := raws + [wire[i]];
    }
  }

  // ---------------------------------------------------------------- sifting with and without forgetting

  /** Forgetting does not matter when nothing seen could match again. */
  lemma {:induction false} HarmlessSift(raws: seq<Raw>, order: seq<string>, seen: set<string>, capacity: nat, f: Filter)
    requires DistinctIds(raws) && Distinct(order) && |order| <= capacity && Elements(order) <= seen
    requires forall m :: m in raws && m.id in seen ==> !Matches(m, f)
    ensures var s := Sift(raws, order, capacity, f);
            s.picks == SiftAll(raws, seen, f) && Distinct(s.order) && |s.order| <= capacity && Elements(s.order) <= seen + Ids(raws)
    decreases |raws|
  {
    if raws != [] {
      var m := raws[0];
      RememberKeeps(order, capacity, m.id);
      assert raws[0] in raws && Ids(raws) == {m.id} + Ids(raws[1..]);
      assert m.id in order ==> m.id in Elements(order);
      forall k | k in raws[1..] && k.id in seen + {m.id} ensures !Matches(k, f) {
        var i :| 1 <= i < |raws| && raws[i] == k;
      }
      HarmlessSift(raws[1..], Remember(order, capacity, m.id), seen + {m.id}, capacity, f);
    }
  }

  lemma RoomyRemember(order: seq<string>, capacity: nat, id: string, bound: set<string>)
    requires Distinct(order) && id != "" && Elements(order) + {id} <= bound && |bound| <= capacity
    ensures Distinct(Remember(order, capacity, id)) && Elements(Remember(order, capacity, id)) == Elements(order) + {id}
  {
    if id !in order {
      DistinctSize(order + [id]);
      assert Elements(order + [id]) == Elements(order) + {id};
      SubsetSize(Elements(order + [id]), bound);
    }
  }

  /** Nothing is forgotten while everything ever seen fits. */
  lemma {:induction false} RoomySift(raws: seq<Raw>, order: seq<string>, capacity: nat, f: Filter, bound: set<string>)
    requires DistinctIds(raws) && Distinct(order) && Elements(order) + Ids(raws) <= bound && |bound| <= capacity
    ensures var s := Sift(raws, order, capacity, f);
            s.picks == SiftAll(raws, Elements(order), f) && Distinct(s.order) && Elements(s.order) == Elements(order) + Ids(raws)
    decreases |raws|
  {
    if raws != [] {
      var m := raws[0];
      IdsOfTail(raws);
      RoomyRemember(order, capacity, m.id, bound);
      assert m.id in order <==> m.id in Elements(order);
      RoomySift(raws[1..], Remember(order, capacity, m.id), capacity, f, bound);
    }
  }

  lemma {:induction false} DistinctSize(order: seq<string>)
    requires Distinct(order)
    ensures |Elements(order)| == |order|
    decreases |order|
  {
    if order != [] {
      var last := order[|order| - 1];
      DistinctSize(order[..|order| - 1]);
      assert Elements(order) == Elements(order[..|order| - 1]) + {last} by {
        assert order == order[..|order| - 1] + [last];
      }
    }
  }

  lemma {:induction false} NothingPicked(raws: seq<Raw>, seen: set<string>, f: Filter, m: Raw)
    requires SiftAll(raws, seen, f) == [] && DistinctIds(raws) && m in raws && m.id !in seen
    ensures !Matches(m, f)
    decreases |raws|
  {
    if m != raws[0] {
      assert m in raws[1..] by { assert raws == [raws[0]] + raws[1..]; }
      var i :| 1 <= i < |raws| && raws[i] == m;
      NothingPicked(raws[1..], seen + {raws[0].id}, f, m);
    }
  }

  lemma {:induction false} PickedIsNew(raws: seq<Raw>, seen: set<string>, f: Filter, m: Raw)
    requires m in SiftAll(raws, seen, f)
    ensures m in raws && m.id !in seen && Matches(m, f)
    decreases |raws|
  {
    if !(m == raws[0] && m.id !in seen && Matches(m, f)) {
      PickedIsNew(raws[1..], seen + {raws[0].id}, f, m);
    }
  }

  lemma {:induction false} NewIsPicked(raws: seq<Raw>, seen: set<string>, f: Filter, m: Raw)
    requires DistinctIds(raws) && m in raws && m.id !in seen && Matches(m, f)
    ensures m in SiftAll(raws, seen, f)
    decreases |raws|
  {
    if m != raws[0] {
      assert m in raws[1..] by { assert raws == [raws[0]] + raws[1..]; }
      var i :| 1 <= i < |raws| && raws[i] == m;
      NewIsPicked(raws[1..], seen + {raws[0].id}, f, m);
    }
  }

  // ---------------------------------------------------------------- what a poll considers

  lemma {:induction false} SinceKeeps(wire: seq<Raw>, cursor: nat)
    ensures forall m :: m in Since(wire, cursor) <==> m in wire && m.time >= cursor
    ensures |Since(wire, cursor)| <= |wire|
    decreases |wire|
  {
    if wire != [] {
      SinceKeeps(wire[1..], cursor);
      assert wire == [wire[0]] + wire[1..];
    }
  }

  lemma ConsDistinct(m: Raw, rest: seq<Raw>)
    requires DistinctIds(rest) && m.id != "" && forall k :: k in rest ==> k.id != m.id
    ensures DistinctIds([m] + rest)
  {
  }

  lemma {:induction false} SinceDistinct(wire: seq<Raw>, cursor: nat)
    requires DistinctIds(wire)
    ensures DistinctIds(Since(wire, cursor))
    decreases |wire|
  {
    if wire != [] {
      SinceDistinct(wire[1..], cursor);
      SinceKeeps(wire[1..], cursor);
      forall k | k in Since(wire[1..], cursor) ensures k.id != wire[0].id {
        var i :| 1 <= i < |wire| && wire[i] == k;
      }
      if wire[0].time >= cursor {
        ConsDistinct(wire[0], Since(wire[1..], cursor));
      }
    }
  }

  lemma {:induction false} LatestBounds(wire: seq<Raw>, cursor: nat)
    ensures cursor <= Latest(wire, cursor) && forall m :: m in wire ==> m.time <= Latest(wire, cursor)
    decreases |wire|
  {
    if wire != [] {
      LatestBounds(wire[1..], Max(cursor, wire[0].time));
      assert wire == [wire[0]] + wire[1..];
    }
  }

  // ---------------------------------------------------------------- the bounded set is enough

  /** The challenge: the inbox when it was armed, and the limits. */
  datatype Challenge = Challenge(armedView: seq<Raw>, f: Filter, limit: nat, maxPages: nat)

  ghost predicate Sound(c: Challenge) {
    c.limit >= 1 && c.maxPages >= 1 && Inbox(c.armedView)
  }

  function ArmIds(c: Challenge): set<string> {
    Ids(Snapshot(c.armedView, c.limit))
  }

  function Newest(c: Challenge): nat {
    if c.armedView == [] then 0 else c.armedView[0].time
  }

  function Capacity(c: Challenge): nat { c.limit * c.maxPages * 2 }

  /** The polls have not yet moved past the second of the newest armed message, and that second is fresh enough to match. */
  predicate AtArm(c: Challenge, cursor: nat) {
    cursor == Newest(c) && c.f.freshAfter <= cursor
  }

  /** What was seen since the arm does not match; while the polls are at the arm's second it is of that second. */
  ghost predicate Harmless(c: Challenge, view: seq<Raw>, seen: set<string>, cursor: nat) {
    forall m :: m in view && m.id in seen && m.id !in ArmIds(c) ==> !Matches(m, c.f) && (AtArm(c, cursor) ==> m.time == cursor)
  }

  /** How the bounded set stands against the reference after a poll of `view`. */
  ghost predicate Abreast(c: Challenge, view: seq<Raw>, order: seq<string>, seen: set<string>, cursor: nat) {
    && Inbox(view) && Extends(view, c.armedView) && Newest(c) <= cursor
    && Distinct(order) && |order| <= Capacity(c) && Elements(order) <= seen
    && ArmIds(c) <= seen <= Ids(view)
    && Harmless(c, view, seen, cursor) && (AtArm(c, cursor) ==> Elements(order) == seen)
  }

  lemma SameMessage(view: seq<Raw>, a: Raw, b: Raw)
    requires Inbox(view) && a in view && b in view && a.id == b.id
    ensures a == b
  {
  }

  lemma ExtendsContains(later: seq<Raw>, view: seq<Raw>, m: Raw)
    requires Extends(later, view) && m in view
    ensures m in later
  {
    assert later == later[..|later| - |view|] + view;
  }

  lemma ArmedAreOld(c: Challenge, view: seq<Raw>, m: Raw)
    requires Sound(c) && Inbox(view) && Extends(view, c.armedView) && m in view && m.id in ArmIds(c)
    ensures m in c.armedView && m.time <= Newest(c)
  {
    var a :| a in Snapshot(c.armedView, c.limit) && a.id == m.id;
    ExtendsContains(view, c.armedView, a);
    SameMessage(view, a, m);
  }

  /** A message of the new inbox whose id was seen is a message of the old one. */
  lemma SeenIsOld(later: seq<Raw>, view: seq<Raw>, seen: set<string>, m: Raw)
    requires Inbox(later) && Extends(later, view) && seen <= Ids(view) && m in later && m.id in seen
    ensures m in view
  {
    var a :| a in view && a.id == m.id;
    ExtendsContains(later, view, a);
    SameMessage(later, a, m);
  }

  lemma ArmIdsFit(c: Challenge)
    requires Sound(c)
    ensures |ArmIds(c)| <= c.limit
  {
    IdsFit(Snapshot(c.armedView, c.limit));
  }

  lemma {:induction false} IdsFit(ms: seq<Raw>)
    ensures |Ids(ms)| <= |ms|
    decreases |ms|
  {
    if ms != [] {
      IdsFit(ms[1..]);
      IdsOfTail(ms);
    }
  }

  lemma UnionFits(a: set<string>, b: set<string>, m: nat, n: nat)
    requires |a| <= m && |b| <= n
    ensures |a + b| <= m + n
  {
  }

  lemma PageFitsWindow(limit: nat, maxPages: nat)
    requires maxPages >= 1
    ensures limit <= limit * maxPages
  {
  }

  lemma RoomFor(c: Challenge, wire: seq<Raw>)
    requires Sound(c) && |wire| <= c.limit * c.maxPages
    ensures |ArmIds(c) + Ids(wire)| <= Capacity(c)
  {
    ArmIdsFit(c);
    IdsFit(wire);
    PageFitsWindow(c.limit, c.maxPages);
    UnionFits(ArmIds(c), Ids(wire), c.limit * c.maxPages, c.limit * c.maxPages);
  }

  lemma PrefixIsDistinct(view: seq<Raw>, n: nat)
    requires Inbox(view) && n <= |view|
    ensures DistinctIds(view[..n]) && forall m :: m in view[..n] ==> m in view
  {
  }

  /** In one poll the bounded set picks what the reference picks. */
  lemma PollsAgree(c: Challenge, view: seq<Raw>, later: seq<Raw>, order: seq<string>, seen: set<string>, cursor: nat, wire: seq<Raw>)
    requires Sound(c) && Abreast(c, view, order, seen, cursor) && Inbox(later) && Extends(later, view)
    requires Listed(later, c.limit, c.maxPages, Max(c.f.freshAfter, cursor), 0) == Some(wire)
    ensures var raws := Since(wire, cursor); var s := Sift(raws, order, Capacity(c), c.f);
            && s.picks == SiftAll(raws, seen, c.f)
            && Distinct(s.order) && |s.order| <= Capacity(c) && Elements(s.order) <= seen + Ids(raws)
            && (AtArm(c, cursor) ==> Elements(s.order) == seen + Ids(raws))
  {
    var raws := Since(wire, cursor);
    ListingCovers(later, c.limit, c.maxPages, Max(c.f.freshAfter, cursor), 0);
    PrefixIsDistinct(later, |wire|);
    SinceDistinct(wire, cursor);
    SinceKeeps(wire, cursor);
    if AtArm(c, cursor) {
      RoomFor(c, wire);
      SeenFits(c, view, later, seen, cursor, wire);
      RoomySift(raws, order, Capacity(c), c.f, ArmIds(c) + Ids(wire));
      var s := Sift(raws, order, Capacity(c), c.f);
      DistinctSize(s.order);
      SubsetSize(Elements(s.order), ArmIds(c) + Ids(wire));
    } else {
      forall m | m in raws && m.id in seen ensures !Matches(m, c.f) {
        SeenIsOld(later, view, seen, m);
        if m.id in ArmIds(c) {
          ArmedAreOld(c, view, m);
        }
      }
      HarmlessSift(raws, order, seen, Capacity(c), c.f);
    }
  }

  lemma SeenFits(c: Challenge, view: seq<Raw>, later: seq<Raw>, seen: set<string>, cursor: nat, wire: seq<Raw>)
    requires Inbox(later) && Extends(later, view) && seen <= Ids(view) && AtArm(c, cursor)
    requires forall m :: m in view && m.id in seen && m.id !in ArmIds(c) ==> m.time == cursor
    requires forall m :: m in later && m.time >= cursor ==> m in wire
    requires forall m :: m in Since(wire, cursor) ==> m in wire
    ensures seen + Ids(Since(wire, cursor)) <= ArmIds(c) + Ids(wire)
  {
    forall id | id in seen && id !in ArmIds(c) ensures id in Ids(wire) {
      var m :| m in view && m.id == id;
      ExtendsContains(later, view, m);
      assert m in wire;
    }
  }

  lemma SeenStays(later: seq<Raw>, view: seq<Raw>, seen: set<string>)
    requires Extends(later, view) && seen <= Ids(view)
    ensures seen <= Ids(later)
  {
    forall id | id in seen ensures id in Ids(later) {
      var m :| m in view && m.id == id;
      ExtendsContains(later, view, m);
    }
  }

  lemma PollIsHarmless(c: Challenge, view: seq<Raw>, later: seq<Raw>, seen: set<string>, cursor: nat, raws: seq<Raw>, next: nat)
    requires Inbox(later) && Extends(later, view) && seen <= Ids(view) && Newest(c) <= cursor <= next && Harmless(c, view, seen, cursor)
    requires DistinctIds(raws) && (forall k :: k in raws ==> k in later && cursor <= k.time <= next) && SiftAll(raws, seen, c.f) == []
    ensures Harmless(c, later, seen + Ids(raws), next)
  {
    forall m | m in later && m.id in seen + Ids(raws) && m.id !in ArmIds(c)
      ensures !Matches(m, c.f) && (AtArm(c, next) ==> m.time == next)
    {
      if m.id in seen {
        SeenIsOld(later, view, seen, m);
      } else {
        var a :| a in raws && a.id == m.id;
        SameMessage(later, a, m);
        NothingPicked(raws, seen, c.f, m);
      }
    }
  }

  lemma ConsideredInPoll(c: Challenge, later: seq<Raw>, cursor: nat, wire: seq<Raw>)
    requires Sound(c) && Inbox(later) && Listed(later, c.limit, c.maxPages, Max(c.f.freshAfter, cursor), 0) == Some(wire)
    ensures DistinctIds(Since(wire, cursor)) && cursor <= Latest(wire, cursor) && Ids(Since(wire, cursor)) <= Ids(later)
    ensures forall k :: k in Since(wire, cursor) ==> k in later && cursor <= k.time <= Latest(wire, cursor)
  {
    ListingCovers(later, c.limit, c.maxPages, Max(c.f.freshAfter, cursor), 0);
    PrefixIsDistinct(later, |wire|);
    SinceDistinct(wire, cursor);
    SinceKeeps(wire, cursor);
    LatestBounds(wire, cursor);
  }

  /** A poll without a match keeps them abreast. */
  lemma PollKeepsAbreast(c: Challenge, view: seq<Raw>, later: seq<Raw>, order: seq<string>, seen: set<string>, cursor: nat, wire: seq<Raw>)
    requires Sound(c) && Abreast(c, view, order, seen, cursor) && Inbox(later) && Extends(later, view)
    requires Listed(later, c.limit, c.maxPages, Max(c.f.freshAfter, cursor), 0) == Some(wire)
    requires SiftAll(Since(wire, cursor), seen, c.f) == []
    ensures var raws := Since(wire, cursor);
            Abreast(c, later, Sift(raws, order, Capacity(c), c.f).order, seen + Ids(raws), Latest(wire, cursor))
  {
    PollsAgree(c, view, later, order, seen, cursor, wire);
    ConsideredInPoll(c, later, cursor, wire);
    ExtendsTwice(later, view, c.armedView);
    PollIsHarmless(c, view, later, seen, cursor, Since(wire, cursor), Latest(wire, cursor));
    SeenStays(later, view, seen);
  }

  lemma ExtendsTwice(a: seq<Raw>, b: seq<Raw>, c: seq<Raw>)
    requires Extends(a, b) && Extends(b, c)
    ensures Extends(a, c)
  {
  }

  /** For any number of polls over a growing inbox, the bounded deduplicator answers as one that forgets nothing. */
  lemma {:induction false} BoundedIsUnbounded(c: Challenge, view: seq<Raw>, views: seq<seq<Raw>>, order: seq<string>, seen: set<string>, cursor: nat)
    requires Sound(c) && Abreast(c, view, order, seen, cursor) && Arrivals(view, views)
    ensures Wait(views, order, cursor, c.f, c.limit, c.maxPages) == WaitAll(views, seen, cursor, c.f, c.limit, c.maxPages)
    decreases |views|
  {
    if views != [] {
      var wire := Listed(views[0], c.limit, c.maxPages, Max(c.f.freshAfter, cursor), 0);
      if wire.Some? {
        PollsAgree(c, view, views[0], order, seen, cursor, wire.value);
        var raws := Since(wire.value, cursor);
        if SiftAll(raws, seen, c.f) == [] {
          PollKeepsAbreast(c, view, views[0], order, seen, cursor, wire.value);
          BoundedIsUnbounded(c, views[0], views[1..], Sift(raws, order, Capacity(c), c.f).order, seen + Ids(raws), Latest(wire.value, cursor));
        }
      }
    }
  }

  lemma RememberNew(order: seq<string>, capacity: nat, id: string)
    requires id != "" && id !in order && |order| < capacity
    ensures Remember(order, capacity, id) == order + [id]
  {
  }

  lemma {:induction false} SeedFits(seed: seq<string>, capacity: nat, n: nat)
    requires Distinct(seed) && "" !in seed && n <= |seed| <= capacity
    ensures Seeded(seed[..n], capacity) == seed[..n]
    decreases n
  {
    if n > 0 {
      SeedFits(seed, capacity, n - 1);
      assert seed[..n][..n - 1] == seed[..n - 1];
      assert seed[..n] == seed[..n - 1] + [seed[n - 1]];
      assert seed[n - 1] !in seed[..n - 1];
      assert seed[n - 1] in seed;
      RememberNew(seed[..n - 1], capacity, seed[n - 1]);
    }
  }

  lemma ArmHoldsIds(c: Challenge, armed: Armed)
    requires Sound(c) && ArmOf(armed, c.armedView, c.limit)
    ensures Distinct(armed.ids) && "" !in armed.ids && |armed.ids| <= c.limit && Elements(armed.ids) == ArmIds(c) && ArmIds(c) <= Ids(c.armedView)
  {
    var page := Snapshot(c.armedView, c.limit);
    forall m | m in page ensures m.id in armed.ids && m in c.armedView {
      var k :| 0 <= k < |page| && page[k] == m;
      assert armed.ids[k] == m.id;
    }
    forall id | id in armed.ids ensures id in Ids(page) {
      var k :| 0 <= k < |armed.ids| && armed.ids[k] == id;
      assert page[k] in page;
    }
  }

  lemma ArmedIsAbreast(c: Challenge, armed: Armed)
    requires Sound(c) && ArmOf(armed, c.armedView, c.limit)
    ensures Abreast(c, c.armedView, Seeded(armed.ids, Capacity(c)), ArmIds(c), armed.newest)
  {
    ArmHoldsIds(c, armed);
    PageFitsWindow(c.limit, c.maxPages);
    SeedFits(armed.ids, Capacity(c), |armed.ids|);
    assert armed.ids[..|armed.ids|] == armed.ids;
  }

  lemma BestIsPicked(picks: seq<Raw>)
    requires picks != []
    ensures Best(picks) in picks && forall m :: m in picks ==> !Newer(m, Best(picks))
  {
    NewestFirstSorts(picks);
    var sorted := NewestFirst(picks);
    assert sorted[0] in multiset(sorted);
    forall m | m in picks ensures !Newer(m, sorted[0]) {
      assert m in multiset(picks);
      assert m in sorted;
      var k :| 0 <= k < |sorted| && sorted[k] == m;
      if k == 0 && Newer(m, m) {
        NewerIsOneWay(m, m);
      }
    }
  }

  lemma {:induction false} ReferenceIsFresh(views: seq<seq<Raw>>, seen: set<string>, cursor: nat, f: Filter, limit: nat, maxPages: nat)
    requires limit >= 1 && maxPages >= 1
    ensures var a := WaitAll(views, seen, cursor, f, limit, maxPages);
            a.Found? ==> a.message.id !in seen && a.message.time >= cursor && Matches(a.message, f)
    decreases |views|
  {
    if views != [] {
      var wire := Listed(views[0], limit, maxPages, Max(f.freshAfter, cursor), 0);
      if wire.Some? {
        var raws := Since(wire.value, cursor);
        var picks := SiftAll(raws, seen, f);
        SinceKeeps(wire.value, cursor);
        if picks != [] {
          BestIsPicked(picks);
          PickedIsNew(raws, seen, f, Best(picks));
        } else {
          LatestBounds(wire.value, cursor);
          ReferenceIsFresh(views[1..], seen + Ids(raws), Latest(wire.value, cursor), f, limit, maxPages);
        }
      }
    }
  }

  /** Polling after an arm answers as a deduplicator that forgets nothing, and never with a message of the arm snapshot. */
  lemma SnapshotIsNeverReturned(c: Challenge, armed: Armed, views: seq<seq<Raw>>)
    requires Sound(c) && ArmOf(armed, c.armedView, c.limit) && Arrivals(c.armedView, views)
    ensures var answer := Wait(views, Seeded(armed.ids, Capacity(c)), armed.newest, c.f, c.limit, c.maxPages);
            && answer == WaitAll(views, ArmIds(c), armed.newest, c.f, c.limit, c.maxPages)
            && (answer.Found? ==> answer.message !in Snapshot(c.armedView, c.limit) && Genuine(answer.message, c.f))
  {
    ArmedIsAbreast(c, armed);
    BoundedIsUnbounded(c, c.armedView, views, Seeded(armed.ids, Capacity(c)), ArmIds(c), armed.newest);
    ReferenceIsFresh(views, ArmIds(c), armed.newest, c.f, c.limit, c.maxPages);
  }

  /** A message that was in the inbox before the arm comes back only if a whole page shared the newest second. */
  lemma OnlyACrowdedSecondIsStale(c: Challenge, armed: Armed, views: seq<seq<Raw>>, m: Raw)
    requires Sound(c) && ArmOf(armed, c.armedView, c.limit) && Arrivals(c.armedView, views) && m in c.armedView
    requires Wait(views, Seeded(armed.ids, Capacity(c)), armed.newest, c.f, c.limit, c.maxPages) == Found(m)
    ensures |c.armedView| > c.limit && c.armedView[c.limit - 1].time == m.time == armed.newest
  {
    SnapshotIsNeverReturned(c, armed, views);
    ReferenceIsFresh(views, ArmIds(c), armed.newest, c.f, c.limit, c.maxPages);
    var k :| 0 <= k < |c.armedView| && c.armedView[k] == m;
  }

  /** And then it can: two messages in one second, a page of one, and the older one is returned although it predates the arm. */
  lemma CrowdedSecondIsStale(f: Filter, a: Raw, b: Raw)
    requires a.id != "" && b.id != "" && a.id != b.id && a.time == b.time && f.freshAfter <= a.time && Matches(a, f)
    ensures Inbox([b, a]) && ArmOf(Armed(b.time, [b.id]), [b, a], 1)
    ensures Wait([[b, a]], Seeded([b.id], 4), b.time, f, 1, 2) == Found(a)
  {
    var view, t := [b, a], b.time;
    ListTwo(a, b, t);
    assert Since([a], t) == [a] by { assert [a][1..] == []; }
    assert Since(view, t) == view by { assert view[1..] == [a]; }
    SeedFits([b.id], 4, 1);
    assert [b.id][..1] == [b.id];
    SiftSkips(a, b, f);
    BestIsPicked([a]);
  }

  lemma ListTwo(a: Raw, b: Raw, t: nat)
    requires a.time == t && b.time == t
    ensures Listed([b, a], 1, 2, t, 0) == Some([b, a])
  {
    var view := [b, a];
    assert view[0..1] == [b] && view[1..2] == [a] && view[..2] == view;
    assert Listed(view, 1, 2, t, 1) == Some(view);
  }

  lemma SiftSkips(a: Raw, b: Raw, f: Filter)
    requires a.id != "" && a.id != b.id && Matches(a, f)
    ensures Sift([b, a], [b.id], 4, f).picks == [a]
  {
    assert [b, a][1..] == [a] && [a][1..] == [];
    assert Remember([b.id], 4, b.id) == [b.id] by { assert b.id in [b.id]; }
    assert Sift([a], [b.id], 4, f).picks == [a] by { assert a.id !in [b.id]; }
  }

  // ---------------------------------------------------------------- when exactly an old message comes back

  /** The pages reach the end of the inbox, or a message older than needed. */
  predicate Listable(view: seq<Raw>, limit: nat, maxPages: nat, oldest: nat)
    requires limit * maxPages >= 1
  {
    |view| <= limit * maxPages || view[limit * maxPages - 1].time < oldest
  }

  lemma WindowIsNotEmpty(limit: nat, maxPages: nat)
    requires limit >= 1 && maxPages >= 1
    ensures limit * maxPages >= 1
  {
  }

  /** A page inside the window settles the listing only if the whole window would. */
  lemma SettledByPage(view: seq<Raw>, from: nat, to: nat, window: nat, oldest: nat)
    requires Inbox(view) && from <= to <= |view| && 1 <= window && to <= window
    requires Covered(view[from..to], oldest) || to == |view|
    ensures |view| <= window || view[window - 1].time < oldest
  {
    if |view| > window {
      var m :| m in view[from..to] && oldest != 0 && m.time < oldest;
      var i :| 0 <= i < to - from && view[from..to][i] == m;
      assert view[from + i] == m;
    }
  }

  lemma UnsettledByLastPage(view: seq<Raw>, from: nat, window: nat, oldest: nat)
    requires from < window < |view| && !Covered(view[from..window], oldest)
    ensures view[window - 1].time >= oldest
  {
    assert view[from..window][window - 1 - from] == view[window - 1];
    assert view[window - 1] in view[from..window];
  }

  /** A listing succeeds exactly then, whichever page it has got to. */
  lemma {:induction false} ListedExactly(view: seq<Raw>, limit: nat, maxPages: nat, oldest: nat, page: nat)
    requires limit >= 1 && page < maxPages && Inbox(view)
    ensures limit * maxPages >= 1 && (Listed(view, limit, maxPages, oldest, page).Some? <==> Listable(view, limit, maxPages, oldest))
    decreases maxPages - page
  {
    WindowIsNotEmpty(limit, maxPages);
    MulOrder(page, maxPages, limit);
    var from, to := Min(page * limit, |view|), Min((page + 1) * limit, |view|);
    if Covered(view[from..to], oldest) || to == |view| {
      SettledByPage(view, from, to, limit * maxPages, oldest);
    } else if page == maxPages - 1 {
      UnsettledByLastPage(view, from, limit * maxPages, oldest);
    } else {
      ListedExactly(view, limit, maxPages, oldest, page + 1);
    }
  }

  /** Arrivals only make a listing harder. */
  lemma EarlierIsListable(later: seq<Raw>, view: seq<Raw>, limit: nat, maxPages: nat, oldest: nat)
    requires Inbox(later) && Extends(later, view) && limit * maxPages >= 1 && Listable(later, limit, maxPages, oldest)
    ensures Listable(view, limit, maxPages, oldest)
  {
    var window := limit * maxPages;
    if |view| > window {
      assert later[|later| - |view|..][window - 1] == view[window - 1];
    }
  }

  lemma StalePoll(c: Challenge, later: seq<Raw>, wire: seq<Raw>, seen: set<string>, cursor: nat, m: Raw)
    requires Sound(c) && Inbox(later) && Extends(later, c.armedView) && m.time <= Newest(c) <= cursor
    requires Listed(later, c.limit, c.maxPages, Max(c.f.freshAfter, cursor), 0) == Some(wire)
    requires m in SiftAll(Since(wire, cursor), seen, c.f)
    ensures Listed(c.armedView, c.limit, c.maxPages, Max(c.f.freshAfter, Newest(c)), 0).Some?
  {
    PickedIsNew(Since(wire, cursor), seen, c.f, m);
    SinceKeeps(wire, cursor);
    assert cursor == Newest(c);
    ListedExactly(later, c.limit, c.maxPages, Max(c.f.freshAfter, cursor), 0);
    EarlierIsListable(later, c.armedView, c.limit, c.maxPages, Max(c.f.freshAfter, cursor));
    ListedExactly(c.armedView, c.limit, c.maxPages, Max(c.f.freshAfter, cursor), 0);
  }

  /** A poll can answer with a message of the arm's newest second only while the inbox of the arm can still be listed. */
  lemma {:induction false} StaleWasListed(c: Challenge, view: seq<Raw>, views: seq<seq<Raw>>, seen: set<string>, cursor: nat, m: Raw)
    requires Sound(c) && Extends(view, c.armedView) && Arrivals(view, views) && m.time <= Newest(c) <= cursor
    requires WaitAll(views, seen, cursor, c.f, c.limit, c.maxPages) == Found(m)
    ensures Listed(c.armedView, c.limit, c.maxPages, Max(c.f.freshAfter, Newest(c)), 0).Some?
    decreases |views|
  {
    var wire := Listed(views[0], c.limit, c.maxPages, Max(c.f.freshAfter, cursor), 0).value;
    var raws := Since(wire, cursor);
    ExtendsTwice(views[0], view, c.armedView);
    if SiftAll(raws, seen, c.f) != [] {
      BestIsPicked(SiftAll(raws, seen, c.f));
      StalePoll(c, views[0], wire, seen, cursor, m);
    } else {
      LatestBounds(wire, cursor);
      StaleWasListed(c, views[0], views[1..], seen + Ids(raws), Latest(wire, cursor), m);
    }
  }

  /** A message that fits was left off the snapshot although it shares the newest second. */
  ghost predicate Overlooked(c: Challenge) {
    exists k :: c.limit <= k < |c.armedView| && c.armedView[k].time == Newest(c) && Genuine(c.armedView[k], c.f)
  }

  /** The polls of these inboxes answer with a message that was there when the challenge was armed. */
  ghost predicate Stale(c: Challenge, armed: Armed, views: seq<seq<Raw>>)
    requires Sound(c)
  {
    && Arrivals(c.armedView, views)
    && var answer := Wait(views, Seeded(armed.ids, Capacity(c)), armed.newest, c.f, c.limit, c.maxPages);
       answer.Found? && answer.message in c.armedView
  }

  lemma OutsideSnapshot(view: seq<Raw>, limit: nat, m: Raw) returns (k: nat)
    requires m in view && m !in Snapshot(view, limit)
    ensures limit <= k < |view| && view[k] == m
  {
    k :| 0 <= k < |view| && view[k] == m;
  }

  lemma StaleNeedsOverlooked(c: Challenge, armed: Armed, views: seq<seq<Raw>>)
    requires Sound(c) && ArmOf(armed, c.armedView, c.limit) && Stale(c, armed, views)
    ensures Overlooked(c) && Listed(c.armedView, c.limit, c.maxPages, Max(c.f.freshAfter, Newest(c)), 0).Some?
  {
    var m := Wait(views, Seeded(armed.ids, Capacity(c)), armed.newest, c.f, c.limit, c.maxPages).message;
    SnapshotIsNeverReturned(c, armed, views);
    OnlyACrowdedSecondIsStale(c, armed, views, m);
    var k := OutsideSnapshot(c.armedView, c.limit, m);
    StaleWasListed(c, c.armedView, views, ArmIds(c), armed.newest, m);
  }

  lemma OffTheSnapshot(c: Challenge, k: nat)
    requires Sound(c) && c.limit <= k < |c.armedView|
    ensures c.armedView[k].id !in ArmIds(c)
  {
  }

  lemma OverlookedIsPicked(c: Challenge, wire: seq<Raw>, k: nat)
    requires Sound(c) && c.limit <= k < |c.armedView| && c.armedView[k].time == Newest(c) && Genuine(c.armedView[k], c.f)
    requires Listed(c.armedView, c.limit, c.maxPages, Max(c.f.freshAfter, Newest(c)), 0) == Some(wire)
    ensures var picks := SiftAll(Since(wire, Newest(c)), ArmIds(c), c.f);
            picks != [] && Best(picks) in c.armedView
  {
    var raws := Since(wire, Newest(c));
    var picks := SiftAll(raws, ArmIds(c), c.f);
    ListingCovers(c.armedView, c.limit, c.maxPages, Max(c.f.freshAfter, Newest(c)), 0);
    PrefixIsDistinct(c.armedView, |wire|);
    SinceDistinct(wire, Newest(c));
    SinceKeeps(wire, Newest(c));
    OffTheSnapshot(c, k);
    NewIsPicked(raws, ArmIds(c), c.f, c.armedView[k]);
    BestIsPicked(picks);
    PickedIsNew(raws, ArmIds(c), c.f, Best(picks));
  }

  lemma OneListedPoll(view: seq<Raw>, wire: seq<Raw>, seen: set<string>, cursor: nat, f: Filter, limit: nat, maxPages: nat)
    requires limit >= 1 && maxPages >= 1 && Listed(view, limit, maxPages, Max(f.freshAfter, cursor), 0) == Some(wire)
    requires SiftAll(Since(wire, cursor), seen, f) != []
    ensures WaitAll([view], seen, cursor, f, limit, maxPages) == Found(Best(SiftAll(Since(wire, cursor), seen, f)))
  {
  }

  lemma OverlookedIsStale(c: Challenge, armed: Armed, k: nat)
    requires Sound(c) && ArmOf(armed, c.armedView, c.limit)
    requires c.limit <= k < |c.armedView| && c.armedView[k].time == Newest(c) && Genuine(c.armedView[k], c.f)
    requires Listed(c.armedView, c.limit, c.maxPages, Max(c.f.freshAfter, Newest(c)), 0).Some?
    ensures Stale(c, armed, [c.armedView])
  {
    var wire := Listed(c.armedView, c.limit, c.maxPages, Max(c.f.freshAfter, Newest(c)), 0).value;
    assert Arrivals(c.armedView, [c.armedView]);
    OverlookedIsPicked(c, wire, k);
    OneListedPoll(c.armedView, wire, ArmIds(c), Newest(c), c.f, c.limit, c.maxPages);
    SnapshotIsNeverReturned(c, armed, [c.armedView]);
  }

  /**
   Some polls answer with a message that predates the arm exactly when a message that fits shares the newest second but is
   not on the first page, and the inbox of the arm can be listed back to that second. Both can be read off the arm.
   */
  lemma StaleExactly(c: Challenge, armed: Armed)
    requires Sound(c) && ArmOf(armed, c.armedView, c.limit)
    ensures (exists views :: Stale(c, armed, views)) <==>
              Overlooked(c) && Listed(c.armedView, c.limit, c.maxPages, Max(c.f.freshAfter, Newest(c)), 0).Some?
  {
    if views :| Stale(c, armed, views) {
      StaleNeedsOverlooked(c, armed, views);
    }
    if Overlooked(c) && Listed(c.armedView, c.limit, c.maxPages, Max(c.f.freshAfter, Newest(c)), 0).Some? {
      var k :| c.limit <= k < |c.armedView| && c.armedView[k].time == Newest(c) && Genuine(c.armedView[k], c.f);
      OverlookedIsStale(c, armed, k);
    }
  }

  // ---------------------------------------------------------------- nothing is missed

  /** A message the wait is for: it fits the filter, was not in the snapshot and is not older than it. */
  predicate Wanted(c: Challenge, m: Raw) {
    Genuine(m, c.f) && m.id !in ArmIds(c) && m.time >= Newest(c)
  }

  ghost predicate NoneWanted(c: Challenge, view: seq<Raw>) {
    forall m :: m in view ==> !Wanted(c, m)
  }

  function NewestOf(view: seq<Raw>): nat {
    if view == [] then 0 else view[0].time
  }

  /** Whatever is wanted in the inbox is still to be considered, and the cursor is the time of its newest message. */
  ghost predicate Outstanding(c: Challenge, view: seq<Raw>, seen: set<string>, cursor: nat) {
    && Inbox(view) && (forall m :: m in view && Wanted(c, m) ==> m.id !in seen && m.time >= cursor)
    && cursor == NewestOf(view) && Newest(c) <= cursor
    && seen <= Ids(view)
  }

  lemma ArrivalsAreLate(view: seq<Raw>, later: seq<Raw>, m: Raw, past: Raw)
    requires Inbox(later) && Extends(later, view) && m in later && m !in view && past in view
    ensures m.time >= past.time
  {
    var k := |later| - |view|;
    var i :| 0 <= i < |later| && later[i] == m;
    var j :| 0 <= j < |view| && view[j] == past;
    assert later[k + j] == past;
    assert i < k;
  }

  /** What a poll is looking for is listed, at or after the cursor, and new. */
  lemma WantedIsConsidered(c: Challenge, view: seq<Raw>, later: seq<Raw>, seen: set<string>, cursor: nat, wire: seq<Raw>, m: Raw)
    requires Sound(c) && Outstanding(c, view, seen, cursor) && Inbox(later) && Extends(later, view) && m in later && Wanted(c, m)
    requires Listed(later, c.limit, c.maxPages, Max(c.f.freshAfter, cursor), 0) == Some(wire)
    ensures m in Since(wire, cursor) && m.id !in seen && m.time >= cursor
  {
    if cursor != 0 && m !in view {
      ArrivalsAreLate(view, later, m, view[0]);
    }
    ListingCovers(later, c.limit, c.maxPages, Max(c.f.freshAfter, cursor), 0);
    SinceKeeps(wire, cursor);
    if m.id in seen {
      SeenIsOld(later, view, seen, m);
    }
  }

  lemma {:induction false} LatestIsNewest(wire: seq<Raw>, cursor: nat)
    requires forall i :: 0 <= i < |wire| ==> wire[i].time <= cursor
    ensures Latest(wire, cursor) == cursor
    decreases |wire|
  {
    if wire != [] {
      LatestIsNewest(wire[1..], cursor);
    }
  }

  lemma {:induction false} ListingIsNotEmpty(view: seq<Raw>, limit: nat, maxPages: nat, oldest: nat, page: nat)
    requires limit >= 1 && page < maxPages && view != [] && Listed(view, limit, maxPages, oldest, page).Some?
    ensures Listed(view, limit, maxPages, oldest, page).value != []
    decreases maxPages - page
  {
    assert (page + 1) * limit >= 1 by { WindowIsNotEmpty(limit, page + 1); }
    var from, to := Min(page * limit, |view|), Min((page + 1) * limit, |view|);
    if !(from <= to && (Covered(view[from..to], oldest) || to == |view|)) {
      ListingIsNotEmpty(view, limit, maxPages, oldest, page + 1);
    }
  }

  lemma NoPickNoneWanted(c: Challenge, view: seq<Raw>, later: seq<Raw>, seen: set<string>, cursor: nat, wire: seq<Raw>)
    requires Sound(c) && Outstanding(c, view, seen, cursor) && Inbox(later) && Extends(later, view)
    requires Listed(later, c.limit, c.maxPages, Max(c.f.freshAfter, cursor), 0) == Some(wire) && SiftAll(Since(wire, cursor), seen, c.f) == []
    ensures NoneWanted(c, later)
  {
    ListingCovers(later, c.limit, c.maxPages, Max(c.f.freshAfter, cursor), 0);
    PrefixIsDistinct(later, |wire|);
    SinceDistinct(wire, cursor);
    forall m | m in later ensures !Wanted(c, m) {
      if Wanted(c, m) {
        WantedIsConsidered(c, view, later, seen, cursor, wire, m);
        NewIsPicked(Since(wire, cursor), seen, c.f, m);
      }
    }
  }

  /** After a poll the cursor is at the newest message of the inbox. */
  lemma CursorIsNewest(view: seq<Raw>, later: seq<Raw>, wire: seq<Raw>, cursor: nat)
    requires Inbox(later) && Extends(later, view) && cursor == NewestOf(view)
    requires |wire| <= |later| && wire == later[..|wire|] && (later != [] ==> wire != [])
    ensures Latest(wire, cursor) == NewestOf(later)
  {
    if later != [] {
      if view != [] {
        assert later[|later| - |view|] == view[0];
      }
      LatestIsNewest(wire[1..], later[0].time);
    }
  }

  lemma SeenStaysKnown(view: seq<Raw>, later: seq<Raw>, seen: set<string>, raws: seq<Raw>)
    requires Extends(later, view) && seen <= Ids(view) && forall m :: m in raws ==> m in later
    ensures seen + Ids(raws) <= Ids(later)
  {
    forall id | id in seen ensures id in Ids(later) {
      var m :| m in view && m.id == id;
      ExtendsContains(later, view, m);
    }
  }

  lemma PollKeepsOutstanding(c: Challenge, view: seq<Raw>, later: seq<Raw>, seen: set<string>, cursor: nat, wire: seq<Raw>)
    requires Sound(c) && Outstanding(c, view, seen, cursor) && Inbox(later) && Extends(later, view)
    requires Listed(later, c.limit, c.maxPages, Max(c.f.freshAfter, cursor), 0) == Some(wire) && SiftAll(Since(wire, cursor), seen, c.f) == []
    ensures NoneWanted(c, later) && Outstanding(c, later, seen + Ids(Since(wire, cursor)), Latest(wire, cursor))
  {
    NoPickNoneWanted(c, view, later, seen, cursor, wire);
    ListingCovers(later, c.limit, c.maxPages, Max(c.f.freshAfter, cursor), 0);
    PrefixIsDistinct(later, |wire|);
    SinceKeeps(wire, cursor);
    if later != [] {
      ListingIsNotEmpty(later, c.limit, c.maxPages, Max(c.f.freshAfter, cursor), 0);
    }
    CursorIsNewest(view, later, wire, cursor);
    LatestBounds(wire, cursor);
    SeenStaysKnown(view, later, seen, Since(wire, cursor));
  }

  /** The cursor of poll `p`: the newest time in the inbox of the poll before, or at first in the one known already. */
  function Reached(known: seq<Raw>, views: seq<seq<Raw>>, p: nat): nat
    requires p <= |views|
  {
    NewestOf(if p == 0 then known else views[p - 1])
  }

  /** The inbox of poll `p` cannot be listed back to what poll `p` needs. */
  ghost predicate TooLong(c: Challenge, known: seq<Raw>, views: seq<seq<Raw>>, p: nat)
    requires Sound(c) && p < |views|
  {
    WindowIsNotEmpty(c.limit, c.maxPages);
    !Listable(views[p], c.limit, c.maxPages, Max(c.f.freshAfter, Reached(known, views, p)))
  }

  /**
   The answer to polls of which the first `p` could be listed and saw nothing wanted: it is still waiting exactly if these
   are all; otherwise poll `p` could not be listed, exactly then, or found the newest of what is wanted.
   */
  ghost predicate Settled(c: Challenge, known: seq<Raw>, views: seq<seq<Raw>>, p: nat, a: Answer)
    requires Sound(c)
  {
    && p <= |views| && (forall q :: 0 <= q < p ==> NoneWanted(c, views[q]) && !TooLong(c, known, views, q))
    && (a.StillWaiting? <==> p == |views|)
    && (a.WindowExceeded? <==> p < |views| && TooLong(c, known, views, p))
    && (a.Found? ==> p < |views| && a.message in views[p] && Wanted(c, a.message) && forall m :: m in views[p] && Wanted(c, m) ==> NotLater(m, a.message))
  }

  /** By time, then by cursor, then by id. */
  predicate NotLater(m: Raw, best: Raw) {
    m.time < best.time || (m.time == best.time && (m.cursor < best.cursor || (m.cursor == best.cursor && !Text.Less(best.id, m.id))))
  }

  lemma SettledLater(c: Challenge, known: seq<Raw>, views: seq<seq<Raw>>, p: nat, a: Answer)
    requires Sound(c) && views != [] && NoneWanted(c, views[0]) && !TooLong(c, known, views, 0) && Settled(c, views[0], views[1..], p, a)
    ensures Settled(c, known, views, p + 1, a)
  {
    forall q | 0 <= q <= p && q < |views| - 1 ensures TooLong(c, known, views, q + 1) == TooLong(c, views[0], views[1..], q) {
      assert views[1..][q] == views[q + 1];
      if q > 0 {
        assert views[1..][q - 1] == views[q];
      }
    }
    forall q | 0 < q < p + 1 ensures NoneWanted(c, views[q]) && !TooLong(c, known, views, q) {
      assert views[1..][q - 1] == views[q];
      assert TooLong(c, known, views, (q - 1) + 1) == TooLong(c, views[0], views[1..], q - 1);
    }
    if p < |views| - 1 {
      assert views[1..][p] == views[p + 1];
    }
  }

  /** Wherever the polling stands: it goes on only while nothing wanted is there, and then returns the newest of what is. */
  lemma {:induction false} ReferenceMissesNothing(c: Challenge, view: seq<Raw>, views: seq<seq<Raw>>, seen: set<string>, cursor: nat)
    returns (p: nat)
    requires Sound(c) && Outstanding(c, view, seen, cursor) && Arrivals(view, views) && ArmIds(c) <= seen
    ensures Settled(c, view, views, p, WaitAll(views, seen, cursor, c.f, c.limit, c.maxPages))
    decreases |views|
  {
    p := 0;
    if views != [] {
      var wire := Listed(views[0], c.limit, c.maxPages, Max(c.f.freshAfter, cursor), 0);
      ListedExactly(views[0], c.limit, c.maxPages, Max(c.f.freshAfter, cursor), 0);
      if wire.Some? {
        var raws := Since(wire.value, cursor);
        if SiftAll(raws, seen, c.f) == [] {
          PollKeepsOutstanding(c, view, views[0], seen, cursor, wire.value);
          var rest := ReferenceMissesNothing(c, views[0], views[1..], seen + Ids(raws), Latest(wire.value, cursor));
          p := rest + 1;
          SettledLater(c, view, views, rest, WaitAll(views, seen, cursor, c.f, c.limit, c.maxPages));
        } else {
          PicksAreBest(c, view, views[0], seen, cursor, wire.value);
        }
      }
    }
  }

  lemma PicksAreBest(c: Challenge, view: seq<Raw>, later: seq<Raw>, seen: set<string>, cursor: nat, wire: seq<Raw>)
    requires Sound(c) && Outstanding(c, view, seen, cursor) && Inbox(later) && Extends(later, view)
    requires Listed(later, c.limit, c.maxPages, Max(c.f.freshAfter, cursor), 0) == Some(wire) && SiftAll(Since(wire, cursor), seen, c.f) != []
    requires ArmIds(c) <= seen
    ensures var best := Best(SiftAll(Since(wire, cursor), seen, c.f));
            best in later && Wanted(c, best) && forall m :: m in later && Wanted(c, m) ==> NotLater(m, best)
  {
    var raws := Since(wire, cursor);
    var picks := SiftAll(raws, seen, c.f);
    ListingCovers(later, c.limit, c.maxPages, Max(c.f.freshAfter, cursor), 0);
    PrefixIsDistinct(later, |wire|);
    SinceDistinct(wire, cursor);
    SinceKeeps(wire, cursor);
    BestIsPicked(picks);
    PickedIsNew(raws, seen, c.f, Best(picks));
    forall m | m in later && Wanted(c, m) ensures NotLater(m, Best(picks)) {
      WantedIsConsidered(c, view, later, seen, cursor, wire, m);
      NewIsPicked(raws, seen, c.f, m);
    }
  }

  /**
   Polling after an arm goes on only while no inbox it has seen holds a wanted message, and the first one that does
   answers it with the newest of them.
   */
  lemma NothingIsMissed(c: Challenge, armed: Armed, views: seq<seq<Raw>>) returns (p: nat)
    requires Sound(c) && ArmOf(armed, c.armedView, c.limit) && Arrivals(c.armedView, views)
    ensures Settled(c, c.armedView, views, p, Wait(views, Seeded(armed.ids, Capacity(c)), armed.newest, c.f, c.limit, c.maxPages))
  {
    SnapshotIsNeverReturned(c, armed, views);
    ArmHoldsIds(c, armed);
    p := ReferenceMissesNothing(c, c.armedView, views, ArmIds(c), armed.newest);
  }
}
