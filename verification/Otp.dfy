/** Selecting one-time codes from provider messages: matching, the bounded deduplicator, and the newest-first order. */
module Otp {
  import opened Types
  import Text

  /** A provider message; `code` and `yodel` are what the text patterns find in its body. Time 0 is the zero time. */
  datatype Raw = Raw(
    id: string,
    time: nat,
    cursor: int,
    inbound: bool,
    code: Option<string>,
    yodel: bool,
    chat: string,
    sender: string,
    recipient: string,
    service: string)

  datatype Filter = Filter(
    pairing: bool,
    requireYodel: bool,
    freshAfter: nat,
    chat: string,
    sender: string,
    recipient: string,
    service: string)

  /** A field of the filter that is set has to agree; one that is not set is not looked at. */
  predicate Agrees(wanted: string, found: string) {
    wanted == "" || found == wanted
  }

  /** A code that may be used: received, recent, naming its code, and from the paired conversation, sender, recipient and service. */
  predicate Genuine(m: Raw, f: Filter) {
    && m.id != "" && m.inbound && m.code.Some? && m.time >= f.freshAfter
    && Agrees(f.chat, m.chat) && Agrees(f.sender, m.sender) && Agrees(f.recipient, m.recipient) && Agrees(f.service, m.service)
    && (f.requireYodel ==> m.yodel)
    && (f.pairing ==> m.yodel && m.chat != "" && m.sender != "" && m.service != "")
  }

  /** Match, check by check; it lets through exactly the messages whose code may be used. */
  predicate Matches(m: Raw, f: Filter)
    ensures Matches(m, f) <==> Genuine(m, f)
  {
    if !m.inbound || m.id == "" then false
    else if f.pairing && (m.chat == "" || m.sender == "" || m.service == "") then false
    else if (f.pairing || f.requireYodel) && !m.yodel then false
    else if f.freshAfter != 0 && (m.time == 0 || m.time < f.freshAfter) then false
    else if f.chat != "" && m.chat != f.chat then false
    else if f.sender != "" && m.sender != f.sender then false
    else if f.recipient != "" && m.recipient != f.recipient then false
    else if f.service != "" && m.service != f.service then false
    else m.code.Some?
  }

  function Ids(ms: seq<Raw>): set<string> {
    set m | m in ms :: m.id
  }

  ghost predicate DistinctIds(raws: seq<Raw>) {
    && (forall i :: 0 <= i < |raws| ==> raws[i].id != "")
    && (forall i, j :: 0 <= i < j < |raws| ==> raws[i].id != raws[j].id)
  }

  lemma IdsOfTail(raws: seq<Raw>)
    requires raws != []
    ensures Ids(raws) == {raws[0].id} + Ids(raws[1..])
  {
    assert raws == [raws[0]] + raws[1..];
  }

  // ---------------------------------------------------------------- the deduplicator

  /** The bounded FIFO set: a new id goes in, and the oldest goes out once the bound is passed. */
  function Remember(order: seq<string>, capacity: nat, id: string): seq<string> {
    if id == "" || id in order then order
    else if |order| + 1 > capacity then (order + [id])[1..]
    else order + [id]
  }

  ghost predicate Distinct(order: seq<string>) {
    forall i, j :: 0 <= i < j < |order| ==> order[i] != order[j]
  }

  function Elements(order: seq<string>): set<string> {
    set id | id in order
  }

  lemma RememberKeeps(order: seq<string>, capacity: nat, id: string)
    requires Distinct(order) && |order| <= capacity
    ensures var o := Remember(order, capacity, id);
            Distinct(o) && |o| <= capacity && Elements(o) <= Elements(order) + {id}
  {
    var o := Remember(order, capacity, id);
    forall x | x in o ensures x in order || x == id {
    }
  }

  lemma DropOldest(order: seq<string>)
    requires order != [] && forall i, j :: 0 <= i < j < |order| ==> order[i] != order[j]
    ensures Elements(order[1..]) == Elements(order) - {order[0]}
  {
    forall id | id in Elements(order) - {order[0]} ensures id in order[1..] {
      var i :| 0 <= i < |order| && order[i] == id;
      assert order[1..][i - 1] == id;
    }
  }

  class Deduper {
    const capacity: nat
    var order: seq<string>
    var seen: set<string>

    ghost predicate Valid()
      reads this
    {
      capacity >= 1 && |order| <= capacity && Distinct(order) && seen == Elements(order) && "" !in seen
    }

    constructor (capacity: int, seed: seq<string>)
      ensures Valid() && this.capacity == (if capacity < 1 then 1 else capacity)
      ensures order == Seeded(seed, this.capacity)
    {
      this.capacity := if capacity < 1 then 1 else capacity;
      order, seen := [], {};
      new;
      for i := 0 to |seed|
        invariant Valid() && order == Seeded(seed[..i], this.capacity)
      {
        var _ := Add(seed[i]);
        assert seed[..i + 1][..i] == seed[..i];
      }
      assert seed[..|seed|] == seed;
    }

    method Add(id: string) returns (added: bool)
      requires Valid()
      modifies this
      ensures Valid()
      ensures added <==> id != "" && id !in old(order)
      ensures order == Remember(old(order), capacity, id)
    {
      if id == "" {
        return false;
      }
      if id in seen {
        return false;
      }
      RememberKeeps(order, capacity, id);
      seen := seen + {id};
      order := order + [id];
      assert seen == Elements(order);
      if |order| > capacity {
        var oldest := order[0];
        DropOldest(order);
        order := order[1..];
        seen := seen - {oldest};
      }
      added := true;
    }
  }

  function Seeded(seed: seq<string>, capacity: nat): seq<string> {
    if seed == [] then [] else Remember(Seeded(seed[..|seed| - 1], capacity), capacity, seed[|seed| - 1])
  }

  // ---------------------------------------------------------------- selection

  /** What is left of the messages once ids seen before are skipped, and the set after them. */
  datatype Sifted = Sifted(order: seq<string>, picks: seq<Raw>)

  function Sift(raws: seq<Raw>, order: seq<string>, capacity: nat, f: Filter): Sifted {
    if raws == [] then Sifted(order, [])
    else
      var m := raws[0];
      var rest := Sift(raws[1..], Remember(order, capacity, m.id), capacity, f);
      if m.id != "" && m.id !in order && Matches(m, f) then rest.(picks := [m] + rest.picks) else rest
  }

  predicate Newer(a: Raw, b: Raw) {
    || a.time > b.time
    || (a.time == b.time && a.cursor > b.cursor)
    || (a.time == b.time && a.cursor == b.cursor && Text.Less(b.id, a.id))
  }

  function Insert(m: Raw, sorted: seq<Raw>): seq<Raw> {
    if sorted == [] || !Newer(sorted[0], m) then [m] + sorted else [sorted[0]] + Insert(m, sorted[1..])
  }

  function NewestFirst(ms: seq<Raw>): seq<Raw> {
    if ms == [] then [] else Insert(ms[0], NewestFirst(ms[1..]))
  }

  ghost predicate Ordered(ms: seq<Raw>) {
    forall i, j :: 0 <= i < j < |ms| ==> !Newer(ms[j], ms[i])
  }

  lemma NewerIsTransitive(a: Raw, b: Raw, c: Raw)
    requires !Newer(b, a) && !Newer(c, b)
    ensures !Newer(c, a)
  {
    Text.Trichotomy(a.id, b.id);
    Text.Trichotomy(b.id, c.id);
    if Text.Less(b.id, a.id) && Text.Less(c.id, b.id) {
      Text.Transitive(c.id, b.id, a.id);
    }
    Text.Trichotomy(a.id, c.id);
  }

  lemma NewerIsOneWay(a: Raw, b: Raw)
    requires Newer(a, b)
    ensures !Newer(b, a)
  {
    Text.Trichotomy(a.id, b.id);
  }

  lemma NoneNewer(sorted: seq<Raw>, m: Raw, rest: seq<Raw>)
    requires sorted != [] && Ordered(sorted) && !Newer(m, sorted[0]) && multiset(rest) == multiset(sorted[1..]) + multiset{m}
    ensures forall j :: 0 <= j < |rest| ==> !Newer(rest[j], sorted[0])
  {
    forall j | 0 <= j < |rest| ensures !Newer(rest[j], sorted[0]) {
      assert rest[j] in multiset(rest);
      if rest[j] != m {
        assert rest[j] in multiset(sorted[1..]);
      }
    }
  }

  lemma {:induction false} InsertOrders(m: Raw, sorted: seq<Raw>)
    requires Ordered(sorted)
    ensures Ordered(Insert(m, sorted)) && multiset(Insert(m, sorted)) == multiset(sorted) + multiset{m}
    decreases |sorted|
  {
    if sorted != [] {
      assert sorted == [sorted[0]] + sorted[1..];
      if Newer(sorted[0], m) {
        InsertOrders(m, sorted[1..]);
        NewerIsOneWay(sorted[0], m);
        NoneNewer(sorted, m, Insert(m, sorted[1..]));
      } else {
        forall j | 0 <= j < |sorted| ensures !Newer(sorted[j], m) {
          if j > 0 {
            NewerIsTransitive(m, sorted[0], sorted[j]);
          }
        }
      }
    }
  }

  /** The candidates come back newest first, and they are exactly the picks. */
  lemma {:induction false} NewestFirstSorts(ms: seq<Raw>)
    ensures Ordered(NewestFirst(ms)) && multiset(NewestFirst(ms)) == multiset(ms)
  {
    if ms != [] {
      NewestFirstSorts(ms[1..]);
      InsertOrders(ms[0], NewestFirst(ms[1..]));
      assert ms == [ms[0]] + ms[1..];
    }
  }

  /** Newest first: by time, then by cursor, then by id. */
  ghost predicate Descending(ms: seq<Raw>) {
    forall i, j :: 0 <= i < j < |ms| ==>
      || ms[i].time > ms[j].time
      || (ms[i].time == ms[j].time && ms[i].cursor > ms[j].cursor)
      || (ms[i].time == ms[j].time && ms[i].cursor == ms[j].cursor && (ms[i].id == ms[j].id || Text.Less(ms[j].id, ms[i].id)))
  }

  lemma OrderedIsDescending(ms: seq<Raw>)
    requires Ordered(ms)
    ensures Descending(ms)
  {
    forall i, j | 0 <= i < j < |ms| ensures !Newer(ms[j], ms[i]) && (Text.Less(ms[i].id, ms[j].id) || ms[i].id == ms[j].id || Text.Less(ms[j].id, ms[i].id)) {
      Text.Trichotomy(ms[i].id, ms[j].id);
    }
  }

  /** The id has not been seen, neither before these messages nor earlier among them. */
  predicate FirstSeen(raws: seq<Raw>, order: seq<string>, i: nat)
    requires i < |raws|
  {
    raws[i].id !in order && forall j :: 0 <= j < i ==> raws[j].id != raws[i].id
  }

  lemma {:induction false} SiftIsGenuine(raws: seq<Raw>, order: seq<string>, capacity: nat, f: Filter)
    ensures forall m :: m in Sift(raws, order, capacity, f).picks ==> m in raws && Genuine(m, f)
    decreases |raws|
  {
    if raws != [] {
      SiftIsGenuine(raws[1..], Remember(order, capacity, raws[0].id), capacity, f);
    }
  }

  lemma {:induction false} SiftMissesNothing(raws: seq<Raw>, order: seq<string>, capacity: nat, f: Filter, i: nat)
    requires i < |raws| && FirstSeen(raws, order, i) && Genuine(raws[i], f)
    ensures raws[i] in Sift(raws, order, capacity, f).picks
    decreases |raws|
  {
    if i > 0 {
      var next := Remember(order, capacity, raws[0].id);
      assert raws[1..][i - 1] == raws[i];
      forall j | 0 <= j < i - 1 ensures raws[1..][j].id != raws[i].id {
        assert raws[1..][j] == raws[j + 1];
      }
      SiftMissesNothing(raws[1..], next, capacity, f, i - 1);
    }
  }

  /** What comes back is genuine, in order, and misses no genuine message seen for the first time. */
  ghost predicate Selected(raws: seq<Raw>, order: seq<string>, f: Filter, result: seq<Raw>) {
    && (forall m :: m in result ==> m in raws && Genuine(m, f))
    && (forall i :: 0 <= i < |raws| && FirstSeen(raws, order, i) && Genuine(raws[i], f) ==> raws[i] in result)
    && Descending(result)
  }

  lemma SelectionIsExact(raws: seq<Raw>, order: seq<string>, capacity: nat, f: Filter)
    ensures Selected(raws, order, f, NewestFirst(Sift(raws, order, capacity, f).picks))
  {
    var picks := Sift(raws, order, capacity, f).picks;
    NewestFirstSorts(picks);
    OrderedIsDescending(NewestFirst(picks));
    SiftIsGenuine(raws, order, capacity, f);
    forall m ensures m in NewestFirst(picks) <==> m in picks {
      assert m in multiset(NewestFirst(picks)) <==> m in multiset(picks);
    }
    forall i | 0 <= i < |raws| && FirstSeen(raws, order, i) && Genuine(raws[i], f) ensures raws[i] in picks {
      SiftMissesNothing(raws, order, capacity, f, i);
    }
  }

  method Select(raws: seq<Raw>, f: Filter, seen: Deduper) returns (result: seq<Raw>)
    requires seen.Valid()
    modifies seen
    ensures seen.Valid()
    ensures Selected(raws, old(seen.order), f, result)
    ensures seen.order == Sift(raws, old(seen.order), seen.capacity, f).order
    ensures result == NewestFirst(Sift(raws, old(seen.order), seen.capacity, f).picks)
  {
    var picks: seq<Raw> := [];
    for i := 0 to |raws|
      invariant seen.Valid()
      invariant Sift(raws, old(seen.order), seen.capacity, f) ==
                Sifted(Sift(raws[i..], seen.order, seen.capacity, f).order, picks + Sift(raws[i..], seen.order, seen.capacity, f).picks)
    {
      assert raws[i..][1..] == raws[i + 1..];
      var added := seen.Add(raws[i].id);
      if !added {
        continue;
      }
      if Matches(raws[i], f) {
        picks := picks + [raws[i]];
      }
    }
    assert raws[|raws|..] == [] && picks + [] == picks;
    SelectionIsExact(raws, old(seen.order), seen.capacity, f);
    result := NewestFirst(picks);
  }
}
