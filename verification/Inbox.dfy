/** The worker's control inbox: a queue filled by a reader thread, and a buffer of frames looked at too early. */
module Inbox {
  import opened Types
  import opened Frames

  /** What the reader thread puts in the queue. */
  datatype Item = Frame(frame: ToPy) | EndOfStream | Malformed

  predicate Dropped(item: Item, ignored: set<Id>) {
    item.Frame? && Ignorable(item.frame, ignored)
  }

  /** The plain FIFO this object stands for: everything received and not yet consumed, without closed challenges. */
  function Live(items: seq<Item>, ignored: set<Id>): seq<Item> {
    if items == [] then []
    else (if Dropped(items[0], ignored) then [] else [items[0]]) + Live(items[1..], ignored)
  }

  predicate Stops(item: Item) {
    item.EndOfStream? || item.Malformed? || item == Frame(ControlCancel)
  }

  datatype Taken = Empty | Got(frame: ToPy) | RaisedCancelled | RaisedProtocolError

  /** What consuming one item of the FIFO means to the caller. */
  function Outcome(item: Item): Taken {
    match item
    case EndOfStream => RaisedCancelled
    case Malformed => RaisedProtocolError
    case Frame(f) => Got(f)
  }

  lemma {:induction false} LiveAppend(a: seq<Item>, b: seq<Item>, ignored: set<Id>)
    ensures Live(a + b, ignored) == Live(a, ignored) + Live(b, ignored)
  {
    if a == [] {
      assert a + b == b;
    } else {
      assert (a + b)[1..] == a[1..] + b;
      LiveAppend(a[1..], b, ignored);
    }
  }

  /** Ignoring one more challenge only filters the FIFO further. */
  lemma {:induction false} LiveIgnore(items: seq<Item>, ignored: set<Id>, c: Id)
    ensures Live(items, ignored + {c}) == Live(Live(items, ignored), {c})
  {
    if items != [] {
      LiveIgnore(items[1..], ignored, c);
      var rest := Live(items[1..], ignored);
      if Dropped(items[0], ignored) {
        assert Live(items, ignored) == rest;
      } else {
        LiveAppend([items[0]], rest, {c});
        assert Live([items[0]], {c}) == if Dropped(items[0], {c}) then [] else [items[0]];
      }
    }
  }

  /** A provider's reply to a challenge that is closed. */
  predicate LateReply(x: Item, ignored: set<Id>) {
    && x.Frame? && (x.frame.OtpReady? || x.frame.OtpError? || x.frame.OtpExpired? || x.frame.OtpProvide?)
    && x.frame.id in ignored
  }

  /** Every item kept was received, and only late replies to closed challenges are not kept. */
  lemma {:induction false} LiveMembers(items: seq<Item>, ignored: set<Id>, x: Item)
    ensures x in Live(items, ignored) <==> x in items && !LateReply(x, ignored)
  {
    if items != [] {
      LiveMembers(items[1..], ignored, x);
    }
  }

  /** Moving the head of the queue to the end of the buffer, or dropping it, keeps the FIFO. */
  lemma LookAhead(deferred: seq<Item>, queue: seq<Item>, ignored: set<Id>)
    requires queue != []
    ensures var head := if Dropped(queue[0], ignored) then [] else [queue[0]];
            Live((deferred + head) + queue[1..], ignored) == Live(deferred + queue, ignored)
  {
    var head := if Dropped(queue[0], ignored) then [] else [queue[0]];
    assert Live([queue[0]], ignored) == head && Live(head, ignored) == head;
    assert queue == [queue[0]] + queue[1..];
    LiveAppend(deferred, queue, ignored);
    LiveAppend([queue[0]], queue[1..], ignored);
    LiveAppend(deferred + head, queue[1..], ignored);
    LiveAppend(deferred, head, ignored);
  }

  lemma {:induction false} LiveOfLive(items: seq<Item>, ignored: set<Id>)
    requires forall i :: 0 <= i < |items| ==> !Dropped(items[i], ignored)
    ensures Live(items, ignored) == items
  {
    if items != [] {
      LiveOfLive(items[1..], ignored);
    }
  }

  /** The end of the stream, an unreadable frame or a cancel, with nothing of the kind before it. */
  ghost predicate StopsFirst(queue: seq<Item>, i: nat, raised: Taken)
    requires i < |queue|
  {
    && (forall j :: 0 <= j < i ==> queue[j] !in {EndOfStream, Malformed, Frame(ControlCancel)})
    && (|| (queue[i] in {EndOfStream, Frame(ControlCancel)} && raised == RaisedCancelled)
        || (queue[i] == Malformed && raised == RaisedProtocolError))
  }

  class ControlInbox {
    var deferred: seq<Item>
    var queue: seq<Item>
    var ignored: set<Id>

    /** The buffer holds only frames, none of them a cancel or a reply to a closed challenge. */
    ghost predicate Valid()
      reads this
    {
      forall i :: 0 <= i < |deferred| ==> !Stops(deferred[i]) && !Dropped(deferred[i], ignored)
    }

    ghost function Stream(): seq<Item>
      reads this
    {
      Live(deferred + queue, ignored)
    }

    constructor ()
      ensures Valid() && Stream() == [] && ignored == {}
    {
      deferred, queue, ignored := [], [], {};
    }

    /** The reader thread. */
    method Deliver(item: Item)
      requires Valid()
      modifies this
      ensures Valid() && ignored == old(ignored)
      ensures Stream() == old(Stream()) + Live([item], ignored)
    {
      LiveAppend(deferred + queue, [item], ignored);
      assert deferred + (queue + [item]) == (deferred + queue) + [item];
      queue := queue + [item];
    }

    /** Takes the head of the FIFO. `late` answers whether the deadline had passed at each dropped frame. */
    method Next(late: nat -> bool) returns (r: Taken)
      requires Valid()
      modifies this
      ensures Valid() && ignored == old(ignored)
      ensures r.Empty? ==> Stream() == old(Stream())
      ensures old(Stream()) == [] ==> r.Empty?
      ensures !r.Empty? ==> old(Stream()) != [] && r == Outcome(old(Stream())[0]) && Stream() == old(Stream())[1..]
      // a frame is handed over, the end of the stream cancels, anything unreadable is a protocol error
      ensures r.Got? ==> old(Stream())[0] == Frame(r.frame)
      ensures r.RaisedCancelled? ==> old(Stream())[0] == EndOfStream
      ensures r.RaisedProtocolError? ==> old(Stream())[0] == Malformed
      ensures (forall n :: !late(n)) && old(Stream()) != [] ==> !r.Empty?
    {
      var dropped := 0;
      while true
        invariant Valid() && ignored == old(ignored) && Stream() == old(Stream())
        decreases |deferred| + |queue|
      {
        var item: Item;
        ghost var all := deferred + queue;
        if deferred != [] {
          item := deferred[0];
          deferred := deferred[1..];
        } else if queue != [] {
          item := queue[0];
          queue := queue[1..];
        } else {
          return Empty;
        }
        assert all[0] == item && deferred + queue == all[1..];
        if item.Frame? && IsOtp(item.frame) && item.frame.id in ignored {
          if late(dropped) {
            return Empty;
          }
          dropped := dropped + 1;
          continue;
        }
        return Outcome(item);
      }
    }

    /** Looks ahead for a cancellation without consuming any reply. */
    method CheckCancelled() returns (raised: Option<Taken>)
      requires Valid()
      modifies this
      ensures Valid() && ignored == old(ignored)
      ensures raised.None? ==> Stream() == old(Stream()) && forall x :: x in Stream() ==> !Stops(x)
      // the first thing in the queue that stops the run decides what is raised
      ensures raised.Some? ==> exists i :: 0 <= i < |old(queue)| && StopsFirst(old(queue), i, raised.value)
    {
      ghost var at := 0;
      while queue != []
        invariant Valid() && ignored == old(ignored) && Stream() == old(Stream())
        invariant at <= |old(queue)| && queue == old(queue)[at..] && forall j :: 0 <= j < at ==> !Stops(old(queue)[j])
        decreases |queue|
      {
        LookAhead(deferred, queue, ignored);
        var item := queue[0];
        assert item == old(queue)[at];
        assert Stops(item) ==> StopsFirst(old(queue), at, if item == Malformed then RaisedProtocolError else RaisedCancelled);
        at := at + 1;
        queue := queue[1..];
        match item
        case EndOfStream => return Some(RaisedCancelled);
        case Malformed => return Some(RaisedProtocolError);
        case Frame(f) =>
          if f == ControlCancel {
            return Some(RaisedCancelled);
          }
          if !Ignorable(f, ignored) {
            deferred := deferred + [item];
          } else {
            assert deferred + [] == deferred;
          }
      }
      raised := None;
      assert deferred + queue == deferred;
      LiveOfLive(deferred, ignored);
    }

    method IgnoreOtpChallenge(c: Id)
      requires Valid()
      modifies this
      ensures Valid() && ignored == old(ignored) + {c}
      ensures Stream() == Live(old(Stream()), {c})
    {
      var kept := Live(deferred, {c});
      LiveIgnore(deferred + queue, ignored, c);
      LiveAppend(deferred, queue, ignored + {c});
      LiveOfLive(deferred, ignored);
      LiveIgnore(deferred, ignored, c);
      forall i | 0 <= i < |kept| ensures !Stops(kept[i]) && !Dropped(kept[i], ignored + {c}) {
        LiveMembers(deferred, {c}, kept[i]);
      }
      LiveOfLive(kept, ignored + {c});
      LiveAppend(kept, queue, ignored + {c});
      ignored := ignored + {c};
      deferred := kept;
    }
  }
}
