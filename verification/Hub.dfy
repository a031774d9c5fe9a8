/** The live hub: one waiter per pending decision or pairing choice, answered at most once over a channel of capacity one. */
module Hub {
  import opened Types
  import L = Link

  const CAPACITY: nat := 1

  /** A waiter and its buffered channel. A send is allowed only where it cannot block; `sent` counts the sends ever made. */
  class Waiter<T> {
    var decided: bool
    var channel: seq<T>
    ghost var sent: nat

    ghost predicate Valid()
      reads this
    {
      sent == (if decided then 1 else 0) && |channel| <= sent
    }

    constructor ()
      ensures Valid() && !decided && channel == []
    {
      decided, channel, sent := false, [], 0;
    }

    method Send(x: T)
      requires |channel| < CAPACITY
      modifies this`channel, this`sent
      ensures channel == old(channel) + [x] && sent == old(sent) + 1
    {
      channel := channel + [x];
      sent := sent + 1;
    }

    /** The flag and the send go together under the hub's lock. */
    method Answer(x: T)
      requires Valid() && !decided
      modifies this
      ensures Valid() && decided && channel == [x]
    {
      decided := true;
      Send(x);
    }

    method Receive() returns (x: T)
      requires Valid() && channel != []
      modifies this`channel
      ensures Valid() && channel == [] && [x] == old(channel)
    {
      x := channel[0];
      channel := channel[1..];
    }
  }

  datatype HubError = AlreadySet | NotPending

  datatype Candidate = Candidate(id: string, code: string)

  datatype Pairing = Pairing(waiter: Waiter<Candidate>, candidates: map<string, Candidate>)

  datatype Offer = Offer(candidates: map<string, Candidate>, selected: bool, choice: seq<Candidate>)

  type Key = JobId

  /** Exactly the named ones among the messages found, by id. */
  ghost predicate Names(candidates: map<string, Candidate>, found: seq<Candidate>) {
    && (forall id :: id in candidates ==> id != "" && candidates[id].id == id && candidates[id] in found)
    && (forall c :: c in found && c.id != "" ==> c.id in candidates)
  }

  method CollectCandidates(found: seq<Candidate>) returns (candidates: map<string, Candidate>)
    ensures Names(candidates, found)
    ensures |candidates| == 0 <==> forall c :: c in found ==> c.id == ""
  {
    candidates := map[];
    for i := 0 to |found|
      invariant forall id :: id in candidates ==> id != "" && candidates[id].id == id && candidates[id] in found
      invariant forall m :: 0 <= m < i && found[m].id != "" ==> found[m].id in candidates
    {
      if found[i].id != "" {
        candidates := candidates[found[i].id := found[i]];
      }
    }
    if |candidates| != 0 {
      var id :| id in candidates;
      assert candidates[id] in found;
    }
  }

  class Hub {
    var decisions: map<Key, Waiter<Decision>>
    var pairings: map<Key, Pairing>

    ghost function Waiters(): set<object>
      reads this
    {
      (set k | k in decisions :: decisions[k] as object) + (set k | k in pairings :: pairings[k].waiter as object)
    }

    /** Every waiter is sound and belongs to one key. */
    ghost predicate Valid()
      reads this, Waiters()
    {
      && (forall k :: k in decisions ==> decisions[k] in Waiters() && decisions[k].Valid())
      && (forall j, k :: j in decisions && k in decisions && j != k ==> decisions[j] != decisions[k])
      && (forall k :: k in pairings ==> pairings[k].waiter in Waiters() && pairings[k].waiter.Valid())
      && (forall j, k :: j in pairings && k in pairings && j != k ==> pairings[j].waiter != pairings[k].waiter)
    }

    /** The decision waiter of a job as the protocol machine has it. */
    ghost function Seen(k: Key): L.Waiter
      reads this, Waiters()
    {
      if k in decisions then
        assert decisions[k] in Waiters();
        L.Waiter(decisions[k].decided, if decisions[k].channel == [] then None else Some(decisions[k].channel[0]))
      else L.NoWaiter
    }

    /** A pairing in progress: what may be chosen, whether it was, and the choice not yet taken. */
    ghost function Offered(k: Key): Option<Offer>
      reads this, Waiters()
    {
      if k in pairings then
        assert pairings[k].waiter in Waiters();
        Some(Offer(pairings[k].candidates, pairings[k].waiter.decided, pairings[k].waiter.channel))
      else None
    }

    constructor ()
      ensures Valid() && decisions == map[] && pairings == map[]
    {
      decisions, pairings := map[], map[];
    }

    method BeginDecision(k: Key) returns (failure: Option<HubError>)
      requires Valid()
      modifies this`decisions
      ensures Valid()
      ensures failure == (if old(Seen(k)).NoWaiter? then None else Some(AlreadySet))
      ensures Seen(k) == if failure.None? then L.Waiter(false, None) else old(Seen(k))
      ensures forall j :: j != k ==> Seen(j) == old(Seen(j))
    {
      if k in decisions {
        return Some(AlreadySet);
      }
      var w := new Waiter<Decision>();
      decisions := decisions[k := w];
      failure := None;
    }

    /** Delivers to an undecided waiter and to no other; the send finds the channel empty. */
    method Decide(k: Key, d: Decision) returns (failure: Option<HubError>)
      requires Valid()
      modifies Waiters()
      ensures Valid()
      ensures failure == (match old(Seen(k)) case NoWaiter => Some(NotPending) case Waiter(decided, _) => if decided then Some(AlreadySet) else None)
      ensures Seen(k) == if failure.None? then L.Waiter(true, Some(d)) else old(Seen(k))
      ensures forall j :: j != k ==> Seen(j) == old(Seen(j))
    {
      if k !in decisions {
        return Some(NotPending);
      }
      var w := decisions[k];
      if w.decided {
        return Some(AlreadySet);
      }
      w.Answer(d);
      failure := None;
    }

    /** The decision half of CancelJob: an undecided waiter is answered with a cancel. */
    method CancelDecision(k: Key)
      requires Valid()
      modifies Waiters()
      ensures Valid()
      ensures Seen(k) == L.CancelWaiter(old(Seen(k)))
      ensures forall j :: j != k ==> Seen(j) == old(Seen(j))
    {
      if k in decisions && !decisions[k].decided {
        decisions[k].Answer(Decline);
      }
    }

    /** The receiving half of WaitDecision, once the lookup has found the job's waiter. */
    method TakeDecision(k: Key) returns (d: Decision)
      requires Valid() && Seen(k).Waiter? && Seen(k).buffer.Some?
      modifies this`decisions, Waiters()
      ensures Valid()
      ensures Some(d) == old(Seen(k)).buffer && Seen(k) == L.NoWaiter
      ensures forall j :: j != k ==> Seen(j) == old(Seen(j))
    {
      d := decisions[k].Receive();
      decisions := decisions - {k};
    }

    /** WaitDecision whose context ended first. */
    method AbandonDecision(k: Key)
      requires Valid()
      modifies this`decisions
      ensures Valid()
      ensures Seen(k) == L.NoWaiter
      ensures forall j :: j != k ==> Seen(j) == old(Seen(j))
    {
      decisions := decisions - {k};
    }

    method SetPairingCandidates(k: Key, found: seq<Candidate>) returns (failure: Option<HubError>)
      requires Valid()
      modifies this`pairings
      ensures Valid()
      ensures failure.None? <==> old(Offered(k)).None? && !(forall c :: c in found ==> c.id == "")
      ensures failure.Some? ==> Offered(k) == old(Offered(k))
      ensures failure.None? ==> Offered(k).Some? && !Offered(k).value.selected && Offered(k).value.choice == [] && Names(Offered(k).value.candidates, found)
      ensures forall j :: j != k ==> Offered(j) == old(Offered(j))
    {
      var candidates := CollectCandidates(found);
      if |candidates| == 0 {
        return Some(NotPending);
      }
      failure := Propose(k, candidates);
    }

    method Propose(k: Key, candidates: map<string, Candidate>) returns (failure: Option<HubError>)
      requires Valid()
      modifies this`pairings
      ensures Valid()
      ensures failure.None? <==> old(Offered(k)).None?
      ensures Offered(k) == if failure.None? then Some(Offer(candidates, false, [])) else old(Offered(k))
      ensures forall j :: j != k ==> Offered(j) == old(Offered(j))
    {
      if k in pairings {
        return Some(AlreadySet);
      }
      var w := new Waiter<Candidate>();
      pairings := pairings[k := Pairing(w, candidates)];
      failure := None;
    }

    /** The first valid choice is sent, and no second one. */
    method ChoosePairing(k: Key, id: string) returns (failure: Option<HubError>)
      requires Valid()
      modifies Waiters()
      ensures Valid()
      ensures var was := old(Offered(k));
              failure == if was.None? then Some(NotPending) else if was.value.selected then Some(AlreadySet)
                         else if id !in was.value.candidates then Some(NotPending) else None
      ensures failure.Some? ==> Offered(k) == old(Offered(k))
      ensures failure.None? ==> Offered(k) == Some(Offer(old(Offered(k)).value.candidates, true, [old(Offered(k)).value.candidates[id]]))
      ensures forall j :: j != k ==> Offered(j) == old(Offered(j))
    {
      if k !in pairings {
        return Some(NotPending);
      }
      var w := pairings[k].waiter;
      if w.decided {
        return Some(AlreadySet);
      }
      if id !in pairings[k].candidates {
        return Some(NotPending);
      }
      w.Answer(pairings[k].candidates[id]);
      failure := None;
    }

    /** The receiving half of WaitPairing. */
    method TakePairing(k: Key) returns (chosen: Candidate)
      requires Valid() && Offered(k).Some? && Offered(k).value.choice != []
      modifies this`pairings, Waiters()
      ensures Valid()
      ensures [chosen] == old(Offered(k)).value.choice && Offered(k).None?
      ensures forall j :: j != k ==> Offered(j) == old(Offered(j))
    {
      chosen := pairings[k].waiter.Receive();
      pairings := pairings - {k};
    }

    method ClearPairing(k: Key)
      requires Valid()
      modifies this`pairings
      ensures Valid()
      ensures Offered(k).None?
      ensures forall j :: j != k ==> Offered(j) == old(Offered(j))
    {
      pairings := pairings - {k};
    }
  }
}
