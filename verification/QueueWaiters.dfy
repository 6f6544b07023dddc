/**
  Callers that wait. A put notifies everyone, but only when it adds its tenant
  to a list; that is enough for no caller to sleep through work it could take.
*/
module QueueWaiters {
  import opened Wrappers
  import opened RequestQueue
  import opened QueueFairness

  /** A caller inside wait(), and whether it has been notified. */
  datatype Waiter = Waiter(id: Option<string>, notified: bool)

  datatype Room = Room(store: Store, waiters: map<nat, Waiter>)

  datatype Move = Puts(request: Request, id: Option<string>) | Calls(caller: nat, id: Option<string>) | Wakes(caller: nat) | Leaves(caller: nat)

  /** The put adds its tenant to the list, which is when it notifies everyone. */
  predicate Appends(q: Store, r: Request, id: Option<string>)
  {
    TenantOf(r) !in Active(q, SetKey(id))
  }

  /** A call or a woken waiter looks once; finding nothing, it waits for the next notification. */
  function Look(room: Room, caller: nat, id: Option<string>): Room
  {
    var g := Get(room.store, id);
    Room(g.store, if g.batch.None? then room.waiters[caller := Waiter(id, false)] else room.waiters - {caller})
  }

  function MoveRoom(room: Room, move: Move): Room
  {
    match move
    case Puts(r, id) =>
      Room(Put(room.store, r, id),
           if Appends(room.store, r, id) then map c | c in room.waiters :: room.waiters[c].(notified := true) else room.waiters)
    case Calls(c, id) => if c in room.waiters then room else Look(room, c, id)
    case Wakes(c) => if c in room.waiters && room.waiters[c].notified then Look(room, c, room.waiters[c].id) else room
    case Leaves(c) => room.(waiters := room.waiters - {c})
  }

  function Moves(room: Room, moves: seq<Move>): Room
    decreases |moves|
  {
    if moves == [] then room else Moves(MoveRoom(room, moves[0]), moves[1..])
  }

  /** The lists a call with this argument looks at are all empty. */
  ghost predicate NothingListed(q: Store, id: Option<string>)
  {
    if id.Some? && id.value != "" then Active(q, id.value) == [] else forall k :: k in q.order ==> Active(q, k) == []
  }

  ghost predicate WaitersOk(room: Room)
  {
    StoreOk(room.store) &&
    forall c :: c in room.waiters && !room.waiters[c].notified ==> NothingListed(room.store, room.waiters[c].id)
  }

  lemma {:induction false} EmptyStaysEmpty(q: Store, order: seq<string>, key: string)
    requires Active(q, key) == []
    ensures Active(TakeAny(q, order).store, key) == []
    decreases |order|
  {
    if order == [] {
    } else {
      TakeKeepsEmpty(q, order[0], key);
      EmptyStaysEmpty(TakeFrom(q, order[0]).store, order[1..], key);
    }
  }

  lemma TakeKeepsEmpty(q: Store, from: string, key: string)
    requires Active(q, key) == []
    ensures Active(TakeFrom(q, from).store, key) == []
  {
  }

  lemma GetKeepsEmpty(q: Store, id: Option<string>, key: string)
    requires Active(q, key) == []
    ensures Active(Get(q, id).store, key) == []
  {
    if id.Some? && id.value != "" {
      TakeKeepsEmpty(q, id.value, key);
    } else {
      EmptyStaysEmpty(q, q.order, key);
    }
  }

  lemma {:induction false} NoBatchEmptiesAll(q: Store, order: seq<string>, key: string)
    requires TakeAny(q, order).batch.None? && key in order
    ensures Active(TakeAny(q, order).store, key) == []
    decreases |order|
  {
    var z := TakeFrom(q, order[0]).store;
    if order[0] == key {
      EmptyStaysEmpty(z, order[1..], key);
    } else {
      NoBatchEmptiesAll(z, order[1..], key);
    }
  }

  /** A call that has to wait leaves every list it looks at empty. */
  lemma NoBatchNothingListed(q: Store, id: Option<string>)
    requires StoreOk(q) && Get(q, id).batch.None?
    ensures NothingListed(Get(q, id).store, id)
  {
    if id.Some? && id.value != "" {
    } else {
      TakeAnyKeepsOk(q, q.order);
      forall k | k in q.order ensures Active(Get(q, id).store, k) == [] {
        NoBatchEmptiesAll(q, q.order, k);
      }
    }
  }

  lemma LookKeepsWaitersOk(room: Room, caller: nat, id: Option<string>)
    requires WaitersOk(room)
    ensures WaitersOk(Look(room, caller, id))
  {
    var next := Look(room, caller, id);
    StepKeepsOk(room.store, DoGet(id));
    forall c | c in next.waiters && !next.waiters[c].notified ensures NothingListed(next.store, next.waiters[c].id) {
      if c == caller {
        NoBatchNothingListed(room.store, id);
      } else {
        StaysUnlisted(room.store, id, next.waiters[c].id);
      }
    }
  }

  lemma StaysUnlisted(q: Store, id: Option<string>, other: Option<string>)
    requires StoreOk(q) && NothingListed(q, other)
    ensures NothingListed(Get(q, id).store, other)
  {
    if other.Some? && other.value != "" {
      GetKeepsEmpty(q, id, other.value);
    } else {
      StepKeepsOrder(q, id);
      forall k | k in q.order ensures Active(Get(q, id).store, k) == [] {
        GetKeepsEmpty(q, id, k);
      }
    }
  }

  lemma StepKeepsOrder(q: Store, id: Option<string>)
    requires StoreOk(q)
    ensures Get(q, id).store.order == q.order
  {
    if id.Some? && id.value != "" {
      TakeKeepsOk(q, id.value);
    } else {
      TakeAnyKeepsOk(q, q.order);
    }
  }

  lemma PutKeepsWaitersOk(room: Room, r: Request, id: Option<string>)
    requires WaitersOk(room)
    ensures WaitersOk(MoveRoom(room, Puts(r, id)))
  {
    PutKeepsOk(room.store, r, id);
    var next := MoveRoom(room, Puts(r, id));
    forall c | c in next.waiters && !next.waiters[c].notified ensures NothingListed(next.store, next.waiters[c].id) {
      assert NothingListed(room.store, room.waiters[c].id);
      assert TenantOf(r) in Active(room.store, SetKey(id));
    }
  }

  lemma {:induction false} MovesKeepWaitersOk(room: Room, moves: seq<Move>)
    requires WaitersOk(room)
    ensures WaitersOk(Moves(room, moves))
    decreases |moves|
  {
    if moves == [] {
    } else {
      match moves[0] {
        case Puts(r, id) => PutKeepsWaitersOk(room, r, id);
        case Calls(c, id) => LookKeepsWaitersOk(room, c, id);
        case Wakes(c) =>
          if c in room.waiters {
            LookKeepsWaitersOk(room, c, room.waiters[c].id);
          }
        case Leaves(_) =>
      }
      MovesKeepWaitersOk(MoveRoom(room, moves[0]), moves[1..]);
    }
  }

  lemma {:induction false} BatchMeansListed(q: Store, order: seq<string>)
    requires forall k :: k in order ==> Active(q, k) == []
    ensures TakeAny(q, order).batch.None?
    decreases |order|
  {
    if order == [] {
    } else {
      var z := TakeFrom(q, order[0]).store;
      assert order[0] in order;
      forall k | k in order[1..] ensures Active(z, k) == [] {
        TakeKeepsEmpty(q, order[0], k);
      }
      BatchMeansListed(z, order[1..]);
    }
  }

  /**
    No lost wake-up, though a put notifies only when it adds its tenant to a
    list: in every run, a waiting caller that would now be given a batch, with
    a set or without one, has a notification pending.
  */
  lemma WaitersAreWoken(moves: seq<Move>, caller: nat)
    ensures var room := Moves(Room(EMPTY, map[]), moves);
            caller in room.waiters && Get(room.store, room.waiters[caller].id).batch.Some? ==> room.waiters[caller].notified
  {
    MovesKeepWaitersOk(Room(EMPTY, map[]), moves);
    var room := Moves(Room(EMPTY, map[]), moves);
    if caller in room.waiters && !room.waiters[caller].notified {
      var id := room.waiters[caller].id;
      assert NothingListed(room.store, id);
      if id.None? || id.value == "" {
        BatchMeansListed(room.store, room.store.order);
      }
    }
  }

  lemma {:induction false} OnlyListIsTaken(q: Store, order: seq<string>, key: string, t: string)
    requires Distinct(order) && key in order && Active(q, key) == [t] && Queue(q, t) != []
    requires forall k :: k in order && k != key ==> Active(q, k) == []
    ensures TakeAny(q, order).batch == Some(Batch(t, Queue(q, t)))
    decreases |order|
  {
    if order[0] == key {
      assert SkipStale(q.queues, [t]) == [t];
    } else {
      assert order[0] in order && IdleSet(q, order[0]);
      IdleSetGivesNothing(q, order[0]);
      IdleSetIsEmptied(q, order[0]);
      assert Distinct(order[1..]) && forall k :: k in order[1..] ==> k in order;
      OnlyListIsTaken(TakeFrom(q, order[0]).store, order[1..], key, t);
    }
  }

  lemma NextPutToItsSet(q: Store, r: Request, key: string)
    requires key != "" && TakeFrom(q, key).batch.None?
    ensures TakeFrom(Put(TakeFrom(q, key).store, r, Some(key)), key).batch == Some(Batch(TenantOf(r), Queue(q, TenantOf(r)) + [r]))
  {
    var z, t := TakeFrom(q, key).store, TenantOf(r);
    TakeMovesOneQueue(q, key, t);
    assert [] + [t] == [t] && SkipStale(Put(z, r, Some(key)).queues, [t]) == [t];
  }

  lemma PutOnAnEmptyList(z: Store, r: Request, putId: Option<string>, key: string, t: string)
    requires StoreOk(z) && key == SetKey(putId) && t == TenantOf(r) && Active(z, key) == []
    ensures var after := Put(z, r, putId);
            Active(after, key) == [t] && Queue(after, t) == Queue(z, t) + [r] && key in after.order &&
            forall k :: k != key ==> Active(after, k) == Active(z, k)
  {
    assert [] + [t] == [t];
  }

  lemma NextPutAnywhere(z: Store, r: Request, putId: Option<string>)
    requires StoreOk(z) && forall k :: k in z.order ==> Active(z, k) == []
    ensures var after := Put(z, r, putId);
            TakeAny(after, after.order).batch == Some(Batch(TenantOf(r), Queue(z, TenantOf(r)) + [r]))
  {
    var after, t, key := Put(z, r, putId), TenantOf(r), SetKey(putId);
    assert key !in z.order ==> key !in z.active;
    PutOnAnEmptyList(z, r, putId, key, t);
    StepKeepsOk(z, DoPut(r, putId));
    forall k | k in after.order && k != key ensures Active(after, k) == [] {
      assert k !in z.order ==> k !in z.active;
    }
    OnlyListIsTaken(after, after.order, key, t);
  }

  /** A caller that had to wait is given the very next request put where it looks, with all that its tenant has pending. */
  lemma NextPutIsDelivered(q: Store, r: Request, id: Option<string>, putId: Option<string>)
    requires StoreOk(q) && Get(q, id).batch.None?
    requires id.Some? && id.value != "" ==> SetKey(putId) == id.value
    ensures var z := Get(q, id).store;
            Get(Put(z, r, putId), id).batch == Some(Batch(TenantOf(r), Queue(q, TenantOf(r)) + [r]))
  {
    if id.Some? && id.value != "" {
      assert Put(Get(q, id).store, r, putId) == Put(Get(q, id).store, r, id);
      NextPutToItsSet(q, r, id.value);
    } else {
      NoBatchNothingListed(q, id);
      StepKeepsOk(q, DoGet(id));
      TakeAnyMovesOneQueue(q, q.order, TenantOf(r));
      NextPutAnywhere(Get(q, id).store, r, putId);
    }
  }
}
