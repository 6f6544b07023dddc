/**
  The state store and the session registry as they run, with the time of each
  call given. A sweep of one owner, run while it holds the owner's lock, tears
  the workers down exactly when none of the owner's sessions is live.
*/
module SessionRegistry {
  import opened Wrappers
  import opened SessionReaper

  class InMemoryStateStore {
    var kvStore: map<Key, string>
    var expiries: map<Key, int>
    var sets: map<Key, set<string>>

    ghost function View(): State
      reads this
    {
      State(kvStore, expiries, sets)
    }

    constructor ()
      ensures View() == State(map[], map[], map[])
    {
      kvStore, expiries, sets := map[], map[], map[];
    }

    method SetValue(key: Key, value: string, ttl: Option<int>, now: int)
      modifies this
      ensures View() == SessionReaper.SetValue(old(View()), key, value, ttl, now)
      ensures kvStore == old(kvStore)[key := value] && sets == old(sets)
      ensures expiries == if ttl.Some? then old(expiries)[key := now + ttl.value] else old(expiries) - {key}
    {
      kvStore := kvStore[key := value];
      expiries := expiries - {key};
      if ttl.Some? {
        expiries := expiries[key := now + ttl.value];
        assert old(expiries)[key := now + ttl.value] == expiries;
      }
    }

    /** A value past its expiry is gone, from the store too. */
    method GetValue(key: Key, now: int) returns (value: Option<string>)
      modifies this
      ensures View() == Swept(old(View()), key, now) && value == SessionReaper.GetValue(old(View()), key, now)
      ensures value == if key in old(kvStore) && !(key in old(expiries) && now >= old(expiries)[key]) then Some(old(kvStore)[key]) else None
    {
      if key in expiries && now >= expiries[key] {
        kvStore, expiries := kvStore - {key}, expiries - {key};
      }
      value := if key in kvStore then Some(kvStore[key]) else None;
    }

    method DeleteValues(keys: seq<Key>)
      modifies this
      ensures View() == SessionReaper.DeleteValues(old(View()), set k | k in keys)
      ensures forall k :: (k in kvStore <==> k in old(kvStore) && k !in keys) && (k in sets <==> k in old(sets) && k !in keys) &&
                          (k in expiries <==> k in old(expiries) && k !in keys)
    {
      ghost var gone: set<Key> := {};
      for i := 0 to |keys|
        invariant gone == set k | k in keys[..i]
        invariant View() == SessionReaper.DeleteValues(old(View()), gone)
      {
        kvStore, expiries, sets := kvStore - {keys[i]}, expiries - {keys[i]}, sets - {keys[i]};
        gone := gone + {keys[i]};
        assert keys[..i + 1] == keys[..i] + [keys[i]];
        assert View() == SessionReaper.DeleteValues(old(View()), gone);
      }
      assert keys[..|keys|] == keys;
    }

    method AddToSet(key: Key, member: string)
      modifies this
      ensures View() == SessionReaper.AddToSet(old(View()), key, member)
      ensures sets == old(sets)[key := (if key in old(sets) then old(sets)[key] else {}) + {member}]
    {
      if key !in sets {
        sets := sets[key := {}];
      }
      sets := sets[key := sets[key] + {member}];
    }

    method RemoveFromSet(key: Key, member: string)
      modifies this
      ensures View() == SessionReaper.RemoveFromSet(old(View()), key, member)
      ensures sets == if key in old(sets) then old(sets)[key := old(sets)[key] - {member}] else old(sets)
    {
      if key in sets {
        sets := sets[key := sets[key] - {member}];
      }
    }

    method Members(key: Key) returns (members: set<string>)
      ensures members == SetMembers(View(), key)
    {
      members := if key in sets then sets[key] else {};
    }
  }

  /** An owner's sessions that are still live. */
  function LiveMembers(st: State, owner: string, now: int): set<string>
  {
    set s | s in SetMembers(st, OwnerKey(owner)) && Live(st, s, now)
  }

  /** The owner's sessions still to be checked are kept, and of the others exactly the live ones. */
  ghost predicate Checked(before: State, owner: string, now: int, todo: set<string>, st: State)
  {
    && todo <= SetMembers(before, OwnerKey(owner))
    && (forall s :: Live(st, s, now) == Live(before, s, now))
    && SetMembers(st, OwnerKey(owner)) == (set s | s in SetMembers(before, OwnerKey(owner)) && (s in todo || Live(before, s, now)))
    && forall k :: k != OwnerKey(owner) ==> SetMembers(st, k) == SetMembers(before, k)
  }

  lemma CheckNext(before: State, owner: string, now: int, todo: set<string>, st: State, s: string)
    requires Checked(before, owner, now, todo, st) && s in todo
    ensures Live(st, s, now) ==> Checked(before, owner, now, todo - {s}, Swept(st, SessionKey(s), now))
    ensures !Live(st, s, now) ==>
              Checked(before, owner, now, todo - {s},
                      SessionReaper.RemoveFromSet(Swept(st, SessionKey(s), now), OwnerKey(owner), s))
  {
  }

  class SessionRegistry {
    const state: InMemoryStateStore
    const ttl: int

    constructor (state: InMemoryStateStore, ttl: int)
      ensures this.state == state && this.ttl == ttl
    {
      this.state, this.ttl := state, ttl;
    }

    method Heartbeat(session: string, now: int)
      modifies state
      ensures state.View() == SessionReaper.Heartbeat(old(state.View()), session, ttl, now)
    {
      state.SetValue(SessionKey(session), "1", Some(ttl), now);
    }

    method IsLive(session: string, now: int) returns (live: bool)
      modifies state
      ensures live == Live(old(state.View()), session, now)
      ensures state.View() == Swept(old(state.View()), SessionKey(session), now)
    {
      var value := state.GetValue(SessionKey(session), now);
      live := value.Some?;
    }

    /** The session is one of the owner's, and live for a full ttl. */
    method Attach(session: string, owner: string, now: int)
      modifies state
      ensures state.View() ==
              SessionReaper.AddToSet(
                SessionReaper.AddToSet(SessionReaper.Heartbeat(old(state.View()), session, ttl, now), OwnersKey, owner),
                OwnerKey(owner), session)
      ensures session in SetMembers(state.View(), OwnerKey(owner)) && owner in SetMembers(state.View(), OwnersKey)
      ensures ttl > 0 ==> Live(state.View(), session, now + ttl - 1)
      ensures forall o :: o != owner ==> SetMembers(state.View(), OwnerKey(o)) == SetMembers(old(state.View()), OwnerKey(o))
    {
      Heartbeat(session, now);
      state.AddToSet(OwnersKey, owner);
      state.AddToSet(OwnerKey(owner), session);
    }

    /** Drops the dead sessions, and says whether any is left. */
    method InUse(owner: string, now: int) returns (inUse: bool)
      modifies state
      ensures inUse == (LiveMembers(old(state.View()), owner, now) != {})
      ensures SetMembers(state.View(), OwnerKey(owner)) == LiveMembers(old(state.View()), owner, now)
      ensures forall k :: k != OwnerKey(owner) ==> SetMembers(state.View(), k) == SetMembers(old(state.View()), k)
      ensures forall s :: Live(state.View(), s, now) == Live(old(state.View()), s, now)
    {
      ghost var before := state.View();
      var todo := state.Members(OwnerKey(owner));
      while todo != {}
        invariant Checked(before, owner, now, todo, state.View())
      {
        var s :| s in todo;
        CheckNext(before, owner, now, todo, state.View(), s);
        var live := IsLive(s, now);
        if !live {
          state.RemoveFromSet(OwnerKey(owner), s);
        }
        todo := todo - {s};
      }
      var left := state.Members(OwnerKey(owner));
      inUse := left != {};
    }

    method Forget(owner: string)
      modifies state
      ensures state.View() ==
              SessionReaper.RemoveFromSet(SessionReaper.DeleteValues(old(state.View()), {OwnerKey(owner)}), OwnersKey, owner)
      ensures SetMembers(state.View(), OwnerKey(owner)) == {} && owner !in SetMembers(state.View(), OwnersKey)
      ensures forall o :: o != owner ==> SetMembers(state.View(), OwnerKey(o)) == SetMembers(old(state.View()), OwnerKey(o))
      ensures SetMembers(state.View(), OwnersKey) == SetMembers(old(state.View()), OwnersKey) - {owner}
    {
      state.DeleteValues([OwnerKey(owner)]);
      assert (set k | k in [OwnerKey(owner)]) == {OwnerKey(owner)};
      state.RemoveFromSet(OwnersKey, owner);
    }

    /** One owner's sweep: torn down exactly when no session of the owner is live. */
    method ReapOwner(owner: string, now: int) returns (tornDown: bool)
      modifies state
      ensures tornDown == (LiveMembers(old(state.View()), owner, now) == {})
      ensures tornDown ==> SetMembers(state.View(), OwnerKey(owner)) == {} && owner !in SetMembers(state.View(), OwnersKey)
      ensures !tornDown ==> SetMembers(state.View(), OwnerKey(owner)) == LiveMembers(old(state.View()), owner, now)
      ensures forall o :: o != owner ==> SetMembers(state.View(), OwnerKey(o)) == SetMembers(old(state.View()), OwnerKey(o))
    {
      var inUse := InUse(owner, now);
      if inUse {
        return false;
      }
      Forget(owner);
      tornDown := true;
    }
  }
}
