/**
  The queue as it runs: dictionaries and lists changed in place, and a loop that
  drops stale tenants until it finds work or has to wait.
*/
module InMemoryStore {
  import opened Wrappers
  import opened RequestQueue

  /** Everything on the lists of some sets. */
  function Total(q: Store, order: seq<string>): nat
  {
    if order == [] then 0 else |Active(q, order[0])| + Total(q, order[1..])
  }

  function Popped(q: Store, key: string): Store
    requires key in q.active && q.active[key] != []
  {
    q.(active := q.active[key := q.active[key][1..]])
  }

  function Served(q: Store, key: string): Store
    requires key in q.active && q.active[key] != []
  {
    var t := q.active[key][0];
    q.(active := q.active[key := q.active[key][1..] + [t]], queues := q.queues[t := []], via := q.via[t := {}])
  }

  lemma {:induction false} PopShrinks(q: Store, key: string, order: seq<string>)
    requires key in q.active && q.active[key] != [] && Distinct(order)
    ensures Total(Popped(q, key), order) == Total(q, order) - if key in order then 1 else 0
  {
    if order == [] {
    } else {
      PopShrinks(q, key, order[1..]);
      assert Distinct(order) ==> order[0] !in order[1..];
    }
  }

  lemma EmptyListsAreSkipped(q: Store, order: seq<string>)
    requires order != [] && order[0] in q.active && q.active[order[0]] == []
    ensures TakeAny(q, order) == TakeAny(q, order[1..])
  {
    assert q.active[order[0] := []] == q.active;
  }

  /** Dropping a stale head does not change what a call takes from its list. */
  lemma PopKeepsTake(q: Store, key: string)
    requires key in q.active && q.active[key] != [] && Queue(q, q.active[key][0]) == []
    ensures TakeFrom(Popped(q, key), key) == TakeFrom(q, key)
  {
    var list := q.active[key];
    assert SkipStale(q.queues, list) == SkipStale(q.queues, list[1..]);
    assert q.active[key := list[1..]][key := []] == q.active[key := []];
  }

  /** The first list with anyone on it. */
  ghost predicate IsFirst(q: Store, order: seq<string>, i: nat)
  {
    && i <= |order|
    && (forall j :: 0 <= j < |order| ==> order[j] in q.active)
    && (forall j :: 0 <= j < i ==> q.active[order[j]] == [])
    && (i < |order| ==> q.active[order[i]] != [])
  }

  /** Empty lists at the front are passed over. */
  lemma {:induction false} SkipToRest(q: Store, order: seq<string>, i: nat)
    requires i <= |order| && forall j :: 0 <= j < i ==> order[j] in q.active && q.active[order[j]] == []
    ensures TakeAny(q, order) == TakeAny(q, order[i..])
    decreases i
  {
    if i > 0 {
      EmptyListsAreSkipped(q, order);
      assert order[1..][i - 1..] == order[i..];
      SkipToRest(q, order[1..], i - 1);
    } else {
      assert order[0..] == order;
    }
  }

  lemma PopKeepsTakeAny(q: Store, order: seq<string>, i: nat)
    requires IsFirst(q, order, i) && i < |order| && Distinct(order) && Queue(q, q.active[order[i]][0]) == []
    ensures TakeAny(Popped(q, order[i]), order) == TakeAny(q, order)
  {
    var p := Popped(q, order[i]);
    SkipToRest(q, order, i);
    SkipToRest(p, order, i);
    PopKeepsTake(q, order[i]);
    assert order[i..][0] == order[i];
  }

  lemma NothingToTake(q: Store, id: Option<string>, i: nat)
    requires if id.Some? && id.value != "" then Active(q, id.value) == [] else IsFirst(q, q.order, i) && i == |q.order|
    ensures Get(q, id) == Got(q, None)
  {
    if id.Some? && id.value != "" {
      assert id.value in q.active ==> q.active[id.value := []] == q.active;
    } else {
      SkipToRest(q, q.order, i);
    }
  }

  /** Either the head of the list is served, or dropping it changes nothing. */
  lemma HeadDecides(q: Store, id: Option<string>, key: string, i: nat)
    requires StoreOk(q) && key in q.active && q.active[key] != []
    requires if id.Some? && id.value != "" then key == id.value
             else IsFirst(q, q.order, i) && i < |q.order| && key == q.order[i]
    ensures var t := q.active[key][0];
            if Queue(q, t) == [] then Get(Popped(q, key), id) == Get(q, id)
            else Get(q, id) == Got(Served(q, key), Some(Batch(t, Queue(q, t))))
  {
    var t := q.active[key][0];
    assert TakeFrom(q, key).batch.Some? <== Queue(q, t) != [];
    if Queue(q, t) == [] {
      PopKeepsTake(q, key);
    }
    if !(id.Some? && id.value != "") {
      SkipToRest(q, q.order, i);
      if Queue(q, t) == [] {
        PopKeepsTakeAny(q, q.order, i);
      }
    }
  }

  lemma PopKeepsOk(q: Store, key: string)
    requires StoreOk(q) && key in q.active && q.active[key] != [] && Queue(q, q.active[key][0]) == []
    ensures StoreOk(Popped(q, key))
  {
    forall t ensures Listed(Popped(q, key), t) {
      assert Listed(q, t);
      if t in q.active[key] && t != q.active[key][0] {
        assert t in q.active[key][1..];
      }
    }
  }

  /** A put, entry by entry. */
  lemma PutMeans(q: Store, r: Request, id: Option<string>)
    ensures var t := if r.model.Some? then r.model.value else "default";
            var key := if id.Some? && id.value != "" then id.value else "default";
            var z := Put(q, r, id);
            && t in z.queues && z.queues[t] == (if t in q.queues then q.queues[t] else []) + [r]
            && key in z.active && t in z.active[key]
            && (forall u :: u != t ==> (u in z.queues <==> u in q.queues) && (u in z.queues ==> z.queues[u] == q.queues[u]))
            && forall k :: k != key ==> (k in z.active <==> k in q.active) && (k in z.active ==> z.active[k] == q.active[k])
  {
  }

  class InMemoryStore {
    var queues: map<string, seq<Request>>
    var activeTenants: map<string, seq<string>>
    var order: seq<string>
    ghost var via: map<string, set<string>>

    ghost function View(): Store
      reads this
    {
      Store(queues, activeTenants, order, via)
    }

    constructor ()
      ensures View() == EMPTY && StoreOk(View())
    {
      queues, activeTenants, order, via := map[], map[], [], map[];
    }

    method Enqueue(t: string, r: Request)
      modifies `queues
      ensures queues == old(queues)[t := (if t in old(queues) then old(queues)[t] else []) + [r]]
    {
      if t !in queues {
        queues := queues[t := []];
      }
      queues := queues[t := queues[t] + [r]];
    }

    /** setdefault, and an append when the tenant is not on the list yet. */
    method Activate(t: string, key: string)
      modifies `activeTenants, `order
      ensures var list := if key in old(activeTenants) then old(activeTenants)[key] else [];
              activeTenants == old(activeTenants)[key := if t in list then list else list + [t]]
      ensures order == if key in old(activeTenants) then old(order) else old(order) + [key]
    {
      if key !in activeTenants {
        activeTenants, order := activeTenants[key := []], order + [key];
      }
      if t !in activeTenants[key] {
        activeTenants := activeTenants[key := activeTenants[key] + [t]];
      }
    }

    method PutRequest(r: Request, id: Option<string>)
      requires StoreOk(View())
      modifies this
      ensures View() == Put(old(View()), r, id) && StoreOk(View())
      ensures var t := if r.model.Some? then r.model.value else "default";
              var key := if id.Some? && id.value != "" then id.value else "default";
              && t in queues && queues[t] == (if t in old(queues) then old(queues)[t] else []) + [r]
              && key in activeTenants && t in activeTenants[key]
              && (forall u :: u != t ==> (u in queues <==> u in old(queues)) && (u in queues ==> queues[u] == old(queues)[u]))
              && forall k :: k != key ==> (k in activeTenants <==> k in old(activeTenants)) && (k in activeTenants ==> activeTenants[k] == old(activeTenants)[k])
    {
      PutKeepsOk(View(), r, id);
      PutMeans(View(), r, id);
      ghost var after := Put(View(), r, id);
      Enqueue(TenantOf(r), r);
      Activate(TenantOf(r), SetKey(id));
      via := after.via;
      assert View() == after;
    }

    /** The list a call looks at: its set's, or the first with anyone on it. */
    method PickList(id: Option<string>) returns (key: Option<string>, ghost i: nat)
      requires StoreOk(View())
      ensures id.Some? && id.value != "" ==>
                key == if id.value in activeTenants && activeTenants[id.value] != [] then id else None
      ensures !(id.Some? && id.value != "") ==>
                IsFirst(View(), order, i) && key == if i < |order| then Some(order[i]) else None
    {
      i := 0;
      if id.Some? && id.value != "" {
        key := if id.value in activeTenants && activeTenants[id.value] != [] then id else None;
        return;
      }
      var n := 0;
      while n < |order| && activeTenants[order[n]] == []
        invariant n <= |order| && forall j :: 0 <= j < n ==> activeTenants[order[j]] == []
      {
        n := n + 1;
      }
      i := n;
      key := if n < |order| then Some(order[n]) else None;
    }

    method ServeHead(key: string) returns (batch: seq<Request>)
      requires key in activeTenants && activeTenants[key] != [] && activeTenants[key][0] in queues
      modifies this
      ensures batch == old(queues)[old(activeTenants)[key][0]]
      ensures View() == Served(old(View()), key)
    {
      var list := activeTenants[key];
      var t := list[0];
      batch := queues[t];
      queues, via := queues[t := []], via[t := {}];
      activeTenants := activeTenants[key := list[1..] + [t]];
    }

    method DropHead(key: string)
      requires key in activeTenants && activeTenants[key] != []
      modifies `activeTenants
      ensures View() == Popped(old(View()), key)
    {
      activeTenants := activeTenants[key := activeTenants[key][1..]];
    }

    /** Serves one tenant, or returns nothing when the caller has to wait; stale tenants are dropped on the way. */
    method GetRequests(id: Option<string>) returns (batch: Option<seq<Request>>)
      requires StoreOk(View())
      modifies this
      ensures StoreOk(View()) && View() == Get(old(View()), id).store
      ensures var b := Get(old(View()), id).batch; batch == if b.Some? then Some(b.value.requests) else None
    {
      ghost var want := Get(View(), id);
      StepKeepsOk(View(), DoGet(id));
      while true
        invariant StoreOk(View()) && Get(View(), id) == want
        decreases Total(View(), order)
      {
        ghost var now := View();
        var key, i := PickList(id);
        if key.None? {
          NothingToTake(now, id, i);
          return None;
        }
        HeadDecides(now, id, key.value, i);
        if queues[activeTenants[key.value][0]] != [] {
          var requests := ServeHead(key.value);
          return Some(requests);
        }
        PopShrinks(now, key.value, order);
        PopKeepsOk(now, key.value);
        DropHead(key.value);
      }
    }
  }
}
