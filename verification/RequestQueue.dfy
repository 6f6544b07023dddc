/**
  The in-memory request queue: one queue per tenant, and per active set a list
  of tenants served round-robin. Each operation runs without interruption.
*/
module RequestQueue {
  import opened Wrappers

  datatype Request = Request(model: Option<string>, body: nat)

  function TenantOf(r: Request): string
  {
    if r.model.Some? then r.model.value else "default"
  }

  function SetKey(id: Option<string>): string
  {
    if id.Some? && id.value != "" then id.value else "default"
  }

  /**
    Queues, active lists, the order in which the sets first appeared, and for
    each tenant the sets its pending requests were put into.
  */
  datatype Store = Store(
    queues: map<string, seq<Request>>,
    active: map<string, seq<string>>,
    order: seq<string>,
    via: map<string, set<string>>)

  function Queue(q: Store, t: string): seq<Request>
  {
    if t in q.queues then q.queues[t] else []
  }

  function Active(q: Store, key: string): seq<string>
  {
    if key in q.active then q.active[key] else []
  }

  function Via(q: Store, t: string): set<string>
  {
    if t in q.via then q.via[t] else {}
  }

  function Put(q: Store, r: Request, id: Option<string>): Store
  {
    var t, key := TenantOf(r), SetKey(id);
    var list := Active(q, key);
    Store(
      q.queues[t := Queue(q, t) + [r]],
      q.active[key := if t in list then list else list + [t]],
      if key in q.active then q.order else q.order + [key],
      q.via[t := Via(q, t) + {key}])
  }

  /** Tenants at the head with nothing pending are dropped. */
  function SkipStale(queues: map<string, seq<Request>>, list: seq<string>): seq<string>
  {
    if list != [] && !(list[0] in queues && queues[list[0]] != []) then SkipStale(queues, list[1..]) else list
  }

  /** What a call takes: everything pending of one tenant. */
  datatype Batch = Batch(tenant: string, requests: seq<Request>)

  datatype Got = Got(store: Store, batch: Option<Batch>)

  /** Serves the head of a list and moves it to the tail, if anyone on the list has work. */
  function TakeFrom(q: Store, key: string): Got
  {
    var list := SkipStale(q.queues, Active(q, key));
    if list == [] then
      Got(if key in q.active then q.(active := q.active[key := []]) else q, None)
    else
      var t := list[0];
      Got(q.(active := q.active[key := list[1..] + [t]], queues := q.queues[t := []], via := q.via[t := {}]),
          Some(Batch(t, Queue(q, t))))
  }

  /** Without a set, the first list that has anyone with work, in the order the sets appeared. */
  function TakeAny(q: Store, order: seq<string>): Got
    decreases |order|
  {
    if order == [] then Got(q, None)
    else
      var g := TakeFrom(q, order[0]);
      if g.batch.Some? then g else TakeAny(g.store, order[1..])
  }

  /** None means that the caller waits. */
  function Get(q: Store, id: Option<string>): Got
  {
    if id.Some? && id.value != "" then TakeFrom(q, id.value) else TakeAny(q, q.order)
  }

  const EMPTY: Store := Store(map[], map[], [], map[])

  // ---------- runs ----------

  datatype Op = DoPut(request: Request, id: Option<string>) | DoGet(id: Option<string>)

  function Step(q: Store, op: Op): Got
  {
    match op
    case DoPut(r, id) => Got(Put(q, r, id), None)
    case DoGet(id) => Get(q, id)
  }

  function Run(q: Store, ops: seq<Op>): Store
    decreases |ops|
  {
    if ops == [] then q else Run(Step(q, ops[0]).store, ops[1..])
  }

  function PutBy(ops: seq<Op>, t: string): seq<Request>
  {
    if ops == [] then []
    else (if ops[0].DoPut? && TenantOf(ops[0].request) == t then [ops[0].request] else []) + PutBy(ops[1..], t)
  }

  function Delivered(q: Store, ops: seq<Op>, t: string): seq<Request>
    decreases |ops|
  {
    if ops == [] then []
    else
      var g := Step(q, ops[0]);
      (if g.batch.Some? && g.batch.value.tenant == t then g.batch.value.requests else []) + Delivered(g.store, ops[1..], t)
  }

  // ---------- invariants ----------

  ghost predicate Distinct(list: seq<string>)
  {
    forall i, j :: 0 <= i < j < |list| ==> list[i] != list[j]
  }

  /** The order lists exactly the sets. */
  ghost predicate OrderOk(q: Store)
  {
    Distinct(q.order) && forall k :: k in q.order <==> k in q.active
  }

  /** No tenant is on a list twice, and every tenant listed has a queue. */
  ghost predicate ListsOk(q: Store)
  {
    && (forall k :: k in q.active ==> Distinct(q.active[k]))
    && (forall k, i :: k in q.active && 0 <= i < |q.active[k]| ==> q.active[k][i] in q.queues)
  }

  /** A tenant with work is on the list of every set its pending requests were put into, and of at least one. */
  ghost predicate Listed(q: Store, t: string)
  {
    if Queue(q, t) == [] then Via(q, t) == {}
    else Via(q, t) != {} && forall k :: k in Via(q, t) ==> t in Active(q, k)
  }

  ghost predicate WorkIsListed(q: Store)
  {
    forall t :: Listed(q, t)
  }

  ghost predicate StoreOk(q: Store)
  {
    OrderOk(q) && ListsOk(q) && WorkIsListed(q)
  }

  lemma {:induction false} SkipStaleIsSuffix(queues: map<string, seq<Request>>, list: seq<string>) returns (n: nat)
    ensures n <= |list| && SkipStale(queues, list) == list[n..]
    ensures forall i :: 0 <= i < n ==> !(list[i] in queues && queues[list[i]] != [])
    ensures n < |list| ==> list[n] in queues && queues[list[n]] != []
  {
    if list != [] && !(list[0] in queues && queues[list[0]] != []) {
      var m := SkipStaleIsSuffix(queues, list[1..]);
      n := m + 1;
      assert list[1..][m..] == list[n..];
      assert forall i :: 1 <= i < n ==> list[i] == list[1..][i - 1];
    } else {
      n := 0;
    }
  }

  lemma PutKeepsListed(q: Store, r: Request, id: Option<string>, t: string)
    requires Listed(q, t)
    ensures Listed(Put(q, r, id), t)
  {
    var z, key := Put(q, r, id), SetKey(id);
    assert t in Active(q, key) ==> t in Active(z, key);
    if t == TenantOf(r) {
      assert Queue(z, t) != [] && key in Via(z, t) && t in Active(z, key);
    }
  }

  lemma OneMoreDistinct(list: seq<string>, x: string)
    requires Distinct(list) && x !in list
    ensures Distinct(list + [x]) && forall k :: k in list + [x] <==> k in list || k == x
  {
  }

  lemma PutKeepsOrder(q: Store, r: Request, id: Option<string>)
    requires OrderOk(q)
    ensures OrderOk(Put(q, r, id))
  {
    if SetKey(id) !in q.active {
      OneMoreDistinct(q.order, SetKey(id));
    }
  }

  lemma PutKeepsLists(q: Store, r: Request, id: Option<string>)
    requires ListsOk(q)
    ensures ListsOk(Put(q, r, id))
  {
    var list := Active(q, SetKey(id));
    if TenantOf(r) !in list {
      OneMoreDistinct(list, TenantOf(r));
    }
  }

  lemma PutKeepsOk(q: Store, r: Request, id: Option<string>)
    requires StoreOk(q)
    ensures StoreOk(Put(q, r, id))
  {
    PutKeepsOrder(q, r, id);
    PutKeepsLists(q, r, id);
    forall t ensures Listed(Put(q, r, id), t) {
      PutKeepsListed(q, r, id, t);
    }
  }

  /** Only tenants without work leave a list. */
  lemma TakeKeepsWorkers(q: Store, key: string, t: string)
    requires Queue(TakeFrom(q, key).store, t) != []
    ensures Queue(TakeFrom(q, key).store, t) == Queue(q, t) && Via(TakeFrom(q, key).store, t) == Via(q, t)
    ensures forall k :: t in Active(q, k) ==> t in Active(TakeFrom(q, key).store, k)
  {
    var list := Active(q, key);
    var n := SkipStaleIsSuffix(q.queues, list);
    if t in list {
      var i :| 0 <= i < |list| && list[i] == t;
      assert i >= n;
      if i > n {
        assert list[n..][i - n] == t && list[n..][1..][i - n - 1] == t;
      }
    }
  }

  lemma RotationIsDistinct(list: seq<string>, n: nat)
    requires Distinct(list) && n < |list|
    ensures Distinct(list[n..][1..] + [list[n..][0]])
  {
  }

  lemma TakeKeepsOk(q: Store, key: string)
    requires StoreOk(q)
    ensures StoreOk(TakeFrom(q, key).store) && TakeFrom(q, key).store.order == q.order
  {
    var n := SkipStaleIsSuffix(q.queues, Active(q, key));
    if n < |Active(q, key)| {
      RotationIsDistinct(Active(q, key), n);
    }
    forall t ensures Listed(TakeFrom(q, key).store, t) {
      assert Listed(q, t);
      if Queue(TakeFrom(q, key).store, t) != [] {
        TakeKeepsWorkers(q, key, t);
      }
    }
  }

  lemma {:induction false} TakeAnyKeepsOk(q: Store, order: seq<string>)
    requires StoreOk(q)
    ensures StoreOk(TakeAny(q, order).store) && TakeAny(q, order).store.order == q.order
    decreases |order|
  {
    if order == [] {
    } else {
      TakeKeepsOk(q, order[0]);
      TakeAnyKeepsOk(TakeFrom(q, order[0]).store, order[1..]);
    }
  }

  lemma StepKeepsOk(q: Store, op: Op)
    requires StoreOk(q)
    ensures StoreOk(Step(q, op).store)
  {
    match op
    case DoPut(r, id) => PutKeepsOk(q, r, id);
    case DoGet(id) =>
      if id.Some? && id.value != "" {
        TakeKeepsOk(q, id.value);
      } else {
        TakeAnyKeepsOk(q, q.order);
      }
  }

  /** In every run, work is listed and no list holds a tenant twice. */
  lemma {:induction false} RunKeepsOk(q: Store, ops: seq<Op>)
    requires StoreOk(q)
    ensures StoreOk(Run(q, ops))
    decreases |ops|
  {
    if ops == [] {
    } else {
      StepKeepsOk(q, ops[0]);
      RunKeepsOk(Step(q, ops[0]).store, ops[1..]);
    }
  }

  // ---------- nothing is lost, nothing is reordered ----------

  lemma {:induction false} TakeAnyMovesOneQueue(q: Store, order: seq<string>, t: string)
    ensures var g := TakeAny(q, order);
            if g.batch.Some? && g.batch.value.tenant == t
            then g.batch.value.requests == Queue(q, t) != [] && Queue(g.store, t) == []
            else Queue(g.store, t) == Queue(q, t)
    decreases |order|
  {
    if order == [] {
    } else {
      TakeMovesOneQueue(q, order[0], t);
      TakeAnyMovesOneQueue(TakeFrom(q, order[0]).store, order[1..], t);
    }
  }

  lemma TakeMovesOneQueue(q: Store, key: string, t: string)
    ensures var g := TakeFrom(q, key);
            if g.batch.Some? && g.batch.value.tenant == t
            then g.batch.value.requests == Queue(q, t) != [] && Queue(g.store, t) == []
            else Queue(g.store, t) == Queue(q, t)
  {
    var n := SkipStaleIsSuffix(q.queues, Active(q, key));
  }

  lemma StepMovesOneQueue(q: Store, op: Op, t: string)
    ensures var g := Step(q, op);
            Queue(q, t) + PutBy([op], t) ==
            (if g.batch.Some? && g.batch.value.tenant == t then g.batch.value.requests else []) + Queue(g.store, t)
  {
    assert PutBy([], t) == [];
    match op
    case DoPut(r, id) =>
    case DoGet(id) =>
      if id.Some? && id.value != "" {
        TakeMovesOneQueue(q, id.value, t);
      } else {
        TakeAnyMovesOneQueue(q, q.order, t);
      }
  }

  /** For every tenant and every run: what was delivered, followed by what is queued, is what was put, in order. */
  lemma {:induction false} EveryRequestOnceInOrder(q: Store, ops: seq<Op>, t: string)
    ensures Delivered(q, ops, t) + Queue(Run(q, ops), t) == Queue(q, t) + PutBy(ops, t)
    decreases |ops|
  {
    if ops == [] {
    } else {
      var g := Step(q, ops[0]);
      StepMovesOneQueue(q, ops[0], t);
      EveryRequestOnceInOrder(g.store, ops[1..], t);
      var now := if g.batch.Some? && g.batch.value.tenant == t then g.batch.value.requests else [];
      PutByCons(ops, t);
      Chained(now, Delivered(g.store, ops[1..], t), Queue(Run(q, ops), t),
              Queue(g.store, t), PutBy(ops[1..], t), Queue(q, t), PutBy([ops[0]], t));
    }
  }

  lemma PutByCons(ops: seq<Op>, t: string)
    requires ops != []
    ensures PutBy(ops, t) == PutBy([ops[0]], t) + PutBy(ops[1..], t)
  {
    assert PutBy([], t) == [];
  }

  lemma Chained<T>(now: seq<T>, later: seq<T>, left: seq<T>, between: seq<T>, putLater: seq<T>, start: seq<T>, putNow: seq<T>)
    requires start + putNow == now + between && later + left == between + putLater
    ensures (now + later) + left == start + (putNow + putLater)
  {
    Regroup(now, later, left);
    Regroup(now, between, putLater);
    Regroup(start, putNow, putLater);
  }

  lemma Regroup<T>(a: seq<T>, b: seq<T>, c: seq<T>)
    ensures a + (b + c) == (a + b) + c
  {
  }
}
